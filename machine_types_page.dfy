/** The administration page for machine types, section templates and
    attribute definitions, as a store whose tables its mutations update
    step by step. Every method is proved against the snapshot function of
    module Propagation that it implements; the meaning of those functions
    is proved in modules FanOutFacts, CopyFacts, TemplateFacts,
    AttributeFacts and TypeFacts. */
module MachineTypesPage {
  import opened Common
  import opened Schema
  import opened Propagation
  import FanOutFacts
  import TypeFacts
  import CopyFacts

  class Store {
    var machineTypes: seq<MachineType>
    var templates: seq<SectionTemplate>
    var definitions: seq<AttributeDefinition>
    var lines: seq<ProductionLine>
    var machines: seq<Machine>
    var sections: seq<MachineSection>
    var values: seq<AttributeValue>
    /** The database's id generator: the next id handed out is `FreshId(serial)`. */
    var serial: nat

    /** The tables as one snapshot. */
    function State(): Db
      reads this
    {
      Db(machineTypes, templates, definitions, lines, machines, sections, values, serial)
    }

    constructor (db: Db)
      ensures State() == db
    {
      machineTypes := db.machineTypes;
      templates := db.templates;
      definitions := db.definitions;
      lines := db.lines;
      machines := db.machines;
      sections := db.sections;
      values := db.values;
      serial := db.serial;
    }

    /** The id the database gives the next inserted row. */
    method NewId() returns (id: Id)
      modifies this
      ensures id == FreshId(old(serial)) && State() == old(State()).(serial := old(serial) + 1)
    {
      id := FreshId(serial);
      serial := serial + 1;
    }

    /** `syncTemplateToMachines`: when some section uses template `tid`,
        all of them take the template's name, description and order. */
    method SyncTemplateToMachines(tid: Id, form: TemplateForm)
      modifies this
      ensures State() == old(State()).(sections := SyncSections(old(sections), tid, form))
    {
      var hit := SectionsOf(sections, tid);
      if |hit| > 0 {
        sections := SyncSections(sections, tid, form);
      } else {
        assert forall k :: 0 <= k < |sections| ==> sections[k] in sections;
        assert SyncSections(sections, tid, form) == sections;
      }
    }

    /** One iteration of the fan-out loop: unless machine `mid` already has
        a section of template `tid`, the section, then one empty value row
        per definition of the template (inserted together, when there is
        any). */
    method AddSectionForMachine(form: TemplateForm, tid: Id, mid: Id)
      modifies this
      ensures State() == AddSectionFor(old(State()), form, tid, mid)
    {
      if !HasSection(sections, mid, tid) {
        var sid := NewId();
        sections := sections + [NewSection(form, tid, mid, sid)];
        var defs := DefinitionsOf(definitions, tid);
        if |defs| > 0 {
          values := values + NullValues(defs, sid, serial);
          serial := serial + |defs|;
        } else {
          assert values + NullValues(defs, sid, serial) == values;
        }
      }
    }

    /** `addTemplateSectionToExistingMachines`: the loop over the machines
        of the template's type. A machine without a section of template
        `tid` gets one, with an empty value row per definition. */
    method AddTemplateSectionToExistingMachines(form: TemplateForm, tid: Id)
      modifies this
      ensures State() == AddSectionsFor(old(State()), form, tid, MachinesOfType(old(machines), form.machineType))
      ensures AtMostOneSection(old(State())) ==> AtMostOneSection(State())
    {
      var ms := MachinesOfType(machines, form.machineType);
      ghost var s0 := State();
      var i := 0;
      while i < |ms|
        invariant 0 <= i <= |ms|
        invariant State() == AddSectionsFor(s0, form, tid, ms[..i])
      {
        assert ms[..i + 1][..i] == ms[..i];
        AddSectionForMachine(form, tid, ms[i]);
        i := i + 1;
      }
      assert ms[..i] == ms;
      if AtMostOneSection(s0) {
        FanOutFacts.AddSectionsKeepsOneSection(s0, form, tid, ms);
      }
    }

    /** `createTemplateMutation`: the template row, then the fan-out. */
    method CreateTemplate(form: TemplateForm) returns (tid: Id)
      modifies this
      ensures tid == FreshId(old(serial))
      ensures State() == Propagation.CreateTemplate(old(State()), form)
    {
      ghost var db := State();
      tid := NewId();
      templates := templates + [TemplateRow(form, tid)];
      assert State() == db.(templates := db.templates + [TemplateRow(form, tid)], serial := db.serial + 1);
      AddTemplateSectionToExistingMachines(form, tid);
    }

    /** `updateTemplateMutation`: the template row, then its sections. */
    method UpdateTemplate(id: Id, form: TemplateForm)
      modifies this
      ensures State() == Propagation.UpdateTemplate(old(State()), id, form)
    {
      templates := UpdateTemplateRows(templates, id, form);
      SyncTemplateToMachines(id, form);
    }

    /** `deleteTemplateMutation`: the sections of the template (their value
        rows go by the foreign-key cascade), then the template row. */
    method DeleteTemplate(id: Id)
      modifies this
      ensures State() == Propagation.DeleteTemplate(old(State()), id)
    {
      values := CascadeValues(values, sections, id);
      sections := SectionsWithout(sections, id);
      templates := TemplatesWithout(templates, id);
    }

    /** `syncAttributeToSections`: the bulk rename of the value rows. */
    method SyncAttributeToSections(did: Id, name: string)
      modifies this
      ensures State() == old(State()).(values := RenameValues(old(values), did, name))
    {
      values := RenameValues(values, did, name);
    }

    /** `addAttributeToExistingSections`: one empty value row per section
        of the template, inserted together when there is any. */
    method AddAttributeToExistingSections(did: Id, name: string, tid: Option<Id>)
      modifies this
      ensures State() == AddAttributeToSections(old(State()), did, name, tid)
    {
      var secs := TargetSections(sections, tid);
      if |secs| > 0 {
        values := values + BlankValuesFor(secs, did, name, serial);
        serial := serial + |secs|;
      } else {
        assert values + BlankValuesFor(secs, did, name, serial) == values;
      }
    }

    /** `createAttributeMutation`, in the template `tid` selected on the page. */
    method CreateAttribute(form: AttributeForm, tid: Option<Id>) returns (did: Id)
      modifies this
      ensures did == FreshId(old(serial))
      ensures State() == Propagation.CreateAttribute(old(State()), form, tid)
    {
      ghost var db := State();
      did := NewId();
      var row := DefinitionRow(form, did, tid);
      definitions := definitions + [row];
      assert State() == db.(definitions := db.definitions + [row], serial := db.serial + 1);
      AddAttributeToExistingSections(did, row.name, tid);
    }

    /** `updateAttributeMutation`: the definition row, then the rename of
        every value row that refers to it. */
    method UpdateAttribute(id: Id, form: AttributeForm)
      modifies this
      ensures State() == Propagation.UpdateAttribute(old(State()), id, form)
    {
      definitions := UpdateDefinitionRows(definitions, id, form);
      SyncAttributeToSections(id, form.name);
    }

    /** `deleteAttributeMutation`: the value rows, then the definition. */
    method DeleteAttribute(id: Id)
      modifies this
      ensures State() == Propagation.DeleteAttribute(old(State()), id)
    {
      values := ValuesWithout(values, id);
      definitions := DefinitionsWithout(definitions, id);
    }

    /** `duplicateAttributeMutation`, into the selected template `tid`. */
    method DuplicateAttribute(attr: AttributeDefinition, tid: Option<Id>) returns (did: Id)
      modifies this
      ensures did == FreshId(old(serial))
      ensures State() == Propagation.DuplicateAttribute(old(State()), attr, tid)
    {
      ghost var db := State();
      did := NewId();
      var row := DuplicateRow(attr, did, tid);
      definitions := definitions + [row];
      assert State() == db.(definitions := db.definitions + [row], serial := db.serial + 1);
      AddAttributeToExistingSections(did, row.name, tid);
    }

    /** The inner loop of the duplications: every definition of template
        `source` is copied into template `ntid`, one insert each. */
    method CopyAttributes(source: Id, ntid: Id)
      modifies this
      ensures State() == CopyDefinitions(old(State()), DefinitionsOf(old(definitions), source), ntid)
    {
      var attrs := DefinitionsOf(definitions, source);
      ghost var s0 := State();
      var j := 0;
      while j < |attrs|
        invariant 0 <= j <= |attrs|
        invariant State() == CopyDefinitions(s0, attrs[..j], ntid)
      {
        CopyFacts.CopyDefinitionsStep(s0, attrs, j, ntid);
        var id := NewId();
        definitions := definitions + [CopyDefinition(attrs[j], ntid, id)];
        j := j + 1;
      }
      assert attrs[..j] == attrs;
    }

    /** `duplicateSectionMutation`: the copy `"<name> (Copia)"` with order
        `(order || 0) + 1`, its definitions, then the fan-out to the
        machines of the type. */
    method DuplicateSection(t: SectionTemplate) returns (ntid: Id)
      modifies this
      ensures ntid == FreshId(old(serial))
      ensures State() == Propagation.DuplicateSection(old(State()), t)
    {
      var form := CopyForm(t);
      ntid := NewId();
      templates := templates + [TemplateRow(form, ntid)];
      CopyAttributes(t.id, ntid);
      AddTemplateSectionToExistingMachines(form, ntid);
    }

    /** `createMachineTypeMutation`: refused with a message when the name is
        taken, otherwise the type row is inserted. */
    method CreateMachineType(name: string, sequences: seq<string>) returns (err: Option<string>)
      modifies this
      ensures var res := Propagation.CreateMachineType(old(State()), name, sequences);
        && (res.Err? ==> err == Some(res.message) && State() == old(State()))
        && (res.Ok? ==> err == None && State() == res.value)
      ensures UniqueTypeNames(old(machineTypes)) ==> UniqueTypeNames(machineTypes)
    {
      ghost var s0 := State();
      if TypeNameTaken(machineTypes, name) {
        return Some(NameTakenMessage(name));
      }
      var id := NewId();
      machineTypes := machineTypes + [MachineType(id, name, None, None, Some(sequences))];
      err := None;
      TypeFacts.CreateMachineTypeEffect(s0, name, sequences);
    }

    /** `renameMachineTypeMutation`: the conflict check runs only when the
        name changes; then the type row, then (when the name changes) the
        templates and machines that carried the old name. */
    method RenameMachineType(id: Id, oldName: string, newName: string, sequences: seq<string>) returns (err: Option<string>)
      modifies this
      ensures var res := Propagation.RenameMachineType(old(State()), id, oldName, newName, sequences);
        && (res.Err? ==> err == Some(res.message) && State() == old(State()))
        && (res.Ok? ==> err == None && State() == res.value)
    {
      if oldName != newName && TypeNameTakenByOther(machineTypes, newName, id) {
        return Some(NameTakenMessage(newName));
      }
      machineTypes := RenameTypeRows(machineTypes, id, newName, sequences);
      if oldName != newName {
        templates := RetypeTemplates(templates, oldName, newName);
        machines := RetypeMachines(machines, oldName, newName);
      }
      err := None;
    }

    /** One iteration of the template loop of "duplicate machine type":
        the copy of `t` under the type `newName`, then its definitions. */
    method CopyTemplateUnder(t: SectionTemplate, newName: string)
      modifies this
      ensures State() == CopyTemplate(old(State()), t, newName)
    {
      var ntid := NewId();
      templates := templates + [TemplateCopy(t, ntid, newName)];
      CopyAttributes(t.id, ntid);
    }

    /** The template loop of "duplicate machine type". */
    method CopyTemplatesUnder(ts: seq<SectionTemplate>, newName: string)
      modifies this
      ensures State() == CopyTemplates(old(State()), ts, newName)
    {
      ghost var s1 := State();
      var i := 0;
      while i < |ts|
        invariant 0 <= i <= |ts|
        invariant State() == CopyTemplates(s1, ts[..i], newName)
      {
        CopyFacts.CopyTemplatesStep(s1, ts, i, newName);
        CopyTemplateUnder(ts[i], newName);
        i := i + 1;
      }
      assert ts[..i] == ts;
    }

    /** `duplicateMachineTypeMutation`: refused when the name exists;
        otherwise a bare type row, then the loop over the templates of the
        original type, each copied with the inner loop over its
        definitions. No machine is created or changed. */
    method DuplicateMachineType(originalType: string, newName: string) returns (err: Option<string>)
      modifies this
      ensures var res := Propagation.DuplicateMachineType(old(State()), originalType, newName);
        && (res.Err? ==> err == Some(res.message) && State() == old(State()))
        && (res.Ok? ==> err == None && State() == res.value)
      ensures machines == old(machines) && sections == old(sections) && values == old(values)
    {
      if TypeNameTaken(machineTypes, newName) {
        return Some(NameTakenMessage(newName));
      }
      ghost var s0 := State();
      var typeId := NewId();
      machineTypes := machineTypes + [MachineType(typeId, newName, None, None, None)];
      var ts := TemplatesOfType(templates, originalType);
      ghost var s1 := State();
      assert s1 == s0.(machineTypes := s0.machineTypes + [MachineType(FreshId(s0.serial), newName, None, None, None)],
        serial := s0.serial + 1);
      assert ts == TemplatesOfType(s1.templates, originalType);
      ghost var r := CopyTemplates(s1, ts, newName);
      CopyFacts.DuplicateMachineTypeAccepted(s0, originalType, newName);
      CopyTemplatesUnder(ts, newName);
      err := None;
    }

    /** `reorderMachineTypesMutation`: the `i`-th id gets order `i`. */
    method ReorderMachineTypes(ids: seq<Id>)
      modifies this
      ensures State() == old(State()).(machineTypes := ReorderRows(old(machineTypes), ids, TypeId, TypeWithOrder))
      ensures Distinct(ids) ==> forall k, i :: 0 <= k < |machineTypes| && 0 <= i < |ids| && old(machineTypes)[k].id == ids[i] ==>
        machineTypes[k] == old(machineTypes)[k].(order := Some(i))
    {
      var i := 0;
      while i < |ids|
        invariant 0 <= i <= |ids|
        invariant State() == old(State()).(machineTypes := ReorderRows(old(machineTypes), ids[..i], TypeId, TypeWithOrder))
      {
        machineTypes := SetOrderWhere(machineTypes, ids[i], i, TypeId, TypeWithOrder);
        assert ids[..i + 1][..i] == ids[..i];
        i := i + 1;
      }
      assert ids[..i] == ids;
      if Distinct(ids) {
        TypeFacts.TypeOrderLaws();
        forall k | 0 <= k < |machineTypes| {
          TypeFacts.ReorderAssigns(old(machineTypes), ids, TypeId, TypeWithOrder, k);
        }
      }
    }

    /** `reorderTemplatesMutation`. */
    method ReorderTemplates(ids: seq<Id>)
      modifies this
      ensures State() == old(State()).(templates := ReorderRows(old(templates), ids, TemplateId, TemplateWithOrder))
      ensures Distinct(ids) ==> forall k, i :: 0 <= k < |templates| && 0 <= i < |ids| && old(templates)[k].id == ids[i] ==>
        templates[k] == old(templates)[k].(order := Some(i))
    {
      var i := 0;
      while i < |ids|
        invariant 0 <= i <= |ids|
        invariant State() == old(State()).(templates := ReorderRows(old(templates), ids[..i], TemplateId, TemplateWithOrder))
      {
        templates := SetOrderWhere(templates, ids[i], i, TemplateId, TemplateWithOrder);
        assert ids[..i + 1][..i] == ids[..i];
        i := i + 1;
      }
      assert ids[..i] == ids;
      if Distinct(ids) {
        TypeFacts.TemplateOrderLaws();
        forall k | 0 <= k < |templates| {
          TypeFacts.ReorderAssigns(old(templates), ids, TemplateId, TemplateWithOrder, k);
        }
      }
    }

    /** `reorderAttributesMutation`. */
    method ReorderAttributes(ids: seq<Id>)
      modifies this
      ensures State() == old(State()).(definitions := ReorderRows(old(definitions), ids, DefinitionId, DefinitionWithOrder))
      ensures Distinct(ids) ==> forall k, i :: 0 <= k < |definitions| && 0 <= i < |ids| && old(definitions)[k].id == ids[i] ==>
        definitions[k] == old(definitions)[k].(order := Some(i))
    {
      var i := 0;
      while i < |ids|
        invariant 0 <= i <= |ids|
        invariant State() == old(State()).(definitions := ReorderRows(old(definitions), ids[..i], DefinitionId, DefinitionWithOrder))
      {
        definitions := SetOrderWhere(definitions, ids[i], i, DefinitionId, DefinitionWithOrder);
        assert ids[..i + 1][..i] == ids[..i];
        i := i + 1;
      }
      assert ids[..i] == ids;
      if Distinct(ids) {
        TypeFacts.DefinitionOrderLaws();
        forall k | 0 <= k < |definitions| {
          TypeFacts.ReorderAssigns(old(definitions), ids, DefinitionId, DefinitionWithOrder, k);
        }
      }
    }

    /** `onTemplateSubmit`: update the template being edited, or create one. */
    method OnTemplateSubmit(editing: Option<Id>, form: TemplateForm)
      modifies this
      ensures State() == SubmitTemplate(old(State()), editing, form)
    {
      if editing.Some? {
        UpdateTemplate(editing.value, form);
      } else {
        var _ := CreateTemplate(form);
      }
    }

    /** `onAttributeSubmit`: a select attribute without options is refused
        before any table is touched; otherwise update or create. */
    method OnAttributeSubmit(editing: Option<Id>, form: AttributeForm, tid: Option<Id>) returns (err: Option<string>)
      modifies this
      ensures err.Some? <==> form.kind == "select" && |form.options| == 0
      ensures err.Some? ==> err.value == SelectNeedsOptions && State() == old(State())
      ensures err.None? ==> State() == SubmitAttribute(old(State()), editing, form, tid).value
    {
      if form.kind == "select" && |form.options| == 0 {
        return Some(SelectNeedsOptions);
      }
      if editing.Some? {
        UpdateAttribute(editing.value, form);
      } else {
        var _ := CreateAttribute(form, tid);
      }
      err := None;
    }
  }
}
