/** What each mutation of the machine-type administration page does to the
    tables, as functions from one snapshot to the next. The schema side
    (machine type, section templates, attribute definitions) is written
    first and then copied onto the instance side (machine sections and
    attribute values) of every machine the change concerns.

    Every database call is taken to succeed; an insert gets the id
    `FreshId(serial)` and advances `serial`. */
module Propagation {
  import opened Common
  import opened Seqs
  import opened Schema

  /** The template dialog's values. */
  datatype TemplateForm = TemplateForm(
    machineType: string, sectionName: string, description: Option<string>, order: int)

  /** The attribute dialog's values. */
  datatype AttributeForm = AttributeForm(
    name: string, kind: string, isRequired: bool, order: int, options: seq<string>)

  /** The part of a value row that does not depend on generated ids. */
  datatype Slot = Slot(definitionId: Option<Id>, name: string, value: Option<string>)

  /** The part of a definition that a copy must reproduce. */
  datatype Shape = Shape(
    name: string, kind: string, isRequired: Option<bool>, order: Option<int>,
    options: Option<seq<string>>)

  function Slots(vs: seq<AttributeValue>): seq<Slot> {
    seq(|vs|, k requires 0 <= k < |vs| => Slot(vs[k].definitionId, vs[k].name, vs[k].value))
  }

  /** One empty value row per definition, in the definitions' order. */
  function BlankSlots(defs: seq<AttributeDefinition>): seq<Slot> {
    seq(|defs|, k requires 0 <= k < |defs| => Slot(Some(defs[k].id), defs[k].name, None))
  }

  function Shapes(defs: seq<AttributeDefinition>): seq<Shape> {
    seq(|defs|, k requires 0 <= k < |defs| =>
      Shape(defs[k].name, defs[k].kind, defs[k].isRequired, defs[k].order, defs[k].options))
  }

  /** Is there a machine with id `mid` whose type is `name`? */
  predicate HasMachineOfType(machines: seq<Machine>, mid: Id, name: string) {
    exists m :: m in machines && m.id == mid && m.machineType == Some(name)
  }

  /** No machine has two sections for the same template (what the
      existence check of the fan-out keeps). */
  ghost predicate AtMostOneSection(db: Db) {
    forall mid, tid :: SectionCount(db.sections, mid, tid) <= 1
  }

  /** Every section of template `t` carries the template's name,
      description and order. */
  predicate FollowsTemplate(sections: seq<MachineSection>, t: SectionTemplate) {
    forall k :: 0 <= k < |sections| && sections[k].templateId == Some(t.id) ==>
      && sections[k].name == t.sectionName
      && sections[k].description == t.description
      && sections[k].order == t.order
  }

  // =====================================================================
  // Templates

  function TemplateRow(form: TemplateForm, id: Id): SectionTemplate {
    SectionTemplate(id, form.machineType, form.sectionName, form.description, Some(form.order))
  }

  /** The section inserted for machine `mid`. */
  function NewSection(form: TemplateForm, tid: Id, mid: Id, sid: Id): MachineSection {
    MachineSection(sid, mid, Some(tid), form.sectionName, form.description, Some(form.order))
  }

  /** The empty value rows inserted for a new section, one per definition. */
  function NullValues(defs: seq<AttributeDefinition>, sid: Id, base: nat): seq<AttributeValue> {
    seq(|defs|, k requires 0 <= k < |defs| =>
      AttributeValue(FreshId(base + k), sid, Some(defs[k].id), defs[k].name, None))
  }

  /** One iteration of the fan-out loop: machine `mid` gets a section for
      template `tid` and its empty value rows, unless it has one already. */
  function AddSectionFor(db: Db, form: TemplateForm, tid: Id, mid: Id): Db {
    if HasSection(db.sections, mid, tid) then db
    else
      var sid := FreshId(db.serial);
      var defs := DefinitionsOf(db.definitions, tid);
      db.(sections := db.sections + [NewSection(form, tid, mid, sid)],
          values := db.values + NullValues(defs, sid, db.serial + 1),
          serial := db.serial + 1 + |defs|)
  }

  /** The fan-out loop over the machine ids `mids`: the sections and value
      rows only grow, and nothing else changes. */
  function AddSectionsFor(db: Db, form: TemplateForm, tid: Id, mids: seq<Id>): (r: Db)
    ensures r.machineTypes == db.machineTypes && r.templates == db.templates
    ensures r.definitions == db.definitions && r.lines == db.lines && r.machines == db.machines
    ensures db.sections <= r.sections && db.values <= r.values && db.serial <= r.serial
    decreases |mids|
  {
    if mids == [] then db
    else AddSectionFor(AddSectionsFor(db, form, tid, mids[..|mids| - 1]), form, tid, mids[|mids| - 1])
  }

  /** Creating a template: the template row, then the fan-out to every
      machine of its type. */
  function CreateTemplate(db: Db, form: TemplateForm): Db {
    var tid := FreshId(db.serial);
    var db1 := db.(templates := db.templates + [TemplateRow(form, tid)], serial := db.serial + 1);
    AddSectionsFor(db1, form, tid, MachinesOfType(db1.machines, form.machineType))
  }

  function UpdateTemplateRows(templates: seq<SectionTemplate>, id: Id, form: TemplateForm): seq<SectionTemplate> {
    seq(|templates|, k requires 0 <= k < |templates| =>
      if templates[k].id == id then TemplateRow(form, id) else templates[k])
  }

  /** The bulk update of the sections of template `tid`. */
  function SyncSections(sections: seq<MachineSection>, tid: Id, form: TemplateForm): seq<MachineSection> {
    seq(|sections|, k requires 0 <= k < |sections| =>
      if sections[k].templateId == Some(tid)
      then sections[k].(name := form.sectionName, description := form.description, order := Some(form.order))
      else sections[k])
  }

  /** Updating a template, then its sections on every machine. */
  function UpdateTemplate(db: Db, id: Id, form: TemplateForm): Db {
    db.(templates := UpdateTemplateRows(db.templates, id, form),
        sections := SyncSections(db.sections, id, form))
  }

  function SectionsWithout(sections: seq<MachineSection>, tid: Id): seq<MachineSection> {
    Filter(sections, (s: MachineSection) => s.templateId != Some(tid))
  }

  /** Is `sid` the id of a section of template `tid`? */
  predicate IsSectionOf(sections: seq<MachineSection>, tid: Id, sid: Id) {
    exists s :: s in sections && s.templateId == Some(tid) && s.id == sid
  }

  /** The value rows the database's foreign-key cascade leaves when the
      sections of template `tid` are deleted. */
  function CascadeValues(values: seq<AttributeValue>, sections: seq<MachineSection>, tid: Id): seq<AttributeValue> {
    Filter(values, (v: AttributeValue) => !IsSectionOf(sections, tid, v.sectionId))
  }

  function TemplatesWithout(templates: seq<SectionTemplate>, id: Id): seq<SectionTemplate> {
    Filter(templates, (t: SectionTemplate) => t.id != id)
  }

  /** Deleting a template: its sections (with their value rows, by the
      cascade), then the template row. Its definitions stay. */
  function DeleteTemplate(db: Db, id: Id): Db {
    db.(sections := SectionsWithout(db.sections, id),
        values := CascadeValues(db.values, db.sections, id),
        templates := TemplatesWithout(db.templates, id))
  }

  // =====================================================================
  // Attributes

  /** `options` are stored only for a select attribute. */
  function StoredOptions(kind: string, options: seq<string>): (r: Option<seq<string>>)
    ensures r.Some? <==> kind == "select"
    ensures r.Some? ==> r.value == options
  {
    if kind == "select" then Some(options) else None
  }

  function DefinitionRow(form: AttributeForm, id: Id, tid: Option<Id>): AttributeDefinition {
    AttributeDefinition(id, tid, form.name, form.kind, Some(form.isRequired), Some(form.order),
      StoredOptions(form.kind, form.options))
  }

  /** The empty value rows of a new definition, one per section. */
  function BlankValuesFor(secs: seq<MachineSection>, did: Id, name: string, base: nat): seq<AttributeValue> {
    seq(|secs|, k requires 0 <= k < |secs| =>
      AttributeValue(FreshId(base + k), secs[k].id, Some(did), name, None))
  }

  /** The sections a definition of template `tid` applies to (no section
      matches a null template). */
  function TargetSections(sections: seq<MachineSection>, tid: Option<Id>): seq<MachineSection> {
    if tid.Some? then SectionsOf(sections, tid.value) else []
  }

  /** The bulk insert of one empty value row per section of template `tid`. */
  function AddAttributeToSections(db: Db, did: Id, name: string, tid: Option<Id>): Db {
    var secs := TargetSections(db.sections, tid);
    db.(values := db.values + BlankValuesFor(secs, did, name, db.serial),
        serial := db.serial + |secs|)
  }

  /** Inserting the definition row `row`, then its value rows. */
  function WithAttribute(db: Db, row: AttributeDefinition): Db {
    var db1 := db.(definitions := db.definitions + [row], serial := db.serial + 1);
    AddAttributeToSections(db1, row.id, row.name, row.templateId)
  }

  function CreateAttribute(db: Db, form: AttributeForm, tid: Option<Id>): Db {
    WithAttribute(db, DefinitionRow(form, FreshId(db.serial), tid))
  }

  /** The copy made by "duplicate attribute", in the selected template. */
  function DuplicateRow(attr: AttributeDefinition, id: Id, tid: Option<Id>): AttributeDefinition {
    AttributeDefinition(id, tid, attr.name + " (Copia)", attr.kind, attr.isRequired,
      Some(OrZero(attr.order) + 1), attr.options)
  }

  function DuplicateAttribute(db: Db, attr: AttributeDefinition, tid: Option<Id>): Db {
    WithAttribute(db, DuplicateRow(attr, FreshId(db.serial), tid))
  }

  function UpdateDefinitionRows(defs: seq<AttributeDefinition>, id: Id, form: AttributeForm): seq<AttributeDefinition> {
    seq(|defs|, k requires 0 <= k < |defs| =>
      if defs[k].id == id then DefinitionRow(form, id, defs[k].templateId) else defs[k])
  }

  /** The bulk rename of the value rows of definition `did`. */
  function RenameValues(values: seq<AttributeValue>, did: Id, name: string): seq<AttributeValue> {
    seq(|values|, k requires 0 <= k < |values| =>
      if values[k].definitionId == Some(did) then values[k].(name := name) else values[k])
  }

  function UpdateAttribute(db: Db, id: Id, form: AttributeForm): Db {
    db.(definitions := UpdateDefinitionRows(db.definitions, id, form),
        values := RenameValues(db.values, id, form.name))
  }

  function ValuesWithout(values: seq<AttributeValue>, did: Id): seq<AttributeValue> {
    Filter(values, (v: AttributeValue) => v.definitionId != Some(did))
  }

  function DefinitionsWithout(defs: seq<AttributeDefinition>, id: Id): seq<AttributeDefinition> {
    Filter(defs, (d: AttributeDefinition) => d.id != id)
  }

  /** Deleting an attribute: its value rows, then the definition. */
  function DeleteAttribute(db: Db, id: Id): Db {
    db.(values := ValuesWithout(db.values, id), definitions := DefinitionsWithout(db.definitions, id))
  }

  // =====================================================================
  // Copies of definitions and templates

  function CopyDefinition(d: AttributeDefinition, ntid: Id, id: Id): AttributeDefinition {
    AttributeDefinition(id, Some(ntid), d.name, d.kind, d.isRequired, d.order, d.options)
  }

  /** The loop that copies the definitions `attrs` into template `ntid`,
      one insert each. */
  function CopyDefinitions(db: Db, attrs: seq<AttributeDefinition>, ntid: Id): (r: Db)
    ensures r.machineTypes == db.machineTypes && r.templates == db.templates && r.lines == db.lines
    ensures r.machines == db.machines && r.sections == db.sections && r.values == db.values
    ensures db.definitions <= r.definitions && |r.definitions| == |db.definitions| + |attrs|
    ensures r.serial == db.serial + |attrs|
    decreases |attrs|
  {
    if attrs == [] then db
    else
      var p := CopyDefinitions(db, attrs[..|attrs| - 1], ntid);
      p.(definitions := p.definitions + [CopyDefinition(attrs[|attrs| - 1], ntid, FreshId(p.serial))],
         serial := p.serial + 1)
  }

  function CopiedDefinitions(attrs: seq<AttributeDefinition>, ntid: Id, base: nat): seq<AttributeDefinition> {
    seq(|attrs|, k requires 0 <= k < |attrs| => CopyDefinition(attrs[k], ntid, FreshId(base + k)))
  }

  /** Inserting the template row `row`, then a copy of every definition
      of template `source` into it. */
  function WithCopiedTemplate(db: Db, row: SectionTemplate, source: Id): Db {
    var db1 := db.(templates := db.templates + [row], serial := db.serial + 1);
    CopyDefinitions(db1, DefinitionsOf(db1.definitions, source), row.id)
  }

  /** The form a "duplicate section" passes to the fan-out. */
  function CopyForm(t: SectionTemplate): TemplateForm {
    TemplateForm(t.machineType, t.sectionName + " (Copia)", t.description, OrZero(t.order) + 1)
  }

  /** Duplicating a section template: the copy, its definitions, then the
      fan-out to the machines of the same type. */
  function DuplicateSection(db: Db, t: SectionTemplate): Db {
    var form := CopyForm(t);
    var db2 := WithCopiedTemplate(db, TemplateRow(form, FreshId(db.serial)), t.id);
    AddSectionsFor(db2, form, FreshId(db.serial), MachinesOfType(db2.machines, form.machineType))
  }

  /** The copy of template `t` under the type `newName`. */
  function TemplateCopy(t: SectionTemplate, id: Id, newName: string): SectionTemplate {
    SectionTemplate(id, newName, t.sectionName, t.description, t.order)
  }

  /** One iteration of "duplicate machine type": template `t` is copied
      under type `newName`, then its definitions. */
  function CopyTemplate(db: Db, t: SectionTemplate, newName: string): Db {
    WithCopiedTemplate(db, TemplateCopy(t, FreshId(db.serial), newName), t.id)
  }

  function CopyTemplates(db: Db, ts: seq<SectionTemplate>, newName: string): (r: Db)
    ensures r.machineTypes == db.machineTypes && r.lines == db.lines && r.machines == db.machines
    ensures r.sections == db.sections && r.values == db.values
    ensures db.templates <= r.templates && |r.templates| == |db.templates| + |ts|
    ensures db.definitions <= r.definitions && r.serial >= db.serial + |ts|
    decreases |ts|
  {
    if ts == [] then db
    else CopyTemplate(CopyTemplates(db, ts[..|ts| - 1], newName), ts[|ts| - 1], newName)
  }

  // =====================================================================
  // Machine types

  predicate TypeNameTaken(types: seq<MachineType>, name: string) {
    exists t :: t in types && t.name == name
  }

  predicate TypeNameTakenByOther(types: seq<MachineType>, name: string, id: Id) {
    exists t :: t in types && t.name == name && t.id != id
  }

  function NameTakenMessage(name: string): string {
    "Ya existe un tipo de equipo con el nombre \"" + name + "\""
  }

  /** No two machine types share a name. */
  predicate UniqueTypeNames(types: seq<MachineType>) {
    forall i, j :: 0 <= i < j < |types| ==> types[i].name != types[j].name
  }

  function CreateMachineType(db: Db, name: string, sequences: seq<string>): Result<Db> {
    if TypeNameTaken(db.machineTypes, name) then Err(NameTakenMessage(name))
    else Ok(db.(machineTypes := db.machineTypes + [MachineType(FreshId(db.serial), name, None, None, Some(sequences))],
                serial := db.serial + 1))
  }

  function RenameTypeRows(types: seq<MachineType>, id: Id, newName: string, sequences: seq<string>): seq<MachineType> {
    seq(|types|, k requires 0 <= k < |types| =>
      if types[k].id == id then types[k].(name := newName, sequences := Some(sequences)) else types[k])
  }

  function RetypeTemplates(templates: seq<SectionTemplate>, oldName: string, newName: string): seq<SectionTemplate> {
    seq(|templates|, k requires 0 <= k < |templates| =>
      if templates[k].machineType == oldName then templates[k].(machineType := newName) else templates[k])
  }

  function RetypeMachines(machines: seq<Machine>, oldName: string, newName: string): seq<Machine> {
    seq(|machines|, k requires 0 <= k < |machines| =>
      if machines[k].machineType == Some(oldName) then machines[k].(machineType := Some(newName)) else machines[k])
  }

  /** Renaming a machine type (and replacing its sequences); templates and
      machines follow the name only when it changes. */
  function RenameMachineType(db: Db, id: Id, oldName: string, newName: string, sequences: seq<string>): Result<Db> {
    if oldName != newName && TypeNameTakenByOther(db.machineTypes, newName, id) then Err(NameTakenMessage(newName))
    else
      var db1 := db.(machineTypes := RenameTypeRows(db.machineTypes, id, newName, sequences));
      if oldName != newName then
        Ok(db1.(templates := RetypeTemplates(db1.templates, oldName, newName),
                machines := RetypeMachines(db1.machines, oldName, newName)))
      else Ok(db1)
  }

  /** Duplicating a machine type: a bare type row, then a copy of every
      template of the original type with its definitions. */
  function DuplicateMachineType(db: Db, originalType: string, newName: string): Result<Db> {
    if TypeNameTaken(db.machineTypes, newName) then Err(NameTakenMessage(newName))
    else
      var db1 := db.(machineTypes := db.machineTypes + [MachineType(FreshId(db.serial), newName, None, None, None)],
                     serial := db.serial + 1);
      Ok(CopyTemplates(db1, TemplatesOfType(db1.templates, originalType), newName))
  }

  // =====================================================================
  // Reordering

  /** The update of one id's order inside the reorder loop. */
  function SetOrderWhere<R>(rows: seq<R>, id: Id, i: int, idOf: R -> Id, withOrder: (R, int) -> R): seq<R> {
    seq(|rows|, k requires 0 <= k < |rows| => if idOf(rows[k]) == id then withOrder(rows[k], i) else rows[k])
  }

  /** The reorder loop: the `i`-th id of `ids` gets order `i`. */
  function ReorderRows<R>(rows: seq<R>, ids: seq<Id>, idOf: R -> Id, withOrder: (R, int) -> R): (r: seq<R>)
    ensures |r| == |rows|
    decreases |ids|
  {
    if ids == [] then rows
    else SetOrderWhere(ReorderRows(rows, ids[..|ids| - 1], idOf, withOrder), ids[|ids| - 1], |ids| - 1, idOf, withOrder)
  }

  function TypeId(t: MachineType): Id { t.id }
  function TypeWithOrder(t: MachineType, i: int): MachineType { t.(order := Some(i)) }
  function TemplateId(t: SectionTemplate): Id { t.id }
  function TemplateWithOrder(t: SectionTemplate, i: int): SectionTemplate { t.(order := Some(i)) }
  function DefinitionId(d: AttributeDefinition): Id { d.id }
  function DefinitionWithOrder(d: AttributeDefinition, i: int): AttributeDefinition { d.(order := Some(i)) }

  /** The last position of `id` in `ids`. */
  function LastIndex(ids: seq<Id>, id: Id): (i: nat)
    requires id in ids
    ensures i < |ids| && ids[i] == id
    ensures forall j :: i < j < |ids| ==> ids[j] != id
  {
    if ids[|ids| - 1] == id then |ids| - 1
    else
      assert id in ids[..|ids| - 1] by {
        var j :| 0 <= j < |ids| && ids[j] == id;
        assert ids[..|ids| - 1][j] == id;
      }
      LastIndex(ids[..|ids| - 1], id)
  }

  predicate Distinct(ids: seq<Id>) {
    forall i, j :: 0 <= i < j < |ids| ==> ids[i] != ids[j]
  }

  // =====================================================================
  // The dialogs' submit handlers

  /** The template dialog: update when editing, create otherwise. */
  function SubmitTemplate(db: Db, editing: Option<Id>, form: TemplateForm): Db {
    match editing
    case Some(id) => UpdateTemplate(db, id, form)
    case None => CreateTemplate(db, form)
  }

  const SelectNeedsOptions := "Los atributos de tipo \"Selección\" requieren al menos una opción."

  /** The attribute dialog: a select attribute without options is refused
      before anything is written. */
  function SubmitAttribute(db: Db, editing: Option<Id>, form: AttributeForm, tid: Option<Id>): (r: Result<Db>)
    ensures r.Err? <==> form.kind == "select" && |form.options| == 0
    ensures r.Ok? && editing.Some? ==> r.value == UpdateAttribute(db, editing.value, form)
    ensures r.Ok? && editing.None? ==> r.value == CreateAttribute(db, form, tid)
  {
    if form.kind == "select" && |form.options| == 0 then Err(SelectNeedsOptions)
    else if editing.Some? then Ok(UpdateAttribute(db, editing.value, form))
    else Ok(CreateAttribute(db, form, tid))
  }
}
