/** Creating, updating, deleting and duplicating section templates, and
    duplicating a whole machine type, as seen on the machines. */
module TemplateFacts {
  import opened Common
  import opened Schema
  import opened Propagation
  import opened FanOutFacts
  import opened CopyFacts

  lemma MachinesOfTypeIff(machines: seq<Machine>, name: string, mid: Id)
    ensures mid in MachinesOfType(machines, name) <==> HasMachineOfType(machines, mid, name)
  {
  }

  /** Creating a template gives every machine of its type exactly one
      section of it and every other machine none; sections of other
      templates are untouched. */
  lemma CreateTemplateFanOut(db: Db, form: TemplateForm, mid: Id, t: Id)
    requires WellFormed(db)
    ensures var r := CreateTemplate(db, form);
      var tid := FreshId(db.serial);
      && r.templates == db.templates + [TemplateRow(form, tid)]
      && SectionCount(r.sections, mid, tid) == (if HasMachineOfType(db.machines, mid, form.machineType) then 1 else 0)
      && (t != tid ==> SectionCount(r.sections, mid, t) == SectionCount(db.sections, mid, t))
  {
    var tid := FreshId(db.serial);
    var db1 := db.(templates := db.templates + [TemplateRow(form, tid)], serial := db.serial + 1);
    var mids := MachinesOfType(db1.machines, form.machineType);
    var r := AddSectionsFor(db1, form, tid, mids);
    assert r == CreateTemplate(db, form);
    AddSectionsCount(db1, form, tid, mids, mid, t);
    AddSectionsCount(db1, form, tid, mids, mid, tid);
    FreshTemplateHasNoSection(db.sections, db.serial, db.serial, mid);
    MachinesOfTypeIff(db.machines, form.machineType, mid);
    assert SectionCount(r.sections, mid, tid) == (if HasMachineOfType(db.machines, mid, form.machineType) then 1 else 0);
  }

  /** Creating a template keeps the tables well formed with at most one
      section per machine and template. */
  lemma CreateTemplateKeepsInvariants(db: Db, form: TemplateForm)
    requires WellFormed(db) && AtMostOneSection(db)
    ensures WellFormed(CreateTemplate(db, form)) && AtMostOneSection(CreateTemplate(db, form))
  {
    var tid := FreshId(db.serial);
    var db1 := db.(templates := db.templates + [TemplateRow(form, tid)], serial := db.serial + 1);
    var mids := MachinesOfType(db1.machines, form.machineType);
    assert WellFormed(db1);
    AddSectionsWf(db1, form, tid, mids);
    AddSectionsKeepsOneSection(db1, form, tid, mids);
  }

  /** After creating a template, its sections carry its name, description
      and order, and have no value rows yet (a new template has no
      definitions). */
  lemma CreateTemplateSections(db: Db, form: TemplateForm)
    requires WellFormed(db)
    ensures var r := CreateTemplate(db, form);
      && FollowsTemplate(r.sections, TemplateRow(form, FreshId(db.serial)))
      && (forall k :: |db.sections| <= k < |r.sections| ==> ValuesOfSection(r.values, r.sections[k].id) == [])
  {
    var tid := FreshId(db.serial);
    var db1 := db.(templates := db.templates + [TemplateRow(form, tid)], serial := db.serial + 1);
    var mids := MachinesOfType(db1.machines, form.machineType);
    var r := AddSectionsFor(db1, form, tid, mids);
    assert r == CreateTemplate(db, form);
    assert SectionIdsBelow(db1);
    FreshTemplateFollowed(db.sections, db.serial, TemplateRow(form, tid));
    AddSectionsFollows(db1, form, tid, mids);
    AddSectionsContent(db1, form, tid, mids);
    FreshTemplateHasNoDefinitions(db, db.serial);
    forall k | |db.sections| <= k < |r.sections| ensures ValuesOfSection(r.values, r.sections[k].id) == [] {
      assert AddedAsPromised(r, r.sections[k], form, tid, mids, []);
      assert |Slots(ValuesOfSection(r.values, r.sections[k].id))| == 0;
    }
  }

  /** No section follows a template whose id has not been handed out, so
      every section trivially agrees with it. */
  lemma FreshTemplateFollowed(sections: seq<MachineSection>, serial: nat, t: SectionTemplate)
    requires SectionsBelow(sections, serial) && t.id == FreshId(serial)
    ensures FollowsTemplate(sections, t)
  {
    assert forall k :: 0 <= k < |sections| ==> sections[k] in sections;
  }

  lemma {:induction false} SyncSectionsCount(sections: seq<MachineSection>, tid: Id, form: TemplateForm, mid: Id, t: Id)
    ensures SectionCount(SyncSections(sections, tid, form), mid, t) == SectionCount(sections, mid, t)
  {
    if sections != [] {
      var init := sections[..|sections| - 1];
      assert SyncSections(sections, tid, form)[..|sections| - 1] == SyncSections(init, tid, form);
      SyncSectionsCount(init, tid, form, mid, t);
    }
  }

  /** Updating a template brings every section of it in line with the new
      name, description and order; no section changes machine, template or
      id, so every count is kept; sections of other templates, value rows,
      machines and definitions are untouched. */
  lemma UpdateTemplateSyncs(db: Db, id: Id, form: TemplateForm, mid: Id, t: Id)
    ensures var r := UpdateTemplate(db, id, form);
      && FollowsTemplate(r.sections, TemplateRow(form, id))
      && |r.sections| == |db.sections|
      && (forall k :: 0 <= k < |r.sections| ==>
            && r.sections[k].id == db.sections[k].id
            && r.sections[k].machineId == db.sections[k].machineId
            && r.sections[k].templateId == db.sections[k].templateId
            && (db.sections[k].templateId != Some(id) ==> r.sections[k] == db.sections[k]))
      && SectionCount(r.sections, mid, t) == SectionCount(db.sections, mid, t)
      && r.values == db.values && r.machines == db.machines && r.definitions == db.definitions
      && r.machineTypes == db.machineTypes
      && |r.templates| == |db.templates|
      && (forall k :: 0 <= k < |r.templates| ==>
            r.templates[k] == if db.templates[k].id == id then TemplateRow(form, id) else db.templates[k])
  {
    SyncSectionsCount(db.sections, id, form, mid, t);
  }

  /** Deleting a template leaves no section of it and no row of it, keeps
      every other section and template, keeps exactly the value rows that
      do not belong to a deleted section, and leaves the template's
      definitions in place. */
  lemma DeleteTemplateRemoves(db: Db, id: Id, mid: Id)
    ensures var r := DeleteTemplate(db, id);
      && (forall s :: s in r.sections <==> s in db.sections && s.templateId != Some(id))
      && SectionCount(r.sections, mid, id) == 0
      && (forall t :: t in r.templates <==> t in db.templates && t.id != id)
      && (forall v :: v in r.values <==> v in db.values && !IsSectionOf(db.sections, id, v.sectionId))
      && r.definitions == db.definitions
      && DefinitionsOf(r.definitions, id) == DefinitionsOf(db.definitions, id)
      && r.machines == db.machines && r.machineTypes == db.machineTypes
  {
    var r := DeleteTemplate(db, id);
    NoSectionOfTemplate(r.sections, mid, id);
  }

  /** Duplicating a section template adds the copy `"<name> (Copia)"` with
      order `(order || 0) + 1` under the same type, copies every definition
      of the original, and gives every machine of the type exactly one
      section of the copy. */
  lemma DuplicateSectionEffect(db: Db, t: SectionTemplate, mid: Id)
    requires WellFormed(db)
    ensures var r := DuplicateSection(db, t);
      var ntid := FreshId(db.serial);
      && r.templates == db.templates + [TemplateRow(CopyForm(t), ntid)]
      && r.templates[|db.templates|].sectionName == t.sectionName + " (Copia)"
      && r.templates[|db.templates|].order == Some(OrZero(t.order) + 1)
      && r.templates[|db.templates|].machineType == t.machineType
      && Shapes(DefinitionsOf(r.definitions, ntid)) == Shapes(DefinitionsOf(db.definitions, t.id))
      && SectionCount(r.sections, mid, ntid) == (if HasMachineOfType(db.machines, mid, t.machineType) then 1 else 0)
      && WellFormed(r)
  {
    var ntid := FreshId(db.serial);
    var row := TemplateRow(CopyForm(t), ntid);
    var db2 := WithCopiedTemplate(db, row, t.id);
    var mids := MachinesOfType(db2.machines, t.machineType);
    var r := AddSectionsFor(db2, CopyForm(t), ntid, mids);
    assert r == DuplicateSection(db, t);
    assert WellFormed(db2) by {
      WithCopiedTemplateWf(db, row, t.id);
    }
    assert db2.templates == db.templates + [row] by {
      WithCopiedTemplateFresh(db, row, t.id);
    }
    assert Shapes(DefinitionsOf(r.definitions, ntid)) == Shapes(DefinitionsOf(db.definitions, t.id)) by {
      WithCopiedTemplateShapes(db, row, t.id);
    }
    assert WellFormed(r) by {
      AddSectionsWf(db2, CopyForm(t), ntid, mids);
    }
    assert SectionCount(r.sections, mid, ntid) == (if HasMachineOfType(db.machines, mid, t.machineType) then 1 else 0) by {
      AddSectionsCount(db2, CopyForm(t), ntid, mids, mid, ntid);
      FreshTemplateHasNoSection(db.sections, db.serial, db.serial, mid);
      MachinesOfTypeIff(db.machines, t.machineType, mid);
    }
  }

  /** The sections a duplicated template gets on the machines carry one
      empty value row per copied definition. */
  lemma DuplicateSectionValues(db: Db, t: SectionTemplate)
    requires WellFormed(db)
    ensures var r := DuplicateSection(db, t);
      var ntid := FreshId(db.serial);
      forall k :: |db.sections| <= k < |r.sections| ==>
        && r.sections[k].templateId == Some(ntid)
        && Slots(ValuesOfSection(r.values, r.sections[k].id)) == BlankSlots(DefinitionsOf(r.definitions, ntid))
  {
    var ntid := FreshId(db.serial);
    var row := TemplateRow(CopyForm(t), ntid);
    var db2 := WithCopiedTemplate(db, row, t.id);
    var mids := MachinesOfType(db2.machines, t.machineType);
    WithCopiedTemplateWf(db, row, t.id);
    AddSectionsContent(db2, CopyForm(t), ntid, mids);
  }

  /** The template-copy loop of "duplicate machine type", run on the
      templates of the original type. */
  lemma CopyTypeTemplates(db1: Db, ts: seq<SectionTemplate>, newName: string, i: nat)
    requires WellFormed(db1)
    requires forall j :: 0 <= j < |ts| ==> |ts[j].id| <= db1.serial
    ensures var r := CopyTemplates(db1, ts, newName);
      && WellFormed(r)
      && (i < |ts| ==>
            var n := r.templates[|db1.templates| + i];
            && n == TemplateCopy(ts[i], n.id, newName)
            && Shapes(DefinitionsOf(r.definitions, n.id)) == Shapes(DefinitionsOf(db1.definitions, ts[i].id)))
  {
    CopyTemplatesFrame(db1, ts, newName);
    if i < |ts| {
      CopyTemplatesCopies(db1, ts, newName, i);
    }
  }

  /** Duplicating a machine type is refused exactly when the new name is
      taken; otherwise it adds the type row and, for every template of the
      original type, a copy under the new name whose definitions reproduce
      the original's, and it creates or changes no machine, section or
      value row. */
  lemma DuplicateMachineTypeEffect(db: Db, originalType: string, newName: string, i: nat)
    requires WellFormed(db)
    ensures var res := DuplicateMachineType(db, originalType, newName);
      && (res.Err? <==> TypeNameTaken(db.machineTypes, newName))
      && (res.Ok? ==> DuplicatedType(db, res.value, originalType, newName, i))
  {
    if !TypeNameTaken(db.machineTypes, newName) {
      var row := MachineType(FreshId(db.serial), newName, None, None, None);
      var db1 := db.(machineTypes := db.machineTypes + [row], serial := db.serial + 1);
      var ts := TemplatesOfType(db1.templates, originalType);
      assert DuplicateMachineType(db, originalType, newName) == Ok(CopyTemplates(db1, ts, newName));
      DuplicateTypeCopies(db, row, originalType, newName, i);
    }
  }

  /** What a successful "duplicate machine type" leaves: the new type row,
      machines, sections and value rows untouched, the original's templates
      copied after the existing ones, and the `i`-th copy reproducing the
      `i`-th original with its definitions. */
  ghost predicate DuplicatedType(db: Db, r: Db, originalType: string, newName: string, i: nat) {
    var ts := TemplatesOfType(db.templates, originalType);
    && r.machineTypes == db.machineTypes + [MachineType(FreshId(db.serial), newName, None, None, None)]
    && r.machines == db.machines && r.sections == db.sections && r.values == db.values
    && |r.templates| == |db.templates| + |ts| && db.templates <= r.templates
    && WellFormed(r)
    && (i < |ts| ==>
          var n := r.templates[|db.templates| + i];
          && n == TemplateCopy(ts[i], n.id, newName)
          && Shapes(DefinitionsOf(r.definitions, n.id)) == Shapes(DefinitionsOf(db.definitions, ts[i].id)))
  }

  lemma DuplicateTypeCopies(db: Db, row: MachineType, originalType: string, newName: string, i: nat)
    requires WellFormed(db) && row == MachineType(FreshId(db.serial), newName, None, None, None)
    ensures var db1 := db.(machineTypes := db.machineTypes + [row], serial := db.serial + 1);
      DuplicatedType(db, CopyTemplates(db1, TemplatesOfType(db1.templates, originalType), newName), originalType, newName, i)
  {
    var db1 := db.(machineTypes := db.machineTypes + [row], serial := db.serial + 1);
    WithTypeRowWf(db, row);
    var ts := TemplatesOfType(db1.templates, originalType);
    TemplatesOfTypeBelow(db.templates, originalType, db.serial);
    CopyTypeTemplates(db1, ts, newName, i);
    var r := CopyTemplates(db1, ts, newName);
    assert ts == TemplatesOfType(db.templates, originalType);
    assert r.machineTypes == db.machineTypes + [row];
    assert r.machines == db.machines && r.sections == db.sections && r.values == db.values;
    assert |r.templates| == |db.templates| + |ts| && db.templates <= r.templates;
    assert WellFormed(r);
    assert (i < |ts| ==>
          var n := r.templates[|db.templates| + i];
          && n == TemplateCopy(ts[i], n.id, newName)
          && Shapes(DefinitionsOf(r.definitions, n.id)) == Shapes(DefinitionsOf(db.definitions, ts[i].id)));
  }

  /** Inserting a type row with a fresh id keeps the tables well formed. */
  lemma WithTypeRowWf(db: Db, row: MachineType)
    requires WellFormed(db) && |row.id| <= db.serial + 1
    ensures WellFormed(db.(machineTypes := db.machineTypes + [row], serial := db.serial + 1))
  {
  }

  lemma TemplatesOfTypeBelow(templates: seq<SectionTemplate>, name: string, n: nat)
    requires TemplatesBelow(templates, n)
    ensures var ts := TemplatesOfType(templates, name);
      forall j :: 0 <= j < |ts| ==> |ts[j].id| <= n
  {
    var ts := TemplatesOfType(templates, name);
    assert forall j :: 0 <= j < |ts| ==> ts[j] in templates;
  }
}
