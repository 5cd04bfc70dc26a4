/** What the template fan-out guarantees: one section per machine of the
    type and template, the template's name, description and order on it,
    one empty value row per definition, machines that already have the
    section skipped, and a second run changing nothing. */
module FanOutFacts {
  import opened Common
  import opened Schema
  import opened Propagation
  import Seqs

  lemma SectionCountSnoc(sections: seq<MachineSection>, s: MachineSection, mid: Id, tid: Id)
    ensures SectionCount(sections + [s], mid, tid)
      == SectionCount(sections, mid, tid) + (if s.machineId == mid && s.templateId == Some(tid) then 1 else 0)
  {
    assert (sections + [s])[..|sections|] == sections;
  }

  /** A machine has no section of a template that no section refers to. */
  lemma {:induction false} NoSectionOfTemplate(sections: seq<MachineSection>, mid: Id, tid: Id)
    requires forall s :: s in sections ==> s.templateId != Some(tid)
    ensures SectionCount(sections, mid, tid) == 0
  {
    if sections != [] {
      var init := sections[..|sections| - 1];
      assert forall s :: s in init ==> s in sections;
      NoSectionOfTemplate(init, mid, tid);
      assert sections[|sections| - 1] in sections;
    }
  }

  /** No section refers to a template id that has not been handed out. */
  lemma FreshTemplateHasNoSection(sections: seq<MachineSection>, serial: nat, n: nat, mid: Id)
    requires SectionsBelow(sections, serial)
    requires n >= serial
    ensures SectionCount(sections, mid, FreshId(n)) == 0
  {
    NoSectionOfTemplate(sections, mid, FreshId(n));
  }

  /** After the fan-out over `mids`, machine `mid` has exactly one section
      of template `tid` if it is in `mids` and had none before; every
      other count, for every machine and template, is what it was. */
  lemma {:induction false} AddSectionsCount(db: Db, form: TemplateForm, tid: Id, mids: seq<Id>, mid: Id, t: Id)
    ensures SectionCount(AddSectionsFor(db, form, tid, mids).sections, mid, t)
      == if t == tid && mid in mids && SectionCount(db.sections, mid, t) == 0 then 1
         else SectionCount(db.sections, mid, t)
    decreases |mids|
  {
    if mids != [] {
      var init := mids[..|mids| - 1];
      var last := mids[|mids| - 1];
      var p := AddSectionsFor(db, form, tid, init);
      AddSectionsCount(db, form, tid, init, mid, t);
      HasSectionIffCount(p.sections, last, tid);
      Seqs.InInitOrLast(mids, mid);
      if !HasSection(p.sections, last, tid) {
        SectionCountSnoc(p.sections, NewSection(form, tid, last, FreshId(p.serial)), mid, t);
      }
    }
  }

  /** The fan-out keeps "at most one section per machine and template". */
  lemma AddSectionsKeepsOneSection(db: Db, form: TemplateForm, tid: Id, mids: seq<Id>)
    requires AtMostOneSection(db)
    ensures AtMostOneSection(AddSectionsFor(db, form, tid, mids))
  {
    forall mid, t ensures SectionCount(AddSectionsFor(db, form, tid, mids).sections, mid, t) <= 1 {
      AddSectionsCount(db, form, tid, mids, mid, t);
    }
  }

  /** The fan-out does nothing when every machine already has the section. */
  lemma {:induction false} AddSectionsNoOp(db: Db, form: TemplateForm, tid: Id, mids: seq<Id>)
    requires forall k :: 0 <= k < |mids| ==> HasSection(db.sections, mids[k], tid)
    ensures AddSectionsFor(db, form, tid, mids) == db
    decreases |mids|
  {
    if mids != [] {
      AddSectionsNoOp(db, form, tid, mids[..|mids| - 1]);
    }
  }

  /** Running the fan-out a second time, with any form, changes nothing. */
  lemma AddSectionsIdempotent(db: Db, form: TemplateForm, form2: TemplateForm, tid: Id, mids: seq<Id>)
    ensures AddSectionsFor(AddSectionsFor(db, form, tid, mids), form2, tid, mids)
      == AddSectionsFor(db, form, tid, mids)
  {
    var r := AddSectionsFor(db, form, tid, mids);
    forall k | 0 <= k < |mids| ensures HasSection(r.sections, mids[k], tid) {
      AddSectionsCount(db, form, tid, mids, mids[k], tid);
      HasSectionIffCount(r.sections, mids[k], tid);
    }
    AddSectionsNoOp(r, form2, tid, mids);
  }

  /** The empty value rows of a new section refer to existing definitions
      and use ids below the advanced `serial`. */
  lemma NullValuesBelow(db: Db, tid: Id)
    requires DefinitionsBelow(db.definitions, db.serial)
    ensures var defs := DefinitionsOf(db.definitions, tid);
      ValuesBelow(NullValues(defs, FreshId(db.serial), db.serial + 1), db.serial + 1 + |defs|)
  {
    var defs := DefinitionsOf(db.definitions, tid);
    var added := NullValues(defs, FreshId(db.serial), db.serial + 1);
    forall v | v in added
      ensures |v.id| <= db.serial + 1 + |defs| && |v.sectionId| <= db.serial + 1 + |defs|
      ensures Below(v.definitionId, db.serial + 1 + |defs|)
    {
      var k :| 0 <= k < |added| && added[k] == v;
      assert defs[k] in db.definitions;
    }
  }

  /** One iteration of the fan-out keeps the ids below `serial`. */
  lemma AddSectionForWf(db: Db, form: TemplateForm, tid: Id, mid: Id)
    requires WellFormed(db) && |tid| <= db.serial
    ensures WellFormed(AddSectionFor(db, form, tid, mid))
  {
    if !HasSection(db.sections, mid, tid) {
      var r := AddSectionFor(db, form, tid, mid);
      var defs := DefinitionsOf(db.definitions, tid);
      var added := NullValues(defs, FreshId(db.serial), db.serial + 1);
      assert r.values == db.values + added;
      NullValuesBelow(db, tid);
      assert ValuesBelow(r.values, r.serial);
      assert SectionsBelow(r.sections, r.serial);
    }
  }

  lemma {:induction false} AddSectionsWf(db: Db, form: TemplateForm, tid: Id, mids: seq<Id>)
    requires WellFormed(db) && |tid| <= db.serial
    ensures WellFormed(AddSectionsFor(db, form, tid, mids))
    decreases |mids|
  {
    if mids != [] {
      var p := AddSectionsFor(db, form, tid, mids[..|mids| - 1]);
      AddSectionsWf(db, form, tid, mids[..|mids| - 1]);
      AddSectionForWf(p, form, tid, mids[|mids| - 1]);
    }
  }

  /** What a section added by the fan-out looks like: it belongs to one of
      the machines of `mids`, copies the form, and its value rows are one
      empty row per definition of the template, in order. */
  ghost predicate AddedAsPromised(r: Db, s: MachineSection, form: TemplateForm, tid: Id, mids: seq<Id>,
                                  defs: seq<AttributeDefinition>) {
    && s == NewSection(form, tid, s.machineId, s.id)
    && s.machineId in mids
    && Slots(ValuesOfSection(r.values, s.id)) == BlankSlots(defs)
  }

  /** The section ids and the section references of value rows are below
      `serial` (a part of `WellFormed`). */
  ghost predicate SectionIdsBelow(db: Db) {
    && (forall s :: s in db.sections ==> |s.id| <= db.serial)
    && (forall v :: v in db.values ==> |v.sectionId| <= db.serial)
  }

  lemma AddSectionForIdsBelow(db: Db, form: TemplateForm, tid: Id, mid: Id)
    requires SectionIdsBelow(db)
    ensures SectionIdsBelow(AddSectionFor(db, form, tid, mid))
  {
  }

  lemma {:induction false} AddSectionsIdsBelow(db: Db, form: TemplateForm, tid: Id, mids: seq<Id>)
    requires SectionIdsBelow(db)
    ensures SectionIdsBelow(AddSectionsFor(db, form, tid, mids))
    decreases |mids|
  {
    if mids != [] {
      AddSectionsIdsBelow(db, form, tid, mids[..|mids| - 1]);
      AddSectionForIdsBelow(AddSectionsFor(db, form, tid, mids[..|mids| - 1]), form, tid, mids[|mids| - 1]);
    }
  }

  /** One iteration leaves the value rows of existing sections alone. */
  lemma AddSectionForKeepsValues(db: Db, form: TemplateForm, tid: Id, mid: Id, s: MachineSection)
    requires SectionIdsBelow(db) && s in db.sections
    ensures ValuesOfSection(AddSectionFor(db, form, tid, mid).values, s.id) == ValuesOfSection(db.values, s.id)
  {
    if !HasSection(db.sections, mid, tid) {
      var sid := FreshId(db.serial);
      var added := NullValues(DefinitionsOf(db.definitions, tid), sid, db.serial + 1);
      assert AddSectionFor(db, form, tid, mid).values == db.values + added;
      assert s.id != sid;
      assert ValuesOfSection(added, s.id) == [] by {
        assert forall k :: 0 <= k < |added| ==> added[k].sectionId == sid;
        ValuesOfSectionNone(added, s.id);
      }
      ValuesOfSectionAppend(db.values, added, s.id);
    }
  }

  /** The value rows made for a new section all belong to it and are one
      empty row per definition. */
  lemma NullValuesAreBlank(defs: seq<AttributeDefinition>, sid: Id, n: nat)
    ensures ValuesOfSection(NullValues(defs, sid, n), sid) == NullValues(defs, sid, n)
    ensures Slots(NullValues(defs, sid, n)) == BlankSlots(defs)
  {
    var added := NullValues(defs, sid, n);
    assert forall k :: 0 <= k < |added| ==> added[k].sectionId == sid;
    ValuesOfSectionAll(added, sid);
  }

  /** The section added by one iteration gets one empty row per definition. */
  lemma AddSectionForNewValues(db: Db, form: TemplateForm, tid: Id, mid: Id)
    requires SectionIdsBelow(db) && !HasSection(db.sections, mid, tid)
    ensures Slots(ValuesOfSection(AddSectionFor(db, form, tid, mid).values, FreshId(db.serial)))
      == BlankSlots(DefinitionsOf(db.definitions, tid))
  {
    var sid := FreshId(db.serial);
    var defs := DefinitionsOf(db.definitions, tid);
    var added := NullValues(defs, sid, db.serial + 1);
    var r := AddSectionFor(db, form, tid, mid);
    assert r.values == db.values + added;
    assert ValuesOfSection(added, sid) == added && Slots(added) == BlankSlots(defs) by {
      NullValuesAreBlank(defs, sid, db.serial + 1);
    }
    assert ValuesOfSection(r.values, sid) == added by {
      ValuesOfNewSection(db.values, added, sid, db.serial);
    }
  }

  /** The rows of a section no old row belongs to are the added ones. */
  lemma ValuesOfNewSection(values: seq<AttributeValue>, added: seq<AttributeValue>, sid: Id, n: nat)
    requires (forall v :: v in values ==> |v.sectionId| <= n) && |sid| > n
    requires ValuesOfSection(added, sid) == added
    ensures ValuesOfSection(values + added, sid) == added
  {
    assert forall v :: v in values ==> v.sectionId != sid;
    ValuesOfSectionAppend(values, added, sid);
    ValuesOfSectionNone(values, sid);
  }

  lemma AddSectionsContent(db: Db, form: TemplateForm, tid: Id, mids: seq<Id>)
    requires SectionIdsBelow(db)
    ensures forall k :: |db.sections| <= k < |AddSectionsFor(db, form, tid, mids).sections| ==>
      AddedAsPromised(AddSectionsFor(db, form, tid, mids), AddSectionsFor(db, form, tid, mids).sections[k],
                      form, tid, mids, DefinitionsOf(db.definitions, tid))
  {
    var r := AddSectionsFor(db, form, tid, mids);
    forall k | |db.sections| <= k < |r.sections|
      ensures AddedAsPromised(r, r.sections[k], form, tid, mids, DefinitionsOf(db.definitions, tid))
    {
      AddSectionsContentAt(db, form, tid, mids, k);
    }
  }

  /** The `k`-th section, when the fan-out added it. */
  lemma {:induction false} AddSectionsContentAt(db: Db, form: TemplateForm, tid: Id, mids: seq<Id>, k: nat)
    requires SectionIdsBelow(db)
    requires |db.sections| <= k < |AddSectionsFor(db, form, tid, mids).sections|
    ensures var r := AddSectionsFor(db, form, tid, mids);
      AddedAsPromised(r, r.sections[k], form, tid, mids, DefinitionsOf(db.definitions, tid))
    decreases |mids|
  {
    if mids != [] {
      var init := mids[..|mids| - 1];
      var last := mids[|mids| - 1];
      var p := AddSectionsFor(db, form, tid, init);
      var r := AddSectionsFor(db, form, tid, mids);
      var defs := DefinitionsOf(db.definitions, tid);
      AddSectionsIdsBelow(db, form, tid, init);
      assert r == AddSectionFor(p, form, tid, last);
      assert defs == DefinitionsOf(p.definitions, tid);
      if k < |p.sections| {
        AddSectionsContentAt(db, form, tid, init, k);
        assert r.sections[k] == p.sections[k];
        AddSectionForKeepsPromise(p, form, tid, mids, defs, p.sections[k]);
      } else {
        AddSectionForNewPromise(p, form, tid, mids, k);
      }
    }
  }

  /** A section added earlier keeps its promise through one more step. */
  lemma AddSectionForKeepsPromise(p: Db, form: TemplateForm, tid: Id, mids: seq<Id>,
                                  defs: seq<AttributeDefinition>, s: MachineSection)
    requires SectionIdsBelow(p) && s in p.sections && mids != []
    requires AddedAsPromised(p, s, form, tid, mids[..|mids| - 1], defs)
    ensures AddedAsPromised(AddSectionFor(p, form, tid, mids[|mids| - 1]), s, form, tid, mids, defs)
  {
    AddSectionForKeepsValues(p, form, tid, mids[|mids| - 1], s);
    var j :| 0 <= j < |mids| - 1 && mids[j] == s.machineId;
    assert s.machineId in mids;
  }

  /** The section added by the last step of the fan-out keeps its promise. */
  lemma AddSectionForNewPromise(p: Db, form: TemplateForm, tid: Id, mids: seq<Id>, k: nat)
    requires SectionIdsBelow(p) && mids != []
    requires |p.sections| <= k < |AddSectionFor(p, form, tid, mids[|mids| - 1]).sections|
    ensures var r := AddSectionFor(p, form, tid, mids[|mids| - 1]);
      AddedAsPromised(r, r.sections[k], form, tid, mids, DefinitionsOf(p.definitions, tid))
  {
    var last := mids[|mids| - 1];
    AddSectionForNewValues(p, form, tid, last);
  }

  /** The fan-out keeps the sections of the template in line with it. */
  lemma AddSectionsFollows(db: Db, form: TemplateForm, tid: Id, mids: seq<Id>)
    requires SectionIdsBelow(db)
    requires FollowsTemplate(db.sections, TemplateRow(form, tid))
    ensures FollowsTemplate(AddSectionsFor(db, form, tid, mids).sections, TemplateRow(form, tid))
  {
    var r := AddSectionsFor(db, form, tid, mids);
    AddSectionsContent(db, form, tid, mids);
    forall k | 0 <= k < |r.sections| && r.sections[k].templateId == Some(tid)
      ensures r.sections[k].name == form.sectionName && r.sections[k].description == form.description
      ensures r.sections[k].order == Some(form.order)
    {
      if k < |db.sections| {
        assert r.sections[k] == db.sections[k];
      } else {
        assert AddedAsPromised(r, r.sections[k], form, tid, mids, DefinitionsOf(db.definitions, tid));
      }
    }
  }
}
