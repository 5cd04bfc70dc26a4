/** Creating and renaming machine types, and reordering rows. */
module TypeFacts {
  import opened Common
  import opened Schema
  import opened Propagation

  /** Creating a type is refused exactly when the name is taken; otherwise
      it appends the type with its sequences and keeps type names unique. */
  lemma CreateMachineTypeEffect(db: Db, name: string, sequences: seq<string>)
    ensures var res := CreateMachineType(db, name, sequences);
      && (res.Err? <==> TypeNameTaken(db.machineTypes, name))
      && (res.Err? ==> res.message == NameTakenMessage(name))
      && (res.Ok? ==>
            && res.value.machineTypes == db.machineTypes + [MachineType(FreshId(db.serial), name, None, None, Some(sequences))]
            && res.value.templates == db.templates && res.value.machines == db.machines)
      && (res.Ok? && UniqueTypeNames(db.machineTypes) ==> UniqueTypeNames(res.value.machineTypes))
  {
    var res := CreateMachineType(db, name, sequences);
    if res.Ok? {
      var ts := res.value.machineTypes;
      forall i, j | 0 <= i < j < |ts| && UniqueTypeNames(db.machineTypes) ensures ts[i].name != ts[j].name {
        if j == |db.machineTypes| {
          assert ts[i] in db.machineTypes;
        }
      }
    }
  }

  /** Renaming a type is refused exactly when the name changes and another
      type already has it. Otherwise the type row gets the new name and
      sequences; when the name changes, no template and no machine keeps
      the old name, and the ones that had it now have the new one. */
  lemma RenameMachineTypeEffect(db: Db, id: Id, oldName: string, newName: string, sequences: seq<string>)
    ensures var res := RenameMachineType(db, id, oldName, newName, sequences);
      && (res.Err? <==> oldName != newName && TypeNameTakenByOther(db.machineTypes, newName, id))
      && (res.Ok? ==>
            var r := res.value;
            && |r.machineTypes| == |db.machineTypes|
            && (forall k :: 0 <= k < |r.machineTypes| && db.machineTypes[k].id == id ==>
                  r.machineTypes[k].name == newName && r.machineTypes[k].sequences == Some(sequences))
            && (forall k :: 0 <= k < |r.machineTypes| && db.machineTypes[k].id != id ==> r.machineTypes[k] == db.machineTypes[k])
            && |r.templates| == |db.templates| && |r.machines| == |db.machines|
            && (oldName != newName ==>
                  && (forall t :: t in r.templates ==> t.machineType != oldName)
                  && (forall m :: m in r.machines ==> m.machineType != Some(oldName))
                  && (forall k :: 0 <= k < |r.templates| && db.templates[k].machineType == oldName ==>
                        r.templates[k] == db.templates[k].(machineType := newName))
                  && (forall k :: 0 <= k < |r.machines| && db.machines[k].machineType == Some(oldName) ==>
                        r.machines[k] == db.machines[k].(machineType := Some(newName))))
            && (oldName == newName ==> r.templates == db.templates && r.machines == db.machines)
            && r.sections == db.sections && r.values == db.values && r.definitions == db.definitions)
  {
    var res := RenameMachineType(db, id, oldName, newName, sequences);
    if res.Ok? && oldName != newName {
      var r := res.value;
      forall t | t in r.templates ensures t.machineType != oldName {
        var k :| 0 <= k < |r.templates| && r.templates[k] == t;
      }
      forall m | m in r.machines ensures m.machineType != Some(oldName) {
        var k :| 0 <= k < |r.machines| && r.machines[k] == m;
      }
    }
  }

  /** No two type rows share an id. */
  predicate UniqueTypeIds(types: seq<MachineType>) {
    forall i, j :: 0 <= i < j < |types| ==> types[i].id != types[j].id
  }

  /** A rename of a type whose current name is `oldName` keeps type names
      unique. */
  lemma RenameKeepsNamesUnique(db: Db, id: Id, oldName: string, newName: string, sequences: seq<string>)
    requires UniqueTypeNames(db.machineTypes) && UniqueTypeIds(db.machineTypes)
    requires forall k :: 0 <= k < |db.machineTypes| && db.machineTypes[k].id == id ==> db.machineTypes[k].name == oldName
    ensures var res := RenameMachineType(db, id, oldName, newName, sequences);
      res.Ok? ==> UniqueTypeNames(res.value.machineTypes)
  {
    var res := RenameMachineType(db, id, oldName, newName, sequences);
    if res.Ok? {
      var before := db.machineTypes;
      var ts := res.value.machineTypes;
      forall i, j | 0 <= i < j < |ts| ensures ts[i].name != ts[j].name {
        if before[i].id == id && oldName != newName {
          assert before[j] in before && before[j].id != id;
        } else if before[j].id == id && oldName != newName {
          assert before[i] in before && before[i].id != id;
        }
      }
    }
  }

  /** The order laws every reorderable row type satisfies: setting the
      order keeps the id, and a later order overrides an earlier one. */
  ghost predicate OrderLaws<R(!new)>(idOf: R -> Id, withOrder: (R, int) -> R) {
    && (forall r: R, i: int :: idOf(withOrder(r, i)) == idOf(r))
    && (forall r: R, i: int, j: int :: withOrder(withOrder(r, i), j) == withOrder(r, j))
  }

  lemma TypeOrderLaws()
    ensures OrderLaws(TypeId, TypeWithOrder)
  {
    assert forall r: MachineType, i: int, j: int :: TypeWithOrder(TypeWithOrder(r, i), j) == TypeWithOrder(r, j);
  }

  lemma TemplateOrderLaws()
    ensures OrderLaws(TemplateId, TemplateWithOrder)
  {
    assert forall r: SectionTemplate, i: int, j: int :: TemplateWithOrder(TemplateWithOrder(r, i), j) == TemplateWithOrder(r, j);
  }

  lemma DefinitionOrderLaws()
    ensures OrderLaws(DefinitionId, DefinitionWithOrder)
  {
    assert forall r: AttributeDefinition, i: int, j: int :: DefinitionWithOrder(DefinitionWithOrder(r, i), j) == DefinitionWithOrder(r, j);
  }

  /** After the reorder loop, a row whose id is in the list has the order of
      the id's last position; every other row is unchanged. */
  lemma {:induction false} ReorderRowsEffect<R(!new)>(rows: seq<R>, ids: seq<Id>, idOf: R -> Id, withOrder: (R, int) -> R, k: nat)
    requires OrderLaws(idOf, withOrder)
    requires k < |rows|
    ensures ReorderRows(rows, ids, idOf, withOrder)[k]
      == if idOf(rows[k]) in ids then withOrder(rows[k], LastIndex(ids, idOf(rows[k]))) else rows[k]
    decreases |ids|
  {
    if ids != [] {
      var init := ids[..|ids| - 1];
      var last := ids[|ids| - 1];
      ReorderRowsEffect(rows, init, idOf, withOrder, k);
      assert ids == init + [last];
      assert idOf(rows[k]) in ids <==> idOf(rows[k]) in init || idOf(rows[k]) == last;
      if idOf(rows[k]) in init && idOf(rows[k]) != last {
        assert LastIndex(ids, idOf(rows[k])) == LastIndex(init, idOf(rows[k])) by {
          var a := LastIndex(ids, idOf(rows[k]));
          var b := LastIndex(init, idOf(rows[k]));
          assert init[b] == ids[b];
          assert a < |init| && init[a] == ids[a];
        }
      }
    }
  }

  /** With distinct ids, the reorder loop gives the row of the `i`-th id
      the order `i` and leaves rows whose id is not listed alone. */
  lemma ReorderAssigns<R(!new)>(rows: seq<R>, ids: seq<Id>, idOf: R -> Id, withOrder: (R, int) -> R, k: nat)
    requires OrderLaws(idOf, withOrder)
    requires Distinct(ids)
    requires k < |rows|
    ensures var r := ReorderRows(rows, ids, idOf, withOrder);
      && |r| == |rows|
      && (forall i :: 0 <= i < |ids| && idOf(rows[k]) == ids[i] ==> r[k] == withOrder(rows[k], i))
      && (idOf(rows[k]) !in ids ==> r[k] == rows[k])
  {
    ReorderRowsEffect(rows, ids, idOf, withOrder, k);
  }
}
