/** Creating, duplicating, updating and deleting attribute definitions, as
    seen on the value rows of the sections. */
module AttributeFacts {
  import opened Common
  import opened Schema
  import opened Propagation

  /** The bulk insert gives every target section one empty value row for a
      definition no value row referred to before. */
  lemma AddAttributeValues(db: Db, did: Id, name: string, tid: Option<Id>)
    requires forall v :: v in db.values ==> v.definitionId != Some(did)
    ensures var r := AddAttributeToSections(db, did, name, tid);
      var secs := TargetSections(db.sections, tid);
      var vs := ValuesOfDefinition(r.values, did);
      && db.values <= r.values
      && |vs| == |secs|
      && (forall k :: 0 <= k < |vs| ==> vs[k].sectionId == secs[k].id && vs[k].name == name && vs[k].value == None)
  {
    var secs := TargetSections(db.sections, tid);
    var added := BlankValuesFor(secs, did, name, db.serial);
    var r := AddAttributeToSections(db, did, name, tid);
    assert r.values == db.values + added;
    assert forall k :: 0 <= k < |added| ==> added[k].definitionId == Some(did);
    ValuesOfNewDefinition(db.values, added, did);
  }

  /** The rows of a definition no old row refers to are the added ones. */
  lemma ValuesOfNewDefinition(values: seq<AttributeValue>, added: seq<AttributeValue>, did: Id)
    requires forall v :: v in values ==> v.definitionId != Some(did)
    requires forall k :: 0 <= k < |added| ==> added[k].definitionId == Some(did)
    ensures ValuesOfDefinition(values + added, did) == added
  {
    ValuesOfDefinitionAppend(values, added, did);
    ValuesOfDefinitionNone(values, did);
    ValuesOfDefinitionAll(added, did);
  }

  /** Inserting a definition with a fresh id gives every section of its
      template exactly one value row for it, in section order, each empty
      and carrying the definition's name; nothing else changes. */
  lemma WithAttributeFanOut(db: Db, row: AttributeDefinition)
    requires WellFormed(db) && row.id == FreshId(db.serial)
    ensures var r := WithAttribute(db, row);
      var secs := TargetSections(db.sections, row.templateId);
      var vs := ValuesOfDefinition(r.values, row.id);
      && r.definitions == db.definitions + [row]
      && db.values <= r.values
      && r.sections == db.sections && r.templates == db.templates && r.machines == db.machines
      && |vs| == |secs|
      && (forall k :: 0 <= k < |vs| ==> vs[k].sectionId == secs[k].id && vs[k].name == row.name && vs[k].value == None)
  {
    var db1 := db.(definitions := db.definitions + [row], serial := db.serial + 1);
    var r := WithAttribute(db, row);
    assert r == AddAttributeToSections(db1, row.id, row.name, row.templateId);
    assert forall v :: v in db1.values ==> v.definitionId != Some(row.id);
    AddAttributeValues(db1, row.id, row.name, row.templateId);
    assert r.definitions == db.definitions + [row];
  }

  /** Creating an attribute: the definition row (options kept only for a
      select attribute), and one empty value row per existing section of
      the template. */
  lemma CreateAttributeFanOut(db: Db, form: AttributeForm, tid: Option<Id>)
    requires WellFormed(db)
    ensures var r := CreateAttribute(db, form, tid);
      var did := FreshId(db.serial);
      var secs := TargetSections(db.sections, tid);
      var vs := ValuesOfDefinition(r.values, did);
      && r.definitions == db.definitions + [DefinitionRow(form, did, tid)]
      && (r.definitions[|db.definitions|].options.Some? <==> form.kind == "select")
      && |vs| == |secs|
      && (forall k :: 0 <= k < |vs| ==> vs[k].sectionId == secs[k].id && vs[k].name == form.name && vs[k].value == None)
  {
    WithAttributeFanOut(db, DefinitionRow(form, FreshId(db.serial), tid));
  }

  /** Duplicating an attribute: `"<name> (Copia)"` with order
      `(order || 0) + 1`, the same type, required flag and options, in the
      selected template, with one empty value row per section of it. */
  lemma DuplicateAttributeFanOut(db: Db, attr: AttributeDefinition, tid: Option<Id>)
    requires WellFormed(db)
    ensures var r := DuplicateAttribute(db, attr, tid);
      var did := FreshId(db.serial);
      var d := r.definitions[|db.definitions|];
      var secs := TargetSections(db.sections, tid);
      var vs := ValuesOfDefinition(r.values, did);
      && |r.definitions| == |db.definitions| + 1
      && d.name == attr.name + " (Copia)" && d.order == Some(OrZero(attr.order) + 1)
      && d.kind == attr.kind && d.isRequired == attr.isRequired && d.options == attr.options
      && d.templateId == tid
      && |vs| == |secs|
      && (forall k :: 0 <= k < |vs| ==> vs[k].sectionId == secs[k].id && vs[k].name == d.name && vs[k].value == None)
  {
    WithAttributeFanOut(db, DuplicateRow(attr, FreshId(db.serial), tid));
  }

  lemma {:induction false} RenameValuesKeepsRows(values: seq<AttributeValue>, did: Id, name: string)
    ensures |ValuesOfDefinition(RenameValues(values, did, name), did)| == |ValuesOfDefinition(values, did)|
  {
    if values != [] {
      assert RenameValues(values, did, name)[1..] == RenameValues(values[1..], did, name);
      RenameValuesKeepsRows(values[1..], did, name);
    }
  }

  /** Updating an attribute rewrites the name on every value row of the
      definition (whether or not it changed) and nothing else on any value
      row; the definition keeps options only for a select attribute. */
  lemma UpdateAttributeRenames(db: Db, id: Id, form: AttributeForm)
    ensures var r := UpdateAttribute(db, id, form);
      && |r.values| == |db.values|
      && (forall k :: 0 <= k < |r.values| && r.values[k].definitionId == Some(id) ==> r.values[k].name == form.name)
      && (forall k :: 0 <= k < |r.values| ==> r.values[k] == db.values[k].(name := r.values[k].name))
      && (forall k :: 0 <= k < |r.values| && db.values[k].definitionId != Some(id) ==> r.values[k] == db.values[k])
      && |ValuesOfDefinition(r.values, id)| == |ValuesOfDefinition(db.values, id)|
      && |r.definitions| == |db.definitions|
      && (forall k :: 0 <= k < |r.definitions| && db.definitions[k].id == id ==>
            && r.definitions[k] == DefinitionRow(form, id, db.definitions[k].templateId)
            && (r.definitions[k].options.Some? <==> form.kind == "select"))
      && (forall k :: 0 <= k < |r.definitions| && db.definitions[k].id != id ==> r.definitions[k] == db.definitions[k])
      && r.sections == db.sections && r.templates == db.templates
  {
    RenameValuesKeepsRows(db.values, id, form.name);
  }

  /** Deleting an attribute removes exactly its value rows and its
      definition row. */
  lemma DeleteAttributeRemoves(db: Db, id: Id)
    ensures var r := DeleteAttribute(db, id);
      && (forall v :: v in r.values <==> v in db.values && v.definitionId != Some(id))
      && ValuesOfDefinition(r.values, id) == []
      && (forall d :: d in r.definitions <==> d in db.definitions && d.id != id)
      && r.sections == db.sections && r.templates == db.templates
  {
    var r := DeleteAttribute(db, id);
    ValuesOfDefinitionNone(r.values, id);
  }
}
