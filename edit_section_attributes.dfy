/** The dialog that edits the attribute values of one machine's sections:
    the form keys, the initial form, the grouping by section, the
    required-field check, the save loop and the choice of input field. */
module EditSectionAttributes {
  import opened Common
  import opened Seqs
  import opened Text
  import opened Schema

  /** A value row as the dialog loads it, joined with its definition. */
  datatype ValueRow = ValueRow(
    id: Id, sectionId: Id, name: string, value: Option<string>,
    definition: Option<AttributeDefinition>)

  /** One property of the form object, in insertion order. */
  datatype Entry = Entry(key: string, value: string)

  /** One write of the save loop. */
  datatype Update = Update(id: Id, value: Option<string>)

  // =====================================================================
  // Form keys

  const KeyPrefix := "attr_"

  /** The form key of value row `id`. */
  function FieldKey(id: Id): string {
    KeyPrefix + id
  }

  /** The row id of a form key: `key.replace('attr_', '')`. */
  function KeyId(key: string): string {
    ReplaceFirst(key, KeyPrefix, "")
  }

  /** Decoding a key recovers the row id, and different rows get different
      keys. */
  lemma KeyRoundTrip(id: Id, other: Id)
    ensures KeyId(FieldKey(id)) == id
    ensures FieldKey(id) == FieldKey(other) ==> id == other
  {
    assert StartsWith(FieldKey(id), KeyPrefix);
    assert FieldKey(id)[|KeyPrefix|..] == id;
    assert FieldKey(other)[|KeyPrefix|..] == other;
  }

  // =====================================================================
  // The form object

  /** `form[key]`, `None` when the key is absent. */
  function Lookup(form: seq<Entry>, key: string): (r: Option<string>)
    ensures r.Some? <==> exists k :: 0 <= k < |form| && form[k].key == key
  {
    if form == [] then None
    else if form[0].key == key then Some(form[0].value)
    else
      assert forall k :: 1 <= k < |form| ==> form[k] == form[1..][k - 1];
      Lookup(form[1..], key)
  }

  /** `form[key] = v`: an existing key keeps its place, a new one goes last. */
  function Assign(form: seq<Entry>, key: string, v: string): (r: seq<Entry>)
    ensures Lookup(r, key) == Some(v)
    ensures forall other :: other != key ==> Lookup(r, other) == Lookup(form, other)
  {
    if form == [] then [Entry(key, v)]
    else if form[0].key == key then [Entry(key, v)] + form[1..]
    else
      var r := [form[0]] + Assign(form[1..], key, v);
      assert r[1..] == Assign(form[1..], key, v);
      r
  }

  /** The initial form: every value row under its key, with its stored
      value or `''` when it has none. */
  function InitialValues(rows: seq<ValueRow>): seq<Entry>
    decreases |rows|
  {
    if rows == [] then []
    else
      var r := rows[|rows| - 1];
      Assign(InitialValues(rows[..|rows| - 1]), FieldKey(r.id), r.value.GetOr(""))
  }

  predicate DistinctIds(rows: seq<ValueRow>) {
    forall i, j :: 0 <= i < j < |rows| ==> rows[i].id != rows[j].id
  }

  /** With distinct row ids, the key of every row holds its stored value
      (or `''`), and no other key is present. */
  lemma {:induction false} InitialValuesLookup(rows: seq<ValueRow>, id: Id)
    requires DistinctIds(rows)
    ensures forall k :: 0 <= k < |rows| && rows[k].id == id ==>
      Lookup(InitialValues(rows), FieldKey(id)) == Some(rows[k].value.GetOr(""))
    ensures (forall k :: 0 <= k < |rows| ==> rows[k].id != id) ==>
      Lookup(InitialValues(rows), FieldKey(id)) == None
    decreases |rows|
  {
    if rows != [] {
      var init := rows[..|rows| - 1];
      var r := rows[|rows| - 1];
      assert forall k :: 0 <= k < |init| ==> init[k] == rows[k];
      assert DistinctIds(init);
      InitialValuesLookup(init, id);
      KeyRoundTrip(r.id, id);
      assert InitialValues(rows) == Assign(InitialValues(init), FieldKey(r.id), r.value.GetOr(""));
      if r.id != id {
        assert Lookup(InitialValues(rows), FieldKey(id)) == Lookup(InitialValues(init), FieldKey(id));
      } else {
        assert forall k :: 0 <= k < |init| ==> init[k].id != id;
      }
    }
  }

  // =====================================================================
  // Saving

  /** The value saved for a field: `value || null`. */
  function StoredValue(v: string): (r: Option<string>)
    ensures r.None? <==> v == ""
    ensures r.Some? ==> r.value == v
  {
    if v == "" then None else Some(v)
  }

  /** Loading a saved value into the form gives back what was typed, and
      saving a loaded value gives back what was stored, except that an
      empty string is stored as null. */
  lemma StoredValueRoundTrip(v: string, stored: Option<string>)
    ensures StoredValue(v).GetOr("") == v
    ensures stored != Some("") ==> StoredValue(stored.GetOr("")) == stored
  {
  }

  /** The writes for a submitted form, one per property, in order. */
  function Updates(form: seq<Entry>): (us: seq<Update>)
    ensures |us| == |form|
    ensures forall k :: 0 <= k < |form| ==> us[k].value == StoredValue(form[k].value)
  {
    seq(|form|, k requires 0 <= k < |form| => Update(KeyId(form[k].key), StoredValue(form[k].value)))
  }

  /** The writes of the unchanged initial form target the loaded rows. */
  lemma {:induction false} InitialUpdatesTargetRows(rows: seq<ValueRow>, k: nat)
    requires k < |InitialValues(rows)|
    ensures exists j :: 0 <= j < |rows| && Updates(InitialValues(rows))[k].id == rows[j].id
    decreases |rows|
  {
    var init := rows[..|rows| - 1];
    var r := rows[|rows| - 1];
    var p := InitialValues(init);
    KeyRoundTrip(r.id, r.id);
    AssignKeys(p, FieldKey(r.id), r.value.GetOr(""), k);
    var f := InitialValues(rows);
    if f[k].key == FieldKey(r.id) {
      assert Updates(f)[k].id == rows[|rows| - 1].id;
    } else {
      InitialUpdatesTargetRows(init, k);
      var j :| 0 <= j < |init| && Updates(p)[k].id == init[j].id;
      assert rows[j] == init[j];
    }
  }

  /** Every key after an assignment is the assigned key or was there
      before, at the same position. */
  lemma {:induction false} AssignKeys(form: seq<Entry>, key: string, v: string, k: nat)
    requires k < |Assign(form, key, v)|
    ensures Assign(form, key, v)[k].key == key || (k < |form| && Assign(form, key, v)[k].key == form[k].key)
  {
    if form != [] && form[0].key != key && k > 0 {
      AssignKeys(form[1..], key, v, k - 1);
    }
  }

  /** The `values` table the save loop writes to. */
  class ValueTable {
    var rows: seq<AttributeValue>

    constructor (rows: seq<AttributeValue>)
      ensures this.rows == rows
    {
      this.rows := rows;
    }

    /** The save loop: one update of `attribute_value` per submitted
        field, in order, stopping at the first write the database rejects
        (`rejected` stands for the rows whose write fails); the writes made
        before it stay. */
    method Save(updates: seq<Update>, rejected: set<Id>) returns (failed: Option<Id>)
      modifies this
      ensures var n := FirstRejected(updates, rejected);
        && rows == WriteAll(old(rows), updates[..n])
        && failed == (if n < |updates| then Some(updates[n].id) else None)
    {
      var i := 0;
      while i < |updates|
        invariant 0 <= i <= |updates|
        invariant forall j :: 0 <= j < i ==> updates[j].id !in rejected
        invariant rows == WriteAll(old(rows), updates[..i])
      {
        if updates[i].id in rejected {
          return Some(updates[i].id);
        }
        rows := WriteValue(rows, updates[i]);
        assert updates[..i + 1][..i] == updates[..i];
        i := i + 1;
      }
      assert updates[..i] == updates;
      return None;
    }
  }

  /** The position of the first rejected write, or the number of writes. */
  function FirstRejected(updates: seq<Update>, rejected: set<Id>): (n: nat)
    ensures n <= |updates|
    ensures forall j :: 0 <= j < n ==> updates[j].id !in rejected
    ensures n < |updates| ==> updates[n].id in rejected
  {
    if updates == [] then 0
    else if updates[0].id in rejected then 0
    else 1 + FirstRejected(updates[1..], rejected)
  }

  /** `update({ attribute_value }).eq('id', u.id)`. */
  function WriteValue(rows: seq<AttributeValue>, u: Update): seq<AttributeValue> {
    seq(|rows|, k requires 0 <= k < |rows| => if rows[k].id == u.id then rows[k].(value := u.value) else rows[k])
  }

  function WriteAll(rows: seq<AttributeValue>, us: seq<Update>): seq<AttributeValue>
    decreases |us|
  {
    if us == [] then rows else WriteValue(WriteAll(rows, us[..|us| - 1]), us[|us| - 1])
  }

  /** The index of the last write to row `id`. */
  function LastWrite(us: seq<Update>, id: Id): (i: nat)
    requires exists j :: 0 <= j < |us| && us[j].id == id
    ensures i < |us| && us[i].id == id
    ensures forall j :: i < j < |us| ==> us[j].id != id
  {
    if us[|us| - 1].id == id then |us| - 1
    else
      var init := us[..|us| - 1];
      assert exists j :: 0 <= j < |init| && init[j].id == id by {
        var j :| 0 <= j < |us| && us[j].id == id;
        assert init[j].id == id;
      }
      LastWrite(init, id)
  }

  /** The writes change only `attribute_value`; a row that some write
      names holds the value of the last such write, and every other row is
      unchanged. */
  lemma {:induction false} WriteAllEffect(rows: seq<AttributeValue>, us: seq<Update>, k: nat)
    requires k < |rows|
    ensures |WriteAll(rows, us)| == |rows|
    ensures WriteAll(rows, us)[k] == rows[k].(value := WriteAll(rows, us)[k].value)
    ensures (exists j :: 0 <= j < |us| && us[j].id == rows[k].id) ==>
      WriteAll(rows, us)[k].value == us[LastWrite(us, rows[k].id)].value
    ensures (forall j :: 0 <= j < |us| ==> us[j].id != rows[k].id) ==> WriteAll(rows, us)[k] == rows[k]
    decreases |us|
  {
    if us != [] {
      var init := us[..|us| - 1];
      WriteAllEffect(rows, init, k);
      if us[|us| - 1].id != rows[k].id && exists j :: 0 <= j < |us| && us[j].id == rows[k].id {
        var j :| 0 <= j < |us| && us[j].id == rows[k].id;
        assert init[j].id == rows[k].id;
        assert LastWrite(us, rows[k].id) == LastWrite(init, rows[k].id);
      }
    }
  }

  // =====================================================================
  // Required fields

  /** `attr.attribute_definition?.is_required`. */
  predicate IsRequired(r: ValueRow) {
    r.definition.Some? && r.definition.value.isRequired == Some(true)
  }

  /** `!value || value.trim() === ''`, where an absent key is `undefined`. */
  predicate IsMissing(form: seq<Entry>, key: string) {
    var v := Lookup(form, key);
    v.None? || IsBlank(v.value)
  }

  /** `sections.find(s => s.id === sid)?.name || 'Sección'`. */
  function SectionLabel(sections: seq<MachineSection>, sid: Id): (shown: string)
    ensures shown != ""
    ensures (forall s :: s in sections ==> s.id != sid) ==> shown == "Sección"
    ensures forall k :: (0 <= k < |sections| && sections[k].id == sid
      && (forall j :: 0 <= j < k ==> sections[j].id != sid)) ==>
      shown == (if sections[k].name == "" then "Sección" else sections[k].name)
  {
    if sections == [] then "Sección"
    else if sections[0].id == sid then (if sections[0].name == "" then "Sección" else sections[0].name)
    else SectionLabel(sections[1..], sid)
  }

  /** `"<section> → <attribute>"`. */
  function MissingLabel(sections: seq<MachineSection>, r: ValueRow): string {
    SectionLabel(sections, r.sectionId) + " → " + r.name
  }

  /** The required rows left empty, in row order. */
  predicate Unfilled(form: seq<Entry>, r: ValueRow) {
    IsRequired(r) && IsMissing(form, FieldKey(r.id))
  }

  /** The `forEach` that collects the missing required fields. */
  function MissingRequired(rows: seq<ValueRow>, sections: seq<MachineSection>, form: seq<Entry>): (missing: seq<string>)
    ensures |missing| <= |rows|
    decreases |rows|
  {
    if rows == [] then []
    else
      var r := rows[|rows| - 1];
      MissingRequired(rows[..|rows| - 1], sections, form) + (if Unfilled(form, r) then [MissingLabel(sections, r)] else [])
  }

  /** One label per unfilled required row, in row order; nothing is missing
      exactly when every required row has a non-blank value. */
  lemma MissingRequiredLabels(rows: seq<ValueRow>, sections: seq<MachineSection>, form: seq<Entry>)
    ensures var missing := MissingRequired(rows, sections, form);
      var unfilled := Filter(rows, (r: ValueRow) => Unfilled(form, r));
      && |missing| == |unfilled|
      && (forall k :: 0 <= k < |missing| ==> missing[k] == MissingLabel(sections, unfilled[k]))
      && (missing == [] <==> forall k :: 0 <= k < |rows| && IsRequired(rows[k]) ==> !IsMissing(form, FieldKey(rows[k].id)))
  {
    MissingRequiredFollowsFilter(rows, sections, form);
    MissingRequiredNoneIff(rows, sections, form);
  }

  lemma {:induction false} MissingRequiredFollowsFilter(rows: seq<ValueRow>, sections: seq<MachineSection>, form: seq<Entry>)
    ensures var missing := MissingRequired(rows, sections, form);
      var unfilled := Filter(rows, (r: ValueRow) => Unfilled(form, r));
      && |missing| == |unfilled|
      && (forall k :: 0 <= k < |missing| ==> missing[k] == MissingLabel(sections, unfilled[k]))
    decreases |rows|
  {
    var p := (r: ValueRow) => Unfilled(form, r);
    if rows != [] {
      var init := rows[..|rows| - 1];
      var r := rows[|rows| - 1];
      MissingRequiredFollowsFilter(init, sections, form);
      assert rows == init + [r];
      FilterAppend(init, [r], p);
      var extra := if p(r) then [r] else [];
      assert Filter([r], p) == extra;
      var missing := MissingRequired(rows, sections, form);
      var unfilled := Filter(rows, p);
      assert unfilled == Filter(init, p) + extra;
      assert missing == MissingRequired(init, sections, form) + (if p(r) then [MissingLabel(sections, r)] else []);
    }
  }

  lemma {:induction false} MissingRequiredNoneIff(rows: seq<ValueRow>, sections: seq<MachineSection>, form: seq<Entry>)
    ensures MissingRequired(rows, sections, form) == [] <==>
      forall k :: 0 <= k < |rows| && IsRequired(rows[k]) ==> !IsMissing(form, FieldKey(rows[k].id))
    decreases |rows|
  {
    if rows != [] {
      var init := rows[..|rows| - 1];
      MissingRequiredNoneIff(init, sections, form);
      assert forall k :: 0 <= k < |init| ==> init[k] == rows[k];
    }
  }

  const MissingTitle := "Campos requeridos faltantes"

  datatype Submission = Rejected(message: string) | Accepted(updates: seq<Update>)

  /** `onSubmit`: any missing required field rejects the whole form before
      any write; otherwise every field is written. */
  function OnSubmit(rows: seq<ValueRow>, sections: seq<MachineSection>, form: seq<Entry>): (r: Submission)
    ensures r.Accepted? <==> MissingRequired(rows, sections, form) == []
    ensures r.Accepted? ==> r.updates == Updates(form)
    ensures r.Rejected? ==> r.message == "Completa: " + Join(MissingRequired(rows, sections, form), ", ")
  {
    var missing := MissingRequired(rows, sections, form);
    if |missing| > 0 then Rejected("Completa: " + Join(missing, ", ")) else Accepted(Updates(form))
  }

  // =====================================================================
  // Grouping

  /** `attributesBySection`: the `reduce` that pushes every row into the
      bucket of its section (what it yields is `Seqs.GroupByKeys` and
      `Seqs.GroupByBuckets`). */
  function GroupBySection(rows: seq<ValueRow>): map<Id, seq<ValueRow>> {
    GroupBy(rows, (r: ValueRow) => r.sectionId)
  }

  // =====================================================================
  // Input fields

  datatype Field = SelectField(options: seq<string>) | NumberField | TextareaField | TextField

  /** `attr.attribute_definition?.attribute_type || 'text'`. */
  function KindOf(d: Option<AttributeDefinition>): string {
    if d.Some? && d.value.kind != "" then d.value.kind else "text"
  }

  /** `renderAttributeField`: a select only when the type is select and
      options are stored (an empty list counts, as in JavaScript);
      number, textarea, or a text input otherwise. */
  function FieldFor(d: Option<AttributeDefinition>): (f: Field)
    ensures f.SelectField? <==> d.Some? && d.value.kind == "select" && d.value.options.Some?
    ensures f.SelectField? ==> f.options == d.value.options.value
    ensures f == NumberField <==> d.Some? && d.value.kind == "number"
    ensures f == TextareaField <==> d.Some? && d.value.kind == "textarea"
    ensures d.None? ==> f == TextField
  {
    var kind := KindOf(d);
    if kind == "select" && d.value.options.Some? then SelectField(d.value.options.value)
    else if kind == "number" then NumberField
    else if kind == "textarea" then TextareaField
    else TextField
  }

  /** `definition?.is_required || false`: a row without a definition is
      optional. */
  function ShowsRequired(d: Option<AttributeDefinition>): (b: bool)
    ensures b <==> d.Some? && d.value.isRequired == Some(true)
  {
    d.Some? && d.value.isRequired.GetOr(false)
  }
}
