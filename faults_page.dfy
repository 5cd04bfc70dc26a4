/** The fault-type catalogue page: the comma-separated keyword field, the
    grouping of the table by category, the rows the create, edit, delete
    and active-toggle actions write, and the keyword badges. */
module FaultsPage {
  import opened Common
  import opened Seqs
  import opened Text

  // =====================================================================
  // Keywords

  /** Each piece, trimmed. */
  function TrimAll(parts: seq<string>): (r: seq<string>)
    ensures |r| == |parts|
    ensures forall i :: 0 <= i < |parts| ==> r[i] == Trim(parts[i])
  {
    seq(|parts|, i requires 0 <= i < |parts| => Trim(parts[i]))
  }

  /** A keyword as the form stores it: trimmed, not empty, without a comma. */
  predicate IsKeyword(k: string) {
    IsTrimmedWord(k) && ',' !in k
  }

  predicate NonEmpty(w: string) {
    w != ""
  }

  /** `keywords.split(',').map((k) => k.trim()).filter(Boolean)`. */
  function ParseKeywords(s: string): (r: seq<string>)
    ensures forall i :: 0 <= i < |r| ==> IsKeyword(r[i])
    ensures IsBlank(s) ==> r == []
  {
    var parts := Split(s, ',');
    PiecesAreKeywords(parts);
    assert IsBlank(s) ==> Filter(TrimAll(parts), NonEmpty) == [] by {
      if IsBlank(s) {
        BlankPieces(s);
      }
    }
    Filter(TrimAll(parts), NonEmpty)
  }

  /** The non-empty trimmed pieces of comma-free strings are keywords. */
  lemma PiecesAreKeywords(parts: seq<string>)
    requires forall k :: 0 <= k < |parts| ==> ',' !in parts[k]
    ensures var r := Filter(TrimAll(parts), NonEmpty);
      forall i :: 0 <= i < |r| ==> IsKeyword(r[i])
  {
    var trimmed := TrimAll(parts);
    var r := Filter(trimmed, NonEmpty);
    forall i | 0 <= i < |r|
      ensures IsKeyword(r[i])
    {
      assert r[i] in trimmed && NonEmpty(r[i]);
      var j :| 0 <= j < |trimmed| && trimmed[j] == r[i];
      TrimmedPieceIsKeyword(parts[j]);
    }
  }

  /** A comma-free piece that is not blank trims to a keyword. */
  lemma TrimmedPieceIsKeyword(p: string)
    requires ',' !in p && Trim(p) != ""
    ensures IsKeyword(Trim(p))
  {
    var w := Trim(p);
    var at :| OccursAt(p, w, at);
    forall c | 0 <= c < |w|
      ensures w[c] != ','
    {
      assert w[c] == p[at + c];
    }
  }

  /** A blank string has no comma, so it splits into itself, which trims
      to nothing. */
  lemma BlankPieces(s: string)
    requires IsBlank(s)
    ensures Filter(TrimAll(Split(s, ',')), NonEmpty) == []
  {
    assert ',' !in s;
    var trimmed := TrimAll(Split(s, ','));
    assert trimmed == [Trim(s)] && Trim(s) == "";
    assert Filter(trimmed, NonEmpty) == [] + Filter(trimmed[1..], NonEmpty);
  }

  /** `fault.keywords?.join(', ') || ''`, the keyword field of the edit form. */
  function KeywordsField(keywords: Option<seq<string>>): string {
    if keywords.Some? then Join(keywords.value, ", ") else ""
  }

  /** Every piece prefixed with `pre`. */
  function Prefixed(ks: seq<string>, pre: string): (r: seq<string>)
    ensures |r| == |ks|
    ensures forall i :: 0 <= i < |ks| ==> r[i] == pre + ks[i]
  {
    seq(|ks|, i requires 0 <= i < |ks| => pre + ks[i])
  }

  /** Prefixing a joined list prefixes its first piece. */
  lemma PrefixJoin(pre: string, xs: seq<string>, sep: string)
    requires |xs| >= 1
    ensures pre + Join(xs, sep) == Join([pre + xs[0]] + xs[1..], sep)
  {
    var ys := [pre + xs[0]] + xs[1..];
    assert ys[1..] == xs[1..];
  }

  /** Joining with `"," + pre` is joining with `","` after prefixing every
      piece but the first with `pre`. */
  lemma {:induction false} JoinWithPrefix(ks: seq<string>, pre: string)
    requires |ks| >= 1
    ensures Join(ks, "," + pre) == Join([ks[0]] + Prefixed(ks[1..], pre), ",")
    decreases |ks|
  {
    if |ks| >= 2 {
      var rest := ks[1..];
      JoinWithPrefix(rest, pre);
      var tail := [rest[0]] + Prefixed(rest[1..], pre);
      PrefixJoin(pre, tail, ",");
      assert [pre + tail[0]] + tail[1..] == Prefixed(rest, pre);
      var all := [ks[0]] + Prefixed(rest, pre);
      assert all[1..] == Prefixed(rest, pre);
    }
  }

  /** The pieces `Join(ks, ", ")` splits into at the commas. */
  lemma SplitJoined(ks: seq<string>)
    requires |ks| >= 1
    requires forall i :: 0 <= i < |ks| ==> ',' !in ks[i]
    ensures Split(Join(ks, ", "), ',') == [ks[0]] + Prefixed(ks[1..], " ")
  {
    var parts := [ks[0]] + Prefixed(ks[1..], " ");
    JoinWithPrefix(ks, " ");
    assert ", " == "," + " ";
    forall k | 0 <= k < |parts|
      ensures ',' !in parts[k]
    {
      if k > 0 {
        assert parts[k] == " " + ks[k];
      }
    }
    SplitJoin(parts, ',');
  }

  /** Trimming those pieces gives the keywords back. */
  lemma TrimPieces(ks: seq<string>)
    requires |ks| >= 1
    requires forall i :: 0 <= i < |ks| ==> IsKeyword(ks[i])
    ensures TrimAll([ks[0]] + Prefixed(ks[1..], " ")) == ks
  {
    var parts := [ks[0]] + Prefixed(ks[1..], " ");
    var trimmed := TrimAll(parts);
    forall k | 0 <= k < |ks|
      ensures trimmed[k] == ks[k]
    {
      if k == 0 {
        TrimTrimmed(ks[0]);
      } else {
        assert parts[k] == " " + ks[k];
        assert IsBlank(" ");
        TrimSpacePrefix(" ", ks[k]);
      }
    }
  }

  /** Reading back the edit form's keyword field gives the stored keywords
      whenever each of them is trimmed, non-empty and comma-free. */
  lemma KeywordsRoundTrip(ks: seq<string>)
    requires forall i :: 0 <= i < |ks| ==> IsKeyword(ks[i])
    ensures ParseKeywords(KeywordsField(Some(ks))) == ks
  {
    if ks == [] {
      assert KeywordsField(Some(ks)) == "";
      assert IsBlank("");
    } else {
      var s := KeywordsField(Some(ks));
      SplitJoined(ks);
      TrimPieces(ks);
      FilterKeepsAll(ks, NonEmpty);
    }
  }

  /** Saving the edit form without touching the keyword field stores the
      same keywords again (missing keywords are stored as an empty list). */
  lemma ParseKeywordsIdempotent(s: string)
    ensures ParseKeywords(KeywordsField(Some(ParseKeywords(s)))) == ParseKeywords(s)
  {
    KeywordsRoundTrip(ParseKeywords(s));
  }

  // =====================================================================
  // Rows and actions

  datatype FaultTypeRow = FaultTypeRow(
    id: string,
    name: string,
    description: Option<string>,
    category: Option<string>,
    keywords: Option<seq<string>>,
    isActive: bool)

  /** The dialog's fields; keywords are one comma-separated string. */
  datatype FaultTypeForm = FaultTypeForm(
    name: string,
    description: string,
    category: string,
    keywords: string,
    isActive: bool)

  /** The form `openCreate` resets to. */
  const EmptyForm := FaultTypeForm("", "", "", "", true)

  /** `openEdit`: the form filled from a stored row. */
  function EditForm(f: FaultTypeRow): (form: FaultTypeForm)
    ensures form.name == f.name && form.isActive == f.isActive
    ensures form.description == f.description.GetOr("")
    ensures form.category == f.category.GetOr("")
    ensures form.keywords == KeywordsField(f.keywords)
  {
    FaultTypeForm(f.name, f.description.GetOr(""), f.category.GetOr(""), KeywordsField(f.keywords), f.isActive)
  }

  /** The stored row for the form's values, with the keywords parsed. */
  function RowFor(id: string, form: FaultTypeForm): (r: FaultTypeRow)
    ensures r.id == id && r.name == form.name && r.isActive == form.isActive
    ensures r.description == Some(form.description) && r.category == Some(form.category)
    ensures r.keywords == Some(ParseKeywords(form.keywords))
  {
    FaultTypeRow(id, form.name, Some(form.description), Some(form.category), Some(ParseKeywords(form.keywords)), form.isActive)
  }

  /** `createMutation`: the row is appended under the id the database gives. */
  function CreateFaultType(rows: seq<FaultTypeRow>, id: string, form: FaultTypeForm): seq<FaultTypeRow> {
    rows + [RowFor(id, form)]
  }

  /** `updateMutation`: every field of the row `id` is set from the form. */
  function UpdateFaultType(rows: seq<FaultTypeRow>, id: string, form: FaultTypeForm): (r: seq<FaultTypeRow>)
    ensures |r| == |rows|
    ensures forall i :: 0 <= i < |rows| ==> r[i] == (if rows[i].id == id then RowFor(id, form) else rows[i])
  {
    seq(|rows|, i requires 0 <= i < |rows| => if rows[i].id == id then RowFor(id, form) else rows[i])
  }

  /** `deleteMutation`. */
  function DeleteFaultType(rows: seq<FaultTypeRow>, id: string): (r: seq<FaultTypeRow>)
    ensures forall f :: f in r <==> f in rows && f.id != id
  {
    Filter(rows, (f: FaultTypeRow) => f.id != id)
  }

  /** `toggleActiveMutation`: only `is_active` of the row `id` changes. */
  function SetActive(rows: seq<FaultTypeRow>, id: string, active: bool): (r: seq<FaultTypeRow>)
    ensures |r| == |rows|
    ensures forall i :: 0 <= i < |rows| ==> r[i] == rows[i].(isActive := if rows[i].id == id then active else rows[i].isActive)
  {
    seq(|rows|, i requires 0 <= i < |rows| => if rows[i].id == id then rows[i].(isActive := active) else rows[i])
  }

  /** `onSubmit`: update the row being edited, or create a new one. */
  function Submit(rows: seq<FaultTypeRow>, editing: Option<FaultTypeRow>, newId: string, form: FaultTypeForm): (r: seq<FaultTypeRow>)
    ensures editing.None? ==> r == rows + [RowFor(newId, form)]
    ensures editing.Some? ==> |r| == |rows|
    ensures editing.Some? ==> forall i :: 0 <= i < |rows| ==>
      r[i] == (if rows[i].id == editing.value.id then RowFor(editing.value.id, form) else rows[i])
  {
    if editing.Some? then UpdateFaultType(rows, editing.value.id, form) else CreateFaultType(rows, newId, form)
  }

  /** Opening a row for editing and saving it unchanged keeps its name,
      state and well-formed keywords; a missing description or category
      becomes the empty string. */
  lemma EditUnchangedKeepsRow(rows: seq<FaultTypeRow>, f: FaultTypeRow, i: nat)
    requires i < |rows| && rows[i] == f
    requires f.keywords.Some? ==> forall k :: 0 <= k < |f.keywords.value| ==> IsKeyword(f.keywords.value[k])
    ensures Submit(rows, Some(f), "", EditForm(f))[i]
      == f.(description := Some(f.description.GetOr("")),
            category := Some(f.category.GetOr("")),
            keywords := Some(f.keywords.GetOr([])))
  {
    if f.keywords.Some? {
      KeywordsRoundTrip(f.keywords.value);
    } else {
      assert IsBlank("");
    }
  }

  // =====================================================================
  // Grouping and badges

  const Uncategorised := "Sin categoría"

  /** `fault.category || 'Sin categoría'`. */
  function Category(f: FaultTypeRow): (c: string)
    ensures f.category.None? || f.category.value == "" ==> c == Uncategorised
    ensures f.category.Some? && f.category.value != "" ==> c == f.category.value
  {
    if f.category.Some? && f.category.value != "" then f.category.value else Uncategorised
  }

  /** `groupedFaults`. */
  function GroupByCategory(rows: seq<FaultTypeRow>): map<string, seq<FaultTypeRow>> {
    GroupBy(rows, Category)
  }

  /** Every fault is listed under its own category, and only there; each
      category lists its faults in catalogue order. */
  lemma GroupByCategoryPlaces(rows: seq<FaultTypeRow>, i: nat, c: string)
    requires i < |rows|
    ensures Category(rows[i]) in GroupByCategory(rows)
    ensures c in GroupByCategory(rows) ==> (rows[i] in GroupByCategory(rows)[c] <==> Category(rows[i]) == c)
    ensures c in GroupByCategory(rows) ==> GroupByCategory(rows)[c] == Filter(rows, InCategory(c))
  {
    GroupByKeys(rows, Category, Category(rows[i]));
    if c in GroupByCategory(rows) {
      GroupByBucketsAs(rows, Category, c, InCategory(c));
    }
  }

  /** The faults listed under category `c`. */
  function InCategory(c: string): FaultTypeRow -> bool {
    (f: FaultTypeRow) => Category(f) == c
  }

  /** The keyword cell: the first three keywords, and a `+n` badge for the
      rest when there are more than three. */
  function Badges(keywords: Option<seq<string>>): (r: (seq<string>, Option<nat>))
    ensures |r.0| <= 3
    ensures keywords.None? ==> r == ([], None)
    ensures keywords.Some? ==> r.0 <= keywords.value
    ensures keywords.Some? ==> |r.0| + (if r.1.Some? then r.1.value else 0) == |keywords.value|
    ensures r.1.Some? <==> keywords.Some? && |keywords.value| > 3
  {
    if keywords.None? then ([], None)
    else
      var ks := keywords.value;
      if |ks| > 3 then (ks[..3], Some(|ks| - 3)) else (ks, None)
  }
}
