/** The drag-and-drop attribute list: numbered default names, edit through
    a prompt, delete, and reordering by dropping one item onto another. The
    items double as their own drag ids. */
module AttributesManager {
  import opened Common
  import opened Seqs
  import opened Text

  /** The name `handleCreate` gives to the `n`-th item. */
  function DefaultName(n: nat): string {
    "Attribute " + NatToString(n)
  }

  /** Distinct positions get distinct default names. */
  lemma DefaultNameInjective(m: nat, n: nat)
    requires DefaultName(m) == DefaultName(n)
    ensures m == n
  {
    var prefix := "Attribute ";
    assert NatToString(m) == DefaultName(m)[|prefix|..];
    assert NatToString(n) == DefaultName(n)[|prefix|..];
    NatToStringValue(m);
    NatToStringValue(n);
  }

  /** The list the component starts with. */
  const InitialAttributes: seq<string> := ["Attribute 1", "Attribute 2"]

  /** The starting names are the ones `handleCreate` would have produced. */
  lemma InitialAttributesAreDefaults()
    ensures InitialAttributes == [DefaultName(1), DefaultName(2)]
  {
    assert DigitChar(1) == '1' && DigitChar(2) == '2';
    assert NatToString(1) == ['1'] && NatToString(2) == ['2'];
    assert DefaultName(1) == "Attribute 1";
    assert DefaultName(2) == "Attribute 2";
  }

  /** The position of the first occurrence of `x` in `xs`
      (`xs.indexOf(x)` for an `x` that occurs). */
  function IndexOfItem(xs: seq<string>, x: string): (i: nat)
    requires x in xs
    ensures i < |xs| && xs[i] == x
    ensures forall j :: 0 <= j < i ==> xs[j] != x
  {
    FirstIndex(xs, (y: string) => y == x)
  }

  /** `arrayMove(xs, from, to)`: the element at `from` taken out and put
      back so that it ends at `to`. The result is a rearrangement of `xs`
      in which the moved element sits at `to` and all the others keep
      their relative order. */
  function Move(xs: seq<string>, from: nat, to: nat): (r: seq<string>)
    requires from < |xs| && to < |xs|
    ensures |r| == |xs|
    ensures multiset(r) == multiset(xs)
    ensures r[to] == xs[from]
    ensures RemoveAt(r, to) == RemoveAt(xs, from)
  {
    RemoveAtMultiset(xs, from);
    var r := InsertAt(RemoveAt(xs, from), to, xs[from]);
    RemoveInsert(RemoveAt(xs, from), to, xs[from]);
    r
  }

  /** Moving an element back to where it came from undoes the move. */
  lemma MoveBack(xs: seq<string>, from: nat, to: nat)
    requires from < |xs| && to < |xs|
    ensures Move(Move(xs, from, to), to, from) == xs
  {
    var r := Move(xs, from, to);
    assert Move(r, to, from) == InsertAt(RemoveAt(xs, from), from, xs[from]);
    InsertRemove(xs, from);
  }

  /** Moving an element onto its own position changes nothing. */
  lemma MoveInPlace(xs: seq<string>, i: nat)
    requires i < |xs|
    ensures Move(xs, i, i) == xs
  {
    InsertRemove(xs, i);
  }

  /** The value an edit writes: the prompt's answer, or the old value when
      the prompt is cancelled (`null`) or answered with an empty string. */
  function PromptValue(answer: Option<string>, current: string): (v: string)
    ensures v == current || (answer.Some? && v == answer.value)
    ensures v != "" || current == ""
  {
    if answer.Some? && answer.value != "" then answer.value else current
  }

  class Manager {
    var attributes: seq<string>

    constructor ()
      ensures attributes == InitialAttributes
    {
      attributes := InitialAttributes;
    }

    /** `handleCreate`: appends the default name for the new length. */
    method Create()
      modifies this
      ensures attributes == old(attributes) + [DefaultName(|old(attributes)| + 1)]
    {
      attributes := attributes + [DefaultName(|attributes| + 1)];
    }

    /** `handleEdit` with the prompt's answer: assigns into a copy of the
        list at `index` only; a cancelled prompt keeps the list as it was. */
    method Edit(index: nat, answer: Option<string>)
      requires index < |attributes|
      modifies this
      ensures |attributes| == |old(attributes)|
      ensures attributes[index] == PromptValue(answer, old(attributes)[index])
      ensures forall k :: 0 <= k < |attributes| && k != index ==> attributes[k] == old(attributes)[k]
      ensures answer.None? ==> attributes == old(attributes)
    {
      var current := attributes;
      var updated := new string[|current|](k => if 0 <= k < |current| then current[k] else "");
      updated[index] := PromptValue(answer, current[index]);
      attributes := updated[..];
    }

    /** `handleDelete`: drops position `index`, keeping the rest in order. */
    method Delete(index: nat)
      modifies this
      ensures attributes == RemoveAt(old(attributes), index)
    {
      attributes := RemoveAt(attributes, index);
    }

    /** `handleDragEnd` for a drop of `activeId` onto `overId`: a drop onto
        itself changes nothing; otherwise the dragged item moves to the
        target's position. Either way the list is a rearrangement of the
        old one. */
    method DragEnd(activeId: string, overId: string)
      requires activeId in attributes && overId in attributes
      modifies this
      ensures |attributes| == |old(attributes)|
      ensures multiset(attributes) == multiset(old(attributes))
      ensures activeId == overId ==> attributes == old(attributes)
      ensures activeId != overId ==> attributes == Move(old(attributes),
        IndexOfItem(old(attributes), activeId), IndexOfItem(old(attributes), overId))
    {
      if activeId != overId {
        var oldIndex := IndexOfItem(attributes, activeId);
        var newIndex := IndexOfItem(attributes, overId);
        attributes := Move(attributes, oldIndex, newIndex);
      }
    }
  }
}
