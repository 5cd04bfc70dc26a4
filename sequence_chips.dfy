/** The chip-list editor for a machine type's sequences, whose add and
    remove rules the attribute dialog's select options follow as well: a
    list without duplicates, a text input, add on click or Enter, remove by
    value. */
module SequenceChips {
  import opened Seqs
  import opened Text

  /** No entry occurs twice. */
  predicate NoDuplicates(xs: seq<string>) {
    forall i, j :: 0 <= i < j < |xs| ==> xs[i] != xs[j]
  }

  /** `addSequence` (and `addOption`): the trimmed input is appended and the
      input cleared, unless it is blank or already listed, when nothing
      changes. Returns the new list and the new input. */
  function AddChip(chips: seq<string>, input: string): (r: (seq<string>, string))
    ensures IsBlank(input) ==> r == (chips, input)
    ensures !IsBlank(input) && Trim(input) in chips ==> r == (chips, input)
    ensures !IsBlank(input) && Trim(input) !in chips ==> r == (chips + [Trim(input)], "")
    ensures NoDuplicates(chips) ==> NoDuplicates(r.0)
    ensures forall x :: x in r.0 <==> x in chips || (x == Trim(input) && x != "")
  {
    var trimmed := Trim(input);
    if trimmed != "" && trimmed !in chips then (chips + [trimmed], "") else (chips, input)
  }

  /** `removeSequence` (and `removeOption`): every entry equal to `chip` is
      dropped and the others keep their order. */
  function RemoveChip(chips: seq<string>, chip: string): (r: seq<string>)
    ensures chip !in r
    ensures forall x :: x != chip ==> (x in r <==> x in chips)
    ensures forall x :: x != chip ==> multiset(r)[x] == multiset(chips)[x]
    ensures NoDuplicates(chips) ==> NoDuplicates(r)
  {
    var r := Filter(chips, (s: string) => s != chip);
    assert NoDuplicates(chips) ==> NoDuplicates(r) by {
      if NoDuplicates(chips) {
        RemoveKeepsNoDuplicates(chips, chip);
      }
    }
    assert forall x :: x != chip ==> multiset(r)[x] == multiset(chips)[x] by {
      forall x | x != chip
        ensures multiset(r)[x] == multiset(chips)[x]
      {
        RemoveKeepsCount(chips, chip, x);
      }
    }
    r
  }

  /** Every other entry is kept as often as it occurs. */
  lemma {:induction false} RemoveKeepsCount(chips: seq<string>, chip: string, x: string)
    requires x != chip
    ensures multiset(Filter(chips, (s: string) => s != chip))[x] == multiset(chips)[x]
  {
    if chips != [] {
      RemoveKeepsCount(chips[1..], chip, x);
      assert chips == [chips[0]] + chips[1..];
    }
  }

  /** Removal works entry by entry: removing from a concatenation removes
      from each part, so the kept entries stay in their order. */
  lemma RemoveChipAppend(a: seq<string>, b: seq<string>, chip: string)
    ensures RemoveChip(a + b, chip) == RemoveChip(a, chip) + RemoveChip(b, chip)
  {
    FilterAppend(a, b, (s: string) => s != chip);
  }

  /** A single entry goes exactly when it equals the chip. */
  lemma RemoveChipSingle(x: string, chip: string)
    ensures x == chip ==> RemoveChip([x], chip) == []
    ensures x != chip ==> RemoveChip([x], chip) == [x]
  {
  }

  lemma {:induction false} RemoveKeepsNoDuplicates(chips: seq<string>, chip: string)
    requires NoDuplicates(chips)
    ensures NoDuplicates(Filter(chips, (s: string) => s != chip))
  {
    if chips != [] {
      RemoveKeepsNoDuplicates(chips[1..], chip);
      var rest := Filter(chips[1..], (s: string) => s != chip);
      assert chips[0] !in chips[1..];
    }
  }

  /** Removing a chip that was just added restores the list. */
  lemma AddThenRemove(chips: seq<string>, input: string)
    requires !IsBlank(input) && Trim(input) !in chips
    ensures RemoveChip(AddChip(chips, input).0, Trim(input)) == chips
  {
    var t := Trim(input);
    var p := (s: string) => s != t;
    FilterAppend(chips, [t], p);
    FilterKeepsAll(chips, p);
  }

  /** Adding the same input twice adds it once. */
  lemma AddTwice(chips: seq<string>, input: string)
    ensures var once := AddChip(chips, input).0;
      AddChip(once, input).0 == once
  {
  }

  /** `handleKeyDown`: Enter adds; any other key leaves both unchanged. */
  function OnKeyDown(chips: seq<string>, input: string, key: string): (r: (seq<string>, string))
    ensures key == "Enter" ==> r == AddChip(chips, input)
    ensures key != "Enter" ==> r == (chips, input)
  {
    if key == "Enter" then AddChip(chips, input) else (chips, input)
  }

  /** The add button is enabled exactly when the input is not blank. */
  predicate CanAdd(input: string) {
    !IsBlank(input)
  }
}
