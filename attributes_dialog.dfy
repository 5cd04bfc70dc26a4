/** The stand-alone attribute list editor: a list of names, a text input
    and the position being edited (`-1` when none). One button creates or
    updates depending on that position; each item can be edited, deleted
    or copied into the input, and the input can be pasted as a new item. */
module AttributesDialog {
  import opened Seqs

  /** No item is being edited. */
  const NotEditing := -1

  /** Element assignment `xs[i] = v` on a copy of a JavaScript array: in
      range it replaces one element; past the end it lengthens the array to
      `i + 1`, with holes (empty strings here) between the old end and `i`. */
  function AssignAt(xs: seq<string>, i: nat, v: string): (r: seq<string>)
    ensures |r| == if i < |xs| then |xs| else i + 1
    ensures r[i] == v
    ensures forall k :: 0 <= k < |xs| && k != i ==> r[k] == xs[k]
  {
    if i < |xs| then xs[i := v] else xs + seq(i - |xs|, _ => "") + [v]
  }

  /** `handleDelete` as written: the item goes, the editing position stays
      what it was. */
  function DeleteAsWritten(attributes: seq<string>, editingIndex: int, index: nat)
    : (r: (seq<string>, int))
    ensures r.0 == RemoveAt(attributes, index) && r.1 == editingIndex
  {
    (RemoveAt(attributes, index), editingIndex)
  }

  /** `handleUpdate` as written: the input is assigned at the editing
      position, whatever the list now holds there. */
  function UpdateAsWritten(attributes: seq<string>, editingIndex: nat, input: string)
    : (r: seq<string>)
    ensures r == AssignAt(attributes, editingIndex, input)
  {
    AssignAt(attributes, editingIndex, input)
  }

  /** Deleting an item at or before the one being edited, as written,
      leaves the editing position naming the next item, or one past the
      end when the edited item was the last. */
  lemma StaleEditingIndex(attributes: seq<string>, editingIndex: nat, index: nat)
    requires index <= editingIndex < |attributes|
    ensures var (rest, e) := DeleteAsWritten(attributes, editingIndex, index);
      e == editingIndex
      && (editingIndex + 1 < |attributes| ==> rest[e] == attributes[editingIndex + 1])
      && (editingIndex + 1 == |attributes| ==> e == |rest|)
  {
  }

  /** Editing "b" in ["a", "b", "c"], deleting "a" and then pressing
      Update overwrites "c" and leaves "b" as it was. */
  lemma UpdateAfterDeleteOverwritesNeighbour()
    ensures var (rest, e) := DeleteAsWritten(["a", "b", "c"], 1, 0);
      UpdateAsWritten(rest, 1, "x") == ["b", "x"]
  {
    var (rest, e) := DeleteAsWritten(["a", "b", "c"], 1, 0);
    assert rest == ["b", "c"];
  }

  /** Editing "b" in ["a", "b"], deleting "b" and then pressing Update
      brings a second item back. */
  lemma UpdateAfterDeleteRevivesItem()
    ensures var (rest, e) := DeleteAsWritten(["a", "b"], 1, 1);
      UpdateAsWritten(rest, 1, "x") == ["a", "x"]
  {
    var (rest, e) := DeleteAsWritten(["a", "b"], 1, 1);
    assert rest == ["a"];
    assert seq(0, _ => "") == [];
  }

  /** The editing position after deleting `index`: the edit is dropped
      when its own item goes, and follows its item down one place when an
      earlier one goes. */
  function EditingAfterDelete(editingIndex: int, index: nat): int {
    if editingIndex == index then NotEditing
    else if index < editingIndex then editingIndex - 1
    else editingIndex
  }

  /** With the corrected position, an edit in progress still names the item
      it started on, and the position stays inside the shorter list. */
  lemma EditingAfterDeleteTracksItem(attributes: seq<string>, editingIndex: int, index: nat)
    requires NotEditing <= editingIndex < |attributes| && index < |attributes|
    ensures var e := EditingAfterDelete(editingIndex, index);
      var rest := RemoveAt(attributes, index);
      NotEditing <= e < |rest|
      && (e == NotEditing <==> editingIndex == NotEditing || editingIndex == index)
      && (e != NotEditing ==> rest[e] == attributes[editingIndex])
  {
  }

  class Dialog {
    var attributes: seq<string>
    var editingIndex: int
    var newAttribute: string

    /** The editing position is either none or an item of the list. */
    predicate Valid()
      reads this
    {
      NotEditing <= editingIndex < |attributes|
    }

    constructor ()
      ensures Valid()
      ensures attributes == [] && editingIndex == NotEditing && newAttribute == ""
    {
      attributes := [];
      editingIndex := NotEditing;
      newAttribute := "";
    }

    /** Typing into the input. */
    method OnInput(text: string)
      modifies this
      ensures newAttribute == text
      ensures attributes == old(attributes) && editingIndex == old(editingIndex)
    {
      newAttribute := text;
    }

    /** `handleCreate`: appends the input, even an empty one, and clears it. */
    method Create()
      requires Valid()
      modifies this
      ensures Valid()
      ensures attributes == old(attributes) + [old(newAttribute)]
      ensures newAttribute == "" && editingIndex == old(editingIndex)
    {
      attributes := attributes + [newAttribute];
      newAttribute := "";
    }

    /** `handleEdit`: starts editing item `index` with its text in the input. */
    method Edit(index: nat)
      requires Valid() && index < |attributes|
      modifies this
      ensures Valid()
      ensures editingIndex == index && newAttribute == attributes[index]
      ensures attributes == old(attributes)
    {
      editingIndex := index;
      newAttribute := attributes[index];
    }

    /** `handleUpdate`: writes the input over the item being edited, in a
        copy of the list, and leaves editing mode with an empty input. */
    method Update()
      requires Valid() && editingIndex != NotEditing
      modifies this
      ensures Valid()
      ensures |attributes| == |old(attributes)|
      ensures attributes[old(editingIndex)] == old(newAttribute)
      ensures forall k :: 0 <= k < |attributes| && k != old(editingIndex) ==> attributes[k] == old(attributes)[k]
      ensures editingIndex == NotEditing && newAttribute == ""
    {
      var current := attributes;
      var updated := new string[|current|](k => if 0 <= k < |current| then current[k] else "");
      updated[editingIndex] := newAttribute;
      attributes := updated[..];
      editingIndex := NotEditing;
      newAttribute := "";
    }

    /** `handleDelete`, with the editing position kept on its item (see
        `EditingAfterDelete`); the input is left alone. */
    method Delete(index: nat)
      requires Valid() && index < |attributes|
      modifies this
      ensures Valid()
      ensures attributes == RemoveAt(old(attributes), index)
      ensures editingIndex == EditingAfterDelete(old(editingIndex), index)
      ensures editingIndex != NotEditing ==> attributes[editingIndex] == old(attributes)[old(editingIndex)]
      ensures newAttribute == old(newAttribute)
    {
      EditingAfterDeleteTracksItem(attributes, editingIndex, index);
      attributes := RemoveAt(attributes, index);
      editingIndex := EditingAfterDelete(editingIndex, index);
    }

    /** `handleCopy`: loads item `index` into the input; nothing else moves. */
    method Copy(index: nat)
      requires Valid() && index < |attributes|
      modifies this
      ensures Valid()
      ensures attributes == old(attributes) && editingIndex == old(editingIndex)
      ensures newAttribute == attributes[index]
    {
      newAttribute := attributes[index];
    }

    /** `handlePaste`: appends the input and clears it, only when it is not
        empty. */
    method Paste()
      requires Valid()
      modifies this
      ensures Valid()
      ensures old(newAttribute) != "" ==> attributes == old(attributes) + [old(newAttribute)] && newAttribute == ""
      ensures old(newAttribute) == "" ==> attributes == old(attributes) && newAttribute == ""
      ensures editingIndex == old(editingIndex)
    {
      if newAttribute != "" {
        attributes := attributes + [newAttribute];
        newAttribute := "";
      }
    }

    /** The main button: Create when nothing is being edited, Update
        otherwise. */
    method MainButton()
      requires Valid()
      modifies this
      ensures Valid()
      ensures old(editingIndex) == NotEditing ==> attributes == old(attributes) + [old(newAttribute)]
      ensures old(editingIndex) != NotEditing
        ==> |attributes| == |old(attributes)| && attributes[old(editingIndex)] == old(newAttribute)
      ensures editingIndex == NotEditing && newAttribute == ""
    {
      if editingIndex == NotEditing {
        Create();
      } else {
        Update();
      }
    }
  }
}
