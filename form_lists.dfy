/** The two list editors of the recipe form (ingredients and steps). Each is a
    list of entries plus a one-line input; both use the same two updates: add
    the trimmed input and clear it, or drop the entry shown at a position. */
module FormLists {
  import opened Text

  /** A list editor's state: its entries and the text typed in its input. */
  datatype ListEdit = ListEdit(items: seq<string>, input: string)

  /** What an editor can hold: a non-blank line that neither starts nor ends
      with a code point trim removes. */
  predicate IsEntry(e: string) {
    e != [] && !IsTrimmable(e[0]) && !IsTrimmable(e[|e| - 1])
  }

  /** Entries are exactly the non-empty fixed points of trim. */
  lemma IsEntryTrimmed(e: string)
    ensures IsEntry(e) <==> e != [] && Trim(e) == e
  {
    if IsEntry(e) {
      assert e == [] + e + [] && AllTrimmable([]);
      TrimUnique(e, e);
    }
  }

  predicate AllEntries(items: seq<string>) {
    forall k :: 0 <= k < |items| ==> IsEntry(items[k])
  }

  /** The "add" button (or Enter): when the input trims to something, append the
      trimmed text and clear the input; otherwise change nothing. */
  function Add(items: seq<string>, input: string): (r: ListEdit)
    ensures Trim(input) == [] ==> r == ListEdit(items, input)
    ensures Trim(input) != [] ==>
      |r.items| == |items| + 1 && r.items[..|items|] == items &&
      r.items[|items|] == Trim(input) && IsEntry(r.items[|items|]) && r.input == ""
  {
    var t := Trim(input);
    if t != [] then
      ListEdit(items + [t], "")
    else
      ListEdit(items, input)
  }

  /** Adding never brings in anything that is not an entry. */
  lemma AddKeepsEntries(items: seq<string>, input: string)
    requires AllEntries(items)
    ensures AllEntries(Add(items, input).items)
  {
    var r := Add(items, input);
    if Trim(input) != [] {
      assert forall k :: 0 <= k < |items| ==> r.items[k] == items[k];
    }
  }

  /** `items.filter((_, i) => i !== index)`: keep each entry whose position differs
      from `index`. Written from the end so that each step tests one position. */
  function KeepOthers(items: seq<string>, index: int): (r: seq<string>)
    ensures |r| == if 0 <= index < |items| then |items| - 1 else |items|
  {
    if items == [] then []
    else
      var last := |items| - 1;
      KeepOthers(items[..last], index) + (if last != index then [items[last]] else [])
  }

  /** A position outside the list matches no entry, so the filter keeps them all. */
  lemma {:induction false} KeepOthersOutside(items: seq<string>, index: int)
    requires index < 0 || index >= |items|
    ensures KeepOthers(items, index) == items
  {
    if items != [] {
      var last := |items| - 1;
      KeepOthersOutside(items[..last], index);
      assert items == items[..last] + [items[last]];
    }
  }

  /** A position inside the list removes exactly that entry; the others keep
      their order and the later ones move back by one. */
  lemma {:induction false} KeepOthersInside(items: seq<string>, index: int)
    requires 0 <= index < |items|
    ensures KeepOthers(items, index) == items[..index] + items[index + 1..]
  {
    var last := |items| - 1;
    if index == last {
      KeepOthersOutside(items[..last], index);
    } else {
      KeepOthersInside(items[..last], index);
      assert items[..last][..index] == items[..index];
      assert items[..last][index + 1..] + [items[last]] == items[index + 1..];
    }
  }

  /** Removal never brings in anything that was not an entry before. */
  lemma KeepOthersKeepsEntries(items: seq<string>, index: int)
    requires AllEntries(items)
    ensures AllEntries(KeepOthers(items, index))
  {
    if 0 <= index < |items| {
      KeepOthersInside(items, index);
    } else {
      KeepOthersOutside(items, index);
    }
  }
}
