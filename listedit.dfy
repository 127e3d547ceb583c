/**
 * The list operations every section editor repeats: overwrite one position
 * of a copied array, drop a position with `filter`, append with a spread,
 * and move an entry one step with two `splice` calls.
 */
module ListEdit {

  /** `after` has `before`'s length and agrees with it everywhere except, perhaps, at `index`. */
  ghost predicate OnlyChanged<T>(before: seq<T>, after: seq<T>, index: int) {
    |after| == |before| && forall i :: 0 <= i < |before| && i != index ==> after[i] == before[i]
  }

  /** `updateItem`: copy the list into a fresh array and overwrite position `index`. */
  method UpdateItem<T>(items: seq<T>, index: nat, item: T) returns (next: seq<T>)
    requires index < |items|
    ensures OnlyChanged(items, next, index) && next[index] == item
  {
    var a := new T[|items|](i requires 0 <= i < |items| => items[i]);
    a[index] := item;
    next := a[..];
  }

  /**
   * `items.filter((_, i) => i !== index)`: keeps every position but `index`,
   * in order; an index outside the list keeps everything.
   */
  function RemoveAt<T>(items: seq<T>, index: int): (r: seq<T>)
    ensures 0 <= index < |items| ==> r == items[..index] + items[index + 1..]
    ensures !(0 <= index < |items|) ==> r == items
    decreases |items|
  {
    if |items| == 0 then []
    else
      var rest := RemoveAt(items[1..], index - 1);
      var r := (if index == 0 then [] else [items[0]]) + rest;
      assert 0 < index < |items| ==> r == items[..index] + items[index + 1..] by {
        if 0 < index < |items| {
          assert items[1..][..index - 1] == items[1..index];
          assert items[1..][index..] == items[index + 1..];
          assert [items[0]] + items[1..index] == items[..index];
        }
      }
      assert !(0 <= index < |items|) ==> r == items by {
        if !(0 <= index < |items|) {
          assert [items[0]] + items[1..] == items;
        }
      }
      r
  }

  /** Removing a position shortens the list by one and shifts everything after it down by one. */
  lemma RemoveAtShifts<T>(items: seq<T>, index: int)
    requires 0 <= index < |items|
    ensures |RemoveAt(items, index)| == |items| - 1
    ensures forall i :: 0 <= i < index ==> RemoveAt(items, index)[i] == items[i]
    ensures forall i :: index <= i < |items| - 1 ==> RemoveAt(items, index)[i] == items[i + 1]
  {
  }

  /** Removing a position takes exactly that one element out of the multiset. */
  lemma RemoveAtMultiset<T>(items: seq<T>, index: int)
    requires 0 <= index < |items|
    ensures multiset(RemoveAt(items, index)) + multiset{items[index]} == multiset(items)
  {
    var before, after := items[..index], items[index + 1..];
    assert items == before + [items[index]] + after;
    SplitMultiset(before, items[index], after);
  }

  lemma SplitMultiset<T>(before: seq<T>, x: T, after: seq<T>)
    ensures multiset(before + after) + multiset{x} == multiset(before + [x] + after)
  {
  }

  /** `[...items, item]`: one more position, holding `item`, after an unchanged prefix. */
  function Appended<T>(items: seq<T>, item: T): (r: seq<T>)
    ensures |r| == |items| + 1 && r[..|items|] == items && r[|items|] == item
  {
    items + [item]
  }

  /** `next.splice(k, 0, item)`: `item` lands at `k`, and the elements from `k` on move up by one. */
  function InsertAt<T>(items: seq<T>, k: int, item: T): (r: seq<T>)
    requires 0 <= k <= |items|
    ensures |r| == |items| + 1 && r[k] == item
    ensures forall i :: 0 <= i < k ==> r[i] == items[i]
    ensures forall i :: k < i < |r| ==> r[i] == items[i - 1]
  {
    items[..k] + [item] + items[k..]
  }

  /**
   * `moveItem`: when `index + direction` lies inside the list, take the
   * entry out at `index` and put it back in at `index + direction`;
   * otherwise the list is returned as it was.
   */
  function Moved<T>(items: seq<T>, index: nat, direction: int): (r: seq<T>)
    requires index < |items|
    ensures !(0 <= index + direction < |items|) ==> r == items
  {
    var target := index + direction;
    if target < 0 || target >= |items| then items
    else InsertAt(RemoveAt(items, index), target, items[index])
  }

  /** A one-step move inside the list exchanges the entry with its neighbour and touches nothing else. */
  lemma MovedSwaps<T>(items: seq<T>, index: nat, direction: int)
    requires index < |items|
    requires direction == -1 || direction == 1
    requires 0 <= index + direction < |items|
    ensures Moved(items, index, direction) == items[index := items[index + direction]][index + direction := items[index]]
  {
    RemoveAtShifts(items, index);
  }

  /** Moving never adds, loses or duplicates an entry. */
  lemma MovedPermutes<T>(items: seq<T>, index: nat, direction: int)
    requires index < |items|
    ensures multiset(Moved(items, index, direction)) == multiset(items)
  {
    var target := index + direction;
    if 0 <= target < |items| {
      var rest := RemoveAt(items, index);
      RemoveAtMultiset(items, index);
      assert InsertAt(rest, target, items[index]) == rest[..target] + [items[index]] + rest[target..];
      assert rest == rest[..target] + rest[target..];
    }
  }

  /** Moving an entry one step and then back one step restores the list (down-then-up and up-then-down). */
  lemma {:induction false} MoveThenBack<T>(items: seq<T>, index: nat, direction: int)
    requires index < |items|
    requires direction == -1 || direction == 1
    requires 0 <= index + direction < |items|
    ensures Moved(Moved(items, index, direction), index + direction, -direction) == items
  {
    var target := index + direction;
    var once := Moved(items, index, direction);
    MovedSwaps(items, index, direction);
    MovedSwaps(once, target, -direction);
  }

  /**
   * `moveItem`'s body on a copied array. For a neighbour the two `splice`
   * calls amount to exchanging the two entries, which is what the array
   * holds afterwards.
   */
  method MoveItem<T>(items: seq<T>, index: nat, direction: int) returns (next: seq<T>)
    requires index < |items|
    requires direction == -1 || direction == 1
    ensures next == Moved(items, index, direction)
    ensures |next| == |items| && multiset(next) == multiset(items)
  {
    MovedPermutes(items, index, direction);
    var target := index + direction;
    if target < 0 || target >= |items| {
      return items;
    }
    var a := new T[|items|](i requires 0 <= i < |items| => items[i]);
    var item := a[index];
    a[index] := a[target];
    a[target] := item;
    next := a[..];
    MovedSwaps(items, index, direction);
  }
}
