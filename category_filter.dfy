/** The category filter that the `Projects` and `Blog` sections share
    (src/components/Projects.jsx:80-82, src/components/Blog.jsx:75-77):
    the selection 'All' shows the whole list, any other selection the items
    of that category, in their original order. */
module CategoryFilter {

  const All: string := "All"

  /** The items whose category is `selected`, in order. */
  function Matching<T>(items: seq<T>, category: T -> string, selected: string): seq<T>
    decreases |items|
  {
    if |items| == 0 then []
    else
      var last := items[|items| - 1];
      Matching(items[..|items| - 1], category, selected) +
      (if category(last) == selected then [last] else [])
  }

  /** The list the section renders for a selection. */
  function Filter<T>(items: seq<T>, category: T -> string, selected: string): seq<T> {
    if selected == All then items else Matching(items, category, selected)
  }

  /** The positions of the matching items, in increasing order. */
  function MatchPositions<T>(items: seq<T>, category: T -> string, selected: string): seq<nat>
    decreases |items|
  {
    if |items| == 0 then []
    else
      var n := |items| - 1;
      MatchPositions(items[..n], category, selected) +
      (if category(items[n]) == selected then [n] else [])
  }

  /** The matching positions strictly increase, and a position is among
      them exactly when the item there has the selected category. */
  lemma {:induction false} MatchPositionsExact<T>(items: seq<T>, category: T -> string, selected: string)
    ensures var pos := MatchPositions(items, category, selected);
      (forall k :: 0 <= k < |pos| ==> pos[k] < |items|) &&
      (forall a, b :: 0 <= a < b < |pos| ==> pos[a] < pos[b]) &&
      (forall i :: 0 <= i < |items| ==> (i in pos <==> category(items[i]) == selected))
    decreases |items|
  {
    if |items| > 0 {
      var n := |items| - 1;
      var front := items[..n];
      MatchPositionsExact(front, category, selected);
      assert forall i :: 0 <= i < n ==> front[i] == items[i];
    }
  }

  /** The k-th matching item is the item at the k-th matching position. */
  lemma {:induction false} MatchingAtPositions<T>(items: seq<T>, category: T -> string, selected: string)
    ensures var r, pos := Matching(items, category, selected), MatchPositions(items, category, selected);
      |r| == |pos| && forall k :: 0 <= k < |pos| ==> pos[k] < |items| && r[k] == items[pos[k]]
    decreases |items|
  {
    if |items| > 0 {
      var n := |items| - 1;
      var front := items[..n];
      MatchingAtPositions(front, category, selected);
      var pos' := MatchPositions(front, category, selected);
      forall k | 0 <= k < |pos'|
        ensures front[pos'[k]] == items[pos'[k]]
      {
      }
    }
  }

  /** The matching items are exactly the items at the matching positions:
      the positions strictly increase, each one holds an item of the
      selected category, every such item's position is among them, and the
      k-th result is the item at the k-th position. So the result is the
      subsequence of the items with that category, in their original
      order. */
  lemma MatchingExact<T>(items: seq<T>, category: T -> string, selected: string)
    ensures var r, pos := Matching(items, category, selected), MatchPositions(items, category, selected);
      |r| == |pos| &&
      (forall k :: 0 <= k < |pos| ==> pos[k] < |items| && r[k] == items[pos[k]]) &&
      (forall a, b :: 0 <= a < b < |pos| ==> pos[a] < pos[b]) &&
      (forall i :: 0 <= i < |items| ==> (i in pos <==> category(items[i]) == selected))
  {
    MatchPositionsExact(items, category, selected);
    MatchingAtPositions(items, category, selected);
  }

  /** Every item of the result has the selected category, and every item of
      that category is in the result. */
  lemma MatchingMembers<T>(items: seq<T>, category: T -> string, selected: string)
    ensures forall x :: x in Matching(items, category, selected) ==> x in items && category(x) == selected
    ensures forall x :: x in items && category(x) == selected ==> x in Matching(items, category, selected)
  {
    MatchingExact(items, category, selected);
    var r, pos := Matching(items, category, selected), MatchPositions(items, category, selected);
    forall x | x in items && category(x) == selected
      ensures x in r
    {
      var i :| 0 <= i < |items| && items[i] == x;
      assert i in pos;
      var k :| 0 <= k < |pos| && pos[k] == i;
      assert r[k] == x;
    }
  }

  /** 'All' shows the list unchanged; any other selection shows exactly the
      matching items, in order. */
  lemma FilterSpec<T>(items: seq<T>, category: T -> string, selected: string)
    ensures selected == All ==> Filter(items, category, selected) == items
    ensures selected != All ==> Filter(items, category, selected) == Matching(items, category, selected)
    ensures selected != All ==>
      forall x :: x in Filter(items, category, selected) <==> x in items && category(x) == selected
  {
    MatchingMembers(items, category, selected);
  }

  /** No item of the selected category means an empty result, and one item
      of it means a non-empty result. */
  lemma MatchingEmptyIff<T>(items: seq<T>, category: T -> string, selected: string)
    ensures Matching(items, category, selected) == [] <==>
      forall i :: 0 <= i < |items| ==> category(items[i]) != selected
  {
    MatchingExact(items, category, selected);
    var pos := MatchPositions(items, category, selected);
    if exists i :: 0 <= i < |items| && category(items[i]) == selected {
      var i :| 0 <= i < |items| && category(items[i]) == selected;
      assert i in pos;
    }
  }
}
