/**
 * The live document as far as the builder sees it: elements in document
 * order, each with its class list, and `querySelectorAll`. Selector matching
 * itself is abstract: the document carries a matcher that says, for a
 * selector and the current state, whether an element matches.
 */
module Dom {
  import opened TokenList

  type ElementId = nat

  /** The document's state at one moment: document order and every element's class list. */
  datatype Snapshot = Snapshot(order: seq<ElementId>, classLists: map<ElementId, seq<Token>>)

  /** A selector engine: whether the element matches the selector in the given state. */
  type Matcher = (string, Snapshot, ElementId) -> bool

  /** The elements of `ids` that match `query` in state `s`, in the order of `ids`. */
  function Filter(matches: Matcher, query: string, s: Snapshot, ids: seq<ElementId>): (r: seq<ElementId>)
    ensures forall id :: id in r <==> id in ids && matches(query, s, id)
    ensures IsOrderedSet(ids) ==> IsOrderedSet(r)
  {
    if ids == [] then []
    else
      var rest := Filter(matches, query, s, ids[1..]);
      assert ids == [ids[0]] + ids[1..];
      PrependOrderedSet(ids[0], ids[1..]);
      if matches(query, s, ids[0]) then
        PrependOrderedSet(ids[0], rest);
        [ids[0]] + rest
      else rest
  }

  /** The position of an item in a sequence that holds it. */
  function IndexOf<T(==)>(s: seq<T>, x: T): (i: nat)
    requires x in s
    ensures i < |s| && s[i] == x && x !in s[..i]
  {
    if s[0] == x then 0 else 1 + IndexOf(s[1..], x)
  }

  /** Every two items of `r` stand in `r` in the order they have in `ids`. */
  ghost predicate InOrderOf(r: seq<ElementId>, ids: seq<ElementId>)
    requires forall x :: x in r ==> x in ids
  {
    forall i, j :: 0 <= i < j < |r| ==> IndexOf(ids, r[i]) < IndexOf(ids, r[j])
  }

  /** Behind a distinct head, an item sits one place later than in the tail. */
  lemma IndexOfTail(ids: seq<ElementId>, x: ElementId)
    requires ids != [] && x in ids[1..] && x != ids[0]
    ensures IndexOf(ids, x) == 1 + IndexOf(ids[1..], x)
  {
  }

  /** Filtering keeps the elements it returns in the order they have in `ids`. */
  lemma {:induction false} FilterKeepsOrder(matches: Matcher, query: string, s: Snapshot, ids: seq<ElementId>)
    requires IsOrderedSet(ids)
    ensures InOrderOf(Filter(matches, query, s, ids), ids)
    decreases |ids|
  {
    if ids != [] {
      var tail := ids[1..];
      var rest := Filter(matches, query, s, tail);
      var r := Filter(matches, query, s, ids);
      assert ids == [ids[0]] + tail;
      PrependOrderedSet(ids[0], tail);
      FilterKeepsOrder(matches, query, s, tail);
      var k := if matches(query, s, ids[0]) then 1 else 0;
      assert r[k..] == rest;
      forall i | k <= i < |r| ensures IndexOf(ids, r[i]) == 1 + IndexOf(tail, rest[i - k]) {
        assert r[i] == rest[i - k] && r[i] in tail;
        IndexOfTail(ids, r[i]);
      }
      forall i, j | 0 <= i < j < |r| ensures IndexOf(ids, r[i]) < IndexOf(ids, r[j]) {
        if i >= k {
          assert IndexOf(tail, rest[i - k]) < IndexOf(tail, rest[j - k]);
        }
      }
    }
  }

  class Document {
    /** Every element, in document order; inserting or removing nodes is not modelled. */
    const order: seq<ElementId>
    /** How this document's `querySelectorAll` decides a match. */
    const matches: Matcher
    /** Each element's `classList` token set. */
    var classLists: map<ElementId, seq<Token>>

    ghost predicate Valid()
      reads this
    {
      && IsOrderedSet(order)
      && forall id :: id in order ==> id in classLists && IsOrderedSet(classLists[id])
    }

    constructor (order: seq<ElementId>, classLists: map<ElementId, seq<Token>>, matches: Matcher)
      requires IsOrderedSet(order)
      requires forall id :: id in order ==> id in classLists && IsOrderedSet(classLists[id])
      ensures Valid()
      ensures this.order == order && this.classLists == classLists && this.matches == matches
    {
      this.order := order;
      this.classLists := classLists;
      this.matches := matches;
    }

    function State(): Snapshot
      reads this
    {
      Snapshot(order, classLists)
    }

    /**
     * `document.querySelectorAll(query)`: a static list of the elements that
     * match now, each once, in document order.
     */
    function QuerySelectorAll(query: string): (r: seq<ElementId>)
      reads this
      ensures forall id :: id in r <==> id in order && matches(query, State(), id)
      ensures IsOrderedSet(order) ==> IsOrderedSet(r)
      ensures IsOrderedSet(order) ==> InOrderOf(r, order)
    {
      var r := Filter(matches, query, State(), order);
      if IsOrderedSet(order) then
        FilterKeepsOrder(matches, query, State(), order);
        r
      else r
    }
  }
}
