/**
 * Consuming a builder: the generator `[Symbol.iterator]` as a cursor object.
 * Nothing runs when the cursor is made. The first pull runs the query once;
 * every pull then runs all recorded mutations, in recording order, on the
 * next matched element, in place, and hands that element out.
 */
module Iteration {
  import opened Wrappers
  import opened TokenList
  import opened Mutations
  import opened Query
  import opened Dom

  /** The class lists after each of `ids`, in turn, has had `ms` run on it without a throw. */
  function ApplyToAll(ms: seq<Mutation>, ids: seq<ElementId>, lists: map<ElementId, seq<Token>>): (r: map<ElementId, seq<Token>>)
    requires forall id :: id in ids ==> id in lists
    ensures r.Keys == lists.Keys
    decreases |ids|
  {
    if ids == [] then lists
    else
      var before := ApplyToAll(ms, ids[..|ids| - 1], lists);
      var last := ids[|ids| - 1];
      before[last := Replay(ms, before[last]).classes]
  }

  /** Handling one more element is one more replay, on that element's current class list. */
  lemma ApplyToAllSnoc(ms: seq<Mutation>, ids: seq<ElementId>, id: ElementId, lists: map<ElementId, seq<Token>>)
    requires id in lists && forall x :: x in ids ==> x in lists
    ensures var before := ApplyToAll(ms, ids, lists);
      ApplyToAll(ms, ids + [id], lists) == before[id := Replay(ms, before[id]).classes]
  {
    assert (ids + [id])[..|ids|] == ids;
  }

  /**
   * Over distinct elements, every listed element ends with the mutations run
   * once on its own class list, and every other element is untouched.
   */
  lemma {:induction false} ApplyToAllAt(ms: seq<Mutation>, ids: seq<ElementId>, lists: map<ElementId, seq<Token>>)
    requires IsOrderedSet(ids) && forall id :: id in ids ==> id in lists
    ensures forall id :: id in lists ==>
      ApplyToAll(ms, ids, lists)[id] == if id in ids then Replay(ms, lists[id]).classes else lists[id]
    decreases |ids|
  {
    if ids != [] {
      var init := ids[..|ids| - 1];
      var last := ids[|ids| - 1];
      assert ids == init + [last];
      assert IsOrderedSet(init);
      assert last !in init;
      ApplyToAllAt(ms, init, lists);
    }
  }

  /**
   * Laziness: once the first k matched elements have been pulled, exactly
   * those carry the mutations and all later matches are as they were.
   */
  lemma AfterPulls(ms: seq<Mutation>, ids: seq<ElementId>, lists: map<ElementId, seq<Token>>, k: nat)
    requires IsOrderedSet(ids) && k <= |ids| && forall id :: id in ids ==> id in lists
    ensures forall i :: 0 <= i < k ==> ApplyToAll(ms, ids[..k], lists)[ids[i]] == Replay(ms, lists[ids[i]]).classes
    ensures forall i :: k <= i < |ids| ==> ApplyToAll(ms, ids[..k], lists)[ids[i]] == lists[ids[i]]
  {
    ApplyToAllAt(ms, ids[..k], lists);
    forall i | k <= i < |ids| ensures ids[i] !in ids[..k] {
    }
    forall i | 0 <= i < k ensures ids[i] in ids[..k] {
      assert ids[..k][i] == ids[i];
    }
  }

  /**
   * Consuming a builder that records one add or one remove a second time,
   * over the same matches, changes nothing more. This does not extend to
   * every list of adds, removes and replaces: `RestartChangesMore` gives a
   * two-mutation builder whose second consumption changes the element again.
   */
  lemma RestartIsIdempotent(m: Mutation, ids: seq<ElementId>, lists: map<ElementId, seq<Token>>)
    requires m.AddClass? || m.RemoveClass?
    requires IsOrderedSet(ids) && forall id :: id in ids ==> id in lists
    ensures var once := ApplyToAll([m], ids, lists);
      ApplyToAll([m], ids, once) == once
  {
    var once := ApplyToAll([m], ids, lists);
    var twice := ApplyToAll([m], ids, once);
    ApplyToAllAt([m], ids, lists);
    ApplyToAllAt([m], ids, once);
    forall id | id in once ensures twice[id] == once[id] {
      if id in ids {
        ReplayOnceMore(m, lists[id]);
      }
    }
  }

  /**
   * A remove followed by a replace that re-introduces the removed class: on an
   * element with class "b", the first consumption leaves "a" and the second
   * removes it.
   */
  lemma RestartChangesMore()
    ensures var ms := [Mutation.RemoveClass("a"), Mutation.ReplaceClass("b", "a")];
      && Replay(ms, ["b"]) == Outcome(["a"], None)
      && Replay(ms, ["a"]) == Outcome([], None)
  {
    assert IsValidToken("a") && IsValidToken("b");
    var ms := [Mutation.RemoveClass("a"), Mutation.ReplaceClass("b", "a")];
    assert ms[1..] == [Mutation.ReplaceClass("b", "a")] && ms[1..][1..] == [];
    assert Without(["a"], "a") == [] by {
      assert ["a"][1..] == [];
    }
    assert ReplaceIn(["b"], "b", "a") == ["a"] by {
      assert ["b"][1..] == [];
    }
  }

  /** One add or one remove, run again on its own result, changes nothing. */
  lemma ReplayOnceMore(m: Mutation, classes: seq<Token>)
    requires m.AddClass? || m.RemoveClass?
    ensures Replay([m], Replay([m], classes).classes).classes == Replay([m], classes).classes
  {
    assert [m][1..] == [];
    if Apply(m, classes).Success? {
      var next := Apply(m, classes).value;
      assert Apply(m, next) == Success(next);
    }
  }

  /** With nothing recorded, consuming a builder leaves every class list as it was. */
  lemma {:induction false} NoMutationsChangeNothing(ids: seq<ElementId>, lists: map<ElementId, seq<Token>>)
    requires forall id :: id in ids ==> id in lists
    ensures ApplyToAll([], ids, lists) == lists
    decreases |ids|
  {
    if ids != [] {
      NoMutationsChangeNothing(ids[..|ids| - 1], lists);
    }
  }

  /** What a consumption pass hands back, and the class lists it leaves behind. */
  datatype Pass = Pass(result: Result<seq<ElementId>, DomError>, classLists: map<ElementId, seq<Token>>)

  /**
   * A pass that pulls the elements `ids` in turn. Whether a replay throws
   * does not depend on the element, so either every pulled element gets the
   * mutations and all are handed back, or the first one throws part-way and
   * the exception is handed back.
   */
  function Consume(ms: seq<Mutation>, ids: seq<ElementId>, lists: map<ElementId, seq<Token>>): (p: Pass)
    requires forall id :: id in ids ==> id in lists
    ensures p.classLists.Keys == lists.Keys
    ensures p.result.Success? <==> ids == [] || Throwless(ms)
  {
    if ids == [] || Throwless(ms) then Pass(Success(ids), ApplyToAll(ms, ids, lists))
    else
      var o := Replay(ms, lists[ids[0]]);
      Pass(Failure(o.thrown.value), lists[ids[0] := o.classes])
  }

  /**
   * Fail-fast: a pass over distinct elements that throws has touched only
   * the first of them; one that does not has run the mutations once on
   * each and touched nothing else.
   */
  lemma ConsumeAt(ms: seq<Mutation>, ids: seq<ElementId>, lists: map<ElementId, seq<Token>>)
    requires IsOrderedSet(ids) && forall id :: id in ids ==> id in lists
    ensures var p := Consume(ms, ids, lists);
      forall id :: id in lists ==>
        p.classLists[id] == (if id !in ids || (p.result.Failure? && id != ids[0]) then lists[id]
                             else Replay(ms, lists[id]).classes)
  {
    ApplyToAllAt(ms, ids, lists);
  }

  function Min(a: int, b: int): int {
    if a <= b then a else b
  }

  /** The inner loop of the generator: every recorded mutation, in order, on one element, in place. */
  method MutateElement(doc: Document, ms: seq<Mutation>, id: ElementId) returns (thrown: Option<DomError>)
    requires doc.Valid() && id in doc.order
    modifies doc`classLists
    ensures doc.Valid()
    ensures var o := Replay(ms, old(doc.classLists)[id]);
      doc.classLists == old(doc.classLists)[id := o.classes] && thrown == o.thrown
  {
    ghost var lists := doc.classLists;
    ghost var original := lists[id];
    var k := 0;
    while k < |ms|
      invariant 0 <= k <= |ms|
      invariant doc.Valid()
      invariant Replay(ms[..k], original) == Outcome(doc.classLists[id], None)
      invariant doc.classLists == lists[id := doc.classLists[id]]
    {
      var classes := doc.classLists[id];
      assert ms[..k + 1] == ms[..k] + [ms[k]];
      ReplaySnoc(ms[..k], ms[k], original);
      match Apply(ms[k], classes)
      case Failure(e) =>
        ReplayRest(ms, k + 1, original);
        return Some(e);
      case Success(next) =>
        doc.classLists := doc.classLists[id := next];
      k := k + 1;
    }
    assert ms[..k] == ms;
    return None;
  }

  /**
   * Successive pulls of a running generator over the distinct matched
   * elements `ids`: the mutations run on each in turn until one throws.
   */
  method MutateEach(doc: Document, ms: seq<Mutation>, ids: seq<ElementId>) returns (r: Result<seq<ElementId>, DomError>)
    requires doc.Valid() && forall id :: id in ids ==> id in doc.order
    modifies doc`classLists
    ensures doc.Valid()
    ensures Pass(r, doc.classLists) == Consume(ms, ids, old(doc.classLists))
  {
    ghost var lists := doc.classLists;
    ghost var pulled: seq<ElementId> := [];
    var i := 0;
    while i < |ids|
      invariant doc.Valid() && i <= |ids| && pulled == ids[..i]
      invariant i > 0 ==> Throwless(ms)
      invariant doc.classLists == ApplyToAll(ms, pulled, lists)
    {
      var id := ids[i];
      ApplyToAllSnoc(ms, pulled, id, lists);
      var thrown := MutateElement(doc, ms, id);
      if thrown.Some? {
        // Only the first pull of a pass can throw: by `Replay`'s postcondition a replay
        // throws exactly when the recorded mutations are not all valid, whatever the element.
        assert i == 0;
        return Failure(thrown.value);
      }
      pulled := pulled + [id];
      i := i + 1;
    }
    assert pulled == ids;
    return Success(ids);
  }

  /** What a pull hands back: the next element, the end of the matches, or an exception. */
  datatype Step = Yielded(element: ElementId) | Done | Threw(error: DomError)

  /** A running `[Symbol.iterator]()` generator over one builder and one document. */
  class Cursor {
    const doc: Document
    const query: string
    const mutations: seq<Mutation>
    /** Whether the generator body has begun, that is, whether the query has run. */
    var started: bool
    /** The static list `querySelectorAll` returned at the first pull. */
    var matched: seq<ElementId>
    /** How many matched elements have been handed out. */
    var pos: nat
    /** Whether the generator has completed, by running out, by a throw or by being closed. */
    var finished: bool

    ghost predicate Valid()
      reads this, doc
    {
      && doc.Valid()
      && pos <= |matched|
      && IsOrderedSet(matched)
      && (forall id :: id in matched ==> id in doc.order)
      && (!started ==> matched == [] && pos == 0)
    }

    /** `b[Symbol.iterator]()`: a suspended generator; neither the query nor any mutation runs yet. */
    constructor (b: Builder, doc: Document)
      requires doc.Valid()
      ensures Valid()
      ensures this.doc == doc && query == b.query && mutations == b.mutations
      ensures !started && !finished
    {
      this.doc := doc;
      query := b.query;
      mutations := b.mutations;
      started := false;
      matched := [];
      pos := 0;
      finished := false;
    }

    /** Enters the generator body: runs the query against the document as it is now. */
    method Start()
      requires Valid()
      modifies this`started, this`matched
      ensures Valid() && started
      ensures matched == if old(started) then old(matched) else old(doc.QuerySelectorAll(query))
      ensures pos == old(pos) && finished == old(finished) && doc.classLists == old(doc.classLists)
    {
      if !started {
        matched := doc.QuerySelectorAll(query);
        started := true;
      }
    }

    /**
     * `next()`: runs every recorded mutation, in order, on the next matched
     * element and yields it. A throwing mutation ends the generator and
     * leaves the element with the mutations that ran before it. A completed
     * generator yields nothing and runs nothing.
     */
    method Next() returns (step: Step)
      requires Valid()
      modifies this`started, this`matched, this`pos, this`finished, doc`classLists
      ensures Valid()
      ensures old(finished) ==> step == Done && unchanged(this) && doc.classLists == old(doc.classLists)
      ensures !old(finished) ==> started
      ensures !old(finished) ==> matched == if old(started) then old(matched) else old(doc.QuerySelectorAll(query))
      ensures !old(finished) && old(pos) == |matched| ==>
        step == Done && finished && pos == old(pos) && doc.classLists == old(doc.classLists)
      ensures !old(finished) && old(pos) < |matched| ==>
        var id := matched[old(pos)];
        var o := Replay(mutations, old(doc.classLists)[id]);
        && doc.classLists == old(doc.classLists)[id := o.classes]
        && (o.thrown.None? ==> step == Yielded(id) && pos == old(pos) + 1 && !finished)
        && (o.thrown.Some? ==> step == Threw(o.thrown.value) && pos == old(pos) && finished)
    {
      if finished {
        return Done;
      }
      Start();
      if pos == |matched| {
        finished := true;
        return Done;
      }
      var id := matched[pos];
      var thrown := MutateElement(doc, mutations, id);
      if thrown.Some? {
        finished := true;
        return Threw(thrown.value);
      }
      pos := pos + 1;
      return Yielded(id);
    }

    /**
     * Pulls until `n` elements have been yielded, the generator is done or a
     * mutation throws: a pass over the next `n` elements of the static match
     * list, which the first pull of the generator computes.
     */
    method PullUpTo(n: nat) returns (r: Result<seq<ElementId>, DomError>)
      requires Valid() && !finished
      modifies this`started, this`matched, this`pos, this`finished, doc`classLists
      ensures Valid() && started
      ensures matched == if old(started) then old(matched) else old(doc.QuerySelectorAll(query))
      ensures Pass(r, doc.classLists) == Consume(mutations, matched[old(pos)..Min(old(pos) + n, |matched|)], old(doc.classLists))
      ensures pos == if r.Success? then Min(old(pos) + n, |matched|) else old(pos)
      ensures finished <==> r.Failure? || old(pos) + n > |matched|
    {
      Start();
      r := PullRunning(n);
    }

    /** `PullUpTo` once the query has run: each pull has the effect `Next` states for a running generator. */
    method PullRunning(n: nat) returns (r: Result<seq<ElementId>, DomError>)
      requires Valid() && started && !finished
      modifies this`pos, this`finished, doc`classLists
      ensures Valid()
      ensures Pass(r, doc.classLists) == Consume(mutations, matched[old(pos)..Min(old(pos) + n, |matched|)], old(doc.classLists))
      ensures pos == if r.Success? then Min(old(pos) + n, |matched|) else old(pos)
      ensures finished <==> r.Failure? || old(pos) + n > |matched|
    {
      var ids := matched[pos..Min(pos + n, |matched|)];
      r := MutateEach(doc, mutations, ids);
      if r.Failure? || pos + n > |matched| {
        finished := true;
      }
      if r.Success? {
        pos := pos + |ids|;
      }
    }

    /**
     * Array destructuring `const [e1, ..., en] = cursor`: at most `n` pulls,
     * then the generator is closed, so later matches are never mutated.
     */
    method Take(n: nat) returns (r: Result<seq<ElementId>, DomError>)
      requires Valid()
      modifies this`started, this`matched, this`pos, this`finished, doc`classLists
      ensures Valid() && finished
      ensures old(finished) || n == 0 ==> r == Success([]) && doc.classLists == old(doc.classLists)
      ensures !old(finished) && n > 0 ==>
        && started
        && matched == (if old(started) then old(matched) else old(doc.QuerySelectorAll(query)))
        && Pass(r, doc.classLists) == Consume(mutations, matched[old(pos)..Min(old(pos) + n, |matched|)], old(doc.classLists))
    {
      if finished || n == 0 {
        Return();
        return Success([]);
      }
      r := PullUpTo(n);
      Return();
    }

    /**
     * `Array.from(cursor)`: pulls until the generator is done, a pass over
     * every remaining match.
     */
    method ToList() returns (r: Result<seq<ElementId>, DomError>)
      requires Valid()
      modifies this`started, this`matched, this`pos, this`finished, doc`classLists
      ensures Valid() && finished
      ensures old(finished) ==> r == Success([]) && doc.classLists == old(doc.classLists)
      ensures !old(finished) ==>
        && started
        && matched == (if old(started) then old(matched) else old(doc.QuerySelectorAll(query)))
        && Pass(r, doc.classLists) == Consume(mutations, matched[old(pos)..], old(doc.classLists))
    {
      if finished {
        return Success([]);
      }
      Start();
      // One pull more than there are matches left: the last one finds the generator done.
      r := PullUpTo(|matched| - pos + 1);
      assert matched[old(pos)..Min(old(pos) + |matched| - old(pos) + 1, |matched|)] == matched[old(pos)..];
    }

    /** `return()`: closes the generator; later pulls yield nothing. */
    method Return()
      requires Valid()
      modifies this`finished
      ensures Valid() && finished
      ensures started == old(started) && matched == old(matched) && pos == old(pos)
      ensures doc.classLists == old(doc.classLists)
    {
      finished := true;
    }
  }

  /** Once a prefix of the mutations has thrown, the whole list throws the same way. */
  lemma {:induction false} ReplayRest(ms: seq<Mutation>, k: nat, classes: seq<Token>)
    requires k <= |ms| && Replay(ms[..k], classes).thrown.Some?
    ensures Replay(ms, classes) == Replay(ms[..k], classes)
    decreases |ms| - k
  {
    if k < |ms| {
      assert ms[..k + 1] == ms[..k] + [ms[k]];
      ReplaySnoc(ms[..k], ms[k], classes);
      ReplayRest(ms, k + 1, classes);
    } else {
      assert ms[..k] == ms;
    }
  }
}
