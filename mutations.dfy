/**
 * The operations a builder records. In the source each is a closure that
 * makes one DOMTokenList call on the element it is given; here each is a
 * tagged value carrying the class names the closure captured, and `Apply`
 * dispatches it to that call.
 */
module Mutations {
  import opened Wrappers
  import opened TokenList

  datatype Mutation =
    | AddClass(className: Token)
    | RemoveClass(className: Token)
    | ToggleClass(className: Token)
    | ReplaceClass(oldClassName: Token, newClassName: Token)

  /** True when running the mutation throws, whatever the element's class list is. */
  predicate Throws(m: Mutation) {
    match m
    case AddClass(c) => !IsValidToken(c)
    case RemoveClass(c) => !IsValidToken(c)
    case ToggleClass(c) => !IsValidToken(c)
    case ReplaceClass(o, n) => !IsValidToken(o) || !IsValidToken(n)
  }

  /** True when no mutation of the list throws. */
  predicate Throwless(ms: seq<Mutation>) {
    forall i :: 0 <= i < |ms| ==> !Throws(ms[i])
  }

  /** Runs one recorded mutation on an element's class list. */
  function Apply(m: Mutation, classes: seq<Token>): (r: Result<seq<Token>, DomError>)
    ensures r.Failure? <==> Throws(m)
    ensures r.Success? && IsOrderedSet(classes) ==> IsOrderedSet(r.value)
  {
    match m
    case AddClass(c) => Add(classes, c)
    case RemoveClass(c) => Remove(classes, c)
    case ToggleClass(c) => Toggle(classes, c)
    case ReplaceClass(o, n) => Replace(classes, o, n)
  }

  /**
   * What running a list of mutations on one element leaves behind: its class
   * list, and the exception that stopped the run, if one did. The class list
   * keeps the effect of every mutation that ran before the exception.
   */
  datatype Outcome = Outcome(classes: seq<Token>, thrown: Option<DomError>)

  /** Runs the mutations on one element in recording order, stopping at the first that throws. */
  function Replay(ms: seq<Mutation>, classes: seq<Token>): (o: Outcome)
    ensures o.thrown.None? <==> Throwless(ms)
    ensures IsOrderedSet(classes) ==> IsOrderedSet(o.classes)
    decreases |ms|
  {
    if ms == [] then Outcome(classes, None)
    else match Apply(ms[0], classes)
      case Failure(e) => Outcome(classes, Some(e))
      case Success(next) =>
        var o := Replay(ms[1..], next);
        assert Throwless(ms) <==> !Throws(ms[0]) && Throwless(ms[1..]) by {
          if !Throws(ms[0]) && Throwless(ms[1..]) {
            forall i | 0 <= i < |ms| ensures !Throws(ms[i]) {
              if i > 0 { assert ms[i] == ms[1..][i - 1]; }
            }
          }
        }
        o
  }

  /** Runs one more mutation after an outcome, unless that outcome already threw. */
  function Continue(o: Outcome, m: Mutation): Outcome {
    if o.thrown.Some? then o
    else match Apply(m, o.classes)
      case Failure(e) => Outcome(o.classes, Some(e))
      case Success(next) => Outcome(next, None)
  }

  /** Running a list followed by one more mutation is running the list, then that mutation. */
  lemma {:induction false} ReplaySnoc(ms: seq<Mutation>, m: Mutation, classes: seq<Token>)
    ensures Replay(ms + [m], classes) == Continue(Replay(ms, classes), m)
    decreases |ms|
  {
    if ms == [] {
      assert [m][1..] == [];
    } else {
      assert (ms + [m])[0] == ms[0] && (ms + [m])[1..] == ms[1..] + [m];
      match Apply(ms[0], classes)
      case Failure(e) =>
      case Success(next) => ReplaySnoc(ms[1..], m, next);
    }
  }

  /** Whether and what a replay throws depends only on the mutations, never on the class list. */
  lemma {:induction false} ReplayThrowsAlike(ms: seq<Mutation>, c1: seq<Token>, c2: seq<Token>)
    ensures Replay(ms, c1).thrown == Replay(ms, c2).thrown
    decreases |ms|
  {
    if ms != [] {
      match Apply(ms[0], c1)
      case Failure(e) =>
        assert Apply(ms[0], c2).Failure?;
        assert Apply(ms[0], c1) == Apply(ms[0], c2) by {
          ApplyErrorAlike(ms[0], c1, c2);
        }
      case Success(n1) =>
        var n2 := Apply(ms[0], c2).value;
        ReplayThrowsAlike(ms[1..], n1, n2);
    }
  }

  /** The exception a mutation throws does not depend on the class list it runs on. */
  lemma ApplyErrorAlike(m: Mutation, c1: seq<Token>, c2: seq<Token>)
    requires Throws(m)
    ensures Apply(m, c1) == Apply(m, c2)
  {
  }
}
