/**
 * The `$` builder: a selector and the mutations recorded against it. The
 * builder is a value. Chaining builds a new builder and never touches the
 * document: no function here reads or modifies the heap.
 */
module Query {
  import opened Wrappers
  import opened TokenList
  import opened Mutations

  /**
   * `query` is handed to `querySelectorAll` verbatim and never parsed here;
   * `mutations` holds the recorded operations, oldest first.
   */
  datatype Builder = Builder(query: string, mutations: seq<Mutation>) {

    /** `addClass(className)`: records an add after everything recorded so far. */
    function AddClass(className: Token): (b: Builder)
      ensures b.query == query
      ensures |b.mutations| == |mutations| + 1 && b.mutations[..|mutations|] == mutations
      ensures b.mutations[|mutations|] == Mutation.AddClass(className)
    {
      Builder(query, mutations + [Mutation.AddClass(className)])
    }

    /** `removeClass(className)`. */
    function RemoveClass(className: Token): (b: Builder)
      ensures b.query == query
      ensures |b.mutations| == |mutations| + 1 && b.mutations[..|mutations|] == mutations
      ensures b.mutations[|mutations|] == Mutation.RemoveClass(className)
    {
      Builder(query, mutations + [Mutation.RemoveClass(className)])
    }

    /** `toggleClass(className)`. */
    function ToggleClass(className: Token): (b: Builder)
      ensures b.query == query
      ensures |b.mutations| == |mutations| + 1 && b.mutations[..|mutations|] == mutations
      ensures b.mutations[|mutations|] == Mutation.ToggleClass(className)
    {
      Builder(query, mutations + [Mutation.ToggleClass(className)])
    }

    /** `replaceClass(oldClassName, newClassName)`. */
    function ReplaceClass(oldClassName: Token, newClassName: Token): (b: Builder)
      ensures b.query == query
      ensures |b.mutations| == |mutations| + 1 && b.mutations[..|mutations|] == mutations
      ensures b.mutations[|mutations|] == Mutation.ReplaceClass(oldClassName, newClassName)
    {
      Builder(query, mutations + [Mutation.ReplaceClass(oldClassName, newClassName)])
    }
  }

  /** `new $(query)`: the selector as given and no mutations yet. */
  function New(query: string): (b: Builder)
    ensures b.query == query && b.mutations == []
  {
    Builder(query, [])
  }

  /** A fresh builder changes no element it is consumed on. */
  lemma NewReplaysNothing(query: string, classes: seq<Token>)
    ensures Replay(New(query).mutations, classes) == Outcome(classes, None)
  {
  }

  /**
   * On every element, a chained builder runs exactly what the builder it
   * was chained from runs, and then the one new operation.
   */
  lemma ChainingReplaysOldThenNew(b: Builder, className: Token, newClassName: Token, classes: seq<Token>)
    ensures Replay(b.AddClass(className).mutations, classes)
         == Continue(Replay(b.mutations, classes), Mutation.AddClass(className))
    ensures Replay(b.RemoveClass(className).mutations, classes)
         == Continue(Replay(b.mutations, classes), Mutation.RemoveClass(className))
    ensures Replay(b.ToggleClass(className).mutations, classes)
         == Continue(Replay(b.mutations, classes), Mutation.ToggleClass(className))
    ensures Replay(b.ReplaceClass(className, newClassName).mutations, classes)
         == Continue(Replay(b.mutations, classes), Mutation.ReplaceClass(className, newClassName))
  {
    ReplaySnoc(b.mutations, Mutation.AddClass(className), classes);
    ReplaySnoc(b.mutations, Mutation.RemoveClass(className), classes);
    ReplaySnoc(b.mutations, Mutation.ToggleClass(className), classes);
    ReplaySnoc(b.mutations, Mutation.ReplaceClass(className, newClassName), classes);
  }
}
