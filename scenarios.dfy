/**
 * The two behaviours the repository's test file exercises, replayed against
 * a document with two `div` elements and no classes, and a matcher under
 * which the selector "div" matches every element.
 */
module Scenarios {
  import opened Wrappers
  import opened TokenList
  import opened Mutations
  import opened Query
  import opened Dom
  import opened Iteration

  /** The selector engine of the test document: "div" matches every element. */
  function MatchesDiv(query: string, s: Snapshot, id: ElementId): bool {
    query == "div"
  }

  /** In any state, "div" selects both elements, first to last. */
  lemma SelectsBothDivs(s: Snapshot)
    ensures Filter(MatchesDiv, "div", s, [0, 1]) == [0, 1]
  {
    assert MatchesDiv("div", s, 0) && MatchesDiv("div", s, 1);
    assert [0, 1][1..] == [1] && [1][1..] == [];
    assert Filter(MatchesDiv, "div", s, []) == [];
    assert Filter(MatchesDiv, "div", s, [1]) == [1] + Filter(MatchesDiv, "div", s, []);
  }

  /** Adding "foo" to an element without classes gives it exactly that class. */
  lemma AddFooToBare()
    ensures Replay([Mutation.AddClass("foo")], []) == Outcome(["foo"], None)
    ensures Throwless([Mutation.AddClass("foo")])
  {
    assert IsValidToken("foo") by {
      assert forall i :: 0 <= i < 3 ==> "foo"[i] == 'f' || "foo"[i] == 'o';
    }
    assert [Mutation.AddClass("foo")][1..] == [];
  }

  /**
   * `const [div] = new $('div').addClass('foo')` mutates the first div only;
   * a later `Array.from(new $('div'))` then sees `['foo']` and `[]`.
   */
  method LazyAddClass() returns (destructured: Result<seq<ElementId>, DomError>,
                                 beforePull: seq<seq<Token>>,
                                 afterDestructuring: seq<seq<Token>>,
                                 listed: Result<seq<ElementId>, DomError>,
                                 afterArrayFrom: seq<seq<Token>>)
    ensures destructured == Success([0])
    ensures beforePull == [[], []]
    ensures afterDestructuring == [["foo"], []]
    ensures listed == Success([0, 1])
    ensures afterArrayFrom == [["foo"], []]
  {
    var bare: map<ElementId, seq<Token>> := map[0 := [], 1 := []];
    var doc := new Document([0, 1], bare, MatchesDiv);
    SelectsBothDivs(doc.State());

    var chained := New("div").AddClass("foo");
    assert chained.mutations == [Mutation.AddClass("foo")];
    var first := new Cursor(chained, doc);
    beforePull := [doc.classLists[0], doc.classLists[1]];

    AddFooToBare();
    destructured := first.Take(1);
    assert [0, 1][0..Min(0 + 1, 2)] == [0];
    assert ApplyToAll(chained.mutations, [0], bare) == bare[0 := ["foo"]];
    afterDestructuring := [doc.classLists[0], doc.classLists[1]];

    var seen := doc.classLists;
    assert seen == map[0 := ["foo"], 1 := []];
    SelectsBothDivs(doc.State());
    var again := new Cursor(New("div"), doc);
    listed := again.ToList();
    assert [0, 1][0..] == [0, 1];
    NoMutationsChangeNothing([0, 1], seen);
    afterArrayFrom := [doc.classLists[0], doc.classLists[1]];
  }
}
