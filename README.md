# Deferred query-and-mutate builder (`$`), modelled in Dafny

The repository is one TypeScript class, `$`. A `$` holds a selector string
(`query`) and a read-only list of recorded class mutations. `addClass`,
`removeClass`, `toggleClass` and `replaceClass` each return a new `$` with the
same selector and one more mutation at the end; nothing touches the document
while a chain is built. Iterating a `$` runs a generator: on its first pull it
runs `document.querySelectorAll(query)`, and each pull then runs every
recorded mutation, in recording order, on the next matched element and yields
that element. An element that is never pulled is never mutated.

The model:

- `wrappers.dfy` (`Wrappers`): `Option` and `Result`; a thrown DOM exception is a `Failure`.
- `token_list.dfy` (`TokenList`): an element's class list as an ordered set of
  tokens (`seq<string>` with no repeats) and the DOMTokenList operations
  `add`, `remove`, `toggle` and `replace` as defined in section 7.1 of the
  WHATWG DOM Living Standard, including the token validation steps
  (`SyntaxError` for an empty token, `InvalidCharacterError` for one holding
  ASCII whitespace) and the ordered-set append, remove and replace of the
  WHATWG Infra standard.
- `mutations.dfy` (`Mutations`): the recorded closures as a tagged datatype
  `AddClass | RemoveClass | ToggleClass | ReplaceClass`, `Apply` (one closure
  call), and `Replay`, the inner `for` loop of the generator as a
  specification: the mutations in order, stopping at the first that throws
  and keeping what ran before it.
- `query.dfy` (`Query`): the builder as a datatype value with the four chaining
  functions and `New` (the constructor). They are functions with no `reads`
  or `modifies` clause, so building a chain cannot read or change the document.
- `document.dfy` (`Dom`): the document as a class with a fixed document order,
  a mutable map from element ids to class lists, and `QuerySelectorAll`, which
  filters the document order through an abstract matcher (a function of the
  selector, the current state and the element). It returns each element once
  and in document order.
- `iteration.dfy` (`Iteration`): the generator as a class `Cursor` with a
  cursor field. `Next` is one pull. `Take` is array destructuring: at most n
  pulls, then `return()`. `ToList` is `Array.from` and pulls until done.
  `Next` is proved against `Replay`; `Take` and `ToList` are proved against
  `Consume`, the result and document state of a pass over a slice of the
  static match list, built from `Replay` and `ApplyToAll`. The two loops of
  the generator are the methods `MutateElement` (the inner loop, in place)
  and `MutateEach` (successive pulls).
- `scenarios.dfy` (`Scenarios`): the repository's test, checked against the model.

## Model

| member | source | states |
|---|---|---|
| Query.New | src/index.ts:2-5 | a new builder keeps the selector verbatim and has no mutations |
| Query.NewReplaysNothing | src/index.ts:4 | the default empty mutation list leaves any element's class list unchanged and throws nothing |
| Query.Builder.AddClass | src/index.ts:7-14 | same query; the old mutations as a prefix, then exactly one add of the given class |
| Query.Builder.RemoveClass | src/index.ts:16-23 | same query; the old mutations as a prefix, then exactly one remove of the given class |
| Query.Builder.ToggleClass | src/index.ts:25-32 | same query; the old mutations as a prefix, then exactly one toggle of the given class |
| Query.Builder.ReplaceClass | src/index.ts:34-41 | same query; the old mutations as a prefix, then exactly one replace with the two given names |
| Query.ChainingReplaysOldThenNew | src/index.ts:7-41 | on every element, a chained builder runs exactly what its receiver runs and then the new operation (unless an earlier one threw) |
| TokenList.Add | src/index.ts:11 | throws exactly for an invalid token (SyntaxError if empty); otherwise the class is present once, other classes unchanged, old order kept as a prefix, no change if already present |
| TokenList.Remove | src/index.ts:20 | throws exactly for an invalid token; otherwise the class is absent, every other class kept, no change if it was absent |
| TokenList.Toggle | src/index.ts:29 | throws exactly for an invalid token; otherwise the class's presence flips and every other class is kept |
| TokenList.Replace | src/index.ts:38 | empty-token check before whitespace check on both names; old class absent gives the list unchanged; else the new class is present, the old one gone, all others kept, still an ordered set |
| TokenList.Validate | src/index.ts:11 | a token is refused exactly when it is empty (SyntaxError) or holds ASCII whitespace (InvalidCharacterError) |
| TokenList.Append | src/index.ts:11 | ordered-set append: the token is present afterwards, the old list is a prefix, nothing changes if it was present, no repeats introduced |
| TokenList.Without | src/index.ts:20 | ordered-set removal: exactly the other tokens remain, no repeats introduced |
| TokenList.ReplaceIn | src/index.ts:38 | ordered-set replace: the replacement present, the item gone, other tokens kept, no repeats introduced |
| TokenList.WithoutAt | src/index.ts:20 | removing a class closes its gap and keeps every other class in its order |
| TokenList.WithoutAppended | src/index.ts:20 | removing the token that was appended last gives the list back exactly |
| TokenList.ReplaceAt | src/index.ts:38 | replacing a present class by an absent one puts the new class at the old one's position |
| TokenList.ReplaceRoundTrip | src/index.ts:38 | replacing a by an absent b and then b by a restores the class list exactly |
| TokenList.AddThenRemove | src/index.ts:11 | adding an absent class and removing it again restores the class list exactly |
| TokenList.ToggleTwiceAbsent | src/index.ts:29 | toggling an absent class twice restores the class list exactly |
| TokenList.ToggleTwicePresent | src/index.ts:29 | toggling a present class twice keeps the same classes, with that class moved to the end |
| Mutations.Apply | src/index.ts:7-41 | a recorded mutation throws exactly when one of its captured class names is invalid, and keeps a class list an ordered set |
| Mutations.Replay | src/index.ts:45-47 | the mutations run in order on one element; the run throws exactly when some recorded mutation is invalid; the class list stays an ordered set |
| Mutations.ReplaySnoc | src/index.ts:45-47 | running a list and one more mutation is running the list, then that mutation, unless the list threw |
| Mutations.ReplayThrowsAlike | src/index.ts:45-47 | whether and what a replay throws depends only on the recorded mutations, not on the element |
| Mutations.ApplyErrorAlike | src/index.ts:7-41 | a throwing mutation throws the same exception whatever the class list it runs on |
| Dom.Filter | src/index.ts:44 | the selected elements are exactly the listed ones that match, with no repeats |
| Dom.FilterKeepsOrder | src/index.ts:44 | the selected elements keep their relative document order |
| Dom.Document.QuerySelectorAll | src/index.ts:44 | the matches in the current state, each once, in document order |
| Iteration.ApplyToAll | src/index.ts:44-49 | processing matched elements changes no element set, only class lists |
| Iteration.ApplyToAllSnoc | src/index.ts:44-48 | processing one more element is one more replay, on that element's class list as it stands |
| Iteration.ApplyToAllAt | src/index.ts:44-49 | after processing distinct matches, each has the mutations run once on its own class list and every other element is untouched |
| Iteration.AfterPulls | src/index.ts:43-49 | laziness: after k pulls exactly the first k matches are mutated and every later match is unchanged |
| Iteration.NoMutationsChangeNothing | src/index.ts:45 | consuming a builder with no mutations leaves every class list as it was |
| Iteration.RestartIsIdempotent | src/index.ts:44-48 | consuming a single-add or single-remove builder again over the same matches changes nothing more |
| Iteration.RestartChangesMore | src/index.ts:16-41 | restarting is not idempotent for every builder: remove "a" then replace "b" by "a" turns `["b"]` into `["a"]`, and a second run turns that into `[]` |
| Iteration.ReplayOnceMore | src/index.ts:7-23 | one add or one remove run again on its own result changes nothing |
| Iteration.Consume | src/index.ts:43-49 | a pass succeeds exactly when it pulls nothing or every recorded mutation is valid, and never adds or drops an element |
| Iteration.ConsumeAt | src/index.ts:43-49 | fail-fast: a throwing pass has mutated only its first element; a succeeding one has run the mutations once on each pulled element and touched nothing else |
| Iteration.ReplayRest | src/index.ts:45-47 | once a prefix of the mutations throws, the later ones do not run |
| Iteration.MutateElement | src/index.ts:45-47 | run in place, one mutation at a time: the element's class list becomes its replay and no other element changes; the first throw is reported |
| Iteration.MutateEach | src/index.ts:44-48 | successive pulls over the given matches leave the document exactly as the pass `Consume` describes, and hand back the same result |
| Iteration.Cursor.constructor | src/index.ts:43 | creating the iterator runs neither the query nor any mutation |
| Iteration.Cursor.Start | src/index.ts:44 | entering the generator body runs the query once, against the document as it is then |
| Iteration.Cursor.Next | src/index.ts:43-49 | one pull: the first pull runs the query; the next match gets all mutations in order and is yielded; nothing else changes; a throw ends the generator; a finished generator yields nothing and changes nothing |
| Iteration.Cursor.PullUpTo | src/index.ts:43-49 | n pulls run the query if it has not run, then yield the next n matches in order, each mutated, the rest untouched; a throw can only come at the first of them; the new position is past the yielded matches, and the generator is finished exactly when a pull threw or found the matches exhausted |
| Iteration.Cursor.PullRunning | src/index.ts:44-49 | on a running generator, n pulls are the pass over the next n matches of the static list; the position moves past the yielded matches; the generator is finished exactly when a pull threw or ran out of matches |
| Iteration.Cursor.Take | src/spec.ts:19 | destructuring mutates exactly the first n matches and closes the generator |
| Iteration.Cursor.ToList | src/spec.ts:24 | draining yields every remaining match once, in document order, each mutated; the generator ends finished |
| Iteration.Cursor.Return | src/index.ts:43-49 | closing the generator marks it finished and changes nothing else, in the cursor or the document |
| Scenarios.LazyAddClass | src/spec.ts:13-28 | building the chain mutates nothing; taking the first div adds `foo` to it alone; a later full iteration sees `['foo']` and `[]` |

## Left out

- Invalid selectors: `document.querySelectorAll` (src/index.ts:44) throws a `SyntaxError` for a selector it cannot parse, so the first pull of such a generator throws, mutates nothing and ends it. The matcher here is total, so `Start`, `Next`, `Take` and `ToList` never throw when the query runs.
- Which document is queried: src/index.ts:44 reads the global `document` when the generator body starts, at the first pull. A `Cursor` is given its `Document` when it is created, so the model does not capture the global being rebound between creating an iterator and its first pull.
- The real DOM and its selector engine: selector matching is an abstract function of the selector, the document state and the element.
- Inserting, removing or moving nodes: the document order is fixed, so a matched element never leaves the document during a pass.
- Element content such as `textContent`: the builder never changes it.
- The class attribute: the "update steps" that write the token set back to the `class` attribute are not modelled. The class list is the token set itself.
- DOMTokenList return values (`toggle` and `replace` return booleans) and `toggle`'s `force` argument: the source ignores the results and never passes `force`. Multi-token `add`/`remove` calls are not modelled: the source passes one token.
- `query` is a public field in the source and could be reassigned by outside code; nothing in the class writes it, and the model treats it as fixed.
- The generator's `throw()` method: it is not modelled. `return()` is modelled as `Cursor.Return`.
- Exceptions are `Failure` results: a throw ends the current pass and is handed back to the caller.
- Concurrent changes to the document between pulls: `Next` states its effect relative to whatever state it starts from, but no lemma composes pulls with outside writes.
- `Take` and `ToList` make their pulls through `MutateEach` rather than by calling `Next` repeatedly. Each of their pulls has the per-element effect `Next` states (the mutations replayed on the next match, a throw ending the generator), but no lemma derives a pass from a sequence of `Next` calls.
