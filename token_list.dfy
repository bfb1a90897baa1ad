/**
 * An element's class list: an ordered set of tokens with the four operations
 * of the DOMTokenList interface (section 7.1 of the WHATWG DOM Living Standard)
 * that the builder records: add, remove, toggle and replace, each called with
 * a single token and without toggle's optional `force` argument.
 */
module TokenList {
  import opened Wrappers

  type Token = string

  /** The two exceptions the DOMTokenList validation steps can throw. */
  datatype DomError = SyntaxError | InvalidCharacterError

  /** An ordered set in the sense of the WHATWG Infra standard: no item occurs twice. */
  predicate IsOrderedSet<T(==)>(s: seq<T>) {
    forall i, j :: 0 <= i < j < |s| ==> s[i] != s[j]
  }

  /** ASCII whitespace: TAB, LF, FF, CR and SPACE. */
  predicate IsAsciiWhitespace(c: char) {
    c == '\t' || c == '\n' || c == '\U{000C}' || c == '\r' || c == ' '
  }

  /** A token the validation steps let through: non-empty and free of ASCII whitespace. */
  predicate IsValidToken(t: Token) {
    t != [] && forall i :: 0 <= i < |t| ==> !IsAsciiWhitespace(t[i])
  }

  /** The exception a single-token DOMTokenList call throws for `t`, if any. */
  function Validate(t: Token): (e: Option<DomError>)
    ensures e.None? <==> IsValidToken(t)
    ensures e == Some(SyntaxError) <==> t == []
  {
    if t == [] then Some(SyntaxError)
    else if exists i :: 0 <= i < |t| && IsAsciiWhitespace(t[i]) then Some(InvalidCharacterError)
    else None
  }

  // ---------------------------------------------------------------------------
  // Ordered-set primitives

  /** Ordered-set "append": adds `t` at the end unless it is already present. */
  function Append(s: seq<Token>, t: Token): (r: seq<Token>)
    ensures forall x :: x in r <==> x in s || x == t
    ensures s <= r
    ensures IsOrderedSet(s) ==> IsOrderedSet(r)
    ensures t in s ==> r == s
  {
    if t in s then s else s + [t]
  }

  /** Ordered-set "remove": drops every occurrence of `t`, keeping the other items in order. */
  function Without(s: seq<Token>, t: Token): (r: seq<Token>)
    ensures forall x :: x in r <==> x in s && x != t
    ensures IsOrderedSet(s) ==> IsOrderedSet(r)
    ensures t !in s ==> r == s
  {
    if s == [] then []
    else if s[0] == t then Without(s[1..], t)
    else
      var rest := Without(s[1..], t);
      assert s == [s[0]] + s[1..];
      PrependOrderedSet(s[0], s[1..]);
      PrependOrderedSet(s[0], rest);
      [s[0]] + rest
  }

  /**
   * Ordered-set "replace": the first item that is `item` or `replacement`
   * becomes `replacement`, and every later `item` or `replacement` is removed.
   */
  function ReplaceIn(s: seq<Token>, item: Token, replacement: Token): (r: seq<Token>)
    ensures forall x :: x in r <==>
      (x in s && x != item && x != replacement) || (x == replacement && (item in s || replacement in s))
    ensures IsOrderedSet(s) ==> IsOrderedSet(r)
  {
    if s == [] then []
    else if s[0] == item || s[0] == replacement then [replacement] + Without(Without(s[1..], item), replacement)
    else
      var rest := ReplaceIn(s[1..], item, replacement);
      assert s == [s[0]] + s[1..];
      PrependOrderedSet(s[0], s[1..]);
      PrependOrderedSet(s[0], rest);
      [s[0]] + rest
  }

  /** An item in front of a sequence gives an ordered set exactly when the item is new and the rest is one. */
  lemma PrependOrderedSet<T>(x: T, s: seq<T>)
    ensures IsOrderedSet([x] + s) <==> x !in s && IsOrderedSet(s)
  {
    if x !in s && IsOrderedSet(s) {
      forall i, j | 0 <= i < j < |[x] + s| ensures ([x] + s)[i] != ([x] + s)[j] {
        assert ([x] + s)[j] == s[j - 1];
        if i > 0 {
          assert ([x] + s)[i] == s[i - 1];
        }
      }
    }
    if IsOrderedSet([x] + s) {
      forall i, j | 0 <= i < j < |s| ensures s[i] != s[j] {
        assert s[i] == ([x] + s)[i + 1] && s[j] == ([x] + s)[j + 1];
      }
      forall k | 0 <= k < |s| ensures s[k] != x {
        assert s[k] == ([x] + s)[k + 1] && x == ([x] + s)[0];
      }
    }
  }

  // ---------------------------------------------------------------------------
  // DOMTokenList operations

  /** `classList.add(token)`. */
  function Add(classes: seq<Token>, token: Token): (r: Result<seq<Token>, DomError>)
    ensures r.Failure? <==> !IsValidToken(token)
    ensures r.Failure? ==> Validate(token) == Some(r.error)
    ensures r.Success? ==> token in r.value
    ensures r.Success? ==> forall x :: x != token ==> (x in r.value <==> x in classes)
    ensures r.Success? ==> classes <= r.value
    ensures r.Success? && token in classes ==> r.value == classes
    ensures r.Success? && IsOrderedSet(classes) ==> IsOrderedSet(r.value)
  {
    match Validate(token)
    case Some(e) => Failure(e)
    case None => Success(Append(classes, token))
  }

  /** `classList.remove(token)`. */
  function Remove(classes: seq<Token>, token: Token): (r: Result<seq<Token>, DomError>)
    ensures r.Failure? <==> !IsValidToken(token)
    ensures r.Failure? ==> Validate(token) == Some(r.error)
    ensures r.Success? ==> token !in r.value
    ensures r.Success? ==> forall x :: x != token ==> (x in r.value <==> x in classes)
    ensures r.Success? && token !in classes ==> r.value == classes
    ensures r.Success? && IsOrderedSet(classes) ==> IsOrderedSet(r.value)
  {
    match Validate(token)
    case Some(e) => Failure(e)
    case None => Success(Without(classes, token))
  }

  /** `classList.toggle(token)`: removes a present token, appends an absent one. */
  function Toggle(classes: seq<Token>, token: Token): (r: Result<seq<Token>, DomError>)
    ensures r.Failure? <==> !IsValidToken(token)
    ensures r.Failure? ==> Validate(token) == Some(r.error)
    ensures r.Success? ==> (token in r.value <==> token !in classes)
    ensures r.Success? ==> forall x :: x != token ==> (x in r.value <==> x in classes)
    ensures r.Success? && IsOrderedSet(classes) ==> IsOrderedSet(r.value)
  {
    match Validate(token)
    case Some(e) => Failure(e)
    case None => Success(if token in classes then Without(classes, token) else classes + [token])
  }

  /**
   * `classList.replace(token, newToken)`: both tokens are checked for
   * emptiness before either is checked for whitespace; an absent `token`
   * leaves the list as it is.
   */
  function Replace(classes: seq<Token>, token: Token, newToken: Token): (r: Result<seq<Token>, DomError>)
    ensures r.Failure? <==> !IsValidToken(token) || !IsValidToken(newToken)
    ensures r.Failure? ==> r.error == if token == [] || newToken == [] then SyntaxError else InvalidCharacterError
    ensures r.Success? && token !in classes ==> r.value == classes
    ensures r.Success? && token in classes ==> newToken in r.value && (token != newToken ==> token !in r.value)
    ensures r.Success? ==> forall x :: x != token && x != newToken ==> (x in r.value <==> x in classes)
    ensures r.Success? && IsOrderedSet(classes) ==> IsOrderedSet(r.value)
  {
    if token == [] || newToken == [] then Failure(SyntaxError)
    else if !IsValidToken(token) || !IsValidToken(newToken) then Failure(InvalidCharacterError)
    else if token !in classes then Success(classes)
    else Success(ReplaceIn(classes, token, newToken))
  }

  // ---------------------------------------------------------------------------
  // Lemmas

  /** Removing a token from an ordered set closes the gap it leaves and keeps the rest in order. */
  lemma {:induction false} WithoutAt(s: seq<Token>, i: nat)
    requires IsOrderedSet(s) && i < |s|
    ensures Without(s, s[i]) == s[..i] + s[i + 1..]
  {
    if i == 0 {
      assert s[0] !in s[1..];
    } else {
      assert s[i] == s[1..][i - 1];
      WithoutAt(s[1..], i - 1);
      assert s[1..][..i - 1] == s[1..i];
      assert s[..i] == [s[0]] + s[1..i];
    }
  }

  /** Replacing a present token by an absent one keeps its position. */
  lemma {:induction false} ReplaceAt(s: seq<Token>, i: nat, replacement: Token)
    requires IsOrderedSet(s) && i < |s| && replacement !in s
    ensures ReplaceIn(s, s[i], replacement) == s[i := replacement]
  {
    if i == 0 {
      assert s[0] !in s[1..];
      assert Without(s[1..], s[0]) == s[1..];
    } else {
      assert s[i] == s[1..][i - 1];
      assert s[0] != s[i];
      ReplaceAt(s[1..], i - 1, replacement);
      assert s[1..][i - 1 := replacement] == s[i := replacement][1..];
    }
  }

  /** Removing a token that was appended last gives the list back. */
  lemma {:induction false} WithoutAppended(s: seq<Token>, t: Token)
    requires t !in s
    ensures Without(s + [t], t) == s
  {
    if s == [] {
      assert [t][1..] == [];
    } else {
      assert (s + [t])[1..] == s[1..] + [t];
      WithoutAppended(s[1..], t);
    }
  }

  /** Toggling an absent token twice restores the class list exactly. */
  lemma ToggleTwiceAbsent(classes: seq<Token>, token: Token)
    requires IsValidToken(token) && token !in classes
    ensures Toggle(classes, token).Success?
    ensures Toggle(Toggle(classes, token).value, token) == Success(classes)
  {
    WithoutAppended(classes, token);
  }

  /** Toggling a present token twice keeps the same tokens but moves it to the end. */
  lemma ToggleTwicePresent(classes: seq<Token>, i: nat)
    requires IsOrderedSet(classes) && i < |classes| && IsValidToken(classes[i])
    ensures Toggle(classes, classes[i]).Success?
    ensures Toggle(Toggle(classes, classes[i]).value, classes[i])
         == Success(classes[..i] + classes[i + 1..] + [classes[i]])
  {
    WithoutAt(classes, i);
  }

  /** Adding an absent token and removing it again restores the class list exactly. */
  lemma AddThenRemove(classes: seq<Token>, token: Token)
    requires IsValidToken(token) && token !in classes
    ensures Add(classes, token).Success?
    ensures Remove(Add(classes, token).value, token) == Success(classes)
  {
    WithoutAppended(classes, token);
  }

  /** Replacing a present token by an absent one and back restores the class list exactly. */
  lemma ReplaceRoundTrip(classes: seq<Token>, i: nat, newToken: Token)
    requires IsOrderedSet(classes) && i < |classes| && newToken !in classes
    requires IsValidToken(classes[i]) && IsValidToken(newToken)
    ensures Replace(classes, classes[i], newToken) == Success(classes[i := newToken])
    ensures Replace(classes[i := newToken], newToken, classes[i]) == Success(classes)
  {
    var token := classes[i];
    var replaced := classes[i := newToken];
    ReplaceAt(classes, i, newToken);
    assert IsOrderedSet(replaced) && token !in replaced by {
      forall j | 0 <= j < |replaced| ensures replaced[j] != token {
        if j != i { assert replaced[j] == classes[j]; }
      }
    }
    ReplaceAt(replaced, i, token);
    assert replaced[i := token] == classes;
  }
}
