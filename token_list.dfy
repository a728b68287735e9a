/** The class-list stand-in of the test set-up (`src/test/setup.ts`): token
    validation and `MockDOMTokenList`, an insertion-ordered set of class
    names kept in step with its `length` and `value`. It follows section 7.1
    (Interface DOMTokenList) of the WHATWG DOM Standard loosely: tokens that
    start like a number or a custom property are silently refused, and
    `replace` appends the new token instead of putting it in the old one's
    place. `CSS.escape` is the identity in the set-up, so its failure branch
    is not modelled. */
module TokenList {
  import opened Base
  import opened Seqs
  import opened Strings

  // ------------------------------------------------------------ validation

  /** The exceptions `isValidToken` throws. */
  datatype TokenError = SyntaxError | InvalidCharacterError

  /** What `isValidToken` does with a token: returns true, returns false, or throws. */
  datatype Validity = Valid | Invalid | Throws(error: TokenError)

  /** `/\s/.test(s)`. */
  predicate HasSpace(s: string) {
    exists i :: 0 <= i < |s| && IsSpace(s[i])
  }

  /** A token as a CSS identifier cannot start: a digit, `--`, or `-` and a digit. */
  predicate NumberLike(t: string) {
    t != [] && (IsDigit(t[0]) || (t[0] == '-' && |t| >= 2 && (t[1] == '-' || IsDigit(t[1]))))
  }

  /** `isValidToken`. */
  function ValidateToken(token: string): (r: Validity)
    ensures r == Throws(SyntaxError) <==> token == ""
    ensures r == Throws(InvalidCharacterError) <==> token != "" && HasSpace(token)
    ensures r == Valid <==> token != "" && !HasSpace(token) && !NumberLike(token)
  {
    if token == "" then Throws(SyntaxError)
    else if HasSpace(token) then Throws(InvalidCharacterError)
    else if IsDigit(token[0]) then Invalid
    else if |token| >= 2 && token[..2] == "--" then Invalid
    else if token[0] == '-' && |token| >= 2 && IsDigit(token[1]) then Invalid
    else Valid
  }

  // ------------------------------------------------------ splitting a value

  /** The number of characters before the first white space. */
  function RunLength(s: string): (k: nat)
    ensures k <= |s|
    ensures forall i :: 0 <= i < k ==> !IsSpace(s[i])
    ensures k < |s| ==> IsSpace(s[k])
  {
    if s == [] || IsSpace(s[0]) then 0
    else
      var k := RunLength(s[1..]);
      assert forall i :: 1 <= i < |s| ==> s[i] == s[1..][i - 1];
      1 + k
  }

  /** `s.split(/\s+/).filter(Boolean)`: the maximal runs of characters that
      are not white space, in order. */
  function Words(s: string): (r: seq<string>)
    ensures forall i :: 0 <= i < |r| ==> r[i] != "" && !HasSpace(r[i])
    decreases |s|
  {
    if s == [] then []
    else if IsSpace(s[0]) then Words(s[1..])
    else
      var k := RunLength(s);
      assert !HasSpace(s[..k]);
      [s[..k]] + Words(s[k..])
  }

  /** A word followed by a space and more text splits off as the first word. */
  lemma WordsCons(t: string, rest: string)
    requires t != "" && !HasSpace(t)
    ensures Words(t + " " + rest) == [t] + Words(rest)
  {
    var s := t + " " + rest;
    assert RunLength(s) == |t| by {
      assert s[|t|] == ' ';
      assert forall i :: 0 <= i < |t| ==> s[i] == t[i];
    }
    assert s[..|t|] == t;
    assert s[|t|..] == " " + rest;
    assert (" " + rest)[1..] == rest;
  }

  /** One word on its own splits into itself. */
  lemma WordsSingle(t: string)
    requires t != "" && !HasSpace(t)
    ensures Words(t) == [t]
  {
    assert RunLength(t) == |t| by {
      assert forall i :: 0 <= i < |t| ==> !IsSpace(t[i]);
    }
    assert t[..|t|] == t && t[|t|..] == [];
  }

  /** Splitting the space-joined list of words gives the words back. */
  lemma {:induction false} WordsJoin(ts: seq<string>)
    requires forall i :: 0 <= i < |ts| ==> ts[i] != "" && !HasSpace(ts[i])
    ensures Words(Join(ts, " ")) == ts
  {
    if |ts| == 1 {
      WordsSingle(ts[0]);
    } else if |ts| >= 2 {
      WordsJoin(ts[1..]);
      WordsCons(ts[0], Join(ts[1..], " "));
      assert ts == [ts[0]] + ts[1..];
    }
  }

  // --------------------------------------------------------- the token set

  /** No token occurs twice. */
  predicate Distinct(ts: seq<string>) {
    forall i, j :: 0 <= i < j < |ts| ==> ts[i] != ts[j]
  }

  /** `Set.add`: a new token goes to the end, a present one stays where it is. */
  function Insert(ts: seq<string>, t: string): (r: seq<string>)
    ensures forall u :: u in r <==> u in ts || u == t
    ensures Distinct(ts) ==> Distinct(r)
    ensures t in ts ==> r == ts
    ensures t !in ts ==> r == ts + [t]
  {
    if t in ts then ts else ts + [t]
  }

  /** `Set.delete` keeps the set free of repeats. */
  lemma {:induction false} DeleteDistinct(ts: seq<string>, t: string)
    ensures Distinct(ts) ==> Distinct(Without(ts, t))
  {
    if ts != [] && Distinct(ts) {
      DeleteDistinct(ts[1..], t);
      assert ts[0] !in ts[1..] by {
        assert forall j :: 0 <= j < |ts[1..]| ==> ts[1..][j] == ts[j + 1];
      }
      assert Without(ts, t) == (if ts[0] == t then [] else [ts[0]]) + Without(ts[1..], t);
    }
  }

  /** A list without repeats has as many elements as its set of values. */
  lemma {:induction false} DistinctCount(ts: seq<string>)
    requires Distinct(ts)
    ensures |set t | t in ts| == |ts|
  {
    if ts != [] {
      var rest := ts[1..];
      DistinctCount(rest);
      assert ts[0] !in rest by {
        assert forall j :: 0 <= j < |rest| ==> rest[j] == ts[j + 1];
      }
      assert (set t | t in ts) == (set t | t in rest) + {ts[0]} by {
        assert ts == [ts[0]] + rest;
      }
    }
  }

  /** The tokens after adding the valid ones of `args` in order;
      the others are skipped. */
  function AddAll(ts: seq<string>, args: seq<string>): (r: seq<string>)
    ensures forall u :: u in r <==> u in ts || (u in args && ValidateToken(u) == Valid)
    ensures Distinct(ts) ==> Distinct(r)
  {
    if args == [] then ts
    else
      var front := args[..|args| - 1];
      var t := args[|args| - 1];
      assert args == front + [t];
      if ValidateToken(t) == Valid then Insert(AddAll(ts, front), t) else AddAll(ts, front)
  }

  /** The tokens after removing the valid ones of `args` in order. */
  function RemoveAll(ts: seq<string>, args: seq<string>): (r: seq<string>)
    ensures forall u :: u in r <==> u in ts && !(u in args && ValidateToken(u) == Valid)
    ensures Distinct(ts) ==> Distinct(r)
  {
    if args == [] then ts
    else
      var front := args[..|args| - 1];
      var t := args[|args| - 1];
      assert args == front + [t];
      var before := RemoveAll(ts, front);
      DeleteDistinct(before, t);
      if ValidateToken(t) == Valid then Without(before, t) else before
  }

  /** The first exception the arguments raise, if any. */
  function FirstThrow(args: seq<string>): (r: Option<TokenError>)
    ensures r.None? <==> forall i :: 0 <= i < |args| ==> !ValidateToken(args[i]).Throws?
    ensures r.Some? ==> exists i :: 0 <= i < |args| && ValidateToken(args[i]) == Throws(r.value)
  {
    if args == [] then None
    else if ValidateToken(args[0]).Throws? then Some(ValidateToken(args[0]).error)
    else
      var r := FirstThrow(args[1..]);
      assert forall i :: 1 <= i < |args| ==> args[i] == args[1..][i - 1];
      r
  }

  /** What a query returns: a value, or the exception it throws. */
  datatype Outcome<+T> = Returned(value: T) | Threw(error: TokenError)

  /** `contains` over a token list. */
  function Lookup(ts: seq<string>, t: string): (r: Outcome<bool>)
    ensures ValidateToken(t).Throws? <==> r.Threw?
    ensures r.Threw? ==> r.error == ValidateToken(t).error
    ensures r == Returned(true) <==> ValidateToken(t) == Valid && t in ts
  {
    match ValidateToken(t)
    case Throws(e) => Threw(e)
    case Invalid => Returned(false)
    case Valid => Returned(t in ts)
  }

  /** After adding a valid token it is contained; other tokens are as before. */
  lemma AddThenContains(ts: seq<string>, t: string, u: string)
    requires ValidateToken(t) == Valid
    ensures Lookup(AddAll(ts, [t]), t) == Returned(true)
    ensures u != t ==> Lookup(AddAll(ts, [t]), u) == Lookup(ts, u)
  {
  }

  /** After removing a valid token it is not contained; other tokens are as before. */
  lemma RemoveThenMissing(ts: seq<string>, t: string, u: string)
    requires ValidateToken(t) == Valid
    ensures Lookup(RemoveAll(ts, [t]), t) == Returned(false)
    ensures u != t ==> Lookup(RemoveAll(ts, [t]), u) == Lookup(ts, u)
  {
  }

  /** Adding the tokens of a list without repeats to nothing rebuilds it. */
  lemma {:induction false} AddAllRebuilds(ts: seq<string>)
    requires Distinct(ts) && forall i :: 0 <= i < |ts| ==> ValidateToken(ts[i]) == Valid
    ensures AddAll([], ts) == ts
  {
    if ts != [] {
      var front := ts[..|ts| - 1];
      assert Distinct(front);
      AddAllRebuilds(front);
      assert ts[|ts| - 1] !in front by {
        assert forall j :: 0 <= j < |front| ==> front[j] == ts[j];
      }
      assert ts == front + [ts[|ts| - 1]];
    }
  }

  // --------------------------------------------------------------- the list

  /** `MockDOMTokenList`. `tokens` is the private set in insertion order. */
  class MockDOMTokenList {
    var tokens: seq<string>
    var length: int
    var value: string

    /** The set has no repeats and only valid tokens, and `length` and
        `value` describe it. */
    predicate Consistent()
      reads this
    {
      Distinct(tokens) && (forall t :: t in tokens ==> ValidateToken(t) == Valid)
      && length == |tokens| && value == Join(tokens, " ")
    }

    /** The constructor: the valid words of the initial class text, each once. */
    constructor(initialClasses: string)
      ensures tokens == AddAll([], Words(initialClasses))
      ensures Consistent()
    {
      var words := Words(initialClasses);
      var ts: seq<string> := [];
      for i := 0 to |words|
        invariant ts == AddAll([], words[..i])
      {
        assert words[..i + 1][..i] == words[..i];
        if ValidateToken(words[i]) == Valid {
          ts := Insert(ts, words[i]);
        }
      }
      assert words[..|words|] == words;
      tokens := ts;
      length := |ts|;
      value := Join(ts, " ");
    }

    /** `updateState`. */
    method UpdateState()
      modifies this
      ensures tokens == old(tokens) && length == |tokens| && value == Join(tokens, " ")
    {
      length := |tokens|;
      value := Join(tokens, " ");
    }

    /** `add`: when some argument makes the validation throw, that exception
        propagates and nothing changes; otherwise every valid argument is
        added in order. */
    method Add(args: seq<string>) returns (thrown: Option<TokenError>)
      requires Consistent()
      modifies this
      ensures thrown == FirstThrow(args)
      ensures thrown.Some? ==> tokens == old(tokens)
      ensures thrown.None? ==> tokens == AddAll(old(tokens), args)
      ensures Consistent()
    {
      thrown := FirstThrow(args);
      if thrown.Some? {
        return;
      }
      ghost var start := tokens;
      for i := 0 to |args|
        invariant tokens == AddAll(start, args[..i])
        invariant Distinct(tokens) && forall t :: t in tokens ==> ValidateToken(t) == Valid
      {
        assert args[..i + 1][..i] == args[..i];
        if ValidateToken(args[i]) == Valid {
          tokens := Insert(tokens, args[i]);
        }
      }
      assert args[..|args|] == args;
      UpdateState();
    }

    /** `remove`, with the same treatment of exceptions as `add`. */
    method Remove(args: seq<string>) returns (thrown: Option<TokenError>)
      requires Consistent()
      modifies this
      ensures thrown == FirstThrow(args)
      ensures thrown.Some? ==> tokens == old(tokens)
      ensures thrown.None? ==> tokens == RemoveAll(old(tokens), args)
      ensures Consistent()
    {
      thrown := FirstThrow(args);
      if thrown.Some? {
        return;
      }
      ghost var start := tokens;
      for i := 0 to |args|
        invariant tokens == RemoveAll(start, args[..i])
        invariant Distinct(tokens) && forall t :: t in tokens ==> ValidateToken(t) == Valid
      {
        assert args[..i + 1][..i] == args[..i];
        if ValidateToken(args[i]) == Valid {
          DeleteDistinct(tokens, args[i]);
          tokens := Without(tokens, args[i]);
        }
      }
      assert args[..|args|] == args;
      UpdateState();
    }

    /** `contains`: an invalid token throws as `isValidToken` does;
        otherwise the answer is whether the token is held. */
    function Contains(t: string): (r: Outcome<bool>)
      reads this
      ensures r.Threw? <==> ValidateToken(t).Throws?
      ensures ValidateToken(t) == Valid ==> r == Returned(t in tokens)
      ensures ValidateToken(t) == Invalid ==> r == Returned(false)
    {
      Lookup(tokens, t)
    }

    /** `item`: the token at that position, or null out of range. */
    function Item(index: int): (r: Option<string>)
      reads this
      ensures r.Some? <==> 0 <= index < |tokens|
      ensures r.Some? ==> r.value == tokens[index]
    {
      if 0 <= index < |tokens| then Some(tokens[index]) else None
    }

    /** `supports`: an exception counts as not supported. */
    function Supports(t: string): (r: bool)
      ensures r <==> t != "" && !HasSpace(t) && !NumberLike(t)
    {
      ValidateToken(t) == Valid
    }

    /** `toString`. */
    function ToString(): (r: string)
      reads this
      ensures Consistent() ==> r == value
    {
      Join(tokens, " ")
    }

    /** `toggle`: with `force` the token's membership becomes `force`,
        without it the membership flips; the answer is the membership
        afterwards. A refused token answers false and changes nothing; one
        that makes the validation throw propagates the exception. */
    method Toggle(t: string, force: Option<bool>) returns (r: Outcome<bool>)
      requires Consistent()
      modifies this
      ensures ValidateToken(t).Throws? ==> r == Threw(ValidateToken(t).error) && tokens == old(tokens)
      ensures ValidateToken(t) == Invalid ==> r == Returned(false) && tokens == old(tokens)
      ensures ValidateToken(t) == Valid ==>
                var member := if force.Some? then force.value else t !in old(tokens);
                r == Returned(member) && (t in tokens <==> member)
                && tokens == (if member then Insert(old(tokens), t) else Without(old(tokens), t))
      ensures Consistent()
    {
      match ValidateToken(t)
      case Throws(e) => return Threw(e);
      case Invalid => return Returned(false);
      case Valid =>
        var member := if force.Some? then force.value else t !in tokens;
        if member {
          tokens := Insert(tokens, t);
        } else {
          DeleteDistinct(tokens, t);
          tokens := Without(tokens, t);
        }
        UpdateState();
        r := Returned(t in tokens);
    }

    /** `replace`: the old token is validated first, and a refused old token
        answers false before the new one is looked at. When both are valid
        and the old one is present it is deleted and the new one added, at
        the end unless it was already there. */
    method Replace(oldToken: string, newToken: string) returns (r: Outcome<bool>)
      requires Consistent()
      modifies this
      ensures ValidateToken(oldToken).Throws? ==>
                r == Threw(ValidateToken(oldToken).error) && tokens == old(tokens)
      ensures ValidateToken(oldToken) == Invalid ==> r == Returned(false) && tokens == old(tokens)
      ensures ValidateToken(oldToken) == Valid && ValidateToken(newToken).Throws? ==>
                r == Threw(ValidateToken(newToken).error) && tokens == old(tokens)
      ensures ValidateToken(oldToken) == Valid && ValidateToken(newToken) == Invalid ==>
                r == Returned(false) && tokens == old(tokens)
      ensures ValidateToken(oldToken) == Valid && ValidateToken(newToken) == Valid ==>
                (r == Returned(true) <==> oldToken in old(tokens))
                && (oldToken !in old(tokens) ==> r == Returned(false) && tokens == old(tokens))
                && (oldToken in old(tokens) ==> tokens == Insert(Without(old(tokens), oldToken), newToken))
      ensures Consistent()
    {
      var vo := ValidateToken(oldToken);
      if vo.Throws? {
        return Threw(vo.error);
      }
      if vo == Invalid {
        return Returned(false);
      }
      var vn := ValidateToken(newToken);
      if vn.Throws? {
        return Threw(vn.error);
      }
      if vn == Invalid {
        return Returned(false);
      }
      if oldToken !in tokens {
        return Returned(false);
      }
      DeleteDistinct(tokens, oldToken);
      tokens := Insert(Without(tokens, oldToken), newToken);
      UpdateState();
      r := Returned(true);
    }
  }

  /** After a successful replacement the old token is gone (unless it was
      also the new one), the new one is present, and every other token is as
      before; a new token that was absent ends up last. */
  lemma ReplaceEffect(ts: seq<string>, o: string, n: string, u: string)
    requires o in ts
    ensures n in Insert(Without(ts, o), n)
    ensures o != n ==> o !in Insert(Without(ts, o), n)
    ensures u != o && u != n ==> (u in Insert(Without(ts, o), n) <==> u in ts)
    ensures n !in ts || n == o ==> Insert(Without(ts, o), n)[|Insert(Without(ts, o), n)| - 1] == n
  {
  }

  /** A consistent list rebuilt from its `value`, as the `className` setter
      does, has the same tokens in the same order. */
  lemma ValueRoundTrip(ts: seq<string>)
    requires Distinct(ts) && forall i :: 0 <= i < |ts| ==> ValidateToken(ts[i]) == Valid
    ensures AddAll([], Words(Join(ts, " "))) == ts
  {
    WordsJoin(ts);
    AddAllRebuilds(ts);
  }
  // ------------------------------------------- add and remove as written

  /** The three public fields of the list, as a value. */
  datatype ListState = ListState(tokens: seq<string>, length: int, value: string)

  /** `AddAll` can equally be read from the front. */
  lemma {:induction false} AddAllFront(ts: seq<string>, args: seq<string>)
    requires args != []
    ensures AddAll(ts, args) ==
              AddAll(if ValidateToken(args[0]) == Valid then Insert(ts, args[0]) else ts, args[1..])
  {
    var start := if ValidateToken(args[0]) == Valid then Insert(ts, args[0]) else ts;
    if |args| == 1 {
      assert args[..0] == [];
      assert args[1..] == [];
    } else {
      var front := args[..|args| - 1];
      AddAllFront(ts, front);
      assert front[1..] == args[1..][..|args[1..]| - 1];
      assert front[0] == args[0];
    }
  }

  /** The `forEach` of `add` as written: arguments are validated and added
      one at a time, so an exception leaves the tokens before it added. */
  function AddSteps(ts: seq<string>, args: seq<string>): (r: (seq<string>, Option<TokenError>))
    ensures r.1 == FirstThrow(args)
    ensures r.1.None? ==> r.0 == AddAll(ts, args)
    decreases |args|
  {
    if args == [] then (ts, None)
    else
      assert forall i :: 1 <= i < |args| ==> args[i] == args[1..][i - 1];
      match ValidateToken(args[0])
      case Throws(e) => (ts, Some(e))
      case Invalid =>
        AddAllFront(ts, args);
        AddSteps(ts, args[1..])
      case Valid =>
        AddAllFront(ts, args);
        AddSteps(Insert(ts, args[0]), args[1..])
  }

  /** `add` as written: when the validation throws, the exception escapes
      before `updateState`, so `length` and `value` keep their old values. */
  function AddAsWritten(st: ListState, args: seq<string>): (r: (ListState, Option<TokenError>))
    ensures r.1 == FirstThrow(args)
    ensures r.1.None? ==> r.0 == ListState(AddAll(st.tokens, args), |r.0.tokens|, Join(r.0.tokens, " "))
    ensures r.1.Some? ==> r.0.length == st.length && r.0.value == st.value
  {
    var (ts, e) := AddSteps(st.tokens, args);
    if e.Some? then (ListState(ts, st.length, st.value), e) else (ListState(ts, |ts|, Join(ts, " ")), None)
  }

  /** `add('a', '')` on an empty list throws a SyntaxError after adding 'a':
      'a' is then contained while `length` still says 0 and `value` is empty. */
  lemma AddAsWrittenLeavesStaleState()
    ensures var (st, e) := AddAsWritten(ListState([], 0, ""), ["a", ""]);
            e == Some(SyntaxError) && st.tokens == ["a"] && st.length == 0 && st.value == ""
  {
    assert ValidateToken("a") == Valid;
    assert ["a", ""][1..] == [""];
  }

  /** `RemoveAll` can equally be read from the front. */
  lemma {:induction false} RemoveAllFront(ts: seq<string>, args: seq<string>)
    requires args != []
    ensures RemoveAll(ts, args) ==
              RemoveAll(if ValidateToken(args[0]) == Valid then Without(ts, args[0]) else ts, args[1..])
  {
    if |args| == 1 {
      assert args[..0] == [];
      assert args[1..] == [];
    } else {
      var front := args[..|args| - 1];
      RemoveAllFront(ts, front);
      assert front[1..] == args[1..][..|args[1..]| - 1];
      assert front[0] == args[0];
    }
  }

  /** The `forEach` of `remove` as written: an exception leaves the tokens
      before it removed. */
  function RemoveSteps(ts: seq<string>, args: seq<string>): (r: (seq<string>, Option<TokenError>))
    ensures r.1 == FirstThrow(args)
    ensures r.1.None? ==> r.0 == RemoveAll(ts, args)
    decreases |args|
  {
    if args == [] then (ts, None)
    else
      assert forall i :: 1 <= i < |args| ==> args[i] == args[1..][i - 1];
      match ValidateToken(args[0])
      case Throws(e) => (ts, Some(e))
      case Invalid =>
        RemoveAllFront(ts, args);
        RemoveSteps(ts, args[1..])
      case Valid =>
        RemoveAllFront(ts, args);
        RemoveSteps(Without(ts, args[0]), args[1..])
  }

  /** `remove` as written, with the same stale fields after an exception. */
  function RemoveAsWritten(st: ListState, args: seq<string>): (r: (ListState, Option<TokenError>))
    ensures r.1 == FirstThrow(args)
    ensures r.1.None? ==> r.0 == ListState(RemoveAll(st.tokens, args), |r.0.tokens|, Join(r.0.tokens, " "))
    ensures r.1.Some? ==> r.0.length == st.length && r.0.value == st.value
  {
    var (ts, e) := RemoveSteps(st.tokens, args);
    if e.Some? then (ListState(ts, st.length, st.value), e) else (ListState(ts, |ts|, Join(ts, " ")), None)
  }

  /** `remove('a', '')` on the list "a" throws after deleting 'a', leaving
      `length` 1 and `value` "a" for an empty set. */
  lemma RemoveAsWrittenLeavesStaleState()
    ensures var (st, e) := RemoveAsWritten(ListState(["a"], 1, "a"), ["a", ""]);
            e == Some(SyntaxError) && st.tokens == [] && st.length == 1 && st.value == "a"
  {
    assert ValidateToken("a") == Valid;
    assert ["a", ""][1..] == [""];
    assert Without(["a"], "a") == [];
  }
}
