/**
 * What the two parsers (multipassparser/parser.go and its earlier copy,
 * parser.go) share: the working list of tokens and nodes, the parser state,
 * the outcomes, `tokensToAny`/`anyToTokens`, the `FindIndex` search, the
 * bracket-matching loop of `parseGroup` and the three-element fold of
 * `parseInfixExpr`.
 */
module Worklist {
  import opened Wrappers
  import opened Lexer
  import opened Ast

  /** The error values both parsers declare. `InvalidReducingTokens` is
      declared but never returned. */
  datatype ParseError =
    | InvalidExpression
    | CouldNotParseExpression
    | InvalidReducingTokens
    | NoMatchingBracket
    | InvalidInfixExpression

  /**
   * What `Parse` does: return a node, return an error, recurse for ever
   * (a pass that changes nothing is repeated identically; in Go the stack
   * overflows) or panic on an index out of range.
   */
  datatype Outcome = Parsed(node: Node) | Failed(error: ParseError) | Diverges | Panics

  /** The mutable part of a `Parser`: `reducingTokens`, `operatorPrecedence`
      and `hasResolvedGroups`. */
  datatype State = State(list: seq<Elem>, prec: seq<Operator>, resolved: bool)

  /** The state a sub-pass leaves, or how it stops the parse. */
  datatype Step = Continue(next: State) | Abort(error: ParseError) | Panic | Diverge

  /** What a sub-pass method returns: Go's `([]any, error)`, plus the two
      ways the Go call never returns normally. */
  datatype Reply = Ok(list: seq<Elem>) | Err(error: ParseError) | Panicked | Diverged

  /** What the recursive `parse` returns. */
  datatype RunResult = Reduced(list: seq<Elem>) | RunPanics | RunDiverges

  /** A sub-pass method's reply, read against the state it leaves behind. */
  function Apply(r: Reply, st: State): Step {
    match r
    case Ok(l) => Continue(st.(list := l))
    case Err(e) => Abort(e)
    case Panicked => Panic
    case Diverged => Diverge
  }

  /** The fresh state `NewParser` builds. */
  function Init(toks: seq<Token>, prec: seq<Operator>): State {
    State(ElemsOf(toks), prec, false)
  }

  /** `AsToken(v)` succeeds with kind k. */
  predicate IsTokenOf(e: Elem, k: Kind) {
    e.Tok? && e.token.kind == k
  }

  /** A raw token whose stored category is OPERATOR. */
  predicate IsOperatorToken(e: Elem) {
    e.Tok? && e.token.category == OperatorCat
  }

  /** The synthetic `*` of implicit multiplication. */
  const MulToken: Elem := Tok(NewToken(Mul, "*"))

  /** The number of raw tokens of kind k. */
  function Count(s: seq<Elem>, k: Kind): nat {
    if s == [] then 0 else (if IsTokenOf(s[0], k) then 1 else 0) + Count(s[1..], k)
  }

  lemma {:induction false} CountAppend(a: seq<Elem>, b: seq<Elem>, k: Kind)
    ensures Count(a + b, k) == Count(a, k) + Count(b, k)
  {
    if a != [] {
      assert (a + b)[1..] == a[1..] + b;
      CountAppend(a[1..], b, k);
    } else {
      assert a + b == b;
    }
  }

  /** A span that starts with a k token holds at least one of them. */
  lemma CountSpan(s: seq<Elem>, ind: nat, end: nat, k: Kind)
    requires ind < end < |s| && IsTokenOf(s[ind], k)
    ensures Count(s[..ind], k) + Count(s[end + 1..], k) < Count(s, k)
  {
    var before, span, after := s[..ind], s[ind..end + 1], s[end + 1..];
    assert s == before + span + after;
    CountAppend(before + span, after, k);
    CountAppend(before, span, k);
    assert span[0] == s[ind];
  }

  lemma CountExtend(s: seq<Elem>, lo: nat, hi: nat, k: Kind)
    requires lo <= hi < |s|
    ensures Count(s[lo..hi + 1], k) == Count(s[lo..hi], k) + (if IsTokenOf(s[hi], k) then 1 else 0)
  {
    assert s[lo..hi + 1] == s[lo..hi] + [s[hi]];
    CountAppend(s[lo..hi], [s[hi]], k);
  }

  /**
   * `array.FindIndex` with the predicate "is a token of kind k": the first
   * such index, or -1.
   */
  function FirstIndexOf(s: seq<Elem>, k: Kind): (i: int)
    ensures -1 <= i < |s|
    ensures i >= 0 ==> IsTokenOf(s[i], k) && forall j :: 0 <= j < i ==> !IsTokenOf(s[j], k)
    ensures i == -1 <==> Count(s, k) == 0
    ensures i == -1 ==> forall j :: 0 <= j < |s| ==> !IsTokenOf(s[j], k)
  {
    if s == [] then -1
    else if IsTokenOf(s[0], k) then 0
    else
      var r := FirstIndexOf(s[1..], k);
      if r == -1 then -1 else r + 1
  }

  /** FirstIndexOf is determined by where the first k token is. */
  lemma FirstIndexOfIs(s: seq<Elem>, k: Kind, i: int)
    requires i == -1 || (0 <= i < |s| && IsTokenOf(s[i], k))
    requires forall j :: 0 <= j < |s| && (i == -1 || j < i) ==> !IsTokenOf(s[j], k)
    ensures FirstIndexOf(s, k) == i
  {
  }

  /** After the `(` at ind, position j is where the running counts meet:
      one (for that bracket) plus the `(` up to j equals the `)` up to j. */
  predicate Balanced(s: seq<Elem>, ind: nat, j: nat)
    requires ind < j < |s|
  {
    1 + Count(s[ind + 1..j + 1], LBracket) == Count(s[ind + 1..j + 1], RBracket)
  }

  /** The partner of the `(` at ind: the first balanced position, or -1. */
  function MatchingBracket(s: seq<Elem>, ind: nat): (end: int)
    requires ind < |s|
    ensures end == -1 || ind < end < |s|
    ensures end != -1 ==> Balanced(s, ind, end)
    ensures forall j :: ind < j < |s| && (end == -1 || j < end) ==> !Balanced(s, ind, j)
  {
    MatchFrom(s, ind, ind + 1)
  }

  function MatchFrom(s: seq<Elem>, ind: nat, from: nat): (end: int)
    requires ind < from <= |s|
    decreases |s| - from
    ensures end == -1 || from <= end < |s|
    ensures end != -1 ==> Balanced(s, ind, end)
    ensures forall j :: from <= j < |s| && (end == -1 || j < end) ==> !Balanced(s, ind, j)
  {
    if from == |s| then -1
    else if Balanced(s, ind, from) then from
    else MatchFrom(s, ind, from + 1)
  }

  /** MatchingBracket is determined by the first balanced position. */
  lemma MatchingBracketIs(s: seq<Elem>, ind: nat, end: int)
    requires ind < |s|
    requires end == -1 || (ind < end < |s| && Balanced(s, ind, end))
    requires forall j :: ind < j < |s| && (end == -1 || j < end) ==> !Balanced(s, ind, j)
    ensures MatchingBracket(s, ind) == end
  {
  }

  /** A stretch with no token of kind k counts none of them. */
  lemma {:induction false} CountNone(s: seq<Elem>, lo: nat, hi: nat, k: Kind)
    requires lo <= hi <= |s|
    requires forall j :: lo <= j < hi ==> !IsTokenOf(s[j], k)
    ensures Count(s[lo..hi], k) == 0
  {
    if lo < hi {
      CountNone(s, lo, hi - 1, k);
      CountExtend(s, lo, hi - 1, k);
    } else {
      assert s[lo..hi] == [];
    }
  }

  /** A `(` followed by no bracket up to end is matched by a `)` at end, or
      by nothing when end is -1 and no bracket follows at all. */
  lemma FlatGroup(s: seq<Elem>, ind: nat, end: int)
    requires ind < |s|
    requires end == -1 || (ind < end < |s| && IsTokenOf(s[end], RBracket))
    requires forall j :: ind < j < |s| && (end == -1 || j < end) ==> !IsTokenOf(s[j], LBracket) && !IsTokenOf(s[j], RBracket)
    ensures MatchingBracket(s, ind) == end
  {
    forall j | ind < j < |s| && (end == -1 || j < end)
      ensures !Balanced(s, ind, j)
    {
      CountNone(s, ind + 1, j + 1, LBracket);
      CountNone(s, ind + 1, j + 1, RBracket);
    }
    if end != -1 {
      CountNone(s, ind + 1, end, LBracket);
      CountNone(s, ind + 1, end, RBracket);
      CountExtend(s, ind + 1, end, LBracket);
      CountExtend(s, ind + 1, end, RBracket);
    }
    MatchingBracketIs(s, ind, end);
  }

  /**
   * The bracket-matching loop of `parseGroup`: counts start at one `(` and
   * no `)`, elements that are not tokens are skipped, and the loop stops at
   * the first position where the counts are equal.
   */
  method FindMatching(s: seq<Elem>, ind: nat) returns (end: int)
    requires ind < |s|
    ensures end == MatchingBracket(s, ind)
  {
    var leftCount, rightCount := 1, 0;
    var start := ind + 1;
    var pos := start;
    end := -1;
    while pos < |s|
      invariant start <= pos <= |s|
      invariant leftCount == 1 + Count(s[start..pos], LBracket)
      invariant rightCount == Count(s[start..pos], RBracket)
      invariant leftCount != rightCount
      invariant end == -1
      invariant forall j :: ind < j < pos ==> !Balanced(s, ind, j)
    {
      var item := s[pos];
      CountExtend(s, start, pos, LBracket);
      CountExtend(s, start, pos, RBracket);
      pos := pos + 1;
      if !item.Tok? {
        continue;
      }
      if item.token.kind == LBracket {
        leftCount := leftCount + 1;
      } else if item.token.kind == RBracket {
        rightCount := rightCount + 1;
      }
      if leftCount == rightCount {
        end := pos - 1;
        assert Balanced(s, ind, end);
        break;
      }
    }
    ghost var m := MatchingBracket(s, ind);
    if end == -1 {
      assert m == -1;
    } else {
      assert m != -1 && !(m < end) && !(end < m);
    }
  }

  /** `tokensToAny` as a value. */
  function ElemsOf(toks: seq<Token>): seq<Elem> {
    seq(|toks|, i requires 0 <= i < |toks| => Tok(toks[i]))
  }

  /** `anyToTokens` as a value: the raw tokens, in order; nodes are dropped. */
  function TokensOf(s: seq<Elem>): seq<Token> {
    if s == [] then [] else (if s[0].Tok? then [s[0].token] else []) + TokensOf(s[1..])
  }

  /** `tokensToAny`: one working-list value per token, by an index loop. */
  method TokensToAny(tks: seq<Token>) returns (reducing: seq<Elem>)
    ensures reducing == ElemsOf(tks)
  {
    reducing := [];
    var i := 0;
    while i < |tks|
      invariant 0 <= i <= |tks|
      invariant reducing == ElemsOf(tks[..i])
    {
      assert tks[..i + 1] == tks[..i] + [tks[i]];
      reducing := reducing + [Tok(tks[i])];
      i := i + 1;
    }
    assert tks[..i] == tks;
  }

  lemma {:induction false} TokensOfAppend(a: seq<Elem>, b: seq<Elem>)
    ensures TokensOf(a + b) == TokensOf(a) + TokensOf(b)
  {
    if a != [] {
      assert (a + b)[1..] == a[1..] + b;
      TokensOfAppend(a[1..], b);
    } else {
      assert a + b == b;
    }
  }

  /** `anyToTokens`: keeps the values for which `AsToken` succeeds. */
  method AnyToTokens(reducing: seq<Elem>) returns (tks: seq<Token>)
    ensures tks == TokensOf(reducing)
  {
    tks := [];
    var i := 0;
    while i < |reducing|
      invariant 0 <= i <= |reducing|
      invariant tks == TokensOf(reducing[..i])
    {
      assert reducing[..i + 1] == reducing[..i] + [reducing[i]];
      TokensOfAppend(reducing[..i], [reducing[i]]);
      if reducing[i].Tok? {
        tks := tks + [reducing[i].token];
      }
      i := i + 1;
    }
    assert reducing[..i] == reducing;
  }

  /** `anyToTokens` undoes `tokensToAny`. */
  lemma {:induction false} TokensRoundTrip(tks: seq<Token>)
    ensures TokensOf(ElemsOf(tks)) == tks
  {
    if tks != [] {
      assert ElemsOf(tks)[1..] == ElemsOf(tks[1..]);
      TokensRoundTrip(tks[1..]);
    }
  }

  lemma ElemsOfAppend(a: seq<Token>, b: seq<Token>)
    ensures ElemsOf(a + b) == ElemsOf(a) + ElemsOf(b)
  {
  }

  /** Dropping the nodes keeps every bracket token. */
  lemma {:induction false} CountTokensOf(s: seq<Elem>, k: Kind)
    ensures Count(ElemsOf(TokensOf(s)), k) == Count(s, k)
  {
    if s != [] {
      var head: seq<Token> := if s[0].Tok? then [s[0].token] else [];
      ElemsOfAppend(head, TokensOf(s[1..]));
      CountAppend(ElemsOf(head), ElemsOf(TokensOf(s[1..])), k);
      CountTokensOf(s[1..], k);
      assert s == [s[0]] + s[1..];
      CountAppend([s[0]], s[1..], k);
    }
  }

  /** The tokens strictly inside a group have fewer `(` than the whole list:
      the group's own `(` is not among them. */
  lemma InnerBrackets(s: seq<Elem>, ind: nat, end: nat)
    requires ind < end <= |s| && IsTokenOf(s[ind], LBracket)
    ensures Count(ElemsOf(TokensOf(s[ind + 1..end])), LBracket) < Count(s, LBracket)
  {
    CountTokensOf(s[ind + 1..end], LBracket);
    assert s == s[..ind] + [s[ind]] + s[ind + 1..end] + s[end..];
    CountAppend(s[..ind] + [s[ind]] + s[ind + 1..end], s[end..], LBracket);
    CountAppend(s[..ind] + [s[ind]], s[ind + 1..end], LBracket);
    CountAppend(s[..ind], [s[ind]], LBracket);
  }

  /**
   * The fold of `parseInfixExpr`: the operator at ind and its two
   * neighbours, promoted by `AsNodeV2`, become one BinaryExpr; the list is
   * two shorter and every other value keeps its place in order.
   */
  function Fold(s: seq<Elem>, ind: nat): (r: seq<Elem>)
    requires 0 < ind < |s| - 1 && s[ind].Tok?
    ensures |r| == |s| - 2
    ensures forall i :: 0 <= i < ind - 1 ==> r[i] == s[i]
    ensures r[ind - 1] == Nd(NewBinaryExpr(s[ind].token.kind, AsNodeV2(s[ind - 1]).value, AsNodeV2(s[ind + 1]).value))
    ensures forall i :: ind <= i < |r| ==> r[i] == s[i + 2]
  {
    var node := NewBinaryExpr(s[ind].token.kind, AsNodeV2(s[ind - 1]).value, AsNodeV2(s[ind + 1]).value);
    s[..ind - 1] + [Nd(node)] + s[ind + 2..]
  }

  /** A fold never adds a token. */
  lemma FoldCount(s: seq<Elem>, ind: nat, k: Kind)
    requires 0 < ind < |s| - 1 && s[ind].Tok?
    ensures Count(Fold(s, ind), k) <= Count(s, k)
  {
    var node := NewBinaryExpr(s[ind].token.kind, AsNodeV2(s[ind - 1]).value, AsNodeV2(s[ind + 1]).value);
    assert s == s[..ind - 1] + s[ind - 1..ind + 2] + s[ind + 2..];
    CountAppend(s[..ind - 1] + s[ind - 1..ind + 2], s[ind + 2..], k);
    CountAppend(s[..ind - 1], s[ind - 1..ind + 2], k);
    CountAppend(s[..ind - 1] + [Nd(node)], s[ind + 2..], k);
    CountAppend(s[..ind - 1], [Nd(node)], k);
  }

  /** The length-one case of `parse`: a raw token becomes an Operand. */
  function Wrap(e: Elem): (r: Elem)
    ensures r.Nd?
    ensures e.Nd? ==> r == e
    ensures e.Tok? ==> r.node == NewOperand(e.token.kind, e.token.value)
  {
    if e.Tok? then Nd(NewOperand(e.token.kind, e.token.value)) else e
  }

  /** A three-value list with one operator token, of kind k, in the middle,
      as `FindIndex` sees it: k is found at 1, and no other operator and no
      `(` is found at all. */
  predicate OnlyInMiddle(s: seq<Elem>, k: Kind) {
    && |s| == 3
    && IsTokenOf(s[1], k)
    && forall j: Kind :: IsOperatorKind(j) || j == LBracket ==> FirstIndexOf(s, j) == if j == k then 1 else -1
  }

  /** `l o r`, one operator token between two values, is such a list, and
      its fold is the operator's BinaryExpr of the two Operands. */
  lemma OperatorBetween(l: Token, o: Token, r: Token)
    requires IsOperatorKind(o.kind) && l.kind in {Num, Alpha} && r.kind in {Num, Alpha}
    ensures OnlyInMiddle(ElemsOf([l, o, r]), o.kind)
    ensures Fold(ElemsOf([l, o, r]), 1)
         == [Nd(NewBinaryExpr(o.kind, NewOperand(l.kind, l.value), NewOperand(r.kind, r.value)))]
  {
    var s := ElemsOf([l, o, r]);
    assert s == [Tok(l), Tok(o), Tok(r)];
    forall j: Kind | IsOperatorKind(j) || j == LBracket
      ensures FirstIndexOf(s, j) == if j == o.kind then 1 else -1
    {
      if j == o.kind {
        FirstIndexOfIs(s, j, 1);
      } else {
        FirstIndexOfIs(s, j, -1);
      }
    }
  }

  /** The operators of the five calls `parsePow` .. `parseSub`, in the
      order `parse` makes them in both parsers. */
  const FoldOrder: seq<Operator> := [Pow, Mul, Div, Add, Sub]

  /** `Parse` after `parse` has returned: exactly one node, else the
      generic error. */
  function Finish(rr: RunResult): Outcome {
    match rr
    case RunPanics => Panics
    case RunDiverges => Diverges
    case Reduced(l) =>
      if |l| != 1 then Failed(CouldNotParseExpression)
      else match l[0]
        case Nd(n) => Parsed(n)
        case Tok(_) => Failed(CouldNotParseExpression)
  }

  /** Progress measure of one pass, compared lexicographically: `(` tokens,
      groups not yet resolved, precedence entries left, list length. */
  function Flag(st: State): nat {
    if st.resolved then 0 else 1
  }

  predicate Below(a: State, b: State) {
    var la, lb := Count(a.list, LBracket), Count(b.list, LBracket);
    || la < lb
    || (la == lb && Flag(a) < Flag(b))
    || (la == lb && Flag(a) == Flag(b) && |a.prec| < |b.prec|)
    || (la == lb && Flag(a) == Flag(b) && |a.prec| == |b.prec| && |a.list| < |b.list|)
  }

  /** A sub-pass never moves the state up the measure. */
  predicate NoWorse(a: State, b: State) {
    a == b || Below(a, b)
  }

  predicate StepNoWorse(r: Step, st: State) {
    r.Continue? ==> NoWorse(r.next, st)
  }
}
