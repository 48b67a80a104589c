/**
 * The multi-pass reduction parser of multipassparser/parser.go.
 *
 * The specification functions (`Group`, `Infix`, `Pass`, `Run`,
 * `ParseFrom`, `ParseTokens`) say what each step does to the parser state;
 * the class `Parser` is the Go struct, whose methods update its fields step
 * by step and are proved to follow those functions.
 */
module Multipass {
  import opened Wrappers
  import opened Lexer
  import opened Ast
  import opened Worklist

  /** The default order: POW, MUL, DIV, ADD, SUB. */
  const Bidmas: seq<Operator> := [Pow, Mul, Div, Add, Sub]

  /**
   * The list after a group has been parsed to node n: the values before it,
   * the node, the values after it, with a `*` added on each side where
   * there is a neighbour that is not an OPERATOR-category token.
   */
  function Splice(before: seq<Elem>, n: Node, after: seq<Elem>): seq<Elem>
  {
    var b := if |before| > 0 && !IsOperatorToken(before[|before| - 1]) then before + [MulToken] else before;
    var a := if |after| > 0 && !IsOperatorToken(after[0]) then [MulToken] + after else after;
    b + [Nd(n)] + a
  }

  /**
   * Where everything goes in a splice: the values before the group, then a
   * `*` exactly when the last of them is not an OPERATOR token, then the
   * node, then a `*` exactly when the first value after the group is not an
   * OPERATOR token, then the values after the group.
   */
  lemma SpliceLayout(before: seq<Elem>, n: Node, after: seq<Elem>)
    ensures var r := Splice(before, n, after);
            var left := |before| > 0 && !IsOperatorToken(before[|before| - 1]);
            var right := |after| > 0 && !IsOperatorToken(after[0]);
            var at := |before| + (if left then 1 else 0);
            && |r| == at + 1 + (if right then 1 else 0) + |after|
            && r[..|before|] == before
            && (left ==> r[|before|] == MulToken)
            && r[at] == Nd(n)
            && (right ==> r[at + 1] == MulToken)
            && r[|r| - |after|..] == after
  {
  }

  /** A splice adds no `(`: the `*` tokens it may add are not brackets. */
  lemma SpliceCount(before: seq<Elem>, n: Node, after: seq<Elem>)
    ensures Count(Splice(before, n, after), LBracket) == Count(before, LBracket) + Count(after, LBracket)
  {
    var b := if |before| > 0 && !IsOperatorToken(before[|before| - 1]) then before + [MulToken] else before;
    var a := if |after| > 0 && !IsOperatorToken(after[0]) then [MulToken] + after else after;
    assert Splice(before, n, after) == b + [Nd(n)] + a;
    assert Count(b, LBracket) == Count(before, LBracket) by {
      CountAppend(before, [MulToken], LBracket);
    }
    assert Count(a, LBracket) == Count(after, LBracket) by {
      CountAppend([MulToken], after, LBracket);
    }
    CountAppend(b, [Nd(n)], LBracket);
    CountAppend(b + [Nd(n)], a, LBracket);
  }

  /** Replacing a bracketed span by its node removes at least its `(`. */
  lemma SpliceBrackets(s: seq<Elem>, ind: nat, end: nat, n: Node)
    requires ind < end < |s| && IsTokenOf(s[ind], LBracket)
    ensures Count(Splice(s[..ind], n, s[end + 1..]), LBracket) < Count(s, LBracket)
  {
    SpliceCount(s[..ind], n, s[end + 1..]);
    CountSpan(s, ind, end, LBracket);
  }

  /**
   * `parseGroup`: with no `(` it only marks the groups resolved; an
   * unmatched `(` is an error; otherwise the tokens strictly inside the
   * first group are parsed by a fresh parser with the original precedence
   * list.  If that parse fails the list is left as it is; if it succeeds
   * the span, brackets included, is spliced out for the node.
   */
  function Group(st: State, orig: seq<Operator>): (r: Step)
    decreases Count(st.list, LBracket), Flag(st), |st.prec|, |st.list|, 1
    ensures StepNoWorse(r, st)
    ensures r.Continue? ==> r.next.prec == st.prec
  {
    var ind := FirstIndexOf(st.list, LBracket);
    if ind == -1 then Continue(st.(resolved := true))
    else GroupAt(st, orig, ind)
  }

  /** `parseGroup` once the first `(` is known to be at ind. */
  function GroupAt(st: State, orig: seq<Operator>, ind: nat): (r: Step)
    requires ind < |st.list| && IsTokenOf(st.list[ind], LBracket)
    decreases Count(st.list, LBracket), Flag(st), |st.prec|, |st.list|, 0
    ensures StepNoWorse(r, st)
    ensures r.Continue? ==> r.next.prec == st.prec
  {
    var end := MatchingBracket(st.list, ind);
    if end == -1 then Abort(NoMatchingBracket)
    else
      InnerBrackets(st.list, ind, end);
      Resume(st, ind, end, ParseTokens(TokensOf(st.list[ind + 1..end]), orig))
  }

  /** The end of `parseGroup` once the tokens strictly inside the group
      ind..end have been parsed to o. */
  function Resume(st: State, ind: nat, end: nat, o: Outcome): (r: Step)
    requires ind < end < |st.list| && IsTokenOf(st.list[ind], LBracket)
    ensures StepNoWorse(r, st)
    ensures r.Continue? ==> r.next.prec == st.prec
  {
    match o
    case Parsed(n) =>
      SpliceBrackets(st.list, ind, end, n);
      Continue(st.(list := Splice(st.list[..ind], n, st.list[end + 1..])))
    case Failed(_) => Continue(st)
    case Diverges => Diverge
    case Panics => Panic
  }

  /**
   * `parseInfixExpr(k)`: nothing happens unless the groups are resolved and
   * k heads the remaining precedence list.  If k does not occur the head is
   * dropped.  Otherwise a list shorter than three is an error, an operator
   * in the first or last place reads outside the slice (a panic), and any
   * other first occurrence is folded with its neighbours.
   */
  function Infix(st: State, k: Operator): (r: Step)
    ensures StepNoWorse(r, st)
    ensures r.Continue? ==> r.next.resolved == st.resolved
  {
    if |st.prec| == 0 || !st.resolved || st.prec[0] != k then Continue(st)
    else
      var ind := FirstIndexOf(st.list, k);
      if ind == -1 then Continue(st.(prec := st.prec[1..]))
      else if |st.list| < 3 then Abort(InvalidInfixExpression)
      else if ind == 0 || ind == |st.list| - 1 then Panic
      else
        FoldCount(st.list, ind, LBracket);
        Continue(st.(list := Fold(st.list, ind)))
  }

  /** `parseInfixExpr` for `FoldOrder[i..]` in turn, each on the state the
      previous one left, stopping at the first that does not continue. */
  function Folds(st: State, i: nat): (r: Step)
    requires i <= |FoldOrder|
    decreases |FoldOrder| - i
    ensures StepNoWorse(r, st)
  {
    if i == |FoldOrder| then Continue(st)
    else
      match Infix(st, FoldOrder[i])
      case Continue(s) => Folds(s, i + 1)
      case r => r
  }

  /** The remaining folds change nothing while the groups are unresolved
      or the head of the precedence list is none of their operators. */
  lemma {:induction false} FoldsIdle(st: State, i: nat)
    requires i <= |FoldOrder|
    requires |st.prec| == 0 || !st.resolved || st.prec[0] !in FoldOrder[i..]
    decreases |FoldOrder| - i
    ensures Folds(st, i) == Continue(st)
  {
    if i < |FoldOrder| {
      assert FoldOrder[i] in FoldOrder[i..];
      assert FoldOrder[i..] == [FoldOrder[i]] + FoldOrder[i + 1..];
      FoldsIdle(st, i + 1);
    }
  }

  /** One full pass of `parse`: the group step, then the operator folds. */
  function Pass(st: State, orig: seq<Operator>): (r: Step)
    decreases Count(st.list, LBracket), Flag(st), |st.prec|, |st.list|, 2
    ensures StepNoWorse(r, st)
  {
    match Group(st, orig)
    case Continue(s) => Folds(s, 0)
    case g => g
  }

  /**
   * `parse`: a one-element list is returned with a raw token promoted to an
   * Operand; otherwise a pass runs and `parse` recurses.  A sub-pass error
   * makes `parse` return a nil list (with a nil error).  A pass that leaves
   * the state as it was would be repeated for ever.
   */
  function Run(st: State, orig: seq<Operator>): (r: RunResult)
    decreases Count(st.list, LBracket), Flag(st), |st.prec|, |st.list|, 3
    ensures r.Reduced? ==> r.list == [] || (|r.list| == 1 && r.list[0].Nd?)
  {
    if |st.list| == 1 then Reduced([Wrap(st.list[0])])
    else
      match Pass(st, orig)
      case Continue(s) => if s == st then RunDiverges else Run(s, orig)
      case Abort(_) => Reduced([])
      case Panic => RunPanics
      case Diverge => RunDiverges
  }

  /** `Parse` on a parser in state st: a trailing ILLEGAL token is refused
      first; otherwise one node or the generic error. */
  function ParseFrom(toks: seq<Token>, st: State, orig: seq<Operator>): (r: Outcome)
    decreases Count(st.list, LBracket), 3, 0, 0, 0
    ensures |toks| > 0 && toks[|toks| - 1].kind == Illegal ==> r == Failed(InvalidExpression)
    ensures !(|toks| > 0 && toks[|toks| - 1].kind == Illegal) ==> r.Parsed? || r == Failed(CouldNotParseExpression) || r.Diverges? || r.Panics?
  {
    if |toks| > 0 && toks[|toks| - 1].kind == Illegal then Failed(InvalidExpression)
    else Finish(Run(st, orig))
  }

  /** `NewParser(toks, prec).Parse()`. */
  function ParseTokens(toks: seq<Token>, prec: seq<Operator>): Outcome
    decreases Count(ElemsOf(toks), LBracket), 4, 0, 0, 0
  {
    ParseFrom(toks, Init(toks, prec), prec)
  }

  /** A single token that is not ILLEGAL parses to an Operand with its kind
      and value, whatever its category. */
  lemma SingleToken(t: Token, prec: seq<Operator>)
    ensures ParseTokens([t], prec) == if t.kind == Illegal then Failed(InvalidExpression) else Parsed(NewOperand(t.kind, t.value))
  {
    var st := Init([t], prec);
    assert st.list == [Tok(t)];
    assert Run(st, prec) == Reduced([Nd(NewOperand(t.kind, t.value))]);
  }

  /** On a list with one operator token, of kind k, in the middle, with the
      precedence list at the head of the calls still to come, the folds
      drop every operator before k and then fold the three values. */
  lemma {:induction false} FoldsBinary(st: State, i: nat, k: Operator, n: Node)
    requires i < |FoldOrder| && st.resolved && st.prec == FoldOrder[i..] && k in FoldOrder[i..]
    requires OnlyInMiddle(st.list, k) && Fold(st.list, 1) == [Nd(n)]
    decreases |FoldOrder| - i
    ensures Folds(st, i).Continue? && Folds(st, i).next.list == [Nd(n)]
  {
    var head := FoldOrder[i];
    if head == k {
      assert FirstIndexOf(st.list, k) == 1;
      var s := st.(list := [Nd(n)]);
      assert Infix(st, k) == Continue(s);
      assert FoldOrder[i] !in FoldOrder[i + 1..];
      FoldsIdle(s, i + 1);
    } else {
      assert FirstIndexOf(st.list, head) == -1;
      var s := st.(prec := st.prec[1..]);
      assert Infix(st, head) == Continue(s);
      FoldsBinary(s, i + 1, k, n);
    }
  }

  /** `parse` of such a list with the default order: one pass folds it. */
  lemma RunBinary(st: State, k: Operator, n: Node)
    requires st.prec == Bidmas && OnlyInMiddle(st.list, k) && Fold(st.list, 1) == [Nd(n)]
    ensures Run(st, Bidmas) == Reduced([Nd(n)])
  {
    assert FirstIndexOf(st.list, LBracket) == -1;
    var g := st.(resolved := true);
    assert Group(st, Bidmas) == Continue(g);
    FoldsBinary(g, 0, k, n);
    var s := Folds(g, 0).next;
    assert Pass(st, Bidmas) == Continue(s);
    assert Run(s, Bidmas) == Reduced([Nd(n)]);
  }

  /** Two values around one operator parse to that operator's BinaryExpr
      of the two Operands, whichever of the five operators it is. */
  lemma Binary(l: Token, o: Token, r: Token)
    requires IsOperatorKind(o.kind)
    requires l.kind in {Num, Alpha} && r.kind in {Num, Alpha}
    ensures ParseTokens([l, o, r], Bidmas)
         == Parsed(NewBinaryExpr(o.kind, NewOperand(l.kind, l.value), NewOperand(r.kind, r.value)))
  {
    OperatorBetween(l, o, r);
    RunBinary(Init([l, o, r], Bidmas), o.kind, NewBinaryExpr(o.kind, NewOperand(l.kind, l.value), NewOperand(r.kind, r.value)));
  }

  /** An input that is one bracketed group with no bracket inside parses
      to the node its content parses to: the group step splices that node
      in with nothing around it, no `*` is added, and the next call of
      `parse` finds a single value. */
  lemma {:induction false} Bracketed(lp: Token, inner: seq<Token>, rp: Token, n: Node)
    requires lp.kind == LBracket && rp.kind == RBracket
    requires forall i :: 0 <= i < |inner| ==> inner[i].kind != LBracket && inner[i].kind != RBracket
    requires ParseTokens(inner, Bidmas) == Parsed(n)
    ensures ParseTokens([lp] + inner + [rp], Bidmas) == Parsed(n)
  {
    var toks := [lp] + inner + [rp];
    var st := Init(toks, Bidmas);
    var s := st.list;
    var end := |inner| + 1;
    assert s[0] == Tok(lp) && s[end] == Tok(rp);
    assert forall j :: 0 < j < end ==> s[j] == Tok(inner[j - 1]);
    FirstIndexOfIs(s, LBracket, 0);
    FlatGroup(s, 0, end);
    assert s[1..end] == ElemsOf(inner);
    TokensRoundTrip(inner);
    assert Splice(s[..0], n, s[end + 1..]) == [Nd(n)];
    var g := st.(list := [Nd(n)]);
    assert Group(st, Bidmas) == Continue(g);
    FoldsIdle(g, 0);
    assert Pass(st, Bidmas) == Continue(g);
    assert |s| != 1 && g != st;
    assert Run(st, Bidmas) == Run(g, Bidmas) == Reduced([Nd(n)]);
    assert toks[|toks| - 1] == rp;
  }

  /** `( t )` for a NUM or ALPHA token t parses to t's Operand. */
  lemma BracketedSingle(lp: Token, t: Token, rp: Token)
    requires lp.kind == LBracket && rp.kind == RBracket && t.kind in {Num, Alpha}
    ensures ParseTokens([lp, t, rp], Bidmas) == Parsed(NewOperand(t.kind, t.value))
  {
    SingleToken(t, Bidmas);
    Bracketed(lp, [t], rp, NewOperand(t.kind, t.value));
    assert [lp] + [t] + [rp] == [lp, t, rp];
  }

  /** `( l o r )` parses exactly as `l o r` does: to the operator's
      BinaryExpr of the two Operands. */
  lemma BracketedBinary(lp: Token, l: Token, o: Token, r: Token, rp: Token)
    requires lp.kind == LBracket && rp.kind == RBracket
    requires IsOperatorKind(o.kind) && l.kind in {Num, Alpha} && r.kind in {Num, Alpha}
    ensures ParseTokens([lp, l, o, r, rp], Bidmas) == ParseTokens([l, o, r], Bidmas)
    ensures ParseTokens([lp, l, o, r, rp], Bidmas)
         == Parsed(NewBinaryExpr(o.kind, NewOperand(l.kind, l.value), NewOperand(r.kind, r.value)))
  {
    Binary(l, o, r);
    Bracketed(lp, [l, o, r], rp, NewBinaryExpr(o.kind, NewOperand(l.kind, l.value), NewOperand(r.kind, r.value)));
    assert [lp] + [l, o, r] + [rp] == [lp, l, o, r, rp];
  }

  /** How `parse` stops after a sub-pass that did not return a list. */
  function Halt(r: Reply): RunResult
    requires !r.Ok?
  {
    match r
    case Err(_) => Reduced([])
    case Panicked => RunPanics
    case Diverged => RunDiverges
  }

  class Parser {
    /** Never reassigned after `NewParser`. */
    const originalTokens: seq<Token>
    var reducing: seq<Elem>
    const originalPrec: seq<Operator>
    var prec: seq<Operator>
    var resolved: bool

    /** `NewParser`. */
    constructor (tks: seq<Token>, operatorPrecedence: seq<Operator>)
      ensures originalTokens == tks && reducing == ElemsOf(tks)
      ensures originalPrec == operatorPrecedence && prec == operatorPrecedence && !resolved
    {
      var r := TokensToAny(tks);
      originalTokens, reducing := tks, r;
      originalPrec, prec := operatorPrecedence, operatorPrecedence;
      resolved := false;
    }

    function Current(): State
      reads this
    {
      State(reducing, prec, resolved)
    }

    /** `Parse`. */
    method Parse() returns (o: Outcome)
      modifies this
      decreases Count(reducing, LBracket), 3, 0, 0, 0
      ensures o == ParseFrom(originalTokens, old(Current()), originalPrec)
      ensures o.Parsed? ==> reducing == [Nd(o.node)]
    {
      if |originalTokens| > 0 && originalTokens[|originalTokens| - 1].kind == Illegal {
        return Failed(InvalidExpression);
      }
      var resolvedList := Reduce();
      match resolvedList
      case RunPanics => return Panics;
      case RunDiverges => return Diverges;
      case Reduced(l) =>
        if |l| != 1 || !l[0].Nd? {
          return Failed(CouldNotParseExpression);
        }
        return Parsed(l[0].node);
    }

    /** `parse`. */
    method Reduce() returns (rr: RunResult)
      modifies this
      decreases Count(reducing, LBracket), Flag(Current()), |prec|, |reducing|, 3
      ensures rr == Run(old(Current()), originalPrec)
      ensures rr.Reduced? && rr.list != [] ==> reducing == rr.list
    {
      if |reducing| == 1 {
        if reducing[0].Tok? {
          reducing := [Nd(NewOperand(reducing[0].token.kind, reducing[0].token.value))];
        }
        return Reduced(reducing);
      }
      var entry := Current();
      var r := SubPasses();
      if !r.Ok? {
        return Halt(r);
      }
      if Current() == entry {
        return RunDiverges;
      }
      assert Below(Current(), entry);
      rr := Reduce();
    }

    /** The body of `parse` between the length check and the recursive call:
        `parseGroup`, then the operator folds, each result stored in
        `reducingTokens` before the next runs, returning at the first error. */
    method SubPasses() returns (r: Reply)
      modifies this
      decreases Count(reducing, LBracket), Flag(Current()), |prec|, |reducing|, 2
      ensures r.Ok? ==> r.list == reducing
      ensures Apply(r, Current()) == Pass(old(Current()), originalPrec)
    {
      r := ParseGroup();
      if !r.Ok? {
        return;
      }
      reducing := r.list;
      r := FoldPasses();
    }

    /** `parsePow` .. `parseSub` as `parse` calls them, one after the other;
        i is the number of calls already made. */
    method FoldPasses() returns (r: Reply)
      modifies this
      ensures r.Ok? ==> r.list == reducing
      ensures Apply(r, Current()) == Folds(old(Current()), 0)
    {
      ghost var goal := Folds(Current(), 0);
      var i := 0;
      r := FoldStep(i, goal);
      if !r.Ok? {
        return;
      }
      i := i + 1;
      r := FoldStep(i, goal);
      if !r.Ok? {
        return;
      }
      i := i + 1;
      r := FoldStep(i, goal);
      if !r.Ok? {
        return;
      }
      i := i + 1;
      r := FoldStep(i, goal);
      if !r.Ok? {
        return;
      }
      i := i + 1;
      r := FoldStep(i, goal);
    }

    /** The call `parse` makes to `parseInfixExpr(FoldOrder[i])`, with the
        list stored on success; `goal` is what the remaining folds give. */
    method FoldStep(i: nat, ghost goal: Step) returns (r: Reply)
      requires i < |FoldOrder| && goal == Folds(Current(), i)
      modifies this
      ensures r.Ok? ==> r.list == reducing && goal == Folds(Current(), i + 1)
      ensures !r.Ok? ==> goal == Apply(r, Current())
    {
      r := ParseInfixExpr(FoldOrder[i]);
      if r.Ok? {
        reducing := r.list;
      }
    }

    /** `parseGroup`. */
    method ParseGroup() returns (r: Reply)
      modifies this
      decreases Count(reducing, LBracket), Flag(Current()), |prec|, |reducing|, 1
      ensures reducing == old(reducing) && prec == old(prec)
      ensures Apply(r, Current()) == Group(old(Current()), originalPrec)
    {
      var ind := FirstIndexOf(reducing, LBracket);
      if ind == -1 {
        resolved := true;
        return Ok(reducing);
      }
      r := ParseGroupAt(ind);
    }

    /** The rest of `parseGroup` once the first `(` is at ind: match it,
        parse the tokens inside with a fresh parser, splice in the node. */
    method ParseGroupAt(ind: nat) returns (r: Reply)
      requires ind < |reducing| && IsTokenOf(reducing[ind], LBracket)
      decreases Count(reducing, LBracket), Flag(Current()), |prec|, |reducing|, 0
      ensures Apply(r, Current()) == GroupAt(Current(), originalPrec, ind)
    {
      var end := FindMatching(reducing, ind);
      if end == -1 {
        return Err(NoMatchingBracket);
      }
      var tks := AnyToTokens(reducing[ind + 1..end]);
      InnerBrackets(reducing, ind, end);
      var parser := new Parser(tks, originalPrec);
      var parsedGroup := parser.Parse();
      r := ResumeGroup(ind, end, parsedGroup);
    }

    /** How `parseGroup` ends on the inner parser's outcome: a failure
        leaves the list as it was, a node is spliced in. */
    method ResumeGroup(ind: nat, end: nat, parsedGroup: Outcome) returns (r: Reply)
      requires ind < end < |reducing| && IsTokenOf(reducing[ind], LBracket)
      ensures Apply(r, Current()) == Resume(Current(), ind, end, parsedGroup)
    {
      match parsedGroup
      case Failed(_) => return Ok(reducing);
      case Diverges => return Diverged;
      case Panics => return Panicked;
      case Parsed(n) =>
        r := SpliceGroup(ind, end, n);
    }

    /** The splice at the end of `parseGroup`: the values before the group,
        a `*` if that neighbour is not an operator, the node, a `*` if the
        next neighbour is not an operator, the values after the group. */
    method SpliceGroup(ind: nat, end: nat, n: Node) returns (r: Reply)
      requires ind < end < |reducing|
      ensures r == Ok(Splice(reducing[..ind], n, reducing[end + 1..]))
    {
      var before := reducing[..ind];
      if |before| > 0 && !IsOperatorToken(before[|before| - 1]) {
        before := before + [MulToken];
      }
      var after := reducing[end + 1..];
      if |after| > 0 && !IsOperatorToken(after[0]) {
        after := [MulToken] + after;
      }
      return Ok(before + [Nd(n)] + after);
    }

    /** `parseInfixExpr`, called as `parsePow` .. `parseSub`. */
    method ParseInfixExpr(k: Operator) returns (r: Reply)
      modifies this
      ensures reducing == old(reducing) && resolved == old(resolved)
      ensures Apply(r, Current()) == Infix(old(Current()), k)
    {
      if |prec| == 0 {
        return Ok(reducing);
      }
      var curOp := prec[0];
      if !resolved || curOp != k {
        return Ok(reducing);
      }
      var ind := FirstIndexOf(reducing, k);
      if ind == -1 {
        prec := prec[1..];
        return Ok(reducing);
      }
      if |reducing| < 3 {
        return Err(InvalidInfixExpression);
      }
      if ind == 0 || ind == |reducing| - 1 {
        return Panicked;
      }
      return Ok(Fold(reducing, ind));
    }
  }
}
