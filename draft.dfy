/**
 * The first version of the parser, parser.go at the repository root.
 *
 * It reduces the same working list in the same passes as the multi-pass
 * parser, with three differences: its BIDMAS list puts SUB before ADD,
 * `parseGroup` splices a parsed group in without inserting `*`, and `parse`
 * discards every sub-pass error, keeping the list the failing step returned
 * (which is the list it was given) and carrying on.
 */
module Draft {
  import opened Wrappers
  import opened Lexer
  import opened Ast
  import opened Worklist

  /** The draft's default order: POW, MUL, DIV, SUB, ADD. */
  const DraftBidmas: seq<Operator> := [Pow, Mul, Div, Sub, Add]

  /** The list after a group has been parsed to n, without any `*`. */
  function Graft(s: seq<Elem>, ind: nat, end: nat, n: Node): (r: seq<Elem>)
    requires ind < end < |s|
    ensures |r| == |s| - (end - ind)
    ensures r[..ind] == s[..ind] && r[ind] == Nd(n) && r[ind + 1..] == s[end + 1..]
  {
    s[..ind] + [Nd(n)] + s[end + 1..]
  }

  /** Replacing a bracketed span by its node removes at least its `(`. */
  lemma GraftBrackets(s: seq<Elem>, ind: nat, end: nat, n: Node)
    requires ind < end < |s| && IsTokenOf(s[ind], LBracket)
    ensures Count(Graft(s, ind, end, n), LBracket) < Count(s, LBracket)
  {
    CountAppend(s[..ind], [Nd(n)], LBracket);
    CountAppend(s[..ind] + [Nd(n)], s[end + 1..], LBracket);
    CountSpan(s, ind, end, LBracket);
  }

  /**
   * The draft `parseGroup`: with no `(` it marks the groups resolved; an
   * unmatched `(` and a group whose parse fails leave the state as it is
   * (the error is dropped by `parse`); a parsed group is spliced in.
   */
  function Group(st: State, orig: seq<Operator>): (r: Step)
    decreases Count(st.list, LBracket), Flag(st), |st.prec|, |st.list|, 1
    ensures StepNoWorse(r, st)
    ensures r.Continue? ==> r.next.prec == st.prec
    ensures !r.Abort?
  {
    var ind := FirstIndexOf(st.list, LBracket);
    if ind == -1 then Continue(st.(resolved := true))
    else GroupAt(st, orig, ind)
  }

  /** The draft `parseGroup` once the first `(` is known to be at ind. */
  function GroupAt(st: State, orig: seq<Operator>, ind: nat): (r: Step)
    requires ind < |st.list| && IsTokenOf(st.list[ind], LBracket)
    decreases Count(st.list, LBracket), Flag(st), |st.prec|, |st.list|, 0
    ensures StepNoWorse(r, st)
    ensures r.Continue? ==> r.next.prec == st.prec
    ensures !r.Abort?
  {
    var end := MatchingBracket(st.list, ind);
    if end == -1 then Continue(st)
    else
      InnerBrackets(st.list, ind, end);
      Resume(st, ind, end, ParseTokens(TokensOf(st.list[ind + 1..end]), orig))
  }

  /** The end of the draft `parseGroup` once the tokens strictly inside the
      group ind..end have been parsed to o. */
  function Resume(st: State, ind: nat, end: nat, o: Outcome): (r: Step)
    requires ind < end < |st.list| && IsTokenOf(st.list[ind], LBracket)
    ensures StepNoWorse(r, st)
    ensures r.Continue? ==> r.next.prec == st.prec
    ensures !r.Abort?
  {
    match o
    case Parsed(n) =>
      GraftBrackets(st.list, ind, end, n);
      Continue(st.(list := Graft(st.list, ind, end, n)))
    case Failed(_) => Continue(st)
    case Diverges => Diverge
    case Panics => Panic
  }

  /**
   * The draft `parseInfixExpr(k)`: as in the multi-pass parser, except
   * that a list shorter than three is returned unchanged.
   */
  function Infix(st: State, k: Operator): (r: Step)
    ensures StepNoWorse(r, st)
    ensures r.Continue? ==> r.next.resolved == st.resolved
    ensures r.Continue? || r.Panic?
  {
    if |st.prec| == 0 || !st.resolved || st.prec[0] != k then Continue(st)
    else
      var ind := FirstIndexOf(st.list, k);
      if ind == -1 then Continue(st.(prec := st.prec[1..]))
      else if |st.list| < 3 then Continue(st)
      else if ind == 0 || ind == |st.list| - 1 then Panic
      else
        FoldCount(st.list, ind, LBracket);
        Continue(st.(list := Fold(st.list, ind)))
  }

  /** `parseInfixExpr` for `FoldOrder[i..]` in turn, each on the state the
      previous one left, stopping only at a panic. */
  function Folds(st: State, i: nat): (r: Step)
    requires i <= |FoldOrder|
    decreases |FoldOrder| - i
    ensures StepNoWorse(r, st)
  {
    if i == |FoldOrder| then Continue(st)
    else
      match Infix(st, FoldOrder[i])
      case Continue(s) => Folds(s, i + 1)
      case r => r
  }

  /** The remaining folds change nothing while the groups are unresolved
      or the head of the precedence list is none of their operators. */
  lemma {:induction false} FoldsIdle(st: State, i: nat)
    requires i <= |FoldOrder|
    requires |st.prec| == 0 || !st.resolved || st.prec[0] !in FoldOrder[i..]
    decreases |FoldOrder| - i
    ensures Folds(st, i) == Continue(st)
  {
    if i < |FoldOrder| {
      assert FoldOrder[i] in FoldOrder[i..];
      assert FoldOrder[i..] == [FoldOrder[i]] + FoldOrder[i + 1..];
      FoldsIdle(st, i + 1);
    }
  }

  /** The draft folds never report an error: only a panic stops them. */
  lemma {:induction false} FoldsNeverAbort(st: State, i: nat)
    requires i <= |FoldOrder|
    decreases |FoldOrder| - i
    ensures Folds(st, i).Continue? || Folds(st, i).Panic?
  {
    if i < |FoldOrder| {
      match Infix(st, FoldOrder[i])
      case Continue(s) => FoldsNeverAbort(s, i + 1);
      case _ =>
    }
  }

  /** One pass of the draft `parse`: the group step, then the folds. */
  function Pass(st: State, orig: seq<Operator>): (r: Step)
    decreases Count(st.list, LBracket), Flag(st), |st.prec|, |st.list|, 2
    ensures StepNoWorse(r, st)
    ensures !r.Abort?
  {
    match Group(st, orig)
    case Continue(s) =>
      FoldsNeverAbort(s, 0);
      Folds(s, 0)
    case g => g
  }

  /**
   * The draft `parse`: a one-element list is returned with a raw token
   * promoted to an Operand; otherwise a pass runs and `parse` recurses,
   * whatever the pass reported.  A pass that leaves the state as it was
   * would be repeated for ever.
   */
  function Run(st: State, orig: seq<Operator>): (r: RunResult)
    decreases Count(st.list, LBracket), Flag(st), |st.prec|, |st.list|, 3
    ensures r.Reduced? ==> |r.list| == 1 && r.list[0].Nd?
  {
    if |st.list| == 1 then Reduced([Wrap(st.list[0])])
    else
      match Pass(st, orig)
      case Continue(s) => if s == st then RunDiverges else Run(s, orig)
      case Panic => RunPanics
      case Diverge => RunDiverges
  }

  /** The draft `Parse` on a parser in state st. */
  function ParseFrom(toks: seq<Token>, st: State, orig: seq<Operator>): (r: Outcome)
    decreases Count(st.list, LBracket), 4, 0, 0, 0
    ensures |toks| > 0 && toks[|toks| - 1].kind == Illegal ==> r == Failed(InvalidExpression)
    ensures !(|toks| > 0 && toks[|toks| - 1].kind == Illegal) ==> r.Parsed? || r.Diverges? || r.Panics?
  {
    if |toks| > 0 && toks[|toks| - 1].kind == Illegal then Failed(InvalidExpression)
    else Finish(Run(st, orig))
  }

  /** `NewParser(toks, prec).Parse()` of the draft. */
  function ParseTokens(toks: seq<Token>, prec: seq<Operator>): Outcome
    decreases Count(ElemsOf(toks), LBracket), 5, 0, 0, 0
  {
    ParseFrom(toks, Init(toks, prec), prec)
  }

  /** Once the list is one node, the remaining folds keep it. */
  lemma {:induction false} FoldsOnNode(st: State, i: nat, n: Node)
    requires i <= |FoldOrder| && st.list == [Nd(n)]
    decreases |FoldOrder| - i
    ensures Folds(st, i).Continue? && Folds(st, i).next.list == [Nd(n)]
  {
    if i < |FoldOrder| {
      FirstIndexOfIs(st.list, FoldOrder[i], -1);
      assert Infix(st, FoldOrder[i]).Continue?;
      FoldsOnNode(Infix(st, FoldOrder[i]).next, i + 1, n);
    }
  }

  /** A fold call whose operator is not at the head of the precedence list
      does nothing. */
  lemma FoldWait(st: State, i: nat)
    requires i < |FoldOrder| && st.resolved && |st.prec| > 0 && st.prec[0] != FoldOrder[i]
    ensures Folds(st, i) == Folds(st, i + 1)
  {
  }

  /** A fold call whose operator is absent but heads the precedence list
      drops it. */
  lemma FoldDrop(st: State, i: nat)
    requires i < |FoldOrder| && st.resolved && |st.prec| > 0 && st.prec[0] == FoldOrder[i]
    requires FirstIndexOf(st.list, FoldOrder[i]) == -1
    ensures Folds(st, i) == Folds(st.(prec := st.prec[1..]), i + 1)
  {
  }

  /** On a list with one operator token, of kind k, in the middle, the fold
      call for k, with k at the head of the precedence list, folds the three
      values into one node, which the remaining calls keep. */
  lemma FoldHit(st: State, i: nat, k: Operator, n: Node)
    requires i < |FoldOrder| && FoldOrder[i] == k
    requires st.resolved && |st.prec| > 0 && st.prec[0] == k
    requires OnlyInMiddle(st.list, k) && Fold(st.list, 1) == [Nd(n)]
    ensures Folds(st, i).Continue? && Folds(st, i).next.list == [Nd(n)]
  {
    assert FirstIndexOf(st.list, k) == 1;
    var s := st.(list := [Nd(n)]);
    assert Infix(st, k) == Continue(s);
    FoldsOnNode(s, i + 1, n);
  }

  /** On a list whose operator is SUB or ADD, the first three fold calls
      of a pass with the draft order drop POW, MUL and DIV. */
  lemma FoldsDropThree(g: State, k: Operator)
    requires k == Sub || k == Add
    requires g.resolved && g.prec == DraftBidmas && OnlyInMiddle(g.list, k)
    ensures Folds(g, 0) == Folds(g.(prec := DraftBidmas[3..]), 3)
  {
    FoldDrop(g, 0);
    var g1 := g.(prec := g.prec[1..]);
    FoldDrop(g1, 1);
    var g2 := g1.(prec := g1.prec[1..]);
    FoldDrop(g2, 2);
  }

  /** The first pass on such a list for POW, MUL, DIV and SUB: the calls
      before k's drop their absent operators (for SUB, the ADD call finds
      SUB at the head and waits), and the call for k folds. */
  lemma FoldsBinary(g: State, k: Operator, n: Node)
    requires k != Add && g.resolved && g.prec == DraftBidmas
    requires OnlyInMiddle(g.list, k) && Fold(g.list, 1) == [Nd(n)]
    ensures Folds(g, 0).Continue? && Folds(g, 0).next.list == [Nd(n)]
  {
    if k == Pow {
      FoldHit(g, 0, k, n);
    } else if k == Sub {
      FoldsDropThree(g, k);
      var g3 := g.(prec := DraftBidmas[3..]);
      FoldWait(g3, 3);
      FoldHit(g3, 4, k, n);
    } else {
      FoldDrop(g, 0);
      var g1 := g.(prec := g.prec[1..]);
      if k == Mul {
        FoldHit(g1, 1, k, n);
      } else {
        FoldDrop(g1, 1);
        FoldHit(g1.(prec := g1.prec[1..]), 2, k, n);
      }
    }
  }

  /** The first pass on `l + r` drops POW, MUL, DIV and SUB and leaves
      ADD alone at the head: the ADD call comes while SUB still heads the
      list. */
  lemma FoldsBeforeAdd(g: State)
    requires g.resolved && g.prec == DraftBidmas && OnlyInMiddle(g.list, Add)
    ensures Folds(g, 0) == Continue(g.(prec := [Add]))
  {
    FoldsDropThree(g, Add);
    var g3 := g.(prec := DraftBidmas[3..]);
    FoldWait(g3, 3);
    FoldDrop(g3, 4);
    assert g3.prec[1..] == [Add];
  }

  /** The second pass on `l + r` folds at the ADD call. */
  lemma FoldsAdd(h: State, n: Node)
    requires h.resolved && h.prec == [Add] && OnlyInMiddle(h.list, Add) && Fold(h.list, 1) == [Nd(n)]
    ensures Folds(h, 0).Continue? && Folds(h, 0).next.list == [Nd(n)]
  {
    FoldWait(h, 0);
    FoldWait(h, 1);
    FoldWait(h, 2);
    FoldHit(h, 3, Add, n);
  }

  /** The draft `parse` of such a list with the draft order: one pass
      folds it, or two when the operator is ADD. */
  lemma RunBinary(st: State, k: Operator, n: Node)
    requires st.prec == DraftBidmas && OnlyInMiddle(st.list, k) && Fold(st.list, 1) == [Nd(n)]
    ensures Run(st, DraftBidmas) == Reduced([Nd(n)])
  {
    assert FirstIndexOf(st.list, LBracket) == -1;
    var g := st.(resolved := true);
    assert Group(st, DraftBidmas) == Continue(g);
    var h := g;
    if k == Add {
      h := g.(prec := [Add]);
      FoldsBeforeAdd(g);
      assert Pass(st, DraftBidmas) == Continue(h);
      assert Group(h, DraftBidmas) == Continue(h);
      FoldsAdd(h, n);
    } else {
      FoldsBinary(g, k, n);
    }
    var s := Folds(h, 0).next;
    assert Pass(h, DraftBidmas) == Continue(s);
    assert Run(s, DraftBidmas) == Reduced([Nd(n)]);
    assert Run(h, DraftBidmas) == Reduced([Nd(n)]);
  }

  /** Two values around one operator parse to that operator's BinaryExpr
      of the two Operands, whichever of the five operators it is. */
  lemma Binary(l: Token, o: Token, r: Token)
    requires IsOperatorKind(o.kind)
    requires l.kind in {Num, Alpha} && r.kind in {Num, Alpha}
    ensures ParseTokens([l, o, r], DraftBidmas)
         == Parsed(NewBinaryExpr(o.kind, NewOperand(l.kind, l.value), NewOperand(r.kind, r.value)))
  {
    OperatorBetween(l, o, r);
    RunBinary(Init([l, o, r], DraftBidmas), o.kind, NewBinaryExpr(o.kind, NewOperand(l.kind, l.value), NewOperand(r.kind, r.value)));
  }

  /** A single token that is not ILLEGAL parses to an Operand with its kind
      and value, whatever its category. */
  lemma SingleToken(t: Token, prec: seq<Operator>)
    ensures ParseTokens([t], prec) == if t.kind == Illegal then Failed(InvalidExpression) else Parsed(NewOperand(t.kind, t.value))
  {
    var st := Init([t], prec);
    assert st.list == [Tok(t)];
    assert Run(st, prec) == Reduced([Nd(NewOperand(t.kind, t.value))]);
  }

  /** The draft never reports CouldNotParseExpression: every error other
      than a trailing ILLEGAL token is swallowed by `parse`. */
  lemma NeverCouldNotParse(toks: seq<Token>, prec: seq<Operator>)
    ensures ParseTokens(toks, prec) != Failed(CouldNotParseExpression)
    ensures ParseTokens(toks, prec).Failed? <==> |toks| > 0 && toks[|toks| - 1].kind == Illegal
  {
  }

  /** The draft parser struct. */
  class DraftParser {
    /** Never reassigned after `NewParser`. */
    const originalTokens: seq<Token>
    var reducing: seq<Elem>
    const originalPrec: seq<Operator>
    var prec: seq<Operator>
    var resolved: bool

    /** `NewParser`. */
    constructor (tks: seq<Token>, operatorPrecedence: seq<Operator>)
      ensures originalTokens == tks && reducing == ElemsOf(tks)
      ensures originalPrec == operatorPrecedence && prec == operatorPrecedence && !resolved
    {
      var r := TokensToAny(tks);
      originalTokens, reducing := tks, r;
      originalPrec, prec := operatorPrecedence, operatorPrecedence;
      resolved := false;
    }

    function Current(): State
      reads this
    {
      State(reducing, prec, resolved)
    }

    /** `Parse`. */
    method Parse() returns (o: Outcome)
      modifies this
      decreases Count(reducing, LBracket), 4, 0, 0, 0
      ensures o == ParseFrom(originalTokens, old(Current()), originalPrec)
      ensures o.Parsed? ==> reducing == [Nd(o.node)]
    {
      if |originalTokens| > 0 && originalTokens[|originalTokens| - 1].kind == Illegal {
        return Failed(InvalidExpression);
      }
      var resolvedList := Reduce();
      match resolvedList
      case RunPanics => return Panics;
      case RunDiverges => return Diverges;
      case Reduced(l) =>
        if |l| != 1 || !l[0].Nd? {
          return Failed(CouldNotParseExpression);
        }
        return Parsed(l[0].node);
    }

    /** `parse`. */
    method Reduce() returns (rr: RunResult)
      modifies this
      decreases Count(reducing, LBracket), Flag(Current()), |prec|, |reducing|, 3
      ensures rr == Run(old(Current()), originalPrec)
      ensures rr.Reduced? ==> reducing == rr.list
    {
      if |reducing| == 1 {
        if reducing[0].Tok? {
          reducing := [Nd(NewOperand(reducing[0].token.kind, reducing[0].token.value))];
        }
        return Reduced(reducing);
      }
      var entry := Current();
      var r := SubPasses();
      if r.Panicked? {
        return RunPanics;
      }
      if r.Diverged? {
        return RunDiverges;
      }
      if Current() == entry {
        return RunDiverges;
      }
      assert Below(Current(), entry);
      rr := Reduce();
    }

    /** The body of `parse` between the length check and the recursive call:
        each sub-pass's list is stored, and its error dropped. */
    method SubPasses() returns (r: Reply)
      modifies this
      decreases Count(reducing, LBracket), Flag(Current()), |prec|, |reducing|, 2
      ensures r.Ok? ==> r.list == reducing
      ensures Apply(r, Current()) == Pass(old(Current()), originalPrec)
    {
      r := ParseGroup();
      if !r.Ok? {
        return;
      }
      reducing := r.list;
      r := FoldPasses();
    }

    /** `parsePow` .. `parseSub` as `parse` calls them, one after the other;
        i is the number of calls already made. */
    method FoldPasses() returns (r: Reply)
      modifies this
      ensures r.Ok? ==> r.list == reducing
      ensures Apply(r, Current()) == Folds(old(Current()), 0)
    {
      ghost var goal := Folds(Current(), 0);
      var i := 0;
      r := FoldStep(i, goal);
      if !r.Ok? {
        return;
      }
      i := i + 1;
      r := FoldStep(i, goal);
      if !r.Ok? {
        return;
      }
      i := i + 1;
      r := FoldStep(i, goal);
      if !r.Ok? {
        return;
      }
      i := i + 1;
      r := FoldStep(i, goal);
      if !r.Ok? {
        return;
      }
      i := i + 1;
      r := FoldStep(i, goal);
    }

    /** The call `parse` makes to `parseInfixExpr(FoldOrder[i])`, with the
        list stored; `goal` is what the remaining folds give. */
    method FoldStep(i: nat, ghost goal: Step) returns (r: Reply)
      requires i < |FoldOrder| && goal == Folds(Current(), i)
      modifies this
      ensures r.Ok? ==> r.list == reducing && goal == Folds(Current(), i + 1)
      ensures !r.Ok? ==> goal == Apply(r, Current())
    {
      r := ParseInfixExpr(FoldOrder[i]);
      if r.Ok? {
        reducing := r.list;
      }
    }

    /** `parseGroup`. */
    method ParseGroup() returns (r: Reply)
      modifies this
      decreases Count(reducing, LBracket), Flag(Current()), |prec|, |reducing|, 1
      ensures reducing == old(reducing) && prec == old(prec)
      ensures Apply(r, Current()) == Group(old(Current()), originalPrec)
    {
      var ind := FirstIndexOf(reducing, LBracket);
      if ind == -1 {
        resolved := true;
        return Ok(reducing);
      }
      r := ParseGroupAt(ind);
    }

    /** The rest of `parseGroup` once the first `(` is at ind. */
    method ParseGroupAt(ind: nat) returns (r: Reply)
      requires ind < |reducing| && IsTokenOf(reducing[ind], LBracket)
      decreases Count(reducing, LBracket), Flag(Current()), |prec|, |reducing|, 0
      ensures Apply(r, Current()) == GroupAt(Current(), originalPrec, ind)
    {
      var end := FindMatching(reducing, ind);
      if end == -1 {
        // Go returns the list with ErrNoMatchingBracket, and `parse` drops the error.
        return Ok(reducing);
      }
      var tks := AnyToTokens(reducing[ind + 1..end]);
      InnerBrackets(reducing, ind, end);
      var parser := new DraftParser(tks, originalPrec);
      var parsedGroup := parser.Parse();
      r := ResumeGroup(ind, end, parsedGroup);
    }

    /** How the draft `parseGroup` ends on the inner parser's outcome: a
        failure leaves the list as it was, a node replaces the group. */
    method ResumeGroup(ind: nat, end: nat, parsedGroup: Outcome) returns (r: Reply)
      requires ind < end < |reducing| && IsTokenOf(reducing[ind], LBracket)
      ensures Apply(r, Current()) == Resume(Current(), ind, end, parsedGroup)
    {
      match parsedGroup
      case Failed(_) => return Ok(reducing);
      case Diverges => return Diverged;
      case Panics => return Panicked;
      case Parsed(n) =>
        return Ok(reducing[..ind] + [Nd(n)] + reducing[end + 1..]);
    }

    /** `parseInfixExpr`, called as `parsePow` .. `parseSub`. */
    method ParseInfixExpr(k: Operator) returns (r: Reply)
      modifies this
      ensures reducing == old(reducing) && resolved == old(resolved)
      ensures Apply(r, Current()) == Infix(old(Current()), k)
    {
      if |prec| == 0 {
        return Ok(reducing);
      }
      var curOp := prec[0];
      if !resolved || curOp != k {
        return Ok(reducing);
      }
      var ind := FirstIndexOf(reducing, k);
      if ind == -1 {
        prec := prec[1..];
        return Ok(reducing);
      }
      if |reducing| < 3 {
        // Go returns the list with ErrInvalidInfixExpression, and `parse` drops the error.
        return Ok(reducing);
      }
      if ind == 0 || ind == |reducing| - 1 {
        return Panicked;
      }
      return Ok(Fold(reducing, ind));
    }
  }
}
