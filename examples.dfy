/**
 * Worked parses of concrete token lists, the cases the repository's parser
 * tests exercise, plus the inputs on which the two parser versions part
 * ways.  Each parse is followed pass by pass: a lemma per pass states the
 * state the pass leaves, and the top lemma chains the passes.
 */
module Examples {
  import opened Lexer
  import opened Ast
  import opened Wrappers
  import opened Worklist
  import Multipass
  import Draft

  const N2 := Token(Num, "2", ValueCat)
  const N3 := Token(Num, "3", ValueCat)
  const N4 := Token(Num, "4", ValueCat)
  const N6 := Token(Num, "6", ValueCat)
  const N7 := Token(Num, "7", ValueCat)
  const N8 := Token(Num, "8", ValueCat)
  const N12 := Token(Num, "12", ValueCat)
  const A := Token(Alpha, "a", ValueCat)
  const B := Token(Alpha, "b", ValueCat)
  const C := Token(Alpha, "c", ValueCat)
  const P := Token(Alpha, "p", ValueCat)
  const Q := Token(Alpha, "q", ValueCat)
  const Plus := Token(Add, "+", OperatorCat)
  const Minus := Token(Sub, "-", OperatorCat)
  const Star := Token(Mul, "*", OperatorCat)
  const Caret := Token(Pow, "^", OperatorCat)
  const Slash := Token(Div, "/", OperatorCat)
  const Open := Token(LBracket, "(", ParenCat)
  const Close := Token(RBracket, ")", ParenCat)

  /* Unfolding steps of the multi-pass parser. */

  lemma PassStep(st: State, g: State)
    requires Multipass.Group(st, Multipass.Bidmas) == Continue(g)
    ensures Multipass.Pass(st, Multipass.Bidmas) == Multipass.Folds(g, 0)
  {
  }

  lemma FoldStep(st: State, i: nat, s: State)
    requires i < |FoldOrder| && Multipass.Infix(st, FoldOrder[i]) == Continue(s)
    ensures Multipass.Folds(st, i) == Multipass.Folds(s, i + 1)
  {
  }

  /** A whole pass, from its group step and its five fold steps. */
  lemma PassSteps(st: State, g: State, s1: State, s2: State, s3: State, s4: State, s5: State)
    requires Multipass.Group(st, Multipass.Bidmas) == Continue(g)
    requires Multipass.Infix(g, Pow) == Continue(s1) && Multipass.Infix(s1, Mul) == Continue(s2)
    requires Multipass.Infix(s2, Div) == Continue(s3) && Multipass.Infix(s3, Add) == Continue(s4)
    requires Multipass.Infix(s4, Sub) == Continue(s5)
    ensures Multipass.Pass(st, Multipass.Bidmas) == Continue(s5)
  {
    PassStep(st, g);
    FoldStep(g, 0, s1);
    FoldStep(s1, 1, s2);
    FoldStep(s2, 2, s3);
    FoldStep(s3, 3, s4);
    FoldStep(s4, 4, s5);
  }

  lemma RunStep(st: State, s: State)
    requires |st.list| != 1 && Multipass.Pass(st, Multipass.Bidmas) == Continue(s) && s != st
    ensures Multipass.Run(st, Multipass.Bidmas) == Multipass.Run(s, Multipass.Bidmas)
  {
  }

  lemma RunDone(st: State, n: Node)
    requires st.list == [Nd(n)]
    ensures Multipass.Run(st, Multipass.Bidmas) == Reduced([Nd(n)])
  {
  }

  lemma RunStuck(st: State)
    requires |st.list| != 1 && Multipass.Pass(st, Multipass.Bidmas) == Continue(st)
    ensures Multipass.Run(st, Multipass.Bidmas) == RunDiverges
  {
  }

  lemma RunAborts(st: State, e: ParseError)
    requires |st.list| != 1 && Multipass.Pass(st, Multipass.Bidmas) == Abort(e)
    ensures Multipass.Run(st, Multipass.Bidmas) == Reduced([])
  {
  }

  /** A group whose inner tokens parse to n is spliced out for n. */
  lemma GroupParsed(st: State, ind: nat, end: nat, n: Node)
    requires ind < end < |st.list|
    requires FirstIndexOf(st.list, LBracket) == ind && MatchingBracket(st.list, ind) == end
    requires Multipass.ParseTokens(TokensOf(st.list[ind + 1..end]), Multipass.Bidmas) == Parsed(n)
    ensures Multipass.Group(st, Multipass.Bidmas)
      == Continue(st.(list := Multipass.Splice(st.list[..ind], n, st.list[end + 1..])))
  {
    GroupAtParsed(st, ind, end, n);
  }

  lemma GroupAtParsed(st: State, ind: nat, end: nat, n: Node)
    requires ind < end < |st.list| && IsTokenOf(st.list[ind], LBracket) && MatchingBracket(st.list, ind) == end
    requires Multipass.ParseTokens(TokensOf(st.list[ind + 1..end]), Multipass.Bidmas) == Parsed(n)
    ensures Multipass.GroupAt(st, Multipass.Bidmas, ind)
      == Continue(st.(list := Multipass.Splice(st.list[..ind], n, st.list[end + 1..])))
  {
  }

  /** What `Parse` returns once the run from the initial state is known. */
  lemma ParsesVia(toks: seq<Token>, st: State, r: RunResult)
    requires Init(toks, Multipass.Bidmas) == st && !(|toks| > 0 && toks[|toks| - 1].kind == Illegal)
    requires Multipass.Run(st, Multipass.Bidmas) == r
    ensures Multipass.ParseTokens(toks, Multipass.Bidmas) == Finish(r)
  {
  }

  /* Unfolding steps of the draft parser. */

  lemma DraftPassStep(st: State, g: State)
    requires Draft.Group(st, Draft.DraftBidmas) == Continue(g)
    ensures Draft.Pass(st, Draft.DraftBidmas) == Draft.Folds(g, 0)
  {
  }

  lemma DraftFoldStep(st: State, i: nat, s: State)
    requires i < |FoldOrder| && Draft.Infix(st, FoldOrder[i]) == Continue(s)
    ensures Draft.Folds(st, i) == Draft.Folds(s, i + 1)
  {
  }

  /** A whole draft pass, from its group step and its five fold steps. */
  lemma DraftPassSteps(st: State, g: State, s1: State, s2: State, s3: State, s4: State, s5: State)
    requires Draft.Group(st, Draft.DraftBidmas) == Continue(g)
    requires Draft.Infix(g, Pow) == Continue(s1) && Draft.Infix(s1, Mul) == Continue(s2)
    requires Draft.Infix(s2, Div) == Continue(s3) && Draft.Infix(s3, Add) == Continue(s4)
    requires Draft.Infix(s4, Sub) == Continue(s5)
    ensures Draft.Pass(st, Draft.DraftBidmas) == Continue(s5)
  {
    DraftPassStep(st, g);
    DraftFoldStep(g, 0, s1);
    DraftFoldStep(s1, 1, s2);
    DraftFoldStep(s2, 2, s3);
    DraftFoldStep(s3, 3, s4);
    DraftFoldStep(s4, 4, s5);
  }

  lemma DraftRunStep(st: State, s: State)
    requires |st.list| != 1 && Draft.Pass(st, Draft.DraftBidmas) == Continue(s) && s != st
    ensures Draft.Run(st, Draft.DraftBidmas) == Draft.Run(s, Draft.DraftBidmas)
  {
  }

  lemma DraftParsesVia(toks: seq<Token>, st: State, r: RunResult)
    requires Init(toks, Draft.DraftBidmas) == st && !(|toks| > 0 && toks[|toks| - 1].kind == Illegal)
    requires Draft.Run(st, Draft.DraftBidmas) == r
    ensures Draft.ParseTokens(toks, Draft.DraftBidmas) == Finish(r)
  {
  }

  /* 3 + 6 * 7: MUL is folded in the first pass, ADD in the second. */

  const AddMulToks := [N3, Plus, N6, Star, N7]
  const Product67 := BinaryExpr(Mul, Some(Operand(N6)), Some(Operand(N7)))
  const AddMulTree := BinaryExpr(Add, Some(Operand(N3)), Some(Product67))
  const AddMul0 := State([Tok(N3), Tok(Plus), Tok(N6), Tok(Star), Tok(N7)], Multipass.Bidmas, false)
  const AddMulG := AddMul0.(resolved := true)
  const AddMul1 := State([Tok(N3), Tok(Plus), Nd(Product67)], [Mul, Div, Add, Sub], true)
  const AddMul2 := State([Nd(AddMulTree)], [Add, Sub], true)

  lemma AddMulGroup1()
    ensures Multipass.Group(AddMul0, Multipass.Bidmas) == Continue(AddMulG)
  {
    FirstIndexOfIs(AddMul0.list, LBracket, -1);
  }

  lemma AddMulDropPow1()
    ensures Multipass.Infix(AddMulG, Pow) == Continue(AddMulG.(prec := [Mul, Div, Add, Sub]))
  {
    FirstIndexOfIs(AddMul0.list, Pow, -1);
  }

  lemma AddMulFoldMul1()
    ensures Multipass.Infix(AddMulG.(prec := [Mul, Div, Add, Sub]), Mul) == Continue(AddMul1)
  {
    FirstIndexOfIs(AddMul0.list, Mul, 3);
  }

  lemma AddMulPass1()
    ensures Multipass.Pass(AddMul0, Multipass.Bidmas) == Continue(AddMul1)
  {
    AddMulGroup1();
    AddMulDropPow1();
    AddMulFoldMul1();
    PassSteps(AddMul0, AddMulG, AddMulG.(prec := [Mul, Div, Add, Sub]), AddMul1, AddMul1, AddMul1, AddMul1);
  }

  lemma AddMulGroup2()
    ensures Multipass.Group(AddMul1, Multipass.Bidmas) == Continue(AddMul1)
  {
    FirstIndexOfIs(AddMul1.list, LBracket, -1);
  }

  lemma AddMulDropMul2()
    ensures Multipass.Infix(AddMul1, Mul) == Continue(AddMul1.(prec := [Div, Add, Sub]))
  {
    FirstIndexOfIs(AddMul1.list, Mul, -1);
  }

  lemma AddMulDropDiv2()
    ensures Multipass.Infix(AddMul1.(prec := [Div, Add, Sub]), Div) == Continue(AddMul1.(prec := [Add, Sub]))
  {
    FirstIndexOfIs(AddMul1.list, Div, -1);
  }

  lemma AddMulFoldAdd2()
    ensures Multipass.Infix(AddMul1.(prec := [Add, Sub]), Add) == Continue(AddMul2)
  {
    FirstIndexOfIs(AddMul1.list, Add, 1);
  }

  lemma AddMulPass2()
    ensures Multipass.Pass(AddMul1, Multipass.Bidmas) == Continue(AddMul2)
  {
    AddMulGroup2();
    AddMulDropMul2();
    AddMulDropDiv2();
    AddMulFoldAdd2();
    PassSteps(AddMul1, AddMul1, AddMul1, AddMul1.(prec := [Div, Add, Sub]), AddMul1.(prec := [Add, Sub]), AddMul2, AddMul2);
  }

  lemma AddMulInit()
    ensures Init(AddMulToks, Multipass.Bidmas) == AddMul0
  {
  }

  lemma AddMulRun()
    ensures Multipass.Run(AddMul0, Multipass.Bidmas) == Reduced([Nd(AddMulTree)])
  {
    AddMulPass1();
    AddMulPass2();
    RunStep(AddMul0, AddMul1);
    RunStep(AddMul1, AddMul2);
    RunDone(AddMul2, AddMulTree);
  }

  /** `3 + 6 * 7` parses to ADD(3, MUL(6, 7)). */
  lemma AddMul()
    ensures Multipass.ParseTokens(AddMulToks, Multipass.Bidmas) == Parsed(AddMulTree)
  {
    AddMulInit();
    AddMulRun();
    ParsesVia(AddMulToks, AddMul0, Reduced([Nd(AddMulTree)]));
  }

  /* 2 + 4 * 6 - 3: MUL, then ADD, then SUB, one pass each. */

  const LeftNestToks := [N2, Plus, N4, Star, N6, Minus, N3]
  const Product46 := BinaryExpr(Mul, Some(Operand(N4)), Some(Operand(N6)))
  const Sum2P := BinaryExpr(Add, Some(Operand(N2)), Some(Product46))
  const LeftNestTree := BinaryExpr(Sub, Some(Sum2P), Some(Operand(N3)))
  const LeftNest0 := State([Tok(N2), Tok(Plus), Tok(N4), Tok(Star), Tok(N6), Tok(Minus), Tok(N3)], Multipass.Bidmas, false)
  const LeftNestG := LeftNest0.(resolved := true)
  const LeftNest1 := State([Tok(N2), Tok(Plus), Nd(Product46), Tok(Minus), Tok(N3)], [Mul, Div, Add, Sub], true)
  const LeftNest2 := State([Nd(Sum2P), Tok(Minus), Tok(N3)], [Add, Sub], true)
  const LeftNest3 := State([Nd(LeftNestTree)], [Sub], true)

  lemma LeftNestGroup1()
    ensures Multipass.Group(LeftNest0, Multipass.Bidmas) == Continue(LeftNestG)
  {
    FirstIndexOfIs(LeftNest0.list, LBracket, -1);
  }

  lemma LeftNestDropPow1()
    ensures Multipass.Infix(LeftNestG, Pow) == Continue(LeftNestG.(prec := [Mul, Div, Add, Sub]))
  {
    FirstIndexOfIs(LeftNest0.list, Pow, -1);
  }

  lemma LeftNestFoldMul1()
    ensures Multipass.Infix(LeftNestG.(prec := [Mul, Div, Add, Sub]), Mul) == Continue(LeftNest1)
  {
    FirstIndexOfIs(LeftNest0.list, Mul, 3);
  }

  lemma LeftNestPass1()
    ensures Multipass.Pass(LeftNest0, Multipass.Bidmas) == Continue(LeftNest1)
  {
    LeftNestGroup1();
    LeftNestDropPow1();
    LeftNestFoldMul1();
    PassSteps(LeftNest0, LeftNestG, LeftNestG.(prec := [Mul, Div, Add, Sub]), LeftNest1, LeftNest1, LeftNest1, LeftNest1);
  }

  lemma LeftNestGroup2()
    ensures Multipass.Group(LeftNest1, Multipass.Bidmas) == Continue(LeftNest1)
  {
    FirstIndexOfIs(LeftNest1.list, LBracket, -1);
  }

  lemma LeftNestDropMul2()
    ensures Multipass.Infix(LeftNest1, Mul) == Continue(LeftNest1.(prec := [Div, Add, Sub]))
  {
    FirstIndexOfIs(LeftNest1.list, Mul, -1);
  }

  lemma LeftNestDropDiv2()
    ensures Multipass.Infix(LeftNest1.(prec := [Div, Add, Sub]), Div) == Continue(LeftNest1.(prec := [Add, Sub]))
  {
    FirstIndexOfIs(LeftNest1.list, Div, -1);
  }

  lemma LeftNestFoldAdd2()
    ensures Multipass.Infix(LeftNest1.(prec := [Add, Sub]), Add) == Continue(LeftNest2)
  {
    FirstIndexOfIs(LeftNest1.list, Add, 1);
  }

  lemma LeftNestPass2()
    ensures Multipass.Pass(LeftNest1, Multipass.Bidmas) == Continue(LeftNest2)
  {
    LeftNestGroup2();
    LeftNestDropMul2();
    LeftNestDropDiv2();
    LeftNestFoldAdd2();
    PassSteps(LeftNest1, LeftNest1, LeftNest1, LeftNest1.(prec := [Div, Add, Sub]), LeftNest1.(prec := [Add, Sub]),
      LeftNest2, LeftNest2);
  }

  lemma LeftNestGroup3()
    ensures Multipass.Group(LeftNest2, Multipass.Bidmas) == Continue(LeftNest2)
  {
    FirstIndexOfIs(LeftNest2.list, LBracket, -1);
  }

  lemma LeftNestDropAdd3()
    ensures Multipass.Infix(LeftNest2, Add) == Continue(LeftNest2.(prec := [Sub]))
  {
    FirstIndexOfIs(LeftNest2.list, Add, -1);
  }

  lemma LeftNestFoldSub3()
    ensures Multipass.Infix(LeftNest2.(prec := [Sub]), Sub) == Continue(LeftNest3)
  {
    FirstIndexOfIs(LeftNest2.list, Sub, 1);
  }

  lemma LeftNestPass3()
    ensures Multipass.Pass(LeftNest2, Multipass.Bidmas) == Continue(LeftNest3)
  {
    LeftNestGroup3();
    LeftNestDropAdd3();
    LeftNestFoldSub3();
    PassSteps(LeftNest2, LeftNest2, LeftNest2, LeftNest2, LeftNest2, LeftNest2.(prec := [Sub]), LeftNest3);
  }

  lemma LeftNestInit()
    ensures Init(LeftNestToks, Multipass.Bidmas) == LeftNest0
  {
  }

  lemma LeftNestRun()
    ensures Multipass.Run(LeftNest0, Multipass.Bidmas) == Reduced([Nd(LeftNestTree)])
  {
    LeftNestPass1();
    LeftNestPass2();
    LeftNestPass3();
    RunStep(LeftNest0, LeftNest1);
    RunStep(LeftNest1, LeftNest2);
    RunStep(LeftNest2, LeftNest3);
    RunDone(LeftNest3, LeftNestTree);
  }

  /** `2 + 4 * 6 - 3` parses to SUB(ADD(2, MUL(4, 6)), 3). */
  lemma LeftNest()
    ensures Multipass.ParseTokens(LeftNestToks, Multipass.Bidmas) == Parsed(LeftNestTree)
  {
    LeftNestInit();
    LeftNestRun();
    ParsesVia(LeftNestToks, LeftNest0, Reduced([Nd(LeftNestTree)]));
  }

  /* 3 ( 2 + 4 ) and 3 * ( 2 + 4 ): the group is parsed on its own, then
     spliced in, with a `*` added in the first case only. */

  const InnerToks := [N2, Plus, N4]
  const Sum24 := BinaryExpr(Add, Some(Operand(N2)), Some(Operand(N4)))
  const Inner0 := State([Tok(N2), Tok(Plus), Tok(N4)], Multipass.Bidmas, false)
  const InnerG := Inner0.(resolved := true)
  const Inner1 := State([Nd(Sum24)], [Add, Sub], true)

  lemma InnerGroup()
    ensures Multipass.Group(Inner0, Multipass.Bidmas) == Continue(InnerG)
  {
    FirstIndexOfIs(Inner0.list, LBracket, -1);
  }

  lemma InnerDropPow()
    ensures Multipass.Infix(InnerG, Pow) == Continue(InnerG.(prec := [Mul, Div, Add, Sub]))
  {
    FirstIndexOfIs(Inner0.list, Pow, -1);
  }

  lemma InnerDropMul()
    ensures Multipass.Infix(InnerG.(prec := [Mul, Div, Add, Sub]), Mul) == Continue(InnerG.(prec := [Div, Add, Sub]))
  {
    FirstIndexOfIs(Inner0.list, Mul, -1);
  }

  lemma InnerDropDiv()
    ensures Multipass.Infix(InnerG.(prec := [Div, Add, Sub]), Div) == Continue(InnerG.(prec := [Add, Sub]))
  {
    FirstIndexOfIs(Inner0.list, Div, -1);
  }

  lemma InnerFoldAdd()
    ensures Multipass.Infix(InnerG.(prec := [Add, Sub]), Add) == Continue(Inner1)
  {
    FirstIndexOfIs(Inner0.list, Add, 1);
  }

  lemma InnerPass()
    ensures Multipass.Pass(Inner0, Multipass.Bidmas) == Continue(Inner1)
  {
    InnerGroup();
    InnerDropPow();
    InnerDropMul();
    InnerDropDiv();
    InnerFoldAdd();
    PassSteps(Inner0, InnerG, InnerG.(prec := [Mul, Div, Add, Sub]), InnerG.(prec := [Div, Add, Sub]),
      InnerG.(prec := [Add, Sub]), Inner1, Inner1);
  }

  lemma InnerInit()
    ensures Init(InnerToks, Multipass.Bidmas) == Inner0
  {
  }

  lemma InnerRun()
    ensures Multipass.Run(Inner0, Multipass.Bidmas) == Reduced([Nd(Sum24)])
  {
    InnerPass();
    RunStep(Inner0, Inner1);
    RunDone(Inner1, Sum24);
  }

  /** `2 + 4` parses to ADD(2, 4). */
  lemma InnerParse()
    ensures Multipass.ParseTokens(InnerToks, Multipass.Bidmas) == Parsed(Sum24)
  {
    InnerInit();
    InnerRun();
    ParsesVia(InnerToks, Inner0, Reduced([Nd(Sum24)]));
  }

  const GroupedToks := [N3, Open, N2, Plus, N4, Close]
  const StarredToks := [N3, Star, Open, N2, Plus, N4, Close]
  const Grouped0 := State([Tok(N3), Tok(Open), Tok(N2), Tok(Plus), Tok(N4), Tok(Close)], Multipass.Bidmas, false)
  const Starred0 := State([Tok(N3), Tok(Star), Tok(Open), Tok(N2), Tok(Plus), Tok(N4), Tok(Close)], Multipass.Bidmas, false)
  const Joined := State([Tok(N3), Tok(Star), Nd(Sum24)], Multipass.Bidmas, false)
  const JoinedG := Joined.(resolved := true)
  const ProductTree := BinaryExpr(Mul, Some(Operand(N3)), Some(Sum24))
  const Joined1 := State([Nd(ProductTree)], [Mul, Div, Add, Sub], true)

  /** The group of `2 + 4` spans the given positions of s. */
  lemma InnerGroupAt(s: seq<Elem>, ind: nat)
    requires ind + 4 < |s| && s[ind] == Tok(Open) && s[ind + 4] == Tok(Close)
    requires s[ind + 1..ind + 4] == [Tok(N2), Tok(Plus), Tok(N4)]
    ensures MatchingBracket(s, ind) == ind + 4
  {
    forall j | ind < j < ind + 4
      ensures !IsTokenOf(s[j], LBracket) && !IsTokenOf(s[j], RBracket)
    {
      assert s[j] == s[ind + 1..ind + 4][j - ind - 1];
    }
    FlatGroup(s, ind, ind + 4);
  }

  lemma InnerTokens()
    ensures TokensOf([Tok(N2), Tok(Plus), Tok(N4)]) == InnerToks
  {
    assert ElemsOf(InnerToks) == [Tok(N2), Tok(Plus), Tok(N4)];
    TokensRoundTrip(InnerToks);
  }

  lemma GroupedMatch()
    ensures FirstIndexOf(Grouped0.list, LBracket) == 1
    ensures MatchingBracket(Grouped0.list, 1) == 5
    ensures TokensOf(Grouped0.list[2..5]) == InnerToks
  {
    var s := Grouped0.list;
    FirstIndexOfIs(s, LBracket, 1);
    assert s[2..5] == [Tok(N2), Tok(Plus), Tok(N4)];
    InnerGroupAt(s, 1);
    InnerTokens();
  }

  lemma GroupedGroup()
    ensures Multipass.Group(Grouped0, Multipass.Bidmas) == Continue(Joined)
  {
    var s := Grouped0.list;
    GroupedMatch();
    InnerParse();
    GroupParsed(Grouped0, 1, 5, Sum24);
    assert Multipass.Splice(s[..1], Sum24, s[6..]) == Joined.list;
  }

  lemma StarredMatch()
    ensures FirstIndexOf(Starred0.list, LBracket) == 2
    ensures MatchingBracket(Starred0.list, 2) == 6
    ensures TokensOf(Starred0.list[3..6]) == InnerToks
  {
    var s := Starred0.list;
    FirstIndexOfIs(s, LBracket, 2);
    assert s[3] == Tok(N2) && s[4] == Tok(Plus) && s[5] == Tok(N4);
    assert s[3..6] == [Tok(N2), Tok(Plus), Tok(N4)];
    InnerGroupAt(s, 2);
    InnerTokens();
  }

  lemma StarredGroup()
    ensures Multipass.Group(Starred0, Multipass.Bidmas) == Continue(Joined)
  {
    var s := Starred0.list;
    StarredMatch();
    InnerParse();
    GroupParsed(Starred0, 2, 6, Sum24);
    assert Multipass.Splice(s[..2], Sum24, s[7..]) == Joined.list;
  }

  lemma JoinedGroup()
    ensures Multipass.Group(Joined, Multipass.Bidmas) == Continue(JoinedG)
  {
    FirstIndexOfIs(Joined.list, LBracket, -1);
  }

  lemma JoinedDropPow()
    ensures Multipass.Infix(JoinedG, Pow) == Continue(JoinedG.(prec := [Mul, Div, Add, Sub]))
  {
    FirstIndexOfIs(Joined.list, Pow, -1);
  }

  lemma JoinedFoldMul()
    ensures Multipass.Infix(JoinedG.(prec := [Mul, Div, Add, Sub]), Mul) == Continue(Joined1)
  {
    FirstIndexOfIs(Joined.list, Mul, 1);
  }

  lemma JoinedPass()
    ensures Multipass.Pass(Joined, Multipass.Bidmas) == Continue(Joined1)
  {
    JoinedGroup();
    JoinedDropPow();
    JoinedFoldMul();
    PassSteps(Joined, JoinedG, JoinedG.(prec := [Mul, Div, Add, Sub]), Joined1, Joined1, Joined1, Joined1);
  }

  lemma GroupedPass()
    ensures Multipass.Pass(Grouped0, Multipass.Bidmas) == Continue(Joined)
  {
    GroupedGroup();
    PassSteps(Grouped0, Joined, Joined, Joined, Joined, Joined, Joined);
  }

  lemma StarredPass()
    ensures Multipass.Pass(Starred0, Multipass.Bidmas) == Continue(Joined)
  {
    StarredGroup();
    PassSteps(Starred0, Joined, Joined, Joined, Joined, Joined, Joined);
  }

  lemma GroupedInit()
    ensures Init(GroupedToks, Multipass.Bidmas) == Grouped0
  {
  }

  lemma StarredInit()
    ensures Init(StarredToks, Multipass.Bidmas) == Starred0
  {
  }

  lemma JoinedRun()
    ensures Multipass.Run(Joined, Multipass.Bidmas) == Reduced([Nd(ProductTree)])
  {
    JoinedPass();
    RunStep(Joined, Joined1);
    RunDone(Joined1, ProductTree);
  }

  lemma GroupedRun()
    ensures Multipass.Run(Grouped0, Multipass.Bidmas) == Reduced([Nd(ProductTree)])
  {
    GroupedPass();
    JoinedRun();
    RunStep(Grouped0, Joined);
  }

  lemma StarredRun()
    ensures Multipass.Run(Starred0, Multipass.Bidmas) == Reduced([Nd(ProductTree)])
  {
    StarredPass();
    JoinedRun();
    RunStep(Starred0, Joined);
  }

  /** `3 ( 2 + 4 )` and `3 * ( 2 + 4 )` both parse to MUL(3, ADD(2, 4)). */
  lemma ImplicitMul()
    ensures Multipass.ParseTokens(GroupedToks, Multipass.Bidmas) == Parsed(ProductTree)
    ensures Multipass.ParseTokens(StarredToks, Multipass.Bidmas) == Parsed(ProductTree)
  {
    GroupedInit();
    StarredInit();
    GroupedRun();
    StarredRun();
    ParsesVia(GroupedToks, Grouped0, Reduced([Nd(ProductTree)]));
    ParsesVia(StarredToks, Starred0, Reduced([Nd(ProductTree)]));
  }

  /* ( 3 + 2: no matching `)`. */

  const UnclosedToks := [Open, N3, Plus, N2]
  const Unclosed0 := State([Tok(Open), Tok(N3), Tok(Plus), Tok(N2)], Multipass.Bidmas, false)
  const DraftUnclosed0 := Unclosed0.(prec := Draft.DraftBidmas)

  lemma UnclosedMatch()
    ensures FirstIndexOf(Unclosed0.list, LBracket) == 0
    ensures MatchingBracket(Unclosed0.list, 0) == -1
  {
    FirstIndexOfIs(Unclosed0.list, LBracket, 0);
    FlatGroup(Unclosed0.list, 0, -1);
  }

  lemma UnclosedGroup()
    ensures Multipass.Pass(Unclosed0, Multipass.Bidmas) == Abort(NoMatchingBracket)
  {
    UnclosedMatch();
    assert Multipass.Group(Unclosed0, Multipass.Bidmas) == Abort(NoMatchingBracket);
  }

  lemma DraftUnclosedGroup()
    ensures Draft.Group(DraftUnclosed0, Draft.DraftBidmas) == Continue(DraftUnclosed0)
  {
    UnclosedMatch();
  }

  lemma DraftUnclosedPass()
    ensures Draft.Pass(DraftUnclosed0, Draft.DraftBidmas) == Continue(DraftUnclosed0)
  {
    DraftUnclosedGroup();
    DraftPassSteps(DraftUnclosed0, DraftUnclosed0, DraftUnclosed0, DraftUnclosed0, DraftUnclosed0, DraftUnclosed0, DraftUnclosed0);
  }

  lemma UnclosedInit()
    ensures Init(UnclosedToks, Multipass.Bidmas) == Unclosed0
  {
  }

  lemma DraftUnclosedInit()
    ensures Init(UnclosedToks, Draft.DraftBidmas) == DraftUnclosed0
  {
  }

  lemma UnclosedRun()
    ensures Multipass.Run(Unclosed0, Multipass.Bidmas) == Reduced([])
  {
    UnclosedGroup();
    RunAborts(Unclosed0, NoMatchingBracket);
  }

  lemma DraftUnclosedRun()
    ensures Draft.Run(DraftUnclosed0, Draft.DraftBidmas) == RunDiverges
  {
    DraftUnclosedPass();
  }

  /** An unmatched `(` is reported as CouldNotParseExpression by the
      multi-pass parser, while the draft parser never returns. */
  lemma Unclosed()
    ensures Multipass.ParseTokens(UnclosedToks, Multipass.Bidmas) == Failed(CouldNotParseExpression)
    ensures Draft.ParseTokens(UnclosedToks, Draft.DraftBidmas) == Diverges
  {
    UnclosedInit();
    DraftUnclosedInit();
    UnclosedRun();
    DraftUnclosedRun();
    ParsesVia(UnclosedToks, Unclosed0, Reduced([]));
    DraftParsesVia(UnclosedToks, DraftUnclosed0, RunDiverges);
  }

  /* p ^ q, in both versions. */

  const PowToks := [P, Caret, Q]
  const PowTree := BinaryExpr(Pow, Some(Operand(P)), Some(Operand(Q)))
  const Pow0 := State([Tok(P), Tok(Caret), Tok(Q)], Multipass.Bidmas, false)
  const Pow1 := State([Nd(PowTree)], Multipass.Bidmas, true)
  const DraftPow0 := Pow0.(prec := Draft.DraftBidmas)
  const DraftPow1 := Pow1.(prec := Draft.DraftBidmas)

  lemma PowPass()
    ensures Multipass.Pass(Pow0, Multipass.Bidmas) == Continue(Pow1)
  {
    FirstIndexOfIs(Pow0.list, LBracket, -1);
    FirstIndexOfIs(Pow0.list, Pow, 1);
    PassSteps(Pow0, Pow0.(resolved := true), Pow1, Pow1, Pow1, Pow1, Pow1);
  }

  lemma DraftPowPass()
    ensures Draft.Pass(DraftPow0, Draft.DraftBidmas) == Continue(DraftPow1)
  {
    FirstIndexOfIs(DraftPow0.list, LBracket, -1);
    FirstIndexOfIs(DraftPow0.list, Pow, 1);
    DraftPassSteps(DraftPow0, DraftPow0.(resolved := true), DraftPow1, DraftPow1, DraftPow1, DraftPow1, DraftPow1);
  }

  lemma PowInit()
    ensures Init(PowToks, Multipass.Bidmas) == Pow0
  {
  }

  lemma DraftPowInit()
    ensures Init(PowToks, Draft.DraftBidmas) == DraftPow0
  {
  }

  lemma PowRun()
    ensures Multipass.Run(Pow0, Multipass.Bidmas) == Reduced([Nd(PowTree)])
  {
    PowPass();
    RunStep(Pow0, Pow1);
    RunDone(Pow1, PowTree);
  }

  lemma DraftPowRun()
    ensures Draft.Run(DraftPow0, Draft.DraftBidmas) == Reduced([Nd(PowTree)])
  {
    DraftPowPass();
    DraftRunStep(DraftPow0, DraftPow1);
  }

  /** `p ^ q` parses to POW(p, q) in both versions. */
  lemma PowBoth()
    ensures Multipass.ParseTokens(PowToks, Multipass.Bidmas) == Parsed(PowTree)
    ensures Draft.ParseTokens(PowToks, Draft.DraftBidmas) == Parsed(PowTree)
  {
    PowInit();
    DraftPowInit();
    PowRun();
    DraftPowRun();
    ParsesVia(PowToks, Pow0, Reduced([Nd(PowTree)]));
    DraftParsesVia(PowToks, DraftPow0, Reduced([Nd(PowTree)]));
  }

  /* a - b + c: the two default orders group it differently. */

  const MixedToks := [A, Minus, B, Plus, C]
  const SumBC := BinaryExpr(Add, Some(Operand(B)), Some(Operand(C)))
  const DiffAB := BinaryExpr(Sub, Some(Operand(A)), Some(Operand(B)))
  const MinusFirst := BinaryExpr(Sub, Some(Operand(A)), Some(SumBC))
  const PlusLast := BinaryExpr(Add, Some(DiffAB), Some(Operand(C)))
  const Mixed0 := State([Tok(A), Tok(Minus), Tok(B), Tok(Plus), Tok(C)], Multipass.Bidmas, false)
  const MixedG := Mixed0.(resolved := true)
  const Mixed1 := State([Tok(A), Tok(Minus), Nd(SumBC)], [Add, Sub], true)
  const Mixed2 := State([Nd(MinusFirst)], [Sub], true)

  lemma MixedGroup1()
    ensures Multipass.Group(Mixed0, Multipass.Bidmas) == Continue(MixedG)
  {
    FirstIndexOfIs(Mixed0.list, LBracket, -1);
  }

  lemma MixedDropPow1()
    ensures Multipass.Infix(MixedG, Pow) == Continue(MixedG.(prec := [Mul, Div, Add, Sub]))
  {
    FirstIndexOfIs(Mixed0.list, Pow, -1);
  }

  lemma MixedDropMul1()
    ensures Multipass.Infix(MixedG.(prec := [Mul, Div, Add, Sub]), Mul) == Continue(MixedG.(prec := [Div, Add, Sub]))
  {
    FirstIndexOfIs(Mixed0.list, Mul, -1);
  }

  lemma MixedDropDiv1()
    ensures Multipass.Infix(MixedG.(prec := [Div, Add, Sub]), Div) == Continue(MixedG.(prec := [Add, Sub]))
  {
    FirstIndexOfIs(Mixed0.list, Div, -1);
  }

  lemma MixedFoldAdd1()
    ensures Multipass.Infix(MixedG.(prec := [Add, Sub]), Add) == Continue(Mixed1)
  {
    FirstIndexOfIs(Mixed0.list, Add, 3);
  }

  lemma MixedPass1()
    ensures Multipass.Pass(Mixed0, Multipass.Bidmas) == Continue(Mixed1)
  {
    MixedGroup1();
    MixedDropPow1();
    MixedDropMul1();
    MixedDropDiv1();
    MixedFoldAdd1();
    PassSteps(Mixed0, MixedG, MixedG.(prec := [Mul, Div, Add, Sub]), MixedG.(prec := [Div, Add, Sub]),
      MixedG.(prec := [Add, Sub]), Mixed1, Mixed1);
  }

  lemma MixedGroup2()
    ensures Multipass.Group(Mixed1, Multipass.Bidmas) == Continue(Mixed1)
  {
    FirstIndexOfIs(Mixed1.list, LBracket, -1);
  }

  lemma MixedDropAdd2()
    ensures Multipass.Infix(Mixed1, Add) == Continue(Mixed1.(prec := [Sub]))
  {
    FirstIndexOfIs(Mixed1.list, Add, -1);
  }

  lemma MixedFoldSub2()
    ensures Multipass.Infix(Mixed1.(prec := [Sub]), Sub) == Continue(Mixed2)
  {
    FirstIndexOfIs(Mixed1.list, Sub, 1);
  }

  lemma MixedPass2()
    ensures Multipass.Pass(Mixed1, Multipass.Bidmas) == Continue(Mixed2)
  {
    MixedGroup2();
    MixedDropAdd2();
    MixedFoldSub2();
    PassSteps(Mixed1, Mixed1, Mixed1, Mixed1, Mixed1, Mixed1.(prec := [Sub]), Mixed2);
  }

  lemma MixedInit()
    ensures Init(MixedToks, Multipass.Bidmas) == Mixed0
  {
  }

  lemma MixedRun()
    ensures Multipass.Run(Mixed0, Multipass.Bidmas) == Reduced([Nd(MinusFirst)])
  {
    MixedPass1();
    MixedPass2();
    RunStep(Mixed0, Mixed1);
    RunStep(Mixed1, Mixed2);
    RunDone(Mixed2, MinusFirst);
  }

  /** The multi-pass parser folds ADD first: `a - b + c` is SUB(a, ADD(b, c)). */
  lemma MixedMultipass()
    ensures Multipass.ParseTokens(MixedToks, Multipass.Bidmas) == Parsed(MinusFirst)
  {
    MixedInit();
    MixedRun();
    ParsesVia(MixedToks, Mixed0, Reduced([Nd(MinusFirst)]));
  }

  const DraftMixed0 := Mixed0.(prec := Draft.DraftBidmas)
  const DraftMixedG := DraftMixed0.(resolved := true)
  const DraftMixed1 := State([Nd(DiffAB), Tok(Plus), Tok(C)], [Sub, Add], true)
  const DraftMixed2 := DraftMixed1.(prec := [Add])
  const DraftMixed3 := State([Nd(PlusLast)], [Add], true)

  lemma DraftMixedGroup1()
    ensures Draft.Group(DraftMixed0, Draft.DraftBidmas) == Continue(DraftMixedG)
  {
    FirstIndexOfIs(DraftMixed0.list, LBracket, -1);
  }

  lemma DraftMixedDropPow1()
    ensures Draft.Infix(DraftMixedG, Pow) == Continue(DraftMixedG.(prec := [Mul, Div, Sub, Add]))
  {
    FirstIndexOfIs(DraftMixed0.list, Pow, -1);
  }

  lemma DraftMixedDropMul1()
    ensures Draft.Infix(DraftMixedG.(prec := [Mul, Div, Sub, Add]), Mul) == Continue(DraftMixedG.(prec := [Div, Sub, Add]))
  {
    FirstIndexOfIs(DraftMixed0.list, Mul, -1);
  }

  lemma DraftMixedDropDiv1()
    ensures Draft.Infix(DraftMixedG.(prec := [Div, Sub, Add]), Div) == Continue(DraftMixedG.(prec := [Sub, Add]))
  {
    FirstIndexOfIs(DraftMixed0.list, Div, -1);
  }

  lemma DraftMixedFoldSub1()
    ensures Draft.Infix(DraftMixedG.(prec := [Sub, Add]), Sub) == Continue(DraftMixed1)
  {
    FirstIndexOfIs(DraftMixed0.list, Sub, 1);
  }

  lemma DraftMixedPass1()
    ensures Draft.Pass(DraftMixed0, Draft.DraftBidmas) == Continue(DraftMixed1)
  {
    DraftMixedGroup1();
    DraftMixedDropPow1();
    DraftMixedDropMul1();
    DraftMixedDropDiv1();
    DraftMixedFoldSub1();
    DraftPassSteps(DraftMixed0, DraftMixedG, DraftMixedG.(prec := [Mul, Div, Sub, Add]), DraftMixedG.(prec := [Div, Sub, Add]),
      DraftMixedG.(prec := [Sub, Add]), DraftMixedG.(prec := [Sub, Add]), DraftMixed1);
  }

  lemma DraftMixedPass2()
    ensures Draft.Pass(DraftMixed1, Draft.DraftBidmas) == Continue(DraftMixed2)
  {
    FirstIndexOfIs(DraftMixed1.list, LBracket, -1);
    FirstIndexOfIs(DraftMixed1.list, Sub, -1);
    DraftPassSteps(DraftMixed1, DraftMixed1, DraftMixed1, DraftMixed1, DraftMixed1, DraftMixed1, DraftMixed2);
  }

  lemma DraftMixedFoldAdd3()
    ensures Draft.Infix(DraftMixed2, Add) == Continue(DraftMixed3)
  {
    FirstIndexOfIs(DraftMixed2.list, Add, 1);
  }

  lemma DraftMixedPass3()
    ensures Draft.Pass(DraftMixed2, Draft.DraftBidmas) == Continue(DraftMixed3)
  {
    FirstIndexOfIs(DraftMixed2.list, LBracket, -1);
    DraftMixedFoldAdd3();
    DraftPassSteps(DraftMixed2, DraftMixed2, DraftMixed2, DraftMixed2, DraftMixed2, DraftMixed3, DraftMixed3);
  }

  lemma DraftMixedInit()
    ensures Init(MixedToks, Draft.DraftBidmas) == DraftMixed0
  {
  }

  lemma DraftMixedRun()
    ensures Draft.Run(DraftMixed0, Draft.DraftBidmas) == Reduced([Nd(PlusLast)])
  {
    DraftMixedPass1();
    DraftMixedPass2();
    DraftMixedPass3();
    DraftRunStep(DraftMixed0, DraftMixed1);
    DraftRunStep(DraftMixed1, DraftMixed2);
    DraftRunStep(DraftMixed2, DraftMixed3);
  }

  /** The draft folds SUB first: `a - b + c` is ADD(SUB(a, b), c). */
  lemma MixedDraft()
    ensures Draft.ParseTokens(MixedToks, Draft.DraftBidmas) == Parsed(PlusLast)
  {
    DraftMixedInit();
    DraftMixedRun();
    DraftParsesVia(MixedToks, DraftMixed0, Reduced([Nd(PlusLast)]));
  }

  /* 4 * 3 ^ 2: POW heads the order and is folded first, although MUL comes
     first in the list. */

  const PowFirstToks := [N4, Star, N3, Caret, N2]
  const Pow32 := BinaryExpr(Pow, Some(Operand(N3)), Some(Operand(N2)))
  const PowFirstTree := BinaryExpr(Mul, Some(Operand(N4)), Some(Pow32))
  const PowFirst0 := State([Tok(N4), Tok(Star), Tok(N3), Tok(Caret), Tok(N2)], Multipass.Bidmas, false)
  const PowFirstG := PowFirst0.(resolved := true)
  const PowFirst1 := State([Tok(N4), Tok(Star), Nd(Pow32)], Multipass.Bidmas, true)
  const PowFirst2 := State([Nd(PowFirstTree)], [Mul, Div, Add, Sub], true)

  lemma PowFirstGroup1()
    ensures Multipass.Group(PowFirst0, Multipass.Bidmas) == Continue(PowFirstG)
  {
    FirstIndexOfIs(PowFirst0.list, LBracket, -1);
  }

  lemma PowFirstFoldPow1()
    ensures Multipass.Infix(PowFirstG, Pow) == Continue(PowFirst1)
  {
    FirstIndexOfIs(PowFirst0.list, Pow, 3);
  }

  lemma PowFirstPass1()
    ensures Multipass.Pass(PowFirst0, Multipass.Bidmas) == Continue(PowFirst1)
  {
    PowFirstGroup1();
    PowFirstFoldPow1();
    PassSteps(PowFirst0, PowFirstG, PowFirst1, PowFirst1, PowFirst1, PowFirst1, PowFirst1);
  }

  lemma PowFirstGroup2()
    ensures Multipass.Group(PowFirst1, Multipass.Bidmas) == Continue(PowFirst1)
  {
    FirstIndexOfIs(PowFirst1.list, LBracket, -1);
  }

  lemma PowFirstDropPow2()
    ensures Multipass.Infix(PowFirst1, Pow) == Continue(PowFirst1.(prec := [Mul, Div, Add, Sub]))
  {
    FirstIndexOfIs(PowFirst1.list, Pow, -1);
  }

  lemma PowFirstFoldMul2()
    ensures Multipass.Infix(PowFirst1.(prec := [Mul, Div, Add, Sub]), Mul) == Continue(PowFirst2)
  {
    FirstIndexOfIs(PowFirst1.list, Mul, 1);
  }

  lemma PowFirstPass2()
    ensures Multipass.Pass(PowFirst1, Multipass.Bidmas) == Continue(PowFirst2)
  {
    PowFirstGroup2();
    PowFirstDropPow2();
    PowFirstFoldMul2();
    PassSteps(PowFirst1, PowFirst1, PowFirst1.(prec := [Mul, Div, Add, Sub]), PowFirst2, PowFirst2, PowFirst2, PowFirst2);
  }

  lemma PowFirstInit()
    ensures Init(PowFirstToks, Multipass.Bidmas) == PowFirst0
  {
  }

  lemma PowFirstRun()
    ensures Multipass.Run(PowFirst0, Multipass.Bidmas) == Reduced([Nd(PowFirstTree)])
  {
    PowFirstPass1();
    PowFirstPass2();
    RunStep(PowFirst0, PowFirst1);
    RunStep(PowFirst1, PowFirst2);
    RunDone(PowFirst2, PowFirstTree);
  }

  /** `4 * 3 ^ 2` parses to MUL(4, POW(3, 2)). */
  lemma PowFirst()
    ensures Multipass.ParseTokens(PowFirstToks, Multipass.Bidmas) == Parsed(PowFirstTree)
  {
    PowFirstInit();
    PowFirstRun();
    ParsesVia(PowFirstToks, PowFirst0, Reduced([Nd(PowFirstTree)]));
  }

  /* 12 - 8 / 2: DIV in the first pass, SUB in the second. */

  const DivFirstToks := [N12, Minus, N8, Slash, N2]
  const Quot82 := BinaryExpr(Div, Some(Operand(N8)), Some(Operand(N2)))
  const DivFirstTree := BinaryExpr(Sub, Some(Operand(N12)), Some(Quot82))
  const DivFirst0 := State([Tok(N12), Tok(Minus), Tok(N8), Tok(Slash), Tok(N2)], Multipass.Bidmas, false)
  const DivFirstG := DivFirst0.(resolved := true)
  const DivFirst1 := State([Tok(N12), Tok(Minus), Nd(Quot82)], [Div, Add, Sub], true)
  const DivFirst2 := State([Nd(DivFirstTree)], [Sub], true)

  lemma DivFirstGroup1()
    ensures Multipass.Group(DivFirst0, Multipass.Bidmas) == Continue(DivFirstG)
  {
    FirstIndexOfIs(DivFirst0.list, LBracket, -1);
  }

  lemma DivFirstDropPow1()
    ensures Multipass.Infix(DivFirstG, Pow) == Continue(DivFirstG.(prec := [Mul, Div, Add, Sub]))
  {
    FirstIndexOfIs(DivFirst0.list, Pow, -1);
  }

  lemma DivFirstDropMul1()
    ensures Multipass.Infix(DivFirstG.(prec := [Mul, Div, Add, Sub]), Mul) == Continue(DivFirstG.(prec := [Div, Add, Sub]))
  {
    FirstIndexOfIs(DivFirst0.list, Mul, -1);
  }

  lemma DivFirstFoldDiv1()
    ensures Multipass.Infix(DivFirstG.(prec := [Div, Add, Sub]), Div) == Continue(DivFirst1)
  {
    FirstIndexOfIs(DivFirst0.list, Div, 3);
  }

  lemma DivFirstPass1()
    ensures Multipass.Pass(DivFirst0, Multipass.Bidmas) == Continue(DivFirst1)
  {
    DivFirstGroup1();
    DivFirstDropPow1();
    DivFirstDropMul1();
    DivFirstFoldDiv1();
    PassSteps(DivFirst0, DivFirstG, DivFirstG.(prec := [Mul, Div, Add, Sub]), DivFirstG.(prec := [Div, Add, Sub]),
      DivFirst1, DivFirst1, DivFirst1);
  }

  lemma DivFirstGroup2()
    ensures Multipass.Group(DivFirst1, Multipass.Bidmas) == Continue(DivFirst1)
  {
    FirstIndexOfIs(DivFirst1.list, LBracket, -1);
  }

  lemma DivFirstDropDiv2()
    ensures Multipass.Infix(DivFirst1, Div) == Continue(DivFirst1.(prec := [Add, Sub]))
  {
    FirstIndexOfIs(DivFirst1.list, Div, -1);
  }

  lemma DivFirstDropAdd2()
    ensures Multipass.Infix(DivFirst1.(prec := [Add, Sub]), Add) == Continue(DivFirst1.(prec := [Sub]))
  {
    FirstIndexOfIs(DivFirst1.list, Add, -1);
  }

  lemma DivFirstFoldSub2()
    ensures Multipass.Infix(DivFirst1.(prec := [Sub]), Sub) == Continue(DivFirst2)
  {
    FirstIndexOfIs(DivFirst1.list, Sub, 1);
  }

  lemma DivFirstPass2()
    ensures Multipass.Pass(DivFirst1, Multipass.Bidmas) == Continue(DivFirst2)
  {
    DivFirstGroup2();
    DivFirstDropDiv2();
    DivFirstDropAdd2();
    DivFirstFoldSub2();
    PassSteps(DivFirst1, DivFirst1, DivFirst1, DivFirst1, DivFirst1.(prec := [Add, Sub]), DivFirst1.(prec := [Sub]), DivFirst2);
  }

  lemma DivFirstInit()
    ensures Init(DivFirstToks, Multipass.Bidmas) == DivFirst0
  {
  }

  lemma DivFirstRun()
    ensures Multipass.Run(DivFirst0, Multipass.Bidmas) == Reduced([Nd(DivFirstTree)])
  {
    DivFirstPass1();
    DivFirstPass2();
    RunStep(DivFirst0, DivFirst1);
    RunStep(DivFirst1, DivFirst2);
    RunDone(DivFirst2, DivFirstTree);
  }

  /** `12 - 8 / 2` parses to SUB(12, DIV(8, 2)). */
  lemma DivFirst()
    ensures Multipass.ParseTokens(DivFirstToks, Multipass.Bidmas) == Parsed(DivFirstTree)
  {
    DivFirstInit();
    DivFirstRun();
    ParsesVia(DivFirstToks, DivFirst0, Reduced([Nd(DivFirstTree)]));
  }

  /* a - b - c: the first `-` is folded first, so a repeated operator nests
     to the left. */

  const ChainToks := [A, Minus, B, Minus, C]
  const ChainTree := BinaryExpr(Sub, Some(DiffAB), Some(Operand(C)))
  const Chain0 := State([Tok(A), Tok(Minus), Tok(B), Tok(Minus), Tok(C)], Multipass.Bidmas, false)
  const ChainG := Chain0.(resolved := true)
  const Chain1 := State([Nd(DiffAB), Tok(Minus), Tok(C)], [Sub], true)
  const Chain2 := State([Nd(ChainTree)], [Sub], true)

  lemma ChainGroup1()
    ensures Multipass.Group(Chain0, Multipass.Bidmas) == Continue(ChainG)
  {
    FirstIndexOfIs(Chain0.list, LBracket, -1);
  }

  lemma ChainDropPow1()
    ensures Multipass.Infix(ChainG, Pow) == Continue(ChainG.(prec := [Mul, Div, Add, Sub]))
  {
    FirstIndexOfIs(Chain0.list, Pow, -1);
  }

  lemma ChainDropMul1()
    ensures Multipass.Infix(ChainG.(prec := [Mul, Div, Add, Sub]), Mul) == Continue(ChainG.(prec := [Div, Add, Sub]))
  {
    FirstIndexOfIs(Chain0.list, Mul, -1);
  }

  lemma ChainDropDiv1()
    ensures Multipass.Infix(ChainG.(prec := [Div, Add, Sub]), Div) == Continue(ChainG.(prec := [Add, Sub]))
  {
    FirstIndexOfIs(Chain0.list, Div, -1);
  }

  lemma ChainDropAdd1()
    ensures Multipass.Infix(ChainG.(prec := [Add, Sub]), Add) == Continue(ChainG.(prec := [Sub]))
  {
    FirstIndexOfIs(Chain0.list, Add, -1);
  }

  lemma ChainFoldSub1()
    ensures Multipass.Infix(ChainG.(prec := [Sub]), Sub) == Continue(Chain1)
  {
    FirstIndexOfIs(Chain0.list, Sub, 1);
  }

  lemma ChainPass1()
    ensures Multipass.Pass(Chain0, Multipass.Bidmas) == Continue(Chain1)
  {
    ChainGroup1();
    ChainDropPow1();
    ChainDropMul1();
    ChainDropDiv1();
    ChainDropAdd1();
    ChainFoldSub1();
    PassSteps(Chain0, ChainG, ChainG.(prec := [Mul, Div, Add, Sub]), ChainG.(prec := [Div, Add, Sub]),
      ChainG.(prec := [Add, Sub]), ChainG.(prec := [Sub]), Chain1);
  }

  lemma ChainGroup2()
    ensures Multipass.Group(Chain1, Multipass.Bidmas) == Continue(Chain1)
  {
    FirstIndexOfIs(Chain1.list, LBracket, -1);
  }

  lemma ChainFoldSub2()
    ensures Multipass.Infix(Chain1, Sub) == Continue(Chain2)
  {
    FirstIndexOfIs(Chain1.list, Sub, 1);
  }

  lemma ChainPass2()
    ensures Multipass.Pass(Chain1, Multipass.Bidmas) == Continue(Chain2)
  {
    ChainGroup2();
    ChainFoldSub2();
    PassSteps(Chain1, Chain1, Chain1, Chain1, Chain1, Chain1, Chain2);
  }

  lemma ChainInit()
    ensures Init(ChainToks, Multipass.Bidmas) == Chain0
  {
  }

  lemma ChainRun()
    ensures Multipass.Run(Chain0, Multipass.Bidmas) == Reduced([Nd(ChainTree)])
  {
    ChainPass1();
    ChainPass2();
    RunStep(Chain0, Chain1);
    RunStep(Chain1, Chain2);
    RunDone(Chain2, ChainTree);
  }

  /** `a - b - c` parses to SUB(SUB(a, b), c). */
  lemma LeftAssoc()
    ensures Multipass.ParseTokens(ChainToks, Multipass.Bidmas) == Parsed(ChainTree)
  {
    ChainInit();
    ChainRun();
    ParsesVia(ChainToks, Chain0, Reduced([Nd(ChainTree)]));
  }

  /* ( a - b ) c and ( a - b ) * c: the group is parsed on its own; a `*` is
     added after it in the first case only. */

  const DiffToks := [A, Minus, B]
  const Diff0 := State([Tok(A), Tok(Minus), Tok(B)], Multipass.Bidmas, false)
  const DiffG := Diff0.(resolved := true)
  const Diff1 := State([Nd(DiffAB)], [Sub], true)

  lemma DiffGroup()
    ensures Multipass.Group(Diff0, Multipass.Bidmas) == Continue(DiffG)
  {
    FirstIndexOfIs(Diff0.list, LBracket, -1);
  }

  lemma DiffDropPow()
    ensures Multipass.Infix(DiffG, Pow) == Continue(DiffG.(prec := [Mul, Div, Add, Sub]))
  {
    FirstIndexOfIs(Diff0.list, Pow, -1);
  }

  lemma DiffDropMul()
    ensures Multipass.Infix(DiffG.(prec := [Mul, Div, Add, Sub]), Mul) == Continue(DiffG.(prec := [Div, Add, Sub]))
  {
    FirstIndexOfIs(Diff0.list, Mul, -1);
  }

  lemma DiffDropDiv()
    ensures Multipass.Infix(DiffG.(prec := [Div, Add, Sub]), Div) == Continue(DiffG.(prec := [Add, Sub]))
  {
    FirstIndexOfIs(Diff0.list, Div, -1);
  }

  lemma DiffDropAdd()
    ensures Multipass.Infix(DiffG.(prec := [Add, Sub]), Add) == Continue(DiffG.(prec := [Sub]))
  {
    FirstIndexOfIs(Diff0.list, Add, -1);
  }

  lemma DiffFoldSub()
    ensures Multipass.Infix(DiffG.(prec := [Sub]), Sub) == Continue(Diff1)
  {
    FirstIndexOfIs(Diff0.list, Sub, 1);
  }

  lemma DiffPass()
    ensures Multipass.Pass(Diff0, Multipass.Bidmas) == Continue(Diff1)
  {
    DiffGroup();
    DiffDropPow();
    DiffDropMul();
    DiffDropDiv();
    DiffDropAdd();
    DiffFoldSub();
    PassSteps(Diff0, DiffG, DiffG.(prec := [Mul, Div, Add, Sub]), DiffG.(prec := [Div, Add, Sub]),
      DiffG.(prec := [Add, Sub]), DiffG.(prec := [Sub]), Diff1);
  }

  lemma DiffInit()
    ensures Init(DiffToks, Multipass.Bidmas) == Diff0
  {
  }

  lemma DiffRun()
    ensures Multipass.Run(Diff0, Multipass.Bidmas) == Reduced([Nd(DiffAB)])
  {
    DiffPass();
    RunStep(Diff0, Diff1);
    RunDone(Diff1, DiffAB);
  }

  /** `a - b` parses to SUB(a, b). */
  lemma DiffParse()
    ensures Multipass.ParseTokens(DiffToks, Multipass.Bidmas) == Parsed(DiffAB)
  {
    DiffInit();
    DiffRun();
    ParsesVia(DiffToks, Diff0, Reduced([Nd(DiffAB)]));
  }

  const TrailToks := [Open, A, Minus, B, Close, C]
  const TrailStarToks := [Open, A, Minus, B, Close, Star, C]
  const Trail0 := State([Tok(Open), Tok(A), Tok(Minus), Tok(B), Tok(Close), Tok(C)], Multipass.Bidmas, false)
  const TrailStar0 := State([Tok(Open), Tok(A), Tok(Minus), Tok(B), Tok(Close), Tok(Star), Tok(C)], Multipass.Bidmas, false)
  const Glued := State([Nd(DiffAB), Tok(Star), Tok(C)], Multipass.Bidmas, false)
  const GluedG := Glued.(resolved := true)
  const TrailTree := BinaryExpr(Mul, Some(DiffAB), Some(Operand(C)))
  const Glued1 := State([Nd(TrailTree)], [Mul, Div, Add, Sub], true)

  /** The group `( a - b )` at the head of s. */
  lemma DiffGroupAt(s: seq<Elem>)
    requires 4 < |s| && s[..5] == [Tok(Open), Tok(A), Tok(Minus), Tok(B), Tok(Close)]
    ensures FirstIndexOf(s, LBracket) == 0
    ensures MatchingBracket(s, 0) == 4
    ensures TokensOf(s[1..4]) == DiffToks
  {
    assert s[0] == s[..5][0] && s[4] == s[..5][4];
    FirstIndexOfIs(s, LBracket, 0);
    forall j | 0 < j < 4
      ensures !IsTokenOf(s[j], LBracket) && !IsTokenOf(s[j], RBracket)
    {
      assert s[j] == s[..5][j];
    }
    FlatGroup(s, 0, 4);
    assert s[1..4] == ElemsOf(DiffToks);
    TokensRoundTrip(DiffToks);
  }

  lemma TrailGroup()
    ensures Multipass.Group(Trail0, Multipass.Bidmas) == Continue(Glued)
  {
    var s := Trail0.list;
    DiffGroupAt(s);
    DiffParse();
    GroupParsed(Trail0, 0, 4, DiffAB);
    assert Multipass.Splice(s[..0], DiffAB, s[5..]) == Glued.list;
  }

  lemma TrailStarGroup()
    ensures Multipass.Group(TrailStar0, Multipass.Bidmas) == Continue(Glued)
  {
    var s := TrailStar0.list;
    DiffGroupAt(s);
    DiffParse();
    GroupParsed(TrailStar0, 0, 4, DiffAB);
    assert Multipass.Splice(s[..0], DiffAB, s[5..]) == Glued.list;
  }

  lemma GluedGroup()
    ensures Multipass.Group(Glued, Multipass.Bidmas) == Continue(GluedG)
  {
    FirstIndexOfIs(Glued.list, LBracket, -1);
  }

  lemma GluedDropPow()
    ensures Multipass.Infix(GluedG, Pow) == Continue(GluedG.(prec := [Mul, Div, Add, Sub]))
  {
    FirstIndexOfIs(Glued.list, Pow, -1);
  }

  lemma GluedFoldMul()
    ensures Multipass.Infix(GluedG.(prec := [Mul, Div, Add, Sub]), Mul) == Continue(Glued1)
  {
    FirstIndexOfIs(Glued.list, Mul, 1);
  }

  lemma GluedPass()
    ensures Multipass.Pass(Glued, Multipass.Bidmas) == Continue(Glued1)
  {
    GluedGroup();
    GluedDropPow();
    GluedFoldMul();
    PassSteps(Glued, GluedG, GluedG.(prec := [Mul, Div, Add, Sub]), Glued1, Glued1, Glued1, Glued1);
  }

  lemma GluedRun()
    ensures Multipass.Run(Glued, Multipass.Bidmas) == Reduced([Nd(TrailTree)])
  {
    GluedPass();
    RunStep(Glued, Glued1);
    RunDone(Glued1, TrailTree);
  }

  lemma TrailRun()
    ensures Multipass.Run(Trail0, Multipass.Bidmas) == Reduced([Nd(TrailTree)])
  {
    TrailGroup();
    PassSteps(Trail0, Glued, Glued, Glued, Glued, Glued, Glued);
    GluedRun();
    RunStep(Trail0, Glued);
  }

  lemma TrailStarRun()
    ensures Multipass.Run(TrailStar0, Multipass.Bidmas) == Reduced([Nd(TrailTree)])
  {
    TrailStarGroup();
    PassSteps(TrailStar0, Glued, Glued, Glued, Glued, Glued, Glued);
    GluedRun();
    RunStep(TrailStar0, Glued);
  }

  lemma TrailInit()
    ensures Init(TrailToks, Multipass.Bidmas) == Trail0
  {
  }

  lemma TrailStarInit()
    ensures Init(TrailStarToks, Multipass.Bidmas) == TrailStar0
  {
  }

  /** `( a - b ) c` and `( a - b ) * c` both parse to MUL(SUB(a, b), c). */
  lemma TrailingMul()
    ensures Multipass.ParseTokens(TrailToks, Multipass.Bidmas) == Parsed(TrailTree)
    ensures Multipass.ParseTokens(TrailStarToks, Multipass.Bidmas) == Parsed(TrailTree)
  {
    TrailInit();
    TrailStarInit();
    TrailRun();
    TrailStarRun();
    ParsesVia(TrailToks, Trail0, Reduced([Nd(TrailTree)]));
    ParsesVia(TrailStarToks, TrailStar0, Reduced([Nd(TrailTree)]));
  }

  /* 3 4: no operator between two values. */

  const PairToks := [N3, N4]
  const Pair0 := State([Tok(N3), Tok(N4)], Multipass.Bidmas, false)
  const Pair1 := State([Tok(N3), Tok(N4)], [], true)

  lemma PairNone(k: Kind)
    requires k != Num
    ensures FirstIndexOf(Pair0.list, k) == -1
  {
    FirstIndexOfIs(Pair0.list, k, -1);
  }

  lemma PairDropPow()
    ensures Multipass.Infix(Pair1.(prec := Multipass.Bidmas), Pow) == Continue(Pair1.(prec := [Mul, Div, Add, Sub]))
  {
    PairNone(Pow);
  }

  lemma PairDropMul()
    ensures Multipass.Infix(Pair1.(prec := [Mul, Div, Add, Sub]), Mul) == Continue(Pair1.(prec := [Div, Add, Sub]))
  {
    PairNone(Mul);
  }

  lemma PairDropDiv()
    ensures Multipass.Infix(Pair1.(prec := [Div, Add, Sub]), Div) == Continue(Pair1.(prec := [Add, Sub]))
  {
    PairNone(Div);
  }

  lemma PairDropAdd()
    ensures Multipass.Infix(Pair1.(prec := [Add, Sub]), Add) == Continue(Pair1.(prec := [Sub]))
  {
    PairNone(Add);
  }

  lemma PairDropSub()
    ensures Multipass.Infix(Pair1.(prec := [Sub]), Sub) == Continue(Pair1.(prec := []))
  {
    PairNone(Sub);
  }

  lemma PairPass1()
    ensures Multipass.Pass(Pair0, Multipass.Bidmas) == Continue(Pair1)
  {
    PairNone(LBracket);
    PairDropPow();
    PairDropMul();
    PairDropDiv();
    PairDropAdd();
    PairDropSub();
    PassSteps(Pair0, Pair1.(prec := Multipass.Bidmas), Pair1.(prec := [Mul, Div, Add, Sub]), Pair1.(prec := [Div, Add, Sub]),
      Pair1.(prec := [Add, Sub]), Pair1.(prec := [Sub]), Pair1);
  }

  lemma PairPass2()
    ensures Multipass.Pass(Pair1, Multipass.Bidmas) == Continue(Pair1)
  {
    PairNone(LBracket);
    PassSteps(Pair1, Pair1, Pair1, Pair1, Pair1, Pair1, Pair1);
  }

  lemma PairInit()
    ensures Init(PairToks, Multipass.Bidmas) == Pair0
  {
  }

  lemma PairRun()
    ensures Multipass.Run(Pair0, Multipass.Bidmas) == RunDiverges
  {
    PairPass1();
    PairPass2();
    RunStep(Pair0, Pair1);
    RunStuck(Pair1);
  }

  /** `3 4` exhausts the precedence list and then repeats a pass that
      changes nothing, so `Parse` never returns. */
  lemma Pair()
    ensures Multipass.ParseTokens(PairToks, Multipass.Bidmas) == Diverges
  {
    PairInit();
    PairRun();
    ParsesVia(PairToks, Pair0, RunDiverges);
  }

  /* ( 3 ): a group holding one value. */

  const BracketedToks := [Open, N3, Close]
  const Bracketed0 := State([Tok(Open), Tok(N3), Tok(Close)], Multipass.Bidmas, false)
  const Bracketed1 := State([Nd(Operand(N3))], Multipass.Bidmas, false)

  lemma BracketedMatch()
    ensures FirstIndexOf(Bracketed0.list, LBracket) == 0
    ensures MatchingBracket(Bracketed0.list, 0) == 2
  {
    FirstIndexOfIs(Bracketed0.list, LBracket, 0);
    FlatGroup(Bracketed0.list, 0, 2);
  }

  lemma BracketedGroup()
    ensures Multipass.Group(Bracketed0, Multipass.Bidmas) == Continue(Bracketed1)
  {
    var s := Bracketed0.list;
    BracketedMatch();
    assert TokensOf(s[1..2]) == [N3];
    Multipass.SingleToken(N3, Multipass.Bidmas);
    GroupParsed(Bracketed0, 0, 2, Operand(N3));
    assert Multipass.Splice(s[..0], Operand(N3), s[3..]) == Bracketed1.list;
  }

  lemma BracketedInit()
    ensures Init(BracketedToks, Multipass.Bidmas) == Bracketed0
  {
  }

  lemma BracketedRun()
    ensures Multipass.Run(Bracketed0, Multipass.Bidmas) == Reduced([Nd(Operand(N3))])
  {
    BracketedGroup();
    PassSteps(Bracketed0, Bracketed1, Bracketed1, Bracketed1, Bracketed1, Bracketed1, Bracketed1);
    RunStep(Bracketed0, Bracketed1);
    RunDone(Bracketed1, Operand(N3));
  }

  /** `( 3 )` parses to the operand 3. */
  lemma Bracketed()
    ensures Multipass.ParseTokens(BracketedToks, Multipass.Bidmas) == Parsed(Operand(N3))
  {
    BracketedInit();
    BracketedRun();
    ParsesVia(BracketedToks, Bracketed0, Reduced([Nd(Operand(N3))]));
  }
}
