/**
 * The token model and the word classifier of lexer.go.
 *
 * Go's `TokenKind` and `TokenCategory` are integer enumerations; here they
 * are datatypes with one constructor per declared constant.  The exponent
 * kind is called EXP in lexer.go and POW in the two parsers; it is `Pow`.
 */
module Lexer {
  import opened Wrappers

  datatype Kind = Num | Alpha | Add | Sub | Div | Mul | Pow | LBracket | RBracket | Illegal

  datatype Category = ValueCat | OperatorCat | ParenCat | IllegalCat

  /** The five kinds the parsers can fold into a binary expression. */
  predicate IsOperatorKind(k: Kind) {
    k == Add || k == Sub || k == Mul || k == Div || k == Pow
  }

  /** An entry of an operator-precedence list. */
  type Operator = k: Kind | IsOperatorKind(k) witness Add

  /** `categorize`: the category is a function of the kind alone. */
  function Categorize(k: Kind): (c: Category)
    ensures c == OperatorCat <==> IsOperatorKind(k)
    ensures c == ValueCat <==> k == Num || k == Alpha
    ensures c == ParenCat <==> k == LBracket || k == RBracket
    ensures c == IllegalCat <==> k == Illegal
  {
    match k
    case Num | Alpha => ValueCat
    case Add | Sub | Mul | Div | Pow => OperatorCat
    case LBracket | RBracket => ParenCat
    case Illegal => IllegalCat
  }

  /** Go's `Token` struct; its fields are public, so the category stored in a
      token need not agree with its kind unless `NewToken` built it. */
  datatype Token = Token(kind: Kind, value: string, category: Category)

  /** `NewToken` always derives the category from the kind. */
  function NewToken(k: Kind, value: string): (t: Token)
    ensures t.kind == k && t.value == value
    ensures Consistent(t)
  {
    Token(k, value, Categorize(k))
  }

  /** A token whose stored category is the one its kind determines. */
  predicate Consistent(t: Token) {
    t.category == Categorize(t.kind)
  }

  /** `(*Token).Equal`: nil-aware, then field by field.  It coincides with
      equality of the two (possibly nil) tokens. */
  function TokenEqual(t: Option<Token>, other: Option<Token>): (eq: bool)
    ensures eq <==> t == other
  {
    if t.None? && other.None? then true
    else if t.None? || other.None? then false
    else
      t.value.kind == other.value.kind &&
      t.value.value == other.value.value &&
      t.value.category == other.value.category
  }

  /** `(*Tokens).Equal`: both nil are equal, one nil is not, otherwise the
      same length and pairwise `Equal`, checked by an index loop. */
  method TokensEqual(tks: Option<seq<Token>>, other: Option<seq<Token>>) returns (eq: bool)
    ensures eq <==> tks == other
  {
    if tks.None? && other.None? {
      return true;
    }
    if tks.None? || other.None? {
      return false;
    }
    var a, b := tks.value, other.value;
    if |a| != |b| {
      return false;
    }
    var i := 0;
    while i < |a|
      invariant 0 <= i <= |a|
      invariant forall j :: 0 <= j < i ==> a[j] == b[j]
    {
      if !TokenEqual(Some(a[i]), Some(b[i])) {
        return false;
      }
      i := i + 1;
    }
    assert a == b;
    return true;
  }

  /** Go's `Tokens` slice, grown in place by `Push`. */
  class TokenBuffer {
    var items: seq<Token>

    constructor ()
      ensures items == []
    {
      items := [];
    }

    /** `Push` appends at the end and keeps every earlier token. */
    method Push(t: Token)
      modifies this
      ensures items == old(items) + [t]
    {
      items := items + [t];
    }
  }

  /** The seven words with a kind of their own, each mapped to that kind. */
  function SymbolKind(w: string): Option<Kind> {
    if w == "+" then Some(Add)
    else if w == "-" then Some(Sub)
    else if w == "*" then Some(Mul)
    else if w == "/" then Some(Div)
    else if w == "^" then Some(Pow)
    else if w == "(" then Some(LBracket)
    else if w == ")" then Some(RBracket)
    else None
  }

  /**
   * The token `Lexer` makes of one word.  `isLetter` and `isNumber` stand
   * for Go's `IsLetter` (every rune a Unicode letter) and `IsNumber`
   * (`strconv.ParseFloat` succeeds); the letter test is tried first.
   */
  function Classify(w: string, isLetter: string -> bool, isNumber: string -> bool): (t: Token)
    ensures t.value == w && Consistent(t)
    ensures SymbolKind(w).Some? ==> t.kind == SymbolKind(w).value
    ensures SymbolKind(w).None? ==>
      t.kind == (if isLetter(w) then Alpha else if isNumber(w) then Num else Illegal)
  {
    match SymbolKind(w)
    case Some(k) => NewToken(k, w)
    case None =>
      if isLetter(w) then NewToken(Alpha, w)
      else if isNumber(w) then NewToken(Num, w)
      else NewToken(Illegal, w)
  }

  /** What `Lexer` returns for an already split sequence of words: one token
      per word, stopping right after the first ILLEGAL one. */
  function Lex(words: seq<string>, isLetter: string -> bool, isNumber: string -> bool): seq<Token>
  {
    if words == [] then []
    else
      var t := Classify(words[0], isLetter, isNumber);
      if t.kind == Illegal then [t] else [t] + Lex(words[1..], isLetter, isNumber)
  }

  /** Lex is the classification of every word up to and including the
      first ILLEGAL one. */
  lemma {:induction false} LexUpTo(words: seq<string>, isLetter: string -> bool, isNumber: string -> bool, ts: seq<Token>)
    requires |ts| <= |words|
    requires forall j :: 0 <= j < |ts| ==> ts[j] == Classify(words[j], isLetter, isNumber)
    requires forall j :: 0 <= j < |ts| - 1 ==> ts[j].kind != Illegal
    requires |ts| == |words| || (|ts| > 0 && ts[|ts| - 1].kind == Illegal)
    ensures Lex(words, isLetter, isNumber) == ts
  {
    if words != [] {
      if |ts| == 1 && ts[0].kind == Illegal {
      } else {
        LexUpTo(words[1..], isLetter, isNumber, ts[1..]);
      }
    }
  }

  /** `Lexer`, over the words `bufio.ScanWords` would produce. */
  method Tokenize(words: seq<string>, isLetter: string -> bool, isNumber: string -> bool)
    returns (tokens: seq<Token>)
    ensures tokens == Lex(words, isLetter, isNumber)
  {
    var buf := new TokenBuffer();
    var i := 0;
    while i < |words|
      invariant 0 <= i <= |words| && |buf.items| == i
      invariant forall j :: 0 <= j < i ==> buf.items[j] == Classify(words[j], isLetter, isNumber)
      invariant forall j :: 0 <= j < i ==> buf.items[j].kind != Illegal
    {
      var t := Classify(words[i], isLetter, isNumber);
      buf.Push(t);
      if t.kind == Illegal {
        LexUpTo(words, isLetter, isNumber, buf.items);
        return buf.items;
      }
      i := i + 1;
    }
    LexUpTo(words, isLetter, isNumber, buf.items);
    return buf.items;
  }

  /** At most one ILLEGAL token comes out of `Lexer`, and only as the last one. */
  lemma {:induction false} LexIllegalOnlyLast(words: seq<string>, isLetter: string -> bool, isNumber: string -> bool, i: nat)
    requires i < |Lex(words, isLetter, isNumber)|
    requires Lex(words, isLetter, isNumber)[i].kind == Illegal
    ensures i == |Lex(words, isLetter, isNumber)| - 1
  {
    var t := Classify(words[0], isLetter, isNumber);
    if t.kind != Illegal {
      LexIllegalOnlyLast(words[1..], isLetter, isNumber, i - 1);
    }
  }

  /** Token i keeps word i as its value and a category derived from its kind;
      without an ILLEGAL word there is one token per word. */
  lemma {:induction false} LexPerWord(words: seq<string>, isLetter: string -> bool, isNumber: string -> bool)
    ensures |Lex(words, isLetter, isNumber)| <= |words|
    ensures forall i :: 0 <= i < |Lex(words, isLetter, isNumber)| ==>
      Lex(words, isLetter, isNumber)[i] == Classify(words[i], isLetter, isNumber)
    ensures (forall i :: 0 <= i < |words| ==> Classify(words[i], isLetter, isNumber).kind != Illegal) ==>
      |Lex(words, isLetter, isNumber)| == |words|
  {
    if words != [] {
      LexPerWord(words[1..], isLetter, isNumber);
      var t := Classify(words[0], isLetter, isNumber);
      if t.kind != Illegal {
        forall i | 0 < i < |Lex(words, isLetter, isNumber)|
          ensures Lex(words, isLetter, isNumber)[i] == Classify(words[i], isLetter, isNumber)
        {
          assert Lex(words, isLetter, isNumber)[i] == Lex(words[1..], isLetter, isNumber)[i - 1];
          assert words[1..][i - 1] == words[i];
        }
        if forall i :: 0 <= i < |words| ==> Classify(words[i], isLetter, isNumber).kind != Illegal {
          forall i | 0 <= i < |words[1..]|
            ensures Classify(words[1..][i], isLetter, isNumber).kind != Illegal
          {
            assert words[1..][i] == words[i + 1];
          }
        }
      }
    }
  }
}
