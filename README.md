# parsingarthexpringo in Dafny

This is a model of the Go library `parsingarthexpringo`, which parses
arithmetic and algebraic expressions. Its lexer turns an input string into
tokens: numbers, letters, `+ - * / ^` and brackets. Its parser reduces the
token list, step by step, to one abstract syntax tree.

The parser does not use a grammar. It keeps a working list of raw tokens and
already-built nodes, and repeats one pass until a single value is left. Each
pass does two things:

- it parses the first bracketed group with a fresh parser and splices the
  resulting node into the list;
- it then gives each of `parsePow`, `parseMul`, `parseDiv`, `parseAdd` and
  `parseSub` one chance to fold the first occurrence of the operator at the
  head of the precedence list into a binary node.

An operator that no longer occurs is dropped from the head of the list.

The model has two parsers:

- the multi-pass parser of `multipassparser/parser.go`;
- its earlier draft, `parser.go` at the repository root.

The draft differs in three ways:

- it swallows every sub-pass error;
- it adds no implicit `*` around a group;
- its default BIDMAS order puts SUB before ADD.

Files:

- `wrappers.dfy` — `Option`.
- `lexer.dfy` (module `Lexer`) — token kinds, categories, tokens, `Tokens.Push`,
  the equality methods and `Lexer` over a sequence of words.
- `ast.dfy` (module `Ast`) — operand and binary-expression nodes, `Equals` and
  the type-assertion helpers of `ast/ast.go`. The root `ast.go` is an earlier
  version with the same node types, constructors and `Equals`, but with no
  `String` methods, and with `asOperand` as its only type-assertion helper.
- `worklist.dfy` (module `Worklist`) — what both parsers share:
  - the working list and the parser state;
  - what a sub-pass and `parse` can return;
  - `FindIndex`, the bracket-matching loop and the three-element fold;
  - `tokensToAny` and `anyToTokens`.
- `multipass.dfy` (module `Multipass`) — specification functions for every
  step of the multi-pass parser, and the class `Parser`. The class has the Go
  struct's fields, and its methods are proved to follow those functions.
- `draft.dfy` (module `Draft`) — the same for the draft parser.

Each Go function of a parser therefore appears twice:

- as a specification function over values, which the lemmas are about;
- as a method of the class, which updates the struct's fields as the Go
  code does and is proved to end where that function ends.

The method keeps the branches of the Go code, so it repeats the function's
tests. The two parsers also have their own copies of `Folds`, `FoldsIdle`
and `SingleToken`. The copies differ in the `Infix` and `ParseTokens` they
call, because the two parsers handle errors and brackets differently.
- `examples.dfy` (module `Examples`) — complete parses of concrete token
  lists, including inputs from the repository's tests.

How `parse` can end:

- **Recursion for ever.** `parse` recurses without limit. Whenever a pass
  leaves the state (list, precedence list, `hasResolvedGroups`) unchanged,
  the next pass is identical, and in Go the stack overflows. The model
  reports this as the outcome `Diverges`.
- **Index out of range.** `parseInfixExpr` reads past the slice when the
  operator is the first or last value. The model reports this as `Panics`.
- **Termination.** Every other pass strictly lowers a measure, compared in
  this order:
  1. the number of `(` tokens;
  2. whether groups are still unresolved;
  3. the length of the precedence list;
  4. the length of the working list.

  This measure is what makes `Run` a total function.

Two behaviours of the code are easy to miss, and the model keeps both:

- **Unmatched `(`.** `multipassparser/parser.go` declares
  `ErrNoMatchingBracket` (line 16), and `parseGroup` returns it for a `(`
  with no partner (line 176). But `parse` discards every sub-pass error: on a
  non-nil error it returns the list it got with a nil error (lines 96-99).
  So `ErrNoMatchingBracket` never reaches the caller. The multi-pass parser
  reports `CouldNotParseExpression` instead (`Examples.Unclosed`), and the
  draft parser never returns.
- **`3 4`.** An input with two adjacent values and no operator, such as
  `3 4`, never returns (`Examples.Pair`).

## Model

| member | source | states |
|---|---|---|
| Lexer.Categorize | lexer.go:62-73 | OPERATOR exactly for `+ - * / ^`, VALUE exactly for NUM and ALPHA, PAREN exactly for the brackets, ILLEGAL exactly for ILLEGAL |
| Lexer.NewToken | lexer.go:81-87 | the token has the given kind and value, and its category is the one its kind determines |
| Lexer.TokenEqual | lexer.go:113-123 | `Token.Equal` is true exactly when both tokens are nil, or both are non-nil and equal field by field |
| Lexer.TokensEqual | lexer.go:95-111 | the index loop of `Tokens.Equal` returns true exactly when the two (possibly nil) token lists are equal |
| Lexer.TokenBuffer.constructor | lexer.go:89 | a new token list is empty |
| Lexer.TokenBuffer.Push | lexer.go:91-93 | `Push` appends the token at the end and keeps every earlier token |
| Lexer.Classify | lexer.go:125-165 | a word becomes a token with that word as its value and a consistent category. The seven symbols get their own kind. Otherwise the kind is ALPHA if the letter test holds, else NUM if the number test holds, else ILLEGAL |
| Lexer.Tokenize | lexer.go:125-165 | the push loop of `Lexer` returns exactly `Lex`: one classified token per word, stopping right after the first ILLEGAL one |
| Lexer.LexUpTo | lexer.go:125-165 | `Lex` is the classification of every word, up to and including the first ILLEGAL one (the invariant the `Lexer` loop keeps) |
| Lexer.LexIllegalOnlyLast | lexer.go:156-160 | an ILLEGAL token can appear only as the last token `Lexer` returns |
| Lexer.LexPerWord | lexer.go:125-165 | token i is the classification of word i; there are never more tokens than words; with no ILLEGAL word there is exactly one token per word |
| Ast.KindOf | ast/ast.go:32-34 | an Operand reports NODE_NUMBER_ALPHABET and a BinaryExpr reports NODE_BINARY_EXPR, and these are the only cases |
| Ast.NewOperand | ast/ast.go:26-30 | the operand wraps a token of the given kind and value whose category is derived from the kind |
| Ast.NewBinaryExpr | ast/ast.go:54-60 | the node is a binary expression holding the given operator and both given children |
| Ast.EqualsIsStructural | ast/ast.go:66-84 | `Equals` on both node types, with nil checks and recursion into the children, holds exactly when the other node is the same tree |
| Ast.EqualsNeedsSameType | ast/ast.go:36-42 | `Equals` against nil, or against a node of the other type, is false |
| Ast.AsNode | ast/ast.go:100-103 | the assertion to `Node` succeeds exactly for nodes and returns the node itself |
| Ast.AsNodeV2 | ast/ast.go:105-114 | always succeeds on a working-list value. A node is returned unchanged; a token becomes an Operand with the same kind and value |
| Ast.AsOperand | ast/ast.go:90-98 | `AsOperand` and `AsOperator` succeed exactly when the dynamic value is an `Operand` struct (not a pointer), and then return that operand |
| Ast.WorkingListNeverOperand | ast/ast.go:90-98 | no working-list value, token or node pointer, is an `Operand` struct, so on the working list both assertions always fail |
| Worklist.FirstIndexOf | multipassparser/parser.go:137-140 | the `FindIndex` search returns the first index holding a token of the kind, or -1 exactly when there is none |
| Worklist.FirstIndexOfIs | multipassparser/parser.go:238-246 | any index that holds the kind, with none before it, is the `FindIndex` result |
| Worklist.MatchingBracket | multipassparser/parser.go:147-173 | the partner of the `(` at ind is the first later position where one plus the `(` count equals the `)` count, or -1 when there is no such position |
| Worklist.MatchingBracketIs | multipassparser/parser.go:147-173 | a balanced position with no balanced position before it is the partner |
| Worklist.FindMatching | multipassparser/parser.go:147-173 | the counting loop of `parseGroup`, which skips nodes and stops at the first equal count, returns `MatchingBracket` |
| Worklist.TokensToAny | multipassparser/parser.go:33-39 | `tokensToAny` gives one working-list value per token, in order |
| Worklist.AnyToTokens | multipassparser/parser.go:41-49 | `anyToTokens` keeps exactly the raw tokens, in order, and drops the nodes |
| Worklist.TokensRoundTrip | multipassparser/parser.go:33-49 | `anyToTokens` undoes `tokensToAny` |
| Worklist.InnerBrackets | multipassparser/parser.go:179-181 | the tokens strictly inside a group hold fewer `(` than the whole list, so the nested parse works on a smaller input |
| Worklist.Fold | multipassparser/parser.go:258-293 | the fold makes the list two shorter. The three values around the operator become one BinaryExpr of the operator and the `AsNodeV2` of its neighbours; every other value keeps its order |
| Worklist.FoldCount | multipassparser/parser.go:258-293 | a fold never adds a token of any kind |
| Worklist.CountSpan | multipassparser/parser.go:214-220 | removing a span that starts with `(` removes at least one `(` |
| Worklist.Wrap | multipassparser/parser.go:85-94 | the one-value case of `parse` leaves a node alone and promotes a raw token to an Operand with the same kind and value |
| Worklist.OperatorBetween | multipassparser/parser.go:238-293 | in the list `l o r` of an operator token between two values, `FindIndex` finds o's kind at 1 and no other operator and no `(`; the fold at 1 is the operator's BinaryExpr of the two Operands |
| Multipass.SpliceLayout | multipassparser/parser.go:187-220 | position by position: the values before the group, then `*` exactly when the left neighbour is a value that is not an OPERATOR token, then the node, then `*` exactly when the right neighbour is not an OPERATOR token, then the values after the group; the length counts each added `*` |
| Multipass.SpliceCount | multipassparser/parser.go:187-220 | a splice adds no `(`: the `(` count of the result is that of the values before plus that of the values after |
| Multipass.SpliceBrackets | multipassparser/parser.go:187-220 | splicing a parsed group in, with any added `*`, leaves fewer `(` tokens |
| Multipass.Group | multipassparser/parser.go:136-146 | with no `(` only `hasResolvedGroups` is set. Otherwise the step never raises the progress measure and keeps the precedence list |
| Multipass.GroupAt | multipassparser/parser.go:147-185 | an unmatched `(` aborts with NoMatchingBracket; a matched group is parsed by a fresh parser with the original precedence list, on strictly fewer `(` |
| Multipass.Resume | multipassparser/parser.go:179-220 | after the inner parse: a failure keeps the list; a node is spliced in and lowers the `(` count; a panic or endless recursion is passed on |
| Multipass.Infix | multipassparser/parser.go:223-294 | the step keeps `hasResolvedGroups` and never raises the progress measure. It does nothing unless groups are resolved and k heads the precedence list. An absent operator drops the head; a list shorter than 3 is an error; the first or last position panics; otherwise it folds |
| Multipass.Folds | multipassparser/parser.go:102-130 | the five fold calls, each on the state the previous one left, never raise the progress measure |
| Multipass.FoldsIdle | multipassparser/parser.go:223-236 | while groups are unresolved, or the head of the precedence list is not among the remaining fold operators, the folds change nothing |
| Multipass.Pass | multipassparser/parser.go:96-130 | one pass of `parse` never raises the progress measure |
| Multipass.Run | multipassparser/parser.go:84-134 | `parse` ends with an empty list (after a sub-pass error) or with a single node, unless it panics or recurses for ever |
| Multipass.ParseFrom | multipassparser/parser.go:60-82 | a trailing ILLEGAL token gives InvalidExpression; otherwise the result is a node or CouldNotParseExpression, unless the parse panics or recurses for ever |
| Multipass.SingleToken | multipassparser/parser.go:60-94 | a single token that is not ILLEGAL parses to an Operand of its kind and value; an ILLEGAL one gives InvalidExpression |
| Multipass.FoldsBinary | multipassparser/parser.go:102-130 | on a list with one operator of kind k in the middle, the fold calls drop every precedence entry before k and then fold the list into one node |
| Multipass.RunBinary | multipassparser/parser.go:84-134 | `parse` of such a list with the default BIDMAS order returns that one node after a single pass |
| Multipass.Binary | multipassparser/parser_test.go:40-65 | for every operator and every two NUM or ALPHA values, `l o r` parses to the operator's BinaryExpr of the two Operands |
| Multipass.Bracketed | multipassparser/parser.go:84-220 | an input that is one bracketed group, with no bracket inside, parses to exactly the node its inner tokens parse to: the group is spliced out for that node with no `*` around it, and the next call of `parse` returns it |
| Multipass.BracketedSingle | multipassparser/parser_test.go:29-38 | for every NUM or ALPHA token t, `( t )` parses to the Operand of t's kind and value |
| Multipass.BracketedBinary | multipassparser/parser_test.go:67-92 | for every operator and every two NUM or ALPHA values, `( l o r )` parses exactly as `l o r` does, to the operator's BinaryExpr of the two Operands |
| Multipass.Parser.constructor | multipassparser/parser.go:51-58 | `NewParser` stores the tokens and their working list, and the precedence list twice, with groups unresolved |
| Multipass.Parser.Parse | multipassparser/parser.go:60-82 | `Parse` returns `ParseFrom` of the state it started in, and after a successful parse the list field holds just the returned node |
| Multipass.Parser.Reduce | multipassparser/parser.go:84-134 | the recursive `parse`, which updates the fields, returns `Run` of the state it started in; a non-empty returned list is the list field itself, which the one-value case overwrites in place |
| Multipass.Parser.SubPasses | multipassparser/parser.go:96-130 | the sub-pass sequence, storing each list before the next call, ends in the state `Pass` gives, or with its error |
| Multipass.Parser.FoldPasses | multipassparser/parser.go:102-130 | the five fold calls in order end where `Folds` ends |
| Multipass.Parser.FoldStep | multipassparser/parser.go:102-106 | one fold call, with the list stored on success, advances `Folds` by one operator, or stops it with the call's reply |
| Multipass.Parser.ParseGroup | multipassparser/parser.go:136-146 | `parseGroup` leaves the list and precedence list in place and replies as `Group` says |
| Multipass.Parser.ParseGroupAt | multipassparser/parser.go:147-185 | matching, `anyToTokens` and the nested `NewParser(...).Parse()` reply as `GroupAt` says |
| Multipass.Parser.ResumeGroup | multipassparser/parser.go:179-220 | the reply to the inner parse's outcome is the one `Resume` gives |
| Multipass.Parser.SpliceGroup | multipassparser/parser.go:187-220 | the `before`/`after` assembly of `parseGroup` is `Splice` of the values left and right of the group, so it follows the implicit-`*` layout of `SpliceLayout` and lowers the `(` count (`SpliceBrackets`) |
| Multipass.Parser.ParseInfixExpr | multipassparser/parser.go:223-314 | `parseInfixExpr` keeps the list field and `hasResolvedGroups`, may shorten the precedence list, and replies as `Infix` says |
| Draft.Graft | parser.go:165-176 | the draft splice puts the node exactly in place of the span, with no `*` added |
| Draft.GraftBrackets | parser.go:157-176 | the draft splice leaves fewer `(` tokens |
| Draft.Group | parser.go:114-123 | the draft `parseGroup` marks groups resolved when there is no `(`, never raises the measure, and never gives an error `parse` would see |
| Draft.GroupAt | parser.go:125-159 | an unmatched `(` leaves the state unchanged (the error is discarded); otherwise the inner tokens are parsed on fewer `(` |
| Draft.Resume | parser.go:159-176 | after the draft inner parse: a failure keeps the list, a node is grafted in, a panic or endless recursion is passed on |
| Draft.Infix | parser.go:179-250 | as in the multi-pass parser, except that a list shorter than 3 is kept (the error is discarded); only a panic stops it |
| Draft.Folds | parser.go:95-108 | the five fold calls never raise the progress measure |
| Draft.FoldsIdle | parser.go:179-188 | while groups are unresolved, or the head of the precedence list is not a remaining fold operator, the folds change nothing |
| Draft.FoldsNeverAbort | parser.go:91-108 | the draft folds end in a state or a panic, never an error |
| Draft.Pass | parser.go:91-108 | a draft pass never raises the progress measure and never reports an error |
| Draft.Run | parser.go:80-112 | the draft `parse` returns a single node whenever it returns |
| Draft.ParseFrom | parser.go:58-78 | a trailing ILLEGAL token gives InvalidExpression; otherwise a node, unless the parse panics or recurses for ever |
| Draft.SingleToken | parser.go:58-89 | a single non-ILLEGAL token parses to an Operand of its kind and value |
| Draft.NeverCouldNotParse | parser.go:58-112 | the draft `Parse` never returns CouldNotParseExpression: it fails exactly when the last token is ILLEGAL |
| Draft.FoldsBinary | parser.go:95-108 | on a list with one POW, MUL, DIV or SUB in the middle, the first pass drops the entries before it and folds the list into one node; for SUB the ADD call waits, since SUB heads the list |
| Draft.FoldsBeforeAdd | parser.go:95-108 | on `l + r`, the first pass drops POW, MUL, DIV and SUB and leaves only ADD, because the ADD call comes while SUB still heads the draft order |
| Draft.FoldsAdd | parser.go:95-108 | the second pass on `l + r` folds it into one node |
| Draft.RunBinary | parser.go:80-112 | the draft `parse` of such a list with the draft order returns that one node, after one pass, or two for ADD |
| Draft.Binary | parser_test.go:34-54 | for every operator and every two NUM or ALPHA values, `l o r` parses to the operator's BinaryExpr of the two Operands in the draft parser too |
| Draft.DraftParser.constructor | parser.go:49-56 | `NewParser` of the draft stores the tokens, their working list and the precedence list twice |
| Draft.DraftParser.Parse | parser.go:58-78 | the draft `Parse` returns `ParseFrom` of the state it started in, and after a successful parse the list field holds just the returned node |
| Draft.DraftParser.Reduce | parser.go:80-112 | the draft `parse` returns `Run` of the state it started in, and any returned list is the list field itself |
| Draft.DraftParser.SubPasses | parser.go:91-108 | the sub-pass sequence, which ignores every error, ends in the state `Pass` gives |
| Draft.DraftParser.FoldPasses | parser.go:95-108 | the five fold calls in order end where `Folds` ends |
| Draft.DraftParser.FoldStep | parser.go:95-96 | one fold call advances `Folds` by one operator, or stops it with a panic |
| Draft.DraftParser.ParseGroup | parser.go:114-123 | the draft `parseGroup` replies as `Group` says |
| Draft.DraftParser.ParseGroupAt | parser.go:125-159 | matching and the nested parse reply as `GroupAt` says |
| Draft.DraftParser.ResumeGroup | parser.go:159-176 | the reply to the inner parse's outcome is the one `Resume` gives |
| Draft.DraftParser.ParseInfixExpr | parser.go:179-270 | the draft `parseInfixExpr` replies as `Infix` says |
| Examples.AddMul | multipassparser/parser_test.go:95-99 | `3 + 6 * 7` parses to ADD(3, MUL(6, 7)) |
| Examples.LeftNest | multipassparser/parser_test.go:110-114 | `2 + 4 * 6 - 3` parses to SUB(ADD(2, MUL(4, 6)), 3) |
| Examples.InnerParse | multipassparser/parser_test.go:117-121 | the inner group `2 + 4` of `3 * ( 2 + 4 )` parses to ADD(2, 4) |
| Examples.ImplicitMul | multipassparser/parser_test.go:117-126 | `3 * ( 2 + 4 )` and `3 ( 2 + 4 )` both parse to MUL(3, ADD(2, 4)) |
| Examples.PowFirst | multipassparser/parser_test.go:105-109 | `4 * 3 ^ 2` parses to MUL(4, POW(3, 2)) |
| Examples.DivFirst | multipassparser/parser_test.go:100-104 | `12 - 8 / 2` parses to SUB(12, DIV(8, 2)) |
| Examples.LeftAssoc | multipassparser/parser.go:238-293 | `a - b - c` parses to SUB(SUB(a, b), c): the fold takes the first occurrence of the operator |
| Examples.DiffParse | multipassparser/parser_test.go:127-131 | the inner group `a - b` of `( a - b ) * c` parses to SUB(a, b) |
| Examples.TrailingMul | multipassparser/parser_test.go:127-136 | `( a - b ) * c` and `( a - b ) c` both parse to MUL(SUB(a, b), c): a `*` is added after a group followed by a value |
| Examples.Bracketed | multipassparser/parser_test.go:29-33 | `( 3 )` parses to the operand 3 |
| Examples.PowBoth | parser_test.go:50-53 | `p ^ q` parses to POW(p, q) in both parsers |
| Examples.Unclosed | multipassparser/parser.go:96-99 | `( 3 + 2` gives CouldNotParseExpression in the multi-pass parser and never returns in the draft |
| Examples.MixedMultipass | multipassparser/parser.go:23 | with ADD before SUB, `a - b + c` parses to SUB(a, ADD(b, c)) |
| Examples.MixedDraft | parser.go:21 | with SUB before ADD, `a - b + c` parses to ADD(SUB(a, b), c) |
| Examples.Pair | multipassparser/parser.go:84-134 | `3 4` uses up the precedence list and then repeats an idle pass, so `Parse` never returns |

## Left out

- Splitting the input into words with `bufio.ScanWords`: `Lexer.Tokenize`
  takes the words directly.
- `IsLetter` and `IsNumber`, which rely on Unicode tables and
  `strconv.ParseFloat`: they are parameters of `Lexer.Classify`.
- The `String` methods of token kinds, tokens and nodes: they only format
  text.
- The message that `fmt.Errorf` wraps around NoMatchingBracket: only the
  error value is modelled.
- Integer values of token kinds outside the ten declared constants: `Kind` has
  exactly those ten.
- Sharing of the underlying arrays between Go slices. The length-one case of
  `parse` writes into `reducingTokens` in place. In `parseGroup`, the
  `append` to `before` overwrites the `(` in the old backing array, which is
  replaced right after. The model reassigns sequences, and neither write can
  be observed.
- Stack overflow and index-out-of-range panics are outcomes (`Diverges`,
  `Panics`), not process crashes.
- Endless recursion is detected only as a pass that leaves the whole state
  unchanged. Under the progress measure, this is the only way `parse` can
  recurse without end.
- `array.FindIndex` and `array.At` come from an external module. They are
  modelled by their documented behaviour: the first matching index or -1,
  and index access.
- `Ast.AsNodeV2`: its default case (a value that is neither a node nor a
  token) cannot arise, because a working-list value is always one of the two.
- `Ast.NewBinaryExpr` is modelled only with non-nil children. The parsers
  never pass nil, and `Ast.Node` still allows nil children for `Equals`.
- ErrInvalidReducingTokens is declared but never returned, so no path
  produces it.
- Go's `Node` interface, with `Operand`/`BinaryExpr` as pointer types and
  the `NodeKind` method: `Ast.Node` is a datatype.
- Naming: the root `parser.go` refers to POW while `lexer.go` declares the
  exponent kind as EXP. Both are the model's `Pow`.
- Undefined helpers: the root `parser.go` calls `asToken` and `asNodeV2`
  (lines 42, 84, 116, 135, 195, 215, 222, 229). Neither root file of this
  model (`parser.go`, `ast.go`) defines them, and the rest of the root
  package is not part of this model. The model reads them as
  `lexer.AsToken` and `ast.AsNodeV2`, the helpers the multi-pass parser
  uses.
- Non-operator precedence entries: Go's `OperatorPrecedence` is a slice of
  any `TokenKind`, but the model types the precedence list as
  `seq<Operator>`. A head that is not one of the five operators is never
  consumed by any fold call. Once groups are resolved, every pass on a list
  of two or more values is then idle, and `parse` recurses for ever: the
  model's `Diverges` outcome.
- The dynamic values the type assertions see are only the two
  cases of `Ast.Dynamic`: a working-list value, or an `Operand` struct.
  Other Go values never reach these helpers.
- The test functions themselves. Their inputs appear in two ways. The
  longer inputs are `Examples` lemmas on the token lists that `Lexer`
  produces for them. The short inputs of `multipassparser/parser_test.go`
  are instances of lemmas that hold for every token. `3` and `a` are
  instances of `Multipass.SingleToken`, and `( 3 )` and `( a )` of
  `Multipass.BracketedSingle`. The five `l o r` inputs are instances of
  `Multipass.Binary`, and the five `( l o r )` inputs of
  `Multipass.BracketedBinary`.
