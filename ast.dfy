/**
 * The AST of ast/ast.go: an Operand wraps one token, a BinaryExpr holds an
 * operator kind and two children.  Children are Go interfaces and may be
 * nil, so they are options.  The root ast.go is an earlier version with the
 * same node types, constructors and `Equals`, no `String` methods, and only
 * `asOperand` among the type-assertion helpers.
 */
module Ast {
  import opened Wrappers
  import opened Lexer

  datatype NodeKind = NodeNumberAlphabet | NodeBinaryExpr

  datatype Node =
    | Operand(token: Token)
    | BinaryExpr(op: Kind, left: Option<Node>, right: Option<Node>)

  /** `NodeKind()` of the two node types. */
  function KindOf(n: Node): (k: NodeKind)
    ensures k == NodeNumberAlphabet <==> n.Operand?
    ensures k == NodeBinaryExpr <==> n.BinaryExpr?
  {
    match n
    case Operand(_) => NodeNumberAlphabet
    case BinaryExpr(_, _, _) => NodeBinaryExpr
  }

  /** `NewOperand`: the token is built by `NewToken`, so its category comes
      from its kind. */
  function NewOperand(k: Kind, value: string): (n: Node)
    ensures n.Operand? && n.token.kind == k && n.token.value == value
    ensures Consistent(n.token)
  {
    Operand(NewToken(k, value))
  }

  /** `NewBinaryExpr` with two non-nil children, as the parsers call it. */
  function NewBinaryExpr(op: Kind, left: Node, right: Node): (n: Node)
    ensures KindOf(n) == NodeBinaryExpr
    ensures n.op == op && n.left == Some(left) && n.right == Some(right)
  {
    BinaryExpr(op, Some(left), Some(right))
  }

  /**
   * `Equals` of both node types.  An Operand equals only an Operand whose
   * token is `Equal`; a BinaryExpr equals only a BinaryExpr with the same
   * operator whose children are nil on the same sides and otherwise equal
   * recursively.  The other node may be nil.
   */
  function Equals(n: Node, other: Option<Node>): bool
  {
    match n
    case Operand(t) =>
      other.Some? && other.value.Operand? && TokenEqual(Some(t), Some(other.value.token))
    case BinaryExpr(op, l, r) =>
      if other.None? || !other.value.BinaryExpr? then false
      else
        var o := other.value;
        if op != o.op then false
        else if (l.None? && o.left.Some?) || (l.Some? && o.left.None?) then false
        else if (r.None? && o.right.Some?) || (r.Some? && o.right.None?) then false
        else
          var leftEq := (l.None? && o.left.None?) || (l.Some? && Equals(l.value, o.left));
          var rightEq := (r.None? && o.right.None?) || (r.Some? && Equals(r.value, o.right));
          leftEq && rightEq
  }

  /** `Equals` is structural equality of trees, nil children included; this
      is what makes it usable as the tests' oracle. */
  lemma {:induction false} EqualsIsStructural(n: Node, other: Option<Node>)
    ensures Equals(n, other) <==> other == Some(n)
  {
    match n
    case Operand(t) =>
    case BinaryExpr(op, l, r) =>
      if other.Some? && other.value.BinaryExpr? {
        var o := other.value;
        if l.Some? {
          EqualsIsStructural(l.value, o.left);
        }
        if r.Some? {
          EqualsIsStructural(r.value, o.right);
        }
      }
  }

  /** Against a nil node, or a node of the other type, `Equals` is false. */
  lemma EqualsNeedsSameType(n: Node, other: Option<Node>)
    requires other.None? || KindOf(other.value) != KindOf(n)
    ensures !Equals(n, other)
  {
    EqualsIsStructural(n, other);
  }

  /** A value of the parsers' working list (Go `any`): a raw token or a node. */
  datatype Elem = Tok(token: Token) | Nd(node: Node)

  /** `AsNode`: the type assertion to `Node`. */
  function AsNode(v: Elem): (r: Option<Node>)
    ensures r.Some? <==> v.Nd?
    ensures r.Some? ==> r.value == v.node
  {
    match v
    case Nd(n) => Some(n)
    case Tok(_) => None
  }

  /**
   * `AsNodeV2`: a node comes back unchanged, a raw token is promoted to an
   * Operand of the same kind and value (its category re-derived by
   * `NewToken`).  Its third case, any other dynamic type, cannot arise for
   * a working-list value.
   */
  function AsNodeV2(v: Elem): (r: Option<Node>)
    ensures r.Some?
    ensures v.Nd? ==> r.value == v.node
    ensures v.Tok? ==>
              && KindOf(r.value) == NodeNumberAlphabet
              && r.value.token.kind == v.token.kind
              && r.value.token.value == v.token.value
              && Consistent(r.value.token)
  {
    match v
    case Nd(n) => Some(n)
    case Tok(t) => Some(NewOperand(t.kind, t.value))
  }

  /**
   * A Go `any` as the type assertions see it: a working-list value, or a
   * value of the struct type `Operand` itself.  The nodes the code builds
   * are pointers `*Operand`, which are `Nd` values; a bare `Operand` struct
   * is a different dynamic type.
   */
  datatype Dynamic = Held(elem: Elem) | OperandStruct(operand: Token)

  /**
   * `AsOperand`, and `AsOperator`, which makes the same assertion (and
   * `asOperand` of ast.go): it succeeds exactly on an `Operand` struct value
   * and returns the token it holds.
   */
  function AsOperand(v: Dynamic): (r: Option<Token>)
    ensures r.Some? <==> v.OperandStruct?
    ensures r.Some? ==> r.value == v.operand
  {
    match v
    case OperandStruct(t) => Some(t)
    case Held(_) => None
  }

  /** No value of a parser's working list, token or node, passes `AsOperand`:
      the assertion is to the struct, and the nodes are pointers. */
  lemma WorkingListNeverOperand(s: seq<Elem>)
    ensures forall i :: 0 <= i < |s| ==> AsOperand(Held(s[i])).None?
  {
  }
}
