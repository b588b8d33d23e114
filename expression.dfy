/**
  The expression tree and its one traversal, the `AstPrinter` visitor, which renders a
  tree as a fully parenthesised string. The four node shapes are one inductive datatype;
  `Accept` is the double dispatch from a node to the printer's handler for its shape.
 */
module Expression {
  import opened Tokens

  datatype Expr =
    | Binary(left: Expr, operator: Token, right: Expr)
    | Grouping(expression: Expr)
    | Literal(value: Tokens.Literal)
    | Unary(operator: Token, right: Expr)

  /** The number of nodes of a tree. */
  function Size(e: Expr): (n: nat)
    ensures n >= 1
  {
    match e
    case Binary(l, _, r) => 1 + Size(l) + Size(r)
    case Grouping(g) => 1 + Size(g)
    case Literal(_) => 1
    case Unary(_, r) => 1 + Size(r)
  }

  // ---------------------------------------------------------------------------
  // The printer

  /** `AstPrinter::print`: render a tree. */
  function Print(e: Expr): (r: string)
    ensures !e.Literal? ==> |r| >= 2 && r[0] == '(' && r[|r| - 1] == ')'
  {
    Accept(e)
  }

  /** `accept` with the printer as visitor: each shape runs the printer's handler for that shape. */
  function Accept(e: Expr): (r: string)
    ensures e.Binary? ==> r == VisitBinary(e)
    ensures e.Grouping? ==> r == VisitGrouping(e)
    ensures e.Literal? ==> r == VisitLiteral(e)
    ensures e.Unary? ==> r == VisitUnary(e)
    ensures !e.Literal? ==> |r| >= 2 && r[0] == '(' && r[|r| - 1] == ')'
    decreases Size(e), 1
  {
    match e
    case Binary(_, _, _) => VisitBinary(e)
    case Grouping(_) => VisitGrouping(e)
    case Literal(_) => VisitLiteral(e)
    case Unary(_, _) => VisitUnary(e)
  }

  /** `visit_binary_expression`. */
  function VisitBinary(e: Expr): (r: string)
    requires e.Binary?
    ensures |r| >= 2 && r[0] == '(' && r[|r| - 1] == ')'
    decreases Size(e), 0
  {
    ParenthesizeDouble(e.operator.lexeme, e.left, e.right)
  }

  /** `visit_grouping_expression`. */
  function VisitGrouping(e: Expr): (r: string)
    requires e.Grouping?
    ensures |r| >= 2 && r[0] == '(' && r[|r| - 1] == ')'
    decreases Size(e), 0
  {
    ParenthesizeSingle("group", e.expression)
  }

  /** `visit_literal_expression`. */
  function VisitLiteral(e: Expr): string
    requires e.Literal?
    decreases Size(e), 0
  {
    LiteralText(e.value)
  }

  /** `visit_unary_expression`. */
  function VisitUnary(e: Expr): (r: string)
    requires e.Unary?
    ensures |r| >= 2 && r[0] == '(' && r[|r| - 1] == ')'
    decreases Size(e), 0
  {
    ParenthesizeSingle(e.operator.lexeme, e.right)
  }

  /**
    The text of a literal. A number is rendered as the text it was written with; the
    source formats the 64-bit float instead (see README).
   */
  function LiteralText(v: Tokens.Literal): string
  {
    match v
    case Nil => "nil"
    case False => "false"
    case True => "true"
    case Number(text) => text
    case String(text) => text
  }

  /** `parenthesize_single`: a name and one rendered sub-tree, in parentheses. */
  function ParenthesizeSingle(name: string, first: Expr): (r: string)
    ensures |r| >= 2 && r[0] == '(' && r[|r| - 1] == ')'
    decreases Size(first), 2
  {
    var inner := Accept(first);
    if name == "group" then "(group " + inner + ")"
    else "(" + name + " " + inner + ")"
  }

  /** `parenthesize_double`: two rendered sub-trees around a name, in parentheses. */
  function ParenthesizeDouble(name: string, first: Expr, second: Expr): (r: string)
    ensures |r| >= 2 && r[0] == '(' && r[|r| - 1] == ')'
    decreases Size(first) + Size(second), 2
  {
    var left := Accept(first);
    var right := Accept(second);
    "(" + left + " " + name + " " + right + ")"
  }

  // ---------------------------------------------------------------------------
  // The rendering of each shape

  /** A binary node renders as its operands around its operator. */
  lemma PrintBinary(l: Expr, op: Token, r: Expr)
    ensures Print(Binary(l, op, r)) == "(" + Print(l) + " " + op.lexeme + " " + Print(r) + ")"
  {
    var e := Binary(l, op, r);
    assert Print(e) == VisitBinary(e) == ParenthesizeDouble(op.lexeme, l, r);
  }

  /** A grouping renders as `group` and its inner expression. */
  lemma PrintGrouping(g: Expr)
    ensures Print(Grouping(g)) == "(group " + Print(g) + ")"
  {
    var e := Grouping(g);
    assert Print(e) == VisitGrouping(e) == ParenthesizeSingle("group", g);
  }

  /** A unary node renders as its operator and its operand. */
  lemma PrintUnary(op: Token, r: Expr)
    ensures Print(Unary(op, r)) == "(" + op.lexeme + " " + Print(r) + ")"
  {
    var e := Unary(op, r);
    assert Print(e) == VisitUnary(e) == ParenthesizeSingle(op.lexeme, r);
    var inner := Print(r);
    if op.lexeme == "group" {
      assert "(group " + inner + ")" == "(" + op.lexeme + " " + inner + ")";
    }
  }

  /** The special `group` branch of `parenthesize_single` yields what the general format yields. */
  lemma GroupBranchRedundant(name: string, e: Expr)
    ensures ParenthesizeSingle(name, e) == "(" + name + " " + Print(e) + ")"
  {
    var inner := Print(e);
    if name == "group" {
      assert "(group " + inner + ")" == "(" + name + " " + inner + ")";
    }
  }

  /** Literals render as `nil`, `false`, `true`, or their text, unquoted. */
  lemma PrintLiteral(v: Tokens.Literal)
    ensures v.Nil? ==> Print(Literal(v)) == "nil"
    ensures v.False? ==> Print(Literal(v)) == "false"
    ensures v.True? ==> Print(Literal(v)) == "true"
    ensures v.Number? || v.String? ==> Print(Literal(v)) == v.text
  {
  }

  // ---------------------------------------------------------------------------
  // Balanced parentheses

  /** The number of occurrences of `c` in `s`. */
  function Count(s: string, c: char): nat
  {
    if s == [] then 0 else (if s[0] == c then 1 else 0) + Count(s[1..], c)
  }

  lemma {:induction false} CountAppend(a: string, b: string, c: char)
    ensures Count(a + b, c) == Count(a, c) + Count(b, c)
  {
    if a != [] {
      assert (a + b)[0] == a[0];
      assert (a + b)[1..] == a[1..] + b;
      CountAppend(a[1..], b, c);
      assert Count(a + b, c) == (if a[0] == c then 1 else 0) + Count(a[1..] + b, c);
    } else {
      assert a + b == b;
    }
  }

  /** No parenthesis in a text. */
  predicate Plain(t: string) {
    Count(t, '(') == 0 && Count(t, ')') == 0
  }

  /** No operator lexeme and no literal text of the tree holds a parenthesis. */
  predicate PlainLeaves(e: Expr) {
    match e
    case Binary(l, op, r) => PlainLeaves(l) && Plain(op.lexeme) && PlainLeaves(r)
    case Grouping(g) => PlainLeaves(g)
    case Literal(v) => Plain(LiteralText(v))
    case Unary(op, r) => Plain(op.lexeme) && PlainLeaves(r)
  }

  /** The number of nodes that are not literals. */
  function Inner(e: Expr): nat
  {
    match e
    case Binary(l, _, r) => 1 + Inner(l) + Inner(r)
    case Grouping(g) => 1 + Inner(g)
    case Literal(_) => 0
    case Unary(_, r) => 1 + Inner(r)
  }

  /**
    When no leaf text holds a parenthesis, the rendering holds exactly one `(` and one
    `)` per non-literal node: the printer parenthesises every node that is not a literal
    and nothing else.
   */
  lemma {:induction false} PrintBalanced(e: Expr, c: char)
    requires PlainLeaves(e)
    requires c == '(' || c == ')'
    ensures Count(Print(e), c) == Inner(e)
  {
    match e
    case Binary(l, op, r) =>
      PrintBalanced(l, c);
      PrintBalanced(r, c);
      BinaryCount(l, op, r, c);
    case Grouping(g) =>
      PrintBalanced(g, c);
      GroupingCount(g, c);
    case Literal(v) =>
    case Unary(op, r) =>
      PrintBalanced(r, c);
      UnaryCount(op, r, c);
  }

  /** The parentheses a binary node adds to those of its operands. */
  lemma BinaryCount(l: Expr, op: Token, r: Expr, c: char)
    requires Plain(op.lexeme)
    requires c == '(' || c == ')'
    ensures Count(Print(Binary(l, op, r)), c) == 1 + Count(Print(l), c) + Count(Print(r), c)
  {
    PrintBinary(l, op, r);
    var a, o, b := Print(l), op.lexeme, Print(r);
    CountAppend("(" + a + " " + o + " " + b, ")", c);
    CountAppend("(" + a + " " + o + " ", b, c);
    CountAppend("(" + a + " " + o, " ", c);
    CountAppend("(" + a + " ", o, c);
    CountAppend("(" + a, " ", c);
    CountAppend("(", a, c);
  }

  /** The parentheses a grouping adds to those of its inner expression. */
  lemma GroupingCount(g: Expr, c: char)
    requires c == '(' || c == ')'
    ensures Count(Print(Grouping(g)), c) == 1 + Count(Print(g), c)
  {
    PrintGrouping(g);
    CountAppend("(group " + Print(g), ")", c);
    CountAppend("(group ", Print(g), c);
  }

  /** The parentheses a unary node adds to those of its operand. */
  lemma UnaryCount(op: Token, r: Expr, c: char)
    requires Plain(op.lexeme)
    requires c == '(' || c == ')'
    ensures Count(Print(Unary(op, r)), c) == 1 + Count(Print(r), c)
  {
    PrintUnary(op, r);
    var o, b := op.lexeme, Print(r);
    CountAppend("(" + o + " " + b, ")", c);
    CountAppend("(" + o + " ", b, c);
    CountAppend("(" + o, " ", c);
    CountAppend("(", o, c);
  }

  // ---------------------------------------------------------------------------
  // The example tree

  /** The tree `create` builds: `-10.1 * (10.33)`. */
  function Create(): (e: Expr)
    ensures Print(e) == "((- 10.1) * (group 10.33))"
  {
    var minus := Unary(Token(TokenType.Minus, "-", 1, None), Literal(Tokens.Literal.Number("10.1")));
    var group := Grouping(Literal(Tokens.Literal.Number("10.33")));
    var star := Token(TokenType.Star, "*", 1, None);
    PrintExampleOperands();
    PrintBinary(minus, star, group);
    Binary(minus, star, group)
  }

  /** The two operands of the example tree. */
  lemma PrintExampleOperands()
    ensures Print(Unary(Token(TokenType.Minus, "-", 1, None), Literal(Tokens.Literal.Number("10.1")))) == "(- 10.1)"
    ensures Print(Grouping(Literal(Tokens.Literal.Number("10.33")))) == "(group 10.33)"
  {
    PrintUnary(Token(TokenType.Minus, "-", 1, None), Literal(Tokens.Literal.Number("10.1")));
    PrintGrouping(Literal(Tokens.Literal.Number("10.33")));
  }
}
