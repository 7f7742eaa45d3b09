/** The expression tree (ast/NumberNode.java, ast/BinaryOpNode.java,
    ast/UnaryOpNode.java) and its fully parenthesised printed form.

    The node classes have only final fields, so the tree is a datatype: the
    getters are the destructors and the visitor's `accept` is a `match` on the
    variant. */
module Ast {

  datatype Expr =
    | Num(value: real)
    | Bin(left: Expr, op: string, right: Expr)
    | Un(op: string, operand: Expr)

  /** The printed form (toString). A number prints through `fmt`, which stands
      for `String.valueOf(double)`; a binary node prints as
      `(left op right)` and a unary node as `(op operand)`, with no space
      after the operator. */
  function Print(e: Expr, fmt: real -> string): (s: string)
    ensures e.Num? ==> s == fmt(e.value)
    ensures !e.Num? ==> |s| >= 2 && s[0] == '(' && s[|s| - 1] == ')'
  {
    match e
    case Num(v) => fmt(v)
    case Bin(l, op, r) => "(" + Print(l, fmt) + " " + op + " " + Print(r, fmt) + ")"
    case Un(op, x) => "(" + op + Print(x, fmt) + ")"
  }

  function Step(c: char): int {
    if c == '(' then 1 else if c == ')' then -1 else 0
  }

  /** Open parentheses minus closed ones. */
  function Depth(s: string): int {
    if s == [] then 0 else Depth(s[..|s| - 1]) + Step(s[|s| - 1])
  }

  /** Every ')' closes an earlier '(' and every '(' is closed. */
  predicate Balanced(s: string) {
    Depth(s) == 0 && forall k :: 0 <= k <= |s| ==> Depth(s[..k]) >= 0
  }

  /** One bracket group: balanced, and the first '(' closes only at the very
      end. */
  predicate Enclosed(s: string) {
    && |s| >= 2 && s[0] == '(' && s[|s| - 1] == ')'
    && Balanced(s)
    && forall k :: 0 < k < |s| ==> Depth(s[..k]) > 0
  }

  predicate NoParens(s: string) {
    forall i :: 0 <= i < |s| ==> s[i] != '(' && s[i] != ')'
  }

  lemma {:induction false} DepthConcat(a: string, b: string)
    ensures Depth(a + b) == Depth(a) + Depth(b)
    decreases |b|
  {
    if b == [] {
      assert a + b == a;
    } else {
      var b' := b[..|b| - 1];
      assert (a + b)[..|a + b| - 1] == a + b';
      DepthConcat(a, b');
    }
  }

  lemma {:induction false} NoParensDepth(s: string)
    requires NoParens(s)
    ensures Depth(s) == 0
  {
    if s != [] {
      NoParensDepth(s[..|s| - 1]);
    }
  }

  lemma NoParensBalanced(s: string)
    requires NoParens(s)
    ensures Balanced(s)
  {
    NoParensDepth(s);
    forall k | 0 <= k <= |s|
      ensures Depth(s[..k]) == 0
    {
      NoParensDepth(s[..k]);
    }
  }

  lemma BalancedConcat(a: string, b: string)
    requires Balanced(a) && Balanced(b)
    ensures Balanced(a + b)
  {
    DepthConcat(a, b);
    forall k | 0 <= k <= |a + b|
      ensures Depth((a + b)[..k]) >= 0
    {
      if k <= |a| {
        assert (a + b)[..k] == a[..k];
      } else {
        assert (a + b)[..k] == a + b[..k - |a|];
        DepthConcat(a, b[..k - |a|]);
      }
    }
  }

  /** Parentheses around a balanced text form one bracket group. */
  lemma WrapEnclosed(x: string)
    requires Balanced(x)
    ensures Enclosed("(" + x + ")")
  {
    var s := "(" + x + ")";
    DepthConcat("(" + x, ")");
    DepthConcat("(", x);
    forall k | 0 < k < |s|
      ensures Depth(s[..k]) > 0
    {
      assert s[..k] == "(" + x[..k - 1];
      DepthConcat("(", x[..k - 1]);
    }
    assert s[..|s|] == s;
    assert s[..0] == [];
  }

  lemma BinaryPrintShape(l: Expr, op: string, r: Expr, fmt: real -> string)
    ensures Print(Bin(l, op, r), fmt) == "(" + (Print(l, fmt) + (" " + op + " ") + Print(r, fmt)) + ")"
  {
    var a, b := Print(l, fmt), Print(r, fmt);
    assert "(" + a + " " + op + " " + b + ")" == "(" + (a + (" " + op + " ") + b) + ")";
  }

  lemma UnaryPrintShape(op: string, x: Expr, fmt: real -> string)
    ensures Print(Un(op, x), fmt) == "(" + (op + Print(x, fmt)) + ")"
  {
  }

  /** The printed form of a binary node is one bracket group when its
      children's printed forms are balanced and the operator holds no
      parenthesis. */
  lemma BinaryPrintEnclosed(l: Expr, op: string, r: Expr, fmt: real -> string)
    requires Balanced(Print(l, fmt)) && Balanced(Print(r, fmt)) && NoParens(op)
    ensures Enclosed(Print(Bin(l, op, r), fmt))
  {
    var a, b := Print(l, fmt), Print(r, fmt);
    var middle := " " + op + " ";
    NoParensBalanced(middle);
    BalancedConcat(a, middle);
    BalancedConcat(a + middle, b);
    BinaryPrintShape(l, op, r, fmt);
    WrapEnclosed(a + middle + b);
  }

  /** The same for a unary node: `(op operand)` is one bracket group when the
      operand's printed form is balanced. */
  lemma UnaryPrintEnclosed(op: string, x: Expr, fmt: real -> string)
    requires Balanced(Print(x, fmt)) && NoParens(op)
    ensures Enclosed(Print(Un(op, x), fmt))
  {
    NoParensBalanced(op);
    BalancedConcat(op, Print(x, fmt));
    UnaryPrintShape(op, x, fmt);
    WrapEnclosed(op + Print(x, fmt));
  }

  /** No operator of the tree contains a parenthesis. */
  predicate OpsWithoutParens(e: Expr) {
    match e
    case Num(_) => true
    case Bin(l, op, r) => NoParens(op) && OpsWithoutParens(l) && OpsWithoutParens(r)
    case Un(op, x) => NoParens(op) && OpsWithoutParens(x)
  }

  /** The whole printed tree is balanced, and every inner node is its own
      bracket group, when numbers print without parentheses. */
  lemma {:induction false} PrintBalanced(e: Expr, fmt: real -> string)
    requires forall v :: NoParens(fmt(v))
    requires OpsWithoutParens(e)
    ensures Balanced(Print(e, fmt))
    ensures !e.Num? ==> Enclosed(Print(e, fmt))
  {
    match e
    case Num(v) =>
      NoParensBalanced(fmt(v));
    case Bin(l, op, r) =>
      PrintBalanced(l, fmt);
      PrintBalanced(r, fmt);
      BinaryPrintEnclosed(l, op, r, fmt);
    case Un(op, x) =>
      PrintBalanced(x, fmt);
      UnaryPrintEnclosed(op, x, fmt);
  }
}
