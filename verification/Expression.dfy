/**
 The expression evaluator of the mock server: a tokenizer, Dijkstra's shunting
 yard, and a stack machine for the postfix code it emits.

 The arithmetic is a parameter (`Arith`), so nothing below can reassociate or
 commute an operator: what is proved is the order of evaluation itself.
 */
module Expression {

  datatype Error =
    | InvalidCharacter | InvalidToken | MismatchedParens
    | InvalidExpression | InvalidOperator | DivisionByZero

  datatype Result<+T> = Ok(value: T) | Err(error: Error)

  datatype Op = Add | Sub | Mul | Div

  /** A token as `shuntingYard` and `evalRPN` see it: `isNumber` first, then the switch. */
  datatype Token = Num(text: string) | Oper(op: Op) | Open | Close | Junk(text: string)

  /** float64 and `strconv.ParseFloat`, left abstract. */
  datatype Arith<!V> = Arith(
    isNumber: string -> bool,
    parse: string -> V,
    apply: (Op, V, V) -> V,
    isZero: V -> bool)

  function Prec(op: Op): nat { if op.Add? || op.Sub? then 1 else 2 }

  function Last<T>(s: seq<T>): T
    requires s != []
  {
    s[|s| - 1]
  }

  function Init<T>(s: seq<T>): seq<T>
    requires s != []
  {
    s[..|s| - 1]
  }

  function Reverse<T>(s: seq<T>): seq<T> {
    if s == [] then [] else Reverse(s[1..]) + [s[0]]
  }

  // ---------------------------------------------------------------------------
  // The shunting yard

  /** The operator stack (top last) and the output so far. */
  datatype Yard = Yard(ops: seq<Token>, out: seq<Token>)

  function PopHigher(y: Yard, p: nat): Yard
    decreases |y.ops|
  {
    if y.ops != [] && Last(y.ops).Oper? && Prec(Last(y.ops).op) >= p
    then PopHigher(Yard(Init(y.ops), y.out + [Last(y.ops)]), p)
    else y
  }

  function PopToOpen(y: Yard): Result<Yard>
    decreases |y.ops|
  {
    if y.ops == [] then Err(MismatchedParens)
    else if Last(y.ops).Open? then Ok(Yard(Init(y.ops), y.out))
    else PopToOpen(Yard(Init(y.ops), y.out + [Last(y.ops)]))
  }

  function Feed(y: Yard, t: Token): Result<Yard> {
    match t
    case Num(_) => Ok(y.(out := y.out + [t]))
    case Oper(op) => var z := PopHigher(y, Prec(op)); Ok(z.(ops := z.ops + [t]))
    case Open => Ok(y.(ops := y.ops + [t]))
    case Close => PopToOpen(y)
    case Junk(_) => Err(InvalidToken)
  }

  function Feeds(y: Yard, ts: seq<Token>): Result<Yard>
    decreases |ts|
  {
    if ts == [] then Ok(y)
    else match Feed(y, ts[0])
      case Err(e) => Err(e)
      case Ok(z) => Feeds(z, ts[1..])
  }

  function Drain(y: Yard): Result<seq<Token>>
    decreases |y.ops|
  {
    if y.ops == [] then Ok(y.out)
    else if Last(y.ops).Open? || Last(y.ops).Close? then Err(MismatchedParens)
    else Drain(Yard(Init(y.ops), y.out + [Last(y.ops)]))
  }

  function ToPostfix(ts: seq<Token>): Result<seq<Token>> {
    match Feeds(Yard([], []), ts)
    case Err(e) => Err(e)
    case Ok(y) => Drain(y)
  }

  /** `shuntingYard`, with its three nested pop loops. */
  method ShuntingYard(ts: seq<Token>) returns (r: Result<seq<Token>>)
    ensures r == ToPostfix(ts)
  {
    var output: seq<Token>, ops: seq<Token> := [], [];
    for i := 0 to |ts|
      invariant Feeds(Yard([], []), ts) == Feeds(Yard(ops, output), ts[i..])
    {
      var tok := ts[i];
      ghost var before := Yard(ops, output);
      assert ts[i..][0] == tok && ts[i..][1..] == ts[i + 1..];
      match tok
      case Num(_) =>
        output := output + [tok];
      case Oper(op) =>
        while |ops| > 0
          invariant PopHigher(Yard(ops, output), Prec(op)) == PopHigher(before, Prec(op))
        {
          var top := ops[|ops| - 1];
          if top.Oper? && Prec(top.op) >= Prec(op) {
            output := output + [top];
            ops := ops[..|ops| - 1];
          } else {
            break;
          }
        }
        ops := ops + [tok];
      case Open =>
        ops := ops + [tok];
      case Close =>
        var found := false;
        while |ops| > 0 && !found
          invariant found ==> PopToOpen(before) == Ok(Yard(ops, output))
          invariant !found ==> PopToOpen(Yard(ops, output)) == PopToOpen(before)
        {
          var top := ops[|ops| - 1];
          ops := ops[..|ops| - 1];
          if top.Open? {
            found := true;
          } else {
            output := output + [top];
          }
        }
        if !found {
          return Err(MismatchedParens);
        }
      case Junk(_) =>
        return Err(InvalidToken);
    }
    assert ts[|ts|..] == [];
    while |ops| > 0
      invariant Drain(Yard(ops, output)) == ToPostfix(ts)
    {
      var top := ops[|ops| - 1];
      ops := ops[..|ops| - 1];
      if top.Open? || top.Close? {
        return Err(MismatchedParens);
      }
      output := output + [top];
    }
    return Ok(output);
  }

  // ---------------------------------------------------------------------------
  // The postfix machine

  function StepRPN<V>(m: Arith<V>, stack: seq<V>, t: Token): Result<seq<V>> {
    if t.Num? then Ok(stack + [m.parse(t.text)])
    else if |stack| < 2 then Err(InvalidExpression)
    else
      var b := stack[|stack| - 1];
      var a := stack[|stack| - 2];
      if !t.Oper? then Err(InvalidOperator)
      else if t.op.Div? && m.isZero(b) then Err(DivisionByZero)
      else Ok(stack[..|stack| - 2] + [m.apply(t.op, a, b)])
  }

  function StepsRPN<V>(m: Arith<V>, stack: seq<V>, ts: seq<Token>): Result<seq<V>>
    decreases |ts|
  {
    if ts == [] then Ok(stack)
    else match StepRPN(m, stack, ts[0])
      case Err(e) => Err(e)
      case Ok(s) => StepsRPN(m, s, ts[1..])
  }

  function RunRPN<V>(m: Arith<V>, ts: seq<Token>): Result<V> {
    match StepsRPN(m, [], ts)
    case Err(e) => Err(e)
    case Ok(s) => if |s| == 1 then Ok(s[0]) else Err(InvalidExpression)
  }

  /** `evalRPN`. */
  method EvalRPN<V>(m: Arith<V>, ts: seq<Token>) returns (r: Result<V>)
    ensures r == RunRPN(m, ts)
  {
    var stack: seq<V> := [];
    for i := 0 to |ts|
      invariant StepsRPN(m, [], ts) == StepsRPN(m, stack, ts[i..])
    {
      assert ts[i..][0] == ts[i] && ts[i..][1..] == ts[i + 1..];
      if ts[i].Num? {
        stack := stack + [m.parse(ts[i].text)];
        continue;
      }
      if |stack| < 2 {
        return Err(InvalidExpression);
      }
      var b, a := stack[|stack| - 1], stack[|stack| - 2];
      ghost var before := stack;
      stack := stack[..|stack| - 2];
      if ts[i].Oper? {
        if ts[i].op.Div? && m.isZero(b) {
          return Err(DivisionByZero);
        }
        stack := stack + [m.apply(ts[i].op, a, b)];
      } else {
        return Err(InvalidOperator);
      }
    }
    assert ts[|ts|..] == [];
    if |stack| != 1 {
      return Err(InvalidExpression);
    }
    return Ok(stack[0]);
  }

  // ---------------------------------------------------------------------------
  // Expressions: what the tokens are meant to say

  /** A parenthesised infix expression; `Paren` is a pair of parentheses in the text. */
  datatype Expr = Lit(text: string) | Paren(inner: Expr) | Bin(op: Op, left: Expr, right: Expr)

  function Level(e: Expr): nat { if e.Bin? then Prec(e.op) else 3 }

  /** The usual grammar: `*` and `/` bind tighter, and every operator groups to the left. */
  predicate Grammatical(e: Expr) {
    match e
    case Lit(_) => true
    case Paren(x) => Grammatical(x)
    case Bin(op, l, r) =>
      Grammatical(l) && Grammatical(r) && Level(l) >= Prec(op) && Level(r) > Prec(op)
  }

  /** The same grammar with the operators named: a sum of products of factors, each grouped to the left. */
  predicate IsSum(e: Expr)
    decreases e, 2
  {
    IsProduct(e) || (e.Bin? && (e.op.Add? || e.op.Sub?) && IsSum(e.left) && IsProduct(e.right))
  }

  predicate IsProduct(e: Expr)
    decreases e, 1
  {
    IsFactor(e) || (e.Bin? && (e.op.Mul? || e.op.Div?) && IsProduct(e.left) && IsFactor(e.right))
  }

  predicate IsFactor(e: Expr)
    decreases e, 0
  {
    e.Lit? || (e.Paren? && IsSum(e.inner))
  }

  /** Grammatical expressions are the sums; the levels of the table are the three rules. */
  lemma {:induction false} GrammaticalIffSum(e: Expr)
    ensures Grammatical(e) <==> IsSum(e)
    ensures Grammatical(e) && (e.Bin? ==> e.op.Mul? || e.op.Div?) <==> IsProduct(e)
    ensures Grammatical(e) && !e.Bin? <==> IsFactor(e)
  {
    match e
    case Lit(_) =>
      assert IsFactor(e) && IsProduct(e);
    case Paren(x) =>
      GrammaticalIffSum(x);
      assert IsProduct(e) <==> IsFactor(e);
    case Bin(op, l, r) =>
      GrammaticalIffSum(l);
      GrammaticalIffSum(r);
      assert IsProduct(e) <==> (op.Mul? || op.Div?) && IsProduct(l) && IsFactor(r);
      assert IsSum(e) <==> IsProduct(e) || ((op.Add? || op.Sub?) && IsSum(l) && IsProduct(r));
  }

  function Print(e: Expr): seq<Token> {
    match e
    case Lit(s) => [Num(s)]
    case Paren(x) => [Open] + Print(x) + [Close]
    case Bin(op, l, r) => Print(l) + [Oper(op)] + Print(r)
  }

  function Postfix(e: Expr): seq<Token> {
    match e
    case Lit(s) => [Num(s)]
    case Paren(x) => Postfix(x)
    case Bin(op, l, r) => Postfix(l) + Postfix(r) + [Oper(op)]
  }

  function Meaning<V>(m: Arith<V>, e: Expr): V {
    match e
    case Lit(s) => m.parse(s)
    case Paren(x) => Meaning(m, x)
    case Bin(op, l, r) => m.apply(op, Meaning(m, l), Meaning(m, r))
  }

  /** Some subexpression of `e` divides by a value that is zero. */
  predicate DividesByZero<V>(m: Arith<V>, e: Expr) {
    match e
    case Lit(_) => false
    case Paren(x) => DividesByZero(m, x)
    case Bin(op, l, r) =>
      DividesByZero(m, l) || DividesByZero(m, r) || (op.Div? && m.isZero(Meaning(m, r)))
  }

  // ---------------------------------------------------------------------------
  // The yard on printed expressions

  /** Operators still on the stack, and code already emitted, once `e` has been fed. */
  function Pending(e: Expr): seq<Token> {
    if e.Bin? then [Oper(e.op)] + Pending(e.right) else []
  }

  function Emitted(e: Expr): seq<Token> {
    match e
    case Lit(s) => [Num(s)]
    case Paren(x) => Postfix(x)
    case Bin(_, l, r) => Postfix(l) + Emitted(r)
  }

  lemma {:induction false} EmittedThenPending(e: Expr)
    ensures Emitted(e) + Reverse(Pending(e)) == Postfix(e)
  {
    match e
    case Lit(_) =>
    case Paren(_) =>
    case Bin(op, l, r) =>
      EmittedThenPending(r);
      assert Pending(e)[1..] == Pending(r);
      calc {
        Emitted(e) + Reverse(Pending(e));
        Postfix(l) + Emitted(r) + (Reverse(Pending(r)) + [Oper(op)]);
        Postfix(l) + (Emitted(r) + Reverse(Pending(r))) + [Oper(op)];
        Postfix(e);
      }
  }

  lemma {:induction false} PendingLevels(e: Expr)
    requires Grammatical(e)
    ensures forall t <- Pending(e) :: t.Oper? && Prec(t.op) >= Level(e)
  {
    if e.Bin? {
      PendingLevels(e.right);
    }
  }

  lemma {:induction false} FeedsAppend(y: Yard, a: seq<Token>, b: seq<Token>)
    ensures Feeds(y, a + b) ==
            match Feeds(y, a) { case Err(e) => Err(e) case Ok(z) => Feeds(z, b) }
    decreases |a|
  {
    if a == [] {
      assert a + b == b;
    } else {
      assert (a + b)[0] == a[0] && (a + b)[1..] == a[1..] + b;
      if Feed(y, a[0]).Ok? {
        FeedsAppend(Feed(y, a[0]).value, a[1..], b);
      }
    }
  }

  lemma FeedsOne(y: Yard, t: Token)
    ensures Feeds(y, [t]) == Feed(y, t)
  {
    if Feed(y, t).Ok? {
      assert [t][1..] == [];
    }
  }

  lemma {:induction false} ReverseSnoc<T>(s: seq<T>)
    requires s != []
    ensures Reverse(s) == [Last(s)] + Reverse(Init(s))
  {
    if |s| > 1 {
      ReverseSnoc(s[1..]);
      assert Init(s[1..]) == Init(s)[1..];
    }
  }

  /** Popping takes off a whole block of operators that bind at least as tightly as `p`. */
  lemma {:induction false} PopHigherBlock(ops: seq<Token>, block: seq<Token>, out: seq<Token>, p: nat)
    requires forall t <- block :: t.Oper? && Prec(t.op) >= p
    requires ops == [] || !Last(ops).Oper? || Prec(Last(ops).op) < p
    ensures PopHigher(Yard(ops + block, out), p) == Yard(ops, out + Reverse(block))
    decreases |block|
  {
    if block == [] {
      assert ops + block == ops && out + Reverse(block) == out;
    } else {
      assert Last(ops + block) == Last(block) && Init(ops + block) == ops + Init(block);
      PopHigherBlock(ops, Init(block), out + [Last(block)], p);
      ReverseSnoc(block);
      assert out + [Last(block)] + Reverse(Init(block)) == out + Reverse(block);
    }
  }

  lemma {:induction false} PopToOpenBlock(ops: seq<Token>, block: seq<Token>, out: seq<Token>)
    requires forall t <- block :: t.Oper?
    ensures PopToOpen(Yard(ops + [Open] + block, out)) == Ok(Yard(ops, out + Reverse(block)))
    decreases |block|
  {
    var all := ops + [Open] + block;
    if block == [] {
      assert all == ops + [Open] && Init(all) == ops && out + Reverse(block) == out;
    } else {
      assert Last(all) == Last(block) && Init(all) == ops + [Open] + Init(block);
      assert Last(block) in block;
      PopToOpenBlock(ops, Init(block), out + [Last(block)]);
      ReverseSnoc(block);
      assert out + [Last(block)] + Reverse(Init(block)) == out + Reverse(block);
    }
  }

  lemma {:induction false} DrainBlock(block: seq<Token>, out: seq<Token>)
    requires forall t <- block :: t.Oper?
    ensures Drain(Yard(block, out)) == Ok(out + Reverse(block))
    decreases |block|
  {
    if block == [] {
      assert out + Reverse(block) == out;
    } else {
      assert Last(block) in block;
      DrainBlock(Init(block), out + [Last(block)]);
      ReverseSnoc(block);
      assert out + [Last(block)] + Reverse(Init(block)) == out + Reverse(block);
    }
  }

  ghost predicate Fits(y: Yard, level: nat) {
    y.ops == [] || !Last(y.ops).Oper? || Prec(Last(y.ops).op) < level
  }

  function After(y: Yard, e: Expr): Yard { Yard(y.ops + Pending(e), y.out + Emitted(e)) }

  lemma PostfixAfter(e: Expr, out: seq<Token>)
    requires Grammatical(e)
    ensures out + Emitted(e) + Reverse(Pending(e)) == out + Postfix(e)
  {
    EmittedThenPending(e);
    assert out + Emitted(e) + Reverse(Pending(e)) == out + (Emitted(e) + Reverse(Pending(e)));
  }

  /** Closing a parenthesis pops exactly what the expression inside left pending. */
  lemma {:induction false} FeedClose(x: Expr, y: Yard)
    requires Grammatical(x)
    ensures Feed(After(Yard(y.ops + [Open], y.out), x), Close) == Ok(Yard(y.ops, y.out + Postfix(x)))
  {
    PendingLevels(x);
    PopToOpenBlock(y.ops, Pending(x), y.out + Emitted(x));
    PostfixAfter(x, y.out);
  }

  /** An operator pops exactly what its left operand left pending. */
  lemma {:induction false} FeedOperator(l: Expr, op: Op, y: Yard)
    requires Grammatical(l) && Level(l) >= Prec(op) && Fits(y, Prec(op))
    ensures Feed(After(y, l), Oper(op)) == Ok(Yard(y.ops + [Oper(op)], y.out + Postfix(l)))
  {
    PendingLevels(l);
    PopHigherBlock(y.ops, Pending(l), y.out + Emitted(l), Prec(op));
    PostfixAfter(l, y.out);
  }

  lemma {:induction false} FeedParen(x: Expr, y: Yard)
    requires Grammatical(x)
    requires Feeds(Yard(y.ops + [Open], y.out), Print(x)) == Ok(After(Yard(y.ops + [Open], y.out), x))
    ensures Feeds(y, [Open] + Print(x) + [Close]) == Ok(Yard(y.ops, y.out + Postfix(x)))
  {
    FeedsAppend(y, [Open] + Print(x), [Close]);
    FeedsAppend(y, [Open], Print(x));
    FeedsOne(y, Open);
    FeedsOne(After(Yard(y.ops + [Open], y.out), x), Close);
    FeedClose(x, y);
  }

  lemma {:induction false} FeedBinary(op: Op, l: Expr, r: Expr, y: Yard, z: Yard)
    requires Grammatical(Bin(op, l, r)) && Fits(y, Level(Bin(op, l, r)))
    requires Feeds(y, Print(l)) == Ok(After(y, l))
    requires Feeds(Yard(y.ops + [Oper(op)], y.out + Postfix(l)), Print(r)) == Ok(z)
    ensures Feeds(y, Print(l) + [Oper(op)] + Print(r)) == Ok(z)
  {
    FeedsAppend(y, Print(l) + [Oper(op)], Print(r));
    FeedsAppend(y, Print(l), [Oper(op)]);
    FeedsOne(After(y, l), Oper(op));
    FeedOperator(l, op, y);
  }

  lemma BinaryFits(op: Op, l: Expr, r: Expr, y: Yard)
    requires Grammatical(Bin(op, l, r)) && Fits(y, Level(Bin(op, l, r)))
    ensures Fits(y, Level(l)) && Fits(Yard(y.ops + [Oper(op)], y.out + Postfix(l)), Level(r))
  {
  }

  lemma BinaryAfter(op: Op, l: Expr, r: Expr, y: Yard)
    ensures After(Yard(y.ops + [Oper(op)], y.out + Postfix(l)), r) == After(y, Bin(op, l, r))
  {
  }

  /** The heart: feeding a grammatical expression above a weaker operator. */
  lemma {:induction false} FeedExpr(e: Expr, y: Yard)
    requires Grammatical(e) && Fits(y, Level(e))
    ensures Feeds(y, Print(e)) == Ok(After(y, e))
  {
    match e
    case Lit(s) =>
      FeedsOne(y, Num(s));
      assert y.ops + [] == y.ops;
    case Paren(x) =>
      FeedExpr(x, Yard(y.ops + [Open], y.out));
      FeedParen(x, y);
      assert y.ops + Pending(e) == y.ops;
    case Bin(op, l, r) =>
      BinaryFits(op, l, r, y);
      var y2 := Yard(y.ops + [Oper(op)], y.out + Postfix(l));
      FeedExpr(l, y);
      FeedExpr(r, y2);
      FeedBinary(op, l, r, y, After(y2, r));
      BinaryAfter(op, l, r, y);
  }

  lemma YardCompiles(e: Expr)
    requires Grammatical(e)
    ensures ToPostfix(Print(e)) == Ok(Postfix(e))
  {
    FeedExpr(e, Yard([], []));
    PendingLevels(e);
    DrainBlock(Pending(e), Emitted(e));
    EmittedThenPending(e);
    assert [] + Pending(e) == Pending(e) && [] + Emitted(e) == Emitted(e);
  }

  // ---------------------------------------------------------------------------
  // The machine on postfix code

  lemma {:induction false} StepsAppend<V>(m: Arith<V>, stack: seq<V>, a: seq<Token>, b: seq<Token>)
    ensures StepsRPN(m, stack, a + b) ==
            match StepsRPN(m, stack, a) { case Err(e) => Err(e) case Ok(s) => StepsRPN(m, s, b) }
    decreases |a|
  {
    if a == [] {
      assert a + b == b;
    } else {
      assert (a + b)[0] == a[0] && (a + b)[1..] == a[1..] + b;
      if StepRPN(m, stack, a[0]).Ok? {
        StepsAppend(m, StepRPN(m, stack, a[0]).value, a[1..], b);
      }
    }
  }

  lemma StepsOne<V>(m: Arith<V>, stack: seq<V>, t: Token)
    ensures StepsRPN(m, stack, [t]) == StepRPN(m, stack, t)
  {
    if StepRPN(m, stack, t).Ok? {
      assert [t][1..] == [];
    }
  }

  lemma {:induction false} MachineEvaluates<V>(m: Arith<V>, e: Expr, stack: seq<V>)
    ensures StepsRPN(m, stack, Postfix(e)) ==
            if DividesByZero(m, e) then Err(DivisionByZero) else Ok(stack + [Meaning(m, e)])
  {
    match e
    case Lit(s) => StepsOne(m, stack, Num(s));
    case Paren(x) => MachineEvaluates(m, x, stack);
    case Bin(op, l, r) =>
      var s1 := stack + [Meaning(m, l)];
      var s2 := s1 + [Meaning(m, r)];
      StepsAppend(m, stack, Postfix(l) + Postfix(r), [Oper(op)]);
      StepsAppend(m, stack, Postfix(l), Postfix(r));
      MachineEvaluates(m, l, stack);
      MachineEvaluates(m, r, s1);
      StepsOne(m, s2, Oper(op));
      assert s2[..|s2| - 2] == stack;
  }

  /** Compiler correctness: tokens in, value out, and division by zero the only error. */
  lemma CompilerCorrect<V>(m: Arith<V>, e: Expr)
    requires Grammatical(e)
    ensures ToPostfix(Print(e)).Ok?
    ensures RunRPN(m, ToPostfix(Print(e)).value) ==
            if DividesByZero(m, e) then Err(DivisionByZero) else Ok(Meaning(m, e))
  {
    YardCompiles(e);
    MachineEvaluates(m, e, []);
  }

  // ---------------------------------------------------------------------------
  // Every tree can be printed, and printing is unambiguous

  datatype Tree = Leaf(text: string) | Node(op: Op, left: Tree, right: Tree)

  function TreeValue<V>(m: Arith<V>, t: Tree): V {
    match t
    case Leaf(s) => m.parse(s)
    case Node(op, l, r) => m.apply(op, TreeValue(m, l), TreeValue(m, r))
  }

  /** The tree with parentheses exactly where precedence and left grouping need them. */
  function Parenthesize(t: Tree): Expr {
    match t
    case Leaf(s) => Lit(s)
    case Node(op, l, r) =>
      var x, y := Parenthesize(l), Parenthesize(r);
      Bin(op, if Level(x) < Prec(op) then Paren(x) else x, if Level(y) <= Prec(op) then Paren(y) else y)
  }

  lemma {:induction false} ParenthesizeCorrect<V>(m: Arith<V>, t: Tree)
    ensures Grammatical(Parenthesize(t)) && Meaning(m, Parenthesize(t)) == TreeValue(m, t)
  {
    if t.Node? {
      ParenthesizeCorrect(m, t.left);
      ParenthesizeCorrect(m, t.right);
    }
  }

  function Strip(e: Expr): Tree {
    match e
    case Lit(s) => Leaf(s)
    case Paren(x) => Strip(x)
    case Bin(op, l, r) => Node(op, Strip(l), Strip(r))
  }

  /** The free arithmetic, whose values are the trees themselves. */
  function FreeArith(): Arith<Tree> {
    Arith(s => true, s => Leaf(s), (op, a, b) => Node(op, a, b), t => false)
  }

  lemma {:induction false} FreeMeaning(e: Expr)
    ensures Meaning(FreeArith(), e) == Strip(e) && !DividesByZero(FreeArith(), e)
  {
    match e
    case Lit(_) =>
    case Paren(x) => FreeMeaning(x);
    case Bin(_, l, r) => FreeMeaning(l); FreeMeaning(r);
  }

  /** Two grammatical expressions with the same tokens are the same tree. */
  lemma PrintUnambiguous(e1: Expr, e2: Expr)
    requires Grammatical(e1) && Grammatical(e2) && Print(e1) == Print(e2)
    ensures Strip(e1) == Strip(e2)
  {
    CompilerCorrect(FreeArith(), e1);
    CompilerCorrect(FreeArith(), e2);
    FreeMeaning(e1);
    FreeMeaning(e2);
  }

  // ---------------------------------------------------------------------------
  // The yard on arbitrary tokens

  /** What a left-to-right scan finds wrong first, `depth` parentheses being open. */
  function FirstFault(ts: seq<Token>, depth: nat): Result<nat>
    decreases |ts|
  {
    if ts == [] then (if depth == 0 then Ok(0) else Err(MismatchedParens))
    else match Depth(ts[0], depth)
      case Err(e) => Err(e)
      case Ok(d) => FirstFault(ts[1..], d)
  }

  function Opens(ts: seq<Token>): nat { multiset(ts)[Open] }

  ghost predicate StackOk(y: Yard) { forall t <- y.ops :: t.Oper? || t.Open? }

  /** The tokens the yard owes to the output: all but the parentheses. */
  function Payload(ts: seq<Token>): multiset<Token> { multiset(ts)[Open := 0][Close := 0] }

  lemma SnocSplit(ts: seq<Token>)
    requires ts != []
    ensures multiset(ts) == multiset(Init(ts)) + multiset{Last(ts)}
  {
    assert ts == Init(ts) + [Last(ts)];
  }

  lemma {:induction false} PopHigherKeeps(y: Yard, p: nat)
    requires StackOk(y)
    ensures var z := PopHigher(y, p);
            StackOk(z) && Opens(z.ops) == Opens(y.ops) &&
            Payload(z.ops) + multiset(z.out) == Payload(y.ops) + multiset(y.out)
    decreases |y.ops|
  {
    if y.ops != [] && Last(y.ops).Oper? && Prec(Last(y.ops).op) >= p {
      SnocSplit(y.ops);
      PopHigherKeeps(Yard(Init(y.ops), y.out + [Last(y.ops)]), p);
    }
  }

  lemma {:induction false} PopToOpenKeeps(y: Yard)
    requires StackOk(y)
    ensures PopToOpen(y) == Err(MismatchedParens) <==> Opens(y.ops) == 0
    ensures PopToOpen(y).Ok? <==> Opens(y.ops) > 0
    ensures PopToOpen(y).Ok? ==>
              var z := PopToOpen(y).value;
              StackOk(z) && Opens(z.ops) == Opens(y.ops) - 1 &&
              Payload(z.ops) + multiset(z.out) == Payload(y.ops) + multiset(y.out)
    decreases |y.ops|
  {
    if y.ops != [] {
      SnocSplit(y.ops);
    }
    if y.ops != [] && !Last(y.ops).Open? {
      PopToOpenKeeps(Yard(Init(y.ops), y.out + [Last(y.ops)]));
    }
  }

  lemma {:induction false} DrainKeeps(y: Yard)
    requires StackOk(y)
    ensures Opens(y.ops) > 0 ==> Drain(y) == Err(MismatchedParens)
    ensures Opens(y.ops) == 0 ==>
              Drain(y).Ok? && multiset(Drain(y).value) == Payload(y.ops) + multiset(y.out)
    decreases |y.ops|
  {
    if y.ops != [] {
      SnocSplit(y.ops);
    }
    if y.ops != [] && !Last(y.ops).Open? {
      DrainKeeps(Yard(Init(y.ops), y.out + [Last(y.ops)]));
    }
  }

  /** The parenthesis depth after `t`, or what is wrong with `t` at this depth. */
  function Depth(t: Token, depth: nat): Result<nat> {
    match t
    case Junk(_) => Err(InvalidToken)
    case Open => Ok(depth + 1)
    case Close => if depth == 0 then Err(MismatchedParens) else Ok(depth - 1)
    case _ => Ok(depth)
  }

  function Held(y: Yard): multiset<Token> { Payload(y.ops) + multiset(y.out) }

  /** What a token does to a yard that a scan would let it into. */
  ghost predicate Kept(y: Yard, t: Token, d: nat) {
    Feed(y, t).Ok? && var z := Feed(y, t).value;
    StackOk(z) && Opens(z.ops) == d && Held(z) == Held(y) + Payload([t])
  }

  lemma FeedOperKeeps(y: Yard, op: Op)
    requires StackOk(y)
    ensures Kept(y, Oper(op), Opens(y.ops))
  {
    PopHigherKeeps(y, Prec(op));
  }

  lemma FeedCloseKeeps(y: Yard)
    requires StackOk(y)
    ensures if Opens(y.ops) == 0 then Feed(y, Close) == Err(MismatchedParens) else Kept(y, Close, Opens(y.ops) - 1)
  {
    PopToOpenKeeps(y);
  }

  lemma FeedKeeps(y: Yard, t: Token)
    requires StackOk(y)
    ensures match Depth(t, Opens(y.ops))
            case Err(e) => Feed(y, t) == Err(e)
            case Ok(d) => Kept(y, t, d)
  {
    match t
    case Oper(op) => FeedOperKeeps(y, op);
    case Close => FeedCloseKeeps(y);
    case _ =>
  }

  lemma {:induction false} FeedsFromAnywhere(y: Yard, ts: seq<Token>)
    requires StackOk(y)
    ensures var r := match Feeds(y, ts) { case Err(e) => Err(e) case Ok(z) => Drain(z) };
            match FirstFault(ts, Opens(y.ops))
            case Err(e) => r == Err(e)
            case Ok(_) => r.Ok? && multiset(r.value) == Held(y) + Payload(ts)
    decreases |ts|
  {
    if ts == [] {
      DrainKeeps(y);
    } else {
      FeedKeeps(y, ts[0]);
      if Feed(y, ts[0]).Ok? {
        FeedsFromAnywhere(Feed(y, ts[0]).value, ts[1..]);
        PayloadCons(ts);
      }
    }
  }

  lemma PayloadCons(ts: seq<Token>)
    requires ts != []
    ensures Payload(ts) == Payload([ts[0]]) + Payload(ts[1..])
  {
    assert ts == [ts[0]] + ts[1..];
  }

  /**
   On any tokens at all the yard fails exactly when a scan finds a junk token or
   an unbalanced parenthesis, with that error, and otherwise its output is a
   permutation of the operands and operators.
   */
  lemma YardOutcome(ts: seq<Token>)
    ensures match FirstFault(ts, 0)
            case Err(e) => ToPostfix(ts) == Err(e)
            case Ok(_) => ToPostfix(ts).Ok? && multiset(ToPostfix(ts).value) == Payload(ts)
  {
    FeedsFromAnywhere(Yard([], []), ts);
  }

  // ---------------------------------------------------------------------------
  // The tokenizer, and the evaluator end to end

  predicate IsSpace(c: char) { c == ' ' || c == '\t' || c == '\n' }
  predicate IsNumChar(c: char) { '0' <= c <= '9' || c == '.' }
  predicate IsPunct(c: char) { c in "+-*/()" }
  predicate Legal(c: char) { IsSpace(c) || IsNumChar(c) || IsPunct(c) }

  /** Length of the longest prefix of digits and dots. */
  function RunLength(s: string): (n: nat)
    ensures n <= |s| && forall k :: 0 <= k < n ==> IsNumChar(s[k])
    ensures n < |s| ==> !IsNumChar(s[n])
  {
    if s == [] || !IsNumChar(s[0]) then 0 else 1 + RunLength(s[1..])
  }

  function Prepend(ws: seq<string>, r: Result<seq<string>>): Result<seq<string>> {
    match r case Err(e) => Err(e) case Ok(us) => Ok(ws + us)
  }

  function Lexemes(s: string): Result<seq<string>> {
    if s == [] then Ok([])
    else if IsSpace(s[0]) then Lexemes(s[1..])
    else if IsNumChar(s[0]) then
      var n := RunLength(s);
      Prepend([s[..n]], Lexemes(s[n..]))
    else if IsPunct(s[0]) then Prepend([[s[0]]], Lexemes(s[1..]))
    else Err(InvalidCharacter)
  }

  lemma PrependTwice(a: seq<string>, b: seq<string>, r: Result<seq<string>>)
    ensures Prepend(a, Prepend(b, r)) == Prepend(a + b, r)
  {
    if r.Ok? {
      assert a + (b + r.value) == a + b + r.value;
    }
  }

  lemma PrependNone(r: Result<seq<string>>)
    ensures Prepend([], r) == r
  {
    if r.Ok? {
      assert [] + r.value == r.value;
    }
  }

  /** `tokenize`. */
  method Tokenize(expr: string) returns (r: Result<seq<string>>)
    ensures r == Lexemes(expr)
  {
    var tokens: seq<string> := [];
    var i := 0;
    assert expr[0..] == expr;
    PrependNone(Lexemes(expr));
    while i < |expr|
      invariant i <= |expr|
      invariant Lexemes(expr) == Prepend(tokens, Lexemes(expr[i..]))
    {
      var ch := expr[i];
      assert expr[i..][0] == ch && expr[i..][1..] == expr[i + 1..];
      if IsSpace(ch) {
        i := i + 1;
        continue;
      }
      if IsNumChar(ch) {
        var start := i;
        ghost var run := RunLength(expr[start..]);
        assert forall k :: start <= k < start + run ==> IsNumChar(expr[k]) by {
          assert forall k :: start <= k < start + run ==> expr[k] == expr[start..][k - start];
        }
        i := i + 1;
        while i < |expr| && IsNumChar(expr[i])
          invariant start < i <= start + run <= |expr|
        {
          assert run < |expr[start..]| ==> !IsNumChar(expr[start..][run]);
          i := i + 1;
        }
        assert expr[start..][..run] == expr[start..i] && expr[start..][run..] == expr[i..];
        PrependTwice(tokens, [expr[start..i]], Lexemes(expr[i..]));
        tokens := tokens + [expr[start..i]];
        continue;
      }
      if IsPunct(ch) {
        PrependTwice(tokens, [[ch]], Lexemes(expr[i + 1..]));
        tokens := tokens + [[ch]];
        i := i + 1;
        continue;
      }
      return Err(InvalidCharacter);
    }
    assert expr[i..] == [] && tokens + [] == tokens;
    return Ok(tokens);
  }

  /** Tokenizing fails exactly on an illegal character, and never any other way. */
  lemma {:induction false} TokenizeFailsOnlyOnIllegal(s: string)
    ensures Lexemes(s).Ok? <==> forall c <- s :: Legal(c)
    ensures Lexemes(s).Ok? <==> forall c <- s :: c in "0123456789.+-*/() \t\n"
    ensures Lexemes(s).Err? ==> Lexemes(s).error == InvalidCharacter
    decreases |s|
  {
    forall c ensures Legal(c) <==> c in "0123456789.+-*/() \t\n" {
      LegalIs(c);
    }
    if s != [] {
      var n := if IsNumChar(s[0]) then RunLength(s) else 1;
      assert s == s[..n] + s[n..];
      if Legal(s[0]) {
        TokenizeFailsOnlyOnIllegal(s[n..]);
      }
    }
  }

  lemma LegalIs(c: char)
    ensures Legal(c) <==> c in "0123456789.+-*/() \t\n"
  {
  }

  function Flat(ws: seq<string>): string { if ws == [] then [] else ws[0] + Flat(ws[1..]) }

  /** The text without its blanks. */
  function Dense(s: string): string {
    if s == [] then []
    else if s[0] == ' ' || s[0] == '\t' || s[0] == '\n' then Dense(s[1..])
    else [s[0]] + Dense(s[1..])
  }

  predicate IsNumeral(w: string) { w != [] && forall c <- w :: '0' <= c <= '9' || c == '.' }

  lemma {:induction false} DenseNumber(w: string, rest: string)
    requires w == [] || IsNumeral(w)
    ensures Dense(w + rest) == w + Dense(rest)
  {
    if w == [] {
      assert w + rest == rest;
    } else {
      assert w[0] in w && (w + rest)[0] == w[0] && (w + rest)[1..] == w[1..] + rest;
      assert forall c <- w[1..] :: c in w;
      DenseNumber(w[1..], rest);
      assert [w[0]] + (w[1..] + Dense(rest)) == w + Dense(rest);
    }
  }

  /** A numeral, or one operator or parenthesis. */
  predicate IsLexeme(w: string) { IsNumeral(w) || w in {"+", "-", "*", "/", "(", ")"} }

  lemma FirstLexeme(s: string)
    requires s != [] && Legal(s[0]) && !IsSpace(s[0])
    ensures var n := if IsNumChar(s[0]) then RunLength(s) else 1;
            0 < n <= |s| && IsLexeme(s[..n]) && Dense(s) == s[..n] + Dense(s[n..])
  {
    if IsNumChar(s[0]) {
      var n := RunLength(s);
      assert s == s[..n] + s[n..];
      DenseNumber(s[..n], s[n..]);
    } else {
      assert s[..1] == [s[0]];
    }
  }

  /** The words are the text without its blanks, cut into numerals and single operators and parentheses. */
  lemma {:induction false} TokenizeKeepsText(s: string)
    requires Lexemes(s).Ok?
    ensures Flat(Lexemes(s).value) == Dense(s) && forall w <- Lexemes(s).value :: IsLexeme(w)
    decreases |s|
  {
    if s != [] {
      if IsSpace(s[0]) {
        TokenizeKeepsText(s[1..]);
      } else {
        FirstLexeme(s);
        var n := if IsNumChar(s[0]) then RunLength(s) else 1;
        TokenizeKeepsText(s[n..]);
        FlatFirst(s[..n], Lexemes(s[n..]).value);
      }
    }
  }

  lemma FlatFirst(w: string, ws: seq<string>)
    ensures Flat([w] + ws) == w + Flat(ws) && forall x <- [w] + ws :: x == w || x in ws
  {
    assert ([w] + ws)[1..] == ws;
  }

  predicate IsNumWord(w: string) { w != [] && forall c <- w :: IsNumChar(c) }
  predicate IsWord(w: string) { IsNumWord(w) || (|w| == 1 && IsPunct(w[0])) }
  predicate IsBlank(g: string) { forall c <- g :: IsSpace(c) }

  /** Words laid out with a blank before each and one at the end. */
  function Layout(gaps: seq<string>, words: seq<string>, end: string): string
    requires |gaps| == |words|
  {
    if words == [] then end else gaps[0] + words[0] + Layout(gaps[1..], words[1..], end)
  }

  /** Blanks are spaces, tabs and newlines, and two numbers are kept apart. */
  predicate GoodLayout(gaps: seq<string>, words: seq<string>, end: string) {
    && |gaps| == |words| && IsBlank(end)
    && (forall i :: 0 <= i < |words| ==> IsWord(words[i]) && IsBlank(gaps[i]))
    && (forall i :: 0 < i < |words| && IsNumWord(words[i - 1]) && IsNumWord(words[i]) ==> gaps[i] != [])
  }

  lemma {:induction false} LexBlank(g: string, rest: string)
    requires IsBlank(g)
    ensures Lexemes(g + rest) == Lexemes(rest)
  {
    if g == [] {
      assert g + rest == rest;
    } else {
      assert (g + rest)[0] == g[0] && (g + rest)[1..] == g[1..] + rest;
      LexBlank(g[1..], rest);
    }
  }

  lemma {:induction false} RunLengthOf(w: string, rest: string)
    requires forall c <- w :: IsNumChar(c)
    requires rest == [] || !IsNumChar(rest[0])
    ensures RunLength(w + rest) == |w|
  {
    if w == [] {
      assert w + rest == rest;
    } else {
      assert (w + rest)[0] == w[0] && (w + rest)[1..] == w[1..] + rest;
      RunLengthOf(w[1..], rest);
    }
  }

  lemma LexWord(w: string, rest: string)
    requires IsWord(w)
    requires IsNumWord(w) ==> rest == [] || !IsNumChar(rest[0])
    ensures Lexemes(w + rest) == Prepend([w], Lexemes(rest))
  {
    assert (w + rest)[0] == w[0];
    if IsNumWord(w) {
      RunLengthOf(w, rest);
      assert (w + rest)[..|w|] == w && (w + rest)[|w|..] == rest;
    } else {
      assert w == [w[0]] && (w + rest)[1..] == rest;
    }
  }

  /** Tokenizing undoes layout. */
  lemma {:induction false} TokenizeLayout(gaps: seq<string>, words: seq<string>, end: string)
    requires GoodLayout(gaps, words, end)
    ensures Lexemes(Layout(gaps, words, end)) == Ok(words)
    decreases |words|
  {
    if words == [] {
      LexBlank(end, "");
      assert end + "" == end;
    } else {
      var rest := Layout(gaps[1..], words[1..], end);
      LayoutStart(gaps, words, end);
      assert Layout(gaps, words, end) == gaps[0] + (words[0] + rest);
      LexBlank(gaps[0], words[0] + rest);
      LexWord(words[0], rest);
      TokenizeLayout(gaps[1..], words[1..], end);
      assert [words[0]] + words[1..] == words;
    }
  }

  lemma LayoutStart(gaps: seq<string>, words: seq<string>, end: string)
    requires GoodLayout(gaps, words, end) && words != []
    ensures GoodLayout(gaps[1..], words[1..], end)
    ensures var rest := Layout(gaps[1..], words[1..], end);
            IsNumWord(words[0]) ==> rest == [] || !IsNumChar(rest[0])
  {
    var rest := Layout(gaps[1..], words[1..], end);
    if words[1..] == [] {
      assert rest == end;
      assert end != [] ==> end[0] in end;
    } else if gaps[1] != [] {
      assert rest[0] == gaps[1][0] && gaps[1][0] in gaps[1];
    } else {
      assert IsWord(words[1]) && rest[0] == words[1][0];
    }
  }

  /** How a token is written, and how `isNumber` and the switch read it back. */
  function Spell(t: Token): string {
    match t
    case Num(s) => s
    case Junk(s) => s
    case Open => "("
    case Close => ")"
    case Oper(Add) => "+"
    case Oper(Sub) => "-"
    case Oper(Mul) => "*"
    case Oper(Div) => "/"
  }

  function Classify<V>(m: Arith<V>, w: string): Token {
    if w != [] && m.isNumber(w) then Num(w)
    else if w == "+" then Oper(Add) else if w == "-" then Oper(Sub)
    else if w == "*" then Oper(Mul) else if w == "/" then Oper(Div)
    else if w == "(" then Open else if w == ")" then Close
    else Junk(w)
  }

  function ClassifyAll<V>(m: Arith<V>, ws: seq<string>): seq<Token> {
    seq(|ws|, i requires 0 <= i < |ws| => Classify(m, ws[i]))
  }

  function EvalText<V>(m: Arith<V>, text: string): Result<V> {
    match Lexemes(text)
    case Err(e) => Err(e)
    case Ok(ws) =>
      match ToPostfix(ClassifyAll(m, ws))
      case Err(e) => Err(e)
      case Ok(code) => RunRPN(m, code)
  }

  /** `evalExpression`. */
  method EvalExpression<V>(m: Arith<V>, text: string) returns (r: Result<V>)
    ensures r == EvalText(m, text)
  {
    var words := Tokenize(text);
    if words.Err? {
      return Err(words.error);
    }
    var code := ShuntingYard(ClassifyAll(m, words.value));
    if code.Err? {
      return Err(code.error);
    }
    r := EvalRPN(m, code.value);
  }

  /** `ParseFloat` accepts none of the six punctuation tokens. */
  ghost predicate NumbersAreNotPunctuation<V>(m: Arith<V>) {
    !m.isNumber("+") && !m.isNumber("-") && !m.isNumber("*") && !m.isNumber("/") &&
    !m.isNumber("(") && !m.isNumber(")")
  }

  predicate ReadableLiterals<V>(m: Arith<V>, e: Expr) {
    match e
    case Lit(s) => IsNumWord(s) && m.isNumber(s)
    case Paren(x) => ReadableLiterals(m, x)
    case Bin(_, l, r) => ReadableLiterals(m, l) && ReadableLiterals(m, r)
  }

  function SpellAll(ts: seq<Token>): seq<string> {
    seq(|ts|, i requires 0 <= i < |ts| => Spell(ts[i]))
  }

  lemma {:induction false} PrintedReadsBack<V>(m: Arith<V>, e: Expr)
    requires NumbersAreNotPunctuation(m) && ReadableLiterals(m, e)
    ensures forall t <- Print(e) :: Classify(m, Spell(t)) == t
  {
    match e
    case Lit(_) =>
    case Paren(x) => PrintedReadsBack(m, x);
    case Bin(_, l, r) => PrintedReadsBack(m, l); PrintedReadsBack(m, r);
  }

  lemma PrintsBin(op: Op, l: Expr, r: Expr)
    ensures Print(Bin(op, l, r)) == Print(l) + [Oper(op)] + Print(r)
    ensures Postfix(Bin(op, l, r)) == Postfix(l) + Postfix(r) + [Oper(op)]
  {
  }

  /** Two operators in a row: a product binds tighter than a sum, and otherwise the first comes first. */
  lemma TwoOperators(a: string, o: Op, b: string, p: Op, c: string)
    ensures ToPostfix([Num(a), Oper(o), Num(b), Oper(p), Num(c)]) ==
            if (o.Add? || o.Sub?) && (p.Mul? || p.Div?)
            then Ok([Num(a), Num(b), Num(c), Oper(p), Oper(o)])
            else Ok([Num(a), Num(b), Oper(o), Num(c), Oper(p)])
  {
    if (o.Add? || o.Sub?) && (p.Mul? || p.Div?) {
      var e := Bin(o, Lit(a), Bin(p, Lit(b), Lit(c)));
      PrintsBin(p, Lit(b), Lit(c));
      PrintsBin(o, Lit(a), e.right);
      assert Print(e) == [Num(a), Oper(o), Num(b), Oper(p), Num(c)];
      assert Postfix(e) == [Num(a), Num(b), Num(c), Oper(p), Oper(o)];
      YardCompiles(e);
    } else {
      var e := Bin(p, Bin(o, Lit(a), Lit(b)), Lit(c));
      PrintsBin(o, Lit(a), Lit(b));
      PrintsBin(p, e.left, Lit(c));
      assert Print(e) == [Num(a), Oper(o), Num(b), Oper(p), Num(c)];
      assert Postfix(e) == [Num(a), Num(b), Oper(o), Num(c), Oper(p)];
      YardCompiles(e);
    }
  }

  /** End to end: the text of any expression, however spaced, evaluates to its meaning. */
  lemma EvaluatorCorrect<V>(m: Arith<V>, e: Expr, gaps: seq<string>, end: string)
    requires NumbersAreNotPunctuation(m) && ReadableLiterals(m, e) && Grammatical(e)
    requires GoodLayout(gaps, SpellAll(Print(e)), end)
    ensures EvalText(m, Layout(gaps, SpellAll(Print(e)), end)) ==
            if DividesByZero(m, e) then Err(DivisionByZero) else Ok(Meaning(m, e))
  {
    var ws := SpellAll(Print(e));
    TokenizeLayout(gaps, ws, end);
    PrintedReadsBack(m, e);
    assert ClassifyAll(m, ws) == Print(e);
    CompilerCorrect(m, e);
  }

  // ---------------------------------------------------------------------------
  // What is accepted beyond the grammar

  lemma {:induction false} PrintEnds(e: Expr)
    ensures Print(e) != [] && (Last(Print(e)).Num? || Last(Print(e)).Close?)
  {
    if e.Bin? {
      PrintEnds(e.right);
    }
  }

  /** Tokens already in postfix order print no expression, and are evaluated all the same. */
  lemma UngrammaticalTokensAccepted<V>(m: Arith<V>, a: string, b: string)
    ensures var ts := [Num(a), Num(b), Oper(Add)];
            (forall e :: Print(e) != ts) &&
            ToPostfix(ts) == Ok(ts) &&
            RunRPN(m, ts) == Ok(m.apply(Add, m.parse(a), m.parse(b)))
  {
    var ts := [Num(a), Num(b), Oper(Add)];
    forall e
      ensures Print(e) != ts
    {
      PrintEnds(e);
    }
    var x := Bin(Add, Lit(a), Lit(b));
    assert Postfix(x) == ts;
    MachineEvaluates(m, x, []);
    FeedsAppend(Yard([], []), [Num(a), Num(b)], [Oper(Add)]);
    FeedsAppend(Yard([], []), [Num(a)], [Num(b)]);
    assert [Num(a), Num(b)] == [Num(a)] + [Num(b)] && ts == [Num(a), Num(b)] + [Oper(Add)];
    FeedsOne(Yard([], []), Num(a));
    FeedsOne(Yard([], [Num(a)]), Num(b));
    FeedsOne(Yard([], [Num(a), Num(b)]), Oper(Add));
    DrainBlock([Oper(Add)], [Num(a), Num(b)]);
    assert Reverse([Oper(Add)]) == [Oper(Add)];
    assert [] + [Num(a)] == [Num(a)] && [] + [Oper(Add)] == [Oper(Add)];
    assert Feeds(Yard([], []), ts) == Ok(Yard([Oper(Add)], [Num(a), Num(b)]));
  }

  // ---------------------------------------------------------------------------
  // Which tokens are an expression

  /** A left-to-right scan: is an operand due, and how many parentheses are open? */
  predicate Scan(ts: seq<Token>, operandDue: bool, depth: nat)
    decreases |ts|
  {
    if ts == [] then !operandDue && depth == 0
    else if operandDue then
      match ts[0]
      case Num(_) => Scan(ts[1..], false, depth)
      case Open => Scan(ts[1..], true, depth + 1)
      case _ => false
    else
      match ts[0]
      case Oper(_) => Scan(ts[1..], true, depth)
      case Close => depth > 0 && Scan(ts[1..], false, depth - 1)
      case _ => false
  }

  lemma {:induction false} PrintScans(e: Expr, rest: seq<Token>, depth: nat)
    ensures Scan(Print(e) + rest, true, depth) == Scan(rest, false, depth)
    decreases e
  {
    match e
    case Lit(s) => assert (Print(e) + rest)[1..] == rest;
    case Paren(x) =>
      assert (Print(e) + rest)[1..] == Print(x) + ([Close] + rest);
      PrintScans(x, [Close] + rest, depth + 1);
      assert ([Close] + rest)[1..] == rest;
    case Bin(op, l, r) =>
      assert Print(e) + rest == Print(l) + ([Oper(op)] + (Print(r) + rest));
      PrintScans(l, [Oper(op)] + (Print(r) + rest), depth);
      assert ([Oper(op)] + (Print(r) + rest))[1..] == Print(r) + rest;
      PrintScans(r, rest, depth);
  }

  lemma JoinThree<T>(a: seq<T>, b: seq<T>, c: seq<T>, d: seq<T>)
    ensures a + (b + c + d) == a + b + c + d
  {
  }

  lemma JoinFour<T>(a: seq<T>, b: seq<T>, c: seq<T>, d: seq<T>)
    ensures a + (b + (c + d)) == a + b + c + d
  {
  }

  /** `e op a`, regrouped so that the tighter operator goes deeper. */
  function Extend(e: Expr, op: Op, a: Expr): Expr {
    if e.Bin? && Prec(e.op) < Prec(op) then Bin(e.op, e.left, Extend(e.right, op, a)) else Bin(op, e, a)
  }

  lemma {:induction false} ExtendGrammatical(e: Expr, op: Op, a: Expr)
    requires Grammatical(e) && Grammatical(a) && Level(a) == 3
    ensures Grammatical(Extend(e, op, a))
    ensures Level(Extend(e, op, a)) == if Level(e) < Prec(op) then Level(e) else Prec(op)
    ensures Print(Extend(e, op, a)) == Print(e) + [Oper(op)] + Print(a)
  {
    if e.Bin? && Prec(e.op) < Prec(op) {
      ExtendGrammatical(e.right, op, a);
      JoinThree(Print(e.left) + [Oper(e.op)], Print(e.right), [Oper(op)], Print(a));
    }
  }

  /** The operand a scan has passed. */
  lemma {:induction false} ReadOperand(ts: seq<Token>, depth: nat) returns (e: Expr, rest: seq<Token>)
    requires Scan(ts, true, depth)
    ensures Grammatical(e) && Level(e) == 3 && ts == Print(e) + rest && Scan(rest, false, depth) && |rest| < |ts|
    decreases |ts|, 1
  {
    if ts[0].Num? {
      e, rest := Lit(ts[0].text), ts[1..];
      assert ts == Print(e) + rest;
    } else {
      var a, after := ReadOperand(ts[1..], depth + 1);
      var x, end := ReadOperators(after, a, depth + 1);
      e, rest := Paren(x), end[1..];
      assert end == [Close] + rest;
      assert ts == [Open] + ts[1..];
      assert ts == Print(e) + rest by { Regroup(ts[1..], a, after, x, end); }
    }
  }

  lemma Regroup(ts: seq<Token>, a: Expr, after: seq<Token>, x: Expr, end: seq<Token>)
    requires ts == Print(a) + after && Print(a) + after == Print(x) + end
    ensures ts == Print(x) + end
  {
  }

  /** Everything a scan has passed since, joined to the operand before it. */
  lemma {:induction false} ReadOperators(ts: seq<Token>, e: Expr, depth: nat) returns (x: Expr, end: seq<Token>)
    requires Scan(ts, false, depth) && Grammatical(e)
    ensures Grammatical(x) && Print(e) + ts == Print(x) + end && Scan(end, false, depth) && |end| <= |ts|
    ensures end == [] || end[0].Close?
    decreases |ts|, 0
  {
    if ts == [] || ts[0].Close? {
      x, end := e, ts;
    } else {
      var op := ts[0].op;
      var a, after := ReadOperand(ts[1..], depth);
      ExtendGrammatical(e, op, a);
      x, end := ReadOperators(after, Extend(e, op, a), depth);
      assert ts == [Oper(op)] + ts[1..];
      JoinFour(Print(e), [Oper(op)], Print(a), after);
    }
  }

  /** The tokens that print an expression are exactly those the scan passes. */
  lemma ExpressionIffScan(ts: seq<Token>)
    ensures (exists e :: Grammatical(e) && Print(e) == ts) <==> Scan(ts, true, 0)
  {
    if Scan(ts, true, 0) {
      var a, after := ReadOperand(ts, 0);
      var x, end := ReadOperators(after, a, 0);
      assert end == [];
      assert Print(x) + end == Print(x);
    } else {
      assert ts + [] == ts;
      forall e | Print(e) == ts ensures false {
        PrintScans(e, [], 0);
      }
    }
  }

  // ---------------------------------------------------------------------------
  // Which tokens the evaluator accepts

  /** Operands and operators only: what the yard emits. */
  predicate IsCode(code: seq<Token>) { forall t <- code :: t.Num? || t.Oper? }

  function Weight(t: Token): int { if t.Num? then 1 else -1 }

  /** Numbers minus operators. */
  function Surplus(code: seq<Token>): int { if code == [] then 0 else Weight(code[0]) + Surplus(code[1..]) }

  /** With `h` operands below, the code never runs short of operands. */
  ghost predicate Supplied(code: seq<Token>, h: int) {
    forall k :: 0 <= k < |code| && code[k].Oper? ==> h + Surplus(code[..k + 1]) >= 1
  }

  /** Numbers minus operators is at least one after every operator, and one at the end. */
  ghost predicate Balanced(code: seq<Token>) { Supplied(code, 0) && Surplus(code) == 1 }

  lemma SuppliedStep(code: seq<Token>, h: int)
    requires code != []
    ensures Supplied(code, h) <==> (code[0].Oper? ==> h >= 2) && Supplied(code[1..], h + Weight(code[0]))
  {
    assert code[..1][1..] == [];
    assert Surplus(code[..1]) == Weight(code[0]);
    forall k | 1 <= k < |code| ensures Surplus(code[..k + 1]) == Weight(code[0]) + Surplus(code[1..][..k]) {
      assert code[..k + 1][1..] == code[1..][..k];
    }
    if Supplied(code, h) {
      forall j | 0 <= j < |code| - 1 && code[1..][j].Oper?
        ensures h + Weight(code[0]) + Surplus(code[1..][..j + 1]) >= 1
      {
        assert code[j + 1].Oper?;
      }
    }
    if (code[0].Oper? ==> h >= 2) && Supplied(code[1..], h + Weight(code[0])) {
      forall k | 0 <= k < |code| && code[k].Oper? ensures h + Surplus(code[..k + 1]) >= 1 {
        if k > 0 {
          assert code[1..][k - 1].Oper?;
        }
      }
    }
  }

  /** The machine's stack grows by the surplus; it fails for want of operands only if they are short. */
  lemma {:induction false} MachineHeight<V>(m: Arith<V>, stack: seq<V>, code: seq<Token>)
    requires IsCode(code)
    ensures match StepsRPN(m, stack, code)
            case Ok(s) => Supplied(code, |stack|) && |s| == |stack| + Surplus(code)
            case Err(e) => e == DivisionByZero || (e == InvalidExpression && !Supplied(code, |stack|))
    decreases |code|
  {
    if code != [] {
      SuppliedStep(code, |stack|);
      assert code[0] in code && forall t <- code[1..] :: t in code;
      if StepRPN(m, stack, code[0]).Ok? {
        MachineHeight(m, StepRPN(m, stack, code[0]).value, code[1..]);
      }
    }
  }

  /** The machine run on trees. */
  function Builder(): Arith<Expr> { Arith(s => true, s => Lit(s), (op, a, b) => Bin(op, a, b), e => false) }

  function PostfixAll(es: seq<Expr>): seq<Token> {
    if es == [] then [] else PostfixAll(Init(es)) + Postfix(Last(es))
  }

  lemma BuilderStep(stack: seq<Expr>, t: Token)
    requires (t.Num? || t.Oper?) && StepRPN(Builder(), stack, t).Ok?
    ensures PostfixAll(StepRPN(Builder(), stack, t).value) == PostfixAll(stack) + [t]
  {
    var s := StepRPN(Builder(), stack, t).value;
    if t.Num? {
      assert Init(s) == stack && Last(s) == Lit(t.text);
    } else {
      var n := |stack|;
      var a, b, base := stack[n - 2], stack[n - 1], stack[..n - 2];
      assert Init(s) == base && Last(s) == Bin(t.op, a, b);
      assert Init(stack) == stack[..n - 1] && Init(Init(stack)) == base && Last(Init(stack)) == a;
      assert PostfixAll(base) + (Postfix(a) + Postfix(b) + [t]) == PostfixAll(base) + Postfix(a) + Postfix(b) + [t];
    }
  }

  lemma HeadAndTail<T>(a: seq<T>, s: seq<T>)
    requires s != []
    ensures a + [s[0]] + s[1..] == a + s
  {
  }

  lemma {:induction false} BuilderKeeps(stack: seq<Expr>, code: seq<Token>)
    requires IsCode(code)
    ensures match StepsRPN(Builder(), stack, code)
            case Ok(s) => PostfixAll(s) == PostfixAll(stack) + code
            case Err(e) => e == InvalidExpression
    decreases |code|
  {
    if code == [] {
      assert PostfixAll(stack) + code == PostfixAll(stack);
    } else {
      assert code[0] in code && forall t <- code[1..] :: t in code;
      if StepRPN(Builder(), stack, code[0]).Ok? {
        BuilderStep(stack, code[0]);
        BuilderKeeps(StepRPN(Builder(), stack, code[0]).value, code[1..]);
        HeadAndTail(PostfixAll(stack), code);
      }
    }
  }

  lemma {:induction false} PostfixIsCode(e: Expr)
    ensures IsCode(Postfix(e))
  {
    match e
    case Lit(_) =>
    case Paren(x) => PostfixIsCode(x);
    case Bin(_, l, r) => PostfixIsCode(l); PostfixIsCode(r);
  }

  lemma TreeOfBalanced(code: seq<Token>) returns (e: Expr)
    requires IsCode(code) && Balanced(code)
    ensures Postfix(e) == code
  {
    BuilderKeeps([], code);
    MachineHeight(Builder(), [], code);
    var s := StepsRPN(Builder(), [], code).value;
    e := s[0];
    assert s == [e] && Init(s) == [] && Last(s) == e;
    assert [] + Postfix(e) == Postfix(e) && [] + code == code;
  }

  /** Code is the postfix form of an expression exactly when it is balanced. */
  lemma CodeIffBalanced(code: seq<Token>)
    requires IsCode(code)
    ensures (exists e :: Postfix(e) == code) <==> Balanced(code)
  {
    if Balanced(code) {
      var e := TreeOfBalanced(code);
    } else if e :| Postfix(e) == code {
      MachineEvaluates(Builder(), e, []);
      BuilderKeeps([], code);
      MachineHeight(Builder(), [], code);
    }
  }

  function EvalTokens<V>(m: Arith<V>, ts: seq<Token>): Result<V> {
    match ToPostfix(ts)
    case Err(e) => Err(e)
    case Ok(code) => RunRPN(m, code)
  }

  lemma YardEmitsCode(ts: seq<Token>)
    requires FirstFault(ts, 0).Ok?
    ensures ToPostfix(ts).Ok? && IsCode(ToPostfix(ts).value)
  {
    YardOutcome(ts);
    var code := ToPostfix(ts).value;
    NoJunk(ts, 0);
    forall t | t in code ensures t.Num? || t.Oper? {
      assert t in multiset(code);
      assert t in Payload(ts);
    }
  }

  lemma {:induction false} NoJunk(ts: seq<Token>, depth: nat)
    requires FirstFault(ts, depth).Ok?
    ensures forall t <- ts :: !t.Junk?
    decreases |ts|
  {
    if ts != [] {
      assert ts == [ts[0]] + ts[1..];
      NoJunk(ts[1..], Depth(ts[0], depth).value);
    }
  }

  /**
   The evaluator on any tokens. A fault the scan finds is its error. Otherwise it
   succeeds only on balanced code, which is then the postfix form of an expression,
   whose value it returns, division by zero excepted; unbalanced code is refused.
   */
  lemma TokensOutcome<V>(m: Arith<V>, ts: seq<Token>)
    ensures match FirstFault(ts, 0)
            case Err(e) => EvalTokens(m, ts) == Err(e)
            case Ok(_) =>
              ToPostfix(ts).Ok? &&
              var code := ToPostfix(ts).value;
              if Balanced(code) then
                exists e :: Postfix(e) == code &&
                  EvalTokens(m, ts) == if DividesByZero(m, e) then Err(DivisionByZero) else Ok(Meaning(m, e))
              else EvalTokens(m, ts) == Err(InvalidExpression) || EvalTokens(m, ts) == Err(DivisionByZero)
  {
    YardOutcome(ts);
    if FirstFault(ts, 0).Ok? {
      YardEmitsCode(ts);
      var code := ToPostfix(ts).value;
      MachineHeight(m, [], code);
      if Balanced(code) {
        var e := TreeOfBalanced(code);
        MachineEvaluates(m, e, []);
      }
    }
  }

  /** Where no divisor turns out zero, fault-free tokens are refused exactly when their code is not balanced. */
  lemma RefusedIffUnbalanced<V>(m: Arith<V>, ts: seq<Token>)
    requires FirstFault(ts, 0).Ok? && EvalTokens(m, ts) != Err(DivisionByZero)
    ensures ToPostfix(ts).Ok?
    ensures EvalTokens(m, ts) == Err(InvalidExpression) <==> !Balanced(ToPostfix(ts).value)
  {
    YardEmitsCode(ts);
    MachineHeight(m, [], ToPostfix(ts).value);
  }
}
