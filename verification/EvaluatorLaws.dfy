/**
  Laws of evaluation, each between two programs or between a program and its output:
  which operand, branch, argument or statement is evaluated, how often, and in which
  order.
*/
module EvaluatorLaws {
  import opened Options
  import opened Evaluator
  import opened EvaluatorBindings
  import opened EvaluatorScalars

  // ---- order ----------------------------------------------------------------------------

  /** Arguments are evaluated from left to right, however the list is cut. */
  lemma {:induction false} ArgsConcat(p: Program, a: seq<Expr>, b: seq<Expr>, env: Env, st: St)
    ensures EvalArgs(p, a + b, env, st) ==
      var x := EvalArgs(p, a, env, st);
      if x.Halts? then x
      else
        var y := EvalArgs(p, b, env, x.st);
        if y.Halts? then y else Oks(x.vs + y.vs, y.st)
    decreases |a|
  {
    hide Eval;
    if a == [] {
      assert a + b == b;
      var y := EvalArgs(p, b, env, st);
      assert y.Oks? ==> [] + y.vs == y.vs;
    } else {
      assert (a + b)[1..] == a[1..] + b;
      var v := Eval(p, a[0], env, st);
      if v.Ok? {
        ArgsConcat(p, a[1..], b, env, v.st);
        var x := EvalArgs(p, a[1..], env, v.st);
        if x.Oks? {
          var y := EvalArgs(p, b, env, x.st);
          assert y.Oks? ==> [v.v] + (x.vs + y.vs) == [v.v] + x.vs + y.vs;
        }
      }
    }
  }

  /** So are the pieces of a printed line. */
  lemma {:induction false} PartsConcat(p: Program, a: seq<Part>, b: seq<Part>, env: Env, st: St)
    ensures EvalParts(p, a + b, env, st) ==
      var x := EvalParts(p, a, env, st);
      if x.NoLine? then x
      else
        var y := EvalParts(p, b, env, x.st);
        if y.NoLine? then y else Line(x.ps + y.ps, y.st)
    decreases |a|
  {
    hide Eval;
    if a == [] {
      assert a + b == b;
      var y := EvalParts(p, b, env, st);
      assert y.Line? ==> [] + y.ps == y.ps;
    } else {
      assert (a + b)[1..] == a[1..] + b;
      if a[0].Lit? {
        PartsConcat(p, a[1..], b, env, st);
        FirstPiece(p, Text(a[0].text), a[1..], b, env, st);
      } else {
        var v := Eval(p, a[0].e, env, st);
        if v.Ok? && (v.v.VInt? || v.v.VBool?) {
          PartsConcat(p, a[1..], b, env, v.st);
          FirstPiece(p, if v.v.VInt? then Num(v.v.i) else Truth(v.v.b), a[1..], b, env, v.st);
        }
      }
    }
  }

  lemma FirstPiece(p: Program, one: Piece, a: seq<Part>, b: seq<Part>, env: Env, st: St)
    ensures var x := EvalParts(p, a, env, st);
      x.Line? ==>
        var y := EvalParts(p, b, env, x.st);
        y.Line? ==> [one] + (x.ps + y.ps) == [one] + x.ps + y.ps
  {
  }

  /** Statements run one after the other until one leaves the block. */
  lemma {:induction false} BlockConcat(p: Program, a: seq<Stmt>, b: seq<Stmt>, env: Env, st: St)
    ensures Block(p, a + b, env, st) ==
      var x := Block(p, a, env, st);
      if x.flow.Next? then Block(p, b, x.env, x.st) else x
    decreases |a|
  {
    hide Exec;
    if a == [] {
      assert a + b == b;
    } else {
      assert (a + b)[1..] == a[1..] + b;
      var k := Burn(st);
      if k.Some? {
        var x := Exec(p, a[0], env, k.value);
        if x.flow.Next? {
          BlockConcat(p, a[1..], b, x.env, x.st);
        }
      }
    }
  }

  /** A strict operator evaluates both operands like two arguments. */
  lemma StrictIsArgs(p: Program, e: Expr, env: Env, st: St)
    requires e.Binary? && !e.bop.AndAlso? && !e.bop.OrElse?
    ensures EvalArgs(p, [e.l, e.r], env, st).Oks? ==> |EvalArgs(p, [e.l, e.r], env, st).vs| == 2
    ensures var vs := EvalArgs(p, [e.l, e.r], env, st);
      Eval(p, e, env, st) ==
        if vs.Halts? then Halt(vs.why, vs.st) else BinaryValue(e.bop, e.t, vs.vs[0], vs.vs[1], vs.st)
  {
    hide BinaryValue;
    var a := Eval(p, e.l, env, st);
    assert [e.l, e.r][1..] == [e.r] && [e.r][1..] == [];
    assert Eval(p, e, env, st) == EvalBinary(p, e, env, st);
    if a.Ok? {
      var b := Eval(p, e.r, env, a.st);
      assert EvalArgs(p, [], env, b.st) == Oks([], b.st);
      if b.Ok? {
        assert EvalArgs(p, [e.r], env, a.st) == Oks([b.v], b.st);
        assert EvalArgs(p, [e.l, e.r], env, st) == Oks([a.v, b.v], b.st);
      }
    }
  }

  // ---- conditions --------------------------------------------------------------------------

  /** The branch a condition chooses is the one evaluated. */
  lemma ConstantCondition(p: Program, b: bool, x: Expr, y: Expr, env: Env, st: St)
    ensures Eval(p, IfValue(BoolLit(b), x, y), env, st) == Eval(p, if b then x else y, env, st)
  {
    assert Eval(p, BoolLit(b), env, st) == Ok(VBool(b), st);
  }

  /** Negating the condition swaps the branches. */
  lemma NegatedCondition(p: Program, c: Expr, t: IntType, x: Expr, y: Expr, env: Env, st: St)
    ensures Eval(p, IfValue(Unary(Not, c, t), x, y), env, st) == Eval(p, IfValue(c, y, x), env, st)
  {
    var r := Eval(p, c, env, st);
    assert Eval(p, Unary(Not, c, t), env, st) ==
      if r.Halt? then r else if r.v.VBool? then Ok(VBool(!r.v.b), r.st) else Halt(Stuck, r.st);
  }

  /** && evaluates its right operand only where the left one holds. */
  lemma AndIsCondition(p: Program, l: Expr, r: Expr, t: IntType, env: Env, st: St)
    ensures Eval(p, Binary(AndAlso, l, r, t), env, st) ==
      var x := Eval(p, IfValue(l, r, BoolLit(false)), env, st);
      if x.Ok? && !x.v.VBool? then Halt(Stuck, x.st) else x
  {
    var a := Eval(p, l, env, st);
    assert Eval(p, Binary(AndAlso, l, r, t), env, st) == EvalBinary(p, Binary(AndAlso, l, r, t), env, st);
    if a.Ok? && a.v.VBool? && !a.v.b {
      assert Eval(p, BoolLit(false), env, a.st) == Ok(VBool(false), a.st);
    }
  }

  /** || is && on negated operands, negated. */
  lemma DeMorgan(p: Program, l: Expr, r: Expr, t: IntType, env: Env, st: St)
    ensures Eval(p, Binary(OrElse, l, r, t), env, st) ==
      Eval(p, Unary(Not, Binary(AndAlso, Unary(Not, l, t), Unary(Not, r, t), t), t), env, st)
  {
    var a := Eval(p, l, env, st);
    var notL, notR := Unary(Not, l, t), Unary(Not, r, t);
    var and := Binary(AndAlso, notL, notR, t);
    assert Eval(p, notL, env, st) == Negated(a);
    assert Eval(p, Binary(OrElse, l, r, t), env, st) == EvalBinary(p, Binary(OrElse, l, r, t), env, st);
    assert Eval(p, and, env, st) == EvalBinary(p, and, env, st);
    assert Eval(p, Unary(Not, and, t), env, st) == Negated(EvalBinary(p, and, env, st));
    if a.Ok? && a.v.VBool? && !a.v.b {
      var b := Eval(p, r, env, a.st);
      assert Eval(p, notR, env, a.st) == Negated(b);
    }
  }

  function Negated(r: Ev): Ev {
    if r.Halt? then r else if r.v.VBool? then Ok(VBool(!r.v.b), r.st) else Halt(Stuck, r.st)
  }

  /** An if runs the branch its condition chooses, in a scope of its own. */
  lemma ConstantIf(p: Program, b: bool, thenB: seq<Stmt>, elseB: seq<Stmt>, env: Env, st: St)
    ensures Exec(p, If(BoolLit(b), thenB, ElseBlock(elseB)), env, st) ==
      Pop(p, Block(p, if b then thenB else elseB, Push(env), st))
    ensures Exec(p, If(BoolLit(false), thenB, NoElse), env, st) == Ex(Next, env, st)
  {
    hide Pop, Block;
    assert Eval(p, BoolLit(b), env, st) == Ok(VBool(b), st);
    assert Eval(p, BoolLit(false), env, st) == Ok(VBool(false), st);
  }

  lemma NegatedIf(p: Program, c: Expr, t: IntType, thenB: seq<Stmt>, elseB: seq<Stmt>, env: Env, st: St)
    ensures Exec(p, If(Unary(Not, c, t), thenB, ElseBlock(elseB)), env, st) ==
      Exec(p, If(c, elseB, ElseBlock(thenB)), env, st)
  {
    hide Pop, Block;
    assert Eval(p, Unary(Not, c, t), env, st) == Negated(Eval(p, c, env, st));
  }

  // ---- assignments ----------------------------------------------------------------------------

  /** x op= e is x = x op e on integers, both wrapped to the type first. */
  lemma CompoundIsPlain(p: Program, name: Name, e: Expr, op: BinaryOp, t: IntType, env: Env, st: St)
    requires !op.AndAlso? && !op.OrElse?
    requires Lookup(env, name).Some? && Lookup(env, name).value.VInt?
    requires Eval(p, e, env, st).Ok? && Eval(p, e, env, st).v.VInt?
    ensures Exec(p, Assign(name, e, Some(op), t), env, st) ==
      Exec(p, Assign(name, Binary(op, Cast(VarRef(name), t), Cast(e, t), t), None, t), env, st)
  {
    hide BinaryValue, Release, SetVar, FindSlot, NormInt;
    var was := Lookup(env, name).value;
    var x := Eval(p, e, env, st);
    var both := Binary(op, Cast(VarRef(name), t), Cast(e, t), t);
    assert Eval(p, VarRef(name), env, st) == Ok(was, st);
    assert Eval(p, Cast(VarRef(name), t), env, st) == Ok(VInt(NormInt(t, was.i)), st);
    assert Eval(p, Cast(e, t), env, st) == Ok(VInt(NormInt(t, x.v.i)), x.st);
    assert Eval(p, both, env, st) == EvalBinary(p, both, env, st);
    assert EvalBinary(p, both, env, st) ==
      BinaryValue(op, t, VInt(NormInt(t, was.i)), VInt(NormInt(t, x.v.i)), x.st);
  }

  // ---- loops -------------------------------------------------------------------------------------

  /** One line for each number from lo up to hi. */
  function Numbers(lo: int, hi: int): seq<Line>
    decreases if lo < hi then hi - lo else 0
  {
    if lo >= hi then [] else [[Num(lo)]] + Numbers(lo + 1, hi)
  }

  function Show(name: Name): Stmt {
    Print([Shown(VarRef(name))])
  }

  lemma ShowPrints(p: Program, name: Name, i: int, env: Env, st: St)
    requires Lookup(env, name) == Some(VInt(i))
    ensures Exec(p, Show(name), env, st) == Ex(Next, env, st.(out := st.out + [[Num(i)]]))
  {
    var parts := [Shown(VarRef(name))];
    assert Eval(p, VarRef(name), env, st) == Ok(VInt(i), st);
    assert parts[1..] == [] && EvalParts(p, [], env, st) == Line([], st);
    assert [Num(i)] + [] == [Num(i)];
    assert EvalParts(p, parts, env, st) == Line([Num(i)], st);
  }

  /** The scope of a loop variable owns no object. */
  lemma PopsNothing(p: Program, env: Env, n: Slot, st: St)
    requires !n.val.VObj?
    ensures Pop(p, Ex(Next, Declare(Push(env), n), st)) == Ex(Next, env, st)
    ensures Pop(p, Ex(Breaks, Declare(Push(env), n), st)) == Ex(Breaks, env, st)
    ensures Declare(Push(env), n) == env + [[n]]
  {
    var inner := Declare(Push(env), n);
    assert Push(env)[..|env|] == env;
    assert inner == env + [[n]] && inner[..|inner| - 1] == env;
    var s: Scope := [n];
    var vs := Owned(s);
    assert s[1..] == [] && Owned(s[1..]) == [];
    assert vs == (if n.owned then [n.val] else []) + Owned(s[1..]);
    if n.owned {
      assert vs == [n.val] && vs[..0] == [];
      assert ReleaseAll(p, [], st) == Done(st);
    }
    assert ReleaseAll(p, vs, st) == Done(st);
  }

  /** A for loop runs its body once for every number of its range, ascending, with the
      loop variable bound to it; the bound is excluded unless the loop is inclusive. */
  lemma ForCountsUp(p: Program, name: Name, lo: int, hi: int, inclusive: bool, env: Env, st: St)
    requires var end := if inclusive then hi + 1 else hi;
      st.fuel > Abs(end - lo)
    ensures var end := if inclusive then hi + 1 else hi;
      var x := Exec(p, ForRange(name, lo, hi, inclusive, [Show(name)]), env, st);
      && x.flow.Next? && x.env == env
      && x.st == st.(out := st.out + Numbers(lo, end), fuel := st.fuel - if lo < end then end - lo else 0)
  {
    hide Iterate, Numbers;
    Counts(p, name, lo, if inclusive then hi + 1 else hi, env, st);
  }

  lemma {:induction false} Counts(p: Program, name: Name, lo: int, end: int, env: Env, st: St)
    requires st.fuel > Abs(end - lo)
    ensures Iterate(p, name, lo, end, [Show(name)], env, st) ==
      Ex(Next, env, st.(out := st.out + Numbers(lo, end), fuel := st.fuel - if lo < end then end - lo else 0))
    decreases if lo < end then end - lo else 0
  {
    hide Round, Block;
    if lo >= end {
      assert st.out + [] == st.out;
    } else {
      ShowsOnce(p, name, lo, env, st);
      var st1 := st.(fuel := st.fuel - 1, out := st.out + [[Num(lo)]]);
      Counts(p, name, lo + 1, end, env, st1);
      assert st.out + [[Num(lo)]] + Numbers(lo + 1, end) == st.out + ([[Num(lo)]] + Numbers(lo + 1, end));
    }
  }

  lemma ShowsOnce(p: Program, name: Name, i: int, env: Env, st: St)
    requires st.fuel > 1
    ensures Round(p, Block(p, [Show(name)], Declare(Push(env), Slot(name, VInt(i), true)), st)) ==
      Ex(Next, env, st.(fuel := st.fuel - 1, out := st.out + [[Num(i)]]))
  {
    hide Pop;
    var inner := Declare(Push(env), Slot(name, VInt(i), true));
    var st1 := st.(fuel := st.fuel - 1, out := st.out + [[Num(i)]]);
    OneRound(p, name, i, [], env, st);
    assert [Show(name)] + [] == [Show(name)];
    assert Block(p, [], inner, st1) == Ex(Next, inner, st1);
    PopsNothing(p, env, Slot(name, VInt(i), true), st1);
  }

  /** The first statement of a round. */
  lemma OneRound(p: Program, name: Name, i: int, rest: seq<Stmt>, env: Env, st: St)
    requires st.fuel > 1
    ensures var inner := Declare(Push(env), Slot(name, VInt(i), true));
      var st1 := st.(fuel := st.fuel - 1, out := st.out + [[Num(i)]]);
      Block(p, [Show(name)] + rest, inner, st) == Block(p, rest, inner, st1)
  {
    hide Exec;
    var inner := Declare(Push(env), Slot(name, VInt(i), true));
    LookupAfterDeclare(Push(env), Slot(name, VInt(i), true), name);
    ShowPrints(p, name, i, inner, st.(fuel := st.fuel - 1));
    assert ([Show(name)] + rest)[1..] == rest;
  }

  /** break ends the loop, not the program around it. */
  lemma BreakEndsTheLoop(p: Program, name: Name, lo: int, hi: int, rest: seq<Stmt>, env: Env, st: St)
    requires lo < hi && st.fuel > 2
    ensures Exec(p, ForRange(name, lo, hi, false, [Show(name)] + ([Break] + rest)), env, st) ==
      Ex(Next, env, st.(out := st.out + [[Num(lo)]], fuel := st.fuel - 2))
  {
    hide Pop;
    var n := Slot(name, VInt(lo), true);
    var inner := Declare(Push(env), n);
    var st1 := st.(fuel := st.fuel - 1, out := st.out + [[Num(lo)]]);
    OneRound(p, name, lo, [Break] + rest, env, st);
    assert ([Break] + rest)[0] == Break;
    assert Exec(p, Break, inner, st1.(fuel := st.fuel - 2)) == Ex(Breaks, inner, st1.(fuel := st.fuel - 2));
    var st2 := st1.(fuel := st.fuel - 2);
    assert Block(p, [Show(name)] + ([Break] + rest), inner, st) == Ex(Breaks, inner, st2);
    PopsNothing(p, env, n, st2);
    assert Round(p, Ex(Breaks, inner, st2)) == Ex(Breaks, env, st2);
  }

  // The counter loop of the generator: its body steps the counter itself.

  function StepUp(name: Name): Stmt {
    Assign(name, IntLit(I64, 1), Some(Add), I64)
  }

  lemma SmallStays(i: int)
    requires 0 <= i <= GUARD_LIMIT + 1
    ensures NormInt(I64, i) == i
  {
    hide NormInt;
    WrapsToItself(I64, i);
    NormIff(I64, i, i);
  }

  /** The counter goes up by one, and nothing is released. */
  lemma StepsUp(p: Program, name: Name, i: int, env: Env, st: St)
    requires 0 <= i <= GUARD_LIMIT && Lookup(env, name) == Some(VInt(i))
    ensures Exec(p, StepUp(name), env, st) == Ex(Next, SetVar(env, name, VInt(i + 1)), st)
  {
    hide NormInt, SetVar, Lookup, FindSlot;
    SlotHoldsMeaning(env, name);
    SmallStays(i);
    SmallStays(1);
    SmallStays(i + 1);
    assert Eval(p, IntLit(I64, 1), env, st) == Ok(VInt(1), st);
    assert BinaryValue(Add, I64, VInt(i), VInt(1), st) == Ok(VInt(i + 1), st);
    assert Release(p, VInt(i), st) == Done(st);
  }

  /** A counter loop runs its body for 0, 1, and so on up to the limit, and the counter
      keeps the limit afterwards; it may take as many rounds as the guard allows. */
  lemma CounterCountsUp(p: Program, name: Name, limit: int, env: Env, st: St)
    requires env != [] && 0 <= limit <= GUARD_LIMIT && st.fuel > 2 * limit
    ensures var x := Exec(p, CounterLoop(name, limit, [Show(name), StepUp(name)]), env, st);
      && x.flow.Next? && Lookup(x.env, name) == Some(VInt(limit))
      && x.st.out == st.out + Numbers(0, limit)
  {
    hide Count, Numbers;
    LookupAfterDeclare(env, Slot(name, VInt(0), true), name);
    CountsFrom(p, name, limit, 0, Declare(env, Slot(name, VInt(0), true)), Lose(st, env, name));
  }

  lemma {:induction false} CountsFrom(p: Program, name: Name, limit: int, i: nat, env: Env, st: St)
    requires env != [] && i <= limit <= GUARD_LIMIT && st.fuel > 2 * (limit - i)
    requires Lookup(env, name) == Some(VInt(i))
    ensures var x := Count(p, name, limit, [Show(name), StepUp(name)], i, env, st);
      && x.flow.Next? && Lookup(x.env, name) == Some(VInt(limit))
      && x.st.out == st.out + Numbers(i, limit)
    decreases limit - i
  {
    hide Block, Round, SetVar, FindSlot, Lookup;
    if i < limit {
      var st1 := st.(fuel := st.fuel - 2, out := st.out + [[Num(i)]]);
      var env1 := SetVar(env, name, VInt(i + 1));
      CounterRound(p, name, i, env, st);
      LookupAfterAssign(env, name, VInt(i + 1), name);
      KeepsScopes(env, name, VInt(i + 1));
      CountsFrom(p, name, limit, i + 1, env1, st1);
      assert st.out + [[Num(i)]] + Numbers(i + 1, limit) == st.out + ([[Num(i)]] + Numbers(i + 1, limit));
    } else {
      assert st.out + [] == st.out;
    }
  }

  lemma KeepsScopes(env: Env, name: Name, v: Value)
    ensures |SetVar(env, name, v)| == |env|
  {
    SameScopes(env, name, v);
  }

  /** One round: the scope of the body is empty, so the assignment goes to the counter
      outside it. */
  lemma CounterRound(p: Program, name: Name, i: nat, env: Env, st: St)
    requires i < GUARD_LIMIT && st.fuel > 2 && Lookup(env, name) == Some(VInt(i))
    ensures Round(p, Block(p, [Show(name), StepUp(name)], Push(env), st)) ==
      Ex(Next, SetVar(env, name, VInt(i + 1)), st.(fuel := st.fuel - 2, out := st.out + [[Num(i)]]))
  {
    hide Exec, SetVar, Lookup, FindSlot;
    var body := [Show(name), StepUp(name)];
    var inner := Push(env);
    LookupAfterPush(env, name);
    ShowPrints(p, name, i, inner, st.(fuel := st.fuel - 1));
    var st1 := st.(fuel := st.fuel - 1, out := st.out + [[Num(i)]]);
    var st2 := st1.(fuel := st.fuel - 2);
    StepsUp(p, name, i, inner, st2);
    assert body[1..] == [StepUp(name)] && body[1..][1..] == [];
    var after := SetVar(inner, name, VInt(i + 1));
    assert Block(p, [], after, st2) == Ex(Next, after, st2);
    assert Block(p, body[1..], inner, st1) == Ex(Next, after, st2);
    PushedAssign(env, name, VInt(i + 1));
    assert ReleaseAll(p, [], st2) == Done(st2);
  }

  lemma PushedAssign(env: Env, name: Name, v: Value)
    ensures SetVar(Push(env), name, v) == Push(SetVar(env, name, v))
    ensures Owned(Push(env)[|env|]) == []
  {
    assert Push(env)[..|env|] == env;
  }

  // ---- calls ---------------------------------------------------------------------------------------

  predicate Scalars(vs: seq<Value>) {
    forall i :: 0 <= i < |vs| ==> !vs[i].VObj?
  }

  lemma {:induction false} BorrowedOnly(names: seq<Name>, vs: seq<Value>, env: Env)
    requires OwnedAll(env) == [] && env != []
    ensures OwnedAll(Params(names, vs, env)) == [] && Params(names, vs, env) != []
  {
    if names != [] && vs != [] {
      var n := Slot(names[0], vs[0], false);
      BorrowsOne(env, n);
      BorrowedOnly(names[1..], vs[1..], Declare(env, n));
    }
  }

  lemma BorrowsOne(env: Env, n: Slot)
    requires env != [] && !n.owned && OwnedAll(env) == []
    ensures OwnedAll(Declare(env, n)) == []
  {
    var k := |env| - 1;
    assert OwnedAll(env) == OwnedAll(env[..k]) + Owned(env[k]);
    BorrowsIn(env[k], n);
    assert Declare(env, n)[..k] == env[..k];
  }

  lemma {:induction false} BorrowsIn(s: Scope, n: Slot)
    requires !n.owned && Owned(s) == []
    ensures Owned(SetSlot(s, n)) == []
  {
    if s != [] {
      assert Owned(s[1..]) == [];
      if s[0].name == n.name {
        assert SetSlot(s, n)[1..] == s[1..];
      } else {
        BorrowsIn(s[1..], n);
        assert SetSlot(s, n)[1..] == SetSlot(s[1..], n);
      }
    } else {
      assert [n][1..] == [];
    }
  }

  lemma ReturnsParameter(p: Program, name: Name, v: Value, env: Env, st: St)
    requires Lookup(env, name) == Some(v) && !v.VObj? && st.fuel > 1
    ensures Block(p, [Return(Some(VarRef(name)))], env, st) == Ex(Returns(v), env, st.(fuel := st.fuel - 1))
  {
    var st1 := st.(fuel := st.fuel - 1);
    assert Eval(p, VarRef(name), env, st1) == Ok(v, st1);
    assert Exec(p, Return(Some(VarRef(name))), env, st1) == Ex(Returns(v), env, st1);
  }

  /** The environment of a call of a function owns nothing at first. */
  lemma FreshOwnsNothing(names: seq<Name>, vs: seq<Value>, env: Env)
    requires env == [[]]
    ensures OwnedAll(Params(names, vs, env)) == []
  {
    assert env[..0] == [] && Owned(env[0]) == [] && OwnedAll(env) == [];
    BorrowedOnly(names, vs, env);
  }

  /** A function that returns its k-th parameter gives the k-th argument. */
  lemma CallGivesArgument(p: Program, f: FnDecl, k: nat, vs: seq<Value>, st: St)
    requires FindFn(p.fns, f.name) == Some(f) && f.hasResult
    requires LastOf(f.params, vs, k) && f.body == [Return(Some(VarRef(f.params[k])))]
    requires Scalars(vs) && st.fuel > 2
    ensures CallFn(p, f.name, vs, st) == Ok(vs[k], st.(fuel := st.fuel - 2))
  {
    hide Block, Params, OwnedAll, FindFn, Lookup;
    var none: Option<Value> := None;
    var env := Params(f.params, vs, SelfEnv(none));
    FreshOwnsNothing(f.params, vs, SelfEnv(none));
    LookupParameter(f.params, vs, SelfEnv(none));
    var st1, st2 := st.(fuel := st.fuel - 1), st.(fuel := st.fuel - 2);
    assert !vs[k].VObj? && Lookup(env, f.params[k]) == Some(vs[k]);
    ReturnsParameter(p, f.params[k], vs[k], env, st1);
    var x := Ex(Returns(vs[k]), env, st2);
    assert Block(p, f.body, env, st1) == x;
    assert ReleaseAll(p, [], st2) == Done(st2);
    assert Returning(p, true, x) == Ok(vs[k], st2);
  }

  // ---- deaths ----------------------------------------------------------------------------------------

  function Reversed(os: seq<Oid>): seq<Oid> {
    if os == [] then [] else [os[|os| - 1]] + Reversed(os[..|os| - 1])
  }

  /** The object has one reference, no field and no deinit. */
  predicate Bare(p: Program, h: seq<Obj>, o: Oid) {
    o < |h| && h[o].rc == 1 && h[o].fields == [] && h[o].cls < |p.classes|
    && p.classes[h[o].cls] == ClassDecl(None, [], p.classes[h[o].cls].methods, p.classes[h[o].cls].init, None)
  }

  lemma BareDies(p: Program, o: Oid, st: St)
    requires Bare(p, st.heap, o) && st.fuel > 1
    ensures var d := Release(p, VObj(o), st);
      && d.Done? && d.st.heap == WithCount(st, o, 0).heap && d.st.torn == st.torn + [o]
      && d.st.out == st.out && d.st.fuel == st.fuel - 1
  {
    var c := st.heap[o].cls;
    var st2 := WithCount(st, o, 0).(torn := st.torn + [o], fuel := st.fuel - 1);
    assert Chain(p, c) == [c] && [c][1..] == [];
    assert Deinits(p, [], o, st2) == Done(st2) && Deinits(p, [c], o, st2) == Done(st2);
    assert FieldOrder(p, []) == [] && Backwards(p.classes[c].fields) == [];
    assert FieldOrder(p, [c]) == [] && DropFields(p, [], o, st2) == Done(st2);
  }

  /** References to these objects. */
  function Objects(os: seq<Oid>): (vs: seq<Value>)
    ensures |vs| == |os| && forall i :: 0 <= i < |os| ==> vs[i] == VObj(os[i])
  {
    if os == [] then [] else Objects(os[..|os| - 1]) + [VObj(os[|os| - 1])]
  }

  predicate AllBare(p: Program, h: seq<Obj>, os: seq<Oid>) {
    && (forall i, j :: 0 <= i < j < |os| ==> os[i] != os[j])
    && (forall i :: 0 <= i < |os| ==> Bare(p, h, os[i]))
  }

  lemma StaysBare(p: Program, st: St, os: seq<Oid>)
    requires os != [] && AllBare(p, st.heap, os)
    ensures AllBare(p, WithCount(st, os[|os| - 1], 0).heap, os[..|os| - 1])
  {
    var n := |os| - 1;
    forall i | 0 <= i < n ensures Bare(p, WithCount(st, os[n], 0).heap, os[..n][i]) {
      assert Bare(p, st.heap, os[i]) && os[i] != os[n];
    }
  }

  lemma LastIsBare(p: Program, os: seq<Oid>, st: St)
    requires AllBare(p, st.heap, os)
    ensures os != [] ==> Bare(p, st.heap, os[|os| - 1])
  {
  }

  lemma ReversedIs(torn: seq<Oid>, os: seq<Oid>)
    ensures torn + Reversed(os) ==
      if os == [] then torn else torn + [os[|os| - 1]] + Reversed(os[..|os| - 1])
  {
  }

  lemma ReleaseNothing(p: Program, st: St)
    ensures ReleaseAll(p, Objects([]), st) == Done(st)
  {
  }

  lemma ReleaseNewest(p: Program, os: seq<Oid>, st: St)
    requires os != []
    ensures ReleaseAll(p, Objects(os), st) ==
      var d := Release(p, VObj(os[|os| - 1]), st);
      if d.Failed? then d else ReleaseAll(p, Objects(os[..|os| - 1]), d.st)
  {
    hide Release;
    assert Objects(os)[..|os| - 1] == Objects(os[..|os| - 1]);
  }

  /** What a scope owns dies newest first. */
  lemma {:induction false} NewestDiesFirst(p: Program, os: seq<Oid>, st: St)
    requires AllBare(p, st.heap, os) && st.fuel > |os|
    ensures var d := ReleaseAll(p, Objects(os), st);
      d.Done? && d.st.torn == st.torn + Reversed(os) && d.st.out == st.out
  {
    hide Release, ReleaseAll, Bare, AllBare, WithCount, Reversed, Objects;
    LastIsBare(p, os, st);
    ReversedIs(st.torn, os);
    if os == [] {
      ReleaseNothing(p, st);
    } else {
      var n := |os| - 1;
      BareDies(p, os[n], st);
      var d := Release(p, VObj(os[n]), st);
      ReleaseNewest(p, os, st);
      StaysBare(p, st, os);
      NewestDiesFirst(p, os[..n], d.st);
    }
  }

  /** The class has a deinit that prints one text. */
  function DeinitText(c: ClassDecl): Option<string> {
    if c.deinit.Some? && |c.deinit.value| == 1 && c.deinit.value[0].Print?
       && |c.deinit.value[0].parts| == 1 && c.deinit.value[0].parts[0].Lit?
    then Some(c.deinit.value[0].parts[0].text) else None
  }

  function Texts(p: Program, chain: seq<ClassId>): seq<Line>
    requires Declared(p, chain)
  {
    if chain == [] then []
    else
      var t := DeinitText(p.classes[chain[0]]);
      (if t.Some? then [[Text(t.value)]] else []) + Texts(p, chain[1..])
  }

  /** A dying object runs the deinit of its own class first and that of the last base last. */
  lemma {:induction false} DerivedDeinitFirst(p: Program, chain: seq<ClassId>, o: Oid, st: St)
    requires Declared(p, chain) && st.fuel > |chain|
    requires forall i :: 0 <= i < |chain| ==>
      p.classes[chain[i]].deinit.None? || DeinitText(p.classes[chain[i]]).Some?
    ensures var d := Deinits(p, chain, o, st);
      d.Done? && d.st.out == st.out + Texts(p, chain)
    decreases |chain|
  {
    hide Block;
    if chain == [] {
      assert st.out + [] == st.out;
    } else {
      var c := p.classes[chain[0]];
      if c.deinit.None? {
        DerivedDeinitFirst(p, chain[1..], o, st);
        assert [] + Texts(p, chain[1..]) == Texts(p, chain[1..]);
      } else {
        var st1 := st.(fuel := st.fuel - 1, out := st.out + [[Text(DeinitText(c).value)]]);
        PrintsText(p, c, SelfEnv(Some(VObj(o))), st);
        DerivedDeinitFirst(p, chain[1..], o, st1);
        assert st1.out + Texts(p, chain[1..]) == st.out + Texts(p, chain);
      }
    }
  }

  lemma PrintsText(p: Program, c: ClassDecl, env: Env, st: St)
    requires DeinitText(c).Some? && st.fuel > 1
    ensures Block(p, c.deinit.value, env, st) ==
      Ex(Next, env, st.(fuel := st.fuel - 1, out := st.out + [[Text(DeinitText(c).value)]]))
  {
    hide Block;
    assert c.deinit.value == [Print([Lit(DeinitText(c).value)])] by {
      assert c.deinit.value[0].parts == [Lit(DeinitText(c).value)];
    }
    PrintsLine(p, DeinitText(c).value, env, st);
  }

  /** All of them before its fields give their references up. */
  lemma DeinitsComeFirst(p: Program, o: Oid, st: St)
    requires o < |st.heap| && st.fuel > |Chain(p, st.heap[o].cls)| + 1
    requires forall i :: 0 <= i < |Chain(p, st.heap[o].cls)| ==>
      var c := p.classes[Chain(p, st.heap[o].cls)[i]];
      c.deinit.None? || DeinitText(c).Some?
    ensures var chain := Chain(p, st.heap[o].cls);
      var d := Deinits(p, chain, o, st.(torn := st.torn + [o], fuel := st.fuel - 1));
      && d.Done? && d.st.out == st.out + Texts(p, chain)
      && Teardown(p, o, st) == DropFields(p, FieldOrder(p, chain), o, d.st)
  {
    hide Deinits, DropFields, Chain;
    DerivedDeinitFirst(p, Chain(p, st.heap[o].cls), o, st.(torn := st.torn + [o], fuel := st.fuel - 1));
  }

  /** Fields are given up in the order of the list of their names. */
  lemma {:induction false} DropConcat(p: Program, a: seq<Name>, b: seq<Name>, o: Oid, st: St)
    ensures DropFields(p, a + b, o, st) ==
      var d := DropFields(p, a, o, st);
      if d.Failed? then d else DropFields(p, b, o, d.st)
    decreases |a|
  {
    hide Release, DelField;
    if a == [] {
      assert a + b == b;
    } else {
      assert (a + b)[1..] == a[1..] + b;
      if o < |st.heap| {
        var v := GetField(st.heap[o].fields, a[0]);
        if v.Some? && v.value.VObj? {
          var d := Release(p, v.value, WithFields(st, o, DelField(st.heap[o].fields, a[0])));
          if d.Done? {
            DropConcat(p, a[1..], b, o, d.st);
          }
        } else {
          DropConcat(p, a[1..], b, o, st);
        }
      }
    }
  }

  // ---- construction ------------------------------------------------------------------------------------

  /** The class has an init without parameters and assignments, that calls the base's if
      there is one and then prints one text. */
  predicate InitPrints(c: ClassDecl, text: string) {
    c.init == Some(InitDecl([], [], if c.parent.Some? then Some([]) else None, [Print([Lit(text)])]))
  }

  /** The lines of the inits of a class and its bases, the last base first. */
  function InitTexts(p: Program, texts: seq<string>, c: ClassId): seq<Line>
    requires |texts| == |p.classes|
  {
    if c >= |p.classes| then []
    else if p.classes[c].parent.Some? && p.classes[c].parent.value < c then
      InitTexts(p, texts, p.classes[c].parent.value) + [[Text(texts[c])]]
    else [[Text(texts[c])]]
  }

  predicate AllInitsPrint(p: Program, texts: seq<string>) {
    && |texts| == |p.classes|
    && forall i :: 0 <= i < |texts| ==>
         InitPrints(p.classes[i], texts[i]) && (p.classes[i].parent.Some? ==> p.classes[i].parent.value < i)
  }

  /** An object is initialized from its last base down to its own class. */
  lemma {:induction false} BaseInitFirst(p: Program, texts: seq<string>, c: ClassId, o: Oid, st: St)
    requires AllInitsPrint(p, texts) && c < |p.classes| && st.fuel > c + 1
    ensures var r := RunInit(p, c, o, [], st);
      r.Done? && r.st.out == st.out + InitTexts(p, texts, c) && st.fuel <= r.st.fuel + c + 1
    decreases c
  {
    hide Block, AllInitsPrint;
    InitOf(p, texts, c);
    var init := p.classes[c].init.value;
    var env := SelfEnv(Some(VObj(o)));
    assert Params([], [], env) == env && Assigns(p, [], o, env, st) == Done(st);
    if p.classes[c].parent.Some? {
      var b := p.classes[c].parent.value;
      assert EvalArgs(p, [], env, st) == Oks([], st);
      BaseInitFirst(p, texts, b, o, st);
      var r := RunInit(p, b, o, [], st);
      assert ReleaseAll(p, [], r.st) == Done(r.st);
      PrintsLine(p, texts[c], env, r.st);
      assert st.out + InitTexts(p, texts, b) + [[Text(texts[c])]] == st.out + InitTexts(p, texts, c);
    } else {
      PrintsLine(p, texts[c], env, st);
    }
  }

  lemma InitOf(p: Program, texts: seq<string>, c: ClassId)
    requires AllInitsPrint(p, texts) && c < |p.classes|
    ensures |texts| == |p.classes| && InitPrints(p.classes[c], texts[c])
    ensures p.classes[c].parent.Some? ==> p.classes[c].parent.value < c
  {
  }

  lemma PrintsLine(p: Program, text: string, env: Env, st: St)
    requires st.fuel > 1
    ensures Block(p, [Print([Lit(text)])], env, st) ==
      Ex(Next, env, st.(fuel := st.fuel - 1, out := st.out + [[Text(text)]]))
  {
    var s := Print([Lit(text)]);
    var st1 := st.(fuel := st.fuel - 1);
    assert [s][1..] == [] && s.parts[1..] == [];
    assert EvalParts(p, [], env, st1) == Line([], st1);
    assert EvalParts(p, s.parts, env, st1) == Line([Text(text)], st1);
    var x := Exec(p, s, env, st1);
    assert Block(p, [], env, x.st) == Ex(Next, env, x.st);
  }

  // ---- the end ------------------------------------------------------------------------------------------

  /** The code of os.exit is the code of the run, whatever stands behind it. */
  lemma ExitGivesTheCode(p: Program, code: int, fuel: nat)
    requires fuel > 1 && p.main != [] && p.main[0] == Exit(code)
    ensures var r := Run(p, fuel); r.Result? && r.code == code && r.out == []
  {
    var st := St([], [], fuel - 1, [], [], false);
    assert Exec(p, Exit(code), [[]], st) == Fail(Quit(code, Mark(st.heap, st.torn), []), [[]], st);
  }
}
