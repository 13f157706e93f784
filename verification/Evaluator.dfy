/**
  The reference evaluator of the differential fuzzer, on a fragment of its
  language: integers, booleans and class instances under explicit reference
  counting.  Evaluation passes its state along; a Python exception that leaves a
  construct is a Stop or a Flow.  Objects are numbered by their place in the heap,
  which is their creation order.
*/
module Evaluator {
  import opened Options
  import Words

  type Name = string
  type Oid = nat
  type ClassId = nat

  const SELF: Name := "self"
  const GUARD_LIMIT := 100000

  // ---- integer types -------------------------------------------------------------

  datatype IntType = I8 | I16 | I32 | I64 | U8 | U16 | U32 | U64

  function Bits(t: IntType): nat {
    match t
    case I8 => 8 case I16 => 16 case I32 => 32 case I64 => 64
    case U8 => 8 case U16 => 16 case U32 => 32 case U64 => 64
  }

  predicate Signed(t: IntType) {
    t.I8? || t.I16? || t.I32? || t.I64?
  }

  /** norm_int: keep the low bits, then read the top one as a sign. */
  function NormInt(t: IntType, v: int): int {
    var low := v % Words.Pow2(Bits(t));
    if Signed(t) && low >= Words.Pow2(Bits(t) - 1) then low - Words.Pow2(Bits(t)) else low
  }

  // ---- programs --------------------------------------------------------------------

  datatype UnaryOp = Neg | Not | Flip
  datatype BinaryOp =
    | Add | Sub | Mul | Div | Mod | Shl | Shr
    | Eq | Ne | Lt | Le | Gt | Ge
    | AndAlso | OrElse

  datatype Expr =
    | IntLit(t: IntType, value: int)
    | BoolLit(b: bool)
    | VarRef(name: Name)
    | SelfField(field: Name)
    | Paren(inner: Expr)
    | Unary(uop: UnaryOp, e: Expr, t: IntType)
    | Binary(bop: BinaryOp, l: Expr, r: Expr, t: IntType)
    | Cast(e: Expr, t: IntType)
    | IfValue(cond: Expr, thenE: Expr, elseE: Expr)
    | FieldGet(base: Expr, field: Name)
    | NewObj(cls: ClassId, args: seq<Expr>)
    | Call(fn: Name, args: seq<Expr>)
    | MethodCall(recv: Expr, slot: nat, args: seq<Expr>)
    | SuperCall(owner: ClassId, slot: nat, args: seq<Expr>)

  datatype Part = Lit(text: string) | Shown(e: Expr)

  datatype ElsePart = NoElse | ElseBlock(body: seq<Stmt>)
  datatype Stmt =
    | Let(name: Name, init: Expr)
    | Assign(name: Name, e: Expr, op: Option<BinaryOp>, t: IntType)
    | FieldAssign(name: Name, field: Name, e: Expr)
    | SelfFieldAssign(field: Name, e: Expr)
    | ExprStmt(e: Expr)
    | Print(parts: seq<Part>)
    | If(cond: Expr, thenB: seq<Stmt>, elseB: ElsePart)
    | ForRange(loopVar: Name, lo: int, hi: int, inclusive: bool, body: seq<Stmt>)
    | CounterLoop(counter: Name, limit: int, body: seq<Stmt>)
    | Break
    | Continue
    | Return(result: Option<Expr>)
    | Exit(code: int)

  /** scalar: the declared type is an integer or a boolean, not a class. */
  datatype FieldDecl = FieldDecl(name: Name, scalar: bool, initial: Option<int>)
  datatype MethodDecl = MethodDecl(slot: nat, params: seq<Name>, hasResult: bool, body: seq<Stmt>)
  datatype InitAssign = InitAssign(field: Name, e: Expr)
  datatype InitDecl = InitDecl(
    params: seq<Name>, assigns: seq<InitAssign>, superArgs: Option<seq<Expr>>, post: seq<Stmt>)
  datatype ClassDecl = ClassDecl(
    parent: Option<ClassId>, fields: seq<FieldDecl>, methods: seq<MethodDecl>,
    init: Option<InitDecl>, deinit: Option<seq<Stmt>>)
  datatype FnDecl = FnDecl(name: Name, params: seq<Name>, hasResult: bool, body: seq<Stmt>)
  datatype Program = Program(classes: seq<ClassDecl>, fns: seq<FnDecl>, main: seq<Stmt>)

  /** Every class of the chain exists. */
  predicate Declared(p: Program, chain: seq<ClassId>) {
    forall i :: 0 <= i < |chain| ==> chain[i] < |p.classes|
  }

  /** The class itself and its bases, nearest first.  Classes are numbered in
      declaration order, so a base has a smaller number. */
  function Chain(p: Program, c: ClassId): (r: seq<ClassId>)
    ensures Declared(p, r)
  {
    if c >= |p.classes| then []
    else if p.classes[c].parent.Some? && p.classes[c].parent.value < c then
      [c] + Chain(p, p.classes[c].parent.value)
    else [c]
  }

  function FindMethod(ms: seq<MethodDecl>, slot: nat): Option<MethodDecl> {
    if ms == [] then None
    else if ms[0].slot == slot then Some(ms[0])
    else FindMethod(ms[1..], slot)
  }

  /** resolve_impl: the most derived implementation of a slot in a chain. */
  function Resolve(p: Program, chain: seq<ClassId>, slot: nat): Option<MethodDecl>
    requires Declared(p, chain)
  {
    if chain == [] then None
    else
      var m := FindMethod(p.classes[chain[0]].methods, slot);
      if m.Some? then m else Resolve(p, chain[1..], slot)
  }

  /** The last declaration of a name wins, as in a Python dictionary. */
  function FindFn(fs: seq<FnDecl>, name: Name): Option<FnDecl> {
    if fs == [] then None
    else if fs[|fs| - 1].name == name then Some(fs[|fs| - 1])
    else FindFn(fs[..|fs| - 1], name)
  }

  /** The field names of a chain in the order teardown releases them: nearest
      class first, each class's fields last declared first. */
  function FieldOrder(p: Program, chain: seq<ClassId>): seq<Name>
    requires Declared(p, chain)
  {
    if chain == [] then [] else Backwards(p.classes[chain[0]].fields) + FieldOrder(p, chain[1..])
  }

  function Backwards(fs: seq<FieldDecl>): seq<Name> {
    if fs == [] then [] else Backwards(fs[1..]) + [fs[0].name]
  }

  // ---- values, objects, environments -----------------------------------------------

  datatype Value = VInt(i: int) | VBool(b: bool) | VObj(o: Oid) | VNone

  datatype Field = Field(name: Name, val: Value)
  datatype Obj = Obj(cls: ClassId, fields: seq<Field>, rc: int)

  datatype Piece = Text(s: string) | Num(i: int) | Truth(b: bool)
  type Line = seq<Piece>

  /** Three histories beside the state: torn, the objects torn down so far; lost, the
      objects whose owned binding a second declaration of its name overwrote, both in
      that order; and dry, whether the fuel has run out. */
  datatype St = St(heap: seq<Obj>, out: seq<Line>, fuel: nat, torn: seq<Oid>, lost: seq<Oid>, dry: bool)

  datatype Slot = Slot(name: Name, val: Value, owned: bool)
  type Scope = seq<Slot>
  type Env = seq<Scope>

  /** Heap and teardowns at one moment. */
  datatype Mark = Mark(heap: seq<Obj>, torn: seq<Oid>)

  /** Exceptions that end the evaluation.  Quit is os.exit; with it travel the moment
      it was raised and the values owned by the scopes it has passed since.  Exhausted
      is the OracleUnsupported of burn, told apart from the others.  Stuck stands for any Python error of a
      program the two checkers would reject; Negative is the failed assertion on a
      reference count below zero. */
  datatype Stop = Quit(code: int, at: Mark, passed: seq<Value>) | Unsupported | Stuck | Negative | Exhausted

  datatype Ev = Ok(v: Value, st: St) | Halt(why: Stop, st: St)
  datatype Evs = Oks(vs: seq<Value>, st: St) | Halts(why: Stop, st: St)
  datatype Rel = Done(st: St) | Failed(why: Stop, st: St)
  datatype Flow = Next | Breaks | Continues | Returns(v: Value) | Stops(why: Stop)
  datatype Ex = Ex(flow: Flow, env: Env, st: St)
  datatype Pieces = Line(ps: seq<Piece>, st: St) | NoLine(why: Stop, st: St)

  function GetField(fs: seq<Field>, name: Name): Option<Value> {
    if fs == [] then None
    else if fs[0].name == name then Some(fs[0].val)
    else GetField(fs[1..], name)
  }

  function SetField(fs: seq<Field>, name: Name, v: Value): seq<Field> {
    if fs == [] then [Field(name, v)]
    else if fs[0].name == name then [Field(name, v)] + fs[1..]
    else [fs[0]] + SetField(fs[1..], name, v)
  }

  function DelField(fs: seq<Field>, name: Name): seq<Field> {
    if fs == [] then []
    else if fs[0].name == name then fs[1..]
    else [fs[0]] + DelField(fs[1..], name)
  }

  function LookupScope(s: Scope, name: Name): Option<Value> {
    if s == [] then None
    else if s[0].name == name then Some(s[0].val)
    else LookupScope(s[1..], name)
  }

  /** Env.lookup: innermost scope first. */
  function Lookup(env: Env, name: Name): Option<Value> {
    if env == [] then None
    else
      var here := LookupScope(env[|env| - 1], name);
      if here.Some? then here else Lookup(env[..|env| - 1], name)
  }

  function SetSlot(s: Scope, n: Slot): Scope {
    if s == [] then [n]
    else if s[0].name == n.name then [n] + s[1..]
    else [s[0]] + SetSlot(s[1..], n)
  }

  /** Env.declare: the innermost scope gets the binding; an existing one is overwritten. */
  function Declare(env: Env, n: Slot): Env {
    if env == [] then [[n]]
    else env[..|env| - 1] + [SetSlot(env[|env| - 1], n)]
  }

  function SlotOf(s: Scope, name: Name): Option<Slot> {
    if s == [] then None
    else if s[0].name == name then Some(s[0])
    else SlotOf(s[1..], name)
  }

  /** The slot Env.assign will overwrite. */
  function FindSlot(env: Env, name: Name): Option<Slot> {
    if env == [] then None
    else
      var here := SlotOf(env[|env| - 1], name);
      if here.Some? then here else FindSlot(env[..|env| - 1], name)
  }

  /** Env.assign: overwrite the innermost binding, which owns its value from now on. */
  function SetVar(env: Env, name: Name, v: Value): Env {
    if env == [] then []
    else if SlotOf(env[|env| - 1], name).Some? then
      env[..|env| - 1] + [SetSlot(env[|env| - 1], Slot(name, v, true))]
    else SetVar(env[..|env| - 1], name, v) + [env[|env| - 1]]
  }

  /** The object whose owned binding a declaration overwrites. */
  function Dropped(env: Env, name: Name): seq<Oid> {
    var was := if env == [] then None else SlotOf(env[|env| - 1], name);
    if was.Some? && was.value.owned && was.value.val.VObj? then [was.value.val.o] else []
  }

  function Lose(st: St, env: Env, name: Name): St {
    st.(lost := st.lost + Dropped(env, name))
  }

  function Owned(s: Scope): seq<Value> {
    if s == [] then []
    else (if s[0].owned then [s[0].val] else []) + Owned(s[1..])
  }

  function OwnedAll(env: Env): seq<Value> {
    if env == [] then [] else OwnedAll(env[..|env| - 1]) + Owned(env[|env| - 1])
  }

  function Push(env: Env): Env {
    env + [[]]
  }

  /** zip stops at the shorter list; parameters are borrowed. */
  function Params(names: seq<Name>, vs: seq<Value>, env: Env): Env {
    if names == [] || vs == [] then env
    else Params(names[1..], vs[1..], Declare(env, Slot(names[0], vs[0], false)))
  }

  /** What evaluation does to the counters of a state. */
  predicate Later(st: St, after: St) {
    after.fuel <= st.fuel && |st.torn| <= |after.torn| && (st.dry ==> after.dry)
  }

  /** The fuel is gone. */
  function Dry(st: St): St {
    st.(dry := true)
  }

  /** An Oracle.burn: None once the fuel is gone. */
  function Burn(st: St): (r: Option<St>)
    ensures r.Some? ==> r.value.fuel < st.fuel && r.value == st.(fuel := r.value.fuel)
  {
    if st.fuel <= 1 then None else Some(st.(fuel := st.fuel - 1))
  }

  function WithCount(st: St, o: Oid, rc: int): St
    requires o < |st.heap|
  {
    st.(heap := st.heap[o := st.heap[o].(rc := rc)])
  }

  /** owned_value: reading a stored value takes a reference of its own. */
  function Retain(v: Value, st: St): St {
    if v.VObj? && v.o < |st.heap| then WithCount(st, v.o, st.heap[v.o].rc + 1) else st
  }

  function WithFields(st: St, o: Oid, fs: seq<Field>): St
    requires o < |st.heap|
  {
    st.(heap := st.heap[o := st.heap[o].(fields := fs)])
  }

  // ---- scalar operations --------------------------------------------------------------

  function UnaryValue(op: UnaryOp, t: IntType, v: Value): Option<Value> {
    match op
    case Not => if v.VBool? then Some(VBool(!v.b)) else None
    case Neg => if v.VInt? then Some(VInt(NormInt(t, -v.i))) else None
    case Flip => if v.VInt? then Some(VInt(NormInt(t, -v.i - 1))) else None
  }

  function Abs(x: int): nat {
    if x < 0 then -x else x
  }

  /** Division truncating toward zero. */
  function Quot(a: int, b: int): int
    requires b != 0
  {
    if (a < 0) != (b < 0) then -(Abs(a) / Abs(b)) else Abs(a) / Abs(b)
  }

  /** Arithmetic on two integers; None on a zero divisor. */
  function Arith(op: BinaryOp, t: IntType, a: int, b: int): (r: Option<Value>)
    ensures r.Some? ==> !r.value.VObj?
  {
    var count := b % Bits(t);
    match op
    case Add => Some(VInt(NormInt(t, a + b)))
    case Sub => Some(VInt(NormInt(t, a - b)))
    case Mul => Some(VInt(NormInt(t, a * b)))
    case Div => if b == 0 then None else Some(VInt(NormInt(t, Quot(a, b))))
    case Mod => if b == 0 then None else Some(VInt(NormInt(t, a - Quot(a, b) * b)))
    case Shl => Some(VInt(NormInt(t, a * Words.Pow2(count))))
    case Shr =>
      var x := if Signed(t) then a else a % Words.Pow2(Bits(t));
      Some(VInt(NormInt(t, x / Words.Pow2(count))))
    case Eq => Some(VBool(a == b))
    case Ne => Some(VBool(a != b))
    case Lt => Some(VBool(a < b))
    case Le => Some(VBool(a <= b))
    case Gt => Some(VBool(a > b))
    case Ge => Some(VBool(a >= b))
    case AndAlso => None
    case OrElse => None
  }

  /** A strict binary operator on two evaluated operands. */
  function BinaryValue(op: BinaryOp, t: IntType, a: Value, b: Value, st: St): (r: Ev)
    ensures r.st == st
    ensures r.Ok? ==> !r.v.VObj?
  {
    if a.VInt? && b.VInt? && !op.AndAlso? && !op.OrElse? then
      var r := Arith(op, t, a.i, b.i);
      if r.Some? then Ok(r.value, st) else Halt(Unsupported, st)
    else if a.VBool? && b.VBool? && op.Eq? then Ok(VBool(a.b == b.b), st)
    else if a.VBool? && b.VBool? && op.Ne? then Ok(VBool(a.b != b.b), st)
    else Halt(Stuck, st)
  }

  // ---- expressions ---------------------------------------------------------------------

  function Eval(p: Program, e: Expr, env: Env, st: St): (r: Ev)
    ensures Later(st, r.st)
    decreases st.fuel, 4, e, 1
  {
    match e
    case IntLit(t, v) => Ok(VInt(NormInt(t, v)), st)
    case BoolLit(b) => Ok(VBool(b), st)
    case VarRef(name) =>
      var v := Lookup(env, name);
      if v.None? then Halt(Unsupported, st) else Ok(v.value, Retain(v.value, st))
    case SelfField(field) =>
      var self := Lookup(env, SELF);
      if self.None? then Halt(Unsupported, st) else ReadField(self.value, field, st)
    case Paren(inner) => Eval(p, inner, env, st)
    case Unary(op, x, t) =>
      var r := Eval(p, x, env, st);
      if r.Halt? then r
      else
        var v := UnaryValue(op, t, r.v);
        if v.Some? then Ok(v.value, r.st) else Halt(Stuck, r.st)
    case Binary(_, _, _, _) => EvalBinary(p, e, env, st)
    case Cast(x, t) =>
      var r := Eval(p, x, env, st);
      if r.Halt? then r
      else if r.v.VInt? then Ok(VInt(NormInt(t, r.v.i)), r.st)
      else Halt(Stuck, r.st)
    case IfValue(c, x, y) =>
      var r := Eval(p, c, env, st);
      if r.Halt? then r
      else if !r.v.VBool? then Halt(Stuck, r.st)
      else if r.v.b then Eval(p, x, env, r.st)
      else Eval(p, y, env, r.st)
    case FieldGet(base, field) =>
      var r := Eval(p, base, env, st);
      if r.Halt? then r
      else
        var got := ReadField(r.v, field, r.st);
        if got.Halt? then got else Finish(got.v, Release(p, r.v, got.st))
    case NewObj(cls, args) =>
      var vs := EvalArgs(p, args, env, st);
      if vs.Halts? then Halt(vs.why, vs.st)
      else
        var r := Construct(p, cls, vs.vs, vs.st);
        if r.Halt? then r else Finish(r.v, ReleaseAll(p, vs.vs, r.st))
    case Call(fn, args) =>
      var vs := EvalArgs(p, args, env, st);
      if vs.Halts? then Halt(vs.why, vs.st)
      else
        var r := CallFn(p, fn, vs.vs, vs.st);
        if r.Halt? then r else Finish(r.v, ReleaseAll(p, vs.vs, r.st))
    case MethodCall(_, _, _) => EvalMethodCall(p, e, env, st)
    case SuperCall(_, _, _) => EvalSuperCall(p, e, env, st)
  }

  /** The value of a stored field, with a reference of its own. */
  function ReadField(v: Value, field: Name, st: St): (r: Ev)
    ensures r.st == st.(heap := r.st.heap)
  {
    if !v.VObj? || v.o >= |st.heap| then Halt(Stuck, st)
    else
      var x := GetField(st.heap[v.o].fields, field);
      if x.None? then Halt(Stuck, st) else Ok(x.value, Retain(x.value, st))
  }

  function Finish(v: Value, r: Rel): (e: Ev)
    ensures e.st == r.st
  {
    if r.Failed? then Halt(r.why, r.st) else Ok(v, r.st)
  }

  function EvalBinary(p: Program, e: Expr, env: Env, st: St): (r: Ev)
    requires e.Binary?
    ensures Later(st, r.st)
    decreases st.fuel, 4, e, 0
  {
    var a := Eval(p, e.l, env, st);
    if a.Halt? then a
    else if e.bop.AndAlso? || e.bop.OrElse? then
      if !a.v.VBool? then Halt(Stuck, a.st)
      else if a.v.b == e.bop.OrElse? then a
      else
        var b := Eval(p, e.r, env, a.st);
        if b.Halt? || b.v.VBool? then b else Halt(Stuck, b.st)
    else
      var b := Eval(p, e.r, env, a.st);
      if b.Halt? then b else BinaryValue(e.bop, e.t, a.v, b.v, b.st)
  }

  /** Dynamic dispatch through the receiver's class; afterwards the argument
      temporaries die newest first, and the receiver last. */
  function EvalMethodCall(p: Program, e: Expr, env: Env, st: St): (r: Ev)
    requires e.MethodCall?
    ensures Later(st, r.st)
    decreases st.fuel, 4, e, 0
  {
    var o := Eval(p, e.recv, env, st);
    if o.Halt? then o
    else if !o.v.VObj? then Halt(Unsupported, o.st)
    else
      var vs := EvalArgs(p, e.args, env, o.st);
      if vs.Halts? then Halt(vs.why, vs.st)
      else if o.v.o >= |vs.st.heap| then Halt(Stuck, vs.st)
      else
        var m := Resolve(p, Chain(p, vs.st.heap[o.v.o].cls), e.slot);
        if m.None? then Halt(Unsupported, vs.st)
        else
          var r := Invoke(p, m.value.params, m.value.body, m.value.hasResult, Some(o.v), vs.vs, vs.st);
          if r.Halt? then r
          else
            var d := ReleaseAll(p, vs.vs, r.st);
            if d.Failed? then Halt(d.why, d.st) else Finish(r.v, Release(p, o.v, d.st))
  }

  /** The nearest implementation above the owner class runs on the current self. */
  function EvalSuperCall(p: Program, e: Expr, env: Env, st: St): (r: Ev)
    requires e.SuperCall?
    ensures Later(st, r.st)
    decreases st.fuel, 4, e, 0
  {
    var self := Lookup(env, SELF);
    if self.None? then Halt(Unsupported, st)
    else
      var vs := EvalArgs(p, e.args, env, st);
      if vs.Halts? then Halt(vs.why, vs.st)
      else
        var chain := Chain(p, e.owner);
        var m := if chain == [] then None else Resolve(p, chain[1..], e.slot);
        if m.None? then Halt(Unsupported, vs.st)
        else
          var r := Invoke(p, m.value.params, m.value.body, m.value.hasResult, Some(self.value), vs.vs, vs.st);
          if r.Halt? then r else Finish(r.v, ReleaseAll(p, vs.vs, r.st))
  }

  function EvalArgs(p: Program, es: seq<Expr>, env: Env, st: St): (r: Evs)
    ensures Later(st, r.st)
    decreases st.fuel, 4, es, 0
  {
    if es == [] then Oks([], st)
    else
      var a := Eval(p, es[0], env, st);
      if a.Halt? then Halts(a.why, a.st)
      else
        var rest := EvalArgs(p, es[1..], env, a.st);
        if rest.Halts? then rest else Oks([a.v] + rest.vs, rest.st)
  }

  function CallFn(p: Program, name: Name, vs: seq<Value>, st: St): (r: Ev)
    ensures Later(st, r.st)
    decreases st.fuel, 3, 1
  {
    var f := FindFn(p.fns, name);
    // the fuel is burnt before the name is looked up
    if f.None? then if Burn(st).None? then Halt(Exhausted, Dry(st)) else Halt(Unsupported, st)
    else Invoke(p, f.value.params, f.value.body, f.value.hasResult, None, vs, st)
  }

  /** invoke_method and call_by_name: a fresh environment of borrowed bindings, the
      body, and on every way out the release of the locals. */
  function Invoke(p: Program, params: seq<Name>, body: seq<Stmt>, hasResult: bool,
                  self: Option<Value>, vs: seq<Value>, st: St): (r: Ev)
    ensures Later(st, r.st)
    decreases st.fuel, 3, 0
  {
    var b := Burn(st);
    if b.None? then Halt(Exhausted, Dry(st))
    else
      Returning(p, hasResult, Block(p, body, Params(params, vs, SelfEnv(self)), b.value))
  }

  /** The end of a call: finally: env.pop_all(), then the result or the exception; an
      exception of a release takes the place of either. */
  function Returning(p: Program, hasResult: bool, x: Ex): (r: Ev)
    ensures Later(x.st, r.st)
    decreases x.st.fuel, 3, 0
  {
    var d := ReleaseAll(p, OwnedAll(x.env), x.st);
    if d.Failed? then Halt(d.why, d.st)
    else
      match Past(x.flow, OwnedAll(x.env))
      case Stops(why) => Halt(why, d.st)
      case Returns(v) => Ok(v, d.st)
      case Next => if hasResult then Halt(Unsupported, d.st) else Ok(VNone, d.st)
      case _ => Halt(Stuck, d.st)
  }

  /** An exit passes scopes that own these values. */
  function Past(f: Flow, vs: seq<Value>): Flow {
    if f.Stops? && f.why.Quit? then Stops(f.why.(passed := f.why.passed + vs)) else f
  }

  function SelfEnv(self: Option<Value>): Env {
    if self.None? then [[]] else [[Slot(SELF, self.value, false)]]
  }

  // ---- reference counts ------------------------------------------------------------------

  function Release(p: Program, v: Value, st: St): (r: Rel)
    ensures Later(st, r.st)
    decreases st.fuel, 1
  {
    if !v.VObj? then Done(st)
    else if v.o >= |st.heap| then Failed(Stuck, st)
    else
      var rc := st.heap[v.o].rc - 1;
      if rc == 0 then Teardown(p, v.o, WithCount(st, v.o, rc))
      else if rc < 0 then Failed(Negative, WithCount(st, v.o, rc))
      else Done(WithCount(st, v.o, rc))
  }

  /** Release a list of values, last one first. */
  function ReleaseAll(p: Program, vs: seq<Value>, st: St): (r: Rel)
    ensures Later(st, r.st)
    decreases st.fuel, 2, |vs|
  {
    if vs == [] then Done(st)
    else
      var d := Release(p, vs[|vs| - 1], st);
      if d.Failed? then d else ReleaseAll(p, vs[..|vs| - 1], d.st)
  }

  /** deinit bodies, nearest class first; then the object-valued fields. */
  function Teardown(p: Program, o: Oid, st: St): (r: Rel)
    requires o < |st.heap|
    ensures Later(st, r.st)
    decreases st.fuel, 0
  {
    var b := Burn(st.(torn := st.torn + [o]));
    if b.None? then Failed(Exhausted, Dry(st.(torn := st.torn + [o])))
    else
      var chain := Chain(p, st.heap[o].cls);
      var d := Deinits(p, chain, o, b.value);
      if d.Failed? then d else DropFields(p, FieldOrder(p, chain), o, d.st)
  }

  function Deinits(p: Program, chain: seq<ClassId>, o: Oid, st: St): (r: Rel)
    requires Declared(p, chain)
    ensures Later(st, r.st)
    decreases st.fuel, 9, |chain|
  {
    if chain == [] then Done(st)
    else if p.classes[chain[0]].deinit.None? then Deinits(p, chain[1..], o, st)
    else
      var x := Block(p, p.classes[chain[0]].deinit.value, SelfEnv(Some(VObj(o))), st);
      match x.flow
      case Next => Deinits(p, chain[1..], o, x.st)
      case Stops(why) => Failed(why, x.st)
      case _ => Failed(Stuck, x.st)
  }

  /** Unlink and release the object-valued fields among the names. */
  function DropFields(p: Program, names: seq<Name>, o: Oid, st: St): (r: Rel)
    ensures Later(st, r.st)
    decreases st.fuel, 2, |names|
  {
    if names == [] then Done(st)
    else if o >= |st.heap| then Failed(Stuck, st)
    else
      var v := GetField(st.heap[o].fields, names[0]);
      if v.Some? && v.value.VObj? then
        var d := Release(p, v.value, WithFields(st, o, DelField(st.heap[o].fields, names[0])));
        if d.Failed? then d else DropFields(p, names[1..], o, d.st)
      else DropFields(p, names[1..], o, st)
  }

  // ---- construction ------------------------------------------------------------------------

  /** Declared initial values, nearest class first. */
  function Initial(p: Program, chain: seq<ClassId>, fs: seq<Field>): seq<Field>
    requires Declared(p, chain)
  {
    if chain == [] then fs else Initial(p, chain[1..], InitialOwn(p.classes[chain[0]].fields, fs))
  }

  function InitialOwn(ds: seq<FieldDecl>, fs: seq<Field>): seq<Field> {
    if ds == [] then fs
    else InitialOwn(ds[1..], if ds[0].initial.Some? then SetField(fs, ds[0].name, VInt(ds[0].initial.value)) else fs)
  }

  function Construct(p: Program, cls: ClassId, vs: seq<Value>, st: St): (r: Ev)
    ensures Later(st, r.st)
    decreases st.fuel, 3, 0
  {
    var b := Burn(st);
    if b.None? then Halt(Exhausted, Dry(st))
    else
      var o := |st.heap|;
      var obj := Obj(cls, Initial(p, Chain(p, cls), []), 1);
      Finish(VObj(o), RunInit(p, cls, o, vs, b.value.(heap := b.value.heap + [obj])))
  }

  function RunInit(p: Program, cls: ClassId, o: Oid, vs: seq<Value>, st: St): (r: Rel)
    ensures Later(st, r.st)
    decreases st.fuel, 7, cls, 1
  {
    if cls >= |p.classes| || p.classes[cls].init.None? then Failed(Unsupported, st)
    else
      var init := p.classes[cls].init.value;
      var env := Params(init.params, vs, SelfEnv(Some(VObj(o))));
      var a := Assigns(p, init.assigns, o, env, st);
      if a.Failed? then a
      else
        var s := RunSuper(p, cls, o, env, a.st);
        if s.Failed? then s
        else
          var x := Block(p, init.post, env, s.st);
          match x.flow
          case Next => Done(x.st)
          case Stops(why) => Failed(why, x.st)
          case _ => Failed(Stuck, x.st)
  }

  function RunSuper(p: Program, cls: ClassId, o: Oid, env: Env, st: St): (r: Rel)
    requires cls < |p.classes| && p.classes[cls].init.Some?
    ensures Later(st, r.st)
    decreases st.fuel, 7, cls, 0
  {
    var sup := p.classes[cls].init.value.superArgs;
    if sup.None? then Done(st)
    else
      var vs := EvalArgs(p, sup.value, env, st);
      if vs.Halts? then Failed(vs.why, vs.st)
      else if p.classes[cls].parent.None? || p.classes[cls].parent.value >= cls then Failed(Stuck, vs.st)
      else
        var r := RunInit(p, p.classes[cls].parent.value, o, vs.vs, vs.st);
        if r.Failed? then r else ReleaseAll(p, vs.vs, r.st)
  }

  /** The own field assignments of an init: the old value is read before the
      expression is evaluated, and released after the new one is stored. */
  function Assigns(p: Program, todo: seq<InitAssign>, o: Oid, env: Env, st: St): (r: Rel)
    ensures Later(st, r.st)
    decreases st.fuel, 5, |todo|
  {
    if todo == [] then Done(st)
    else if o >= |st.heap| then Failed(Stuck, st)
    else
      var was := GetField(st.heap[o].fields, todo[0].field);
      var x := Eval(p, todo[0].e, env, st);
      if x.Halt? then Failed(x.why, x.st)
      else
        var stored := StoreField(p, VObj(o), todo[0].field, x.v, x.st);
        if stored.Failed? then stored
        else
          var d := Release(p, if was.Some? then was.value else VNone, stored.st);
          if d.Failed? then d else Assigns(p, todo[1..], o, env, d.st)
  }

  /** Store into a declared field, an object only where a class type is declared;
      the checkers refuse anything else. */
  function StoreField(p: Program, holder: Value, field: Name, v: Value, st: St): (r: Rel)
    ensures r.st == st.(heap := r.st.heap)
  {
    if !holder.VObj? || holder.o >= |st.heap| then Failed(Stuck, st)
    else
      var chain := Chain(p, st.heap[holder.o].cls);
      if field !in FieldOrder(p, chain) || (v.VObj? && !HoldsObjects(p, chain, field)) then Failed(Stuck, st)
      else Done(WithFields(st, holder.o, SetField(st.heap[holder.o].fields, field, v)))
  }

  /** Some class of the chain declares the field with a class type. */
  predicate HoldsObjects(p: Program, chain: seq<ClassId>, field: Name)
    requires Declared(p, chain)
  {
    exists i :: 0 <= i < |chain| && HasClassField(p.classes[chain[i]], field)
  }

  predicate HasClassField(c: ClassDecl, field: Name) {
    exists j :: 0 <= j < |c.fields| && c.fields[j].name == field && !c.fields[j].scalar
  }

  /** The tail of a field assignment: read the old value, store, release the old one. */
  function Replace(p: Program, holder: Value, field: Name, v: Value, st: St): (r: Rel)
    ensures Later(st, r.st)
    decreases st.fuel, 2, 0
  {
    if !holder.VObj? || holder.o >= |st.heap| then Failed(Stuck, st)
    else
      var was := GetField(st.heap[holder.o].fields, field);
      var stored := StoreField(p, holder, field, v, st);
      if stored.Failed? then stored
      else Release(p, if was.Some? then was.value else VNone, stored.st)
  }

  // ---- statements -------------------------------------------------------------------------------

  /** run_block: every statement burns one unit of fuel. */
  function Block(p: Program, ss: seq<Stmt>, env: Env, st: St): (r: Ex)
    ensures Later(st, r.st)
    decreases st.fuel, 6, |ss|
  {
    if ss == [] then Ex(Next, env, st)
    else
      var b := Burn(st);
      if b.None? then Ex(Stops(Exhausted), env, Dry(st))
      else
        var x := Exec(p, ss[0], env, b.value);
        if x.flow.Next? then Block(p, ss[1..], x.env, x.st) else x
  }

  function Fail(why: Stop, env: Env, st: St): (r: Ex)
    ensures r.st == st
  {
    Ex(Stops(why), env, st)
  }

  function Then(r: Rel, env: Env): (x: Ex)
    ensures x.st == r.st
  {
    if r.Failed? then Ex(Stops(r.why), env, r.st) else Ex(Next, env, r.st)
  }

  function Exec(p: Program, s: Stmt, env: Env, st: St): (r: Ex)
    ensures Later(st, r.st)
    decreases st.fuel, 8
  {
    match s
    case Let(name, init) =>
      var x := Eval(p, init, env, st);
      if x.Halt? then Fail(x.why, env, x.st)
      else Ex(Next, Declare(env, Slot(name, x.v, true)), Lose(x.st, env, name))
    case Assign(name, e, op, t) =>
      var x := Eval(p, e, env, st);
      if x.Halt? then Fail(x.why, env, x.st)
      else
        var y := Combine(env, name, op, t, x.v, x.st);
        if y.Halt? then Fail(y.why, env, y.st)
        else
          var was := FindSlot(env, name);
          if was.None? then Fail(Unsupported, env, y.st)
          else
            var env' := SetVar(env, name, y.v);
            if was.value.owned then Then(Release(p, was.value.val, y.st), env') else Ex(Next, env', y.st)
    case FieldAssign(name, field, e) =>
      var holder := Lookup(env, name);
      if holder.None? then Fail(Unsupported, env, st)
      else
        var x := Eval(p, e, env, st);
        if x.Halt? then Fail(x.why, env, x.st)
        else Then(Replace(p, holder.value, field, x.v, x.st), env)
    case SelfFieldAssign(field, e) =>
      var holder := Lookup(env, SELF);
      if holder.None? then Fail(Unsupported, env, st)
      else
        var x := Eval(p, e, env, st);
        if x.Halt? then Fail(x.why, env, x.st)
        else Then(Replace(p, holder.value, field, x.v, x.st), env)
    case ExprStmt(e) =>
      var x := Eval(p, e, env, st);
      if x.Halt? then Fail(x.why, env, x.st) else Then(Release(p, x.v, x.st), env)
    case Print(parts) =>
      var l := EvalParts(p, parts, env, st);
      if l.NoLine? then Fail(l.why, env, l.st)
      else Ex(Next, env, l.st.(out := l.st.out + [l.ps]))
    case If(c, thenB, elseB) =>
      var x := Eval(p, c, env, st);
      if x.Halt? then Fail(x.why, env, x.st)
      else if !x.v.VBool? then Fail(Stuck, env, x.st)
      else if x.v.b then Pop(p, Block(p, thenB, Push(env), x.st))
      else if elseB.ElseBlock? then Pop(p, Block(p, elseB.body, Push(env), x.st))
      else Ex(Next, env, x.st)
    case ForRange(loopVar, lo, hi, inclusive, body) =>
      Iterate(p, loopVar, lo, if inclusive then hi + 1 else hi, body, env, st)
    case CounterLoop(counter, limit, body) =>
      Count(p, counter, limit, body, 0, Declare(env, Slot(counter, VInt(0), true)), Lose(st, env, counter))
    case Break => Ex(Breaks, env, st)
    case Continue => Ex(Continues, env, st)
    case Return(result) =>
      if result.None? then Ex(Returns(VNone), env, st)
      else
        var x := Eval(p, result.value, env, st);
        if x.Halt? then Fail(x.why, env, x.st) else Ex(Returns(x.v), env, x.st)
    case Exit(code) => Fail(Quit(code, Mark(st.heap, st.torn), []), env, st)
  }

  /** The value an assignment stores: the operand itself, or old op operand. */
  function Combine(env: Env, name: Name, op: Option<BinaryOp>, t: IntType, v: Value, st: St): (r: Ev)
    ensures r.st == st
  {
    if op.None? then Ok(v, st)
    else
      var was := Lookup(env, name);
      if was.None? then Halt(Unsupported, st)
      else if !was.value.VInt? || !v.VInt? then Halt(Stuck, st)
      else BinaryValue(op.value, t, VInt(NormInt(t, was.value.i)), VInt(NormInt(t, v.i)), st)
  }

  function EvalParts(p: Program, parts: seq<Part>, env: Env, st: St): (r: Pieces)
    ensures Later(st, r.st)
    decreases st.fuel, 5, |parts|
  {
    if parts == [] then Line([], st)
    else if parts[0].Lit? then
      var rest := EvalParts(p, parts[1..], env, st);
      if rest.NoLine? then rest else Line([Text(parts[0].text)] + rest.ps, rest.st)
    else
      var x := Eval(p, parts[0].e, env, st);
      if x.Halt? then NoLine(x.why, x.st)
      else if !x.v.VInt? && !x.v.VBool? then NoLine(Unsupported, x.st)
      else
        var rest := EvalParts(p, parts[1..], env, x.st);
        if rest.NoLine? then rest
        else Line([if x.v.VInt? then Num(x.v.i) else Truth(x.v.b)] + rest.ps, rest.st)
  }

  /** Env.pop, after which the flow goes on as it was; finally: env.pop() on every way
      out of an if's block. */
  function Pop(p: Program, x: Ex): (r: Ex)
    ensures Later(x.st, r.st)
    decreases x.st.fuel, 3, 0
  {
    if x.env == [] then Fail(Stuck, x.env, x.st)
    else
      var vs := Owned(x.env[|x.env| - 1]);
      var d := ReleaseAll(p, vs, x.st);
      var env := x.env[..|x.env| - 1];
      if d.Failed? then Fail(d.why, env, d.st) else Ex(Past(x.flow, vs), env, d.st)
  }

  /** The end of a loop body: its scope is popped on the way to the next round and
      on break, not on return or exit. */
  function Round(p: Program, x: Ex): (r: Ex)
    ensures Later(x.st, r.st)
    decreases x.st.fuel, 3, 1
  {
    if x.flow.Next? || x.flow.Continues? then Pop(p, x.(flow := Next))
    else if x.flow.Breaks? then Pop(p, x)
    else x
  }

  /** A loop that broke goes on after itself. */
  function Broken(x: Ex): (r: Ex)
    ensures r.st == x.st && r.env == x.env
  {
    if x.flow.Breaks? then x.(flow := Next) else x
  }

  function Iterate(p: Program, loopVar: Name, i: int, hi: int, body: seq<Stmt>, env: Env, st: St): (r: Ex)
    ensures Later(st, r.st)
    decreases st.fuel, 7, if i < hi then hi - i else 0, 0
  {
    if i >= hi then Ex(Next, env, st)
    else
      var x := Round(p, Block(p, body, Declare(Push(env), Slot(loopVar, VInt(i), true)), st));
      if x.flow.Next? then Iterate(p, loopVar, i + 1, hi, body, x.env, x.st) else Broken(x)
  }

  /** Before a round of a counter loop: Next runs the body, Breaks ends the loop. */
  function CounterTest(env: Env, counter: Name, limit: int, guard: nat): (f: Flow)
    ensures f.Next? || f.Breaks? || (f.Stops? && (f.why.Unsupported? || f.why.Stuck?))
    ensures f.Next? ==> guard < GUARD_LIMIT
  {
    var c := Lookup(env, counter);
    if c.None? then Stops(Unsupported)
    else if !c.value.VInt? then Stops(Stuck)
    else if c.value.i >= limit then Breaks
    else if guard + 1 > GUARD_LIMIT then Stops(Unsupported)
    else Next
  }

  function Count(p: Program, counter: Name, limit: int, body: seq<Stmt>, guard: nat, env: Env, st: St): (r: Ex)
    ensures Later(st, r.st)
    decreases st.fuel, 7, if guard <= GUARD_LIMIT then GUARD_LIMIT + 1 - guard else 0, 0
  {
    var test := CounterTest(env, counter, limit, guard);
    if test.Stops? then Ex(test, env, st)
    else if test.Breaks? then Ex(Next, env, st)
    else
      var x := Round(p, Block(p, body, Push(env), st));
      if x.flow.Next? then Count(p, counter, limit, body, guard + 1, x.env, x.st) else Broken(x)
  }

  // ---- a whole program ----------------------------------------------------------------------------

  datatype Outcome = Result(out: seq<Line>, code: int, st: St) | NoResult(why: Stop, st: St)

  /** Oracle.run: main in a fresh environment. */
  function Run(p: Program, fuel: nat): Outcome {
    Ending(p, Block(p, p.main, [[]], St([], [], fuel, [], [], false)))
  }

  /** Main's locals are released on normal completion only. */
  function Ending(p: Program, x: Ex): Outcome {
    match x.flow
    case Next =>
      var d := ReleaseAll(p, OwnedAll(x.env), x.st);
      (match d
       case Done(st) => Result(st.out, 0, st)
       case Failed(Quit(code, _, _), st) => Result(st.out, code, st)
       case Failed(why, st) => NoResult(why, st))
    case Stops(Quit(code, _, _)) => Result(x.st.out, code, x.st)
    case Stops(why) => NoResult(why, x.st)
    case _ => NoResult(Stuck, x.st)
  }
}
