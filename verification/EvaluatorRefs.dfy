/** Counting references: how often objects are named by fields, slots and values. */
module EvaluatorRefs {
  import opened Options
  import opened Evaluator

  function Refs(v: Value): multiset<Oid> {
    if v.VObj? then multiset{v.o} else multiset{}
  }

  function OptRefs(v: Option<Value>): multiset<Oid> {
    if v.Some? then Refs(v.value) else multiset{}
  }

  function AllRefs(vs: seq<Value>): multiset<Oid> {
    if vs == [] then multiset{} else AllRefs(vs[..|vs| - 1]) + Refs(vs[|vs| - 1])
  }

  function FieldRefs(fs: seq<Field>): multiset<Oid> {
    if fs == [] then multiset{} else Refs(fs[0].val) + FieldRefs(fs[1..])
  }

  function HeapRefs(h: seq<Obj>): multiset<Oid> {
    if h == [] then multiset{} else HeapRefs(h[..|h| - 1]) + FieldRefs(h[|h| - 1].fields)
  }

  /** References owned by the slots of a scope. */
  function ScopeRefs(s: Scope): multiset<Oid> {
    AllRefs(Owned(s))
  }

  function EnvRefs(env: Env): multiset<Oid> {
    if env == [] then multiset{} else EnvRefs(env[..|env| - 1]) + ScopeRefs(env[|env| - 1])
  }

  // ---- fields -----------------------------------------------------------------------

  lemma {:induction false} GetFieldRefs(fs: seq<Field>, name: Name)
    ensures OptRefs(GetField(fs, name)) <= FieldRefs(fs)
  {
    if fs != [] && fs[0].name != name {
      GetFieldRefs(fs[1..], name);
    }
  }

  lemma {:induction false} SetFieldRefs(fs: seq<Field>, name: Name, v: Value)
    ensures FieldRefs(SetField(fs, name, v)) + OptRefs(GetField(fs, name)) == FieldRefs(fs) + Refs(v)
  {
    var after := SetField(fs, name, v);
    if fs == [] {
      assert after[1..] == [];
      assert FieldRefs(after) == Refs(v) + FieldRefs([]);
    } else if fs[0].name == name {
      assert after[1..] == fs[1..];
    } else {
      var rest := SetField(fs[1..], name, v);
      SetFieldRefs(fs[1..], name, v);
      assert after[1..] == rest;
      Swap(Refs(fs[0].val), FieldRefs(rest), OptRefs(GetField(fs, name)), FieldRefs(fs[1..]), Refs(v));
    }
  }

  lemma Swap(head: multiset<Oid>, a: multiset<Oid>, x: multiset<Oid>, b: multiset<Oid>, y: multiset<Oid>)
    requires a + x == b + y
    ensures head + a + x == head + b + y && a + head + x == b + head + y
  {
    assert head + a + x == head + (a + x);
    assert head + b + y == head + (b + y);
    assert a + head + x == head + a + x;
    assert b + head + y == head + b + y;
  }

  lemma {:induction false} DelFieldRefs(fs: seq<Field>, name: Name)
    ensures FieldRefs(DelField(fs, name)) + OptRefs(GetField(fs, name)) == FieldRefs(fs)
  {
    if fs != [] && fs[0].name != name {
      DelFieldRefs(fs[1..], name);
      assert DelField(fs, name)[1..] == DelField(fs[1..], name);
    }
  }

  // ---- the heap -----------------------------------------------------------------------

  lemma {:induction false} HeapRefsUpdate(h: seq<Obj>, i: nat, b: Obj)
    requires i < |h|
    ensures HeapRefs(h[i := b]) + FieldRefs(h[i].fields) == HeapRefs(h) + FieldRefs(b.fields)
  {
    var n := |h| - 1;
    if i == n {
      assert h[i := b][..n] == h[..n];
    } else {
      assert h[i := b][..n] == h[..n][i := b];
      HeapRefsUpdate(h[..n], i, b);
      Swap(FieldRefs(h[n].fields), HeapRefs(h[..n][i := b]), FieldRefs(h[i].fields), HeapRefs(h[..n]), FieldRefs(b.fields));
    }
  }

  lemma HeapRefsAppend(h: seq<Obj>, b: Obj)
    ensures HeapRefs(h + [b]) == HeapRefs(h) + FieldRefs(b.fields)
  {
    assert (h + [b])[..|h|] == h;
  }

  lemma {:induction false} HeapRefsAt(h: seq<Obj>, i: nat)
    requires i < |h|
    ensures FieldRefs(h[i].fields) <= HeapRefs(h)
  {
    if i < |h| - 1 {
      HeapRefsAt(h[..|h| - 1], i);
    }
  }

  lemma Cancel(a: multiset<Oid>, b: multiset<Oid>, k: multiset<Oid>)
    requires a + k == b + k
    ensures a == b
  {
    assert forall x :: (a + k)[x] == a[x] + k[x] && (b + k)[x] == b[x] + k[x];
  }

  /** A count change alone leaves the references alone. */
  lemma HeapRefsCount(h: seq<Obj>, i: nat, n: int)
    requires i < |h|
    ensures HeapRefs(h[i := h[i].(rc := n)]) == HeapRefs(h)
  {
    HeapRefsUpdate(h, i, h[i].(rc := n));
    Cancel(HeapRefs(h[i := h[i].(rc := n)]), HeapRefs(h), FieldRefs(h[i].fields));
  }

  // ---- values and slots -----------------------------------------------------------------

  lemma AllRefsOne(v: Value)
    ensures AllRefs([v]) == Refs(v)
  {
    assert [v][..0] == [];
  }

  lemma {:induction false} AllRefsConcat(a: seq<Value>, b: seq<Value>)
    ensures AllRefs(a + b) == AllRefs(a) + AllRefs(b)
  {
    if b == [] {
      assert a + b == a;
    } else {
      assert (a + b)[..|a + b| - 1] == a + b[..|b| - 1];
      AllRefsConcat(a, b[..|b| - 1]);
    }
  }

  lemma {:induction false} EnvRefsOwned(env: Env)
    ensures AllRefs(OwnedAll(env)) == EnvRefs(env)
  {
    if env != [] {
      EnvRefsOwned(env[..|env| - 1]);
      AllRefsConcat(OwnedAll(env[..|env| - 1]), Owned(env[|env| - 1]));
    }
  }
}
