/** Copying within the linear memory of a wasm build. */
module WasmMemory {
  type Byte = x: int | 0 <= x < 256

  /** memmove: the target holds what the source held before, however the two
      overlap, and nothing else changes. */
  method Memmove(mem: array<Byte>, dst: nat, src: nat, n: nat)
    requires dst + n <= mem.Length && src + n <= mem.Length
    modifies mem
    ensures mem[dst..dst + n] == old(mem[src..src + n])
    ensures forall k :: 0 <= k < mem.Length && !(dst <= k < dst + n) ==> mem[k] == old(mem[k])
  {
    if dst == src || n == 0 {
      return;
    }
    if dst < src {
      for i := 0 to n
        invariant forall k :: 0 <= k < mem.Length && !(dst <= k < dst + i) ==> mem[k] == old(mem[k])
        invariant forall k :: dst <= k < dst + i ==> mem[k] == old(mem[k - dst + src])
      {
        mem[dst + i] := mem[src + i];
      }
    } else {
      for i := n downto 0
        invariant forall k :: 0 <= k < mem.Length && !(dst + i <= k < dst + n) ==> mem[k] == old(mem[k])
        invariant forall k :: dst + i <= k < dst + n ==> mem[k] == old(mem[k - dst + src])
      {
        mem[dst + i] := mem[src + i];
      }
    }
  }

  /** What copying upwards, byte by byte, leaves. */
  function CopyUp(mem: seq<Byte>, dst: nat, src: nat, n: nat): (r: seq<Byte>)
    requires dst + n <= |mem| && src + n <= |mem|
    ensures |r| == |mem|
  {
    if n == 0 then mem
    else
      var before := CopyUp(mem, dst, src, n - 1);
      before[dst + n - 1 := before[src + n - 1]]
  }

  /** memcpy */
  method Memcpy(mem: array<Byte>, dst: nat, src: nat, n: nat)
    requires dst + n <= mem.Length && src + n <= mem.Length
    modifies mem
    ensures mem[..] == CopyUp(old(mem[..]), dst, src, n)
  {
    for i := 0 to n
      invariant mem[..] == CopyUp(old(mem[..]), dst, src, i)
    {
      mem[dst + i] := mem[src + i];
    }
  }

  lemma {:induction false} CopyUpKeeps(mem: seq<Byte>, dst: nat, src: nat, n: nat, k: nat)
    requires dst + n <= |mem| && src + n <= |mem| && k < |mem| && !(dst <= k < dst + n)
    ensures CopyUp(mem, dst, src, n)[k] == mem[k]
  {
    if n > 0 {
      CopyUpKeeps(mem, dst, src, n - 1, k);
    }
  }

  /** Upwards into higher addresses every byte ends equal to the one a distance below. */
  lemma {:induction false} CopyUpRepeats(mem: seq<Byte>, dst: nat, src: nat, n: nat, k: nat)
    requires src < dst && dst + n <= |mem| && dst <= k < dst + n
    ensures CopyUp(mem, dst, src, n)[k] == CopyUp(mem, dst, src, n)[k - dst + src]
  {
    if k < dst + n - 1 {
      CopyUpRepeats(mem, dst, src, n - 1, k);
    }
  }

  /** The source repeats itself with the distance to the target. */
  predicate Periodic(mem: seq<Byte>, dst: nat, src: nat, n: nat)
    requires src < dst && src + n <= |mem|
  {
    forall j :: dst - src <= j < n ==> PeriodicAt(mem, dst, src, j)
  }

  predicate PeriodicAt(mem: seq<Byte>, dst: nat, src: nat, j: nat)
    requires src < dst && dst - src <= j && src + j < |mem|
  {
    mem[src + j] == mem[src + j - (dst - src)]
  }

  lemma {:induction false} PeriodicMoves(mem: seq<Byte>, dst: nat, src: nat, n: nat, j: nat)
    requires src < dst && dst + n <= |mem| && j < n && Periodic(mem, dst, src, n)
    ensures CopyUp(mem, dst, src, n)[dst + j] == mem[src + j]
    decreases j
  {
    CopyUpRepeats(mem, dst, src, n, dst + j);
    var d := dst - src;
    if j >= d {
      PeriodicMoves(mem, dst, src, n, j - d);
      assert PeriodicAt(mem, dst, src, j);
    } else {
      CopyUpKeeps(mem, dst, src, n, src + j);
    }
  }

  lemma MovedIsPeriodic(mem: seq<Byte>, dst: nat, src: nat, n: nat, j: nat)
    requires src < dst && dst + n <= |mem| && dst - src <= j < n
    requires CopyUp(mem, dst, src, n)[dst..dst + n] == mem[src..src + n]
    ensures PeriodicAt(mem, dst, src, j)
  {
    var after := CopyUp(mem, dst, src, n);
    var d := dst - src;
    CopyUpRepeats(mem, dst, src, n, dst + j);
    assert after[dst..dst + n][j] == mem[src..src + n][j];
    assert after[dst..dst + n][j - d] == mem[src..src + n][j - d];
  }

  /** Into higher addresses memcpy does what memmove does exactly when the source
      repeats with the distance between the two. */
  lemma MemcpyMovesIff(mem: seq<Byte>, dst: nat, src: nat, n: nat)
    requires src < dst && dst + n <= |mem|
    ensures CopyUp(mem, dst, src, n)[dst..dst + n] == mem[src..src + n] <==> Periodic(mem, dst, src, n)
  {
    hide PeriodicAt;
    var after := CopyUp(mem, dst, src, n);
    if after[dst..dst + n] == mem[src..src + n] {
      forall j | dst - src <= j < n ensures PeriodicAt(mem, dst, src, j) {
        MovedIsPeriodic(mem, dst, src, n, j);
      }
    }
    if Periodic(mem, dst, src, n) {
      var moved, wanted := after[dst..dst + n], mem[src..src + n];
      forall j | 0 <= j < n ensures moved[j] == wanted[j] {
        PeriodicMoves(mem, dst, src, n, j);
      }
    }
  }

  /** Into lower addresses it always does. */
  lemma {:induction false} MemcpyMovesDown(mem: seq<Byte>, dst: nat, src: nat, n: nat, j: nat)
    requires dst <= src && src + n <= |mem| && j < n
    ensures CopyUp(mem, dst, src, n)[dst + j] == mem[src + j]
  {
    if j < n - 1 {
      MemcpyMovesDown(mem, dst, src, n - 1, j);
    } else {
      CopyUpKeeps(mem, dst, src, n - 1, src + j);
    }
  }
}
