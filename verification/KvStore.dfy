/**
  The append-only key-value store: records of three little-endian 64-bit integers
  appended to a byte log, an index rebuilt from the log, and a compacted log.
*/
module KvStore {
  import opened Words

  type Byte = x: int | 0 <= x < 256
  type I64 = x: int | -0x8000_0000_0000_0000 <= x < 0x8000_0000_0000_0000

  const MAX: int := 0x8000_0000_0000_0000

  // ---- integers as bytes ------------------------------------------------------------------

  /** n bytes, low one first. */
  function Bytes(bits: nat, n: nat): (r: seq<Byte>)
    ensures |r| == n
  {
    if n == 0 then [] else Bytes(bits, n - 1) + [bits / Pow2(8 * (n - 1)) % 256]
  }

  function Unsigned(v: I64): U64 {
    if v < 0 then v + B64 else v
  }

  function Encode(v: I64): (r: seq<Byte>)
    ensures |r| == 8
  {
    Bytes(Unsigned(v), 8)
  }

  /** The number that n bytes spell. */
  function Spelled(data: seq<Byte>): nat {
    if data == [] then 0 else Spelled(data[..|data| - 1]) + data[|data| - 1] * Pow2(8 * (|data| - 1))
  }

  function Signed(bits: U64): I64 {
    if bits < MAX then bits else bits - B64
  }

  lemma {:induction false} SpelledBytes(bits: nat, n: nat)
    ensures Spelled(Bytes(bits, n)) == bits % Pow2(8 * n)
  {
    if n == 0 {
      assert bits % Pow2(0) == 0;
    } else {
      var b := Bytes(bits, n);
      SpelledBytes(bits, n - 1);
      assert b[..n - 1] == Bytes(bits, n - 1);
      LastByte(bits, n - 1);
    }
  }

  /** One more byte of a number. */
  lemma LastByte(bits: nat, n: nat)
    ensures bits % Pow2(8 * n) + bits / Pow2(8 * n) % 256 * Pow2(8 * n) == bits % Pow2(8 * (n + 1))
  {
    Pow2Sum(8, 8 * n);
    Pow2Small();
    SplitByte(bits, Pow2(8 * n));
  }

  lemma SplitByte(a: nat, p: nat)
    requires p > 0
    ensures a % p + a / p % 256 * p == a % (256 * p)
  {
    var t, r := a / p, a % p;
    var u, w := t / 256, t % 256;
    DivMod(a, p);
    MulLess(w, 256, p);
    MulNat(w, p);
    Distribute(256 * u, w, p);
    Comm(p, t);
    Comm(256, u);
    Assoc(u, 256, p);
    DivUnique(a, 256 * p, u, w * p + r);
  }

  /** Reading eight bytes gives back the integer written. */
  lemma DecodeEncode(v: I64)
    ensures Spelled(Encode(v)) == Unsigned(v) && Signed(Unsigned(v)) == v
  {
    SpelledBytes(Unsigned(v), 8);
    Pow2Values();
    DivUnique(Unsigned(v), B64, 0, Unsigned(v));
  }

  lemma {:induction false} SpelledBound(data: seq<Byte>)
    ensures Spelled(data) < Pow2(8 * |data|)
  {
    if data != [] {
      var n := |data| - 1;
      SpelledBound(data[..n]);
      Pow2Sum(8, 8 * n);
      Pow2Small();
      MulLess(data[n], 256, Pow2(8 * n));
    }
  }

  /** The low byte comes first. */
  lemma {:induction false} BytesAt(bits: nat, n: nat, k: nat)
    requires k < n
    ensures Bytes(bits, n)[k] == bits / Pow2(8 * k) % 256
  {
    hide Pow2;
    if k < n - 1 {
      BytesAt(bits, n - 1, k);
    }
  }

  /** append_i64 */
  method Append(out0: seq<Byte>, value: I64) returns (out: seq<Byte>)
    ensures out == out0 + Encode(value)
  {
    out := out0;
    var bits := Unsigned(value);
    for k := 0 to 8
      invariant out == out0 + Bytes(bits, k)
    {
      out := out + [bits / Pow2(8 * k) % 256];
    }
  }

  /** get_i64 */
  method Get(data: seq<Byte>, pos: nat) returns (v: I64)
    requires pos + 8 <= |data|
    ensures v == Read(data, pos)
  {
    hide Pow2, Or;
    var value: nat := 0;
    assert data[pos..pos] == [];
    for k := 0 to 8
      invariant value == Spelled(data[pos..pos + k])
    {
      var b: nat := data[pos + k];
      var part := data[pos..pos + k + 1];
      assert part[..k] == data[pos..pos + k] && part[k] == b;
      SpelledBound(data[pos..pos + k]);
      Shifted(value, b, k);
      value := Or(value, b * Pow2(8 * k));
    }
    SpelledBound(data[pos..pos + 8]);
    Pow2Values();
    v := Signed(value);
  }

  /** A byte lands above those already there. */
  lemma Shifted(value: nat, b: nat, k: nat)
    requires value < Pow2(8 * k)
    ensures Or(value, b * Pow2(8 * k)) == value + b * Pow2(8 * k)
  {
    hide Pow2, Or;
    DivUnique(b * Pow2(8 * k), Pow2(8 * k), b, 0);
    OrComm(value, b * Pow2(8 * k));
    OrDisjoint(b * Pow2(8 * k), value, 8 * k);
  }

  function Read(data: seq<Byte>, pos: nat): I64
    requires pos + 8 <= |data|
  {
    SpelledBound(data[pos..pos + 8]);
    Pow2Values();
    Signed(Spelled(data[pos..pos + 8]))
  }

  // ---- records and logs ---------------------------------------------------------------------

  datatype Record = Record(key: I64, value: I64, seqNo: I64)

  function RecordBytes(r: Record): (b: seq<Byte>)
    ensures |b| == 24
  {
    Encode(r.key) + Encode(r.value) + Encode(r.seqNo)
  }

  function Log(rs: seq<Record>): (b: seq<Byte>)
    ensures |b| == 24 * |rs|
  {
    if rs == [] then [] else Log(rs[..|rs| - 1]) + RecordBytes(rs[|rs| - 1])
  }

  lemma {:induction false} LogAt(rs: seq<Record>, i: nat)
    requires i < |rs|
    ensures Log(rs)[24 * i..24 * i + 24] == RecordBytes(rs[i])
  {
    var n := |rs| - 1;
    if i < n {
      LogAt(rs[..n], i);
      assert Log(rs)[24 * i..24 * i + 24] == Log(rs[..n])[24 * i..24 * i + 24];
    }
  }

  /** Where a field of a record is in the log. */
  lemma FieldAt(log: seq<Byte>, b: seq<Byte>, at: nat, off: nat)
    requires |b| == 24 && off + 8 <= 24 && at + 24 <= |log| && log[at..at + 24] == b
    ensures log[at + off..at + off + 8] == b[off..off + 8]
  {
    var field := log[at + off..at + off + 8];
    forall k | 0 <= k < 8 ensures field[k] == b[off..off + 8][k] {
      assert log[at..at + 24][off + k] == log[at + off + k];
    }
  }

  lemma RecordFields(r: Record)
    ensures RecordBytes(r)[0..8] == Encode(r.key) && RecordBytes(r)[8..16] == Encode(r.value)
  {
    hide Encode;
  }

  /** The fields of a record, read back from the log. */
  lemma ReadBack(rs: seq<Record>, i: nat)
    requires i < |rs|
    ensures Read(Log(rs), 24 * i) == rs[i].key && Read(Log(rs), 24 * i + 8) == rs[i].value
  {
    hide Log, Encode, Spelled, RecordBytes;
    LogAt(rs, i);
    RecordFields(rs[i]);
    FieldAt(Log(rs), RecordBytes(rs[i]), 24 * i, 0);
    FieldAt(Log(rs), RecordBytes(rs[i]), 24 * i, 8);
    DecodeEncode(rs[i].key);
    DecodeEncode(rs[i].value);
  }

  /** Replaying a log from its start: the position of each key's last record. */
  function Latest(rs: seq<Record>): map<I64, nat> {
    if rs == [] then map[]
    else Latest(rs[..|rs| - 1])[rs[|rs| - 1].key := 24 * (|rs| - 1)]
  }

  /** And its value. */
  function Values(rs: seq<Record>): map<I64, I64> {
    if rs == [] then map[] else Values(rs[..|rs| - 1])[rs[|rs| - 1].key := rs[|rs| - 1].value]
  }

  /** Positions in the index are records of their key, and no later record has it. */
  lemma {:induction false} LatestIs(rs: seq<Record>)
    ensures Latest(rs).Keys == Values(rs).Keys
    ensures forall k :: k in Latest(rs) ==>
      var i := Latest(rs)[k] / 24;
      && Latest(rs)[k] == 24 * i && i < |rs| && rs[i].key == k && rs[i].value == Values(rs)[k]
      && forall j :: i < j < |rs| ==> rs[j].key != k
  {
    if rs != [] {
      var n := |rs| - 1;
      LatestIs(rs[..n]);
      forall k | k in Latest(rs)
        ensures var i := Latest(rs)[k] / 24;
          && Latest(rs)[k] == 24 * i && i < |rs| && rs[i].key == k && rs[i].value == Values(rs)[k]
          && forall j :: i < j < |rs| ==> rs[j].key != k
      {
        if k != rs[n].key {
          var i := Latest(rs[..n])[k] / 24;
          assert rs[..n][i] == rs[i];
          forall j | i < j < |rs| ensures rs[j].key != k {
            if j < n {
              assert rs[..n][j] == rs[j];
            }
          }
        }
      }
    }
  }

  // ---- compaction ----------------------------------------------------------------------------

  /** The last record of each key below n, keys ascending. */
  function Compacted(rs: seq<Record>, n: nat): seq<Record>
    requires n <= MAX
  {
    if n == 0 then []
    else if n - 1 in Latest(rs) then
      LatestIs(rs);
      Compacted(rs, n - 1) + [rs[Latest(rs)[n - 1] / 24]]
    else Compacted(rs, n - 1)
  }

  lemma Replayed(rs: seq<Record>, r: Record)
    ensures Values(rs + [r]) == Values(rs)[r.key := r.value]
  {
    assert (rs + [r])[..|rs|] == rs;
  }

  /** m is the part of full with keys below n. */
  predicate Restricts(m: map<I64, I64>, full: map<I64, I64>, n: nat) {
    && (forall k :: k in m ==> 0 <= k < n && k in full && m[k] == full[k])
    && (forall k :: k in full && 0 <= k < n ==> k in m)
  }

  lemma RestrictsMore(m: map<I64, I64>, full: map<I64, I64>, n: nat)
    requires n < MAX && Restricts(m, full, n)
    ensures Restricts(if n in full then m[n := full[n]] else m, full, n + 1)
  {
  }

  /** Replaying the compacted log gives the keys below n their values, each key one
      record. */
  lemma {:induction false} CompactedValues(rs: seq<Record>, n: nat)
    requires n <= MAX
    ensures Restricts(Values(Compacted(rs, n)), Values(rs), n)
    ensures |Compacted(rs, n)| == |Values(Compacted(rs, n))|
  {
    hide Values, Latest, Restricts;
    if n == 0 {
      NoValues(rs);
    } else {
      CompactedValues(rs, n - 1);
      LatestIs(rs);
      var less := Compacted(rs, n - 1);
      RestrictsMore(Values(less), Values(rs), n - 1);
      if n - 1 in Latest(rs) {
        var r := rs[Latest(rs)[n - 1] / 24];
        Replayed(less, r);
        assert r.key !in Values(less) by {
          Below(Values(less), Values(rs), n - 1);
        }
        OneMoreKey(Values(less), r);
      }
    }
  }

  lemma NoValues(rs: seq<Record>)
    ensures Values([]) == map[] && Restricts(map[], Values(rs), 0)
  {
  }

  lemma Below(m: map<I64, I64>, full: map<I64, I64>, n: nat)
    requires Restricts(m, full, n)
    ensures forall k :: k in m ==> k < n
  {
  }

  lemma OneMoreKey(m: map<I64, I64>, r: Record)
    requires r.key !in m
    ensures |m[r.key := r.value]| == |m| + 1
  {
    assert m[r.key := r.value].Keys == m.Keys + {r.key};
  }

  /** Compaction keeps the store: with every key below n, replaying the compacted log
      gives the same map, from one 24-byte record per key. */
  lemma CompactionKeepsTheStore(rs: seq<Record>, n: nat)
    requires n <= MAX && forall i :: 0 <= i < |rs| ==> 0 <= rs[i].key < n
    ensures Values(Compacted(rs, n)) == Values(rs)
    ensures |Log(Compacted(rs, n))| == 24 * |Values(rs)|
  {
    CompactedValues(rs, n);
    LatestIs(rs);
    forall k | k in Values(rs) ensures k in Values(Compacted(rs, n)) {
      assert rs[Latest(rs)[k] / 24].key == k;
    }
  }

  // ---- the program ---------------------------------------------------------------------------------

  predicate NoOverflow(n: nat, seed: nat) {
    n * 48271 + seed < MAX
  }

  function KeyCount(n: nat): nat {
    n / 4 + 1
  }

  function RecordAt(n: nat, seed: nat, i: nat): Record
    requires i < n && NoOverflow(n, seed)
  {
    Record((i * 48271 + seed) % KeyCount(n), i * 17 + seed, i)
  }

  function Records(n: nat, seed: nat, m: nat): (rs: seq<Record>)
    requires m <= n && NoOverflow(n, seed)
    ensures |rs| == m
  {
    if m == 0 then [] else Records(n, seed, m - 1) + [RecordAt(n, seed, m - 1)]
  }

  /** The first loop of main: the log, and the index kept while appending. */
  method AppendAll(n: nat, seed: nat) returns (log: seq<Byte>, latest: map<I64, nat>)
    requires NoOverflow(n, seed)
    ensures log == Log(Records(n, seed, n)) && latest == Latest(Records(n, seed, n))
  {
    hide Encode, RecordAt, Log, Latest, RecordBytes;
    log, latest := [], map[];
    EmptyLog();
    for i := 0 to n
      invariant log == Log(Records(n, seed, i)) && latest == Latest(Records(n, seed, i))
    {
      var r := RecordAt(n, seed, i);
      ghost var rs := Records(n, seed, i);
      LogSnoc(rs, r);
      LatestSnoc(rs, r);
      latest := latest[r.key := |log|];
      ghost var before := log;
      log := Append(log, r.key);
      log := Append(log, r.value);
      log := Append(log, r.seqNo);
      Fields(before, r);
    }
  }

  lemma Fields(log: seq<Byte>, r: Record)
    ensures log + Encode(r.key) + Encode(r.value) + Encode(r.seqNo) == log + RecordBytes(r)
  {
  }

  lemma LatestSnoc(rs: seq<Record>, r: Record)
    ensures Latest(rs + [r]) == Latest(rs)[r.key := 24 * |rs|]
  {
    assert (rs + [r])[..|rs|] == rs;
  }

  /** The second loop: the index from the bytes alone. */
  method Rebuild(log: seq<Byte>, ghost rs: seq<Record>) returns (rebuilt: map<I64, nat>)
    requires log == Log(rs)
    ensures rebuilt == Latest(rs)
  {
    rebuilt := map[];
    var pos := 0;
    ghost var i := 0;
    while pos < |log|
      invariant pos == 24 * i && i <= |rs|
      invariant rebuilt == Latest(rs[..i])
      decreases |log| - pos
    {
      ReadBack(rs, i);
      var key := Get(log, pos);
      assert rs[..i + 1][..i] == rs[..i];
      rebuilt := rebuilt[key := pos];
      pos := pos + 24;
      i := i + 1;
    }
    assert rs[..|rs|] == rs;
  }

  function Sum(rs: seq<Record>): int {
    if rs == [] then 0 else Sum(rs[..|rs| - 1]) + rs[|rs| - 1].value
  }

  /** The third loop: the last record of each key is copied out. */
  method Compact(log: seq<Byte>, rebuilt: map<I64, nat>, keyCount: nat, ghost rs: seq<Record>)
    returns (compact: seq<Byte>, checksum: int)
    requires log == Log(rs) && rebuilt == Latest(rs) && keyCount <= MAX
    ensures compact == Log(Compacted(rs, keyCount)) && checksum == Sum(Compacted(rs, keyCount))
  {
    hide Log, Latest, Read;
    compact, checksum := [], 0;
    EmptyLog();
    for key := 0 to keyCount
      invariant compact == Log(Compacted(rs, key)) && checksum == Sum(Compacted(rs, key))
    {
      if key !in rebuilt {
        continue;
      }
      LatestIs(rs);
      var at := rebuilt[key];
      LogAt(rs, at / 24);
      ReadBack(rs, at / 24);
      var value := Get(log, at + 8);
      checksum := checksum + value;
      compact := compact + log[at..at + 24];
      LogSnoc(Compacted(rs, key), rs[at / 24]);
    }
  }

  lemma EmptyLog()
    ensures Log([]) == [] && Latest([]) == map[]
  {
  }

  lemma LogSnoc(rs: seq<Record>, r: Record)
    ensures Log(rs + [r]) == Log(rs) + RecordBytes(r) && Sum(rs + [r]) == Sum(rs) + r.value
  {
    assert (rs + [r])[..|rs|] == rs;
  }

  lemma {:induction false} KeysBelow(n: nat, seed: nat, m: nat)
    requires m <= n && NoOverflow(n, seed)
    ensures forall i :: 0 <= i < m ==> 0 <= Records(n, seed, m)[i].key < KeyCount(n)
  {
    if m > 0 {
      KeysBelow(n, seed, m - 1);
    }
  }

  /** main, for every size and seed that stay clear of overflow: the rebuilt index is
      the one kept while appending, and the compacted log replays to the same map. */
  method Store(n: nat, seed: nat)
    returns (log: seq<Byte>, latest: map<I64, nat>, rebuilt: map<I64, nat>, compact: seq<Byte>, checksum: int)
    requires NoOverflow(n, seed)
    ensures log == Log(Records(n, seed, n)) && rebuilt == latest
    ensures var rs := Records(n, seed, n);
      var kept := Compacted(rs, KeyCount(n));
      compact == Log(kept) && Values(kept) == Values(rs) && |compact| == 24 * |latest| && checksum == Sum(kept)
  {
    log, latest := AppendAll(n, seed);
    ghost var rs := Records(n, seed, n);
    rebuilt := Rebuild(log, rs);
    KeysBelow(n, seed, n);
    CompactionKeepsTheStore(rs, KeyCount(n));
    LatestIs(rs);
    assert |Latest(rs).Keys| == |Values(rs).Keys|;
    compact, checksum := Compact(log, rebuilt, KeyCount(n), rs);
  }
}
