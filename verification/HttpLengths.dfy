/**
  What a head announces and what a stream holds: the number behind the first header key
  in base ten, and the requests a stream was put together from.
*/
module HttpLengths {
  import opened Options
  import opened HttpFraming

  // ---- numbers -------------------------------------------------------------------------

  function TenTo(n: nat): nat {
    if n == 0 then 1 else 10 * TenTo(n - 1)
  }

  predicate AllDigits(ds: seq<Byte>) {
    forall i :: 0 <= i < |ds| ==> Digit(ds[i])
  }

  /** The number the digits spell: each counts a power of ten by its place from the end. */
  function Spelled(ds: seq<Byte>): nat
    requires AllDigits(ds)
  {
    if ds == [] then 0 else (ds[0] - 48) * TenTo(|ds| - 1) + Spelled(ds[1..])
  }

  /** The digits of s from v on are these, and no more follow. */
  predicate DigitsAt(s: seq<Byte>, v: nat, ds: seq<Byte>) {
    && v + |ds| <= |s| && s[v..v + |ds|] == ds && AllDigits(ds)
    && (v + |ds| < |s| ==> !Digit(s[v + |ds|]))
  }

  lemma {:induction false} NumberReads(s: seq<Byte>, v: nat, ds: seq<Byte>, len: nat)
    requires DigitsAt(s, v, ds)
    ensures var all := len * TenTo(|ds|) + Spelled(ds);
      if all <= ABSURD then Number(s, v, len) == all else Number(s, v, len) > ABSURD
    decreases |ds|
  {
    if ds == [] {
      assert len * TenTo(0) == len;
    } else {
      var d := ds[0] - 48;
      assert s[v] == ds[0] && s[v + 1..v + 1 + |ds[1..]|] == ds[1..];
      Shift(len, d, TenTo(|ds| - 1), Spelled(ds[1..]));
      if len <= ABSURD {
        NumberReads(s, v + 1, ds[1..], len * 10 + d);
      } else {
        TenToPositive(|ds|);
        AtLeast(len, TenTo(|ds|));
      }
    }
  }

  lemma Shift(len: nat, d: nat, p: nat, rest: nat)
    ensures (len * 10 + d) * p + rest == len * (10 * p) + (d * p + rest)
  {
  }

  lemma AtLeast(len: nat, p: nat)
    ensures p > 0 ==> len * p >= len
  {
  }

  lemma {:induction false} TenToPositive(n: nat)
    ensures TenTo(n) > 0
  {
    if n > 0 {
      TenToPositive(n - 1);
    }
  }

  // ---- the announced length ---------------------------------------------------------------

  predicate Blank(c: Byte) {
    c == 32 || c == 9
  }

  predicate AllBlank(bs: seq<Byte>) {
    forall i :: 0 <= i < |bs| ==> Blank(bs[i])
  }

  predicate IsKey(key: seq<Byte>) {
    |key| == |KEY| && forall i :: 0 <= i < |KEY| ==> Lower(key[i]) == KEY[i]
  }

  lemma {:induction false} BlanksSkipped(s: seq<Byte>, v: nat, bs: seq<Byte>)
    requires v + |bs| <= |s| && s[v..v + |bs|] == bs && AllBlank(bs)
    requires v + |bs| < |s| ==> !Blank(s[v + |bs|])
    ensures SkipBlanks(s, v) == v + |bs|
    decreases |bs|
  {
    if bs != [] {
      assert s[v] == bs[0];
      assert s[v + 1..v + 1 + |bs[1..]|] == bs[1..];
      BlanksSkipped(s, v + 1, bs[1..]);
    }
  }

  /** What follows the digits is no digit, and where there are none, no blank either. */
  predicate Ends(digits: seq<Byte>, rest: seq<Byte>) {
    rest == [] || (!Digit(rest[0]) && (digits == [] ==> !Blank(rest[0])))
  }

  /** The number behind the first content-length key of a head, in any case and behind any
      blanks, is the one its digits spell in base ten; past 10^8 the digits are not read on,
      and the length is over 10^8 all the same. */
  lemma LengthIsSpelled(pre: seq<Byte>, key: seq<Byte>, blanks: seq<Byte>, digits: seq<Byte>, rest: seq<Byte>)
    requires IsKey(key) && AllBlank(blanks) && AllDigits(digits) && Ends(digits, rest)
    requires forall j: nat :: j < |pre| ==> !KeyAt(pre + key + blanks + digits + rest, j)
    ensures var length := ContentLength(pre + key + blanks + digits + rest);
      if Spelled(digits) <= ABSURD then length == Spelled(digits) else ABSURD < length <= 10 * ABSURD + 9
  {
    hide Number, SkipBlanks, Spelled, FindKey, KeyAt, AllBlank, AllDigits;
    var head := pre + key + blanks + digits + rest;
    assert head == pre + key + (blanks + digits + rest);
    KeyIsAt(head, pre, key, blanks + digits + rest);
    assert head[|pre + key|..] == blanks + digits + rest;
    ReadBehind(head, |pre + key|, blanks, digits, rest);
    ContentLengthIsBounded(head);
  }

  /** What the key is followed by. */
  lemma ReadBehind(head: seq<Byte>, v: nat, blanks: seq<Byte>, digits: seq<Byte>, rest: seq<Byte>)
    requires v <= |head| && head[v..] == blanks + digits + rest
    requires AllBlank(blanks) && AllDigits(digits) && Ends(digits, rest)
    ensures var length := Number(head, SkipBlanks(head, v), 0);
      if Spelled(digits) <= ABSURD then length == Spelled(digits) else ABSURD < length
  {
    hide Number, SkipBlanks, Spelled;
    var w := v + |blanks|;
    var tail := blanks + digits + rest;
    assert forall i :: 0 <= i < |tail| ==> head[v + i] == head[v..][i] == tail[i];
    assert head[v..w] == blanks && head[w..w + |digits|] == digits;
    assert digits != [] ==> head[w] == digits[0] && Digit(digits[0]);
    assert rest != [] ==> head[w + |digits|] == rest[0];
    BlanksSkipped(head, v, blanks);
    NumberReads(head, w, digits, 0);
    assert 0 * TenTo(|digits|) == 0;
  }

  lemma KeyIsAt(head: seq<Byte>, pre: seq<Byte>, key: seq<Byte>, after: seq<Byte>)
    requires head == pre + key + after && IsKey(key)
    requires forall j: nat :: j < |pre| ==> !KeyAt(head, j)
    ensures FindKey(head, 0) == Some(|pre|)
  {
    hide FindKey;
    forall j | 0 <= j < |KEY| ensures Lower(head[|pre| + j]) == KEY[j] {
      assert head[|pre| + j] == key[j];
    }
    assert KeyAt(head, |pre|);
  }

  /** A head without the key announces nothing. */
  lemma NoKeyNoLength(head: seq<Byte>)
    requires forall j: nat :: !KeyAt(head, j)
    ensures ContentLength(head) == 0
  {
    hide FindKey, KeyAt;
  }

  // ---- the requests of a stream -------------------------------------------------------------

  datatype Request = Request(head: seq<Byte>, body: seq<Byte>)

  /** It ends with its first blank line. */
  predicate IsHead(head: seq<Byte>) {
    |head| >= 4 && EndsAt(head, |head| - 4) && forall j: nat :: j < |head| - 4 ==> !EndsAt(head, j)
  }

  /** A head and, in echo mode, as much of a body as it announces; otherwise no body. */
  predicate Whole(echo: bool, r: Request) {
    IsHead(r.head) && |r.body| == if echo then ContentLength(r.head) else 0
  }

  predicate AllWhole(echo: bool, rs: seq<Request>) {
    forall i :: 0 <= i < |rs| ==> Whole(echo, rs[i])
  }

  function Stream(rs: seq<Request>): seq<Byte> {
    if rs == [] then [] else rs[0].head + rs[0].body + Stream(rs[1..])
  }

  lemma HeadComesFirst(head: seq<Byte>, rest: seq<Byte>)
    requires IsHead(head)
    ensures FindEnd(head + rest, 0) == Some(|head| - 4)
  {
    var s := head + rest;
    assert EndsAt(s, |head| - 4);
    var r := FindEnd(s, 0);
    if r.Some? {
      assert EndsAt(s, r.value);
      if r.value < |head| - 4 {
        assert EndsAt(head, r.value);
      }
    }
  }

  /** Framing takes off one request, or finds its body unfinished. */
  lemma OneRequest(echo: bool, head: seq<Byte>, after: seq<Byte>)
    requires IsHead(head)
    ensures var clen := BodyOf(echo, head);
      Frame(echo, head + after, 0) ==
        if clen > |after| then Frames([], clen - |after|, 0) else Plus(1, Frame(echo, after[clen..], 0))
  {
    HeadComesFirst(head, after);
    hide BodyOf, FindEnd, EndsAt;
    var s := head + after;
    assert s[..|head|] == head && s[|head|..] == after;
    assert after[0..] == after;
  }

  /** A stream put together from whole requests and something unfinished holds exactly
      those requests. */
  lemma {:induction false} RequestsAreCounted(echo: bool, rs: seq<Request>, tail: seq<Byte>)
    requires AllWhole(echo, rs)
    ensures Frame(echo, Stream(rs) + tail, 0) == Plus(|rs|, Frame(echo, tail, 0))
    decreases |rs|
  {
    hide ContentLength, Frame, IsHead;
    if rs == [] {
      assert Stream(rs) + tail == tail;
    } else {
      var r, rest := rs[0], Stream(rs[1..]) + tail;
      assert Whole(echo, r);
      assert Stream(rs) + tail == r.head + (r.body + rest) && (r.body + rest)[|r.body|..] == rest;
      OneRequest(echo, r.head, r.body + rest);
      RequestsAreCounted(echo, rs[1..], tail);
      PlusPlus(1, |rs| - 1, Frame(echo, tail, 0));
    }
  }

  /** What is left of a stream when its whole requests are taken off: the beginning of a
      head, or a head with the beginning of its body. */
  ghost predicate Unfinished(echo: bool, tail: seq<Byte>, f: Frames) {
    if f.body == 0 then tail == f.rest && FindEnd(tail, 0).None?
    else f.rest == [] && exists head, part ::
      tail == head + part && IsHead(head) && echo && |part| + f.body == ContentLength(head)
  }

  /** And every stream is put together that way: its framing counts the whole requests at
      its front and keeps what is unfinished behind them. */
  lemma {:induction false} EveryStreamIsRequests(echo: bool, s: seq<Byte>) returns (rs: seq<Request>, tail: seq<Byte>)
    ensures var f := Frame(echo, s, 0);
      s == Stream(rs) + tail && AllWhole(echo, rs) && |rs| == f.done && Unfinished(echo, tail, f)
    decreases |s|
  {
    hide ContentLength, FindEnd, IsHead, Frame, Stream;
    if FindEnd(s, 0).None? {
      rs, tail := [], s;
      NoRequest(echo, s);
    } else {
      FirstIsHead(s);
      var n := FindEnd(s, 0).value + 4;
      var head, after := s[..n], s[n..];
      var clen := BodyOf(echo, head);
      assert s == head + after;
      OneRequest(echo, head, after);
      if clen > |after| {
        rs, tail := [], s;
        NothingYet(s);
      } else {
        var rs', tail' := EveryStreamIsRequests(echo, after[clen..]);
        rs, tail := [Request(head, after[..clen])] + rs', tail';
        assert after == after[..clen] + after[clen..];
        OneMore(s, Request(head, after[..clen]), rs', tail);
      }
    }
  }

  lemma NoRequest(echo: bool, s: seq<Byte>)
    requires FindEnd(s, 0).None?
    ensures Frame(echo, s, 0) == Frames(s, 0, 0) && s == Stream([]) + s
  {
  }

  lemma NothingYet(s: seq<Byte>)
    ensures s == Stream([]) + s
  {
  }

  lemma OneMore(s: seq<Byte>, r: Request, rs: seq<Request>, tail: seq<Byte>)
    requires s == r.head + (r.body + (Stream(rs) + tail))
    ensures s == Stream([r] + rs) + tail
  {
    assert ([r] + rs)[1..] == rs;
  }

  lemma FirstIsHead(s: seq<Byte>)
    requires FindEnd(s, 0).Some?
    ensures FindEnd(s, 0).value + 4 <= |s| && IsHead(s[..FindEnd(s, 0).value + 4])
  {
    EndFits(s);
    var e := FindEnd(s, 0).value;
    var head := s[..e + 4];
    assert EndsAt(s, e) && EndsAt(head, e);
    forall j: nat | j < |head| - 4 ensures !EndsAt(head, j) {
      assert !EndsAt(s, j);
    }
  }
}
