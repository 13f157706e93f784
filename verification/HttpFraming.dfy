/**
  Cutting a byte stream into HTTP requests, as the benchmark floor server does: a
  head ends at the first blank line, and in echo mode a body of the announced
  length follows it.
*/
module HttpFraming {
  import opened Options

  type Byte = x: int | 0 <= x < 256

  const CR: Byte := 13
  const LF: Byte := 10
  const CAPACITY: nat := 8192

  // ---- the end of a head ----------------------------------------------------------------

  predicate EndsAt(s: seq<Byte>, i: nat) {
    i + 4 <= |s| && s[i] == CR && s[i + 1] == LF && s[i + 2] == CR && s[i + 3] == LF
  }

  /** memmem: the first blank line at or after i. */
  function FindEnd(s: seq<Byte>, i: nat): (r: Option<nat>)
    ensures r.Some? ==> i <= r.value && EndsAt(s, r.value) && forall j: nat :: i <= j < r.value ==> !EndsAt(s, j)
    ensures r.None? ==> forall j: nat :: i <= j ==> !EndsAt(s, j)
    decreases |s| - i
  {
    if i + 4 > |s| then None
    else if EndsAt(s, i) then Some(i)
    else FindEnd(s, i + 1)
  }

  // ---- the announced length ---------------------------------------------------------------

  const KEY: seq<Byte> := [99, 111, 110, 116, 101, 110, 116, 45, 108, 101, 110, 103, 116, 104, 58]
  const ABSURD: nat := 100000000

  function Lower(c: Byte): Byte {
    if 65 <= c <= 90 then c + 32 else c
  }

  predicate KeyAt(s: seq<Byte>, i: nat) {
    i + |KEY| <= |s| && forall j :: 0 <= j < |KEY| ==> Lower(s[i + j]) == KEY[j]
  }

  /** The first key at or after i. */
  function FindKey(s: seq<Byte>, i: nat): (r: Option<nat>)
    ensures r.Some? ==> i <= r.value && KeyAt(s, r.value) && forall j: nat :: i <= j < r.value ==> !KeyAt(s, j)
    ensures r.None? ==> forall j: nat :: i <= j ==> !KeyAt(s, j)
    decreases |s| - i
  {
    if i + |KEY| > |s| then None else if KeyAt(s, i) then Some(i) else FindKey(s, i + 1)
  }

  function SkipBlanks(s: seq<Byte>, v: nat): (r: nat)
    requires v <= |s|
    ensures v <= r <= |s|
    decreases |s| - v
  {
    if v < |s| && (s[v] == 32 || s[v] == 9) then SkipBlanks(s, v + 1) else v
  }

  predicate Digit(c: Byte) {
    48 <= c <= 57
  }

  /** The digits from v on, up to the length that is absurd already. */
  function Number(s: seq<Byte>, v: nat, len: nat): nat
    requires v <= |s|
    decreases |s| - v
  {
    if v < |s| && Digit(s[v]) && len <= ABSURD then Number(s, v + 1, len * 10 + (s[v] - 48)) else len
  }

  function ContentLength(head: seq<Byte>): nat {
    var at := FindKey(head, 0);
    if at.None? then 0
    else Number(head, SkipBlanks(head, at.value + |KEY|), 0)
  }

  /** content_length */
  method ReadContentLength(head: seq<Byte>) returns (r: nat)
    ensures r == ContentLength(head)
  {
    var n := |head|;
    if n < |KEY| {
      return 0;
    }
    var i := 0;
    while i + |KEY| <= n
      invariant i + |KEY| <= n + 1
      invariant FindKey(head, 0) == FindKey(head, i)
    {
      var j := 0;
      while j < |KEY| && Lower(head[i + j]) == KEY[j]
        invariant 0 <= j <= |KEY|
        invariant forall k :: 0 <= k < j ==> Lower(head[i + k]) == KEY[k]
      {
        j := j + 1;
      }
      if j < |KEY| {
        assert !KeyAt(head, i);
        i := i + 1;
        continue;
      }
      assert KeyAt(head, i);
      r := ReadNumber(head, i + |KEY|);
      return;
    }
    return 0;
  }

  /** The digits after a key, blanks skipped. */
  method ReadNumber(head: seq<Byte>, start: nat) returns (len: nat)
    requires start <= |head|
    ensures len == Number(head, SkipBlanks(head, start), 0)
  {
    var v := start;
    while v < |head| && (head[v] == 32 || head[v] == 9)
      invariant start <= v <= |head|
      invariant SkipBlanks(head, start) == SkipBlanks(head, v)
    {
      v := v + 1;
    }
    len := 0;
    while v < |head| && Digit(head[v])
      invariant start <= v <= |head|
      invariant Number(head, SkipBlanks(head, start), 0) == Number(head, v, len)
    {
      if len > ABSURD {
        return;
      }
      len := len * 10 + (head[v] - 48);
      v := v + 1;
    }
  }

  /** The length never comes near the limits of a long. */
  lemma {:induction false} NumberIsBounded(s: seq<Byte>, v: nat, len: nat)
    requires v <= |s| && len <= 10 * ABSURD + 9
    ensures Number(s, v, len) <= 10 * ABSURD + 9
    decreases |s| - v
  {
    if v < |s| && Digit(s[v]) && len <= ABSURD {
      NumberIsBounded(s, v + 1, len * 10 + (s[v] - 48));
    }
  }

  lemma ContentLengthIsBounded(head: seq<Byte>)
    ensures ContentLength(head) <= 10 * ABSURD + 9
  {
    var at := FindKey(head, 0);
    if at.Some? {
      NumberIsBounded(head, SkipBlanks(head, at.value + |KEY|), 0);
    }
  }

  // ---- the framing loop ---------------------------------------------------------------------

  /** What is left of a stream: unframed bytes, body bytes still to come, and the
      number of requests that are complete. */
  datatype Frames = Frames(rest: seq<Byte>, body: nat, done: nat)

  function Plus(done: nat, f: Frames): Frames {
    f.(done := done + f.done)
  }

  function BodyOf(echo: bool, head: seq<Byte>): nat {
    if echo then ContentLength(head) else 0
  }

  function Frame(echo: bool, s: seq<Byte>, body: nat): (f: Frames)
    ensures |f.rest| <= |s|
    decreases |s|
  {
    if body > |s| then Frames([], body - |s|, 0)
    else if body > 0 then Plus(1, Frame(echo, s[body..], 0))
    else
      var end := FindEnd(s, 0);
      if end.None? then Frames(s, 0, 0)
      else
        var head := s[..end.value + 4];
        var clen := BodyOf(echo, head);
        if clen > 0 then Frame(echo, s[end.value + 4..], clen) else Plus(1, Frame(echo, s[end.value + 4..], 0))
  }

  lemma EndStays(s: seq<Byte>, t: seq<Byte>)
    requires FindEnd(s, 0).Some?
    ensures FindEnd(s + t, 0) == FindEnd(s, 0)
  {
    var i := FindEnd(s, 0).value;
    assert EndsAt(s + t, i);
    var k := FindEnd(s + t, 0).value;
    assert k <= i && EndsAt(s + t, k) && EndsAt(s, k);
  }

  lemma PlusPlus(a: nat, b: nat, f: Frames)
    ensures Plus(a, Plus(b, f)) == Plus(a + b, f) && Plus(0, f) == f
  {
  }

  /** Framing may stop anywhere and go on with more bytes: the outcome depends on
      the stream only. */
  lemma {:induction false} FrameSplits(echo: bool, s: seq<Byte>, t: seq<Byte>, body: nat)
    ensures var f := Frame(echo, s, body);
      Frame(echo, s + t, body) == Plus(f.done, Frame(echo, f.rest + t, f.body))
    decreases |s|, 1
  {
    hide FindEnd, BodyOf, EndsAt;
    var f := Frame(echo, s, body);
    if body > |s| {
      InsideBody(echo, s, t, body);
    } else if body > 0 {
      assert (s + t)[body..] == s[body..] + t;
      FrameSplits(echo, s[body..], t, 0);
      var g := Frame(echo, s[body..], 0);
      PlusPlus(1, g.done, Frame(echo, g.rest + t, g.body));
    } else if FindEnd(s, 0).None? {
      PlusPlus(0, 0, Frame(echo, s + t, 0));
    } else {
      AfterHead(echo, s, t);
    }
  }

  lemma InsideBody(echo: bool, s: seq<Byte>, t: seq<Byte>, body: nat)
    requires body > |s|
    ensures Frame(echo, s + t, body) == Frame(echo, [] + t, body - |s|)
  {
    hide FindEnd, BodyOf;
    assert [] + t == t;
    if body <= |s + t| {
      assert (s + t)[body..] == t[body - |s|..];
    }
  }

  lemma {:induction false} AfterHead(echo: bool, s: seq<Byte>, t: seq<Byte>)
    requires FindEnd(s, 0).Some?
    ensures var f := Frame(echo, s, 0);
      Frame(echo, s + t, 0) == Plus(f.done, Frame(echo, f.rest + t, f.body))
    decreases |s|, 0
  {
    EndStays(s, t);
    hide FindEnd, BodyOf, EndsAt;
    var n := FindEnd(s, 0).value + 4;
    assert n <= |s| by {
      EndFits(s);
    }
    assert (s + t)[..n] == s[..n] && (s + t)[n..] == s[n..] + t;
    var clen := BodyOf(echo, s[..n]);
    FrameSplits(echo, s[n..], t, clen);
    var g := Frame(echo, s[n..], clen);
    PlusPlus(1, g.done, Frame(echo, g.rest + t, g.body));
  }

  lemma EndFits(s: seq<Byte>)
    ensures FindEnd(s, 0).Some? ==> FindEnd(s, 0).value + 4 <= |s|
  {
    if FindEnd(s, 0).Some? {
      assert EndsAt(s, FindEnd(s, 0).value);
    }
  }

  // ---- the heads of a stream ------------------------------------------------------------------

  /** The complete heads, in order; body is what is left of a body in front of them. */
  function Heads(echo: bool, s: seq<Byte>, body: nat): seq<seq<Byte>>
    decreases |s|
  {
    if body > |s| then []
    else if body > 0 then Heads(echo, s[body..], 0)
    else
      var end := FindEnd(s, 0);
      if end.None? then []
      else
        var head := s[..end.value + 4];
        [head] + Heads(echo, s[end.value + 4..], BodyOf(echo, head))
  }

  predicate NoneLong(heads: seq<seq<Byte>>) {
    forall i :: 0 <= i < |heads| ==> |heads[i]| <= CAPACITY
  }

  /** Every complete head fits the buffer, and an unfinished one leaves room in it. */
  predicate HeadsShort(echo: bool, s: seq<Byte>, body: nat) {
    NoneLong(Heads(echo, s, body)) && |Frame(echo, s, body).rest| < CAPACITY
  }

  /** No prefix leaves a full buffer. */
  predicate PrefixesFit(echo: bool, s: seq<Byte>, body: nat) {
    forall n :: 0 <= n <= |s| ==> |Frame(echo, s[..n], body).rest| < CAPACITY
  }

  lemma EndLater(s: seq<Byte>, n: nat)
    requires n <= |s|
    ensures FindEnd(s, 0).None? ==> FindEnd(s[..n], 0).None?
    ensures FindEnd(s, 0).Some? ==>
      FindEnd(s[..n], 0) == if n < FindEnd(s, 0).value + 4 then None else FindEnd(s, 0)
  {
    var part := FindEnd(s[..n], 0);
    if part.Some? {
      assert EndsAt(s, part.value);
    }
    EndFits(s);
    EndFits(s[..n]);
    if FindEnd(s, 0).Some? {
      var i := FindEnd(s, 0).value;
      assert n >= i + 4 ==> EndsAt(s[..n], i);
    }
  }

  /** The framing of a prefix that reaches beyond the first head. */
  lemma PrefixBeyond(echo: bool, s: seq<Byte>, n: nat)
    requires FindEnd(s, 0).Some? && FindEnd(s, 0).value + 4 <= n <= |s|
    ensures var k := FindEnd(s, 0).value + 4;
      Frame(echo, s[..n], 0).rest == Frame(echo, s[k..][..n - k], BodyOf(echo, s[..k])).rest
  {
    EndLater(s, n);
    var k := FindEnd(s, 0).value + 4;
    assert s[..n][..k] == s[..k] && s[..n][k..] == s[k..][..n - k];
  }

  lemma PrefixWithin(echo: bool, s: seq<Byte>, n: nat)
    requires n <= |s| && (FindEnd(s, 0).Some? ==> n < FindEnd(s, 0).value + 4)
    ensures Frame(echo, s[..n], 0).rest == s[..n]
  {
    EndLater(s, n);
  }

  /** A prefix of the whole is a prefix of the head or goes on into what follows. */
  lemma Shifted(echo: bool, s: seq<Byte>, k: nat, body: nat, was: nat)
    requires 0 < k <= |s|
    requires forall n :: 0 <= n < k ==> |Frame(echo, s[..n], was).rest| < CAPACITY
    requires forall n :: k <= n <= |s| ==> Frame(echo, s[..n], was).rest == Frame(echo, s[k..][..n - k], body).rest
    ensures PrefixesFit(echo, s, was) <==> PrefixesFit(echo, s[k..], body)
  {
    hide Frame;
    var rest := s[k..];
    if PrefixesFit(echo, s, was) {
      forall n | 0 <= n <= |rest| ensures |Frame(echo, rest[..n], body).rest| < CAPACITY {
        assert |Frame(echo, s[..n + k], was).rest| < CAPACITY;
      }
    }
    if PrefixesFit(echo, rest, body) {
      forall n | 0 <= n <= |s| ensures |Frame(echo, s[..n], was).rest| < CAPACITY {
        if n >= k {
          assert |Frame(echo, rest[..n - k], body).rest| < CAPACITY;
        }
      }
    }
  }

  lemma FirstHead(echo: bool, s: seq<Byte>)
    requires FindEnd(s, 0).Some?
    ensures var k := FindEnd(s, 0).value + 4;
      k <= |s| && (PrefixesFit(echo, s, 0) <==> k <= CAPACITY && PrefixesFit(echo, s[k..], BodyOf(echo, s[..k])))
  {
    EndFits(s);
    hide FindEnd, BodyOf, Frame, PrefixesFit;
    var k := FindEnd(s, 0).value + 4;
    if k <= CAPACITY {
      ShortHead(echo, s, k, BodyOf(echo, s[..k]));
    } else {
      PrefixWithin(echo, s, k - 1);
      if PrefixesFit(echo, s, 0) {
        OnePrefix(echo, s, 0, k - 1);
      }
    }
  }

  lemma OnePrefix(echo: bool, s: seq<Byte>, body: nat, n: nat)
    requires n <= |s| && PrefixesFit(echo, s, body)
    ensures |Frame(echo, s[..n], body).rest| < CAPACITY
  {
  }

  lemma ShortHead(echo: bool, s: seq<Byte>, k: nat, body: nat)
    requires FindEnd(s, 0).Some? && k == FindEnd(s, 0).value + 4 <= |s| && k <= CAPACITY && body == BodyOf(echo, s[..k])
    ensures PrefixesFit(echo, s, 0) <==> PrefixesFit(echo, s[k..], body)
  {
    hide FindEnd, BodyOf, Frame, PrefixesFit;
    forall n | 0 <= n < k ensures |Frame(echo, s[..n], 0).rest| < CAPACITY {
      PrefixWithin(echo, s, n);
    }
    forall n | k <= n <= |s| ensures Frame(echo, s[..n], 0).rest == Frame(echo, s[k..][..n - k], body).rest {
      PrefixBeyond(echo, s, n);
    }
    Shifted(echo, s, k, body, 0);
  }

  lemma AfterBody(echo: bool, s: seq<Byte>, body: nat)
    requires 0 < body <= |s|
    ensures PrefixesFit(echo, s, body) <==> PrefixesFit(echo, s[body..], 0)
  {
    forall n | body <= n <= |s| ensures Frame(echo, s[..n], body).rest == Frame(echo, s[body..][..n - body], 0).rest {
      assert s[..n][body..] == s[body..][..n - body];
    }
    Shifted(echo, s, body, 0, body);
  }

  /** That no prefix of a stream fills the buffer says exactly that its heads are short. */
  lemma {:induction false} PrefixesFitIffHeadsShort(echo: bool, s: seq<Byte>, body: nat)
    ensures PrefixesFit(echo, s, body) <==> HeadsShort(echo, s, body)
    decreases |s|
  {
    hide FindEnd, BodyOf, PrefixesFit, NoneLong;
    if body > |s| {
      InsideFits(echo, s, body);
    } else if body > 0 {
      AfterBody(echo, s, body);
      PrefixesFitIffHeadsShort(echo, s[body..], 0);
    } else if FindEnd(s, 0).None? {
      UnfinishedFits(echo, s);
    } else {
      FirstHead(echo, s);
      var k := FindEnd(s, 0).value + 4;
      PrefixesFitIffHeadsShort(echo, s[k..], BodyOf(echo, s[..k]));
      NoneLongAfter(s[..k], Heads(echo, s[k..], BodyOf(echo, s[..k])));
    }
  }

  lemma NoneLongAfter(head: seq<Byte>, rest: seq<seq<Byte>>)
    ensures NoneLong([head] + rest) <==> |head| <= CAPACITY && NoneLong(rest)
  {
    var all := [head] + rest;
    if NoneLong(all) {
      assert all[0] == head;
      forall i | 0 <= i < |rest| ensures |rest[i]| <= CAPACITY {
        assert all[i + 1] == rest[i];
      }
    }
  }

  lemma InsideFits(echo: bool, s: seq<Byte>, body: nat)
    requires body > |s|
    ensures PrefixesFit(echo, s, body) && HeadsShort(echo, s, body)
  {
  }

  lemma UnfinishedFits(echo: bool, s: seq<Byte>)
    requires FindEnd(s, 0).None?
    ensures PrefixesFit(echo, s, 0) <==> |s| < CAPACITY
    ensures HeadsShort(echo, s, 0) <==> |s| < CAPACITY
  {
    forall n | 0 <= n <= |s| ensures Frame(echo, s[..n], 0).rest == s[..n] {
      PrefixWithin(echo, s, n);
    }
    assert Heads(echo, s, 0) == [] && Frame(echo, s, 0).rest == s;
    if PrefixesFit(echo, s, 0) {
      assert |Frame(echo, s[..|s|], 0).rest| < CAPACITY;
    }
  }
}
