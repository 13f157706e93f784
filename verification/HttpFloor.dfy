/**
  One connection of the floor server: requests are read in pieces of any size, a
  fixed response is owed for each, and the socket takes as much of it as it likes.
*/
module HttpFloor {
  import opened Options
  import opened HttpFraming

  /** What read returns; an interrupted read is tried again. */
  datatype ReadResult = Bytes(data: seq<Byte>) | WouldBlock | Failed

  /** What writev returns. */
  datatype WriteResult = Took(n: nat) | Interrupted | Again | Broken

  /** What the event loop finds for the connection: what the writes of each flush
      return, and what the read meets when there is something to read. */
  datatype Event = Event(
    writable: bool, flushed: seq<WriteResult>, readable: bool, arrival: Arrival, answered: seq<WriteResult>)

  /** The next bytes of the stream have come, at most n of them; or none; or its end. */
  datatype Arrival = Next(n: nat) | Nothing | End | Reset

  /** k responses one after the other. */
  function Responses(response: seq<Byte>, k: nat): seq<Byte> {
    if k == 0 then [] else Responses(response, k - 1) + response
  }

  lemma {:induction false} ResponsesPrefix(response: seq<Byte>, j: nat, k: nat)
    requires j <= k
    ensures Responses(response, j) <= Responses(response, k)
  {
    if j < k {
      ResponsesPrefix(response, j, k - 1);
    }
  }

  /** A read takes no more than there is room for, and what has come. */
  function Read(a: Arrival, left: seq<Byte>, room: nat): (r: ReadResult)
    ensures r.Bytes? ==> |r.data| <= room && r.data <= left
    ensures r == Bytes([]) ==> a.End? || room == 0
  {
    match a
    case Next(n) =>
      var k := if n < room then n else room;
      var here := if k < |left| then k else |left|;
      if here == 0 && room > 0 then WouldBlock else Bytes(left[..here])
    case Nothing => WouldBlock
    case End => Bytes([])
    case Reset => Failed
  }

  /** Events that close the connection. */
  predicate Fatal(e: Event) {
    || (e.writable && Broken in e.flushed)
    || (e.readable && (e.arrival.End? || e.arrival.Reset? || Broken in e.answered))
  }

  /** One round of the framing loop inside a body. */
  lemma FrameBody(echo: bool, s: seq<Byte>, body: nat)
    requires body > 0
    ensures Frame(echo, s, body) ==
      if body > |s| then Frames(s[|s|..], body - |s|, 0) else Plus(1, Frame(echo, s[body..], 0))
  {
  }

  /** One round at the start of a head. */
  lemma FrameHead(echo: bool, s: seq<Byte>)
    ensures var end := FindEnd(s, 0);
      if end.None? then Frame(echo, s, 0) == Frames(s, 0, 0)
      else
        var n := end.value + 4;
        && n <= |s|
        && var clen := BodyOf(echo, s[..n]);
           Frame(echo, s, 0) == if clen > 0 then Frame(echo, s[n..], clen) else Plus(1, Frame(echo, s[n..], 0))
  {
    EndFits(s);
  }

  /** A piece of a response is sent, perhaps to its end. */
  lemma SentMore(sent: seq<Byte>, r: seq<Byte>, k: nat, off: nat, n: nat)
    requires off + n <= |r| && sent == Responses(r, k) + r[..off]
    ensures var after := sent + r[off..][..n];
      && after == Responses(r, k) + r[..off + n]
      && (off + n == |r| ==> after == Responses(r, k + 1) + r[..0])
  {
    assert r[..off] + r[off..][..n] == r[..off + n];
    if off + n == |r| {
      assert r[..off + n] == r && r[..0] == [];
    }
  }

  class Conn {
    const echo: bool
    const head: seq<Byte>
    const body: seq<Byte>
    const input: array<Byte>

    var inlen: nat
    var bodyLeft: nat
    var outoff: nat
    var pending: nat
    var writeArmed: bool

    /** The bytes received and sent so far, and the requests complete in the former. */
    ghost var received: seq<Byte>
    ghost var sent: seq<Byte>
    ghost var done: nat

    ghost predicate Framed()
      reads this, input
    {
      input.Length == CAPACITY && inlen <= CAPACITY
      && Frame(echo, received, 0) == Frames(input[..inlen], bodyLeft, done)
    }

    /** Of the responses to complete requests, all but those owed are sent, and of
        the first of those owed, the part before outoff. */
    ghost predicate Answered()
      reads `pending, `done, `outoff, `sent
    {
      && pending <= done
      && outoff < |head + body| && (pending == 0 ==> outoff == 0)
      && sent == Responses(head + body, done - pending) + (head + body)[..outoff]
    }

    ghost predicate Valid()
      reads this, input
    {
      Framed() && Answered() && inlen < CAPACITY
    }

    constructor (echo: bool, head: seq<Byte>, body: seq<Byte>)
      requires head != []
      ensures Valid() && received == [] && sent == [] && fresh(input)
      ensures this.echo == echo && this.head == head && this.body == body
    {
      this.echo, this.head, this.body := echo, head, body;
      input := new Byte[CAPACITY];
      inlen, bodyLeft, outoff, pending, writeArmed := 0, 0, 0, 0, false;
      received, sent, done := [], [], 0;
      new;
      assert input[..0] == [];
      assert FindEnd([], 0).None?;
    }

    /** What has been sent is the beginning of the responses to the requests received. */
    lemma SentIsPrefix()
      requires Answered()
      ensures sent <= Responses(head + body, done)
    {
      var r := head + body;
      var k := done - pending;
      if pending > 0 {
        ResponsesPrefix(r, k + 1, done);
        assert Responses(r, k + 1) == Responses(r, k) + r;
        assert sent <= Responses(r, k + 1);
      } else {
        assert sent == Responses(r, k);
      }
    }

    /** One write: the socket takes n bytes of the response in progress. */
    method Send(n: nat)
      requires Answered() && pending > 0
      modifies `outoff, `pending, `sent
      ensures Answered() && old(sent) <= sent && pending <= old(pending)
      ensures n > 0 ==> |sent| > |old(sent)|
    {
      // iov: the rest of the head and the body, or the rest of the body
      var part := if outoff < |head| then head[outoff..] + body else body[outoff - |head|..];
      assert part == (head + body)[outoff..];
      var wrote := if n <= |part| then n else |part|;
      SentMore(sent, head + body, done - pending, outoff, wrote);
      sent := sent + part[..wrote];
      outoff := outoff + wrote;
      if outoff >= |head| + |body| {
        outoff := 0;
        pending := pending - 1;
      }
    }

    /** flush_conn in the epoll build: the responses owed, as far as the socket takes
        them.  The list holds what the writes return; after its end there is no room. */
    method Flush(writes: seq<WriteResult>) returns (ok: bool)
      requires Answered()
      modifies `outoff, `pending, `writeArmed, `sent
      ensures Answered() && old(sent) <= sent
      ensures !ok ==> Broken in writes
      ensures ok ==> (writeArmed <==> pending > 0)
    {
      var at := 0;
      while pending > 0
        invariant Answered() && at <= |writes| && old(sent) <= sent
        decreases |writes| - at
      {
        if at == |writes| || writes[at].Again? {
          writeArmed := true;
          return true;
        }
        var w := writes[at];
        at := at + 1;
        if w.Broken? {
          return false;
        } else if w.Took? {
          Send(w.n);
        }
      }
      writeArmed := false;
      return true;
    }

    /** A request is complete: one more response is owed. */
    method Owe()
      requires Answered()
      modifies `pending, `done
      ensures Answered() && pending == old(pending) + 1 && done == old(done) + 1
    {
      pending := pending + 1;
      done := done + 1;
    }

    method AnnouncedLength(text: seq<Byte>) returns (clen: nat)
      ensures clen == BodyOf(echo, text)
    {
      clen := 0;
      if echo {
        clen := ReadContentLength(text);
      }
    }

    /** The framing loop of on_read: start is where the unframed bytes begin. */
    method FrameInput() returns (start: nat)
      requires input.Length == CAPACITY && inlen <= CAPACITY && Answered()
      modifies `bodyLeft, `pending, `done
      ensures start <= inlen && Answered()
      ensures Frames(input[start..inlen], bodyLeft, done) == Plus(old(done), Frame(echo, input[..inlen], old(bodyLeft)))
    {
      hide Frame, FindEnd, ContentLength, Answered, BodyOf;
      start := 0;
      while true
        invariant start <= inlen && Answered() && done >= old(done)
        invariant Plus(done, Frame(echo, input[start..inlen], bodyLeft)) ==
          Plus(old(done), Frame(echo, input[..inlen], old(bodyLeft)))
        decreases inlen - start, bodyLeft
      {
        var todo := input[start..inlen];
        if bodyLeft > 0 {
          var have := inlen - start;
          var take := if have < bodyLeft then have else bodyLeft;
          FrameBody(echo, todo, bodyLeft);
          start := start + take;
          bodyLeft := bodyLeft - take;
          assert todo[take..] == input[start..inlen];
          if bodyLeft > 0 {
            break;
          }
          Owe();
          continue;
        }
        var end := FindEnd(todo, 0);
        FrameHead(echo, todo);
        if end.None? {
          break;
        }
        var headLen := end.value + 4;
        var clen := AnnouncedLength(todo[..headLen]);
        start := start + headLen;
        assert todo[headLen..] == input[start..inlen];
        if clen > 0 {
          bodyLeft := clen;
          continue;
        }
        Owe();
      }
    }

    /** on_read: one read, the requests it completes, and one attempt to answer. */
    method OnRead(got: ReadResult, writes: seq<WriteResult>) returns (open: bool)
      requires Valid() && (got.Bytes? ==> |got.data| <= CAPACITY - inlen)
      modifies this, input
      ensures received == old(received) + if got.Bytes? then got.data else []
      ensures Framed() && Answered() && old(sent) <= sent
      ensures open ==> Valid()
      ensures !open ==>
        got.Failed? || got == Bytes([]) || Broken in writes || |Frame(echo, received, 0).rest| == CAPACITY
      ensures |Frame(echo, received, 0).rest| == CAPACITY ==> !open
    {
      hide Frame, Responses;
      if got.Failed? {
        return false;
      }
      if got.WouldBlock? {
        return true;
      }
      if got.data == [] {
        assert received + [] == received;
        return false;
      }
      ghost var before := Frame(echo, received, 0);
      FrameSplits(echo, received, got.data, 0);
      Append(got.data);
      ghost var wasDone := done;
      var start := FrameInput();
      assert wasDone == before.done;
      received := received + got.data;
      if start > 0 {
        Discard(start);
      }
      if inlen == CAPACITY {
        return false;
      }
      open := Flush(writes);
    }

    /** One round of the event loop: answer what is owed if the socket has room
        again, then read. */
    method React(e: Event, left: seq<Byte>) returns (open: bool, took: nat)
      requires Valid()
      modifies this, input
      ensures Framed() && Answered() && (open ==> Valid())
      ensures took <= |left| && received == old(received) + left[..took] && old(sent) <= sent
      ensures !open ==> Fatal(e) || |Frame(echo, received, 0).rest| == CAPACITY
    {
      hide Frame, Responses;
      open, took := true, 0;
      if e.writable {
        open := Flush(e.flushed);
      }
      if open && e.readable {
        var got := Read(e.arrival, left, CAPACITY - inlen);
        took := if got.Bytes? then |got.data| else 0;
        open := OnRead(got, e.answered);
      }
    }

    /** The event loop, as far as it concerns this connection: whatever pieces the
        stream comes in and whatever the writes take, what is sent is the beginning
        of the responses to the requests that are complete in what was received. */
    method Serve(stream: seq<Byte>, events: seq<Event>) returns (open: bool)
      requires Valid() && received == [] && sent == []
      modifies this, input
      ensures received <= stream
      ensures sent <= Responses(head + body, Frame(echo, received, 0).done)
      ensures open && pending == 0 ==> sent == Responses(head + body, Frame(echo, received, 0).done)
      ensures !open ==>
        (exists e :: e in events && Fatal(e)) || |Frame(echo, received, 0).rest| == CAPACITY
    {
      hide Frame, Responses;
      open := true;
      var i, at := 0, 0;
      while i < |events| && open
        invariant i <= |events| && at <= |stream| && received == stream[..at]
        invariant Framed() && Answered() && (open ==> Valid())
        invariant !open ==>
          (exists e :: e in events && Fatal(e)) || |Frame(echo, received, 0).rest| == CAPACITY
      {
        var took;
        open, took := React(events[i], stream[at..]);
        assert stream[..at] + stream[at..][..took] == stream[..at + took];
        i, at := i + 1, at + took;
      }
      SentIsPrefix();
      assert (head + body)[..0] == [];
    }

    /** What read puts behind the bytes already there. */
    method Append(data: seq<Byte>)
      requires input.Length == CAPACITY && inlen + |data| <= CAPACITY
      modifies `inlen, input
      ensures inlen == old(inlen) + |data| && input[..inlen] == old(input[..inlen]) + data
    {
      forall k | 0 <= k < |data| {
        input[inlen + k] := data[k];
      }
      inlen := inlen + |data|;
    }

    /** memmove of the unframed bytes to the front. */
    method Discard(start: nat)
      requires input.Length == CAPACITY && start <= inlen <= CAPACITY
      modifies `inlen, input
      ensures inlen == old(inlen) - start && input[..inlen] == old(input[start..inlen])
    {
      forall k | 0 <= k < inlen - start {
        input[k] := input[start + k];
      }
      inlen := inlen - start;
    }
  }

  // ---- runs ----------------------------------------------------------------------------------

  function Flatten(chunks: seq<seq<Byte>>): seq<Byte> {
    if chunks == [] then [] else chunks[0] + Flatten(chunks[1..])
  }

  /** Reads that ask for no more than the buffer has room for. */
  predicate Reads(echo: bool, before: seq<Byte>, chunks: seq<seq<Byte>>)
    decreases |chunks|
  {
    chunks == [] ||
    (0 < |chunks[0]| <= CAPACITY - |Frame(echo, before, 0).rest| && Reads(echo, before + chunks[0], chunks[1..]))
  }

  /** The buffer is not full after any of them. */
  predicate StaysOpen(echo: bool, before: seq<Byte>, chunks: seq<seq<Byte>>)
    decreases |chunks|
  {
    |Frame(echo, before, 0).rest| < CAPACITY && (chunks == [] || StaysOpen(echo, before + chunks[0], chunks[1..]))
  }

  /** More bytes grow what is unframed by no more than their number. */
  lemma RestGrows(echo: bool, s: seq<Byte>, t: seq<Byte>)
    ensures |Frame(echo, s + t, 0).rest| <= |Frame(echo, s, 0).rest| + |t|
  {
    FrameSplits(echo, s, t, 0);
  }

  /** Whether a connection survives depends on the stream and not on how the reads
      cut it. */
  lemma OpenIffHeadsFit(echo: bool, before: seq<Byte>, chunks: seq<seq<Byte>>)
    requires Reads(echo, before, chunks) && HeadsShort(echo, before, 0)
    ensures StaysOpen(echo, before, chunks) <==> HeadsShort(echo, before + Flatten(chunks), 0)
  {
    PrefixesFitIffHeadsShort(echo, before, 0);
    PrefixesFitIffHeadsShort(echo, before + Flatten(chunks), 0);
    OpenIffPrefixesFit(echo, before, chunks);
  }

  lemma {:induction false} OpenIffPrefixesFit(echo: bool, before: seq<Byte>, chunks: seq<seq<Byte>>)
    requires Reads(echo, before, chunks) && PrefixesFit(echo, before, 0)
    ensures StaysOpen(echo, before, chunks) <==> PrefixesFit(echo, before + Flatten(chunks), 0)
    decreases |chunks|
  {
    assert before[..|before|] == before;
    if chunks == [] {
      assert before + Flatten(chunks) == before;
    } else {
      var after := before + chunks[0];
      var whole := before + Flatten(chunks);
      assert whole == after + Flatten(chunks[1..]);
      assert whole[..|after|] == after;
      if |Frame(echo, after, 0).rest| < CAPACITY {
        OneRead(echo, before, chunks[0]);
        OpenIffPrefixesFit(echo, after, chunks[1..]);
      }
    }
  }

  /** A read that does not fill the buffer does not pass a point where it is full. */
  lemma OneRead(echo: bool, before: seq<Byte>, chunk: seq<Byte>)
    requires PrefixesFit(echo, before, 0) && |chunk| <= CAPACITY - |Frame(echo, before, 0).rest|
    requires |Frame(echo, before + chunk, 0).rest| < CAPACITY
    ensures PrefixesFit(echo, before + chunk, 0)
  {
    var after := before + chunk;
    forall n | 0 <= n <= |after| ensures |Frame(echo, after[..n], 0).rest| < CAPACITY {
      if n <= |before| {
        assert after[..n] == before[..n];
      } else if n < |after| {
        assert after[..n] == before + chunk[..n - |before|];
        RestGrows(echo, before, chunk[..n - |before|]);
      } else {
        assert after[..n] == after;
      }
    }
  }
}
