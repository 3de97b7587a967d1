/**
 The length-prefixed frames of the SDKs: four bytes of big-endian length and the payload. Decoding
 of a stream into frames, however the stream is cut, and the Go SDK's readFrame and writeFrame.
 */
module Framing {
  import opened Wrappers

  type Bytes = seq<byte>

  const WORD: nat := 0x1_0000_0000

  function BigEndian(n: nat): (b: Bytes)
    ensures |b| == 4
  {
    [((n / 0x100_0000) % 0x100) as byte, ((n / 0x1_0000) % 0x100) as byte, ((n / 0x100) % 0x100) as byte,
     (n % 0x100) as byte]
  }

  function ReadWord(b: Bytes): (n: nat)
    requires |b| >= 4
    ensures n < WORD
  {
    (b[0] as nat) * 0x100_0000 + (b[1] as nat) * 0x1_0000 + (b[2] as nat) * 0x100 + (b[3] as nat)
  }

  /** The header is the length as an unsigned 32-bit number, which wraps around. */
  lemma {:induction false} ReadWordOfBigEndian(n: nat, rest: Bytes)
    ensures ReadWord(BigEndian(n) + rest) == n % WORD
  {
    var q1, q2, q3 := n / 0x100, n / 0x1_0000, n / 0x100_0000;
    Shifted(n, 0x100);
    Shifted(n, 0x1_0000);
    assert n == 0x100 * q1 + n % 0x100;
    assert q1 == 0x100 * q2 + q1 % 0x100;
    assert q2 == 0x100 * q3 + q2 % 0x100;
    assert q3 == 0x100 * (q3 / 0x100) + q3 % 0x100;
    assert q3 / 0x100 == n / WORD;
  }

  /** The most significant byte comes first. */
  lemma {:induction false} HeaderBytes(n: nat, b: Bytes)
    requires n < WORD && b == BigEndian(n)
    ensures n == (b[0] as nat) * 16777216 + (b[1] as nat) * 65536 + (b[2] as nat) * 256 + (b[3] as nat)
  {
    ReadWordOfBigEndian(n, []);
    assert b + [] == b;
  }

  lemma {:induction false} Shifted(n: nat, k: nat)
    requires k == 0x100 || k == 0x1_0000
    ensures n / k / 0x100 == n / (k * 0x100)
  {
  }

  // ----- frames of a stream -----

  function Frame(payload: Bytes): Bytes {
    BigEndian(|payload|) + payload
  }

  function Stream(payloads: seq<Bytes>): Bytes {
    if payloads == [] then [] else Frame(payloads[0]) + Stream(payloads[1..])
  }

  /** The payloads fit their header. */
  ghost predicate Fit(payloads: seq<Bytes>) {
    forall i :: 0 <= i < |payloads| ==> |payloads[i]| < WORD
  }

  predicate Complete(b: Bytes) {
    |b| >= 4 && |b| >= 4 + ReadWord(b)
  }

  datatype Decoded = Decoded(frames: seq<Bytes>, rest: Bytes)

  function Deframe(b: Bytes): (d: Decoded)
    ensures !Complete(d.rest)
    decreases |b|
  {
    if !Complete(b) then Decoded([], b)
    else
      var size := ReadWord(b);
      var later := Deframe(b[4 + size..]);
      Decoded([b[4..4 + size]] + later.frames, later.rest)
  }

  lemma {:induction false} DeframeFrame(p: Bytes, tail: Bytes)
    requires |p| < WORD
    ensures Complete(Frame(p) + tail)
    ensures Deframe(Frame(p) + tail) == Decoded([p] + Deframe(tail).frames, Deframe(tail).rest)
  {
    var b := Frame(p) + tail;
    FrameParts(p, tail, b);
    Small(|p|);
    DeframeComplete(b, |p|);
  }

  lemma {:induction false} Small(n: nat)
    requires n < WORD
    ensures n % WORD == n
  {
  }

  lemma {:induction false} DeframeComplete(b: Bytes, size: nat)
    requires |b| >= 4 + size && ReadWord(b) == size
    ensures Complete(b)
    ensures Deframe(b) == Decoded([b[4..4 + size]] + Deframe(b[4 + size..]).frames, Deframe(b[4 + size..]).rest)
  {
  }

  /** A frame at the front of a stream: its header, and where its payload and the rest begin. */
  lemma {:induction false} FrameParts(p: Bytes, tail: Bytes, b: Bytes)
    requires b == Frame(p) + tail
    ensures |b| == 4 + |p| + |tail| && ReadWord(b) == |p| % WORD && b[4..] == p + tail
    ensures b[4..4 + |p|] == p && b[4 + |p|..] == tail
  {
    HeadFirst(BigEndian(|p|), p, tail, b);
    ReadWordOfBigEndian(|p|, p + tail);
  }

  lemma {:induction false} HeadFirst(head: Bytes, p: Bytes, tail: Bytes, b: Bytes)
    requires |head| == 4 && b == head + p + tail
    ensures b == head + (p + tail) && b[4..] == p + tail
    ensures b[4..4 + |p|] == p && b[4 + |p|..] == tail
  {
  }

  lemma {:induction false} FirstOfStream(ps: seq<Bytes>, tail: Bytes)
    requires ps != []
    ensures Stream(ps) + tail == Frame(ps[0]) + (Stream(ps[1..]) + tail)
  {
  }

  lemma {:induction false} Regroup(first: Bytes, later: seq<Bytes>, more: seq<Bytes>)
    ensures [first] + (later + more) == ([first] + later) + more
  {
  }

  /** Decoding gives back exactly the payloads sent, in order, and keeps what follows them. */
  lemma {:induction false} DeframeStream(ps: seq<Bytes>, tail: Bytes)
    requires Fit(ps)
    ensures Deframe(Stream(ps) + tail) == Decoded(ps + Deframe(tail).frames, Deframe(tail).rest)
  {
    if ps == [] {
      assert Stream(ps) + tail == tail && ps + Deframe(tail).frames == Deframe(tail).frames;
    } else {
      var first, later := ps[0], ps[1..];
      DeframeStream(later, tail);
      FirstOfStream(ps, tail);
      DeframeFrame(first, Stream(later) + tail);
      Regroup(first, later, Deframe(tail).frames);
      assert [first] + later == ps;
    }
  }

  lemma {:induction false} CutIn(a: Bytes, b: Bytes, n: nat)
    requires 4 <= n <= |a|
    ensures ReadWord(a + b) == ReadWord(a)
    ensures (a + b)[4..n] == a[4..n] && (a + b)[n..] == a[n..] + b
  {
  }

  /** Where a stream is cut makes no difference: decode the first part, then what it left with the second. */
  lemma {:induction false} DeframeAppend(a: Bytes, b: Bytes)
    ensures Deframe(a + b) ==
            Decoded(Deframe(a).frames + Deframe(Deframe(a).rest + b).frames, Deframe(Deframe(a).rest + b).rest)
    decreases |a|
  {
    if Complete(a) {
      var size := ReadWord(a);
      CutIn(a, b, 4 + size);
      DeframeComplete(a, size);
      DeframeComplete(a + b, size);
      DeframeAppend(a[4 + size..], b);
      var left := Deframe(a).rest;
      Regroup(a[4..4 + size], Deframe(a[4 + size..]).frames, Deframe(left + b).frames);
    } else {
      assert [] + Deframe(a + b).frames == Deframe(a + b).frames;
    }
  }

  // ----- a buffer that outlives its connection -----

  lemma {:induction false} ZeroHeader(b: Bytes)
    requires |b| >= 4 && b[0] == 0 && b[1] == 0 && b[2] == 0 && b[3] == 0
    ensures Complete(b) && Deframe(b).frames != [] && Deframe(b).frames[0] == []
  {
    assert ReadWord(b) == 0;
    assert b[4..4] == [];
  }

  /** For any leftover of an old connection there is a message on the new one that is not delivered as sent. */
  lemma {:induction false} LeftoverBreaks(b: Bytes) returns (p: Bytes)
    requires b != [] && !Complete(b)
    ensures |p| <= 1 && Deframe(b + Stream([p])).frames != [p]
  {
    if |b| < 4 && (forall i :: 0 <= i < |b| ==> b[i] == 0) {
      p := [1];
      OneFrame(p);
      assert BigEndian(1) == [0, 0, 0, 1];
      ZeroHeader(b + Stream([p]));
    } else {
      p := [];
      OneFrame(p);
      assert BigEndian(0) == [0, 0, 0, 0];
      var all := b + Frame(p);
      if Complete(all) {
        assert ReadWord(all) > 0;
        assert Deframe(all).frames[0] == all[4..4 + ReadWord(all)];
      }
    }
  }

  lemma {:induction false} OneFrame(p: Bytes)
    ensures Stream([p]) == Frame(p)
  {
    assert Stream([p]) == Frame(p) + Stream([p][1..]) && [p][1..] == [];
    assert Stream([]) == [];
  }

  /** What follows a reconnect is decoded as it was sent exactly when nothing was left in the buffer. */
  lemma {:induction false} CleanBuffer(b: Bytes)
    requires !Complete(b)
    ensures (forall ps :: Fit(ps) ==> Deframe(b + Stream(ps)).frames == ps) <==> b == []
  {
    if b == [] {
      forall ps | Fit(ps) ensures Deframe(b + Stream(ps)).frames == ps {
        DeframeStream(ps, []);
        assert b + Stream(ps) == Stream(ps) + [];
        assert ps + [] == ps;
      }
    } else {
      var p := LeftoverBreaks(b);
      assert Fit([p]);
    }
  }

  // ----- the Go SDK -----

  const MAX_FRAME: nat := 64 * 1024

  /** A frame taken off the front of the input; on an error the input is read up to there. */
  function Read(input: Bytes): (Result<Bytes, string>, Bytes) {
    if |input| < 4 then (Err("EOF"), [])
    else
      var size := ReadWord(input);
      if size > MAX_FRAME then (Err("frame too large"), input[4..])
      else if |input| < 4 + size then (Err("unexpected EOF"), [])
      else (Ok(input[4..4 + size]), input[4 + size..])
  }

  class Connection {
    var input: Bytes
    var output: Bytes

    constructor (arriving: Bytes)
      ensures input == arriving && output == []
    {
      input, output := arriving, [];
    }

    /** Fills the whole buffer or fails, having read all there was. */
    method ReadFull(buffer: array<byte>) returns (ok: bool)
      modifies this`input, buffer
      ensures ok <==> |old(input)| >= buffer.Length
      ensures ok ==> buffer[..] == old(input)[..buffer.Length] && input == old(input)[buffer.Length..]
      ensures !ok ==> input == []
    {
      if |input| < buffer.Length {
        input := [];
        return false;
      }
      var i := 0;
      while i < buffer.Length
        invariant 0 <= i <= buffer.Length
        invariant input == old(input)
        invariant buffer[..i] == input[..i]
      {
        buffer[i] := input[i];
        i := i + 1;
      }
      input := input[buffer.Length..];
      return true;
    }

    method ReadFrame() returns (r: Result<Bytes, string>)
      modifies this`input
      ensures (r, input) == Read(old(input))
    {
      var header := new byte[4];
      var ok := ReadFull(header);
      if !ok {
        return Err("EOF");
      }
      assert header[..] == old(input)[..4];
      var size := ReadWord(header[..]);
      assert size == ReadWord(old(input));
      if size > MAX_FRAME {
        return Err("frame too large");
      }
      var payload := new byte[size];
      ok := ReadFull(payload);
      if !ok {
        return Err("unexpected EOF");
      }
      assert payload[..] == old(input)[4..4 + size];
      return Ok(payload[..]);
    }

    /** The connection takes at most `accepts` bytes; taking less than the whole frame is an error. */
    method WriteFrame(payload: Bytes, accepts: nat) returns (ok: bool)
      modifies this`output
      ensures ok <==> accepts >= |Frame(payload)|
      ensures output == old(output) + if ok then Frame(payload) else Frame(payload)[..accepts]
    {
      var frame := new byte[4 + |payload|];
      var head := BigEndian(|payload|);
      frame[0], frame[1], frame[2], frame[3] := head[0], head[1], head[2], head[3];
      var i := 0;
      while i < |payload|
        invariant 0 <= i <= |payload|
        invariant output == old(output) && frame[..4] == head
        invariant frame[4..4 + i] == payload[..i]
      {
        frame[4 + i] := payload[i];
        i := i + 1;
      }
      assert payload[..i] == payload && frame[4..4 + i] == frame[4..];
      assert frame[..] == frame[..4] + frame[4..];
      assert frame[..] == Frame(payload);
      if accepts < frame.Length {
        output := output + frame[..accepts];
        assert frame[..accepts] == Frame(payload)[..accepts];
        return false;
      }
      output := output + frame[..];
      return true;
    }
  }

  /**
   Reading gives back the frame that was written and leaves the rest of the stream alone, exactly
   up to 64 KiB of payload: beyond that it is refused, or, past 32 bits of length, cut short.
   */
  lemma {:induction false} ReadOfFrame(p: Bytes, rest: Bytes)
    ensures Read(Frame(p) + rest) == (Ok(p), rest) <==> |p| <= 65536
    ensures 65536 < |p| < WORD ==> Read(Frame(p) + rest) == (Err("frame too large"), p + rest)
  {
    var input := Frame(p) + rest;
    FrameParts(p, rest, input);
    ReadSized(p, rest, input);
  }

  lemma {:induction false} ReadSized(p: Bytes, rest: Bytes, input: Bytes)
    requires |input| == 4 + |p| + |rest| && ReadWord(input) == |p| % WORD && input[4..] == p + rest
    requires input[4..4 + |p|] == p && input[4 + |p|..] == rest
    ensures Read(input) == (Ok(p), rest) <==> |p| <= 65536
    ensures 65536 < |p| < WORD ==> Read(input) == (Err("frame too large"), p + rest)
  {
    if Read(input).0.Ok? {
      assert |Read(input).0.value| == ReadWord(input) <= MAX_FRAME;
    }
  }

  /** Each frame read is the next one the other SDK decodes from the same bytes. */
  lemma {:induction false} ReadAgreesWithDeframe(input: Bytes)
    ensures Read(input).0.Ok? <==> Complete(input) && |Deframe(input).frames[0]| <= 65536
    ensures Read(input).0.Ok? ==>
              Deframe(input) == Decoded([Read(input).0.value] + Deframe(Read(input).1).frames, Deframe(Read(input).1).rest)
  {
  }
}