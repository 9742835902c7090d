/**
 Length-prefixed frames (packages/protocol/src/framing.ts): what a stream of bytes means, as one recursive parse,
 and the two facts about it that any incremental decoder rests on. A parse is determined by the bytes alone
 (ParseIsExact), and it may be interrupted anywhere and resumed on what was left over (ParseResumes).
 */
module Framing {
  type byte = b: int | 0 <= b < 256

  const FRAME_HEADER_LENGTH: nat := 4
  const MAX_UINT32: nat := 0xffff_ffff
  const PAYLOAD_BLOCK_SIZE: nat := 64 * 1024
  const DEFAULT_MAX_FRAME_LENGTH: nat := 16 * 1024 * 1024

  /** The big-endian length that the first four bytes declare. */
  function Declared(bytes: seq<byte>): (n: nat)
    requires |bytes| >= FRAME_HEADER_LENGTH
    ensures n <= MAX_UINT32
  {
    bytes[0] as int * 0x100_0000 + bytes[1] as int * 0x1_0000 + bytes[2] as int * 0x100 + bytes[3] as int
  }

  /** What is left of `n >>> shift` in one byte, where `unit` is two to the power `shift`. */
  function Digit(n: nat, unit: nat): byte
    requires unit > 0
  {
    n / unit % 0x100
  }

  function Header(length: nat): (h: seq<byte>)
    requires length <= MAX_UINT32
    ensures |h| == FRAME_HEADER_LENGTH && Declared(h) == length
  {
    DigitsRebuild(length);
    [Digit(length, 0x100_0000), Digit(length, 0x1_0000), Digit(length, 0x100), Digit(length, 1)]
  }

  lemma DigitsRebuild(n: nat)
    requires n <= MAX_UINT32
    ensures n == Digit(n, 0x100_0000) as int * 0x100_0000 + Digit(n, 0x1_0000) as int * 0x1_0000
                 + Digit(n, 0x100) as int * 0x100 + Digit(n, 1) as int
  {
    var a, r := n / 0x100_0000, n % 0x100_0000;
    var b, s := r / 0x1_0000, r % 0x1_0000;
    var c, d := s / 0x100, s % 0x100;
    DigitsOf(a, b, c, d);
  }

  lemma DigitsOf(a: nat, b: nat, c: nat, d: nat)
    requires a < 0x100 && b < 0x100 && c < 0x100 && d < 0x100
    ensures var n := a * 0x100_0000 + b * 0x1_0000 + c * 0x100 + d;
            && Digit(n, 0x100_0000) as int == a && Digit(n, 0x1_0000) as int == b
            && Digit(n, 0x100) as int == c && Digit(n, 1) as int == d
  {
    var n := a * 0x100_0000 + b * 0x1_0000 + c * 0x100 + d;
    assert n / 0x100_0000 == a;
    assert n / 0x1_0000 == a * 0x100 + b;
    assert n / 0x100 == a * 0x1_0000 + b * 0x100 + c;
    assert n / 1 == n;
  }

  /** Four bytes are the header of the length they declare. */
  lemma HeaderOfDeclared(h: seq<byte>)
    requires |h| == FRAME_HEADER_LENGTH
    ensures Header(Declared(h)) == h
  {
    DigitsOf(h[0] as nat, h[1] as nat, h[2] as nat, h[3] as nat);
  }

  function Encode(payload: seq<byte>): seq<byte>
    requires |payload| <= MAX_UINT32
  {
    Header(|payload|) + payload
  }

  predicate AllWithin(payloads: seq<seq<byte>>, max: nat) {
    forall i | 0 <= i < |payloads| :: |payloads[i]| <= max && |payloads[i]| <= MAX_UINT32
  }

  function EncodeAll(payloads: seq<seq<byte>>): seq<byte>
    requires AllWithin(payloads, MAX_UINT32)
  {
    if payloads == [] then [] else Encode(payloads[0]) + EncodeAll(payloads[1..])
  }

  /** The frames of a byte stream and what is left; `tooLong` if the rest begins with a header that declares too much. */
  datatype Parsed = Parsed(frames: seq<seq<byte>>, rest: seq<byte>, tooLong: bool)

  function Parse(bytes: seq<byte>, max: nat): Parsed
    decreases |bytes|
  {
    if |bytes| < FRAME_HEADER_LENGTH then Parsed([], bytes, false)
    else
      var n := Declared(bytes);
      if n > max then Parsed([], bytes, true)
      else if |bytes| < FRAME_HEADER_LENGTH + n then Parsed([], bytes, false)
      else Prefixed(bytes[FRAME_HEADER_LENGTH..FRAME_HEADER_LENGTH + n], Parse(bytes[FRAME_HEADER_LENGTH + n..], max))
  }

  function Prefixed(frame: seq<byte>, p: Parsed): Parsed {
    p.(frames := [frame] + p.frames)
  }

  /** These bytes begin with neither a whole frame nor a header that declares too much. */
  predicate Undecided(bytes: seq<byte>, max: nat) {
    |bytes| < FRAME_HEADER_LENGTH
    || (Declared(bytes) <= max && |bytes| < FRAME_HEADER_LENGTH + Declared(bytes))
  }

  predicate DeclaresTooMuch(bytes: seq<byte>, max: nat) {
    |bytes| >= FRAME_HEADER_LENGTH && Declared(bytes) > max
  }

  /** What may follow the frames of a stream: nothing decided, or a refusal. */
  predicate Tail(rest: seq<byte>, tooLong: bool, max: nat) {
    if tooLong then DeclaresTooMuch(rest, max) else Undecided(rest, max)
  }

  lemma ParseOfTail(rest: seq<byte>, tooLong: bool, max: nat)
    requires Tail(rest, tooLong, max)
    ensures Parse(rest, max) == Parsed([], rest, tooLong)
  {
    hide Declared;
  }

  lemma DeclaredByFront(bytes: seq<byte>)
    requires |bytes| >= FRAME_HEADER_LENGTH
    ensures Declared(bytes) == Declared(bytes[..FRAME_HEADER_LENGTH])
  {}

  /** One frame in front of a stream comes out in front of its parse. */
  lemma ParsePeels(header: seq<byte>, frame: seq<byte>, more: seq<byte>, max: nat)
    requires |header| == FRAME_HEADER_LENGTH && Declared(header) == |frame| <= max
    ensures Parse(header + frame + more, max) == Prefixed(frame, Parse(more, max))
  {
    hide Declared, Prefixed;
    var bytes := header + frame + more;
    DeclaredByFront(bytes);
    assert bytes[..FRAME_HEADER_LENGTH] == header;
    assert bytes[FRAME_HEADER_LENGTH..FRAME_HEADER_LENGTH + |frame|] == frame;
    assert bytes[FRAME_HEADER_LENGTH + |frame|..] == more;
  }

  /** Bytes that are no tail begin with a whole frame. */
  lemma SplitFrame(bytes: seq<byte>, max: nat) returns (header: seq<byte>, frame: seq<byte>, more: seq<byte>)
    requires !Tail(bytes, false, max) && !Tail(bytes, true, max)
    ensures |header| == FRAME_HEADER_LENGTH && Declared(header) == |frame| <= max
    ensures bytes == header + frame + more && |more| < |bytes|
    ensures Parse(bytes, max) == Prefixed(frame, Parse(more, max))
  {
    hide Declared, Prefixed, Parse;
    var n := FRAME_HEADER_LENGTH + Declared(bytes);
    header, frame, more := bytes[..FRAME_HEADER_LENGTH], bytes[FRAME_HEADER_LENGTH..n], bytes[n..];
    DeclaredByFront(bytes);
    assert header + frame + more == bytes;
    ParsePeels(header, frame, more, max);
  }

  lemma {:induction false} ParseDescribes(bytes: seq<byte>, max: nat)
    ensures var p := Parse(bytes, max);
            AllWithin(p.frames, max) && AllWithin(p.frames, MAX_UINT32)
            && bytes == EncodeAll(p.frames) + p.rest && Tail(p.rest, p.tooLong, max)
    decreases |bytes|
  {
    hide Declared, Parse, Tail, Header;
    if Tail(bytes, false, max) {
      ParseOfTail(bytes, false, max);
    } else if Tail(bytes, true, max) {
      ParseOfTail(bytes, true, max);
    } else {
      var header, frame, more := SplitFrame(bytes, max);
      ParseDescribes(more, max);
      HeaderOfDeclared(header);
      var p, q := Parse(bytes, max), Parse(more, max);
      assert p.frames[0] == frame && p.frames[1..] == q.frames;
      assert bytes == Encode(frame) + (EncodeAll(q.frames) + q.rest);
      Regroup(Encode(frame), EncodeAll(q.frames), q.rest);
    }
  }

  lemma Regroup<T>(a: seq<T>, b: seq<T>, c: seq<T>)
    ensures a + (b + c) == a + b + c
  {}

  lemma {:induction false} ParseOfEncoded(frames: seq<seq<byte>>, rest: seq<byte>, tooLong: bool, max: nat)
    requires AllWithin(frames, max) && AllWithin(frames, MAX_UINT32) && Tail(rest, tooLong, max)
    ensures Parse(EncodeAll(frames) + rest, max) == Parsed(frames, rest, tooLong)
    decreases |frames|
  {
    hide Declared, Parse, Tail, Header;
    if frames == [] {
      assert EncodeAll(frames) + rest == rest;
      ParseOfTail(rest, tooLong, max);
    } else {
      var frame, others := frames[0], frames[1..];
      ParseOfEncoded(others, rest, tooLong, max);
      ParsePeels(Header(|frame|), frame, EncodeAll(others) + rest, max);
      Regroup(Encode(frame), EncodeAll(others), rest);
      assert [frame] + others == frames;
    }
  }

  /** The parse is the only way to read the bytes as frames followed by something that is no frame yet. */
  lemma ParseIsExact(bytes: seq<byte>, max: nat, frames: seq<seq<byte>>, rest: seq<byte>, tooLong: bool)
    ensures Parse(bytes, max) == Parsed(frames, rest, tooLong)
            <==> (AllWithin(frames, max) && AllWithin(frames, MAX_UINT32)
                  && bytes == EncodeAll(frames) + rest && Tail(rest, tooLong, max))
  {
    hide Parse, Tail, EncodeAll;
    ParseDescribes(bytes, max);
    if AllWithin(frames, max) && AllWithin(frames, MAX_UINT32) && Tail(rest, tooLong, max) {
      ParseOfEncoded(frames, rest, tooLong, max);
    }
  }

  /** Frames within the limit, encoded one after the other, decode to themselves with nothing left over. */
  lemma RoundTrip(payloads: seq<seq<byte>>, max: nat)
    requires AllWithin(payloads, max) && AllWithin(payloads, MAX_UINT32)
    ensures Parse(EncodeAll(payloads), max) == Parsed(payloads, [], false)
  {
    ParseOfEncoded(payloads, [], false, max);
    assert EncodeAll(payloads) + [] == EncodeAll(payloads);
  }

  /** A parse may stop at any byte: what it had is kept, and only the rest is looked at again. */
  lemma {:induction false} ParseResumes(a: seq<byte>, b: seq<byte>, max: nat)
    ensures var p := Parse(a, max); var q := Parse(p.rest + b, max);
            Parse(a + b, max) == if p.tooLong then p.(rest := p.rest + b) else q.(frames := p.frames + q.frames)
    decreases |a|
  {
    hide Declared, Parse, Tail;
    if Tail(a, false, max) {
      ParseOfTail(a, false, max);
      assert [] + Parse(a + b, max).frames == Parse(a + b, max).frames;
    } else if Tail(a, true, max) {
      StaysTooLong(a, b, max);
      ParseOfTail(a, true, max);
      ParseOfTail(a + b, true, max);
    } else {
      var header, frame, more := SplitFrame(a, max);
      ParseResumes(more, b, max);
      ParsePeels(header, frame, more + b, max);
      Regroup(header + frame, more, b);
      var p, q := Parse(more, max), Parse(Parse(more, max).rest + b, max);
      Regroup([frame], p.frames, q.frames);
    }
  }

  lemma StaysTooLong(a: seq<byte>, b: seq<byte>, max: nat)
    requires Tail(a, true, max)
    ensures Tail(a + b, true, max)
  {
    assert (a + b)[..FRAME_HEADER_LENGTH] == a[..FRAME_HEADER_LENGTH];
    DeclaredByFront(a);
    DeclaredByFront(a + b);
  }
}
