/**
 The incremental frame splitter of packages/protocol/src/framing.ts, over the byte arrays it fills in place.

 Two ghost fields remember every byte pushed and every frame handed out since construction. `Valid` ties them
 together: whatever the chunks were, the frames handed out are those of one pass over all the bytes, and the header
 and block arrays hold exactly the bytes that pass leaves over.
 */
module FrameDecoders {
  import opened Framing
  import opened Options

  datatype Result<T> = Ok(value: T) | Err(error: Error)
  datatype Error =
    | RangeError
    | DecoderEnded
    | DecoderFailed
    | FrameTooLong(length: nat)
    | TruncatedFrame
    | IncompletePrefix
    | NotOnePayload

  datatype DecoderState = Open | Ended | Failed

  datatype HeaderOutcome = Incomplete | TooLong(length: nat) | Empty | Begins

  function Min(a: int, b: int): int { if a < b then a else b }

  /** The limit a decoder works with; only an integer between 0 and MAX_UINT32 is accepted. */
  function ResolveMaxFrameLength(maxFrameLength: Option<int>): (r: Result<nat>)
    ensures r.Ok? <==> maxFrameLength.None? || 0 <= maxFrameLength.value <= MAX_UINT32
    ensures r.Ok? ==> r.value <= MAX_UINT32
    ensures r.Err? ==> r.error == RangeError
  {
    var value := if maxFrameLength.Some? then maxFrameLength.value else DEFAULT_MAX_FRAME_LENGTH;
    if value < 0 || value > MAX_UINT32 then Err(RangeError) else Ok(value)
  }

  /** Copies `chunk[from..from + count]` into `target`, as `Uint8Array.set` on a `subarray` does. */
  method Copy(target: array<byte>, at: nat, chunk: seq<byte>, from: nat, count: nat)
    requires at + count <= target.Length && from + count <= |chunk|
    modifies target
    ensures target[..] == old(target[..at]) + chunk[from..from + count] + old(target[at + count..])
  {
    forall i | 0 <= i < count {
      target[at + i] := chunk[from + i];
    }
  }

  method EncodeFrame(payload: seq<byte>) returns (r: Result<array<byte>>)
    ensures r.Ok? <==> |payload| <= MAX_UINT32
    ensures r.Ok? ==> fresh(r.value) && r.value[..] == Encode(payload)
    ensures r.Err? ==> r.error == RangeError
  {
    if |payload| > MAX_UINT32 {
      return Err(RangeError);
    }
    var length := |payload|;
    var frame := new byte[FRAME_HEADER_LENGTH + length];
    frame[0] := Digit(length, 0x100_0000);
    frame[1] := Digit(length, 0x1_0000);
    frame[2] := Digit(length, 0x100);
    frame[3] := Digit(length, 1);
    assert frame[..FRAME_HEADER_LENGTH] == Header(length);
    Copy(frame, FRAME_HEADER_LENGTH, payload, 0, length);
    r := Ok(frame);
  }

  /** Accepts exactly the encodings of one payload within the limit. */
  method AssertCompleteFrame(frame: seq<byte>, maxFrameLength: Option<int>) returns (r: Result<()>)
    ensures r.Ok? <==> ResolveMaxFrameLength(maxFrameLength).Ok?
                       && exists payload | |payload| <= MAX_UINT32 ::
                            |payload| <= ResolveMaxFrameLength(maxFrameLength).value && frame == Encode(payload)
  {
    if |frame| < FRAME_HEADER_LENGTH {
      return Err(IncompletePrefix);
    }
    var length := Declared(frame);
    var limit := ResolveMaxFrameLength(maxFrameLength);
    if limit.Err? {
      return Err(limit.error);
    }
    hide Declared, Encode;
    EncodingsOf(frame);
    if length > limit.value {
      return Err(FrameTooLong(length));
    }
    if |frame| != FRAME_HEADER_LENGTH + length {
      return Err(NotOnePayload);
    }
    assert frame == Encode(frame[FRAME_HEADER_LENGTH..]);
    return Ok(());
  }

  /** Bytes are the encoding of a payload exactly if their header declares the number of bytes that follow it. */
  lemma EncodingsOf(frame: seq<byte>)
    requires |frame| >= FRAME_HEADER_LENGTH
    ensures |frame| == FRAME_HEADER_LENGTH + Declared(frame)
            ==> |frame| - FRAME_HEADER_LENGTH <= MAX_UINT32 && frame == Encode(frame[FRAME_HEADER_LENGTH..])
    ensures forall payload | |payload| <= MAX_UINT32 && frame == Encode(payload) :: |payload| == Declared(frame)
    ensures |frame| != FRAME_HEADER_LENGTH + Declared(frame)
            ==> forall payload | |payload| <= MAX_UINT32 :: frame != Encode(payload)
  {
    hide Declared, Header, Encode;
    if |frame| == FRAME_HEADER_LENGTH + Declared(frame) {
      EncodesItself(frame);
    }
    forall payload | |payload| <= MAX_UINT32 && frame == Encode(payload)
      ensures |payload| == Declared(frame) && |frame| == FRAME_HEADER_LENGTH + Declared(frame)
    {
      EncodeDeclares(payload);
    }
  }

  lemma EncodesItself(frame: seq<byte>)
    requires |frame| >= FRAME_HEADER_LENGTH && |frame| == FRAME_HEADER_LENGTH + Declared(frame)
    ensures frame == Encode(frame[FRAME_HEADER_LENGTH..])
  {
    hide Declared, Header;
    DeclaredByFront(frame);
    HeaderOfDeclared(frame[..FRAME_HEADER_LENGTH]);
  }

  lemma EncodeDeclares(payload: seq<byte>)
    requires |payload| <= MAX_UINT32
    ensures |Encode(payload)| == FRAME_HEADER_LENGTH + |payload| && Declared(Encode(payload)) == |payload|
  {
    hide Declared, Header;
    DeclaredByFront(Encode(payload));
    assert Encode(payload)[..FRAME_HEADER_LENGTH] == Header(|payload|);
  }

  /** The bytes held in a list of blocks. */
  function Joined(blocks: seq<array<byte>>): seq<byte>
    reads blocks
  {
    if blocks == [] then [] else Joined(blocks[..|blocks| - 1]) + blocks[|blocks| - 1][..]
  }

  lemma JoinedAll(blocks: seq<array<byte>>)
    ensures blocks == [] ==> Joined(blocks) == []
    ensures blocks != [] ==> Joined(blocks) == Joined(blocks[..|blocks| - 1]) + blocks[|blocks| - 1][..]
  {}

  lemma NothingJoined(blocks: seq<array<byte>>)
    ensures Joined(blocks[..0]) == []
  {}

  lemma {:induction false} JoinedNext(blocks: seq<array<byte>>, i: nat)
    requires i < |blocks|
    ensures Joined(blocks[..i + 1]) == Joined(blocks[..i]) + blocks[i][..]
    ensures |Joined(blocks[..i + 1])| <= |Joined(blocks)|
    decreases |blocks| - i
  {
    assert blocks[..i + 1][..i] == blocks[..i];
    if i + 1 == |blocks| {
      assert blocks[..i + 1] == blocks;
    } else {
      JoinedNext(blocks, i + 1);
    }
  }

  /** One `set` of the copying loop. */
  method CopyBlock(payload: array<byte>, offset: nat, block: array<byte>) returns (next: nat)
    requires payload != block && offset + block.Length <= payload.Length
    modifies payload
    ensures next == offset + block.Length && payload[..next] == old(payload[..offset]) + block[..]
  {
    Copy(payload, offset, block[..], 0, block.Length);
    next := offset + block.Length;
  }

  method JoinBlocks(blocks: seq<array<byte>>, expected: nat) returns (payload: array<byte>)
    requires expected == |Joined(blocks)|
    ensures fresh(payload) && payload[..] == Joined(blocks)
  {
    hide Joined;
    NothingJoined(blocks);
    payload := new byte[expected];
    var offset := 0;
    for i := 0 to |blocks|
      invariant offset == |Joined(blocks[..i])| <= |Joined(blocks)|
      invariant payload[..offset] == Joined(blocks[..i])
    {
      JoinedNext(blocks, i);
      offset := CopyBlock(payload, offset, blocks[i]);
    }
    assert blocks[..|blocks|] == blocks;
  }

  function Contents(frames: seq<array<byte>>): seq<seq<byte>>
    reads frames
  {
    seq(|frames|, i requires 0 <= i < |frames| reads frames => frames[i][..])
  }

  class FrameDecoder {
    const header: array<byte>
    const maxFrameLength: nat
    var headerLength: nat
    var payloadBlocks: seq<array<byte>>
    var currentPayloadBlock: array?<byte>
    var currentPayloadBlockLength: nat
    var expectedPayloadLength: Option<nat>
    var payloadLength: nat
    var state: DecoderState

    /** Every byte pushed so far, and every frame handed out. */
    ghost var received: seq<byte>
    ghost var returned: seq<seq<byte>>

    /** The payload bytes in the blocks: all blocks but the last are full. */
    ghost function Payload(): seq<byte>
      reads this`payloadBlocks, this`currentPayloadBlockLength, payloadBlocks
    {
      if payloadBlocks == [] then []
      else
        var last := payloadBlocks[|payloadBlocks| - 1];
        Joined(payloadBlocks[..|payloadBlocks| - 1]) + last[..Min(currentPayloadBlockLength, last.Length)]
    }

    /** The block list while a payload of `expected` bytes is being collected. */
    ghost predicate BlocksOk(expected: nat)
      reads this`payloadBlocks, this`currentPayloadBlock, this`currentPayloadBlockLength, this`payloadLength,
            payloadBlocks
    {
      && header !in payloadBlocks
      && (forall i, j | 0 <= i < j < |payloadBlocks| :: payloadBlocks[i] != payloadBlocks[j])
      && if payloadBlocks == [] then currentPayloadBlock == null && currentPayloadBlockLength == 0 && payloadLength == 0
         else
           var last := payloadBlocks[|payloadBlocks| - 1];
           var full := Joined(payloadBlocks[..|payloadBlocks| - 1]);
           && currentPayloadBlock == last
           && currentPayloadBlockLength <= last.Length <= PAYLOAD_BLOCK_SIZE
           && payloadLength == |full| + currentPayloadBlockLength
           && |full| + last.Length <= expected
    }

    /** No block is left without a byte in it. */
    ghost predicate NoEmptyBlock()
      reads this`payloadBlocks, this`currentPayloadBlockLength
    {
      payloadBlocks != [] ==> 0 < currentPayloadBlockLength
    }

    ghost predicate Shape()
      reads this`headerLength, this`expectedPayloadLength, this`payloadBlocks, this`currentPayloadBlock,
            this`currentPayloadBlockLength, this`payloadLength,
            header, payloadBlocks
    {
      && header.Length == FRAME_HEADER_LENGTH
      && headerLength < FRAME_HEADER_LENGTH
      && maxFrameLength <= MAX_UINT32
      && (expectedPayloadLength.None? ==> BlocksOk(0) && payloadBlocks == [])
      && (expectedPayloadLength.Some? ==>
            var expected := expectedPayloadLength.value;
            headerLength == 0 && 0 < expected <= maxFrameLength && Declared(header[..]) == expected
            && BlocksOk(expected) && NoEmptyBlock() && payloadLength <= expected)
    }

    /** Between two passes of the loop no payload is complete. */
    ghost predicate Waiting(): (w: bool)
      reads this`headerLength, this`expectedPayloadLength, this`payloadBlocks, this`currentPayloadBlock,
            this`currentPayloadBlockLength, this`payloadLength,
            header, payloadBlocks
      ensures w ==> Shape()
    {
      Shape() && (expectedPayloadLength.Some? ==> payloadLength < expectedPayloadLength.value)
    }

    /** The bytes taken in and not yet part of a frame. */
    ghost function Pending(): (p: seq<byte>)
      reads this`headerLength, this`expectedPayloadLength, this`payloadBlocks, this`currentPayloadBlock,
            this`currentPayloadBlockLength, this`payloadLength,
            header, payloadBlocks
      requires Shape()
    {
      if expectedPayloadLength.Some? then header[..] + Payload() else header[..headerLength]
    }

    ghost predicate Blank()
      reads this
    {
      headerLength == 0 && payloadBlocks == [] && currentPayloadBlock == null && currentPayloadBlockLength == 0
      && expectedPayloadLength == None && payloadLength == 0
    }

    ghost predicate Valid()
      reads this, header, payloadBlocks
    {
      && Waiting()
      && (state != Failed ==> Parse(received, maxFrameLength) == Parsed(returned, Pending(), false))
      && (state == Ended ==> Pending() == [])
      && (state == Failed ==> Blank() && returned <= Parse(received, maxFrameLength).frames)
    }

    /** The bytes allocated for the payload in progress. */
    ghost function Storage(): nat
      reads this, payloadBlocks
    {
      |Joined(payloadBlocks)|
    }

    constructor (limit: nat)
      requires limit <= MAX_UINT32
      ensures Valid() && fresh(header) && fresh(payloadBlocks)
      ensures maxFrameLength == limit && state == Open && received == [] && returned == []
    {
      header := new byte[FRAME_HEADER_LENGTH];
      maxFrameLength := limit;
      headerLength := 0;
      payloadBlocks := [];
      currentPayloadBlock := null;
      currentPayloadBlockLength := 0;
      expectedPayloadLength := None;
      payloadLength := 0;
      state := Open;
      received := [];
      returned := [];
    }

    /** Less than one block is allocated beyond the payload bytes that have arrived. */
    lemma StorageBounded()
      requires Valid()
      ensures Storage() < payloadLength + PAYLOAD_BLOCK_SIZE
    {}

    /** Takes header bytes from the chunk until the header is full or the chunk is used up. */
    method AbsorbHeader(chunk: seq<byte>, from: nat) returns (to: nat)
      requires Shape() && expectedPayloadLength.None? && from < |chunk|
      modifies this`headerLength, header
      ensures from < to <= |chunk| && headerLength == old(headerLength) + (to - from) <= FRAME_HEADER_LENGTH
      ensures headerLength < FRAME_HEADER_LENGTH ==> to == |chunk|
      ensures header[..headerLength] == old(Pending()) + chunk[from..to]
    {
      var headerBytes := Min(FRAME_HEADER_LENGTH - headerLength, |chunk| - from);
      Copy(header, headerLength, chunk, from, headerBytes);
      headerLength := headerLength + headerBytes;
      to := from + headerBytes;
    }

    /** Takes payload bytes from the chunk until the payload is complete or the chunk is used up. */
    method AbsorbPayload(chunk: seq<byte>, from: nat, expected: nat) returns (to: nat)
      requires BlocksOk(expected) && NoEmptyBlock() && payloadLength <= expected && from <= |chunk|
      modifies this`payloadBlocks, this`currentPayloadBlock, this`currentPayloadBlockLength, this`payloadLength,
               payloadBlocks
      ensures BlocksOk(expected) && NoEmptyBlock() && from <= to <= |chunk|
      ensures payloadLength == old(payloadLength) + (to - from) <= expected
      ensures payloadLength < expected ==> to == |chunk|
      ensures Payload() == old(Payload()) + chunk[from..to]
      ensures GrownFrom(old(payloadBlocks))
    {
      to := from;
      while to < |chunk| && payloadLength < expected
        invariant BlocksOk(expected) && NoEmptyBlock() && from <= to <= |chunk|
        invariant payloadLength == old(payloadLength) + (to - from) <= expected
        invariant Payload() == old(Payload()) + chunk[from..to]
        invariant GrownFrom(old(payloadBlocks))
      {
        hide BlocksOk, Payload, NoEmptyBlock;
        ghost var was := to;
        to := AbsorbBlock(chunk, to, expected);
        SliceGrows(old(Payload()), chunk, from, was, to);
      }
    }

    /** One pass of the inner loop. */
    method AbsorbBlock(chunk: seq<byte>, from: nat, expected: nat) returns (to: nat)
      requires BlocksOk(expected) && NoEmptyBlock() && payloadLength < expected && from < |chunk|
      modifies this`payloadBlocks, this`currentPayloadBlock, this`currentPayloadBlockLength, this`payloadLength,
               payloadBlocks
      ensures BlocksOk(expected) && NoEmptyBlock() && from < to <= |chunk|
      ensures payloadLength == old(payloadLength) + (to - from) <= expected
      ensures Payload() == old(Payload()) + chunk[from..to]
      ensures GrownFrom(old(payloadBlocks))
    {
      hide BlocksOk, Payload;
      NextBlock(expected);
      to := FillBlock(chunk, from, expected);
    }

    /** Every block is one of `blocks` or was allocated since. */
    twostate predicate GrownFrom(blocks: seq<array<byte>>)
      reads this
    {
      forall i | 0 <= i < |payloadBlocks| :: payloadBlocks[i] in blocks || fresh(payloadBlocks[i])
    }

    /** Makes sure that the current block has room. */
    method NextBlock(expected: nat)
      requires BlocksOk(expected) && payloadLength < expected
      modifies this`payloadBlocks, this`currentPayloadBlock, this`currentPayloadBlockLength
      ensures BlocksOk(expected) && payloadBlocks != []
      ensures currentPayloadBlockLength < payloadBlocks[|payloadBlocks| - 1].Length
      ensures Payload() == old(Payload())
      ensures GrownFrom(old(payloadBlocks))
    {
      if currentPayloadBlock == null || currentPayloadBlockLength == currentPayloadBlock.Length {
        ghost var before := payloadBlocks;
        var block := new byte[Min(PAYLOAD_BLOCK_SIZE, expected - payloadLength)];
        JoinedAll(before);
        hide Joined;
        payloadBlocks := payloadBlocks + [block];
        currentPayloadBlock := block;
        currentPayloadBlockLength := 0;
        assert payloadBlocks[..|payloadBlocks| - 1] == before;
      }
    }

    method FillBlock(chunk: seq<byte>, from: nat, expected: nat) returns (to: nat)
      requires BlocksOk(expected) && payloadBlocks != [] && from < |chunk|
      requires currentPayloadBlockLength < payloadBlocks[|payloadBlocks| - 1].Length
      modifies this`currentPayloadBlockLength, this`payloadLength, payloadBlocks[|payloadBlocks| - 1]
      ensures BlocksOk(expected) && NoEmptyBlock() && from < to <= |chunk|
      ensures payloadLength == old(payloadLength) + (to - from) <= expected
      ensures Payload() == old(Payload()) + chunk[from..to]
    {
      hide Joined;
      var block := currentPayloadBlock;
      var payloadBytes := Min(block.Length - currentPayloadBlockLength, |chunk| - from);
      Copy(block, currentPayloadBlockLength, chunk, from, payloadBytes);
      currentPayloadBlockLength := currentPayloadBlockLength + payloadBytes;
      payloadLength := payloadLength + payloadBytes;
      to := from + payloadBytes;
    }

    /** Hands out the finished payload: the only block itself, or a fresh array joining all of them. */
    method TakePayload(expected: nat) returns (frame: array<byte>)
      requires BlocksOk(expected) && payloadLength == expected > 0
      modifies this`payloadBlocks, this`currentPayloadBlock, this`currentPayloadBlockLength,
               this`expectedPayloadLength, this`payloadLength
      ensures frame[..] == old(Payload()) && |old(Payload())| == expected
      ensures frame in old(payloadBlocks) || fresh(frame)
      ensures payloadBlocks == [] && currentPayloadBlock == null && currentPayloadBlockLength == 0
      ensures expectedPayloadLength == None && payloadLength == 0
    {
      var blocks := payloadBlocks;
      assert blocks == blocks[..|blocks| - 1] + [blocks[|blocks| - 1]];
      if |blocks| == 1 {
        frame := blocks[0];
      } else {
        frame := JoinBlocks(blocks, expected);
      }
      payloadBlocks := [];
      currentPayloadBlock := null;
      currentPayloadBlockLength := 0;
      expectedPayloadLength := None;
      payloadLength := 0;
    }

    /** Forgets the frame in progress; every later call fails. */
    method Fail()
      requires header.Length == FRAME_HEADER_LENGTH && maxFrameLength <= MAX_UINT32
      modifies this`state, this`headerLength, this`expectedPayloadLength, this`payloadBlocks,
               this`currentPayloadBlock, this`currentPayloadBlockLength, this`payloadLength
      ensures Waiting()
      ensures state == Failed && Blank()
    {
      state := Failed;
      headerLength := 0;
      payloadBlocks := [];
      currentPayloadBlock := null;
      currentPayloadBlockLength := 0;
      expectedPayloadLength := None;
      payloadLength := 0;
    }

    /** The header half of one pass: collects the length prefix and acts on the length it declares. */
    method TakeHeader(chunk: seq<byte>, from: nat) returns (to: nat, outcome: HeaderOutcome)
      requires Waiting() && expectedPayloadLength.None? && from < |chunk|
      modifies header, this`headerLength, this`expectedPayloadLength, this`payloadBlocks, this`currentPayloadBlock,
               this`currentPayloadBlockLength, this`payloadLength
      ensures from < to <= |chunk| && payloadBlocks == []
      ensures !outcome.TooLong? ==> Waiting()
      ensures outcome.Begins? <==> expectedPayloadLength.Some?
      ensures var bytes := old(Pending()) + chunk[from..];
              match outcome
              case Incomplete => to == |chunk| && Pending() == bytes
              case TooLong(length) => DeclaresTooMuch(bytes, maxFrameLength) && length == Declared(bytes)
              case Empty => Pending() == [] && Parse(bytes, maxFrameLength) == Prefixed([], Parse(chunk[to..], maxFrameLength))
              case Begins => Pending() + chunk[to..] == bytes
    {
      hide Declared, Parse, Prefixed;
      ghost var bytes := Pending() + chunk[from..];
      to := AbsorbHeader(chunk, from);
      assert chunk[from..] == chunk[from..to] + chunk[to..];
      Regroup(old(Pending()), chunk[from..to], chunk[to..]);
      if headerLength < FRAME_HEADER_LENGTH {
        return to, Incomplete;
      }
      assert bytes == header[..] + chunk[to..] && bytes[..FRAME_HEADER_LENGTH] == header[..];
      DeclaredByFront(bytes);
      var frameLength := Declared(header[..]);
      headerLength := 0;
      if frameLength > maxFrameLength {
        return to, TooLong(frameLength);
      }
      if frameLength == 0 {
        ParsePeels(header[..], [], chunk[to..], maxFrameLength);
        assert header[..] + [] == header[..];
        return to, Empty;
      }
      expectedPayloadLength := Some(frameLength);
      payloadBlocks := [];
      currentPayloadBlock := null;
      currentPayloadBlockLength := 0;
      payloadLength := 0;
      assert header[..] + [] == header[..];
      return to, Begins;
    }

    /** The payload half of one pass: collects payload bytes and hands out the payload once it is complete. */
    method TakeBody(chunk: seq<byte>, from: nat) returns (to: nat, frame: Option<array<byte>>)
      requires Waiting() && expectedPayloadLength.Some?
      requires from <= |chunk|
      modifies this`expectedPayloadLength, this`payloadBlocks, this`currentPayloadBlock,
               this`currentPayloadBlockLength, this`payloadLength, payloadBlocks
      ensures from <= to <= |chunk| && Waiting() && GrownFrom(old(payloadBlocks))
      ensures from < |chunk| ==> from < to
      ensures frame.None? ==> to == |chunk| && Pending() == old(Pending()) + chunk[from..]
      ensures frame.Some? ==>
                && Pending() == [] && payloadBlocks == [] && frame.value != header
                && (frame.value in old(payloadBlocks) || fresh(frame.value))
                && Parse(old(Pending()) + chunk[from..], maxFrameLength)
                   == Prefixed(frame.value[..], Parse(chunk[to..], maxFrameLength))
    {
      hide Declared, Parse, Prefixed, Joined, FrameDecoder.Payload;
      var expected := expectedPayloadLength.value;
      to := AbsorbPayload(chunk, from, expected);
      assert chunk[from..] == chunk[from..to] + chunk[to..];
      Regroup(header[..], old(Payload()), chunk[from..to]);
      Regroup(old(Pending()), chunk[from..to], chunk[to..]);
      if payloadLength == expected {
        var payload := TakePayload(expected);
        ParsePeels(header[..], payload[..], chunk[to..], maxFrameLength);
        frame := Some(payload);
      } else {
        frame := None;
      }
    }

    lemma PendingUndecided()
      requires Waiting()
      ensures Tail(Pending(), false, maxFrameLength)
    {
      hide Declared;
      if expectedPayloadLength.Some? {
        DeclaredByFront(Pending());
        assert Pending()[..FRAME_HEADER_LENGTH] == header[..];
      }
    }

    /** One pass of the outer loop: at most one frame comes out, and the rest of the stream keeps its meaning. */
    method TakePass(chunk: seq<byte>, from: nat)
      returns (to: nat, frame: Option<array<byte>>, tooLong: Option<nat>)
      requires Waiting() && from < |chunk|
      modifies header, this`headerLength, this`expectedPayloadLength, this`payloadBlocks, this`currentPayloadBlock,
               this`currentPayloadBlockLength, this`payloadLength, payloadBlocks
      ensures from < to <= |chunk| && GrownFrom(old(payloadBlocks))
      ensures frame.Some? ==> frame.value != header && payloadBlocks == []
                              && (frame.value in old(payloadBlocks) || fresh(frame.value))
      ensures tooLong.Some? ==> DeclaresTooMuch(old(Pending()) + chunk[from..], maxFrameLength)
                                && tooLong.value == Declared(old(Pending()) + chunk[from..])
      ensures tooLong.None? ==>
                && Waiting()
                && var rest := Parse(Pending() + chunk[to..], maxFrameLength);
                   Parse(old(Pending()) + chunk[from..], maxFrameLength)
                   == if frame.Some? then Prefixed(frame.value[..], rest) else rest
    {
      hide Declared, Parse, Prefixed, BlocksOk, Payload, Joined;
      to, frame, tooLong := from, None, None;
      if expectedPayloadLength.None? {
        var outcome;
        to, outcome := TakeHeader(chunk, to);
        if outcome.TooLong? {
          return to, None, Some(outcome.length);
        }
        if outcome.Incomplete? {
          assert Pending() + chunk[to..] == Pending();
          return;
        }
        if outcome.Empty? {
          var empty := new byte[0];
          assert empty[..] == [] && Pending() + chunk[to..] == chunk[to..];
          return to, Some(empty), None;
        }
      }
      to, frame := TakeBody(chunk, to);
      assert if frame.Some? then Pending() + chunk[to..] == chunk[to..] else Pending() + chunk[to..] == Pending();
    }

    /** The loop of an open decoder over one chunk, up to the end of the chunk or a header that declares too much. */
    method SplitChunk(chunk: seq<byte>) returns (frames: seq<array<byte>>, tooLong: Option<nat>)
      requires Waiting()
      modifies header, this`headerLength, this`expectedPayloadLength, this`payloadBlocks, this`currentPayloadBlock,
               this`currentPayloadBlockLength, this`payloadLength, payloadBlocks
      ensures var p := Parse(old(Pending()) + chunk, maxFrameLength);
              && p.tooLong == tooLong.Some?
              && (tooLong.Some? ==> DeclaresTooMuch(p.rest, maxFrameLength) && tooLong.value == Declared(p.rest))
              && (tooLong.None? ==> Waiting() && p == Parsed(Contents(frames), Pending(), false))
      ensures tooLong.None? ==> NotHeld(frames)
      ensures GrownFrom(old(payloadBlocks))
    {
      hide Declared, Parse, Prefixed, BlocksOk, Payload, Joined, Shape, Contents, Undecided, Pending, Ahead, Waiting;
      ghost var whole := Parse(Pending() + chunk, maxFrameLength);
      var chunkOffset := 0;
      frames, tooLong := [], None;
      AheadNothing(whole);
      AllOf(Pending(), chunk);
      while chunkOffset < |chunk|
        invariant chunkOffset <= |chunk| && Waiting() && tooLong == None
        invariant whole == Ahead(Contents(frames), Parse(Pending() + chunk[chunkOffset..], maxFrameLength))
        invariant GrownFrom(old(payloadBlocks))
        invariant NotHeld(frames)
      {
        ghost var bytes, contents := Pending() + chunk[chunkOffset..], Contents(frames);
        var frame;
        chunkOffset, frame, tooLong := TakePass(chunk, chunkOffset);
        if tooLong.Some? {
          ParseOfTail(bytes, true, maxFrameLength);
          AheadTail(contents, bytes, true);
          return;
        }
        assert Contents(frames) == contents;
        if frame.Some? {
          EmitAhead(frames, frame.value, whole, Parse(Pending() + chunk[chunkOffset..], maxFrameLength));
          frames := frames + [frame.value];
        }
      }
      PendingUndecided();
      ParseOfTail(Pending(), false, maxFrameLength);
      AllOf(Pending(), chunk);
      AheadTail(Contents(frames), Pending(), false);
    }

    /**
     Takes a chunk in and hands out the frames it completes. The first clause for an open decoder says what one call
     does in terms of what was pending; `Valid` carries it over the whole stream.
     */
    method Push(chunk: seq<byte>) returns (r: Result<seq<array<byte>>>)
      requires Valid()
      modifies this, header, payloadBlocks
      ensures Valid()
      ensures old(state) == Ended ==> r == Err(DecoderEnded) && state == Ended
      ensures old(state) == Failed ==> r == Err(DecoderFailed) && state == Failed
      ensures old(state) != Open ==> received == old(received) && returned == old(returned)
      ensures old(state) == Open ==>
                var p := Parse(old(Pending()) + chunk, maxFrameLength);
                && received == old(received) + chunk
                && if p.tooLong then
                     && state == Failed && DeclaresTooMuch(p.rest, maxFrameLength)
                     && r == Err(FrameTooLong(Declared(p.rest))) && returned == old(returned)
                   else
                     && state == Open && r.Ok? && Contents(r.value) == p.frames
                     && Pending() == p.rest && returned == old(returned) + p.frames
      ensures old(state) == Open ==> (r.Err? <==> Parse(received, maxFrameLength).tooLong)
      ensures r.Ok? ==> NotHeld(r.value)
      ensures GrownFrom(old(payloadBlocks))
    {
      hide Declared, Parse, Prefixed, Pending;
      if state == Ended {
        return Err(DecoderEnded);
      }
      if state == Failed {
        return Err(DecoderFailed);
      }
      ParseResumes(received, chunk, maxFrameLength);
      assert header.Length == FRAME_HEADER_LENGTH && maxFrameLength <= MAX_UINT32;
      hide Shape, BlocksOk, Joined;
      var frames, tooLong := SplitChunk(chunk);
      received := received + chunk;
      if tooLong.Some? {
        Fail();
        return Err(FrameTooLong(tooLong.value));
      }
      returned := returned + Contents(frames);
      return Ok(frames);
    }

    /** Ends the stream; succeeds exactly on a frame boundary, that is, if all bytes pushed are whole frames. */
    method End() returns (r: Result<()>)
      requires Valid()
      modifies this
      ensures Valid() && received == old(received) && returned == old(returned)
      ensures old(state) == Ended ==> r == Err(DecoderEnded) && state == Ended
      ensures old(state) == Failed ==> r == Err(DecoderFailed) && state == Failed
      ensures old(state) == Open ==> (r.Ok? <==> Parse(received, maxFrameLength) == Parsed(returned, [], false))
      ensures old(state) == Open ==> if r.Ok? then state == Ended else state == Failed && r == Err(TruncatedFrame)
    {
      hide Declared, Parse, Joined;
      if state == Ended {
        return Err(DecoderEnded);
      }
      if state == Failed {
        return Err(DecoderFailed);
      }
      if headerLength != 0 || expectedPayloadLength.Some? {
        Fail();
        return Err(TruncatedFrame);
      }
      state := Ended;
      return Ok(());
    }

    /** No frame handed out shares an array with the decoder. */
    ghost predicate NotHeld(frames: seq<array<byte>>)
      reads this
    {
      forall i | 0 <= i < |frames| :: frames[i] != header && frames[i] !in payloadBlocks
    }
  }

  lemma SliceGrows<T>(base: seq<T>, s: seq<T>, from: nat, mid: nat, to: nat)
    requires from <= mid <= to <= |s|
    ensures base + s[from..mid] + s[mid..to] == base + s[from..to]
  {
    assert s[from..mid] + s[mid..to] == s[from..to];
  }

  function Flattened(chunks: seq<seq<byte>>): seq<byte> {
    if chunks == [] then [] else Flattened(chunks[..|chunks| - 1]) + chunks[|chunks| - 1]
  }

  ghost predicate Encodes(payloads: seq<seq<byte>>, limit: nat, stream: seq<byte>) {
    AllWithin(payloads, limit) && AllWithin(payloads, MAX_UINT32) && stream == EncodeAll(payloads)
  }

  lemma ParsedWhole(payloads: seq<seq<byte>>, limit: nat, stream: seq<byte>)
    ensures Parse(stream, limit) == Parsed(payloads, [], false) <==> Encodes(payloads, limit, stream)
  {
    hide Parse, EncodeAll;
    ParseIsExact(stream, limit, payloads, [], false);
  }

  /** Once the bytes so far declare too much, no continuation is a sequence of whole frames. */
  lemma {:induction false} RefusedForGood(chunks: seq<seq<byte>>, i: nat, limit: nat)
    requires i <= |chunks| && Parse(Flattened(chunks[..i]), limit).tooLong
    ensures Parse(Flattened(chunks), limit).tooLong
    decreases |chunks| - i
  {
    hide Parse;
    if i == |chunks| {
      assert chunks[..i] == chunks;
    } else {
      assert chunks[..i + 1][..i] == chunks[..i];
      ParseResumes(Flattened(chunks[..i]), chunks[i], limit);
      RefusedForGood(chunks, i + 1, limit);
    }
  }

  /** However a stream is cut into chunks, a decoder gives the payloads whose encodings it is, or fails if there are none. */
  method DecodeChunks(chunks: seq<seq<byte>>, limit: nat) returns (r: Result<seq<seq<byte>>>)
    requires limit <= MAX_UINT32
    ensures forall payloads :: r == Ok(payloads) <==> Encodes(payloads, limit, Flattened(chunks))
  {
    hide Parse, Encodes, FrameDecoder.Waiting, FrameDecoder.Pending;
    var decoder := new FrameDecoder(limit);
    var frames: seq<seq<byte>> := [];
    for i := 0 to |chunks|
      invariant decoder.Valid() && decoder.state == Open && decoder.maxFrameLength == limit
      invariant fresh(decoder) && fresh(decoder.header)
      invariant forall j | 0 <= j < |decoder.payloadBlocks| :: fresh(decoder.payloadBlocks[j])
      invariant decoder.received == Flattened(chunks[..i]) && decoder.returned == frames
    {
      assert chunks[..i + 1][..i] == chunks[..i];
      var pushed := decoder.Push(chunks[i]);
      if pushed.Err? {
        RefusedForGood(chunks, i + 1, limit);
        forall payloads ensures !Encodes(payloads, limit, Flattened(chunks)) {
          ParsedWhole(payloads, limit, Flattened(chunks));
        }
        return Err(pushed.error);
      }
      frames := frames + Contents(pushed.value);
    }
    assert chunks[..|chunks|] == chunks;
    forall payloads
      ensures Parse(Flattened(chunks), limit) == Parsed(payloads, [], false) <==> Encodes(payloads, limit, Flattened(chunks))
    {
      ParsedWhole(payloads, limit, Flattened(chunks));
    }
    var ended := decoder.End();
    r := if ended.Ok? then Ok(frames) else Err(ended.error);
  }

  /** The parse of a stream whose first frames are `frames`. */
  function Ahead(frames: seq<seq<byte>>, p: Parsed): Parsed {
    p.(frames := frames + p.frames)
  }

  lemma AheadNothing(p: Parsed)
    ensures Ahead(Contents([]), p) == p
  {
    assert Contents([]) + p.frames == p.frames;
  }

  lemma AheadTail(frames: seq<seq<byte>>, rest: seq<byte>, tooLong: bool)
    ensures Ahead(frames, Parsed([], rest, tooLong)) == Parsed(frames, rest, tooLong)
  {}

  lemma AllOf<T>(base: seq<T>, s: seq<T>)
    ensures base + s[0..] == base + s && base + s[|s|..] == base
  {}

  lemma EmitAhead(frames: seq<array<byte>>, frame: array<byte>, whole: Parsed, rest: Parsed)
    requires whole == Ahead(Contents(frames), Prefixed(frame[..], rest))
    ensures whole == Ahead(Contents(frames + [frame]), rest)
  {
    assert Contents(frames + [frame]) == Contents(frames) + [frame[..]];
    Regroup(Contents(frames), [frame[..]], rest.frames);
  }
}
