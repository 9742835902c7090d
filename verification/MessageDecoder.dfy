/**
 `ValidatedMessageDecoder` (packages/protocol/src/codec.ts): frames are decoded and validated as they come in. Decoding
 one payload is a parameter, since the CBOR and schema libraries are not modelled.
 */
module MessageDecoders {
  import opened FrameDecoders
  import opened Framing
  import opened Options

  /** The messages of the payloads before the first that is none. */
  function Messages<T>(parse: seq<byte> -> Option<T>, payloads: seq<seq<byte>>): seq<T> {
    if payloads == [] || parse(payloads[0]).None? then []
    else [parse(payloads[0]).value] + Messages(parse, payloads[1..])
  }

  predicate AllParse<T>(parse: seq<byte> -> Option<T>, payloads: seq<seq<byte>>) {
    forall i | 0 <= i < |payloads| :: parse(payloads[i]).Some?
  }

  lemma {:induction false} MessagesOfBoth<T>(parse: seq<byte> -> Option<T>, a: seq<seq<byte>>, b: seq<seq<byte>>)
    requires AllParse(parse, a)
    ensures Messages(parse, a + b) == Messages(parse, a) + Messages(parse, b)
    decreases |a|
  {
    if a == [] {
      assert a + b == b;
    } else {
      MessagesOfBoth(parse, a[1..], b);
      assert (a + b)[0] == a[0] && (a + b)[1..] == a[1..] + b;
    }
  }

  lemma OneMessage<T>(parse: seq<byte> -> Option<T>, payload: seq<byte>)
    requires parse(payload).Some?
    ensures Messages(parse, [payload]) == [parse(payload).value]
  {
    var rest: seq<seq<byte>> := [];
    assert [payload][1..] == rest;
  }

  class ValidatedMessageDecoder<T> {
    const parse: seq<byte> -> Option<T>
    const frames: FrameDecoder
    var failed: bool

    /** Every message handed out since construction. */
    ghost var delivered: seq<T>

    /** Unless it has failed, all payloads of the stream so far were messages and have been handed out. */
    ghost predicate Valid()
      reads this, frames, frames.header, frames.payloadBlocks
    {
      && frames.Valid()
      && (!failed ==> frames.state != Failed && AllParse(parse, frames.returned)
                      && delivered == Messages(parse, frames.returned))
    }

    constructor (limit: nat, parse: seq<byte> -> Option<T>)
      requires limit <= MAX_UINT32
      ensures Valid() && fresh(frames) && fresh(frames.header) && fresh(frames.payloadBlocks)
      ensures this.parse == parse && frames.maxFrameLength == limit
      ensures !failed && frames.state == Open && frames.received == [] && delivered == []
    {
      this.parse := parse;
      frames := new FrameDecoder(limit);
      failed := false;
      delivered := [];
    }

    /** The messages of the payloads, up to the first that is none. */
    method ParseFrames(payloads: seq<array<byte>>) returns (messages: seq<T>, ok: bool)
      ensures ok <==> AllParse(parse, Contents(payloads))
      ensures ok ==> messages == Messages(parse, Contents(payloads))
    {
      messages, ok := [], true;
      for i := 0 to |payloads|
        invariant ok && AllParse(parse, Contents(payloads[..i])) && messages == Messages(parse, Contents(payloads[..i]))
      {
        var payload := payloads[i][..];
        assert Contents(payloads)[i] == payload;
        var message := parse(payload);
        if message.None? {
          return messages, false;
        }
        assert Contents(payloads[..i + 1]) == Contents(payloads[..i]) + [payload];
        MessagesOfBoth(parse, Contents(payloads[..i]), [payload]);
        OneMessage(parse, payload);
        messages := messages + [message.value];
      }
      assert payloads[..|payloads|] == payloads;
    }

    /**
     Hands out the messages that a chunk completes. Any failure is final: a header that declares too much, a payload
     that is no message, or input after the end.
     */
    method Push(chunk: seq<byte>) returns (r: Option<seq<T>>)
      requires Valid()
      modifies this, frames, frames.header, frames.payloadBlocks
      ensures Valid() && (r.None? <==> failed)
      ensures old(failed) ==> failed
      ensures r.Some? ==> delivered == old(delivered) + r.value
      ensures r.None? ==> delivered == old(delivered)
      ensures !old(failed) && old(frames.state) == Open ==>
                var stream := Parse(frames.received, frames.maxFrameLength);
                && frames.received == old(frames.received) + chunk
                && (r.Some? <==> !stream.tooLong && AllParse(parse, stream.frames))
                && (r.Some? ==> delivered == Messages(parse, stream.frames))
    {
      hide Parse, FrameDecoder.Waiting, FrameDecoder.Pending, FrameDecoder.NotHeld, AllParse, Messages;
      if failed {
        return None;
      }
      var pushed := frames.Push(chunk);
      if pushed.Err? {
        failed := true;
        return None;
      }
      AllOfBoth(parse, old(frames.returned), Contents(pushed.value));
      MessagesOfBoth(parse, old(frames.returned), Contents(pushed.value));
      var messages, ok := ParseFrames(pushed.value);
      if !ok {
        failed := true;
        return None;
      }
      delivered := delivered + messages;
      return Some(messages);
    }

    /** Ends the stream; fails for good unless it ends between two frames. */
    method End() returns (ok: bool)
      requires Valid()
      modifies this, frames
      ensures Valid() && delivered == old(delivered) && (ok <==> !failed)
      ensures old(failed) ==> failed
      ensures !old(failed) && old(frames.state) == Open ==>
                (ok <==> Parse(frames.received, frames.maxFrameLength) == Parsed(frames.returned, [], false))
    {
      hide Parse, FrameDecoder.Waiting, FrameDecoder.Pending, AllParse, Messages;
      if failed {
        return false;
      }
      var ended := frames.End();
      failed := ended.Err?;
      return !failed;
    }
  }

  lemma AllOfBoth<T>(parse: seq<byte> -> Option<T>, a: seq<seq<byte>>, b: seq<seq<byte>>)
    ensures AllParse(parse, a + b) <==> AllParse(parse, a) && AllParse(parse, b)
  {
    if AllParse(parse, a + b) {
      forall i | 0 <= i < |a|
        ensures parse(a[i]).Some?
      {
        assert (a + b)[i] == a[i];
      }
      forall i | 0 <= i < |b|
        ensures parse(b[i]).Some?
      {
        assert (a + b)[|a| + i] == b[i];
      }
    }
  }
}
