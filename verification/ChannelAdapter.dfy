/**
 The chat platform behind a channel: the calls it receives, with the platform's answer to each,
 and what a reader of the channel sees after them. Delivery of a chunked text follows
 ChannelAdapter.send_presentation (channels/base.py) and the fallback loop of
 stream_channel_message (channels/conversation.py).
 */
module ChannelAdapter {
  import opened Prelude
  import opened Chunking

  /** A send returns a message id or None, or raises, possibly after the platform showed the text. */
  datatype SendReply = Posted(id: Option<string>) | SendRaised(shown: bool)

  datatype Call =
    | Sent(text: string, replyTo: Option<string>, reply: SendReply)
    | Edited(id: string, text: string, applied: bool)

  /** What the message `id` reads after `calls`. */
  function Reads(calls: seq<Call>, id: string): Option<string> {
    if calls == [] then None else
    var last := calls[|calls| - 1];
    if last.Sent? && last.reply == Posted(Some(id)) then Some(last.text)
    else if last.Edited? && last.id == id && last.applied then Some(last.text)
    else Reads(calls[..|calls| - 1], id)
  }

  function Texts(calls: seq<Call>): seq<string> {
    seq(|calls|, i requires 0 <= i < |calls| => calls[i].text)
  }

  /** How many of `n` sends are made when they stop at the first one that raises; `i` are done. */
  function SendCount(n: nat, replies: nat -> SendReply, i: nat := 0): (k: nat)
    requires i <= n
    ensures i <= k <= n
    ensures forall j | i <= j < k - 1 :: replies(j).Posted?
    ensures k < n ==> i < k && replies(k - 1).SendRaised?
    decreases n - i
  {
    if i == n then n
    else if replies(i).SendRaised? then i + 1
    else SendCount(n, replies, i + 1)
  }

  function ChunkCall(chunks: seq<string>, replyTo: Option<string>, replies: nat -> SendReply, i: nat): Call
    requires i < |chunks|
  {
    Sent(chunks[i], if i == 0 then replyTo else None, replies(i))
  }

  /** The first `count` calls that deliver `chunks`: in order, the first one as the reply. */
  function Deliver(chunks: seq<string>, replyTo: Option<string>, replies: nat -> SendReply, count: nat): seq<Call>
    requires count <= |chunks|
  {
    seq(count, i requires 0 <= i < count => ChunkCall(chunks, replyTo, replies, i))
  }

  /** Chunk by chunk up to the first send that raises. */
  function Delivery(chunks: seq<string>, replyTo: Option<string>, replies: nat -> SendReply): seq<Call> {
    Deliver(chunks, replyTo, replies, SendCount(|chunks|, replies))
  }

  /** Nothing is skipped: chunks stay unsent exactly when a send other than the last one raises. */
  lemma DeliveryStopsOnlyAtRaise(chunks: seq<string>, replyTo: Option<string>, replies: nat -> SendReply)
    ensures Texts(Delivery(chunks, replyTo, replies)) <= chunks
    ensures Texts(Delivery(chunks, replyTo, replies)) == chunks
      <==> forall j: nat | j < |chunks| - 1 :: replies(j).Posted?
  {
    var texts, k := Texts(Delivery(chunks, replyTo, replies)), SendCount(|chunks|, replies);
    assert texts == chunks[..k];
  }

  /** Only the first chunk answers the message; every call carries its chunk and has its own answer. */
  lemma OnlyFirstReplies(chunks: seq<string>, replyTo: Option<string>, replies: nat -> SendReply, i: nat)
    requires i < |Delivery(chunks, replyTo, replies)|
    ensures var calls := Delivery(chunks, replyTo, replies);
      && |calls| <= |chunks|
      && calls[i].Sent? && calls[i].text == chunks[i] && calls[i].reply == replies(i)
      && (calls[i].replyTo == if i == 0 then replyTo else None)
  {
  }

  /** When every send is answered, the reader gets all of the text but whitespace at the cuts. */
  lemma DeliveryKeepsInk(text: string, limit: nat, replyTo: Option<string>, replies: nat -> SendReply)
    requires 1 <= limit
    requires forall j: nat | j < |Chunks(text, limit)| :: replies(j).Posted?
    ensures Ink(Join(Texts(Delivery(Chunks(text, limit), replyTo, replies)))) == Ink(text)
  {
    var chunks := Chunks(text, limit);
    DeliveryStopsOnlyAtRaise(chunks, replyTo, replies);
    ChunksKeepInk(text, limit);
  }

  class Adapter {
    var calls: seq<Call>

    constructor ()
      ensures calls == []
    {
      calls := [];
    }

    method Send(text: string, replyTo: Option<string>, reply: SendReply)
      modifies this
      ensures calls == old(calls) + [Sent(text, replyTo, reply)]
    {
      calls := calls + [Sent(text, replyTo, reply)];
    }

    method EditMessage(id: string, text: string, applied: bool)
      modifies this
      ensures calls == old(calls) + [Edited(id, text, applied)]
    {
      calls := calls + [Edited(id, text, applied)];
    }

    /**
     * The sending loop. The fallback of stream_channel_message runs the same loop and stops
     * quietly where send_presentation lets the exception through.
     */
    method SendChunks(chunks: seq<string>, replyTo: Option<string>, replies: nat -> SendReply)
      returns (first: Option<string>, raised: bool)
      modifies this
      ensures calls == old(calls) + Delivery(chunks, replyTo, replies)
      ensures raised <==> exists j: nat | j < |chunks| :: replies(j).SendRaised?
      ensures !raised && chunks != [] ==> replies(0) == Posted(first)
    {
      first, raised := None, false;
      for i := 0 to |chunks|
        invariant calls == old(calls) + Deliver(chunks, replyTo, replies, i)
        invariant SendCount(|chunks|, replies, i) == SendCount(|chunks|, replies)
        invariant forall j: nat | j < i :: replies(j).Posted?
        invariant i > 0 ==> replies(0) == Posted(first)
      {
        DeliverNext(chunks, replyTo, replies, i);
        Send(chunks[i], if i == 0 then replyTo else None, replies(i));
        if replies(i).SendRaised? {
          return None, true;
        }
        if i == 0 {
          first := replies(i).id;
        }
      }
    }

    /** Delivers a rendered presentation; `raised` is an exception passed on to the caller. */
    method SendPresentation(text: string, limit: nat, replyTo: Option<string>, replies: nat -> SendReply)
      returns (first: Option<string>, raised: bool)
      requires 1 <= limit
      modifies this
      ensures calls == old(calls) + Delivery(Chunks(text, limit), replyTo, replies)
      ensures raised <==> exists j: nat | j < |Chunks(text, limit)| :: replies(j).SendRaised?
      ensures !raised ==> replies(0) == Posted(first)
    {
      var chunks := ChunkText(text, limit);
      first, raised := SendChunks(chunks, replyTo, replies);
    }
  }

  lemma DeliverNext(chunks: seq<string>, replyTo: Option<string>, replies: nat -> SendReply, i: nat)
    requires i < |chunks|
    ensures Deliver(chunks, replyTo, replies, i + 1)
      == Deliver(chunks, replyTo, replies, i) + [ChunkCall(chunks, replyTo, replies, i)]
  {
  }
}
