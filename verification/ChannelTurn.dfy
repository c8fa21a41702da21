/**
 One inbound channel message, channels/conversation.py: the streamed reply with its durable
 record, and the chunked fallback that runs when anything on the streaming path raises.
 */
module ChannelTurn {
  import opened Prelude
  import opened Chunking
  import opened ChannelAdapter
  import opened Coalescing

  /** What the database and the configuration answer before the model is asked. */
  datatype Preparation = SetupRaised | Refused(rejection: string) | Ready

  datatype Outcome = Completed | TimedOut | Errored | Unknown

  /** The finalizing call may fail before it commits, or after: the caller only sees it raise. */
  datatype Finalize = Committed | RaisedBeforeCommit | RaisedAfterCommit

  /** A durable turn of the conversation. */
  datatype Turn = Turn(assistant: string, platformId: Option<string>)

  /** Everything outside the streaming path. */
  datatype StreamEnv = StreamEnv(
    preparation: Preparation,
    rejectionReply: SendReply,
    tokens: seq<string>,
    moments: seq<Moment>,
    streamRaised: bool,
    outcome: Outcome,
    last: Moment,
    hydrateRaised: bool,
    finalize: Finalize)

  datatype ChatReply = ChatRaised | Answered(text: string)

  /** Everything outside the fallback path. */
  datatype FallbackEnv = FallbackEnv(
    preparation: Preparation,
    chat: ChatReply,
    finalize: Finalize,
    replies: nat -> SendReply)

  const REFUSAL := "I can't respond right now."
  const APOLOGY := "Sorry, I encountered an error processing your message. Please try again."
  const NO_ANSWER := "I processed your message but have no response to give."

  function Rejection(p: Preparation): string
    requires p.Refused?
  {
    if p.rejection == "" then REFUSAL else p.rejection
  }

  function StreamConfig(replyTo: Option<string>): Config {
    Config(40, 500, 300, replyTo)
  }

  // ---------- How the two paths end ----------

  ghost predicate Valid(env: StreamEnv) {
    |env.tokens| <= |env.moments|
  }

  ghost function Pushed(env: StreamEnv, replyTo: Option<string>): Stream
    requires Valid(env)
  {
    PushAll(StreamConfig(replyTo), env.tokens, env.moments)
  }

  /** The reply was streamed to its end, flush included. */
  ghost predicate Streamed(env: StreamEnv, replyTo: Option<string>)
    requires Valid(env)
  {
    && env.preparation.Ready?
    && !Pushed(env, replyTo).raised
    && !env.streamRaised
    && !Flushed(env, replyTo).raised
  }

  ghost function Flushed(env: StreamEnv, replyTo: Option<string>): Stream
    requires Valid(env)
  {
    AfterFlush(Pushed(env, replyTo), StreamConfig(replyTo), env.last)
  }

  /** The streaming path asks the database to record the turn. */
  ghost predicate Finalizes(env: StreamEnv, replyTo: Option<string>)
    requires Valid(env)
  {
    Streamed(env, replyTo) && env.outcome == Completed && !env.hydrateRaised
  }

  /** Something on the streaming path raised, so the message is processed a second time. */
  ghost predicate FallsBack(env: StreamEnv, replyTo: Option<string>)
    requires Valid(env)
  {
    match env.preparation
    case SetupRaised => true
    case Refused(_) => env.rejectionReply.SendRaised?
    case Ready =>
      || !Streamed(env, replyTo)
      || (env.outcome == Completed && (env.hydrateRaised || !env.finalize.Committed?))
  }

  ghost function StreamTurns(env: StreamEnv, replyTo: Option<string>): seq<Turn>
    requires Valid(env)
  {
    if Finalizes(env, replyTo) && !env.finalize.RaisedBeforeCommit?
    then [Turn(Join(env.tokens), FlushId(Flushed(env, replyTo)))]
    else []
  }

  /** The message id a successful flush returns. */
  function FlushId(f: Stream): Option<string> {
    if f.total == "" then None else f.messageId
  }

  ghost function StreamCalls(env: StreamEnv, replyTo: Option<string>): seq<Call>
    requires Valid(env)
  {
    match env.preparation
    case SetupRaised => []
    case Refused(_) => [Sent(Rejection(env.preparation), replyTo, env.rejectionReply)]
    case Ready =>
      if Pushed(env, replyTo).raised || env.streamRaised then Calls(Pushed(env, replyTo).touches)
      else Calls(Flushed(env, replyTo).touches)
  }

  predicate FallbackCommits(fb: FallbackEnv) {
    fb.preparation.Ready? && fb.chat.Answered? && !fb.finalize.RaisedBeforeCommit?
  }

  function FallbackTurns(fb: FallbackEnv): seq<Turn> {
    if FallbackCommits(fb) then [Turn(fb.chat.text, None)] else []
  }

  function FallbackChunks(fb: FallbackEnv, limit: nat): seq<string>
    requires 1 <= limit
  {
    if fb.preparation.Refused? then [Rejection(fb.preparation)]
    else if fb.preparation.SetupRaised? || fb.chat.ChatRaised? || !fb.finalize.Committed? then [APOLOGY]
    else if fb.chat.text == "" then [NO_ANSWER]
    else Chunks(fb.chat.text, limit)
  }

  ghost function Turns(env: StreamEnv, fb: FallbackEnv, replyTo: Option<string>): seq<Turn>
    requires Valid(env)
  {
    StreamTurns(env, replyTo) + if FallsBack(env, replyTo) then FallbackTurns(fb) else []
  }

  // ---------- The durable record ----------

  /**
   * One message records at most one turn, unless the streaming path's finalizing call raises after
   * its commit and the fallback commits as well: that, and only that, records two.
   */
  lemma TurnsPerMessage(env: StreamEnv, fb: FallbackEnv, replyTo: Option<string>)
    requires Valid(env)
    ensures |Turns(env, fb, replyTo)| <= 2
    ensures |Turns(env, fb, replyTo)| == 2
      <==> Finalizes(env, replyTo) && env.finalize.RaisedAfterCommit? && FallbackCommits(fb)
  {
  }

  /** With commits that never raise, a message has at most one turn. */
  lemma AtMostOneTurn(env: StreamEnv, fb: FallbackEnv, replyTo: Option<string>)
    requires Valid(env) && !env.finalize.RaisedAfterCommit?
    ensures |Turns(env, fb, replyTo)| <= 1
  {
    TurnsPerMessage(env, fb, replyTo);
  }

  /** The ambiguous commit does happen: a completed one-token stream with a working fallback. */
  lemma AmbiguousCommitRecordsTwice(m: Moment, replies: nat -> SendReply)
    requires m.reply == Posted(Some("1"))
    ensures var env := StreamEnv(Ready, m.reply, ["hi"], [m], false, Completed, m, false, RaisedAfterCommit);
      var fb := FallbackEnv(Ready, Answered("hello"), Committed, replies);
      Valid(env) && Turns(env, fb, None) == [Turn("hi", Some("1")), Turn("hello", None)]
  {
    var env := StreamEnv(Ready, m.reply, ["hi"], [m], false, Completed, m, false, RaisedAfterCommit);
    var cfg := StreamConfig(None);
    assert env.tokens[..0] == [];
    assert PushAll(cfg, [], [m]) == EMPTY;
    assert PushAll(cfg, env.tokens, env.moments) == Accept(EMPTY, "hi");
    assert Join(["hi"]) == "hi" + Join([]) == "hi";
  }

  /** A stream that ends without an exception but did not complete records nothing and is not retried. */
  lemma IncompleteRecordsNothing(env: StreamEnv, fb: FallbackEnv, replyTo: Option<string>)
    requires Valid(env) && Streamed(env, replyTo)
    ensures env.outcome != Completed ==> !FallsBack(env, replyTo) && Turns(env, fb, replyTo) == []
  {
  }

  /** A turn recorded by the streaming path is what the reader sees, if the flush's call took effect. */
  lemma RecordedTextIsShown(env: StreamEnv, replyTo: Option<string>, turn: Turn)
    requires Valid(env) && turn in StreamTurns(env, replyTo)
    requires var p, f := Pushed(env, replyTo), Flushed(env, replyTo);
      |f.touches| > |p.touches| ==> Effective(f.touches[|p.touches|].call)
    requires turn.platformId.Some? && turn.platformId.value != ""
    ensures Reads(StreamCalls(env, replyTo), turn.platformId.value) == Some(turn.assistant)
  {
    FlushShowsTotal(StreamConfig(replyTo), env.tokens, env.moments, env.last);
  }

  /**
   * With every send answered, the text of a turn recorded by the fallback reaches the reader if its
   * finalizing call returned; if that call raised after the commit, an apology does instead.
   */
  lemma FallbackTurnIsDelivered(fb: FallbackEnv, limit: nat, replyTo: Option<string>, turn: Turn)
    requires 1 <= limit && turn in FallbackTurns(fb) && turn.assistant != ""
    requires forall j: nat | j < |FallbackChunks(fb, limit)| :: fb.replies(j).Posted?
    ensures var sent := Texts(Delivery(FallbackChunks(fb, limit), replyTo, fb.replies));
      if fb.finalize.Committed? then Ink(Join(sent)) == Ink(turn.assistant) else sent == [APOLOGY]
  {
    if fb.finalize.Committed? {
      DeliveryKeepsInk(turn.assistant, limit, replyTo, fb.replies);
    } else {
      DeliveryStopsOnlyAtRaise([APOLOGY], replyTo, fb.replies);
    }
  }

  /**
   * A prepared reply is not lost: unless it was streamed to its end with another outcome than
   * "completed", a fallback that commits leaves the message with a turn.
   */
  lemma NoTurnIsLost(env: StreamEnv, fb: FallbackEnv, replyTo: Option<string>)
    requires Valid(env) && env.preparation.Ready?
    requires var p, f := Pushed(env, replyTo), Flushed(env, replyTo);
      !p.raised && !env.streamRaised && !f.raised ==> env.outcome == Completed
    requires fb.preparation.Ready? && fb.chat.Answered? && !fb.finalize.RaisedBeforeCommit?
    ensures Turns(env, fb, replyTo) != []
  {
  }

  /**
   * Only a prepared reply that was streamed to its end, and recorded if it completed, is not processed a
   * second time.
   */
  lemma NoFallbackMeansSettled(env: StreamEnv, replyTo: Option<string>)
    requires Valid(env) && env.preparation.Ready? && !FallsBack(env, replyTo)
    ensures !Pushed(env, replyTo).raised && !env.streamRaised && !Flushed(env, replyTo).raised
    ensures env.outcome == Completed ==>
      && env.finalize == Committed && !env.hydrateRaised
      && StreamTurns(env, replyTo) == [Turn(Join(env.tokens), FlushId(Flushed(env, replyTo)))]
  {
  }

  /** The calls of the whole message. */
  ghost function MessageCalls(env: StreamEnv, fb: FallbackEnv, replyTo: Option<string>, limit: nat): seq<Call>
    requires Valid(env) && 1 <= limit
  {
    StreamCalls(env, replyTo)
    + if FallsBack(env, replyTo) then Delivery(FallbackChunks(fb, limit), replyTo, fb.replies) else []
  }

  /** Only a stream that ends normally without any text leaves a message without a call to its channel. */
  lemma SilentOnlyWhenEmpty(env: StreamEnv, fb: FallbackEnv, replyTo: Option<string>, limit: nat)
    requires Valid(env) && 1 <= limit && MessageCalls(env, fb, replyTo, limit) == []
    ensures env.preparation.Ready? && !env.streamRaised && Join(env.tokens) == ""
  {
    FallbackSpeaks(fb, limit, replyTo);
    if !FallsBack(env, replyTo) && env.preparation.Ready? {
      NoFallbackMeansSettled(env, replyTo);
      if Join(env.tokens) != "" {
        FlushSpeaks(StreamConfig(replyTo), env.tokens, env.moments, env.last);
      }
      assert |Calls(Flushed(env, replyTo).touches)| == |Flushed(env, replyTo).touches|;
    }
  }

  lemma FallbackSpeaks(fb: FallbackEnv, limit: nat, replyTo: Option<string>)
    requires 1 <= limit
    ensures Delivery(FallbackChunks(fb, limit), replyTo, fb.replies) != []
  {
    assert FallbackChunks(fb, limit) != [];
    assert SendCount(|FallbackChunks(fb, limit)|, fb.replies) > 0;
  }

  /** After the flush of a stream with text some call has been made. */
  lemma FlushSpeaks(cfg: Config, tokens: seq<string>, moments: seq<Moment>, last: Moment)
    requires |tokens| <= |moments| && !PushAll(cfg, tokens, moments).raised && Join(tokens) != ""
    ensures AfterFlush(PushAll(cfg, tokens, moments), cfg, last).touches != []
  {
    RunKeepsInv(cfg, tokens, moments);
  }

  /**
   * The pace of a streamed reply: nothing is shown below 40 characters before the flush, every later
   * edit carries 500 characters more and comes 300 milliseconds after the call before it.
   */
  lemma ReplyPace(env: StreamEnv, replyTo: Option<string>, j: nat)
    requires Valid(env) && env.tokens != [] && !Pushed(env, replyTo).raised
    ensures var s := Pushed(env, replyTo);
      && (s.touches == [] ==> |Join(env.tokens)| < 40)
      && (1 <= j < |s.touches| && s.touches[j].call.Edited? ==>
            && |s.touches[j].call.text| - |s.touches[j - 1].call.text| >= 500
            && (s.touches[j].at - s.touches[j - 1].until) * 1000.0 >= 300.0)
  {
    FirstMessageIsPrompt(StreamConfig(replyTo), env.tokens, env.moments);
    RunKeepsInv(StreamConfig(replyTo), env.tokens, env.moments);
  }

  // ---------- The two functions ----------

  method ProcessChannelMessage(limit: nat, fb: FallbackEnv) returns (chunks: seq<string>, turns: seq<Turn>)
    requires 1 <= limit
    ensures chunks == FallbackChunks(fb, limit) && turns == FallbackTurns(fb)
    // A refusal is passed on, and is no turn.
    ensures fb.preparation.Refused? ==> turns == [] && chunks == [Rejection(fb.preparation)]
    // A turn is recorded exactly when the model answered and the record was committed.
    ensures turns != [] <==> fb.preparation.Ready? && fb.chat.Answered? && !fb.finalize.RaisedBeforeCommit?
    // The reader gets the answer, a fixed text for an empty one, or an apology when something raised.
    ensures fb.preparation.Ready? && fb.chat.Answered? && fb.finalize.Committed? ==>
      chunks == if fb.chat.text == "" then [NO_ANSWER] else Chunks(fb.chat.text, limit)
    ensures fb.preparation.SetupRaised? ==> chunks == [APOLOGY]
    ensures fb.preparation.Ready? && (fb.chat.ChatRaised? || !fb.finalize.Committed?) ==> chunks == [APOLOGY]
  {
    turns := [];
    match fb.preparation {
      case SetupRaised => return [APOLOGY], turns;
      case Refused(r) => return [if r == "" then REFUSAL else r], turns;
      case Ready =>
    }
    if fb.chat.ChatRaised? {
      return [APOLOGY], turns;
    }
    var assistant := fb.chat.text;
    if !fb.finalize.RaisedBeforeCommit? {
      turns := turns + [Turn(assistant, None)];
    }
    if !fb.finalize.Committed? {
      return [APOLOGY], turns;
    }
    if assistant == "" {
      return [NO_ANSWER], turns;
    }
    chunks := ChunkText(assistant, limit);
  }

  /** The try block of stream_channel_message; `raised` is control passing to its handler. */
  method TryStreaming(adapter: Adapter, replyTo: Option<string>, env: StreamEnv)
    returns (id: Option<string>, turns: seq<Turn>, raised: bool)
    requires Valid(env)
    modifies adapter
    ensures adapter.calls == old(adapter.calls) + StreamCalls(env, replyTo)
    ensures turns == StreamTurns(env, replyTo)
    ensures raised <==> FallsBack(env, replyTo)
    ensures !raised ==> id == if env.preparation.Ready? then FlushId(Flushed(env, replyTo)) else None
  {
    id, turns, raised := None, [], true;
    match env.preparation {
      case SetupRaised => return;
      case Refused(r) =>
        adapter.Send(if r == "" then REFUSAL else r, replyTo, env.rejectionReply);
        raised := env.rejectionReply.SendRaised?;
        return;
      case Ready =>
    }
    id, turns, raised := StreamReply(adapter, replyTo, env);
  }

  /** The rest of the block, once the turn is prepared. */
  method StreamReply(adapter: Adapter, replyTo: Option<string>, env: StreamEnv)
    returns (id: Option<string>, turns: seq<Turn>, raised: bool)
    requires Valid(env) && env.preparation.Ready?
    modifies adapter
    ensures adapter.calls == old(adapter.calls) + StreamCalls(env, replyTo)
    ensures turns == StreamTurns(env, replyTo)
    ensures raised <==> FallsBack(env, replyTo)
    ensures !raised ==> id == FlushId(Flushed(env, replyTo))
  {
    id, turns := None, [];
    var coalescer := new StreamCoalescer(adapter, StreamConfig(replyTo));
    var collected;
    collected, raised := PushTokens(coalescer, env.tokens, env.moments);
    ghost var pushed := coalescer.touches;
    assert coalescer.Now(raised) == Pushed(env, replyTo);
    if raised || env.streamRaised {
      raised := true;
      return;
    }
    id, raised := coalescer.Flush(env.last);
    assert coalescer.Now(raised) == Flushed(env, replyTo);
    CallsGrow(pushed, coalescer.touches);
    assert adapter.calls == old(adapter.calls) + Calls(coalescer.touches);
    if raised || env.outcome != Completed {
      return;
    }
    var assistantText := Join(collected);
    if env.hydrateRaised {
      raised := true;
      return;
    }
    if !env.finalize.RaisedBeforeCommit? {
      turns := turns + [Turn(assistantText, id)];
    }
    raised := !env.finalize.Committed?;
  }

  /** The token loop: each token is collected before it is pushed. */
  method PushTokens(coalescer: StreamCoalescer, tokens: seq<string>, moments: seq<Moment>)
    returns (collected: seq<string>, raised: bool)
    requires |tokens| <= |moments| && coalescer.Now(false) == EMPTY
    modifies coalescer, coalescer.adapter
    ensures coalescer.Now(raised) == PushAll(coalescer.config, tokens, moments)
    ensures coalescer.adapter.calls == old(coalescer.adapter.calls) + Calls(coalescer.touches)
    ensures !raised ==> collected == tokens
  {
    collected, raised := [], false;
    for n := 0 to |tokens|
      invariant collected == tokens[..n]
      invariant coalescer.Now(false) == PushAll(coalescer.config, collected, moments)
      invariant coalescer.adapter.calls == old(coalescer.adapter.calls) + Calls(coalescer.touches)
    {
      ghost var before := coalescer.touches;
      collected := collected + [tokens[n]];
      assert collected == tokens[..n + 1] && collected[..n] == tokens[..n];
      raised := coalescer.Push(tokens[n], moments[n]);
      CallsGrow(before, coalescer.touches);
      if raised {
        RaiseIsFinal(coalescer.config, tokens, moments, n + 1);
        return;
      }
    }
    assert tokens[..|tokens|] == tokens;
  }

  lemma CallsGrow(before: seq<Touch>, after: seq<Touch>)
    requires before <= after
    ensures Calls(after) == Calls(before) + Calls(after[|before|..])
  {
    assert forall i | 0 <= i < |before| :: after[i] == before[i];
  }

  /** Once a push has raised, the rest of the tokens is never read. */
  lemma {:induction false} RaiseIsFinal(cfg: Config, tokens: seq<string>, moments: seq<Moment>, n: nat)
    requires n <= |tokens| <= |moments| && PushAll(cfg, tokens[..n], moments).raised
    ensures PushAll(cfg, tokens, moments) == PushAll(cfg, tokens[..n], moments)
    decreases |tokens|
  {
    if n == |tokens| {
      assert tokens[..n] == tokens;
    } else {
      assert tokens[..|tokens| - 1][..n] == tokens[..n];
      RaiseIsFinal(cfg, tokens[..|tokens| - 1], moments, n);
    }
  }

  method StreamChannelMessage(
      adapter: Adapter, replyTo: Option<string>, limit: nat, env: StreamEnv, fb: FallbackEnv)
    returns (id: Option<string>, turns: seq<Turn>)
    requires Valid(env) && 1 <= limit
    modifies adapter
    ensures turns == Turns(env, fb, replyTo)
    ensures adapter.calls == old(adapter.calls) + StreamCalls(env, replyTo)
      + if FallsBack(env, replyTo) then Delivery(FallbackChunks(fb, limit), replyTo, fb.replies) else []
    ensures FallsBack(env, replyTo) ==> id == None
    // The streamed message's id is returned when nothing raised.
    ensures env.preparation.Ready? && !FallsBack(env, replyTo) ==> id == FlushId(Flushed(env, replyTo))
    // A refusal reaches the reader on either path.
    ensures env.preparation.Refused? && env.rejectionReply.Posted? ==>
      && turns == []
      && adapter.calls == old(adapter.calls) + [Sent(Rejection(env.preparation), replyTo, env.rejectionReply)]
  {
    var raised;
    id, turns, raised := TryStreaming(adapter, replyTo, env);
    if raised {
      var chunks, more := ProcessChannelMessage(limit, fb);
      var _, _ := adapter.SendChunks(chunks, replyTo, fb.replies);
      id, turns := None, turns + more;
    }
  }
}
