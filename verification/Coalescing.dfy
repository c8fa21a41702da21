/**
 The streaming coalescer of channels/streaming.py: tokens are buffered, the first message is sent
 once enough text is there, and later text replaces it by rate-limited edits of that message.
 */
module Coalescing {
  import opened Prelude
  import opened ChannelAdapter

  /** StreamConfig, with the message the stream replies to. The final delay only sleeps. */
  datatype Config = Config(minChars: int, maxChars: int, idleMs: int, replyTo: Option<string>)

  /** What the platform and the clock answer during one push or flush. */
  datatype Moment = Moment(reply: SendReply, applied: bool, now: real, after: real)

  /** A call made to the platform, with the clock readings before and after it. */
  datatype Touch = Touch(call: Call, at: real, until: real)

  /** The coalescer's fields, the calls it has made, and whether a send has raised. */
  datatype Stream = Stream(
    buffer: seq<string>,
    messageId: Option<string>,
    lastEditTime: real,
    charsSinceEdit: nat,
    total: string,
    touches: seq<Touch>,
    raised: bool)

  const EMPTY := Stream([], None, 0.0, 0, "", [], false)

  // ---------- One step ----------

  function SendCall(s: Stream, cfg: Config, m: Moment): Touch {
    Touch(Sent(s.total, cfg.replyTo, m.reply), m.now, m.after)
  }

  function EditCall(s: Stream, m: Moment): Touch
    requires s.messageId.Some?
  {
    Touch(Edited(s.messageId.value, s.total, m.applied), m.now, m.after)
  }

  function AfterSendInitial(s: Stream, cfg: Config, m: Moment): Stream {
    var sent := s.(touches := s.touches + [SendCall(s, cfg, m)]);
    match m.reply
    case SendRaised(_) => sent.(raised := true)
    case Posted(id) => sent.(messageId := id, lastEditTime := m.after, charsSinceEdit := 0, buffer := [])
  }

  /** An empty id is as good as none here: nothing is edited. */
  function AfterEditCurrent(s: Stream, m: Moment): Stream {
    if s.messageId.None? || s.messageId.value == "" then s
    else s.(
      touches := s.touches + [EditCall(s, m)],
      lastEditTime := m.after, charsSinceEdit := 0, buffer := [])
  }

  function Accept(s: Stream, token: string): Stream {
    s.(buffer := s.buffer + [token], total := s.total + token, charsSinceEdit := s.charsSinceEdit + |token|)
  }

  function AfterPush(s: Stream, cfg: Config, token: string, m: Moment): Stream {
    var s := Accept(s, token);
    if s.messageId.None? then
      if |s.total| >= cfg.minChars then AfterSendInitial(s, cfg, m) else s
    else if s.charsSinceEdit >= cfg.maxChars && (m.now - s.lastEditTime) * 1000.0 >= cfg.idleMs as real then
      AfterEditCurrent(s, m)
    else s
  }

  function AfterFlush(s: Stream, cfg: Config, m: Moment): Stream {
    if s.total == "" then s
    else if s.messageId.None? then
      var sent := s.(touches := s.touches + [SendCall(s, cfg, m)]);
      match m.reply
      case SendRaised(_) => sent.(raised := true)
      case Posted(id) => sent.(messageId := id)
    else AfterEditCurrent(s, m)
  }

  /** A run of pushes. A send that raises ends it: the exception leaves the caller's loop. */
  function PushAll(cfg: Config, tokens: seq<string>, moments: seq<Moment>): Stream
    requires |tokens| <= |moments|
    decreases |tokens|
  {
    if tokens == [] then EMPTY else
    var n := |tokens| - 1;
    var s := PushAll(cfg, tokens[..n], moments);
    if s.raised then s else AfterPush(s, cfg, tokens[n], moments[n])
  }

  // ---------- The invariant of every run ----------

  /** The message id a call leaves behind, if the platform gave one. */
  function Owner(t: Touch): Option<string> {
    match t.call
    case Sent(_, _, Posted(id)) => id
    case Sent(_, _, SendRaised(_)) => None
    case Edited(id, _, _) => Some(id)
  }

  /** A send follows only where no id is known yet, an edit only the message whose id is known. */
  ghost predicate Chained(touches: seq<Touch>) {
    && (touches != [] ==> touches[0].call.Sent?)
    && (forall j | 1 <= j < |touches| ::
          match touches[j].call
          case Sent(_, _, _) => Owner(touches[j - 1]).None?
          case Edited(id, _, _) => Owner(touches[j - 1]) == Some(id))
  }

  /** Edits are at least `idleMs` apart from the call before and carry at least `maxChars` more. */
  ghost predicate Paced(touches: seq<Touch>, cfg: Config) {
    forall j | 1 <= j < |touches| && touches[j].call.Edited? ::
      && |touches[j].call.text| - |touches[j - 1].call.text| >= cfg.maxChars
      && (touches[j].at - touches[j - 1].until) * 1000.0 >= cfg.idleMs as real
  }

  /** Every text handed to the platform is a prefix of the text so far. */
  ghost predicate ShowsPrefixes(s: Stream) {
    forall j | 0 <= j < |s.touches| :: s.touches[j].call.text <= s.total
  }

  ghost predicate Settled(s: Stream) {
    && s.charsSinceEdit <= |s.total|
    && Join(s.buffer) == s.total[|s.total| - s.charsSinceEdit..]
    && (if s.touches == [] then s.messageId.None? && s.charsSinceEdit == |s.total| else
        var last := s.touches[|s.touches| - 1];
        && s.messageId == Owner(last)
        && s.lastEditTime == last.until
        && s.charsSinceEdit == |s.total| - |last.call.text|)
  }

  /** A send that raised is the last call of a run that has raised. */
  ghost predicate RaiseIsLast(touches: seq<Touch>, raised: bool) {
    forall j | 0 <= j < |touches| && touches[j].call.Sent? && touches[j].call.reply.SendRaised? ::
      raised && j == |touches| - 1
  }

  ghost predicate Inv(s: Stream, cfg: Config) {
    && Chained(s.touches)
    && Paced(s.touches, cfg)
    && ShowsPrefixes(s)
    && (!s.raised ==> Settled(s))
    && RaiseIsLast(s.touches, s.raised)
  }

  lemma AcceptKeepsInv(s: Stream, cfg: Config, token: string)
    requires Inv(s, cfg) && !s.raised
    ensures Inv(Accept(s, token), cfg)
  {
    var cut := |s.total| - s.charsSinceEdit;
    JoinAppend(s.buffer, token);
    assert (s.total + token)[cut..] == s.total[cut..] + token;
  }

  lemma AppendKeepsChain(touches: seq<Touch>, t: Touch)
    requires Chained(touches)
    requires var owner := if touches == [] then None else Owner(touches[|touches| - 1]);
      if t.call.Sent? then owner.None? else owner == Some(t.call.id)
    ensures Chained(touches + [t])
  {
  }

  lemma AppendKeepsPace(touches: seq<Touch>, t: Touch, cfg: Config)
    requires Paced(touches, cfg)
    requires t.call.Edited? && touches != [] ==>
      && |t.call.text| - |touches[|touches| - 1].call.text| >= cfg.maxChars
      && (t.at - touches[|touches| - 1].until) * 1000.0 >= cfg.idleMs as real
    ensures Paced(touches + [t], cfg)
  {
  }

  lemma AppendKeepsRaise(touches: seq<Touch>, t: Touch, raised: bool)
    requires RaiseIsLast(touches, false)
    requires t.call.Sent? && t.call.reply.SendRaised? ==> raised
    ensures RaiseIsLast(touches + [t], raised)
  {
    assert forall j | 0 <= j < |touches| :: (touches + [t])[j] == touches[j];
  }

  lemma AppendKeepsPrefixes(s: Stream, t: Touch, after: Stream)
    requires ShowsPrefixes(s) && t.call.text == s.total
    requires after.total == s.total && after.touches == s.touches + [t]
    ensures ShowsPrefixes(after)
  {
  }

  /** A call that carries the whole text leaves nothing buffered. */
  lemma CallSettles(after: Stream, t: Touch)
    requires after.touches != [] && after.touches[|after.touches| - 1] == t && t.call.text == after.total
    requires after.buffer == [] && after.charsSinceEdit == 0
    requires after.messageId == Owner(t) && after.lastEditTime == t.until
    ensures Settled(after)
  {
    assert after.total[|after.total|..] == "";
  }

  lemma SendKeepsInv(s: Stream, cfg: Config, m: Moment)
    requires Inv(s, cfg) && !s.raised && s.messageId.None?
    ensures Inv(AfterSendInitial(s, cfg, m), cfg)
  {
    var t, after := SendCall(s, cfg, m), AfterSendInitial(s, cfg, m);
    AppendKeepsChain(s.touches, t);
    AppendKeepsPace(s.touches, t, cfg);
    AppendKeepsRaise(s.touches, t, m.reply.SendRaised?);
    AppendKeepsPrefixes(s, t, after);
    if !after.raised {
      CallSettles(after, t);
    }
  }

  lemma EditKeepsInv(s: Stream, cfg: Config, m: Moment)
    requires Inv(s, cfg) && !s.raised && s.messageId.Some?
    requires s.charsSinceEdit >= cfg.maxChars && (m.now - s.lastEditTime) * 1000.0 >= cfg.idleMs as real
    ensures Inv(AfterEditCurrent(s, m), cfg)
  {
    if s.messageId.value != "" {
      var t, after := EditCall(s, m), AfterEditCurrent(s, m);
      AppendKeepsChain(s.touches, t);
      AppendKeepsPace(s.touches, t, cfg);
      AppendKeepsRaise(s.touches, t, false);
      AppendKeepsPrefixes(s, t, after);
      CallSettles(after, t);
    }
  }

  lemma PushKeepsInv(s: Stream, cfg: Config, token: string, m: Moment)
    requires Inv(s, cfg) && !s.raised
    ensures Inv(AfterPush(s, cfg, token, m), cfg)
    ensures AfterPush(s, cfg, token, m).total == s.total + token
  {
    AcceptKeepsInv(s, cfg, token);
    var t := Accept(s, token);
    if t.messageId.None? {
      SendKeepsInv(t, cfg, m);
    } else if t.charsSinceEdit >= cfg.maxChars && (m.now - t.lastEditTime) * 1000.0 >= cfg.idleMs as real {
      EditKeepsInv(t, cfg, m);
    }
  }

  /** A flush leaves the chain of sends and edits intact. */
  lemma FlushKeepsChain(s: Stream, cfg: Config, m: Moment)
    requires Inv(s, cfg) && !s.raised
    ensures Chained(AfterFlush(s, cfg, m).touches)
  {
    AppendKeepsChain(s.touches, if s.messageId.None? then SendCall(s, cfg, m) else EditCall(s, m));
  }

  lemma PushTotal(s: Stream, cfg: Config, token: string, m: Moment)
    ensures AfterPush(s, cfg, token, m).total == s.total + token
  {
  }

  lemma {:induction false} RunInv(cfg: Config, tokens: seq<string>, moments: seq<Moment>)
    requires |tokens| <= |moments|
    ensures Inv(PushAll(cfg, tokens, moments), cfg)
    decreases |tokens|
  {
    if tokens != [] {
      var n := |tokens| - 1;
      RunInv(cfg, tokens[..n], moments);
      var s := PushAll(cfg, tokens[..n], moments);
      if !s.raised {
        PushKeepsInv(s, cfg, tokens[n], moments[n]);
      }
    }
  }

  lemma {:induction false} RunTotal(cfg: Config, tokens: seq<string>, moments: seq<Moment>)
    requires |tokens| <= |moments|
    ensures var s := PushAll(cfg, tokens, moments);
      s.total <= Join(tokens) && (!s.raised ==> s.total == Join(tokens))
    decreases |tokens|
  {
    if tokens != [] {
      var n := |tokens| - 1;
      RunTotal(cfg, tokens[..n], moments);
      assert tokens == tokens[..n] + [tokens[n]];
      JoinAppend(tokens[..n], tokens[n]);
      PushTotal(PushAll(cfg, tokens[..n], moments), cfg, tokens[n], moments[n]);
    }
  }

  lemma RunKeepsInv(cfg: Config, tokens: seq<string>, moments: seq<Moment>)
    requires |tokens| <= |moments|
    ensures var s := PushAll(cfg, tokens, moments);
      Inv(s, cfg) && s.total <= Join(tokens) && (!s.raised ==> s.total == Join(tokens))
  {
    RunInv(cfg, tokens, moments);
    RunTotal(cfg, tokens, moments);
  }

  // ---------- What the reader sees ----------

  function Calls(touches: seq<Touch>): seq<Call> {
    seq(|touches|, j requires 0 <= j < |touches| => touches[j].call)
  }

  /** A message of the channel reads one of the texts handed over, so it reads a prefix. */
  lemma {:induction false} ReadsSomeCall(calls: seq<Call>, id: string)
    requires Reads(calls, id).Some?
    ensures exists j | 0 <= j < |calls| :: calls[j].text == Reads(calls, id).value
  {
    var n := |calls| - 1;
    var last := calls[n];
    if Reads(calls, id) != Some(last.text) {
      ReadsSomeCall(calls[..n], id);
      var j :| 0 <= j < n && calls[..n][j].text == Reads(calls[..n], id).value;
      assert calls[j].text == Reads(calls, id).value;
    } else {
      assert calls[n].text == Reads(calls, id).value;
    }
  }

  lemma ReaderSeesPrefix(cfg: Config, tokens: seq<string>, moments: seq<Moment>, last: Moment, id: string)
    requires |tokens| <= |moments|
    ensures var s := PushAll(cfg, tokens, moments);
      && (Reads(Calls(s.touches), id).Some? ==> Reads(Calls(s.touches), id).value <= s.total <= Join(tokens))
      && (!s.raised ==>
            var f := AfterFlush(s, cfg, last);
            Reads(Calls(f.touches), id).Some? ==> Reads(Calls(f.touches), id).value <= Join(tokens))
  {
    RunKeepsInv(cfg, tokens, moments);
    var s := PushAll(cfg, tokens, moments);
    var f := AfterFlush(s, cfg, last);
    if Reads(Calls(s.touches), id).Some? {
      ReadsSomeCall(Calls(s.touches), id);
    }
    if Reads(Calls(f.touches), id).Some? {
      ReadsSomeCall(Calls(f.touches), id);
    }
  }

  /** The call a flush ends with took effect. */
  predicate Effective(call: Call) {
    match call
    case Sent(_, _, reply) => reply.Posted?
    case Edited(_, _, applied) => applied
  }

  /** After a flush whose call took effect the message reads the whole stream. */
  lemma FlushShowsTotal(cfg: Config, tokens: seq<string>, moments: seq<Moment>, last: Moment)
    requires |tokens| <= |moments| && !PushAll(cfg, tokens, moments).raised
    ensures var s := PushAll(cfg, tokens, moments);
      var f := AfterFlush(s, cfg, last);
      && f.total == Join(tokens)
      && (|f.touches| > |s.touches| <==>
            Join(tokens) != "" && (s.messageId.None? || s.messageId.value != ""))
      && (|f.touches| > |s.touches| && Effective(f.touches[|s.touches|].call) && f.messageId.Some? ==>
            Reads(Calls(f.touches), f.messageId.value) == Some(Join(tokens)))
  {
    RunKeepsInv(cfg, tokens, moments);
    var s := PushAll(cfg, tokens, moments);
    var f := AfterFlush(s, cfg, last);
    if |f.touches| > |s.touches| {
      assert Calls(f.touches) == Calls(s.touches) + [f.touches[|s.touches|].call];
    }
  }

  ghost predicate EverySendGetsId(touches: seq<Touch>) {
    forall j | 0 <= j < |touches| && touches[j].call.Sent? :: Owner(touches[j]).Some?
  }

  lemma {:induction false} ChainHasOneMessage(touches: seq<Touch>, k: nat)
    requires Chained(touches) && EverySendGetsId(touches) && k < |touches|
    ensures Owner(touches[0]).Some? && Owner(touches[k]) == Owner(touches[0])
    ensures touches[k].call.Sent? <==> k == 0
  {
    if k > 0 {
      ChainHasOneMessage(touches, k - 1);
    }
  }

  /** When every send is given an id there is one message: sent first, and only edited after. */
  lemma OneMessage(cfg: Config, tokens: seq<string>, moments: seq<Moment>, last: Moment, k: nat)
    requires |tokens| <= |moments| && !PushAll(cfg, tokens, moments).raised
    requires EverySendGetsId(AfterFlush(PushAll(cfg, tokens, moments), cfg, last).touches)
    ensures var touches := AfterFlush(PushAll(cfg, tokens, moments), cfg, last).touches;
      k < |touches| ==>
        && Owner(touches[0]).Some? && Owner(touches[k]) == Owner(touches[0])
        && (touches[k].call.Sent? <==> k == 0)
  {
    RunKeepsInv(cfg, tokens, moments);
    var s := PushAll(cfg, tokens, moments);
    FlushKeepsChain(s, cfg, last);
    if k < |AfterFlush(s, cfg, last).touches| {
      ChainHasOneMessage(AfterFlush(s, cfg, last).touches, k);
    }
  }

  /** A stream without text sends nothing, as long as a message needs at least one character. */
  lemma {:induction false} EmptyStreamIsSilent(cfg: Config, tokens: seq<string>, moments: seq<Moment>, last: Moment)
    requires |tokens| <= |moments| && 1 <= cfg.minChars && Join(tokens) == ""
    ensures var s := PushAll(cfg, tokens, moments);
      !s.raised && s.messageId.None? && s.touches == [] && AfterFlush(s, cfg, last).touches == []
    decreases |tokens|
  {
    RunKeepsInv(cfg, tokens, moments);
    if tokens != [] {
      var n := |tokens| - 1;
      assert tokens == tokens[..n] + [tokens[n]];
      JoinAppend(tokens[..n], tokens[n]);
      EmptyStreamIsSilent(cfg, tokens[..n], moments, last);
      RunKeepsInv(cfg, tokens[..n], moments);
    }
  }

  // ---------- The rate bound ----------

  /** The edits of a run: by the chain they are its last calls. */
  function Edits(touches: seq<Touch>): nat {
    if touches == [] || touches[|touches| - 1].call.Sent? then 0 else 1 + Edits(touches[..|touches| - 1])
  }

  lemma {:induction false} EditsAreLast(touches: seq<Touch>)
    requires Chained(touches)
    ensures Edits(touches) < |touches| || touches == []
    ensures forall j | 0 <= j < |touches| :: touches[j].call.Edited? <==> j >= |touches| - Edits(touches)
  {
    if touches != [] {
      var n := |touches| - 1;
      EditsAreLast(touches[..n]);
      if touches[n].call.Sent? && n > 0 {
        assert Owner(touches[n - 1]).None?;
        assert touches[..n][n - 1].call.Sent?;
        assert Edits(touches[..n]) == 0;
      }
    }
  }

  lemma MulStep(n: int, unit: int)
    ensures (n + 1) * unit == n * unit + unit
  {
  }

  lemma {:induction false} EditsTakeText(touches: seq<Touch>, cfg: Config)
    requires Chained(touches) && Paced(touches, cfg) && touches != []
    ensures Edits(touches) < |touches|
    ensures Edits(touches) * cfg.maxChars
      <= |touches[|touches| - 1].call.text| - |touches[|touches| - 1 - Edits(touches)].call.text|
  {
    EditsAreLast(touches);
    var n := |touches| - 1;
    if touches[n].call.Edited? {
      EditsTakeText(touches[..n], cfg);
      MulStep(Edits(touches[..n]), cfg.maxChars);
    }
  }

  /** The pushes of a run edit at most once per `maxChars` characters beyond the message first sent. */
  lemma EditRate(cfg: Config, tokens: seq<string>, moments: seq<Moment>)
    requires |tokens| <= |moments| && PushAll(cfg, tokens, moments).touches != []
    ensures var s := PushAll(cfg, tokens, moments);
      && Edits(s.touches) < |s.touches|
      && var first := |s.touches| - 1 - Edits(s.touches);
      && (forall j | 0 <= j < |s.touches| :: s.touches[j].call.Edited? <==> j > first)
      && Edits(s.touches) * cfg.maxChars <= |s.total| - |s.touches[first].call.text|
      && Paced(s.touches, cfg)
  {
    RunKeepsInv(cfg, tokens, moments);
    var s := PushAll(cfg, tokens, moments);
    EditsAreLast(s.touches);
    EditsTakeText(s.touches, cfg);
    assert s.touches[|s.touches| - 1].call.text <= s.total;
  }

  /** A push that leaves a long enough text unsent, or unedited, had no reason to send or edit. */
  lemma PushIsPrompt(s: Stream, cfg: Config, token: string, m: Moment)
    requires Inv(s, cfg) && !s.raised && !AfterPush(s, cfg, token, m).raised
    ensures var t := AfterPush(s, cfg, token, m);
      && (t.touches == [] ==> |t.total| < cfg.minChars)
      && (t.messageId.None? && |t.total| >= cfg.minChars ==>
            t.touches != [] && t.touches[|t.touches| - 1].call.text == t.total)
      && (t.messageId.Some? && t.messageId.value != "" && 1 <= cfg.maxChars ==>
            && t.touches != []
            && var last := t.touches[|t.touches| - 1];
              || |t.total| - |last.call.text| < cfg.maxChars
              || (m.now - last.until) * 1000.0 < cfg.idleMs as real)
  {
    PushKeepsInv(s, cfg, token, m);
  }

  /** Before the flush nothing is held back that is long enough for a first message. */
  lemma FirstMessageIsPrompt(cfg: Config, tokens: seq<string>, moments: seq<Moment>)
    requires |tokens| <= |moments| && tokens != [] && !PushAll(cfg, tokens, moments).raised
    ensures var s := PushAll(cfg, tokens, moments);
      && (s.touches == [] ==> |s.total| < cfg.minChars)
      && (s.messageId.None? && |s.total| >= cfg.minChars ==> s.touches[|s.touches| - 1].call.text == s.total)
  {
    var n := |tokens| - 1;
    RunInv(cfg, tokens[..n], moments);
    PushIsPrompt(PushAll(cfg, tokens[..n], moments), cfg, tokens[n], moments[n]);
  }

  /** Once there is a message, text is held back only below max_chars, or within idle_ms of the last call. */
  lemma EditsArePrompt(cfg: Config, tokens: seq<string>, moments: seq<Moment>)
    requires |tokens| <= |moments| && tokens != [] && !PushAll(cfg, tokens, moments).raised && 1 <= cfg.maxChars
    requires var id := PushAll(cfg, tokens, moments).messageId; id.Some? && id.value != ""
    ensures var s := PushAll(cfg, tokens, moments);
      && s.touches != []
      && var last := s.touches[|s.touches| - 1];
        || |s.total| - |last.call.text| < cfg.maxChars
        || (moments[|tokens| - 1].now - last.until) * 1000.0 < cfg.idleMs as real
  {
    var n := |tokens| - 1;
    RunInv(cfg, tokens[..n], moments);
    PushIsPrompt(PushAll(cfg, tokens[..n], moments), cfg, tokens[n], moments[n]);
  }

  // ---------- The class ----------

  class StreamCoalescer {
    const adapter: Adapter
    const config: Config
    var buffer: seq<string>
    var messageId: Option<string>
    var lastEditTime: real
    var charsSinceEdit: nat
    var totalText: string
    ghost var touches: seq<Touch>

    constructor (adapter: Adapter, config: Config)
      ensures this.adapter == adapter && this.config == config
      ensures Now(false) == EMPTY
    {
      this.adapter, this.config := adapter, config;
      buffer, messageId, lastEditTime, charsSinceEdit, totalText := [], None, 0.0, 0, "";
      touches := [];
    }

    ghost function Now(raised: bool): Stream
      reads this
    {
      Stream(buffer, messageId, lastEditTime, charsSinceEdit, totalText, touches, raised)
    }

    /** The calls between two states of a coalescer reached the adapter. */
    ghost predicate Forwarded(before: seq<Touch>, calls: seq<Call>)
      reads this, adapter
    {
      && before <= touches
      && adapter.calls == calls + Calls(touches[|before|..])
    }

    method Push(token: string, m: Moment) returns (raised: bool)
      modifies this, adapter
      ensures Now(raised) == AfterPush(old(Now(false)), config, token, m)
      ensures Forwarded(old(touches), old(adapter.calls))
    {
      buffer := buffer + [token];
      totalText := totalText + token;
      charsSinceEdit := charsSinceEdit + |token|;
      if messageId.None? {
        if |totalText| >= config.minChars {
          raised := SendInitial(m);
          return;
        }
        return false;
      }
      var elapsedMs := (m.now - lastEditTime) * 1000.0;
      if charsSinceEdit >= config.maxChars && elapsedMs >= config.idleMs as real {
        EditCurrent(m);
      }
      return false;
    }

    method Flush(m: Moment) returns (id: Option<string>, raised: bool)
      modifies this, adapter
      ensures Now(raised) == AfterFlush(old(Now(false)), config, m)
      ensures Forwarded(old(touches), old(adapter.calls))
      ensures id == if totalText == "" || raised then None else messageId
    {
      if totalText == "" {
        return None, false;
      }
      if messageId.None? {
        adapter.Send(totalText, config.replyTo, m.reply);
        touches := touches + [Touch(Sent(totalText, config.replyTo, m.reply), m.now, m.after)];
        if m.reply.SendRaised? {
          return None, true;
        }
        messageId := m.reply.id;
      } else {
        EditCurrent(m);
      }
      return messageId, false;
    }

    method SendInitial(m: Moment) returns (raised: bool)
      modifies this, adapter
      ensures Now(raised) == AfterSendInitial(old(Now(false)), config, m)
      ensures Forwarded(old(touches), old(adapter.calls))
    {
      adapter.Send(totalText, config.replyTo, m.reply);
      touches := touches + [Touch(Sent(totalText, config.replyTo, m.reply), m.now, m.after)];
      if m.reply.SendRaised? {
        return true;
      }
      messageId := m.reply.id;
      lastEditTime := m.after;
      charsSinceEdit := 0;
      buffer := [];
      return false;
    }

    method EditCurrent(m: Moment)
      modifies this, adapter
      ensures Now(false) == AfterEditCurrent(old(Now(false)), m)
      ensures Forwarded(old(touches), old(adapter.calls))
    {
      if messageId.None? || messageId.value == "" {
        return;
      }
      adapter.EditMessage(messageId.value, totalText, m.applied);
      touches := touches + [Touch(Edited(messageId.value, totalText, m.applied), m.now, m.after)];
      lastEditTime := m.after;
      charsSinceEdit := 0;
      buffer := [];
    }
  }
}
