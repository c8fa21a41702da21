/**
 The OpenAI-compatible front end of apps/hexis_api.py: the buffered fold and the streaming fold
 over the same agent events, which may end in an exception.
 */
module OpenAiCompletion {
  import opened Prelude
  import opened AgentEvents

  const UNKNOWN_ERROR := "Unknown agent error"
  const LOOP_ERROR := "Agent loop ended with an error."

  /** What the buffered fold returns. */
  datatype Completion = Completion(text: string, error: Option<string>, finish: string)

  /** One `data:` payload of the streaming fold. */
  datatype Chunk =
    | Role
    | Content(text: string)
    | Failure(message: string)
    | Finish(reason: string)
    | DoneMark

  // ---------- What a run of events amounts to, without a fold ----------

  predicate TimedOut(e: Event) {
    e.LoopEnd? && (e.stopped == "timeout" || e.timedOut)
  }

  /** A loop end counts as an error only when it is not also a timeout. */
  predicate LoopFailed(e: Event) {
    e.LoopEnd? && e.stopped == "error" && !e.timedOut
  }

  predicate Fails(e: Event) {
    e.ErrorEvent? || LoopFailed(e)
  }

  /** The message of the last error event. */
  function LastError(events: seq<Event>): Option<string> {
    if events == [] then None else
    var last := events[|events| - 1];
    if last.ErrorEvent? then Some(OrElse(last.error, UNKNOWN_ERROR)) else LastError(events[..|events| - 1])
  }

  ghost predicate SomeLoopFailed(events: seq<Event>) {
    exists i :: 0 <= i < |events| && LoopFailed(events[i])
  }

  ghost predicate SomeTimedOut(events: seq<Event>) {
    exists i :: 0 <= i < |events| && TimedOut(events[i])
  }

  /**
   * The verdict on a run: the exception's description if there was one, else the message of the
   * last error event, else the fixed message for a failed loop end, else no error.
   */
  ghost function Verdict(events: seq<Event>, exn: Option<Description>): Option<string> {
    if exn.Some? then Some(exn.value)
    else if LastError(events).Some? then LastError(events)
    else if SomeLoopFailed(events) then Some(LOOP_ERROR)
    else None
  }

  ghost function FinishReason(events: seq<Event>): string {
    if SomeTimedOut(events) then "length" else "stop"
  }

  ghost function CompletionOf(events: seq<Event>, exn: Option<Description>): Completion {
    Completion(TextOf(events), Verdict(events, exn), FinishReason(events))
  }

  lemma {:induction false} LastErrorExists(events: seq<Event>)
    ensures LastError(events).None? <==> forall i | 0 <= i < |events| :: !events[i].ErrorEvent?
    ensures LastError(events).Some? ==> LastError(events).value != ""
  {
    if events != [] {
      LastErrorExists(events[..|events| - 1]);
    }
  }

  /** A completion carries no error exactly when nothing in the run failed. */
  lemma NoErrorIffNothingFails(events: seq<Event>, exn: Option<Description>)
    ensures Verdict(events, exn).None? <==> exn.None? && forall i | 0 <= i < |events| :: !Fails(events[i])
    ensures Verdict(events, exn).Some? ==> Verdict(events, exn).value != ""
  {
    LastErrorExists(events);
  }

  /** An error event that no later one follows gives the message. */
  lemma {:induction false} LastErrorIsLast(events: seq<Event>, k: nat)
    requires k < |events| && events[k].ErrorEvent? && forall i | k < i < |events| :: !events[i].ErrorEvent?
    ensures LastError(events) == Some(if events[k].error == "" then "Unknown agent error" else events[k].error)
  {
    var n := |events| - 1;
    if k < n {
      LastErrorIsLast(events[..n], k);
    }
  }

  ghost predicate SomeEnd(events: seq<Event>, stopped: string, timedOut: bool) {
    exists i :: 0 <= i < |events| && events[i] == LoopEnd(stopped, timedOut)
  }

  /** A run finishes with "length" exactly when some loop end stopped with "timeout" or timed out, else "stop". */
  lemma FinishesAsEnded(events: seq<Event>, exn: Option<Description>)
    ensures var finish := CompletionOf(events, exn).finish;
      && (finish == "length" || finish == "stop")
      && (finish == "length" <==>
            exists stopped, timedOut :: SomeEnd(events, stopped, timedOut) && (stopped == "timeout" || timedOut))
  {
    if SomeTimedOut(events) {
      var i :| 0 <= i < |events| && TimedOut(events[i]);
      assert SomeEnd(events, events[i].stopped, events[i].timedOut);
    }
    if stopped, timedOut :| SomeEnd(events, stopped, timedOut) && (stopped == "timeout" || timedOut) {
      var i :| 0 <= i < |events| && events[i] == LoopEnd(stopped, timedOut);
      assert TimedOut(events[i]);
    }
  }

  /** An exception is reported before anything else. */
  lemma ExceptionReported(events: seq<Event>, d: Description)
    ensures CompletionOf(events, Some(d)).error == Some(d)
  {
  }

  /** Without an exception or an error event, a loop end with "error" that did not time out is reported. */
  lemma LoopErrorReported(events: seq<Event>)
    requires forall i | 0 <= i < |events| :: !events[i].ErrorEvent?
    ensures CompletionOf(events, None).error
      == if SomeEnd(events, "error", false) then Some("Agent loop ended with an error.") else None
  {
    LastErrorExists(events);
    if SomeLoopFailed(events) {
      var i :| 0 <= i < |events| && LoopFailed(events[i]);
      assert events[i] == LoopEnd("error", false);
    }
    if SomeEnd(events, "error", false) {
      var i :| 0 <= i < |events| && events[i] == LoopEnd("error", false);
      assert LoopFailed(events[i]);
    }
  }

  /** An error event decides the message of a run without exception. */
  lemma ErrorEventReported(events: seq<Event>, k: nat)
    requires k < |events| && events[k].ErrorEvent? && forall i | k < i < |events| :: !events[i].ErrorEvent?
    ensures CompletionOf(events, None).error
      == Some(if events[k].error == "" then "Unknown agent error" else events[k].error)
  {
    LastErrorIsLast(events, k);
  }

  // ---------- One event ----------

  function NextError(error: Option<string>, e: Event): Option<string> {
    if e.ErrorEvent? then Some(OrElse(e.error, UNKNOWN_ERROR))
    else if LoopFailed(e) && error.None? then Some(LOOP_ERROR)
    else error
  }

  lemma RunStep(events: seq<Event>, n: nat)
    requires n < |events|
    ensures Verdict(events[..n + 1], None) == NextError(Verdict(events[..n], None), events[n])
    ensures SomeTimedOut(events[..n + 1]) <==> SomeTimedOut(events[..n]) || TimedOut(events[n])
  {
    var before, after, e := events[..n], events[..n + 1], events[n];
    assert after == before + [e];
    assert after[n] == e && after[..n] == before;
    assert forall i | 0 <= i < n :: after[i] == before[i];
    assert SomeLoopFailed(after) <==> SomeLoopFailed(before) || LoopFailed(e);
  }

  // ---------- The two folds ----------

  method CollectChatCompletion(events: seq<Event>, exn: Option<Description>) returns (c: Completion)
    ensures c == CompletionOf(events, exn)
  {
    var parts: seq<string>, error: Option<string>, finish := [], None, "stop";
    for n := 0 to |events|
      invariant parts == TextsOf(events[..n])
      invariant error == Verdict(events[..n], None)
      invariant finish == FinishReason(events[..n])
    {
      var e := events[n];
      TextsStep(events, n);
      RunStep(events, n);
      match e {
        case TextDelta(text, _) =>
          if text != "" {
            parts := parts + [text];
          }
        case ErrorEvent(message, _) =>
          error := Some(OrElse(message, UNKNOWN_ERROR));
        case LoopEnd(stopped, timedOut) =>
          if stopped == "timeout" || timedOut {
            finish := "length";
          } else if stopped == "error" && error.None? {
            error := Some(LOOP_ERROR);
          }
        case _ =>
      }
    }
    assert events[..|events|] == events;
    if exn.Some? {
      error := Some(exn.value);
    }
    c := Completion(Join(parts), error, finish);
  }

  function Contents(texts: seq<string>): seq<Chunk> {
    seq(|texts|, i requires 0 <= i < |texts| => Content(texts[i]))
  }

  /** The stream of a completion whose text arrived as `texts`. */
  function StreamOf(texts: seq<string>, c: Completion): seq<Chunk> {
    [Role] + Contents(texts) + [if c.error.Some? then Failure(c.error.value) else Finish(c.finish), DoneMark]
  }

  lemma OneMore(texts: seq<string>, text: string)
    ensures [Role] + Contents(texts + [text]) == [Role] + Contents(texts) + [Content(text)]
  {
    assert Contents(texts + [text]) == Contents(texts) + [Content(text)];
    Assoc([Role], Contents(texts), [Content(text)]);
  }

  method StreamChatCompletion(events: seq<Event>, exn: Option<Description>)
    returns (chunks: seq<Chunk>)
    ensures chunks == StreamOf(TextsOf(events), CompletionOf(events, exn))
  {
    chunks := [Role];
    var parts: seq<string>, error: Option<string>, finish := [], None, "stop";
    for n := 0 to |events|
      invariant parts == TextsOf(events[..n])
      invariant chunks == [Role] + Contents(parts)
      invariant error == Verdict(events[..n], None)
      invariant finish == FinishReason(events[..n])
    {
      var e := events[n];
      TextsStep(events, n);
      RunStep(events, n);
      match e {
        case TextDelta(text, _) =>
          if text != "" {
            OneMore(parts, text);
            parts := parts + [text];
            chunks := chunks + [Content(text)];
          }
        case ErrorEvent(message, _) =>
          error := Some(OrElse(message, UNKNOWN_ERROR));
        case LoopEnd(stopped, timedOut) =>
          if stopped == "timeout" || timedOut {
            finish := "length";
          } else if stopped == "error" && error.None? {
            error := Some(LOOP_ERROR);
          }
        case _ =>
      }
    }
    assert events[..|events|] == events;
    if exn.Some? {
      error := Some(exn.value);
    }
    NoErrorIffNothingFails(events, exn);
    if error.Some? && error.value != "" {
      chunks := chunks + [Failure(error.value)];
    } else {
      chunks := chunks + [Finish(finish)];
    }
    chunks := chunks + [DoneMark];
  }

  // ---------- A client of the stream ----------

  datatype Reader =
    | AwaitRole
    | Reading(text: string)
    | Closing(text: string, error: Option<string>, finish: Option<string>)
    | Finished(text: string, error: Option<string>, finish: Option<string>)
    | Malformed

  /** A client that accepts one role chunk, content, one closing chunk and the final mark only. */
  function ReadChunk(r: Reader, chunk: Chunk): Reader {
    match (r, chunk)
    case (AwaitRole, Role) => Reading("")
    case (Reading(text), Content(more)) => Reading(text + more)
    case (Reading(text), Failure(message)) => Closing(text, Some(message), None)
    case (Reading(text), Finish(reason)) => Closing(text, None, Some(reason))
    case (Closing(text, error, finish), DoneMark) => Finished(text, error, finish)
    case _ => Malformed
  }

  function ReadAll(chunks: seq<Chunk>): Reader {
    if chunks == [] then AwaitRole
    else ReadChunk(ReadAll(chunks[..|chunks| - 1]), chunks[|chunks| - 1])
  }

  lemma {:induction false} ReadContents(texts: seq<string>)
    ensures ReadAll([Role] + Contents(texts)) == Reading(Join(texts))
  {
    if texts == [] {
      assert [Role] + Contents(texts) == [Role];
      assert [Role][..0] == [];
    } else {
      var n := |texts| - 1;
      var chunks := [Role] + Contents(texts);
      assert chunks[..n + 1] == [Role] + Contents(texts[..n]);
      ReadContents(texts[..n]);
      assert texts == texts[..n] + [texts[n]];
      JoinAppend(texts[..n], texts[n]);
    }
  }

  /**
   * Streaming refines buffering: a client that accepts only the protocol's grammar reads the
   * buffered text, its error if there is one, and otherwise its finish reason.
   */
  lemma StreamingRefinesBuffering(events: seq<Event>, exn: Option<Description>)
    ensures var c := CompletionOf(events, exn);
      ReadAll(StreamOf(TextsOf(events), c))
      == Finished(c.text, c.error, if c.error.Some? then None else Some(c.finish))
  {
    var texts, c := TextsOf(events), CompletionOf(events, exn);
    var chunks := StreamOf(texts, c);
    var k := |texts| + 1;
    ReadContents(texts);
    assert chunks[..k + 1][..k] == [Role] + Contents(texts);
    assert chunks[..k + 1][k] == if c.error.Some? then Failure(c.error.value) else Finish(c.finish);
    assert chunks == chunks[..k + 1] + [DoneMark];
  }
}
