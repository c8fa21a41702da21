/**
 The two chat front ends of apps/hexis_api.py side by side, and the OpenAI stream as the bytes a
 client receives.
 */
module FrontEnds {
  import opened Prelude
  import opened AgentEvents
  import OpenAi = OpenAiCompletion
  import Chat = ChatStream
  import Sse = ServerSentEvents

  // ---------- Where the verdicts part ----------

  /** The first loop end says both "timed out" and "error". */
  predicate EndsTimedOutAndFailed(events: seq<Event>) {
    var k := Chat.FirstEnd(events);
    k < |events| && events[k].stopped == "error" && events[k].timedOut
  }

  predicate FailsBetween(events: seq<Event>, lo: nat, hi: nat)
    requires hi <= |events|
  {
    exists i :: lo <= i < hi && OpenAi.Fails(events[i])
  }

  /** The dashboard is done at the first loop end, and something fails after it. */
  ghost predicate FailsTooLate(events: seq<Event>, exn: Option<Description>) {
    var k := Chat.FirstEnd(events);
    && k < |events| && events[k].stopped != "error"
    && !FailsBetween(events, 0, k)
    && (exn.Some? || FailsBetween(events, k + 1, |events|))
  }

  /** Nothing fails, so the buffered completion has no error. */
  ghost predicate Clean(events: seq<Event>, exn: Option<Description>) {
    exn.None? && !FailsBetween(events, 0, |events|)
  }

  lemma ChatFails(events: seq<Event>, exn: Option<Description>)
    ensures var k := Chat.FirstEnd(events);
      Chat.Verdict(events, exn).Failed? <==>
        || FailsBetween(events, 0, k)
        || (k < |events| && events[k].stopped == "error")
        || (k == |events| && exn.Some?)
  {
    Chat.FailedWhen(events, exn);
    var k := Chat.FirstEnd(events);
    assert forall i | 0 <= i < k :: OpenAi.Fails(events[i]) <==> events[i].ErrorEvent?;
  }

  lemma CompletionFails(events: seq<Event>, exn: Option<Description>)
    ensures OpenAi.CompletionOf(events, exn).error.None? <==> Clean(events, exn)
  {
    OpenAi.NoErrorIffNothingFails(events, exn);
  }

  lemma VerdictsDiffer(events: seq<Event>, exn: Option<Description>)
    ensures var chatFails := Chat.Verdict(events, exn).Failed?;
      && (chatFails && Clean(events, exn) <==> EndsTimedOutAndFailed(events) && Clean(events, exn))
      && (!chatFails && !Clean(events, exn) <==> FailsTooLate(events, exn))
  {
    ChatFails(events, exn);
    var k := Chat.FirstEnd(events);
    assert forall i | 0 <= i < |events| && OpenAi.Fails(events[i]) && i < k :: FailsBetween(events, 0, k);
  }

  lemma SameTextIffNoMore(text: string, more: string)
    ensures text == text + more <==> more == ""
  {
    assert |text + more| == |text| + |more|;
  }

  lemma TextsDiffer(events: seq<Event>, exn: Option<Description>)
    ensures Chat.Verdict(events, exn).assistant == TextOf(events)
      <==> TextOf(events[Chat.FirstEnd(events)..]) == ""
  {
    var k := Chat.FirstEnd(events);
    TextSplits(events, k);
    SameTextIffNoMore(TextOf(events[..k]), TextOf(events[k..]));
  }

  /**
   * Exactly when the front ends disagree: the dashboard reports a failure and the completion none
   * if the run's only failure is a loop end that also timed out; the other way round if something
   * fails after a good first loop end. Their texts agree exactly when no text follows that end.
   */
  lemma FrontEndsDiffer(events: seq<Event>, exn: Option<Description>)
    ensures var chat, c := Chat.Verdict(events, exn), OpenAi.CompletionOf(events, exn);
      && (chat.Failed? && c.error.None? <==> EndsTimedOutAndFailed(events) && Clean(events, exn))
      && (chat.Done? && c.error.Some? <==> FailsTooLate(events, exn))
      && (chat.assistant == c.text <==> TextOf(events[Chat.FirstEnd(events)..]) == "")
  {
    CompletionFails(events, exn);
    VerdictsDiffer(events, exn);
    TextsDiffer(events, exn);
  }

  /** A loop end that is both: the dashboard reports a failure, the completion only a cut-off text. */
  lemma TimedOutErrorDiffers()
    ensures var events := [LoopEnd("error", true)];
      Chat.Verdict(events, None).Failed? && OpenAi.CompletionOf(events, None).error.None?
  {
    var events := [LoopEnd("error", true)];
    assert events[..0] == [];
    assert Chat.FirstEnd(events) == 0;
    FrontEndsDiffer(events, None);
  }

  /** An error and a text after a good loop end: the dashboard is done without either. */
  lemma LateErrorDiffers()
    ensures var events := [LoopEnd("completed", false), ErrorEvent("lost", ""), TextDelta("hi", "")];
      && Chat.Verdict(events, None) == Chat.Done("")
      && OpenAi.CompletionOf(events, None) == OpenAi.Completion("hi", Some("lost"), "stop")
  {
    var e0, e1, e2 := LoopEnd("completed", false), ErrorEvent("lost", ""), TextDelta("hi", "");
    var events := [e0, e1, e2];
    assert events[..2] == [e0, e1] && [e0, e1][..1] == [e0] && [e0][..0] == [];
    assert Chat.FirstEnd([e0]) == 0 && Chat.FirstEnd([e0, e1]) == 0 && Chat.FirstEnd(events) == 0;
    assert events[..0] == [];
    assert TextsOf([e0]) == [] && TextsOf([e0, e1]) == [] && TextsOf(events) == ["hi"];
    assert Join(["hi"]) == "hi" + Join([]) == "hi";
    assert OpenAi.LastError([e0, e1]) == Some("lost");
    assert OpenAi.LastError(events) == Some("lost");
  }

  /** Nothing but the end of the run matters after the first loop end. */
  predicate EndsAtFirstEnd(events: seq<Event>, exn: Option<Description>) {
    var k := Chat.FirstEnd(events);
    k < |events| ==>
      && exn.None?
      && forall i | k < i < |events| ::
           !events[i].LoopEnd? && !events[i].ErrorEvent? && (events[i].TextDelta? ==> events[i].text == "")
  }

  lemma {:induction false} NoTextNoChange(events: seq<Event>)
    requires forall i | 0 <= i < |events| :: events[i].TextDelta? ==> events[i].text == ""
    ensures TextsOf(events) == []
  {
    if events != [] {
      NoTextNoChange(events[..|events| - 1]);
    }
  }

  /** On such runs both front ends give the same verdict and the same text. */
  lemma FrontEndsAgree(events: seq<Event>, exn: Option<Description>)
    requires EndsAtFirstEnd(events, exn) && !EndsTimedOutAndFailed(events)
    ensures var chat, c := Chat.Verdict(events, exn), OpenAi.CompletionOf(events, exn);
      (chat.Done? <==> c.error.None?) && chat.assistant == c.text
  {
    FrontEndsDiffer(events, exn);
    NoTextNoChange(events[Chat.FirstEnd(events)..]);
  }

  // ---------- The OpenAI stream on the wire ----------

  function Wire(chunks: seq<OpenAi.Chunk>, encode: OpenAi.Chunk -> string): seq<Sse.Frame> {
    seq(|chunks|, i requires 0 <= i < |chunks| => Sse.Unnamed(encode(chunks[i])))
  }

  function Decode(messages: seq<Sse.Message>, decode: string -> OpenAi.Chunk): seq<OpenAi.Chunk> {
    seq(|messages|, i requires 0 <= i < |messages| => decode(messages[i].data))
  }

  lemma {:induction false} WireMeanings(chunks: seq<OpenAi.Chunk>, encode: OpenAi.Chunk -> string)
    ensures var messages := Sse.Meanings(Wire(chunks, encode));
      && |messages| == |chunks|
      && forall i | 0 <= i < |chunks| :: messages[i] == Sse.Message("message", encode(chunks[i]))
  {
    if chunks != [] {
      WireMeanings(chunks[1..], encode);
      assert Wire(chunks, encode)[1..] == Wire(chunks[1..], encode);
      assert Sse.Meaning(Wire(chunks, encode)[0]) == [Sse.Message("message", encode(chunks[0]))];
    }
  }

  /**
   * From bytes to answer: a client that parses the event stream, decodes the payloads and accepts
   * the protocol's grammar reads exactly the buffered completion.
   */
  lemma WireRefinesBuffering(
      events: seq<Event>, exn: Option<Description>,
      encode: OpenAi.Chunk -> string, decode: string -> OpenAi.Chunk)
    requires forall chunk :: Sse.OneLine(encode(chunk)) && decode(encode(chunk)) == chunk
    ensures var c := OpenAi.CompletionOf(events, exn);
      var bytes := Sse.PrintAll(Wire(OpenAi.StreamOf(TextsOf(events), c), encode));
      OpenAi.ReadAll(Decode(Sse.Parse(bytes), decode))
        == OpenAi.Finished(c.text, c.error, if c.error.Some? then None else Some(c.finish))
  {
    var c := OpenAi.CompletionOf(events, exn);
    var chunks := OpenAi.StreamOf(TextsOf(events), c);
    Sse.RoundTrip(Wire(chunks, encode));
    WireMeanings(chunks, encode);
    assert Decode(Sse.Meanings(Wire(chunks, encode)), decode) == chunks;
    OpenAi.StreamingRefinesBuffering(events, exn);
  }
}
