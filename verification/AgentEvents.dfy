/**
 The agent events that apps/hexis_api.py turns into client protocols. A missing or falsy payload
 field is the empty string.
 */
module AgentEvents {
  import opened Prelude

  datatype Event =
    | LoopStart(phase: string)
    | TextDelta(text: string, phase: string)
    | ReasoningDelta(now: real)
    | ToolStart | ToolResult | UiArtifact | Question | ClaimFlagged | LlmRequest | LlmResponse
    | PhaseChange(phase: string, status: string)
    | ErrorEvent(error: string, errorType: string)
    | LoopEnd(stopped: string, timedOut: bool)
    | OtherEvent

  /** describe_exception never returns an empty description. */
  type Description = d: string | d != "" witness "E"

  function OrElse(s: string, default: string): string {
    if s == "" then default else s
  }

  // ---------- Text ----------

  /** The non-empty texts of a run of events, in order. */
  function TextsOf(events: seq<Event>): seq<string> {
    if events == [] then [] else
    var last := events[|events| - 1];
    TextsOf(events[..|events| - 1]) + TextsIn(last)
  }

  function TextOf(events: seq<Event>): string {
    Join(TextsOf(events))
  }

  function TextsIn(e: Event): seq<string> {
    if e.TextDelta? && e.text != "" then [e.text] else []
  }

  lemma Slices(events: seq<Event>, k: nat, n: nat)
    requires k <= n < |events|
    ensures events[..n][..k] == events[..k]
    ensures events[..n][k..] == events[k..][..n - k]
    ensures events[k..][n - k] == events[n]
  {
  }

  lemma {:induction false} TextsSplit(events: seq<Event>, k: nat)
    requires k <= |events|
    ensures TextsOf(events) == TextsOf(events[..k]) + TextsOf(events[k..])
    decreases |events|
  {
    if k == |events| {
      assert events[..k] == events;
    } else {
      var n := |events| - 1;
      Slices(events, k, n);
      TextsSplit(events[..n], k);
      Assoc(TextsOf(events[..k]), TextsOf(events[k..][..n - k]), TextsIn(events[n]));
    }
  }

  lemma TextSplits(events: seq<Event>, k: nat)
    requires k <= |events|
    ensures TextOf(events) == TextOf(events[..k]) + TextOf(events[k..])
  {
    TextsSplit(events, k);
    JoinConcat(TextsOf(events[..k]), TextsOf(events[k..]));
  }

  /** Extending a run by one event. */
  lemma TextsStep(events: seq<Event>, n: nat)
    requires n < |events|
    ensures TextsOf(events[..n + 1]) == TextsOf(events[..n]) + TextsIn(events[n])
  {
    assert events[..n + 1][..n] == events[..n];
  }

  lemma TextStep(events: seq<Event>, n: nat)
    requires n < |events|
    ensures var e := events[n];
      TextOf(events[..n + 1]) == TextOf(events[..n]) + if e.TextDelta? then e.text else ""
  {
    TextsStep(events, n);
    JoinAppend(TextsOf(events[..n]), if events[n].TextDelta? then events[n].text else "");
    assert TextsOf(events[..n]) + [] == TextsOf(events[..n]);
  }
}
