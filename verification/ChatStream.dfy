/**
 The dashboard's chat stream of apps/hexis_api.py: agent events become phases, tokens, logs and
 one terminal frame, while text can still arrive, errors can still occur and the event source can
 still raise after that frame.
 */
module ChatStream {
  import opened Prelude
  import opened AgentEvents

  /** Which part of the turn a phase frame belongs to. */
  datatype Origin = Conscious | MemoryRecall | Subconscious

  datatype Frame =
    | PhaseStart(origin: Origin, phase: string)
    | PhaseEnd(origin: Origin, phase: string)
    | Token(phase: string, text: string)
    | Log(kind: string)
    | Trace(kind: string)
    | Ui | AskQuestion | Reasoning
    | ErrorFrame(message: string)
    | Done(assistant: string)
    | Failed(assistant: string, message: string)

  const NOT_READY := "Server not ready (no DB pool)"
  const CONSCIOUS_FINAL := "conscious_final"
  const UNKNOWN := "Unknown error"

  /** The generator's local variables and the frames it has yielded. */
  datatype Chat = Chat(
    out: seq<Frame>,
    fullText: string,
    started: bool,
    phase: string,
    doneSent: bool,
    failed: bool,
    message: string,
    reasoningSent: real)

  function Start(out: seq<Frame>): Chat {
    Chat(out, "", false, CONSCIOUS_FINAL, false, false, UNKNOWN, 0.0)
  }

  function Emit(c: Chat, f: Frame): Chat {
    c.(out := c.out + [f])
  }

  function Open(c: Chat, phase: string): Chat {
    if c.started then c
    else
      var p := OrElse(phase, CONSCIOUS_FINAL);
      Emit(c, PhaseStart(Conscious, p)).(started := true, phase := p)
  }

  function Close(c: Chat): Chat {
    if c.started then Emit(c, PhaseEnd(Conscious, c.phase)) else c
  }

  function Terminal(c: Chat, fails: bool): Frame {
    if fails then Failed(c.fullText, c.message) else Done(c.fullText)
  }

  function ErrorMessage(e: Event): string
    requires e.ErrorEvent?
  {
    OrElse(e.error, OrElse(e.errorType, UNKNOWN))
  }

  // ---------- One event ----------

  function PhaseFrames(phase: string, status: string): seq<Frame> {
    if phase == "memory_recall" then
      if status == "start" then [PhaseStart(MemoryRecall, phase)]
      else if status != "" && status != "end" then []
      else [Log("memory_recall")]
    else if phase == "subconscious" then
      if status == "start" then [PhaseStart(Subconscious, phase)]
      else if status == "end" then [PhaseEnd(Subconscious, phase)]
      else []
    else if phase == "memory_write" && status == "end" then [Log("memory_write")]
    else []
  }

  function Step(c: Chat, e: Event): Chat {
    match e
    case PhaseChange(phase, status) => c.(out := c.out + PhaseFrames(phase, status))
    case LoopStart(phase) => Open(c, phase)
    case ReasoningDelta(now) =>
      if c.reasoningSent == 0.0 || now - c.reasoningSent >= 1.0
      then Emit(c, Reasoning).(reasoningSent := now) else c
    case TextDelta(text, phase) =>
      var c := Open(c, phase);
      if text == "" then c
      else Emit(c, Token(OrElse(phase, c.phase), text)).(fullText := c.fullText + text)
    case ToolStart => Emit(c, Log("tool_call"))
    case ToolResult => Emit(c, Log("tool_result"))
    case UiArtifact => Emit(c, Ui)
    case Question => Emit(c, AskQuestion)
    case ClaimFlagged => Emit(c, Log("claim_flagged"))
    case LlmRequest => Emit(c, Trace("llm_request")).(reasoningSent := 0.0)
    case LlmResponse => Emit(c, Trace("llm_response"))
    case ErrorEvent(_, _) =>
      Emit(c, ErrorFrame(ErrorMessage(e))).(failed := true, message := ErrorMessage(e))
    case LoopEnd(stopped, _) =>
      if c.doneSent then c
      else Emit(Close(c), Terminal(c, c.failed || stopped == "error")).(doneSent := true)
    case OtherEvent => c
  }

  function Run(setup: seq<Frame>, events: seq<Event>): Chat {
    if events == [] then Start(setup)
    else Step(Run(setup, events[..|events| - 1]), events[|events| - 1])
  }

  /** The frames after the last event: the normal end, or the exception handler. */
  function Ending(c: Chat, exn: Option<Description>): seq<Frame> {
    if exn.None? then
      if c.doneSent then c.out else Emit(Close(c), Terminal(c, c.failed)).out
    else if c.doneSent then Emit(c, ErrorFrame(exn.value)).out
    else
      var c := if c.failed then c else Emit(c, ErrorFrame(exn.value)).(message := exn.value);
      Emit(Close(c), Terminal(c, true)).out
  }

  /** An exception while the prompt addenda are resolved comes before any event. */
  predicate Sound(setupRaised: bool, events: seq<Event>, exn: Option<Description>) {
    setupRaised ==> events == [] && exn.Some?
  }

  function Setup(setupRaised: bool, attachments: nat): seq<Frame> {
    if setupRaised || attachments == 0 then [] else [Log("visual_attachment")]
  }

  function Frames(
      ready: bool, setupRaised: bool, attachments: nat, events: seq<Event>, exn: Option<Description>): seq<Frame>
  {
    if !ready then [ErrorFrame(NOT_READY)]
    else Ending(Run(Setup(setupRaised, attachments), events), exn)
  }

  // ---------- The generator ----------

  /** The generator's local variables, which its payload builders also read. */
  class Generator {
    var out: seq<Frame>
    var fullText: string
    var consciousStarted: bool
    var activePhase: string
    var doneSent: bool
    var streamFailed: bool
    var failureMessage: string
    var reasoningLastSent: real

    constructor (setup: seq<Frame>)
      ensures Now() == Start(setup)
    {
      out, fullText, consciousStarted, activePhase := setup, "", false, CONSCIOUS_FINAL;
      doneSent, streamFailed, failureMessage, reasoningLastSent := false, false, UNKNOWN, 0.0;
    }

    function Now(): Chat
      reads this
    {
      Chat(out, fullText, consciousStarted, activePhase, doneSent, streamFailed, failureMessage, reasoningLastSent)
    }

    method Yield(f: Frame)
      modifies this`out
      ensures out == old(out) + [f]
    {
      out := out + [f];
    }

    method StartConscious(phase: string)
      modifies this
      ensures Now() == Open(old(Now()), phase)
    {
      if !consciousStarted {
        activePhase := OrElse(phase, CONSCIOUS_FINAL);
        Yield(PhaseStart(Conscious, activePhase));
        consciousStarted := true;
      }
    }

    method EndConscious()
      modifies this`out
      ensures Now() == Close(old(Now()))
    {
      if consciousStarted {
        Yield(PhaseEnd(Conscious, activePhase));
      }
    }

    method HandlePhase(phase: string, status: string)
      modifies this`out
      ensures out == old(out) + PhaseFrames(phase, status)
    {
      if phase == "memory_recall" {
        if status == "start" {
          Yield(PhaseStart(MemoryRecall, phase));
          return;
        }
        if status != "" && status != "end" {
          return;
        }
        Yield(Log("memory_recall"));
      } else if phase == "subconscious" {
        if status == "start" {
          Yield(PhaseStart(Subconscious, phase));
        } else if status == "end" {
          Yield(PhaseEnd(Subconscious, phase));
        }
      } else if phase == "memory_write" && status == "end" {
        Yield(Log("memory_write"));
      }
    }

    method Handle(e: Event)
      modifies this
      ensures Now() == Step(old(Now()), e)
    {
      match e {
        case PhaseChange(phase, status) => HandlePhase(phase, status);
        case LoopStart(phase) => StartConscious(phase);
        case ReasoningDelta(now) =>
          if reasoningLastSent == 0.0 || now - reasoningLastSent >= 1.0 {
            Yield(Reasoning);
            reasoningLastSent := now;
          }
        case TextDelta(text, phase) =>
          StartConscious(phase);
          if text != "" {
            fullText := fullText + text;
            Yield(Token(OrElse(phase, activePhase), text));
          }
        case ToolStart => Yield(Log("tool_call"));
        case ToolResult => Yield(Log("tool_result"));
        case UiArtifact => Yield(Ui);
        case Question => Yield(AskQuestion);
        case ClaimFlagged => Yield(Log("claim_flagged"));
        case LlmRequest =>
          reasoningLastSent := 0.0;
          Yield(Trace("llm_request"));
        case LlmResponse => Yield(Trace("llm_response"));
        case ErrorEvent(error, errorType) =>
          streamFailed := true;
          failureMessage := OrElse(error, OrElse(errorType, UNKNOWN));
          Yield(ErrorFrame(failureMessage));
        case LoopEnd(stopped, _) =>
          if !doneSent {
            EndConscious();
            if streamFailed || stopped == "error" {
              Yield(Failed(fullText, failureMessage));
            } else {
              Yield(Done(fullText));
            }
            doneSent := true;
          }
        case OtherEvent =>
      }
    }

    method Finish(exn: Option<Description>)
      modifies this
      ensures out == Ending(old(Now()), exn)
    {
      if exn.None? {
        if consciousStarted && !doneSent {
          Yield(PhaseEnd(Conscious, activePhase));
        }
        if !doneSent {
          Yield(if streamFailed then Failed(fullText, failureMessage) else Done(fullText));
        }
        return;
      }
      if doneSent {
        Yield(ErrorFrame(exn.value));
        return;
      }
      if !streamFailed {
        failureMessage := exn.value;
        Yield(ErrorFrame(failureMessage));
      }
      EndConscious();
      Yield(Failed(fullText, failureMessage));
    }
  }

  method StreamChat(ready: bool, setupRaised: bool, attachments: nat, events: seq<Event>, exn: Option<Description>)
    returns (out: seq<Frame>)
    requires Sound(setupRaised, events, exn)
    ensures out == Frames(ready, setupRaised, attachments, events, exn)
  {
    if !ready {
      return [ErrorFrame(NOT_READY)];
    }
    var setup := if !setupRaised && attachments != 0 then [Log("visual_attachment")] else [];
    var g := new Generator(setup);
    for n := 0 to |events|
      invariant g.Now() == Run(setup, events[..n])
    {
      assert events[..n + 1][..n] == events[..n];
      g.Handle(events[n]);
    }
    assert events[..|events|] == events;
    g.Finish(exn);
    out := g.out;
  }

  // ---------- A client of the stream ----------

  /** Where a reader of the conscious phase stands. */
  datatype Bracket = Idle | Opened(phase: string) | Shut | Over | Broken

  /** What a client has read: the token text, the terminal frames with the text before each, the phase. */
  datatype View = View(text: string, terminals: seq<Frame>, textBefore: seq<string>, bracket: Bracket)

  predicate IsTerminal(f: Frame) {
    f.Done? || f.Failed?
  }

  /**
   * The conscious phase is opened at most once, holds every token, is closed under the name it was
   * opened with, and is not open at the one terminal frame or after it.
   */
  function Advance(b: Bracket, f: Frame): Bracket {
    match f
    case PhaseStart(Conscious, p) => if b.Idle? then Opened(p) else Broken
    case PhaseEnd(Conscious, p) => if b == Opened(p) then Shut else Broken
    case Token(_, _) => if b.Opened? then b else Broken
    case Done(_) => if b.Idle? || b.Shut? then Over else Broken
    case Failed(_, _) => if b.Idle? || b.Shut? then Over else Broken
    case _ => b
  }

  function ReadFrame(v: View, f: Frame): View {
    var bracket := Advance(v.bracket, f);
    if f.Token? then v.(text := v.text + f.text, bracket := bracket)
    else if IsTerminal(f) then
      v.(terminals := v.terminals + [f], textBefore := v.textBefore + [v.text], bracket := bracket)
    else v.(bracket := bracket)
  }

  function ReadAll(out: seq<Frame>): View {
    if out == [] then View("", [], [], Idle)
    else ReadFrame(ReadAll(out[..|out| - 1]), out[|out| - 1])
  }

  predicate Bracketed(out: seq<Frame>) {
    ReadAll(out).bracket == Over
  }

  lemma ReadMore(out: seq<Frame>, f: Frame)
    ensures ReadAll(out + [f]) == ReadFrame(ReadAll(out), f)
  {
    assert (out + [f])[..|out|] == out;
  }

  // ---------- What the run amounts to ----------

  /** The index of the first loop end, or the length of the run. */
  function FirstEnd(events: seq<Event>): (k: nat)
    ensures k <= |events|
    ensures forall i | 0 <= i < k :: !events[i].LoopEnd?
    ensures k < |events| ==> events[k].LoopEnd?
  {
    if events == [] then 0 else
    var n := |events| - 1;
    var k := FirstEnd(events[..n]);
    if k < n then k else if events[n].LoopEnd? then n else n + 1
  }

  /** The message of the last error event. */
  function LastMessage(events: seq<Event>): Option<string> {
    if events == [] then None else
    var last := events[|events| - 1];
    if last.ErrorEvent? then Some(ErrorMessage(last)) else LastMessage(events[..|events| - 1])
  }

  /** The reason the first loop end gives for stopping. */
  function EndReason(events: seq<Event>): Option<string> {
    var k := FirstEnd(events);
    if k < |events| then Some(events[k].stopped) else None
  }

  /**
   * The terminal frame of a turn with this text, last error message, reason at the first loop end
   * and exception.
   */
  function Judge(text: string, message: Option<string>, ended: Option<string>, exn: Option<Description>): Frame {
    if message.Some? then Failed(text, message.value)
    else if ended.Some? then
      if ended.value == "error" then Failed(text, UNKNOWN) else Done(text)
    else if exn.Some? then Failed(text, exn.value)
    else Done(text)
  }

  /** The run's terminal frame: the verdict at the first loop end, or where the run stops without one. */
  function Verdict(events: seq<Event>, exn: Option<Description>): Frame {
    var seen := events[..FirstEnd(events)];
    Judge(TextOf(seen), LastMessage(seen), EndReason(events), exn)
  }

  predicate OpensPhase(e: Event) {
    e.LoopStart? || e.TextDelta?
  }

  predicate SomeOpens(events: seq<Event>) {
    exists i :: 0 <= i < |events| && OpensPhase(events[i])
  }

  predicate Quiet(e: Event, wasOpen: bool) {
    (e.TextDelta? ==> e.text == "") && (OpensPhase(e) ==> wasOpen)
  }

  predicate AllQuiet(events: seq<Event>, k: nat, wasOpen: bool) {
    forall i | k < i < |events| :: Quiet(events[i], wasOpen)
  }

  /** After the first loop end no text arrives, and no phase starts that was not open before. */
  predicate QuietAfterEnd(events: seq<Event>) {
    var k := FirstEnd(events);
    AllQuiet(events, k, SomeOpens(events[..k]))
  }

  // ---------- One step of the run ----------

  predicate Plain(f: Frame) {
    !IsTerminal(f) && !f.Token? && (f.PhaseStart? || f.PhaseEnd? ==> f.origin != Conscious)
  }

  lemma PlainFrames(out: seq<Frame>, more: seq<Frame>)
    requires |more| <= 1 && forall f | f in more :: Plain(f)
    ensures ReadAll(out + more) == ReadAll(out)
  {
    if more == [] {
      assert out + more == out;
    } else {
      assert more == [more[0]] && more[0] in more;
      ReadMore(out, more[0]);
    }
  }

  /** Events that neither open the phase nor end the turn leave the client's view alone. */
  lemma PlainStep(c: Chat, e: Event)
    requires !OpensPhase(e) && (e.LoopEnd? ==> c.doneSent)
    ensures ReadAll(Step(c, e).out) == ReadAll(c.out)
  {
    match e
    case PhaseChange(phase, status) => PlainFrames(c.out, PhaseFrames(phase, status));
    case OtherEvent =>
    case LoopEnd(_, _) =>
    case ReasoningDelta(_) => PlainFrames(c.out, [Reasoning]);
    case ErrorEvent(_, _) => PlainFrames(c.out, [ErrorFrame(ErrorMessage(e))]);
    case ToolStart => PlainFrames(c.out, [Log("tool_call")]);
    case ToolResult => PlainFrames(c.out, [Log("tool_result")]);
    case UiArtifact => PlainFrames(c.out, [Ui]);
    case Question => PlainFrames(c.out, [AskQuestion]);
    case ClaimFlagged => PlainFrames(c.out, [Log("claim_flagged")]);
    case LlmRequest => PlainFrames(c.out, [Trace("llm_request")]);
    case LlmResponse => PlainFrames(c.out, [Trace("llm_response")]);
  }

  lemma OpenReads(c: Chat, phase: string)
    ensures var o := Open(c, phase); var v := ReadAll(c.out);
      ReadAll(o.out) == if c.started then v else v.(bracket := Advance(v.bracket, PhaseStart(Conscious, o.phase)))
  {
    ReadMore(c.out, PhaseStart(Conscious, OrElse(phase, CONSCIOUS_FINAL)));
  }

  lemma TextReads(c: Chat, text: string, phase: string)
    requires text != ""
    ensures var o := Open(c, phase);
      ReadAll(Step(c, TextDelta(text, phase)).out) == ReadFrame(ReadAll(o.out), Token(OrElse(phase, o.phase), text))
  {
    var o := Open(c, phase);
    ReadMore(o.out, Token(OrElse(phase, o.phase), text));
  }

  lemma CloseReads(c: Chat)
    ensures var v := ReadAll(c.out);
      ReadAll(Close(c).out) ==
        if c.started then v.(bracket := Advance(v.bracket, PhaseEnd(Conscious, c.phase))) else v
  {
    ReadMore(c.out, PhaseEnd(Conscious, c.phase));
  }

  lemma TerminalReads(c: Chat, t: Frame)
    requires IsTerminal(t)
    ensures var v := ReadAll(c.out);
      ReadAll(Emit(c, t).out)
        == View(v.text, v.terminals + [t], v.textBefore + [v.text], Advance(v.bracket, Done("")))
  {
    ReadMore(c.out, t);
  }

  /** Closing the phase and sending the terminal frame. */
  lemma EndReads(c: Chat, t: Frame)
    requires IsTerminal(t)
    ensures var v := ReadAll(c.out);
      var closed := if c.started then Advance(v.bracket, PhaseEnd(Conscious, c.phase)) else v.bracket;
      ReadAll(Emit(Close(c), t).out)
        == View(v.text, v.terminals + [t], v.textBefore + [v.text], Advance(closed, Done("")))
  {
    CloseReads(c);
    TerminalReads(Close(c), t);
  }

  // ---------- Everything else the client is shown ----------

  /** A frame that is no part of the conscious answer: a log, a trace, a question, another phase, an error. */
  predicate IsAside(f: Frame) {
    match f
    case PhaseStart(origin, _) => origin != Conscious
    case PhaseEnd(origin, _) => origin != Conscious
    case Token(_, _) => false
    case Done(_) => false
    case Failed(_, _) => false
    case Reasoning => false
    case _ => true
  }

  function Asides(out: seq<Frame>): seq<Frame> {
    if out == [] then [] else
    Asides(out[..|out| - 1]) + if IsAside(out[|out| - 1]) then [out[|out| - 1]] else []
  }

  function TokenTexts(out: seq<Frame>): seq<string> {
    if out == [] then [] else
    TokenTexts(out[..|out| - 1]) + if out[|out| - 1].Token? then [out[|out| - 1].text] else []
  }

  function PhaseAside(phase: string, status: string): seq<Frame> {
    match (phase, status)
    case ("memory_recall", "start") => [PhaseStart(MemoryRecall, "memory_recall")]
    case ("memory_recall", "end") => [Log("memory_recall")]
    case ("memory_recall", "") => [Log("memory_recall")]
    case ("subconscious", "start") => [PhaseStart(Subconscious, "subconscious")]
    case ("subconscious", "end") => [PhaseEnd(Subconscious, "subconscious")]
    case ("memory_write", "end") => [Log("memory_write")]
    case _ => []
  }

  /** What an event shows beside the answer. */
  function AsideOf(e: Event): seq<Frame> {
    match e
    case PhaseChange(phase, status) => PhaseAside(phase, status)
    case ToolStart => [Log("tool_call")]
    case ToolResult => [Log("tool_result")]
    case ClaimFlagged => [Log("claim_flagged")]
    case UiArtifact => [Ui]
    case Question => [AskQuestion]
    case LlmRequest => [Trace("llm_request")]
    case LlmResponse => [Trace("llm_response")]
    case ErrorEvent(error, errorType) =>
      [ErrorFrame(if error != "" then error else if errorType != "" then errorType else "Unknown error")]
    case _ => []
  }

  function AsidesOf(events: seq<Event>): seq<Frame> {
    if events == [] then [] else AsidesOf(events[..|events| - 1]) + AsideOf(events[|events| - 1])
  }

  lemma FilterMore(out: seq<Frame>, f: Frame)
    ensures Asides(out + [f]) == Asides(out) + (if IsAside(f) then [f] else [])
    ensures TokenTexts(out + [f]) == TokenTexts(out) + (if f.Token? then [f.text] else [])
  {
    assert (out + [f])[..|out|] == out;
  }

  lemma FilterFew(out: seq<Frame>, more: seq<Frame>)
    requires |more| <= 1
    ensures Asides(out + more) == Asides(out) + (if more != [] && IsAside(more[0]) then more else [])
    ensures TokenTexts(out + more) == TokenTexts(out) + (if more != [] && more[0].Token? then [more[0].text] else [])
  {
    if more == [] {
      assert out + more == out;
    } else {
      assert more == [more[0]];
      FilterMore(out, more[0]);
    }
  }

  lemma OpenFilters(c: Chat, phase: string)
    ensures Asides(Open(c, phase).out) == Asides(c.out) && TokenTexts(Open(c, phase).out) == TokenTexts(c.out)
  {
    FilterMore(c.out, PhaseStart(Conscious, OrElse(phase, CONSCIOUS_FINAL)));
  }

  lemma CloseFilters(c: Chat, t: Frame)
    requires IsTerminal(t)
    ensures Asides(Emit(Close(c), t).out) == Asides(c.out) && TokenTexts(Emit(Close(c), t).out) == TokenTexts(c.out)
  {
    FilterMore(c.out, PhaseEnd(Conscious, c.phase));
    FilterMore(Close(c).out, t);
  }

  predicate Filtered(c: Chat, d: Chat, e: Event) {
    Asides(d.out) == Asides(c.out) + AsideOf(e) && TokenTexts(d.out) == TokenTexts(c.out) + TextsIn(e)
  }

  lemma PhaseFramesAreAsides(phase: string, status: string)
    ensures PhaseFrames(phase, status) == PhaseAside(phase, status)
  {
  }

  /** Events other than those of the answer append their frame. */
  lemma AppendsAside(c: Chat, e: Event)
    requires !e.LoopStart? && !e.TextDelta? && !e.LoopEnd? && !e.ReasoningDelta?
    ensures Step(c, e).out == c.out + AsideOf(e)
  {
    if e.PhaseChange? {
      PhaseFramesAreAsides(e.phase, e.status);
    } else if e.OtherEvent? {
      assert c.out + [] == c.out;
    }
  }

  lemma AsideIsAside(e: Event)
    ensures |AsideOf(e)| <= 1 && (AsideOf(e) != [] ==> IsAside(AsideOf(e)[0]))
  {
  }

  lemma AppendFilters(c: Chat, d: Chat, e: Event)
    requires d.out == c.out + AsideOf(e) && !e.TextDelta?
    ensures Filtered(c, d, e)
  {
    AsideIsAside(e);
    FilterFew(c.out, AsideOf(e));
    assert TokenTexts(c.out) + [] == TokenTexts(c.out);
  }

  /** Frames that a filter drops. */
  lemma DropFilters(c: Chat, d: Chat, e: Event)
    requires Asides(d.out) == Asides(c.out) && TokenTexts(d.out) == TokenTexts(c.out)
    requires AsideOf(e) == [] && TextsIn(e) == []
    ensures Filtered(c, d, e)
  {
    assert Asides(c.out) + [] == Asides(c.out) && TokenTexts(c.out) + [] == TokenTexts(c.out);
  }

  lemma TokenFilters(c: Chat, o: Chat, d: Chat, e: Event, phase: string)
    requires Asides(o.out) == Asides(c.out) && TokenTexts(o.out) == TokenTexts(c.out)
    requires e.TextDelta? && e.text != "" && d.out == o.out + [Token(phase, e.text)]
    ensures Filtered(c, d, e)
  {
    FilterMore(o.out, Token(phase, e.text));
    assert Asides(c.out) + [] == Asides(c.out);
  }

  lemma TextFilters(c: Chat, e: Event)
    requires e.TextDelta?
    ensures Filtered(c, Step(c, e), e)
  {
    var o := Open(c, e.phase);
    OpenFilters(c, e.phase);
    if e.text == "" {
      DropFilters(c, o, e);
    } else {
      TokenFilters(c, o, Step(c, e), e, OrElse(e.phase, o.phase));
    }
  }

  lemma LoopStartFilters(c: Chat, e: Event)
    requires e.LoopStart?
    ensures Filtered(c, Step(c, e), e)
  {
    OpenFilters(c, e.phase);
    DropFilters(c, Open(c, e.phase), e);
  }

  lemma LoopEndFilters(c: Chat, e: Event)
    requires e.LoopEnd?
    ensures Filtered(c, Step(c, e), e)
  {
    var t := Terminal(c, c.failed || e.stopped == "error");
    CloseFilters(c, t);
    DropFilters(c, if c.doneSent then c else Emit(Close(c), t).(doneSent := true), e);
  }

  lemma ReasoningFilters(c: Chat, e: Event)
    requires e.ReasoningDelta?
    ensures Filtered(c, Step(c, e), e)
  {
    FilterMore(c.out, Reasoning);
    DropFilters(c, Emit(c, Reasoning).(reasoningSent := e.now), e);
    DropFilters(c, c, e);
  }

  lemma FilterStep(c: Chat, e: Event)
    ensures Filtered(c, Step(c, e), e)
  {
    if e.TextDelta? {
      TextFilters(c, e);
    } else if e.LoopStart? {
      LoopStartFilters(c, e);
    } else if e.LoopEnd? {
      LoopEndFilters(c, e);
    } else if e.ReasoningDelta? {
      ReasoningFilters(c, e);
    } else {
      AppendsAside(c, e);
      AppendFilters(c, Step(c, e), e);
    }
  }

  /** Every event's frame beside the answer is sent, once and in order, and so is every text. */
  lemma {:induction false} ShownInOrder(setup: seq<Frame>, events: seq<Event>)
    ensures Asides(Run(setup, events).out) == Asides(setup) + AsidesOf(events)
    ensures TokenTexts(Run(setup, events).out) == TokenTexts(setup) + TextsOf(events)
  {
    if events == [] {
      assert Asides(setup) + [] == Asides(setup) && TokenTexts(setup) + [] == TokenTexts(setup);
    } else {
      var before, e := events[..|events| - 1], events[|events| - 1];
      ShownInOrder(setup, before);
      FilterStep(Run(setup, before), e);
      assert Filtered(Run(setup, before), Run(setup, events), e);
      Assoc(Asides(setup), AsidesOf(before), AsideOf(e));
      Assoc(TokenTexts(setup), TextsOf(before), TextsIn(e));
    }
  }

  // ---------- Reasoning frames ----------

  predicate Emits(c: Chat, e: Event) {
    e.ReasoningDelta? && Step(c, e).out == c.out + [Reasoning]
  }

  /** The generator before event `n`. */
  function RunAt(setup: seq<Frame>, events: seq<Event>, n: nat): Chat
    requires n <= |events|
  {
    if n == 0 then Start(setup) else Step(RunAt(setup, events, n - 1), events[n - 1])
  }

  lemma {:induction false} RunAtIsRun(setup: seq<Frame>, events: seq<Event>, n: nat)
    requires n <= |events|
    ensures RunAt(setup, events, n) == Run(setup, events[..n])
  {
    if n > 0 {
      RunAtIsRun(setup, events, n - 1);
      assert events[..n][..n - 1] == events[..n - 1];
    }
  }

  /** Event `n` makes the stream send a reasoning frame. */
  predicate Reasons(setup: seq<Frame>, events: seq<Event>, n: nat)
    requires n < |events|
  {
    Emits(RunAt(setup, events, n), events[n])
  }

  lemma EmitStep(c: Chat, e: Event)
    requires Emits(c, e)
    ensures Step(c, e).reasoningSent == e.now
    ensures c.reasoningSent == 0.0 || e.now - c.reasoningSent >= 1.0
  {
    assert |Step(c, e).out| > |c.out|;
  }

  lemma QuietStep(c: Chat, e: Event)
    requires !Emits(c, e)
    ensures Step(c, e).reasoningSent == if e.LlmRequest? then 0.0 else c.reasoningSent
    ensures e.ReasoningDelta? ==> c.reasoningSent != 0.0 && e.now - c.reasoningSent < 1.0
  {
  }

  /** The time of the last reasoning frame is kept until the next request to the model. */
  lemma {:induction false} SentStays(setup: seq<Frame>, events: seq<Event>, i: nat, n: nat)
    requires i < n <= |events| && Reasons(setup, events, i) && events[i].now > 0.0
    requires forall k | i < k < n :: !events[k].LlmRequest?
    ensures RunAt(setup, events, n).reasoningSent >= events[i].now
  {
    var c := RunAt(setup, events, n - 1);
    if i < n - 1 {
      SentStays(setup, events, i, n - 1);
    }
    if Emits(c, events[n - 1]) {
      EmitStep(c, events[n - 1]);
    } else {
      QuietStep(c, events[n - 1]);
    }
  }

  /** Where the last reasoning frame since the last request to the model was sent, if one was. */
  lemma {:induction false} LastReason(setup: seq<Frame>, events: seq<Event>, n: nat) returns (i: nat)
    requires n <= |events| && RunAt(setup, events, n).reasoningSent != 0.0
    ensures i < n && Reasons(setup, events, i) && events[i].now == RunAt(setup, events, n).reasoningSent
    ensures forall k | i < k < n :: !events[k].LlmRequest?
  {
    var c := RunAt(setup, events, n - 1);
    if Emits(c, events[n - 1]) {
      EmitStep(c, events[n - 1]);
      i := n - 1;
    } else {
      QuietStep(c, events[n - 1]);
      i := LastReason(setup, events, n - 1);
    }
  }

  /** Reasoning is only held back within a second of a reasoning frame for the same request. */
  lemma ReasoningIsPrompt(setup: seq<Frame>, events: seq<Event>, n: nat) returns (i: nat)
    requires n < |events| && events[n].ReasoningDelta? && !Reasons(setup, events, n)
    ensures i < n && Reasons(setup, events, i) && events[n].now - events[i].now < 1.0
    ensures forall k | i < k < n :: !events[k].LlmRequest?
  {
    QuietStep(RunAt(setup, events, n), events[n]);
    i := LastReason(setup, events, n);
  }

  /** Between two requests to the model reasoning frames are at least a second apart. */
  lemma ReasoningIsSpaced(setup: seq<Frame>, events: seq<Event>, i: nat, n: nat)
    requires i < n < |events| && Reasons(setup, events, i) && Reasons(setup, events, n) && events[i].now > 0.0
    requires forall k | i < k < n :: !events[k].LlmRequest?
    ensures events[n].now - events[i].now >= 1.0
  {
    SentStays(setup, events, i, n);
    EmitStep(RunAt(setup, events, n), events[n]);
  }

  // ---------- The invariant of every run ----------

  /** The flags of the generator after a run. */
  ghost predicate Flags(c: Chat, events: seq<Event>) {
    && (c.doneSent <==> FirstEnd(events) < |events|)
    && c.fullText == TextOf(events)
    && (c.failed <==> LastMessage(events).Some?)
    && c.message == (if LastMessage(events).Some? then LastMessage(events).value else UNKNOWN)
    && (c.started <==> SomeOpens(events))
  }

  /** A run past its first loop end: its verdict, the text before it, and whether it stayed quiet. */
  datatype Ended = Ended(verdict: Frame, text: string, quiet: bool)

  function EndedOf(events: seq<Event>): Ended {
    Ended(Verdict(events, None), TextOf(events[..FirstEnd(events)]), QuietAfterEnd(events))
  }

  /** What a client has read. */
  ghost predicate Sees(v: View, c: Chat, ended: Ended) {
    && v.text == c.fullText
    && (if c.doneSent then
          && v.terminals == [ended.verdict] && v.textBefore == [ended.text]
          && v.bracket == if ended.quiet then Over else Broken
        else
          && v.terminals == [] && v.textBefore == []
          && v.bracket == if c.started then Opened(c.phase) else Idle)
  }

  ghost predicate Seen(c: Chat, events: seq<Event>) {
    Sees(ReadAll(c.out), c, EndedOf(events))
  }

  /** The specification functions on a run extended by one event. */
  lemma SpecStep(before: seq<Event>, e: Event)
    ensures var after := before + [e];
      && FirstEnd(after) == (if FirstEnd(before) < |before| then FirstEnd(before)
                             else if e.LoopEnd? then |before| else |before| + 1)
      && LastMessage(after) == (if e.ErrorEvent? then Some(ErrorMessage(e)) else LastMessage(before))
  {
    assert (before + [e])[..|before|] == before;
  }

  lemma OpensStep(before: seq<Event>, e: Event)
    ensures SomeOpens(before + [e]) <==> SomeOpens(before) || OpensPhase(e)
  {
    var after := before + [e];
    assert forall i | 0 <= i < |before| :: after[i] == before[i];
    assert after[|before|] == e;
  }

  lemma TextOfStep(before: seq<Event>, e: Event)
    ensures TextOf(before + [e]) == TextOf(before) + if e.TextDelta? then e.text else ""
  {
    var after := before + [e];
    TextStep(after, |before|);
    assert after[..|before|] == before && after[..|before| + 1] == after;
  }

  /** What one event does to the flags. */
  predicate Flagged(c: Chat, d: Chat, e: Event) {
    && (d.doneSent <==> c.doneSent || e.LoopEnd?)
    && d.fullText == c.fullText + (if e.TextDelta? then e.text else "")
    && (d.failed <==> c.failed || e.ErrorEvent?)
    && d.message == (if e.ErrorEvent? then ErrorMessage(e) else c.message)
    && (d.started <==> c.started || OpensPhase(e))
  }

  lemma FlagsOf(c: Chat, e: Event)
    ensures Flagged(c, Step(c, e), e)
  {
    assert c.fullText + "" == c.fullText;
  }

  lemma FlagsFollow(c: Chat, d: Chat, before: seq<Event>, e: Event)
    requires Flags(c, before) && Flagged(c, d, e)
    ensures Flags(d, before + [e])
  {
    SpecStep(before, e);
    OpensStep(before, e);
    TextOfStep(before, e);
  }

  lemma FlagsStep(c: Chat, before: seq<Event>, e: Event)
    requires Flags(c, before)
    ensures Flags(Step(c, e), before + [e])
  {
    FlagsOf(c, e);
    FlagsFollow(c, Step(c, e), before, e);
  }

  /** The verdict looks no further than the first loop end. */
  lemma VerdictOfPrefix(a: seq<Event>, b: seq<Event>, k: nat)
    requires k < |a| && k < |b| && a[..k] == b[..k] && a[k] == b[k]
    requires FirstEnd(a) == k && FirstEnd(b) == k
    ensures Verdict(a, None) == Verdict(b, None)
  {
    assert EndReason(a) == EndReason(b);
  }

  lemma JudgeIgnoresException(text: string, message: Option<string>, ended: Option<string>, exn: Option<Description>)
    requires ended.Some?
    ensures Judge(text, message, ended, exn) == Judge(text, message, ended, None)
  {
  }

  lemma VerdictIgnoresException(events: seq<Event>, exn: Option<Description>)
    requires FirstEnd(events) < |events|
    ensures Verdict(events, exn) == Verdict(events, None)
  {
    var seen := events[..FirstEnd(events)];
    JudgeIgnoresException(TextOf(seen), LastMessage(seen), EndReason(events), exn);
  }

  /** Events after the first loop end leave the verdict alone. */
  lemma VerdictAfterEnd(before: seq<Event>, e: Event)
    requires FirstEnd(before) < |before|
    ensures FirstEnd(before + [e]) == FirstEnd(before)
    ensures (before + [e])[..FirstEnd(before)] == before[..FirstEnd(before)]
    ensures Verdict(before + [e], None) == Verdict(before, None)
  {
    SpecStep(before, e);
    var k := FirstEnd(before);
    assert (before + [e])[..k] == before[..k];
    VerdictOfPrefix(before, before + [e], k);
  }

  /** At the first loop end the whole run so far is judged. */
  lemma VerdictAtEnd(before: seq<Event>, e: Event)
    requires FirstEnd(before) == |before| && e.LoopEnd?
    ensures FirstEnd(before + [e]) == |before| && (before + [e])[..|before|] == before
    ensures Verdict(before + [e], None) == Judge(TextOf(before), LastMessage(before), Some(e.stopped), None)
    ensures QuietAfterEnd(before + [e])
  {
    SpecStep(before, e);
    var after := before + [e];
    assert after[..|before|] == before && after[|before|] == e;
    assert EndReason(after) == Some(e.stopped);
  }

  /** A run without a loop end is judged where it stops. */
  lemma VerdictWithoutEnd(events: seq<Event>, exn: Option<Description>)
    requires FirstEnd(events) == |events|
    ensures Verdict(events, exn) == Judge(TextOf(events), LastMessage(events), None, exn)
    ensures QuietAfterEnd(events)
  {
    assert events[..|events|] == events;
    assert EndReason(events) == None;
  }

  lemma AllQuietStep(before: seq<Event>, e: Event, k: nat, wasOpen: bool)
    requires k < |before|
    ensures AllQuiet(before + [e], k, wasOpen) <==> AllQuiet(before, k, wasOpen) && Quiet(e, wasOpen)
  {
    var after := before + [e];
    assert forall i | 0 <= i < |before| :: after[i] == before[i];
    assert after[|before|] == e;
  }

  lemma OpensSplit(events: seq<Event>, k: nat)
    requires k <= |events|
    ensures SomeOpens(events) <==> SomeOpens(events[..k]) || exists i :: k <= i < |events| && OpensPhase(events[i])
  {
    var seen := events[..k];
    assert forall i | 0 <= i < k :: seen[i] == events[i];
    if i :| 0 <= i < k && OpensPhase(seen[i]) {
      assert OpensPhase(events[i]);
    }
    if i :| 0 <= i < |events| && OpensPhase(events[i]) {
      assert i < k ==> OpensPhase(seen[i]);
    }
  }

  lemma QuietAddsNoOpening(events: seq<Event>, k: nat, wasOpen: bool)
    requires k < |events| && !OpensPhase(events[k]) && AllQuiet(events, k, wasOpen)
    ensures (exists i :: k <= i < |events| && OpensPhase(events[i])) ==> wasOpen
  {
    if i :| k <= i < |events| && OpensPhase(events[i]) {
      assert Quiet(events[i], wasOpen);
    }
  }

  /** On a quiet run the phase is open, or was, exactly when it was before the first loop end. */
  lemma QuietOpens(events: seq<Event>)
    requires FirstEnd(events) < |events| && QuietAfterEnd(events)
    ensures SomeOpens(events) <==> SomeOpens(events[..FirstEnd(events)])
  {
    var k := FirstEnd(events);
    OpensSplit(events, k);
    QuietAddsNoOpening(events, k, SomeOpens(events[..k]));
  }

  lemma SeesMoreText(c: Chat, e: Event, ended: Ended, wasOpen: bool)
    requires Sees(ReadAll(c.out), c, ended) && (c.doneSent && ended.quiet ==> (c.started <==> wasOpen))
    requires e.TextDelta?
    ensures Sees(ReadAll(Step(c, e).out), Step(c, e), ended.(quiet := ended.quiet && Quiet(e, wasOpen)))
  {
    OpenReads(c, e.phase);
    if e.text != "" {
      TextReads(c, e.text, e.phase);
    } else {
      assert Step(c, e) == Open(c, e.phase);
    }
  }

  lemma SeesMore(c: Chat, e: Event, ended: Ended, wasOpen: bool)
    requires Sees(ReadAll(c.out), c, ended) && (c.doneSent && ended.quiet ==> (c.started <==> wasOpen))
    requires e.LoopEnd? ==> c.doneSent
    ensures Sees(ReadAll(Step(c, e).out), Step(c, e), ended.(quiet := ended.quiet && Quiet(e, wasOpen)))
  {
    if e.TextDelta? {
      SeesMoreText(c, e, ended, wasOpen);
    } else if e.LoopStart? {
      OpenReads(c, e.phase);
    } else {
      PlainStep(c, e);
    }
  }

  lemma SeesEnd(c: Chat, e: Event, ended: Ended)
    requires Sees(ReadAll(c.out), c, ended) && !c.doneSent && e.LoopEnd?
    ensures var t := Terminal(c, c.failed || e.stopped == "error");
      Sees(ReadAll(Step(c, e).out), Step(c, e), Ended(t, c.fullText, true))
  {
    var t := Terminal(c, c.failed || e.stopped == "error");
    assert Step(c, e) == Emit(Close(c), t).(doneSent := true);
    ClosingOpen(c, t);
  }

  /** After the first loop end only the quietness of the run can change. */
  lemma EndedStep(before: seq<Event>, e: Event)
    requires FirstEnd(before) < |before|
    ensures var was := EndedOf(before);
      EndedOf(before + [e]) == was.(quiet := was.quiet && Quiet(e, SomeOpens(before[..FirstEnd(before)])))
  {
    var k := FirstEnd(before);
    VerdictAfterEnd(before, e);
    AllQuietStep(before, e, k, SomeOpens(before[..k]));
  }

  lemma SeenAfterEnd(c: Chat, before: seq<Event>, e: Event)
    requires Seen(c, before) && c.doneSent && FirstEnd(before) < |before| && (c.started <==> SomeOpens(before))
    ensures Seen(Step(c, e), before + [e])
  {
    var was, wasOpen := EndedOf(before), SomeOpens(before[..FirstEnd(before)]);
    EndedStep(before, e);
    if was.quiet {
      QuietOpens(before);
    }
    SeesMore(c, e, was, wasOpen);
  }

  lemma SeenAtEnd(c: Chat, before: seq<Event>, e: Event)
    requires Flags(c, before) && Seen(c, before) && !c.doneSent && e.LoopEnd?
    ensures Seen(Step(c, e), before + [e])
  {
    VerdictAtEnd(before, e);
    SeesEnd(c, e, EndedOf(before));
  }

  /** Until the turn is over it does not matter how it will be judged. */
  lemma SeesBeforeEnd(c: Chat, e: Event, a: Ended, b: Ended)
    requires Sees(ReadAll(c.out), c, a) && !c.doneSent && !e.LoopEnd?
    ensures Sees(ReadAll(Step(c, e).out), Step(c, e), b)
  {
    SeesMore(c, e, a, false);
    StaysOpen(c, e);
  }

  lemma StaysOpen(c: Chat, e: Event)
    requires !c.doneSent && !e.LoopEnd?
    ensures !Step(c, e).doneSent
  {
  }

  lemma SeenStep(c: Chat, before: seq<Event>, e: Event)
    requires Flags(c, before) && Seen(c, before)
    ensures Seen(Step(c, e), before + [e])
  {
    if c.doneSent {
      SeenAfterEnd(c, before, e);
    } else if e.LoopEnd? {
      SeenAtEnd(c, before, e);
    } else {
      SeesBeforeEnd(c, e, EndedOf(before), EndedOf(before + [e]));
    }
  }

  ghost predicate Good(c: Chat, events: seq<Event>) {
    Flags(c, events) && Seen(c, events)
  }

  lemma GoodStart(setup: seq<Frame>)
    requires |setup| <= 1 && forall f | f in setup :: Plain(f)
    ensures Good(Start(setup), [])
  {
    PlainFrames([], setup);
    assert [] + setup == setup;
  }

  lemma GoodStep(c: Chat, before: seq<Event>, e: Event, d: Chat, events: seq<Event>)
    requires Good(c, before) && events == before + [e] && d == Step(c, e)
    ensures Good(d, events)
  {
    FlagsStep(c, before, e);
    SeenStep(c, before, e);
  }

  lemma {:induction false} RunInvariant(setup: seq<Frame>, events: seq<Event>)
    requires |setup| <= 1 && forall f | f in setup :: Plain(f)
    ensures Good(Run(setup, events), events)
  {
    if events == [] {
      GoodStart(setup);
    } else {
      var before, e := events[..|events| - 1], events[|events| - 1];
      assert events == before + [e];
      RunInvariant(setup, before);
      GoodStep(Run(setup, before), before, e, Run(setup, events), events);
    }
  }

  // ---------- The stream ----------

  /**
   * A ready stream sends exactly one terminal frame, and it is the run's verdict: failed exactly
   * when an error event, a failed first loop end or an exception came before it; its text is all
   * the token text sent before it.
   */
  lemma OneTerminalFrame(setupRaised: bool, attachments: nat, events: seq<Event>, exn: Option<Description>)
    requires Sound(setupRaised, events, exn)
    ensures var v := ReadAll(Frames(true, setupRaised, attachments, events, exn));
      var t := Verdict(events, exn);
      && v.terminals == [t] && v.textBefore == [t.assistant]
      && v.text == TextOf(events)
  {
    var setup := Setup(setupRaised, attachments);
    RunInvariant(setup, events);
    Closing(Run(setup, events), events, exn);
  }

  ghost predicate Closed(v: View, events: seq<Event>, exn: Option<Description>) {
    && v.terminals == [Verdict(events, exn)]
    && v.textBefore == [Verdict(events, exn).assistant]
    && v.text == TextOf(events)
    && v.bracket == if QuietAfterEnd(events) then Over else Broken
  }

  lemma Closing(c: Chat, events: seq<Event>, exn: Option<Description>)
    requires Flags(c, events) && Seen(c, events)
    ensures Closed(ReadAll(Ending(c, exn)), events, exn)
  {
    if c.doneSent {
      ClosingAfterEnd(c, events, exn);
    } else {
      VerdictWithoutEnd(events, exn);
      if exn.None? || c.failed {
        ClosingOpen(c, Terminal(c, c.failed));
      } else {
        PlainFrames(c.out, [ErrorFrame(exn.value)]);
        var d := Emit(c, ErrorFrame(exn.value)).(message := exn.value);
        ClosingOpen(d, Terminal(d, true));
      }
    }
  }

  lemma JudgeText(text: string, message: Option<string>, ended: Option<string>, exn: Option<Description>)
    ensures Judge(text, message, ended, exn).assistant == text
  {
  }

  lemma VerdictText(events: seq<Event>, exn: Option<Description>)
    ensures Verdict(events, exn).assistant == TextOf(events[..FirstEnd(events)])
  {
    var seen := events[..FirstEnd(events)];
    JudgeText(TextOf(seen), LastMessage(seen), EndReason(events), exn);
  }

  lemma ClosedWhenSeen(v: View, c: Chat, events: seq<Event>, exn: Option<Description>)
    requires c.doneSent && c.fullText == TextOf(events) && Sees(v, c, EndedOf(events))
    requires FirstEnd(events) < |events|
    ensures Closed(v, events, exn)
  {
    VerdictIgnoresException(events, exn);
    VerdictText(events, exn);
  }

  lemma ClosingAfterEnd(c: Chat, events: seq<Event>, exn: Option<Description>)
    requires Flags(c, events) && Seen(c, events) && c.doneSent
    ensures Closed(ReadAll(Ending(c, exn)), events, exn)
  {
    if exn.Some? {
      PlainFrames(c.out, [ErrorFrame(exn.value)]);
    }
    ClosedWhenSeen(ReadAll(c.out), c, events, exn);
  }

  lemma ClosingOpen(c: Chat, t: Frame)
    requires IsTerminal(t)
    requires ReadAll(c.out) == View(c.fullText, [], [], if c.started then Opened(c.phase) else Idle)
    ensures ReadAll(Emit(Close(c), t).out) == View(c.fullText, [t], [c.fullText], Over)
  {
    EndReads(c, t);
  }

  /**
   * The conscious phase is a well-formed bracket around the tokens exactly when, after the first
   * loop end, no text arrives and no phase starts that was not open before.
   */
  lemma BracketedIffQuiet(setupRaised: bool, attachments: nat, events: seq<Event>, exn: Option<Description>)
    requires Sound(setupRaised, events, exn)
    ensures Bracketed(Frames(true, setupRaised, attachments, events, exn)) <==> QuietAfterEnd(events)
  {
    var setup := Setup(setupRaised, attachments);
    RunInvariant(setup, events);
    Closing(Run(setup, events), events, exn);
  }

  /** A run that is not quiet: a text after a good loop end starts a phase after the turn is over. */
  lemma LateTextBreaksBracket()
    ensures var events := [LoopEnd("completed", false), TextDelta("hi", "")];
      && !QuietAfterEnd(events)
      && Frames(true, false, 0, events, None)
        == [Done(""), PhaseStart(Conscious, CONSCIOUS_FINAL), Token(CONSCIOUS_FINAL, "hi")]
      && !Bracketed(Frames(true, false, 0, events, None))
  {
    var e0, e1 := LoopEnd("completed", false), TextDelta("hi", "");
    var events := [e0, e1];
    assert events[..1] == [e0] && [e0][..0] == [];
    assert FirstEnd(events) == 0 by {
      assert FirstEnd([e0]) == 0;
    }
    assert !Quiet(events[1], false) && !SomeOpens(events[..0]);
    assert Run([], [e0]) == Step(Run([], []), e0);
    assert Run([], events) == Step(Run([], [e0]), e1);
    BracketedIffQuiet(false, 0, events, None);
  }

  /**
   * All that a stream shows beside the answer: the attachments' log, the events' frames in order, and the
   * exception's error frame, unless an error event came before it and no loop end; and all the texts.
   */
  lemma StreamShowsAll(setupRaised: bool, attachments: nat, events: seq<Event>, exn: Option<Description>)
    requires Sound(setupRaised, events, exn)
    ensures var out := Frames(true, setupRaised, attachments, events, exn);
      && TokenTexts(out) == TextsOf(events)
      && Asides(out)
        == (if setupRaised || attachments == 0 then [] else [Log("visual_attachment")])
        + AsidesOf(events)
        + (if exn.Some? && (FirstEnd(events) < |events| || LastMessage(events).None?)
           then [ErrorFrame(exn.value)] else [])
  {
    var setup := Setup(setupRaised, attachments);
    var c := Run(setup, events);
    ShownInOrder(setup, events);
    SetupFilters(setupRaised, attachments);
    assert [] + TextsOf(events) == TextsOf(events);
    RunFlags(setup, events);
    EndingFilters(c, exn);
  }

  lemma SetupFilters(setupRaised: bool, attachments: nat)
    ensures var setup := Setup(setupRaised, attachments);
      && Asides(setup) == setup && TokenTexts(setup) == []
      && |setup| <= 1 && forall f | f in setup :: Plain(f)
  {
    FilterFew([], Setup(setupRaised, attachments));
    assert [] + Setup(setupRaised, attachments) == Setup(setupRaised, attachments);
  }

  lemma RunFlags(setup: seq<Frame>, events: seq<Event>)
    requires |setup| <= 1 && forall f | f in setup :: Plain(f)
    ensures Run(setup, events).doneSent <==> FirstEnd(events) < |events|
    ensures Run(setup, events).failed <==> LastMessage(events).Some?
  {
    RunInvariant(setup, events);
  }

  lemma EndingFilters(c: Chat, exn: Option<Description>)
    ensures TokenTexts(Ending(c, exn)) == TokenTexts(c.out)
    ensures Asides(Ending(c, exn))
      == Asides(c.out) + if exn.Some? && (c.doneSent || !c.failed) then [ErrorFrame(exn.value)] else []
  {
    assert Asides(c.out) + [] == Asides(c.out);
    if exn.None? {
      CloseFilters(c, Terminal(c, c.failed));
    } else {
      FilterMore(c.out, ErrorFrame(exn.value));
      var d := if c.failed then c else Emit(c, ErrorFrame(exn.value)).(message := exn.value);
      CloseFilters(d, Terminal(d, true));
    }
  }

  /** The verdict, unfolded: what makes a turn fail. */
  lemma FailedWhen(events: seq<Event>, exn: Option<Description>)
    ensures var k := FirstEnd(events);
      Verdict(events, exn).Failed? <==>
        || (exists i :: 0 <= i < k && events[i].ErrorEvent?)
        || (k < |events| && events[k].stopped == "error")
        || (k == |events| && exn.Some?)
  {
    MessageExists(events[..FirstEnd(events)]);
    var k := FirstEnd(events);
    assert forall i | 0 <= i < k :: events[..k][i] == events[i];
  }

  /** The last error event before the end of the turn gives the failure its message. */
  lemma FailsWithLastError(events: seq<Event>, exn: Option<Description>, k: nat)
    requires k < FirstEnd(events) && events[k].ErrorEvent?
    requires forall i | k < i < FirstEnd(events) :: !events[i].ErrorEvent?
    ensures Verdict(events, exn) == Failed(TextOf(events[..FirstEnd(events)]),
      if events[k].error != "" then events[k].error
      else if events[k].errorType != "" then events[k].errorType else "Unknown error")
  {
    LastMessageIsLast(events[..FirstEnd(events)], k);
  }

  lemma {:induction false} LastMessageIsLast(events: seq<Event>, k: nat)
    requires k < |events| && events[k].ErrorEvent? && forall i | k < i < |events| :: !events[i].ErrorEvent?
    ensures LastMessage(events) == Some(ErrorMessage(events[k]))
  {
    if k < |events| - 1 {
      LastMessageIsLast(events[..|events| - 1], k);
    }
  }

  /** The phase is named by the first event that opens it, or else has the default name. */
  lemma {:induction false} PhaseIsNamed(setup: seq<Frame>, events: seq<Event>, k: nat)
    requires k < |events| && OpensPhase(events[k]) && forall i | 0 <= i < k :: !OpensPhase(events[i])
    requires |setup| <= 1 && forall f | f in setup :: Plain(f)
    ensures Run(setup, events).started
    ensures Run(setup, events).phase == if events[k].phase == "" then "conscious_final" else events[k].phase
  {
    var n := |events| - 1;
    if k < n {
      PhaseIsNamed(setup, events[..n], k);
      PhaseStays(Run(setup, events[..n]), events[n]);
    } else {
      NotStarted(setup, events[..n]);
      OpensAs(Run(setup, events[..n]), events[n]);
    }
  }

  lemma NotStarted(setup: seq<Frame>, events: seq<Event>)
    requires |setup| <= 1 && forall f | f in setup :: Plain(f)
    requires forall i | 0 <= i < |events| :: !OpensPhase(events[i])
    ensures !Run(setup, events).started
  {
    RunInvariant(setup, events);
    assert !SomeOpens(events);
  }

  lemma OpensAs(c: Chat, e: Event)
    requires !c.started && OpensPhase(e)
    ensures Step(c, e).started && Step(c, e).phase == if e.phase == "" then "conscious_final" else e.phase
  {
  }

  lemma PhaseStays(c: Chat, e: Event)
    requires c.started
    ensures Step(c, e).started && Step(c, e).phase == c.phase
  {
  }

  lemma {:induction false} MessageExists(events: seq<Event>)
    ensures LastMessage(events).Some? <==> exists i :: 0 <= i < |events| && events[i].ErrorEvent?
  {
    if events != [] {
      var n := |events| - 1;
      MessageExists(events[..n]);
      assert forall i | 0 <= i < n :: events[..n][i] == events[i];
      if events[n].ErrorEvent? {
      } else if LastMessage(events[..n]).Some? {
        var i :| 0 <= i < n && events[..n][i].ErrorEvent?;
        assert events[i].ErrorEvent?;
      }
    }
  }
}
