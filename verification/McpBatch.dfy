/**
 The `batch` tool of apps/hexis_mcp_server.py: a list of tool calls, which may be batches again, run
 in order against one client whose answers may depend on every call made before.
 */
module McpBatch {
  import opened Prelude

  datatype Request = Request(name: string, arguments: string)

  /**
   * One entry of `operations`: an entry without a string name, a call rejected before it reaches the
   * client (an unknown tool, a missing argument), a call to the client, or a nested batch.
   */
  datatype Op =
    | Malformed(shown: string)
    | Rejected(name: string, error: string)
    | Call(request: Request)
    | Batch(ops: seq<Op>, continueOnError: bool)

  datatype Outcome = Success(value: Value) | Failure(error: string)
  datatype Value = Plain(json: string) | Results(entries: seq<Entry>)
  datatype Entry = Entry(name: string, outcome: Outcome)

  const BATCH := "batch"
  const NAME_ERROR := "operation.name must be a string"

  function NameOf(op: Op): string {
    match op
    case Malformed(shown) => shown
    case Rejected(name, _) => name
    case Call(request) => request.name
    case Batch(_, _) => BATCH
  }

  function EntryFor(op: Op, o: Outcome): Entry {
    Entry(if o.Failure? && NameOf(op) == "" then "<unknown>" else NameOf(op), o)
  }

  /** A client call returns a value, made JSON-able, or raises. */
  datatype Reply = Answered(json: string) | RaisedError(error: string)

  function Settle(r: Reply): Outcome {
    match r
    case Answered(json) => Success(Plain(json))
    case RaisedError(error) => Failure(error)
  }

  /** The client: what it answers to a request after the requests made so far. */
  type Client = (seq<Request>, Request) -> Reply

  // ---------- What a call does ----------

  /** The requests made, the entries built, and the exception that ended the batch, if one did. */
  datatype Run = Run(log: seq<Request>, entries: seq<Entry>, error: Option<string>)

  function RunOp(client: Client, op: Op, log: seq<Request>): (seq<Request>, Outcome)
    decreases op, 1
  {
    match op
    case Malformed(_) => (log, Failure(NAME_ERROR))
    case Rejected(_, error) => (log, Failure(error))
    case Call(request) => (log + [request], Settle(client(log, request)))
    case Batch(ops, continueOnError) =>
      var run := RunOps(client, ops, continueOnError, log);
      (run.log, if run.error.Some? then Failure(run.error.value) else Success(Results(run.entries)))
  }

  function RunOps(client: Client, ops: seq<Op>, continueOnError: bool, log: seq<Request>): Run
    decreases ops, 0
  {
    if ops == [] then Run(log, [], None) else
    var (log1, o) := RunOp(client, ops[0], log);
    if o.Failure? && !continueOnError then Run(log1, [EntryFor(ops[0], o)], Some(o.error))
    else
      var rest := RunOps(client, ops[1..], continueOnError, log1);
      rest.(entries := [EntryFor(ops[0], o)] + rest.entries)
  }

  // ---------- The dispatcher ----------

  class CognitiveMemory {
    const respond: Client
    var log: seq<Request>

    constructor (respond: Client)
      ensures this.respond == respond && log == []
    {
      this.respond, log := respond, [];
    }

    method Ask(request: Request) returns (o: Outcome)
      modifies this
      ensures log == old(log) + [request] && o == Settle(respond(old(log), request))
    {
      o := Settle(respond(log, request));
      log := log + [request];
    }

    method DispatchTool(op: Op) returns (o: Outcome)
      modifies this
      ensures (log, o) == RunOp(respond, op, old(log))
      // A call is made once; its answer is its result, and its exception is passed on.
      ensures op.Call? ==>
        && log == old(log) + [op.request]
        && match respond(old(log), op.request)
           case Answered(json) => o == Success(Plain(json))
           case RaisedError(error) => o == Failure(error)
      // What never reaches the client raises.
      ensures op.Malformed? || op.Rejected? ==> log == old(log) && o.Failure?
      ensures op.Rejected? ==> o == Failure(op.error)
      ensures op.Malformed? ==> o == Failure("operation.name must be a string")
      decreases op, 1
    {
      match op {
        case Malformed(_) => o := Failure(NAME_ERROR);
        case Rejected(_, error) => o := Failure(error);
        case Call(request) => o := Ask(request);
        case Batch(ops, continueOnError) => o := DispatchBatch(ops, continueOnError);
      }
    }

    /** The `batch` case. */
    method DispatchBatch(ops: seq<Op>, continueOnError: bool) returns (o: Outcome)
      modifies this
      ensures var run := RunOps(respond, ops, continueOnError, old(log));
        && log == run.log
        && o == if run.error.Some? then Failure(run.error.value) else Success(Results(run.entries))
      decreases ops, 0
    {
      var results: seq<Entry> := [];
      for i := 0 to |ops|
        invariant RunOps(respond, ops, continueOnError, old(log))
          == Prepend(results, RunOps(respond, ops[i..], continueOnError, log))
      {
        assert ops[i..][0] == ops[i] && ops[i..][1..] == ops[i + 1..];
        ghost var before := log;
        var r := DispatchTool(ops[i]);
        PrependStep(respond, ops[i..], continueOnError, before, results);
        results := results + [EntryFor(ops[i], r)];
        if r.Failure? && !continueOnError {
          return Failure(r.error);
        }
      }
      assert ops[|ops|..] == [] && results + [] == results;
      o := Success(Results(results));
    }
  }

  function Prepend(entries: seq<Entry>, run: Run): Run {
    run.(entries := entries + run.entries)
  }

  lemma PrependStep(client: Client, ops: seq<Op>, continueOnError: bool, log: seq<Request>, results: seq<Entry>)
    requires ops != []
    ensures var (log1, o) := RunOp(client, ops[0], log);
      var all, run := results + [EntryFor(ops[0], o)], Prepend(results, RunOps(client, ops, continueOnError, log));
      if o.Failure? && !continueOnError then run == Run(log1, all, Some(o.error))
      else run == Prepend(all, RunOps(client, ops[1..], continueOnError, log1))
  {
    var (log1, o) := RunOp(client, ops[0], log);
    var rest := RunOps(client, ops[1..], continueOnError, log1);
    assert results + ([EntryFor(ops[0], o)] + rest.entries) == (results + [EntryFor(ops[0], o)]) + rest.entries;
  }

  // ---------- Fail-fast batches flatten ----------

  /** Every nested batch stops at its first error. */
  predicate FailFast(ops: seq<Op>) {
    forall i | 0 <= i < |ops| :: ops[i].Batch? ==> !ops[i].continueOnError && FailFast(ops[i].ops)
  }

  /** The calls of a tree of batches, left to right. */
  function Flatten(ops: seq<Op>): seq<Op> {
    if ops == [] then []
    else (if ops[0].Batch? then Flatten(ops[0].ops) else [ops[0]]) + Flatten(ops[1..])
  }

  /** The entries of nested results, left to right. */
  function FlatEntries(entries: seq<Entry>): seq<Entry> {
    if entries == [] then []
    else
      var e := entries[0];
      (if e.outcome.Success? && e.outcome.value.Results? then FlatEntries(e.outcome.value.entries) else [e])
      + FlatEntries(entries[1..])
  }

  lemma {:induction false} FlattenHasNoBatch(ops: seq<Op>)
    ensures forall i | 0 <= i < |Flatten(ops)| :: !Flatten(ops)[i].Batch?
  {
    if ops != [] {
      if ops[0].Batch? {
        FlattenHasNoBatch(ops[0].ops);
      }
      FlattenHasNoBatch(ops[1..]);
    }
  }

  /** Running two lists one after the other. */
  lemma {:induction false} RunConcat(client: Client, a: seq<Op>, b: seq<Op>, log: seq<Request>)
    ensures var first := RunOps(client, a, false, log);
      RunOps(client, a + b, false, log) ==
        if first.error.Some? then first
        else
          var second := RunOps(client, b, false, first.log);
          second.(entries := first.entries + second.entries)
    decreases |a|
  {
    if a == [] {
      assert a + b == b;
    } else {
      assert (a + b)[1..] == a[1..] + b;
      RunConcat(client, a[1..], b, RunOp(client, a[0], log).0);
    }
  }

  lemma {:induction false} FlatConcat(a: seq<Entry>, b: seq<Entry>)
    ensures FlatEntries(a + b) == FlatEntries(a) + FlatEntries(b)
  {
    if a == [] {
      assert a + b == b;
    } else {
      assert (a + b)[1..] == a[1..] + b;
      FlatConcat(a[1..], b);
    }
  }

  /**
   * A tree of fail-fast batches makes the same client calls in the same order as its flat list, raises
   * the same exception or none, and returns the flat list's entries once nested results are unfolded.
   */
  lemma {:induction false} FailFastFlattens(client: Client, ops: seq<Op>, log: seq<Request>)
    requires FailFast(ops)
    ensures var nested, flat := RunOps(client, ops, false, log), RunOps(client, Flatten(ops), false, log);
      && nested.log == flat.log
      && nested.error == flat.error
      && (nested.error.None? ==> FlatEntries(nested.entries) == flat.entries)
    decreases ops
  {
    if ops == [] {
      return;
    }
    var head := if ops[0].Batch? then Flatten(ops[0].ops) else [ops[0]];
    HeadFlattens(client, ops[0], log);
    RunConcat(client, head, Flatten(ops[1..]), log);
    var (log1, o) := RunOp(client, ops[0], log);
    if o.Success? {
      FailFastFlattens(client, ops[1..], log1);
      var nested := RunOps(client, ops, false, log);
      assert nested.entries[1..] == RunOps(client, ops[1..], false, log1).entries;
    }
  }

  lemma {:induction false} HeadFlattens(client: Client, op: Op, log: seq<Request>)
    requires FailFast([op])
    ensures var (log1, o) := RunOp(client, op, log);
      var flat := RunOps(client, if op.Batch? then Flatten(op.ops) else [op], false, log);
      && flat.log == log1
      && (flat.error.Some? <==> o.Failure?)
      && (o.Failure? ==> flat.error == Some(o.error))
      && (o.Success? ==>
            flat.entries == if o.value.Results? then FlatEntries(o.value.entries) else [EntryFor(op, o)])
    decreases op
  {
    assert [op][0] == op;
    if op.Batch? {
      FailFastFlattens(client, op.ops, log);
    } else {
      assert [op][1..] == [];
    }
  }

  // ---------- Lists of calls ----------

  predicate AllCalls(ops: seq<Op>) {
    forall i | 0 <= i < |ops| :: ops[i].Call?
  }

  function Requests(ops: seq<Op>): (rs: seq<Request>)
    requires AllCalls(ops)
    ensures |rs| == |ops|
  {
    seq(|ops|, i requires 0 <= i < |ops| => ops[i].request)
  }

  /** What the client answers to call `i` when every call before it was made. */
  function ReplyTo(client: Client, ops: seq<Op>, log: seq<Request>, i: nat): Reply
    requires AllCalls(ops) && i < |ops|
  {
    client(log + Requests(ops)[..i], ops[i].request)
  }

  lemma TailRequests(ops: seq<Op>, log: seq<Request>, n: nat)
    requires AllCalls(ops) && n < |ops|
    ensures log + [ops[0].request] + Requests(ops[1..])[..n] == log + Requests(ops)[..n + 1]
  {
  }

  lemma TailReplies(client: Client, ops: seq<Op>, log: seq<Request>, i: nat)
    requires AllCalls(ops) && i + 1 < |ops|
    ensures AllCalls(ops[1..])
    ensures ReplyTo(client, ops, log, i + 1) == ReplyTo(client, ops[1..], log + [ops[0].request], i)
  {
    TailRequests(ops, log, i);
  }

  /** As long as the client answers, a fail-fast list of calls makes them all and returns the answers. */
  lemma {:induction false} AnsweredCalls(client: Client, ops: seq<Op>, log: seq<Request>)
    requires AllCalls(ops) && forall i | 0 <= i < |ops| :: ReplyTo(client, ops, log, i).Answered?
    ensures var run := RunOps(client, ops, false, log);
      && run.error.None? && run.log == log + Requests(ops) && |run.entries| == |ops|
      && forall i | 0 <= i < |ops| :: run.entries[i]
           == Entry(ops[i].request.name, Success(Plain(ReplyTo(client, ops, log, i).json)))
    decreases |ops|
  {
    if ops != [] {
      var log1, rest := log + [ops[0].request], ops[1..];
      assert log + Requests(ops)[..0] == log;
      assert ReplyTo(client, ops, log, 0).Answered?;
      assert log1 + Requests(rest) == log + Requests(ops);
      forall i | 0 <= i < |rest|
        ensures ReplyTo(client, rest, log1, i) == ReplyTo(client, ops, log, i + 1)
      {
        TailReplies(client, ops, log, i);
      }
      AnsweredCalls(client, rest, log1);
    }
  }

  /** At the first call that raises, the list ends with that exception, and no later call is made. */
  lemma {:induction false} FirstRaiseEnds(client: Client, ops: seq<Op>, log: seq<Request>, n: nat)
    requires AllCalls(ops) && n < |ops| && ReplyTo(client, ops, log, n).RaisedError?
    requires forall i | 0 <= i < n :: ReplyTo(client, ops, log, i).Answered?
    ensures var run := RunOps(client, ops, false, log);
      run.error == Some(ReplyTo(client, ops, log, n).error) && run.log == log + Requests(ops)[..n + 1]
    decreases n
  {
    var log1, rest := log + [ops[0].request], ops[1..];
    assert log + Requests(ops)[..0] == log;
    if n == 0 {
      assert log1 == log + Requests(ops)[..1];
    } else {
      assert ReplyTo(client, ops, log, 0).Answered?;
      forall i | 0 <= i < n
        ensures ReplyTo(client, rest, log1, i) == ReplyTo(client, ops, log, i + 1)
      {
        TailReplies(client, ops, log, i);
      }
      FirstRaiseEnds(client, rest, log1, n - 1);
      TailRequests(ops, log, n);
    }
  }

  lemma {:induction false} SomeFirst(client: Client, ops: seq<Op>, log: seq<Request>, m: nat) returns (n: nat)
    requires AllCalls(ops) && m < |ops| && ReplyTo(client, ops, log, m).RaisedError?
    ensures n <= m && ReplyTo(client, ops, log, n).RaisedError?
    ensures forall i | 0 <= i < n :: ReplyTo(client, ops, log, i).Answered?
    decreases m
  {
    n := m;
    if i :| 0 <= i < m && ReplyTo(client, ops, log, i).RaisedError? {
      n := SomeFirst(client, ops, log, i);
    }
  }

  /** A fail-fast list of calls raises exactly when the client raises on one of them in its place. */
  lemma RaisesIffClientRaises(client: Client, ops: seq<Op>, log: seq<Request>)
    requires AllCalls(ops)
    ensures RunOps(client, ops, false, log).error.None?
      <==> forall i | 0 <= i < |ops| :: ReplyTo(client, ops, log, i).Answered?
  {
    if m :| 0 <= m < |ops| && ReplyTo(client, ops, log, m).RaisedError? {
      var n := SomeFirst(client, ops, log, m);
      FirstRaiseEnds(client, ops, log, n);
    } else {
      AnsweredCalls(client, ops, log);
    }
  }

  // ---------- Batches that continue ----------

  /** The requests made before entry `i` of a batch that continues on errors. */
  function LogBefore(client: Client, ops: seq<Op>, log: seq<Request>, i: nat): seq<Request>
    requires i <= |ops|
  {
    if i == 0 then log else RunOp(client, ops[i - 1], LogBefore(client, ops, log, i - 1)).0
  }

  lemma {:induction false} LogBeforeTail(client: Client, ops: seq<Op>, log: seq<Request>, i: nat)
    requires i < |ops|
    ensures LogBefore(client, ops, log, i + 1) == LogBefore(client, ops[1..], RunOp(client, ops[0], log).0, i)
  {
    if i == 0 {
      assert LogBefore(client, ops, log, 0) == log;
    } else {
      LogBeforeTail(client, ops, log, i - 1);
    }
  }

  lemma {:induction false} ContinuingNeverRaises(client: Client, ops: seq<Op>, log: seq<Request>)
    ensures var run := RunOps(client, ops, true, log); run.error.None? && |run.entries| == |ops|
    decreases |ops|
  {
    if ops != [] {
      ContinuingNeverRaises(client, ops[1..], RunOp(client, ops[0], log).0);
    }
  }

  lemma {:induction false} ContinuingLog(client: Client, ops: seq<Op>, log: seq<Request>)
    ensures RunOps(client, ops, true, log).log == LogBefore(client, ops, log, |ops|)
    decreases |ops|
  {
    if ops != [] {
      ContinuingLog(client, ops[1..], RunOp(client, ops[0], log).0);
      LogBeforeTail(client, ops, log, |ops| - 1);
    }
  }

  lemma {:induction false} ContinuingEntry(client: Client, ops: seq<Op>, log: seq<Request>, i: nat)
    requires i < |ops| == |RunOps(client, ops, true, log).entries|
    ensures RunOps(client, ops, true, log).entries[i]
      == EntryFor(ops[i], RunOp(client, ops[i], LogBefore(client, ops, log, i)).1)
    decreases i
  {
    if i > 0 {
      var log1 := RunOp(client, ops[0], log).0;
      ContinuingNeverRaises(client, ops[1..], log1);
      ContinuingEntry(client, ops[1..], log1, i - 1);
      LogBeforeTail(client, ops, log, i - 1);
      assert ops[1..][i - 1] == ops[i];
    }
  }

  /**
   * With `continue_on_error` a batch never raises: it has exactly one entry per operation, in order,
   * with what that operation did after all the earlier ones, failed or not.
   */
  lemma ContinuingReportsAll(client: Client, ops: seq<Op>, log: seq<Request>)
    ensures var run := RunOps(client, ops, true, log);
      && run.error.None? && |run.entries| == |ops|
      && run.log == LogBefore(client, ops, log, |ops|)
      && forall i | 0 <= i < |ops| ::
           run.entries[i] == EntryFor(ops[i], RunOp(client, ops[i], LogBefore(client, ops, log, i)).1)
  {
    ContinuingNeverRaises(client, ops, log);
    ContinuingLog(client, ops, log);
    forall i | 0 <= i < |ops|
      ensures RunOps(client, ops, true, log).entries[i]
        == EntryFor(ops[i], RunOp(client, ops[i], LogBefore(client, ops, log, i)).1)
    {
      ContinuingEntry(client, ops, log, i);
    }
  }

  lemma {:induction false} CallsAllMade(client: Client, ops: seq<Op>, log: seq<Request>, i: nat)
    requires AllCalls(ops) && i <= |ops|
    ensures LogBefore(client, ops, log, i) == log + Requests(ops)[..i]
  {
    if i > 0 {
      CallsAllMade(client, ops, log, i - 1);
      assert Requests(ops)[..i] == Requests(ops)[..i - 1] + [ops[i - 1].request];
    }
  }

  /** With `continue_on_error` every call is made, and its entry has its name and its answer or its exception. */
  lemma ContinuingCalls(client: Client, ops: seq<Op>, log: seq<Request>, i: nat)
    requires AllCalls(ops) && i < |ops|
    ensures var run := RunOps(client, ops, true, log);
      && run.log == log + Requests(ops) && i < |run.entries|
      && (ReplyTo(client, ops, log, i).Answered? ==>
            run.entries[i] == Entry(ops[i].request.name, Success(Plain(ReplyTo(client, ops, log, i).json))))
      && (ReplyTo(client, ops, log, i).RaisedError? && ops[i].request.name != "" ==>
            run.entries[i] == Entry(ops[i].request.name, Failure(ReplyTo(client, ops, log, i).error)))
  {
    ContinuingReportsAll(client, ops, log);
    CallsAllMade(client, ops, log, |ops|);
    CallsAllMade(client, ops, log, i);
    assert Requests(ops)[..|ops|] == Requests(ops);
  }

  /** An entry without a name is reported as unknown. */
  lemma NamelessEntry(client: Client, log: seq<Request>)
    ensures RunOps(client, [Malformed("")], true, log).entries
      == [Entry("<unknown>", Failure("operation.name must be a string"))]
  {
    assert RunOps(client, [Malformed("")][1..], true, log) == Run(log, [], None);
  }
}
