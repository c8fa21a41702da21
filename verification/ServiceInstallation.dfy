/**
 `hexis service install` (apps/hexis_cli.py): workers that run in Docker are refused, or migrated
 to host services by installing the units, stopping the containers and starting the units, with a
 recovery path back to Docker.
 */
module ServiceInstallation {
  import opened HostMachine

  datatype Options = Options(channels: bool, replaceDockerWorkers: bool, noStart: bool)

  /** The Compose file, the Compose command, and whether `compose ps` answered. */
  datatype Compose = NoFile | NoCommand | Inspected(ok: bool)

  /** The answers of the external calls, in the order of the code. */
  datatype Replies = Replies(
    compose: Compose,
    written: seq<Worker>,
    install: Answer,
    composeStop: Answer,
    hostStart: Answer,
    status: Result,
    restoreStop: Answer,
    restoreUp: Answer)

  datatype Exit = Success | Failure | Crash

  function Requested(o: Options): set<Worker> {
    CORE + if o.channels then {Channels} else {}
  }

  /** What the code takes to be running in Docker; without a Compose file, nothing. */
  function Running(p: Placement, r: Replies): set<Worker> {
    if r.compose.NoFile? then {} else p.docker
  }

  predicate Inspects(r: Replies) {
    r.compose.NoFile? || r.compose == Inspected(true)
  }

  /** The workers a migration moves. */
  function Matching(p: Placement, o: Options, r: Replies): set<Worker> {
    Running(p, r) * Requested(o)
  }

  /** The command gets past its refusals. */
  predicate Proceeds(p: Placement, o: Options, r: Replies) {
    Inspects(r) && (Matching(p, o, r) == {} || o.replaceDockerWorkers)
  }

  /**
   * No Docker worker escapes the inspection: there is a Compose file, or no requested worker runs
   * in Docker, or nothing is going to be started.
   */
  predicate Visible(p: Placement, o: Options, r: Replies) {
    !r.compose.NoFile? || p.docker !! Requested(o) || o.noStart
  }

  /** The call that starts the workers: the install itself, or the start that follows a migration. */
  function StartCall(p: Placement, o: Options, r: Replies): Answer {
    if Matching(p, o, r) == {} then r.install else r.hostStart
  }

  /** Every external call on the way to a successful install. */
  predicate CallsSucceed(p: Placement, o: Options, r: Replies) {
    && Proceeds(p, o, r) && r.install.result.Ok?
    && (Matching(p, o, r) != {} ==> r.composeStop.result.Ok?)
    && (!o.noStart ==> StartCall(p, o, r).result.Ok? && r.status.Ok?)
  }

  /** The host copies an install leaves when it is not undone. */
  function HostAfter(p: Placement, o: Options, r: Replies): set<Worker> {
    var dropped := p.host - Within(r.install.dropped, Requested(o));
    if o.noStart then dropped
    else if Matching(p, o, r) == {} then Restarted(p.host, Requested(o), r.install)
    else Restarted(dropped, Requested(o), r.hostStart)
  }

  /** The install succeeds: all its calls do, and it finds every requested worker running. */
  predicate Succeeds(p: Placement, o: Options, r: Replies) {
    CallsSucceed(p, o, r) && (!o.noStart ==> Requested(o) <= HostAfter(p, o, r))
  }

  /** It is enough that the starting call reached every requested worker. */
  lemma ReachedSucceeds(p: Placement, o: Options, r: Replies)
    requires CallsSucceed(p, o, r)
    requires !o.noStart ==> forall w | w in Requested(o) :: w in StartCall(p, o, r).reached
    ensures Succeeds(p, o, r)
  {
  }

  /**
   * A migration got as far as its host start, and nothing crashed outside HostServiceError. If such
   * a run does not succeed, the host start was refused or the workers were found not to run.
   */
  predicate Migrates(p: Placement, o: Options, r: Replies) {
    && Proceeds(p, o, r) && Matching(p, o, r) != {} && !o.noStart
    && r.install.result.Ok? && r.composeStop.result.Ok?
    && (r.hostStart.result.Refused? || (r.hostStart.result.Ok? && !r.status.Crashed?))
  }

  /**
   * It refuses when Docker cannot be inspected, and when a requested worker is seen in Docker that is not
   * to be replaced; and only then.
   */
  lemma RefusesExactly(p: Placement, o: Options, r: Replies)
    ensures Proceeds(p, o, r) <==>
      && !r.compose.NoCommand? && r.compose != Inspected(false)
      && (r.compose.NoFile? || o.replaceDockerWorkers
          || (Heartbeat !in p.docker && Maintenance !in p.docker && (o.channels ==> Channels !in p.docker)))
  {
  }

  /** Success leaves the core workers, and the channel worker if asked for, on the host and not in Docker. */
  lemma SuccessPlaces(p: Placement, o: Options, r: Replies, w: Worker)
    requires Succeeds(p, o, r) && (w != Channels || o.channels)
    ensures w in p.installed + Requested(o)
    ensures !o.noStart ==> w in HostAfter(p, o, r)
    ensures !r.compose.NoFile? ==> w !in p.docker - Matching(p, o, r)
    ensures o.noStart ==> HostAfter(p, o, r) <= p.host
  {
  }

  /** A migration whose host start is refused is one that is undone. */
  lemma RefusedStartMigrates(p: Placement, o: Options, r: Replies)
    requires r.compose == Inspected(true) && o.replaceDockerWorkers && !o.noStart
    requires Heartbeat in p.docker || Maintenance in p.docker || (o.channels && Channels in p.docker)
    requires r.install.result.Ok? && r.composeStop.result.Ok?
    requires r.hostStart.result.Refused? || (r.hostStart.result.Ok? && r.status.Refused?)
    ensures Migrates(p, o, r) && !Succeeds(p, o, r)
  {
    assert exists w :: w in Matching(p, o, r) by {
      var w := if Heartbeat in p.docker then Heartbeat else if Maintenance in p.docker then Maintenance else Channels;
      assert w in Matching(p, o, r);
    }
  }

  ghost predicate ExclusiveSince(h: seq<Placement>, n: nat) {
    n <= |h| && forall i | n <= i < |h| :: Exclusive(h[i])
  }

  lemma Extend(h1: seq<Placement>, h2: seq<Placement>, n: nat)
    requires h1 <= h2 && ExclusiveSince(h1, n) && ExclusiveSince(h2, |h1|)
    ensures ExclusiveSince(h2, n)
  {
    assert forall i | 0 <= i < |h1| :: h2[i] == h1[i];
  }

  lemma BelowIsExclusive(h: seq<Placement>, n: nat, docker: set<Worker>, host: set<Worker>)
    requires n <= |h| && docker !! host
    requires forall i | n <= i < |h| :: h[i].docker <= docker && h[i].host <= host
    ensures ExclusiveSince(h, n)
  {
  }

  /** Containers come back only once the host copies are known to be stopped. */
  method RestoreDockerWorkers(m: Machine, requested: set<Worker>, matching: set<Worker>, r: Replies)
    returns (restored: bool, crashed: bool)
    requires requested <= m.now.installed && matching <= requested
    requires m.now.docker !! m.now.host && matching !! m.now.docker
    modifies m
    ensures var p := old(m.now);
      m.now == Placement(
        p.docker + (if r.restoreStop.result.Ok? then Came(matching, r.restoreUp) else {}),
        p.installed,
        p.host - Gone(requested, r.restoreStop))
    ensures crashed <==> r.restoreStop.result.Crashed?
    ensures restored <==> r.restoreStop.result.Ok? && r.restoreUp.result.Ok?
    ensures restored ==> matching <= m.now.docker && requested !! m.now.host
    ensures old(m.history) <= m.history && ExclusiveSince(m.history, |old(m.history)|) && Exclusive(m.now)
  {
    var stopped := m.ControlStop(requested, r.restoreStop);
    if !stopped.Ok? {
      return false, stopped.Crashed?;
    }
    ghost var h := m.history;
    restored := m.ComposeUp(matching, r.restoreUp);
    Extend(h, m.history, |old(m.history)|);
    crashed := false;
  }

  /** After the containers have been stopped: the host start, its recovery, and the final check. */
  method StartMigrated(m: Machine, requested: set<Worker>, matching: set<Worker>, r: Replies) returns (exit: Exit)
    requires requested <= m.now.installed && matching <= requested
    requires Exclusive(m.now) && m.now.docker !! requested
    modifies m
    ensures old(m.history) <= m.history && ExclusiveSince(m.history, |old(m.history)|) && Exclusive(m.now)
    ensures m.now.installed == old(m.now).installed
    ensures old(m.now).docker <= m.now.docker <= old(m.now).docker + matching
    ensures old(m.now).host - requested <= m.now.host <= old(m.now).host + requested
    ensures var started := Restarted(old(m.now).host, requested, r.hostStart);
      && (exit == Success <==> r.hostStart.result.Ok? && r.status.Ok? && requested <= started)
      && (exit == Success ==> m.now == old(m.now).(host := started))
    ensures
      && (r.hostStart.result.Refused? || (r.hostStart.result.Ok? && !r.status.Crashed?))
      && exit != Success ==>
        && (r.restoreStop.result.Ok? && r.restoreUp.result.Ok? ==>
              m.now.docker == old(m.now).docker + matching && m.now.host !! requested)
        && (!r.restoreStop.result.Ok? ==> m.now.docker == old(m.now).docker)
  {
    var started := m.ControlStart(requested, r.hostStart);
    ghost var h := m.history;
    if started.Crashed? {
      return Crash;
    }
    if started.Ok? {
      if r.status.Crashed? {
        return Crash;
      }
      var inactive := requested - m.now.host;
      if r.status.Ok? && inactive == {} {
        assert forall w | w in requested :: w !in inactive;
        return Success;
      }
    }
    var _, crashed := RestoreDockerWorkers(m, requested, matching, r);
    Extend(h, m.history, |old(m.history)|);
    return if crashed then Crash else Failure;
  }

  /** The units are installed and stopped: the containers are stopped, then the units are started. */
  method Migrate(m: Machine, noStart: bool, requested: set<Worker>, matching: set<Worker>, r: Replies)
    returns (exit: Exit)
    requires requested <= m.now.installed && matching == m.now.docker * requested && Exclusive(m.now)
    modifies m
    ensures old(m.history) <= m.history && ExclusiveSince(m.history, |old(m.history)|) && Exclusive(m.now)
    ensures m.now.installed == old(m.now).installed
    ensures old(m.now).docker - matching <= m.now.docker <= old(m.now).docker
    ensures old(m.now).host - requested <= m.now.host <= old(m.now).host + requested
    ensures !r.composeStop.result.Ok? ==> m.now.host == old(m.now).host
    ensures var started := if noStart then old(m.now).host else Restarted(old(m.now).host, requested, r.hostStart);
      && (exit == Success <==>
            && r.composeStop.result.Ok?
            && (!noStart ==> r.hostStart.result.Ok? && r.status.Ok? && requested <= started))
      && (exit == Success ==> m.now == Placement(old(m.now).docker - matching, old(m.now).installed, started))
    ensures
      && r.composeStop.result.Ok? && !noStart && exit != Success
      && (r.hostStart.result.Refused? || (r.hostStart.result.Ok? && !r.status.Crashed?)) ==>
        && (r.restoreStop.result.Ok? && r.restoreUp.result.Ok? ==>
              m.now.docker == old(m.now).docker && m.now.host !! requested)
        && (!r.restoreStop.result.Ok? ==> m.now.docker !! matching)
  {
    var stopped := m.ComposeStop(matching, r.composeStop);
    if !stopped {
      return Failure;
    }
    if noStart {
      return Success;
    }
    ghost var h := m.history;
    exit := StartMigrated(m, requested, matching, r);
    Extend(h, m.history, |old(m.history)|);
  }

  method ServiceInstall(m: Machine, o: Options, r: Replies) returns (exit: Exit)
    requires Exclusive(m.now)
    modifies m
    // In every state of every run, whichever calls fail, no worker runs twice.
    ensures Visible(old(m.now), o, r) ==>
      old(m.history) <= m.history && ExclusiveSince(m.history, |old(m.history)|) && Exclusive(m.now)
    // The condition is needed: a run that succeeds without it ends with a worker in both places.
    ensures exit == Success && !Visible(old(m.now), o, r) ==> !Exclusive(m.now)
    // A refusal changes nothing.
    ensures !Proceeds(old(m.now), o, r) ==> exit == Failure && m.now == old(m.now) && m.history == old(m.history)
    // Exactly when it succeeds, and what it leaves then: every requested worker installed, on the
    // host unless it was not to be started, and off Docker as far as the code can see.
    ensures exit == Success <==> Succeeds(old(m.now), o, r)
    ensures exit == Success ==>
      m.now == Placement(
        old(m.now).docker - Matching(old(m.now), o, r),
        old(m.now).installed + Requested(o),
        HostAfter(old(m.now), o, r))
    // Workers that were not asked for stay where they are.
    ensures m.now.docker - Requested(o) == old(m.now).docker - Requested(o)
    ensures m.now.host - Requested(o) == old(m.now).host - Requested(o)
    // Until the units are installed and the containers stopped, nothing is started on the host.
    ensures Proceeds(old(m.now), o, r) && !r.install.result.Ok? ==> exit != Success && m.now.docker == old(m.now).docker
    ensures Matching(old(m.now), o, r) != {} && !(r.install.result.Ok? && r.composeStop.result.Ok?) ==>
      m.now.host <= old(m.now).host
    // If the host workers do not run and both restoring calls work, Docker runs what it ran before.
    ensures Migrates(old(m.now), o, r) && exit != Success && r.restoreStop.result.Ok? && r.restoreUp.result.Ok? ==>
      m.now.docker == old(m.now).docker && m.now.host !! Requested(o)
    // Docker is not restarted beside host copies that may still run.
    ensures Migrates(old(m.now), o, r) && exit != Success && !r.restoreStop.result.Ok? ==>
      m.now.docker !! Matching(old(m.now), o, r)
  {
    ghost var h0, p0 := m.history, m.now;
    var requested := CORE + if o.channels then {Channels} else {};
    if r.compose == NoCommand || r.compose == Inspected(false) {
      return Failure;
    }
    var running := if r.compose.NoFile? then {} else m.now.docker;
    var matching := set w | w in running && (w != Channels || o.channels);
    assert matching == running * requested;
    if matching != {} && !o.replaceDockerWorkers {
      return Failure;
    }
    var startDuringInstall := !o.noStart && matching == {};
    var installed := m.InstallUnits(requested, startDuringInstall, r.written, r.install);
    ghost var h1 := m.history;
    if Visible(p0, o, r) {
      assert p0.docker !! p0.host + m.now.host;
      BelowIsExclusive(h1, |h0|, p0.docker, p0.host + m.now.host);
    }
    if !installed.Ok? {
      return if installed.Refused? then Failure else Crash;
    }
    if matching != {} {
      exit := Migrate(m, o.noStart, requested, matching, r);
      Extend(h1, m.history, |h0|);
      return;
    }
    if o.noStart {
      return Success;
    }
    if !r.status.Ok? {
      return if r.status.Refused? then Failure else Crash;
    }
    var inactive := requested - m.now.host;
    if inactive == {} {
      assert forall w | w in requested :: w !in inactive;
      return Success;
    }
    return Failure;
  }

  /**
   * The run that breaks the promise: no Compose file is found, a container is still up, every call
   * works, and the install reports success with the heartbeat worker in both places.
   */
  method InstallBesideContainer() returns (m: Machine, exit: Exit)
    ensures exit == Success && m.now == Placement({Heartbeat}, CORE, CORE) && !Exclusive(m.now)
  {
    var started := Answer(Ok, [], [Heartbeat, Maintenance]);
    var unused := Answer(Ok, [], []);
    m := new Machine(Placement({Heartbeat}, {}, {}));
    exit := ServiceInstall(
      m, Options(false, false, false), Replies(NoFile, [], started, unused, unused, Ok, unused, unused));
    assert !Visible(Placement({Heartbeat}, {}, {}), Options(false, false, false),
      Replies(NoFile, [], started, unused, unused, Ok, unused, unused));
  }
}
