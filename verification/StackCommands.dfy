/**
 The stack commands of apps/hexis_cli.py and the stack start of apps/hexis_init.py, and any
 sequence of them with service commands: a worker installed on the host is kept out of Docker.
 */
module StackCommands {
  import opened HostMachine
  import opened ServiceInstallation

  /**
   * The Compose file in use: the workers among its default services, and whether it has a default
   * service that is no worker, as the database is.
   */
  datatype Stack = Stack(workers: set<Worker>, hasOther: bool)

  /**
   * The answers one command gets: whether asking for the installed services raised, whether
   * `compose config` answered, and each external call in turn.
   */
  datatype Env = Env(
    queryRaised: bool,
    configOk: bool,
    stopHost: Answer,
    composeDown: Answer,
    prepareOk: bool,
    composeUp: Answer,
    laterOk: bool,
    startHost: Answer)

  // ---------- The invariant ----------

  predicate Safe(p: Placement) {
    Owned(p) && HostInstalled(p)
  }

  lemma SafeIsExclusive(p: Placement)
    requires Safe(p)
    ensures Exclusive(p)
  {
  }

  ghost predicate SafeSince(h: seq<Placement>, n: nat) {
    n <= |h| && forall i | n <= i < |h| :: Safe(h[i])
  }

  /** A command keeps the machine safe in every state it passes through. */
  ghost predicate Keeps(m: Machine, h: seq<Placement>)
    reads m
  {
    h <= m.history && SafeSince(m.history, |h|) && Safe(m.now)
  }

  lemma Chain(h1: seq<Placement>, h2: seq<Placement>, n: nat)
    requires h1 <= h2 && SafeSince(h1, n) && SafeSince(h2, |h1|)
    ensures SafeSince(h2, n)
  {
    assert forall i | 0 <= i < |h1| :: h2[i] == h1[i];
  }

  // ---------- Shared steps ----------

  /** _host_managed_compose_workers: an exception reads as "none". */
  function Managed(p: Placement, env: Env): set<Worker> {
    if env.queryRaised then {} else p.installed
  }

  /**
   * Filtering the default services leaves no installed worker to start: there is none among them, or
   * the installed ones were read and some other name is left to pass to Compose.
   */
  predicate Filters(p: Placement, stack: Stack, env: Env) {
    || p.installed !! stack.workers
    || (!env.queryRaised && (stack.hasOther || !(stack.workers <= p.installed)))
  }

  /** The same for the commands that name the core workers. */
  predicate FiltersCore(p: Placement, env: Env) {
    p.installed !! CORE || !env.queryRaised
  }

  /** `up -d` on services: an empty list of names means every default service. */
  method Up(m: Machine, stack: Stack, targets: set<Worker>, named: bool, a: Answer) returns (ok: bool)
    modifies m
    ensures ok <==> a.result.Ok?
    ensures var started := if named then targets else stack.workers;
      m.now == old(m.now).(docker := old(m.now).docker + Came(started, a))
    ensures Safe(old(m.now)) && (if named then targets else stack.workers) !! m.now.installed ==>
      Keeps(m, old(m.history))
  {
    ok := m.ComposeUp(if named then targets else stack.workers, a);
  }

  /** Nothing has to be started, or the start call succeeds. */
  predicate Runs(p: Placement, a: Answer) {
    p.installed <= p.host || a.result.Ok?
  }

  /** The host copies once the installed workers that did not run have been started. */
  function Running(p: Placement, a: Answer): set<Worker> {
    if p.installed <= p.host then p.host else Restarted(p.host, p.installed - p.host, a)
  }

  /** _ensure_installed_host_services_running: starts the installed services that are not active. */
  method EnsureHostRunning(m: Machine, a: Answer) returns (ok: bool)
    modifies m
    ensures m.now == old(m.now).(host := Running(old(m.now), a))
    ensures ok <==> Runs(old(m.now), a)
    ensures Served(old(m.now), m.now, a) && (ok <==> StartWorks(old(m.now), a))
    ensures Safe(old(m.now)) ==> Keeps(m, old(m.history))
  {
    var inactive := m.now.installed - m.now.host;
    if inactive == {} {
      assert forall w | w in m.now.installed :: w !in inactive;
      return true;
    }
    RunningKeepsHealthy(m.now, a);
    var r := m.ControlStart(inactive, a);
    ok := r.Ok?;
  }

  /** Healthy host workers are never restarted, and those the start call reached run. */
  lemma RunningKeepsHealthy(p: Placement, a: Answer)
    ensures p.host <= Running(p, a)
    ensures forall w | w in p.installed && w in a.reached :: w in Running(p, a)
  {
  }

  /** _stop_installed_host_services. */
  method StopHost(m: Machine, a: Answer) returns (ok: bool)
    modifies m
    ensures m.now == old(m.now).(host := old(m.now).host - Gone(old(m.now).installed, a))
    ensures ok <==> m.now.installed == {} || a.result.Ok?
    ensures Safe(old(m.now)) ==> Keeps(m, old(m.history))
  {
    if m.now.installed == {} {
      return true;
    }
    var r := m.ControlStop(m.now.installed, a);
    ok := r.Ok?;
  }

  /**
   * The host was served: workers that ran there still run, and the installed ones that the start call
   * reached run as well.
   */
  predicate Served(before: Placement, after: Placement, a: Answer) {
    && before.host <= after.host
    && forall w | w in before.installed && w in a.reached :: w in after.host
  }

  /** The installed workers all ran, or the call that starts them worked. */
  predicate StartWorks(before: Placement, a: Answer) {
    (forall w | w in before.installed :: w in before.host) || a.result.Ok?
  }

  // ---------- up, reset, upgrade: the default services ----------

  /** The installed workers make the command ask Compose for its services, and Compose does not answer. */
  predicate Refuses(p: Placement, env: Env) {
    Managed(p, env) != {} && !env.configOk
  }

  /** The workers `up -d` is asked to start once the managed ones are filtered out. */
  function DefaultTargets(p: Placement, stack: Stack, env: Env): set<Worker> {
    var managed := Managed(p, env);
    if managed == {} || (!stack.hasOther && stack.workers <= managed) then stack.workers
    else stack.workers - managed
  }

  /** The guard is exact: it says that no installed worker is among those to start. */
  lemma FiltersExactly(p: Placement, stack: Stack, env: Env)
    ensures DefaultTargets(p, stack, env) !! p.installed <==> Filters(p, stack, env)
  {
    if p.installed * stack.workers != {} {
      var w :| w in p.installed * stack.workers;
      assert w in stack.workers && w in p.installed;
    }
  }

  function AfterUp(p: Placement, stack: Stack, env: Env): Placement {
    if Refuses(p, env) then p
    else Placement(
      p.docker + Came(DefaultTargets(p, stack, env), env.composeUp), p.installed,
      if env.composeUp.result.Ok? && Managed(p, env) != {} then Running(p, env.startHost) else p.host)
  }

  predicate UpSucceeds(p: Placement, stack: Stack, env: Env) {
    && !Refuses(p, env) && env.composeUp.result.Ok?
    && (Managed(p, env) != {} ==> Runs(p, env.startHost))
  }

  /** `hexis up`. */
  method UpCommand(m: Machine, stack: Stack, env: Env) returns (ok: bool)
    modifies m
    ensures m.now == AfterUp(old(m.now), stack, env)
    ensures ok <==> UpSucceeds(old(m.now), stack, env)
    // Success means that Docker was started, and the host workers served; without Docker they are left.
    ensures ok ==> env.composeUp.result.Ok? && stack.workers - old(m.now).installed <= m.now.docker
    ensures ok && !env.queryRaised ==> Served(old(m.now), m.now, env.startHost) && StartWorks(old(m.now), env.startHost)
    ensures !env.composeUp.result.Ok? ==> m.now.host == old(m.now).host
    ensures env.configOk && env.composeUp.result.Ok? && env.startHost.result.Ok? ==> ok
    ensures Safe(old(m.now)) && Filters(old(m.now), stack, env) ==> Keeps(m, old(m.history))
  {
    FiltersExactly(m.now, stack, env);
    var managed := Managed(m.now, env);
    var targets, named := stack.workers, false;
    if managed != {} {
      if !env.configOk {
        return false;
      }
      targets, named := Filtered(stack, managed);
    }
    ok := Up(m, stack, targets, named, env.composeUp);
    if !ok || managed == {} {
      return;
    }
    ghost var h := m.history;
    ok := EnsureHostRunning(m, env.startHost);
    if Safe(old(m.now)) && Filters(old(m.now), stack, env) {
      Chain(h, m.history, |old(m.history)|);
    }
  }

  /** The list comprehension over the configured services: its workers, and whether it has a name. */
  method Filtered(stack: Stack, managed: set<Worker>) returns (targets: set<Worker>, named: bool)
    ensures targets == stack.workers - managed
    ensures named <==> stack.hasOther || !(stack.workers <= managed)
  {
    targets := stack.workers - managed;
    named := stack.hasOther || targets != {};
    assert forall w | w in stack.workers && w !in managed :: w in targets;
  }

  /** After a good `up` an installed worker runs in Docker exactly when the filter let one through. */
  lemma UpBreaksExactly(p: Placement, stack: Stack, env: Env)
    requires Owned(p) && UpSucceeds(p, stack, env)
    ensures Owned(AfterUp(p, stack, env)) <==> Filters(p, stack, env)
    ensures stack.workers - Managed(p, env) <= AfterUp(p, stack, env).docker
  {
    FiltersExactly(p, stack, env);
  }

  /** The state of a reset once the host workers were told to stop. */
  function HostStopped(p: Placement, env: Env): Placement {
    if Managed(p, env) == {} then p else p.(host := p.host - Gone(p.installed, env.stopHost))
  }

  /** There is nothing to stop on the host, or stopping it worked. */
  predicate StopsHost(p: Placement, env: Env) {
    Managed(p, env) != {} ==> env.stopHost.result.Ok?
  }

  function AfterReset(p: Placement, stack: Stack, confirmed: bool, env: Env): Placement {
    var managed := Managed(p, env);
    if !confirmed || Refuses(p, env) then p else
    var stopped := HostStopped(p, env);
    if !StopsHost(p, env) then stopped else
    var down := stopped.(docker := p.docker - Gone(p.docker, env.composeDown));
    if !env.composeDown.result.Ok? then
      if managed == {} then down else down.(host := Running(down, env.startHost))
    else if !env.prepareOk then down
    else
      var up := down.(docker := Came(DefaultTargets(p, stack, env), env.composeUp));
      if env.composeUp.result.Ok? && managed != {} then up.(host := Running(up, env.startHost)) else up
  }

  predicate ResetSucceeds(p: Placement, stack: Stack, confirmed: bool, env: Env) {
    && confirmed && !Refuses(p, env) && StopsHost(p, env)
    && env.composeDown.result.Ok? && env.prepareOk && env.composeUp.result.Ok?
    && (Managed(p, env) != {} ==> Runs(HostStopped(p, env), env.startHost))
  }

  /**
   * `hexis reset`: host workers stop before the stack goes down, and are started again when it could
   * not go down or is up again.
   */
  method ResetCommand(m: Machine, stack: Stack, confirmed: bool, env: Env) returns (ok: bool)
    modifies m
    ensures m.now == AfterReset(old(m.now), stack, confirmed, env)
    ensures ok <==> ResetSucceeds(old(m.now), stack, confirmed, env)
    // Success means that all went down, Docker came up again, and so did the host workers reached.
    ensures ok ==>
      && confirmed && env.composeDown.result.Ok? && env.prepareOk && env.composeUp.result.Ok?
      && stack.workers - old(m.now).installed <= m.now.docker <= stack.workers
    ensures ok && !env.queryRaised ==>
      forall w | w in old(m.now).installed && w in env.startHost.reached :: w in m.now.host
    // Nothing is taken down without being asked, or while host workers may still run.
    ensures !confirmed ==> m.now == old(m.now)
    ensures !env.queryRaised && m.now.installed != {} && !env.stopHost.result.Ok? ==> m.now.docker == old(m.now).docker
    ensures (confirmed && env.configOk && env.stopHost.result.Ok? && env.composeDown.result.Ok? && env.prepareOk
      && env.composeUp.result.Ok? && env.startHost.result.Ok?) ==> ok
    ensures Safe(old(m.now)) && Filters(old(m.now), stack, env) ==> Keeps(m, old(m.history))
  {
    FiltersExactly(m.now, stack, env);
    ghost var keeps := Safe(m.now) && Filters(m.now, stack, env);
    if !confirmed {
      return false;
    }
    var managed := Managed(m.now, env);
    var targets, named := stack.workers, false;
    ghost var h := m.history;
    if managed != {} {
      if !env.configOk {
        return false;
      }
      targets, named := Filtered(stack, managed);
      ok := StopHost(m, env.stopHost);
      if !ok {
        return;
      }
      h := m.history;
    }
    ok := m.ComposeStop(m.now.docker, env.composeDown);
    if keeps {
      Chain(h, m.history, |old(m.history)|);
    }
    h := m.history;
    if !ok {
      if managed != {} {
        var _ := EnsureHostRunning(m, env.startHost);
        if keeps {
          Chain(h, m.history, |old(m.history)|);
        }
      }
      return;
    }
    if !env.prepareOk {
      return false;
    }
    ok := Up(m, stack, targets, named, env.composeUp);
    if keeps {
      Chain(h, m.history, |old(m.history)|);
    }
    h := m.history;
    if ok && managed != {} {
      ok := EnsureHostRunning(m, env.startHost);
      if keeps {
        Chain(h, m.history, |old(m.history)|);
      }
    }
  }

  /** A good reset breaks the rule exactly when the filter let an installed worker through. */
  lemma ResetBreaksExactly(p: Placement, stack: Stack, env: Env)
    requires ResetSucceeds(p, stack, true, env)
    ensures Owned(AfterReset(p, stack, true, env)) <==> Filters(p, stack, env)
    ensures stack.workers - Managed(p, env) <= AfterReset(p, stack, true, env).docker
  {
    FiltersExactly(p, stack, env);
  }

  /**
   * A reset that cannot stop the host workers leaves the stack up; one that cannot take the stack
   * down starts them again.
   */
  lemma ResetRecovers(p: Placement, stack: Stack, confirmed: bool, env: Env)
    requires Managed(p, env) != {}
    ensures var q := AfterReset(p, stack, confirmed, env);
      && (!env.stopHost.result.Ok? ==> q.docker == p.docker)
      && (confirmed && env.configOk && env.stopHost.result.Ok? && !env.composeDown.result.Ok? ==>
            forall w | w in p.installed && w in env.startHost.reached :: w in q.host)
  {
    var stopped := HostStopped(p, env);
    RunningKeepsHealthy(stopped.(docker := p.docker - Gone(p.docker, env.composeDown)), env.startHost);
  }

  function AfterUpgrade(p: Placement, stack: Stack, env: Env): Placement {
    if Refuses(p, env) || !env.prepareOk then p
    else Placement(
      p.docker + Came(DefaultTargets(p, stack, env), env.composeUp), p.installed,
      if env.composeUp.result.Ok? && env.laterOk && Managed(p, env) != {}
      then Restarted(p.host, p.installed, env.startHost) else p.host)
  }

  predicate UpgradeSucceeds(p: Placement, stack: Stack, env: Env) {
    && !Refuses(p, env) && env.prepareOk && env.composeUp.result.Ok? && env.laterOk
    && (Managed(p, env) != {} ==> env.startHost.result.Ok?)
  }

  /** `hexis upgrade`, once the package itself is current; host workers restart after the migrations. */
  method UpgradeCommand(m: Machine, stack: Stack, env: Env) returns (ok: bool)
    modifies m
    ensures m.now == AfterUpgrade(old(m.now), stack, env)
    ensures ok <==> UpgradeSucceeds(old(m.now), stack, env)
    // Images that cannot be prepared change nothing; the host is left until Docker is up and migrated.
    ensures !env.prepareOk ==> m.now == old(m.now) && !ok
    ensures !env.composeUp.result.Ok? || !env.laterOk ==> m.now.host == old(m.now).host && !ok
    ensures ok ==> stack.workers - old(m.now).installed <= m.now.docker
    ensures ok && !env.queryRaised ==>
      && (forall w | w in old(m.now).installed && w in env.startHost.reached :: w in m.now.host)
      && (m.now.installed != {} ==> env.startHost.result.Ok?)
    ensures (env.configOk && env.prepareOk && env.composeUp.result.Ok? && env.laterOk
      && env.startHost.result.Ok?) ==> ok
    ensures Safe(old(m.now)) && Filters(old(m.now), stack, env) ==> Keeps(m, old(m.history))
  {
    FiltersExactly(m.now, stack, env);
    var managed := Managed(m.now, env);
    var targets, named := stack.workers, false;
    if managed != {} {
      if !env.configOk {
        return false;
      }
      targets, named := Filtered(stack, managed);
    }
    if !env.prepareOk {
      return false;
    }
    ok := Up(m, stack, targets, named, env.composeUp);
    if !ok || !env.laterOk {
      return false;
    }
    ghost var h := m.history;
    if managed != {} {
      var r := m.ControlStart(m.now.installed, env.startHost);
      ok := r.Ok?;
      if Safe(old(m.now)) && Filters(old(m.now), stack, env) {
        Chain(h, m.history, |old(m.history)|);
      }
    }
  }

  lemma UpgradeBreaksExactly(p: Placement, stack: Stack, env: Env)
    requires Owned(p) && UpgradeSucceeds(p, stack, env)
    ensures Owned(AfterUpgrade(p, stack, env)) <==> Filters(p, stack, env)
    ensures stack.workers - Managed(p, env) <= AfterUpgrade(p, stack, env).docker
  {
    FiltersExactly(p, stack, env);
  }

  // ---------- start, stop, down, ui: the core workers ----------

  function AfterStart(p: Placement, env: Env): Placement {
    var managed := Managed(p, env);
    var hostOk := managed != {} ==> Runs(p, env.startHost);
    Placement(
      p.docker + (if hostOk then Came(CORE - managed, env.composeUp) else {}), p.installed,
      if managed != {} then Running(p, env.startHost) else p.host)
  }

  predicate StartSucceeds(p: Placement, env: Env) {
    && (Managed(p, env) != {} ==> Runs(p, env.startHost))
    && (CORE <= Managed(p, env) || env.composeUp.result.Ok?)
  }

  /** `hexis start`: host workers first, and nothing in Docker when they cannot be started. */
  method StartCommand(m: Machine, env: Env) returns (ok: bool)
    modifies m
    ensures m.now == AfterStart(old(m.now), env)
    ensures ok <==> StartSucceeds(old(m.now), env)
    // Success means that every core worker is left to the host or runs in Docker, and the host is served.
    ensures ok ==> CORE - old(m.now).installed <= m.now.docker
    ensures !env.queryRaised ==> Served(old(m.now), m.now, env.startHost)
    ensures !env.queryRaised && !StartWorks(old(m.now), env.startHost) ==> !ok && m.now.docker == old(m.now).docker
    ensures env.composeUp.result.Ok? && env.startHost.result.Ok? ==> ok
    ensures Safe(old(m.now)) && FiltersCore(old(m.now), env) ==> Keeps(m, old(m.history))
  {
    var managed := Managed(m.now, env);
    ghost var h := m.history;
    if managed != {} {
      ok := EnsureHostRunning(m, env.startHost);
      if !ok {
        return;
      }
      h := m.history;
    }
    var targets := CORE - managed;
    if targets == {} {
      NoneLeft(managed);
      return true;
    }
    ok := m.ComposeUp(targets, env.composeUp);
    if Safe(old(m.now)) && FiltersCore(old(m.now), env) {
      Chain(h, m.history, |old(m.history)|);
    }
  }

  lemma NoneLeft(managed: set<Worker>)
    requires CORE - managed == {}
    ensures CORE <= managed
  {
    assert forall w | w in CORE :: w !in CORE - managed;
  }

  lemma StartBreaksExactly(p: Placement, env: Env)
    requires Owned(p) && StartSucceeds(p, env)
    ensures Owned(AfterStart(p, env)) <==> FiltersCore(p, env)
    ensures CORE - Managed(p, env) <= AfterStart(p, env).docker
  {
    CoreFiltersExactly(p, env);
  }

  lemma CoreFiltersExactly(p: Placement, env: Env)
    ensures CORE - Managed(p, env) !! p.installed <==> FiltersCore(p, env)
  {
  }

  function AfterStop(p: Placement, targets: set<Worker>, env: Env): Placement {
    var stopped := HostStopped(p, env);
    if StopsHost(p, env) then stopped.(docker := p.docker - Gone(targets, env.composeDown)) else stopped
  }

  /** `hexis stop`: the core workers, wherever they run. */
  method StopCommand(m: Machine, env: Env) returns (ok: bool)
    modifies m
    ensures m.now == AfterStop(old(m.now), CORE - Managed(old(m.now), env), env)
    ensures ok <==>
      && StopsHost(old(m.now), env)
      && (CORE <= Managed(old(m.now), env) || env.composeDown.result.Ok?)
    ensures Safe(old(m.now)) ==> Keeps(m, old(m.history))
    ensures Safe(old(m.now)) && ok && !env.queryRaised ==> m.now.docker !! CORE && m.now.host == {}
    ensures !env.queryRaised && m.now.installed != {} && !env.stopHost.result.Ok? ==>
      !ok && m.now.docker == old(m.now).docker
    ensures env.stopHost.result.Ok? && env.composeDown.result.Ok? ==> ok
    ensures m.now.docker <= old(m.now).docker && m.now.host <= old(m.now).host
  {
    var managed := Managed(m.now, env);
    ghost var h := m.history;
    if managed != {} {
      ok := StopHost(m, env.stopHost);
      if !ok {
        return;
      }
      h := m.history;
    }
    var targets := CORE - managed;
    if targets == {} {
      NoneLeft(managed);
      return true;
    }
    ok := m.ComposeStop(targets, env.composeDown);
    if Safe(old(m.now)) {
      Chain(h, m.history, |old(m.history)|);
    }
  }

  /** `hexis down`: while host workers may still run, the stack stays up. */
  method DownCommand(m: Machine, env: Env) returns (ok: bool)
    modifies m
    ensures m.now == AfterStop(old(m.now), old(m.now).docker, env)
    ensures ok <==> StopsHost(old(m.now), env) && env.composeDown.result.Ok?
    ensures Safe(old(m.now)) ==> Keeps(m, old(m.history))
    ensures Safe(old(m.now)) && ok && !env.queryRaised ==> m.now.docker == {} && m.now.host == {}
    ensures !env.queryRaised && m.now.installed != {} && !env.stopHost.result.Ok? ==>
      !ok && m.now.docker == old(m.now).docker
    ensures env.stopHost.result.Ok? && env.composeDown.result.Ok? ==> ok
    ensures m.now.docker <= old(m.now).docker && m.now.host <= old(m.now).host
  {
    ghost var h := m.history;
    if Managed(m.now, env) != {} {
      ok := StopHost(m, env.stopHost);
      if !ok {
        return;
      }
      h := m.history;
    }
    ok := m.ComposeStop(m.now.docker, env.composeDown);
    if Safe(old(m.now)) {
      Chain(h, m.history, |old(m.history)|);
    }
  }

  /** What `hexis ui` finds at its port. */
  datatype Dashboard = AlreadyRunning | PortTaken | PortFree

  function AfterUi(p: Placement, found: Dashboard, env: Env): Placement {
    var managed := Managed(p, env);
    if !found.PortFree? then p
    else Placement(
      p.docker + Came(CORE - managed, env.composeUp), p.installed,
      if managed != {} then Running(p, env.startHost) else p.host)
  }

  /**
   * `hexis ui` from a packaged install. Workers that do not start are only warned about: the exit
   * is that of the dashboard in the foreground, `laterOk`, which an interrupt ends well.
   */
  method UiCommand(m: Machine, found: Dashboard, env: Env) returns (ok: bool, workersOk: bool)
    modifies m
    ensures m.now == AfterUi(old(m.now), found, env)
    // Nothing is started beside another program; otherwise either kind of worker is, whatever the other does.
    ensures !found.PortFree? ==> m.now == old(m.now)
    ensures found.PortFree? && !env.queryRaised ==> Served(old(m.now), m.now, env.startHost)
    ensures found.PortFree? && env.composeUp.result.Ok? ==> CORE - old(m.now).installed <= m.now.docker
    ensures m.now.docker <= old(m.now).docker + CORE
    ensures ok <==> found.AlreadyRunning? || (found.PortFree? && env.laterOk)
    ensures found.PortFree? ==>
      (workersOk <==>
        && (Managed(old(m.now), env) != {} ==> Runs(old(m.now), env.startHost))
        && (CORE <= Managed(old(m.now), env) || env.composeUp.result.Ok?))
    ensures Safe(old(m.now)) && FiltersCore(old(m.now), env) ==> Keeps(m, old(m.history))
  {
    workersOk := true;
    if found.AlreadyRunning? {
      return true, workersOk;
    }
    if found.PortTaken? {
      return false, workersOk;
    }
    var managed := Managed(m.now, env);
    ghost var h := m.history;
    if managed != {} {
      workersOk := EnsureHostRunning(m, env.startHost);
      h := m.history;
    }
    var targets := CORE - managed;
    if targets == {} {
      NoneLeft(managed);
    } else {
      var up := m.ComposeUp(targets, env.composeUp);
      workersOk := workersOk && up;
      if Safe(old(m.now)) && FiltersCore(old(m.now), env) {
        Chain(h, m.history, |old(m.history)|);
      }
    }
    ok := env.laterOk;
  }

  lemma UiBreaksExactly(p: Placement, env: Env)
    requires Owned(p) && env.composeUp.result.Ok?
    ensures Owned(AfterUi(p, PortFree, env)) <==> FiltersCore(p, env)
    ensures CORE - Managed(p, env) <= AfterUi(p, PortFree, env).docker
  {
    CoreFiltersExactly(p, env);
  }

  // ---------- init ----------

  /** The default services' workers; when `compose config` does not answer, the core ones are assumed. */
  function InitBase(stack: Stack, env: Env): set<Worker> {
    if env.configOk then stack.workers else CORE
  }

  /**
   * Something that init expects was not seen running. `laterOk` says whether `compose ps` answered,
   * `prepareOk` whether it listed every expected service that is no worker.
   */
  predicate InitStarts(p: Placement, stack: Stack, env: Env) {
    || !(InitBase(stack, env) - Managed(p, env) <= if env.laterOk then p.docker else {})
    || ((env.configOk ==> stack.hasOther) && !(env.laterOk && env.prepareOk))
  }

  /** Init reads the installed services twice: to filter the names, and to decide whether to pass them. */
  function InitManaged(p: Placement, againRaised: bool): set<Worker> {
    if againRaised then {} else p.installed
  }

  /** The guard of init, for either way its two readings can part. */
  predicate InitFilters(p: Placement, stack: Stack, againRaised: bool, env: Env) {
    if againRaised then p.installed !! stack.workers || !InitStarts(p, stack, env)
    else p.installed !! InitBase(stack, env) || !env.queryRaised
  }

  function InitTargets(p: Placement, stack: Stack, againRaised: bool, env: Env): set<Worker> {
    if !InitStarts(p, stack, env) then {}
    else if InitManaged(p, againRaised) == {} then stack.workers
    else InitBase(stack, env) - Managed(p, env)
  }

  function AfterInit(p: Placement, stack: Stack, againRaised: bool, env: Env): Placement {
    var upOk := InitStarts(p, stack, env) ==> env.composeUp.result.Ok?;
    Placement(
      p.docker + Came(InitTargets(p, stack, againRaised, env), env.composeUp), p.installed,
      if upOk && InitManaged(p, againRaised) != {} then Running(p, env.startHost) else p.host)
  }

  predicate InitSucceeds(p: Placement, stack: Stack, againRaised: bool, env: Env) {
    && (InitStarts(p, stack, env) ==> env.composeUp.result.Ok?)
    && (InitManaged(p, againRaised) != {} ==> Runs(p, env.startHost))
  }

  /** `hexis init` starting the stack. */
  method InitCommand(m: Machine, stack: Stack, againRaised: bool, env: Env) returns (ok: bool)
    modifies m
    ensures m.now == AfterInit(old(m.now), stack, againRaised, env)
    ensures ok <==> InitSucceeds(old(m.now), stack, againRaised, env)
    // Success means that every default worker is left to the host or runs in Docker, and the host is served.
    ensures ok && env.configOk ==> stack.workers - old(m.now).installed <= m.now.docker
    ensures ok && !againRaised ==>
      Served(old(m.now), m.now, env.startHost) && StartWorks(old(m.now), env.startHost)
    ensures env.composeUp.result.Ok? && env.startHost.result.Ok? ==> ok
    ensures Safe(old(m.now)) && InitFilters(old(m.now), stack, againRaised, env) ==> Keeps(m, old(m.history))
  {
    ghost var keeps := Safe(m.now) && InitFilters(m.now, stack, againRaised, env);
    if InitSucceeds(m.now, stack, againRaised, env) && env.configOk {
      InitCovers(m.now, stack, againRaised, env);
    }
    if keeps {
      InitFiltersExactly(m.now, stack, againRaised, env);
    }
    var expected := (if env.configOk then stack.workers else CORE) - Managed(m.now, env);
    var hasOther := !env.configOk || stack.hasOther;
    var managed := InitManaged(m.now, againRaised);
    var running := if env.laterOk then m.now.docker else {};
    var missing := expected - running;
    var othersMissing := hasOther && !(env.laterOk && env.prepareOk);
    ghost var h := m.history;
    if missing != {} || othersMissing {
      assert InitStarts(m.now, stack, env);
      ok := Up(m, stack, expected, managed != {}, env.composeUp);
      if !ok {
        return;
      }
      h := m.history;
    } else {
      assert forall w | w in expected :: w !in missing;
    }
    ok := true;
    if managed != {} {
      ok := EnsureHostRunning(m, env.startHost);
      if keeps {
        Chain(h, m.history, |old(m.history)|);
      }
    }
  }

  lemma InitCovers(p: Placement, stack: Stack, againRaised: bool, env: Env)
    requires InitSucceeds(p, stack, againRaised, env) && env.configOk
    ensures stack.workers - p.installed <= AfterInit(p, stack, againRaised, env).docker
  {
  }

  lemma InitFiltersExactly(p: Placement, stack: Stack, againRaised: bool, env: Env)
    requires Owned(p)
    ensures InitTargets(p, stack, againRaised, env) !! p.installed <==> InitFilters(p, stack, againRaised, env)
  {
    var base := InitBase(stack, env);
    if !againRaised && env.queryRaised && base * p.installed != {} {
      var w :| w in base * p.installed;
      assert w in base && w in p.installed && w !in p.docker;
    }
  }

  lemma InitBreaksExactly(p: Placement, stack: Stack, againRaised: bool, env: Env)
    requires Owned(p) && InitSucceeds(p, stack, againRaised, env)
    ensures Owned(AfterInit(p, stack, againRaised, env)) <==> InitFilters(p, stack, againRaised, env)
    ensures env.configOk ==> stack.workers - Managed(p, env) <= AfterInit(p, stack, againRaised, env).docker
  {
    InitFiltersExactly(p, stack, againRaised, env);
  }

  // ---------- Service commands ----------

  /** The units a service command is about: those named, else every installed one, else the default. */
  function Chosen(p: Placement, names: set<Worker>, default: set<Worker>): set<Worker> {
    if names != {} then names else if p.installed != {} then p.installed else default
  }

  function AfterControl(p: Placement, start: bool, names: set<Worker>, a: Answer): Placement {
    var chosen := Chosen(p, names, CORE);
    if !(chosen <= p.installed) then p
    else if start then p.(host := Restarted(p.host, chosen, a))
    else p.(host := p.host - Gone(chosen, a))
  }

  /** `hexis service start`, `restart` and `stop`. */
  method ServiceControl(m: Machine, start: bool, names: set<Worker>, a: Answer) returns (ok: bool)
    modifies m
    ensures m.now == AfterControl(old(m.now), start, names, a)
    ensures ok <==> Chosen(old(m.now), names, CORE) <= m.now.installed && a.result.Ok?
    ensures Safe(old(m.now)) ==> Keeps(m, old(m.history))
    ensures Safe(old(m.now)) && !start && names == {} && ok ==> m.now.host == {}
    ensures names != {} && !start && ok ==> m.now.host == old(m.now).host - names
    ensures start && ok ==>
      forall w | w in a.reached && w in (if names == {} then old(m.now).installed else names) :: w in m.now.host
    ensures names != {} && !(names <= old(m.now).installed) ==> !ok && m.now == old(m.now)
    ensures m.now.docker == old(m.now).docker && m.now.installed == old(m.now).installed
  {
    var chosen := if names != {} then names else if m.now.installed != {} then m.now.installed else CORE;
    var r;
    if start {
      r := m.ControlStart(chosen, a);
    } else {
      r := m.ControlStop(chosen, a);
    }
    ok := r.Ok?;
  }

  const ALL := CORE + {Channels}

  /** The units can be stopped well enough for the uninstall to go on to removing them. */
  predicate Removes(p: Placement, launchd: bool, names: set<Worker>, stop: Answer) {
    Chosen(p, names, ALL) <= p.installed && (stop.result.Ok? || (launchd && stop.result.Refused?))
  }

  function AfterUninstall(p: Placement, launchd: bool, names: set<Worker>, stop: Answer, remove: Answer): Placement {
    var chosen := Chosen(p, names, ALL);
    if !(chosen <= p.installed) then p
    else Placement(
      p.docker,
      if Removes(p, launchd, names, stop) then p.installed - Gone(chosen, remove) else p.installed,
      p.host - Gone(chosen, stop))
  }

  /**
   * The guard of an uninstall: on launchd, where a failed boot-out is not looked at, every running
   * worker whose unit file is removed was among those booted out.
   */
  predicate StopsWhatItRemoves(p: Placement, launchd: bool, names: set<Worker>, stop: Answer, remove: Answer) {
    var chosen := Chosen(p, names, ALL);
    launchd && stop.result.Refused? && chosen <= p.installed ==>
      forall w | w in Gone(chosen, remove) && w in p.host :: w in stop.dropped
  }

  /**
   * `hexis service uninstall`: systemd stops the units and gives up when that fails; launchd boots
   * each one out and goes on without looking at the result, unless running the command crashes.
   */
  method ServiceUninstall(m: Machine, launchd: bool, names: set<Worker>, stop: Answer, remove: Answer)
    returns (ok: bool)
    modifies m
    ensures m.now == AfterUninstall(old(m.now), launchd, names, stop, remove)
    ensures ok <==> Removes(old(m.now), launchd, names, stop) && remove.result.Ok?
    // Success removes the units named, or all; units that cannot be stopped stay, but for launchd's.
    ensures ok ==> m.now.installed == if names == {} then {} else old(m.now).installed - names
    ensures ok && stop.result.Ok? ==> if names == {} then Safe(old(m.now)) ==> m.now.host == {} else names !! m.now.host
    ensures stop.result.Crashed? || (!launchd && !stop.result.Ok?) ==> !ok && m.now.installed == old(m.now).installed
    ensures names != {} && names <= old(m.now).installed && stop.result.Ok? && remove.result.Ok? ==> ok
    ensures Safe(old(m.now)) && StopsWhatItRemoves(old(m.now), launchd, names, stop, remove) ==>
      Keeps(m, old(m.history))
  {
    var chosen := if names != {} then names else if m.now.installed != {} then m.now.installed else ALL;
    if !(chosen <= m.now.installed) {
      return false;
    }
    m.StopUnits(chosen, stop);
    if stop.result.Crashed? || (!stop.result.Ok? && !launchd) {
      return false;
    }
    ghost var h := m.history;
    m.RemoveUnits(chosen, remove);
    ok := remove.result.Ok?;
    if Safe(old(m.now)) && StopsWhatItRemoves(old(m.now), launchd, names, stop, remove) {
      UninstallBreaksExactly(old(m.now), launchd, names, stop, remove);
      Chain(h, m.history, |old(m.history)|);
    }
  }

  /**
   * An uninstall, whether it ends well or not, leaves a worker running without a unit exactly when
   * boot-out failed on launchd and missed a running worker whose unit file then went.
   */
  lemma UninstallBreaksExactly(p: Placement, launchd: bool, names: set<Worker>, stop: Answer, remove: Answer)
    requires HostInstalled(p)
    ensures HostInstalled(AfterUninstall(p, launchd, names, stop, remove))
      <==> StopsWhatItRemoves(p, launchd, names, stop, remove)
    ensures AfterUninstall(p, launchd, names, stop, remove).docker == p.docker
  {
    var chosen, q := Chosen(p, names, ALL), AfterUninstall(p, launchd, names, stop, remove);
    if launchd && stop.result.Refused? && chosen <= p.installed {
      assert forall w | w in p.host && w in Gone(chosen, remove) :: w in q.host <==> w !in stop.dropped;
    }
  }

  // ---------- Runs that break the rule ----------

  const FINE := Answer(Ok, [], [])

  /** `up` where Compose knows only the heartbeat worker and it is installed: no name is left to pass. */
  lemma UpStartsInstalledWorker()
    ensures var p, stack := Placement({}, {Heartbeat}, {Heartbeat}), Stack({Heartbeat}, false);
      var env := Env(false, true, FINE, FINE, true, FINE, true, FINE);
      && Safe(p) && UpSucceeds(p, stack, env)
      && AfterUp(p, stack, env) == Placement({Heartbeat}, {Heartbeat}, {Heartbeat})
  {
    var p, stack := Placement({}, {Heartbeat}, {Heartbeat}), Stack({Heartbeat}, false);
    var env := Env(false, true, FINE, FINE, true, FINE, true, FINE);
    assert DefaultTargets(p, stack, env) == {Heartbeat};
  }

  /** `start` where reading the installed services raises: the installed worker starts in Docker too. */
  lemma StartStartsInstalledWorker()
    ensures var p := Placement({}, {Heartbeat}, {Heartbeat});
      var env := Env(true, true, FINE, FINE, true, FINE, true, FINE);
      && Safe(p) && StartSucceeds(p, env)
      && AfterStart(p, env) == Placement(CORE, {Heartbeat}, {Heartbeat})
  {
    var p := Placement({}, {Heartbeat}, {Heartbeat});
    var env := Env(true, true, FINE, FINE, true, FINE, true, FINE);
    assert CORE - Managed(p, env) == CORE;
  }

  /** Uninstall on launchd with a refused boot-out: success, and the worker runs without a unit. */
  lemma UninstallLeavesWorker()
    ensures var p, refused := Placement({}, {Heartbeat}, {Heartbeat}), Answer(Refused, [], []);
      && Safe(p) && Removes(p, true, {}, refused)
      && AfterUninstall(p, true, {}, refused, FINE) == Placement({}, {}, {Heartbeat})
  {
    var p, refused := Placement({}, {Heartbeat}, {Heartbeat}), Answer(Refused, [], []);
    assert Chosen(p, {}, ALL) == {Heartbeat};
    assert p.host - Gone({Heartbeat}, refused) == {Heartbeat};
  }

  // ---------- Any sequence of commands ----------

  /** A command with the Compose file it finds, its options, and the answers it gets. */
  datatype Command =
    | CmdUp(stack: Stack, env: Env)
    | CmdStart(env: Env)
    | CmdStop(env: Env)
    | CmdDown(env: Env)
    | CmdReset(stack: Stack, confirmed: bool, env: Env)
    | CmdUpgrade(stack: Stack, env: Env)
    | CmdUi(found: Dashboard, env: Env)
    | CmdInit(stack: Stack, againRaised: bool, env: Env)
    | CmdControl(start: bool, names: set<Worker>, answer: Answer)
    | CmdUninstall(launchd: bool, names: set<Worker>, stop: Answer, remove: Answer)
    | CmdInstall(options: Options, replies: Replies)

  /** What the rule rests on, for a command given at `p`. */
  predicate Guarded(p: Placement, c: Command) {
    match c
    case CmdUp(stack, env) => Filters(p, stack, env)
    case CmdReset(stack, _, env) => Filters(p, stack, env)
    case CmdUpgrade(stack, env) => Filters(p, stack, env)
    case CmdStart(env) => FiltersCore(p, env)
    case CmdUi(_, env) => FiltersCore(p, env)
    case CmdInit(stack, againRaised, env) => InitFilters(p, stack, againRaised, env)
    case CmdUninstall(launchd, names, stop, remove) => StopsWhatItRemoves(p, launchd, names, stop, remove)
    case CmdInstall(options, replies) => replies.compose.NoFile? ==> p.docker !! Requested(options)
    case _ => true
  }

  /** The command succeeds; for `ui`, its call to Docker does; an uninstall need not. */
  predicate Works(p: Placement, c: Command) {
    match c
    case CmdUp(stack, env) => UpSucceeds(p, stack, env)
    case CmdReset(stack, confirmed, env) => ResetSucceeds(p, stack, confirmed, env)
    case CmdUpgrade(stack, env) => UpgradeSucceeds(p, stack, env)
    case CmdStart(env) => StartSucceeds(p, env)
    case CmdUi(found, env) => found.PortFree? && env.composeUp.result.Ok?
    case CmdInit(stack, againRaised, env) => InitSucceeds(p, stack, againRaised, env)
    case CmdInstall(options, replies) => Succeeds(p, options, replies)
    case _ => true
  }

  /** The placement a command leaves; for an install, when it succeeds. */
  function After(p: Placement, c: Command): Placement {
    match c
    case CmdUp(stack, env) => AfterUp(p, stack, env)
    case CmdStart(env) => AfterStart(p, env)
    case CmdStop(env) => AfterStop(p, CORE - Managed(p, env), env)
    case CmdDown(env) => AfterStop(p, p.docker, env)
    case CmdReset(stack, confirmed, env) => AfterReset(p, stack, confirmed, env)
    case CmdUpgrade(stack, env) => AfterUpgrade(p, stack, env)
    case CmdUi(found, env) => AfterUi(p, found, env)
    case CmdInit(stack, againRaised, env) => AfterInit(p, stack, againRaised, env)
    case CmdControl(start, names, a) => AfterControl(p, start, names, a)
    case CmdUninstall(launchd, names, stop, remove) => AfterUninstall(p, launchd, names, stop, remove)
    case CmdInstall(o, r) =>
      Placement(p.docker - Matching(p, o, r), p.installed + Requested(o), HostAfter(p, o, r))
  }

  /** No guard asks too much: a command that works without it breaks the rule. */
  lemma GuardIsNeeded(p: Placement, c: Command)
    requires Safe(p) && Works(p, c) && !Guarded(p, c)
    ensures !Safe(After(p, c))
  {
    match c
    case CmdUp(stack, env) => UpBreaksExactly(p, stack, env);
    case CmdReset(stack, confirmed, env) => ResetBreaksExactly(p, stack, env);
    case CmdUpgrade(stack, env) => UpgradeBreaksExactly(p, stack, env);
    case CmdStart(env) => StartBreaksExactly(p, env);
    case CmdUi(_, env) => UiBreaksExactly(p, env);
    case CmdInit(stack, againRaised, env) => InitBreaksExactly(p, stack, againRaised, env);
    case CmdUninstall(launchd, names, stop, remove) => UninstallBreaksExactly(p, launchd, names, stop, remove);
    case CmdInstall(options, replies) =>
      var w :| w in p.docker * Requested(options);
      assert w in After(p, c).docker && w in After(p, c).installed;
  }

  /** An install that failed half-way. */
  predicate FailsHalfway(p: Placement, c: Command) {
    c.CmdInstall? && Proceeds(p, c.options, c.replies) && !Works(p, c)
  }

  /** The placement a command leaves that is no install that failed half-way. */
  function Left(p: Placement, c: Command): Placement {
    if c.CmdInstall? && !Proceeds(p, c.options, c.replies) then p else After(p, c)
  }

  function AfterAll(p: Placement, commands: seq<Command>): Placement {
    if commands == [] then p else Left(AfterAll(p, commands[..|commands| - 1]), commands[|commands| - 1])
  }

  /** The guard of command `k` holds where it is given, and it is no install that fails half-way there. */
  predicate RunsOn(p: Placement, commands: seq<Command>, k: nat)
    requires k < |commands|
  {
    var before := AfterAll(p, commands[..k]);
    Guarded(before, commands[k]) && !FailsHalfway(before, commands[k])
  }

  method Execute(m: Machine, c: Command) returns (go: bool)
    requires Safe(m.now) && Guarded(m.now, c)
    modifies m
    ensures old(m.history) <= m.history && ExclusiveSince(m.history, |old(m.history)|)
    ensures go <==> !FailsHalfway(old(m.now), c)
    ensures go ==> Safe(m.now) && m.now == Left(old(m.now), c)
    ensures !c.CmdInstall? ==> Keeps(m, old(m.history))
  {
    go := true;
    SafeIsExclusive(m.now);
    match c {
      case CmdUp(stack, env) => var _ := UpCommand(m, stack, env);
      case CmdStart(env) => var _ := StartCommand(m, env);
      case CmdStop(env) => var _ := StopCommand(m, env);
      case CmdDown(env) => var _ := DownCommand(m, env);
      case CmdReset(stack, confirmed, env) => var _ := ResetCommand(m, stack, confirmed, env);
      case CmdUpgrade(stack, env) => var _ := UpgradeCommand(m, stack, env);
      case CmdUi(found, env) => var _, _ := UiCommand(m, found, env);
      case CmdInit(stack, againRaised, env) => var _ := InitCommand(m, stack, againRaised, env);
      case CmdControl(start, names, a) => var _ := ServiceControl(m, start, names, a);
      case CmdUninstall(launchd, names, stop, remove) =>
        var _ := ServiceUninstall(m, launchd, names, stop, remove);
      case CmdInstall(options, replies) =>
        var refused := !Proceeds(m.now, options, replies);
        var exit := ServiceInstall(m, options, replies);
        return refused || exit == Success;
    }
    forall i | |old(m.history)| <= i < |m.history| ensures Exclusive(m.history[i]) {
      SafeIsExclusive(m.history[i]);
    }
  }

  /** How a sequence of commands ends: at its end, at a command whose guard fails, or at a failed install. */
  datatype Halt = Completed | Unguarded | InstallFailed

  /**
   * Over any sequence of commands whose guards hold where they are given, up to and including the
   * first install that fails half-way, no state has a worker running both in Docker and on the host.
   * Unless an install failed, the placement is that of the commands done, and no worker installed on
   * the host runs in Docker at the end.
   */
  method RunCommands(m: Machine, commands: seq<Command>) returns (done: nat, halt: Halt)
    requires Safe(m.now)
    modifies m
    ensures done <= |commands| && (halt.Completed? <==> done == |commands|)
    ensures old(m.history) <= m.history && ExclusiveSince(m.history, |old(m.history)|)
    ensures forall k | 0 <= k < done :: RunsOn(old(m.now), commands, k)
    ensures !halt.InstallFailed? ==> Safe(m.now) && m.now == AfterAll(old(m.now), commands[..done])
    ensures halt.Unguarded? ==> !Guarded(m.now, commands[done])
    ensures halt.InstallFailed? ==>
      var p := AfterAll(old(m.now), commands[..done]);
      Guarded(p, commands[done]) && FailsHalfway(p, commands[done])
  {
    done := 0;
    while done < |commands|
      invariant done <= |commands| && Safe(m.now) && m.now == AfterAll(old(m.now), commands[..done])
      invariant old(m.history) <= m.history && ExclusiveSince(m.history, |old(m.history)|)
      invariant forall k | 0 <= k < done :: RunsOn(old(m.now), commands, k)
    {
      if !Guarded(m.now, commands[done]) {
        return done, Unguarded;
      }
      ghost var h := m.history;
      var go := Execute(m, commands[done]);
      Extend(h, m.history, |old(m.history)|);
      if !go {
        return done, InstallFailed;
      }
      assert commands[..done + 1][..done] == commands[..done];
      done := done + 1;
    }
    halt := Completed;
  }
}
