/**
 The machine the worker commands of apps/hexis_cli.py act on: which workers run in Docker, which
 are installed as host services, and which run as host services. Every external call may fail and
 may have reached only some of the workers it names; `history` keeps every state in between.
 */
module HostMachine {

  datatype Worker = Heartbeat | Maintenance | Channels

  const CORE := {Heartbeat, Maintenance}

  datatype Placement = Placement(docker: set<Worker>, installed: set<Worker>, host: set<Worker>)

  /** No worker runs in both places. */
  predicate Exclusive(p: Placement) {
    p.docker !! p.host
  }

  /** A worker that is installed on the host does not run in Docker. */
  predicate Owned(p: Placement) {
    p.docker !! p.installed
  }

  /** Only installed workers run on the host. */
  predicate HostInstalled(p: Placement) {
    p.host <= p.installed
  }

  /**
   * A call succeeds, is refused (a non-zero exit code, or HostServiceError), or crashes with
   * another exception.
   */
  datatype Result = Ok | Refused | Crashed

  /** The workers a call stopped, then the workers it started, in order, and how it ended. */
  datatype Answer = Answer(result: Result, dropped: seq<Worker>, reached: seq<Worker>)

  /** The workers of a list that a call was asked to act on. */
  function Within(ws: seq<Worker>, names: set<Worker>): (s: set<Worker>)
    ensures s <= names
  {
    set w | w in ws && w in names
  }

  /** The workers a stopping or removing call took away. */
  function Gone(names: set<Worker>, a: Answer): (s: set<Worker>)
    ensures s <= names
  {
    if a.result.Ok? then names else Within(a.dropped, names)
  }

  /** The workers a Compose start brought up. */
  function Came(names: set<Worker>, a: Answer): (s: set<Worker>)
    ensures s <= names
  {
    if a.result.Ok? then names else Within(a.reached, names)
  }

  /**
   * The host copies after starting or restarting `names`. A restart drops the old copy first, and a
   * unit that was started may exit at once, so success does not mean that every name runs.
   */
  function Restarted(host: set<Worker>, names: set<Worker>, a: Answer): set<Worker> {
    host - Within(a.dropped, names) + Within(a.reached, names)
  }

  lemma WithinStep(ws: seq<Worker>, names: set<Worker>, n: nat)
    requires n < |ws|
    ensures Within(ws[..n + 1], names) == Within(ws[..n], names) + (if ws[n] in names then {ws[n]} else {})
  {
    assert ws[..n + 1] == ws[..n] + [ws[n]];
  }

  class Machine {
    var now: Placement
    ghost var history: seq<Placement>

    constructor (p: Placement)
      ensures now == p && history == [p]
    {
      now, history := p, [p];
    }

    /** Every state since `h` stayed below `top`, with the installed units of `top`. */
    ghost predicate Below(h: seq<Placement>, top: Placement)
      reads this
    {
      && h <= history
      && forall i | |h| <= i < |history| ::
           history[i].docker <= top.docker && history[i].host <= top.host && history[i].installed == top.installed
    }

    method Move(p: Placement)
      modifies this
      ensures now == p && history == old(history) + [p]
    {
      now := p;
      history := history + [p];
    }

    // ---------- Docker Compose ----------

    /** `compose up -d` on `targets`. */
    method ComposeUp(targets: set<Worker>, a: Answer) returns (ok: bool)
      modifies this
      ensures ok <==> a.result.Ok?
      ensures now == old(now).(docker := old(now).docker + Came(targets, a))
      ensures ok ==> targets <= now.docker
      ensures forall w | w in a.reached && w in targets :: w in now.docker
      ensures Below(old(history), now)
    {
      ok := a.result.Ok?;
      for i := 0 to |a.reached|
        invariant now == old(now).(docker := old(now).docker + Within(a.reached[..i], targets))
        invariant Below(old(history), now)
      {
        WithinStep(a.reached, targets, i);
        if a.reached[i] in targets {
          Move(now.(docker := now.docker + {a.reached[i]}));
        }
      }
      assert a.reached[..|a.reached|] == a.reached;
      if ok {
        Move(now.(docker := now.docker + targets));
      }
    }

    /** `compose stop` on `targets`; `compose down` stops them all. */
    method ComposeStop(targets: set<Worker>, a: Answer) returns (ok: bool)
      modifies this
      ensures ok <==> a.result.Ok?
      ensures now == old(now).(docker := old(now).docker - Gone(targets, a))
      ensures ok ==> targets !! now.docker
      ensures forall w | w in a.dropped && w in targets :: w !in now.docker
      ensures Below(old(history), old(now))
    {
      ok := a.result.Ok?;
      for i := 0 to |a.dropped|
        invariant now == old(now).(docker := old(now).docker - Within(a.dropped[..i], targets))
        invariant Below(old(history), old(now))
      {
        WithinStep(a.dropped, targets, i);
        if a.dropped[i] in targets {
          Move(now.(docker := now.docker - {a.dropped[i]}));
        }
      }
      assert a.dropped[..|a.dropped|] == a.dropped;
      if ok {
        Move(now.(docker := now.docker - targets));
      }
    }

    // ---------- Host services ----------

    /** Stops host copies of `names`; a call that succeeds has stopped them all. */
    method StopUnits(names: set<Worker>, a: Answer)
      modifies this
      ensures now == old(now).(host := old(now).host - Gone(names, a))
      ensures Below(old(history), old(now))
    {
      for i := 0 to |a.dropped|
        invariant now == old(now).(host := old(now).host - Within(a.dropped[..i], names))
        invariant Below(old(history), old(now))
      {
        WithinStep(a.dropped, names, i);
        if a.dropped[i] in names {
          Move(now.(host := now.host - {a.dropped[i]}));
        }
      }
      assert a.dropped[..|a.dropped|] == a.dropped;
      if a.result.Ok? {
        Move(now.(host := now.host - names));
      }
    }

    /** Starts or restarts host copies of `names`. */
    method StartUnits(names: set<Worker>, a: Answer)
      modifies this
      ensures now == old(now).(host := Restarted(old(now).host, names, a))
      ensures Below(old(history), old(now).(host := old(now).host + now.host))
    {
      StopUnits(names, a.(result := Refused));
      ghost var h, was := history, now;
      assert forall i | |old(history)| <= i < |h| :: h[i].host <= old(now).host;
      for i := 0 to |a.reached|
        invariant now == was.(host := was.host + Within(a.reached[..i], names))
        invariant Below(old(history), old(now).(host := old(now).host + now.host))
      {
        WithinStep(a.reached, names, i);
        if a.reached[i] in names {
          Move(now.(host := now.host + {a.reached[i]}));
        }
      }
      assert a.reached[..|a.reached|] == a.reached;
    }

    /** control_host_services for start and restart: refused for units that are not installed. */
    method ControlStart(names: set<Worker>, a: Answer) returns (r: Result)
      modifies this
      ensures !(names <= now.installed) ==> r == Refused && now == old(now)
      ensures names <= now.installed ==>
        r == a.result && now == old(now).(host := Restarted(old(now).host, names, a))
      ensures names <= now.installed ==> forall w | w in a.reached && w in names :: w in now.host
      ensures old(now).host - names <= now.host
      ensures now.installed == old(now).installed
      ensures Below(old(history), old(now).(host := old(now).host + now.host))
    {
      if !(names <= now.installed) {
        return Refused;
      }
      StartUnits(names, a);
      return a.result;
    }

    /** control_host_services for stop. */
    method ControlStop(names: set<Worker>, a: Answer) returns (r: Result)
      modifies this
      ensures !(names <= now.installed) ==> r == Refused && now == old(now)
      ensures names <= now.installed ==>
        r == a.result && now == old(now).(host := old(now).host - Gone(names, a))
      ensures r.Ok? ==> names !! now.host
      ensures old(now).host - names <= now.host
      ensures now.installed == old(now).installed
      ensures Below(old(history), old(now))
    {
      if !(names <= now.installed) {
        return Refused;
      }
      StopUnits(names, a);
      return a.result;
    }

    /**
     * install_host_services: unit files are written one by one; running copies may be dropped (launchd
     * boots the old unit out); with `start`, copies are started.
     */
    method InstallUnits(names: set<Worker>, start: bool, written: seq<Worker>, a: Answer) returns (r: Result)
      modifies this
      ensures r == a.result
      ensures now == Placement(
        old(now).docker,
        old(now).installed + (if r.Ok? then names else Within(written, names)),
        Restarted(old(now).host, names, if start then a else a.(reached := [])))
      ensures old(history) <= history
      ensures forall i | |old(history)| <= i < |history| ::
                && history[i].docker <= old(now).docker
                && history[i].host <= old(now).host + now.host
                && old(now).installed <= history[i].installed <= now.installed
    {
      r := a.result;
      for i := 0 to |written|
        invariant now == old(now).(installed := old(now).installed + Within(written[..i], names))
        invariant old(history) <= history
        invariant forall i | |old(history)| <= i < |history| ::
                    && history[i].docker == old(now).docker && history[i].host == old(now).host
                    && old(now).installed <= history[i].installed <= now.installed
      {
        WithinStep(written, names, i);
        if written[i] in names {
          Move(now.(installed := now.installed + {written[i]}));
        }
      }
      assert written[..|written|] == written;
      if r.Ok? {
        Move(now.(installed := now.installed + names));
      }
      ghost var h, was := history, now;
      StartUnits(names, if start then a else a.(reached := []));
      assert forall i | |old(history)| <= i < |h| :: history[i] == h[i];
    }

    /** Removes unit files one by one; all of them when the call succeeds. */
    method RemoveUnits(names: set<Worker>, a: Answer)
      modifies this
      ensures now == old(now).(installed := old(now).installed - Gone(names, a))
      ensures old(history) <= history
      ensures forall i | |old(history)| <= i < |history| ::
                && history[i].docker == old(now).docker && history[i].host == old(now).host
                && now.installed <= history[i].installed <= old(now).installed
    {
      for i := 0 to |a.dropped|
        invariant now == old(now).(installed := old(now).installed - Within(a.dropped[..i], names))
        invariant old(history) <= history
        invariant forall i | |old(history)| <= i < |history| ::
                    && history[i].docker == old(now).docker && history[i].host == old(now).host
                    && now.installed <= history[i].installed <= old(now).installed
      {
        WithinStep(a.dropped, names, i);
        if a.dropped[i] in names {
          Move(now.(installed := now.installed - {a.dropped[i]}));
        }
      }
      assert a.dropped[..|a.dropped|] == a.dropped;
      if a.result.Ok? {
        Move(now.(installed := now.installed - names));
      }
    }
  }
}
