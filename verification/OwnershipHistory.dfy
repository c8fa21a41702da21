/**
 What the runs of OwnedAssets have in common: every deletion goes back through a record, a write and a
 reading to an install's hash, or to a launch that saw no cache; and when a half of the record is lost.
 */
module OwnershipHistory {
  import opened Prelude
  import opened OwnedAssets

  datatype Run = Run(init: State, events: seq<Event>)

  /** The state before event `n`. */
  function At(r: Run, n: nat): State
    requires n <= |r.events|
  {
    if n == 0 then r.init else Step(At(r, n - 1), r.events[n - 1])
  }

  lemma {:induction false} AtIsAfterAll(r: Run, n: nat)
    requires n <= |r.events|
    ensures At(r, n) == AfterAll(r.init, r.events[..n])
  {
    if n > 0 {
      AtIsAfterAll(r, n - 1);
      assert r.events[..n][..n - 1] == r.events[..n - 1];
    }
  }

  /** Every Hexis token in a marker is one that Hexis has minted. */
  predicate Unforged(caches: map<Path, Cache>, minted: set<string>) {
    forall p | p in caches && caches[p].marker.Marked? && caches[p].marker.owner == HEXIS ::
      caches[p].marker.token in minted
  }

  /** Nothing has been recorded or marked yet. */
  predicate Start(s: State) {
    && s.record == Missing && s.launched == map[] && s.drafts == map[] && s.purges == map[]
    && s.minted == {} && Unforged(s.caches, {})
  }

  /**
   * New tokens are fresh. Other programs may change binaries and caches at will, short of guessing a
   * token, and may delete or damage the record or put an earlier one back.
   */
  ghost predicate Fair(r: Run, n: nat)
    requires n < |r.events|
  {
    match r.events[n]
    case ReadMark(_, newToken, _) => newToken !in At(r, n).minted
    case Others(record, _, caches) =>
      && Unforged(caches, At(r, n).minted)
      && (record.Record? ==> exists h :: 0 <= h <= n && At(r, h).record == record)
    case _ => true
  }

  ghost predicate ValidRun(r: Run) {
    Start(r.init) && forall n | 0 <= n < |r.events| :: Fair(r, n)
  }

  // ---------- Where things come from ----------

  predicate LaunchesAs(e: Event, pid: nat) {
    e.Launch? && e.pid == pid
  }

  /** Event `j` is the process's last launch before event `k`, and there was no cache at `path` then. */
  ghost predicate SawNone(r: Run, j: nat, k: nat, pid: nat, path: Path)
    requires j < k <= |r.events|
  {
    && r.events[j] == Launch(pid, path) && path !in At(r, j).caches
    && forall i | j < i < k :: !LaunchesAs(r.events[i], pid)
  }

  /** Event `k` is the reading that leaves the process with this draft. */
  predicate Drafts(r: Run, k: nat, pid: nat, d: Draft)
    requires k < |r.events|
  {
    Reads(At(r, k), r.events[k], pid, d)
  }

  /** The process reads, and has this draft to write. */
  predicate Reads(s: State, e: Event, pid: nat, d: Draft) {
    match e
    case ReadInstall(p, path) => p == pid && InstallDraft(s, path) == Some(d)
    case ReadMark(p, token, ok) => p == pid && MarkOutcome(s, p, token, ok) == Drafted(d)
    case _ => false
  }

  /** From the reading at `k` until event `m` the process holds the draft. */
  ghost predicate Holds(r: Run, k: nat, m: nat, pid: nat, d: Draft)
    requires m <= |r.events|
  {
    forall i | k < i <= m :: pid in At(r, i).drafts && At(r, i).drafts[pid] == d
  }

  /** The draft read at `k` is written at `m`. */
  ghost predicate Records(r: Run, k: nat, m: nat, pid: nat, d: Draft)
    requires k < m < |r.events|
  {
    Drafts(r, k, pid, d) && Holds(r, k, m, pid, d) && r.events[m] == Write(pid, true)
  }

  /** Event `i` writes this token into the marker of a cache that appeared after a launch that saw none. */
  predicate MintsToken(r: Run, i: nat, token: string)
    requires i < |r.events|
  {
    var e := r.events[i];
    e.ReadMark? && e.newToken == token && Mints(At(r, i), e.pid, e.markerOk)
  }

  lemma LaunchStays(s: State, e: Event, pid: nat)
    requires pid in Step(s, e).launched && !LaunchesAs(e, pid)
    ensures pid in s.launched && s.launched[pid] == Step(s, e).launched[pid]
  {
  }

  lemma {:induction false} LaunchOf(r: Run, n: nat, pid: nat) returns (j: nat)
    requires ValidRun(r) && n <= |r.events| && pid in At(r, n).launched
    ensures j < n && LaunchesAs(r.events[j], pid)
    ensures At(r, n).launched[pid] == (r.events[j].path, r.events[j].path in At(r, j).caches)
    ensures forall i | j < i < n :: !LaunchesAs(r.events[i], pid)
  {
    if LaunchesAs(r.events[n - 1], pid) {
      return n - 1;
    }
    LaunchStays(At(r, n - 1), r.events[n - 1], pid);
    j := LaunchOf(r, n - 1, pid);
  }

  /** A process that holds a draft and does not read held it before. */
  lemma DraftStays(s: State, e: Event, pid: nat)
    requires pid in Step(s, e).drafts && !((e.ReadInstall? || e.ReadMark?) && e.pid == pid)
    ensures pid in s.drafts && s.drafts[pid] == Step(s, e).drafts[pid]
  {
  }

  lemma DraftRead(s: State, e: Event, pid: nat)
    requires pid in Step(s, e).drafts && (e.ReadInstall? || e.ReadMark?) && e.pid == pid
    ensures Reads(s, e, pid, Step(s, e).drafts[pid])
  {
  }

  lemma HoldsOn(r: Run, k: nat, n: nat, pid: nat, d: Draft)
    requires 0 < n <= |r.events| && Holds(r, k, n - 1, pid, d)
    requires pid in At(r, n).drafts && At(r, n).drafts[pid] == d
    ensures Holds(r, k, n, pid, d)
  {
  }

  lemma {:induction false} DraftOf(r: Run, n: nat, pid: nat) returns (k: nat)
    requires ValidRun(r) && n <= |r.events| && pid in At(r, n).drafts
    ensures k < n && Drafts(r, k, pid, At(r, n).drafts[pid]) && Holds(r, k, n, pid, At(r, n).drafts[pid])
  {
    var s, e := At(r, n - 1), r.events[n - 1];
    if (e.ReadInstall? || e.ReadMark?) && e.pid == pid {
      DraftRead(s, e, pid);
      return n - 1;
    }
    DraftStays(s, e, pid);
    k := DraftOf(r, n - 1, pid);
    HoldsOn(r, k, n, pid, s.drafts[pid]);
  }

  lemma {:induction false} PurgeOf(r: Run, n: nat, pid: nat) returns (q: nat)
    requires ValidRun(r) && n <= |r.events| && pid in At(r, n).purges
    ensures q < n && r.events[q] == ReadPurge(pid) && At(r, q).record == At(r, n).purges[pid]
  {
    if r.events[n - 1] == ReadPurge(pid) {
      return n - 1;
    }
    q := PurgeOf(r, n - 1, pid);
  }

  lemma MintedBy(s: State, e: Event, token: string)
    requires token in Step(s, e).minted && token !in s.minted
    ensures e.ReadMark? && e.newToken == token && Mints(s, e.pid, e.markerOk)
  {
  }

  lemma {:induction false} MintOf(r: Run, n: nat, token: string) returns (i: nat)
    requires ValidRun(r) && n <= |r.events| && token in At(r, n).minted
    ensures i < n && MintsToken(r, i, token)
  {
    if token !in At(r, n - 1).minted {
      MintedBy(At(r, n - 1), r.events[n - 1], token);
      return n - 1;
    }
    i := MintOf(r, n - 1, token);
  }

  lemma MintedGrows(s: State, e: Event)
    ensures s.minted <= Step(s, e).minted
  {
  }

  lemma {:induction false} MintedStays(r: Run, i: nat, n: nat, token: string)
    requires i < n <= |r.events| && MintsToken(r, i, token)
    ensures token in At(r, n).minted
  {
    if i < n - 1 {
      MintedStays(r, i, n - 1, token);
      MintedGrows(At(r, n - 1), r.events[n - 1]);
    }
  }

  /** A token stands for one cache: it is minted once. */
  lemma TokenMintedOnce(r: Run, i: nat, n: nat, token: string)
    requires ValidRun(r) && i <= n < |r.events| && MintsToken(r, i, token) && MintsToken(r, n, token)
    ensures i == n
  {
    assert Fair(r, n);
    if i < n {
      MintedStays(r, i, n, token);
    }
  }

  /** No forged token ever appears. */
  lemma {:induction false} StaysUnforged(r: Run, n: nat)
    requires ValidRun(r) && n <= |r.events|
    ensures Unforged(At(r, n).caches, At(r, n).minted)
  {
    if n > 0 {
      StaysUnforged(r, n - 1);
      assert Fair(r, n - 1);
    }
  }

  // ---------- A claim in the record ----------

  /** Half of a record: the claim on the binary, or the one on the cache. */
  function HalfOf(r: Record, binary: bool): Option<Claim> {
    if binary then BinaryOf(r) else CacheOf(r)
  }

  /** Process `pid` reads a draft at event `read` and writes it at event `write`. */
  datatype Recording = Recording(pid: nat, read: nat, write: nat)

  /** The recording puts claim `c` on the binary or on the cache into the record. */
  ghost predicate RecordsClaim(r: Run, w: Recording, binary: bool, c: Claim)
    requires w.read < w.write < |r.events|
  {
    var base := At(r, w.read).record;
    Records(r, w.read, w.write, w.pid, if binary then BinaryDraft(base, c) else CacheDraft(base, c))
  }

  /** A claim in the record was read as a draft and written by one process, however the record got back. */
  lemma {:induction false} ClaimOf(r: Run, n: nat, binary: bool, c: Claim) returns (w: Recording)
    requires ValidRun(r) && n <= |r.events| && HalfOf(At(r, n).record, binary) == Some(c)
    ensures w.read < w.write < n && RecordsClaim(r, w, binary, c)
  {
    var e, before := r.events[n - 1], At(r, n - 1);
    if HalfOf(before.record, binary) == Some(c) {
      w := ClaimOf(r, n - 1, binary, c);
    } else if e.Others? {
      assert Fair(r, n - 1);
      var h :| 0 <= h <= n - 1 && At(r, h).record == e.record;
      w := ClaimOf(r, h, binary, c);
    } else {
      assert e.Write? && e.pid in before.drafts;
      var k := DraftOf(r, n - 1, e.pid);
      if before.drafts[e.pid].BinaryDraft? == binary {
        w := Recording(e.pid, k, n - 1);
      } else {
        w := ClaimOf(r, k, binary, c);
      }
    }
  }

  /** The draft of a cache's claim goes back to a launch that saw none. */
  lemma LaunchBefore(r: Run, k: nat, pid: nat, c: Claim) returns (j: nat)
    requires ValidRun(r) && k < |r.events| && Drafts(r, k, pid, CacheDraft(At(r, k).record, c))
    ensures j < k && SawNone(r, j, k, pid, c.path)
  {
    j := LaunchOf(r, k, pid);
  }

  /** Its token was minted by then. */
  lemma MintedBefore(r: Run, k: nat, pid: nat, c: Claim) returns (i: nat)
    requires ValidRun(r) && k < |r.events| && Drafts(r, k, pid, CacheDraft(At(r, k).record, c))
    ensures i <= k && MintsToken(r, i, c.proof)
  {
    if MintsToken(r, k, c.proof) {
      i := k;
    } else {
      StaysUnforged(r, k);
      i := MintOf(r, k, c.proof);
    }
  }

  // ---------- Deletions ----------

  lemma BinaryDeletedBy(s: State, e: Event, path: Path)
    requires path in s.binaries && path !in Step(s, e).binaries && !e.Others?
    ensures e.DeleteBinary? && e.pid in s.purges
    ensures BinaryOf(s.purges[e.pid]) == Some(Claim(path, s.binaries[path]))
  {
  }

  lemma CacheDeletedBy(s: State, e: Event, path: Path)
    requires path in s.caches && path !in Step(s, e).caches && !e.Others?
    ensures e.DeleteCache? && e.pid in s.purges && CacheOwned(s, s.purges[e.pid], path)
  {
  }

  /** The events a deletion goes back to. */
  datatype Cause =
    | BinaryCause(recording: Recording, purge: nat)
    | CacheCause(recording: Recording, purge: nat, launch: nat, mint: nat)

  /** The install that recorded the binary's claim read its hash, and a later purge read the claim. */
  ghost predicate ExplainsBinary(r: Run, w: Cause, l: nat, path: Path)
    requires l < |r.events| && path in At(r, l).binaries
  {
    var hash, rec := At(r, l).binaries[path], w.recording;
    && rec.read < rec.write < w.purge < l
    && r.events[rec.read] == ReadInstall(rec.pid, path)
    && path in At(r, rec.read).binaries && At(r, rec.read).binaries[path] == hash
    && RecordsClaim(r, rec, true, Claim(path, hash))
    && r.events[l].DeleteBinary? && r.events[w.purge] == ReadPurge(r.events[l].pid)
    && BinaryOf(At(r, w.purge).record) == Some(Claim(path, hash))
  }

  /**
   * A binary that a step of Hexis deletes has the hash it had when an install read it; that install
   * recorded the hash, and a purge read it from the record.
   */
  lemma BinaryDeletionIsJustified(r: Run, l: nat, path: Path) returns (w: Cause)
    requires ValidRun(r) && l < |r.events| && !r.events[l].Others?
    requires path in At(r, l).binaries && path !in At(r, l + 1).binaries
    ensures w.BinaryCause? && ExplainsBinary(r, w, l, path)
  {
    BinaryDeletedBy(At(r, l), r.events[l], path);
    var q := PurgeOf(r, l, r.events[l].pid);
    var rec := ClaimOf(r, q, true, Claim(path, At(r, l).binaries[path]));
    w := BinaryCause(rec, q);
  }

  /**
   * The process that recorded the claim had last launched when there was no cache at the path; its token
   * was minted by Hexis; a later purge read the claim; and the cache still bears the token, in a safe place.
   */
  ghost predicate ExplainsCache(r: Run, w: Cause, l: nat, path: Path)
    requires l < |r.events| && w.CacheCause?
  {
    var rec := w.recording;
    && w.launch < rec.read < rec.write < w.purge < l
    && SawNone(r, w.launch, rec.read, rec.pid, path)
    && r.events[l].DeleteCache? && r.events[w.purge] == ReadPurge(r.events[l].pid)
    && CacheOwned(At(r, l), At(r, w.purge).record, path)
    && var c := CacheOf(At(r, w.purge).record).value;
      RecordsClaim(r, rec, false, c) && w.mint <= rec.read && MintsToken(r, w.mint, c.proof)
  }

  /**
   * A cache that a step of Hexis deletes was claimed by a process whose last launch before saw no cache
   * at that path; that process recorded the claim, a purge read it from the record, and the cache bears
   * its token, which Hexis had minted, in a safe place.
   */
  lemma CacheDeletionIsJustified(r: Run, l: nat, path: Path) returns (w: Cause)
    requires ValidRun(r) && l < |r.events| && !r.events[l].Others?
    requires path in At(r, l).caches && path !in At(r, l + 1).caches
    ensures w.CacheCause? && ExplainsCache(r, w, l, path)
  {
    CacheDeletedBy(At(r, l), r.events[l], path);
    var q := PurgeOf(r, l, r.events[l].pid);
    var c := CacheOf(At(r, q).record).value;
    var rec := ClaimOf(r, q, false, c);
    var j := LaunchBefore(r, rec.read, rec.pid, c);
    var i := MintedBefore(r, rec.read, rec.pid, c);
    w := CacheCause(rec, q, j, i);
  }

  // ---------- The other half ----------

  /** Event `i` is an outside change, or another process's write, that changes this half of the record. */
  predicate Overtakes(r: Run, i: nat, pid: nat, binary: bool)
    requires i < |r.events|
  {
    && HalfOf(At(r, i + 1).record, binary) != HalfOf(At(r, i).record, binary)
    && (r.events[i].Others? || (r.events[i].Write? && r.events[i].writeOk && r.events[i].pid != pid))
  }

  /** The record changes by an outside change or a write, after which the writer holds no draft. */
  lemma RecordChangedBy(s: State, e: Event, pid: nat)
    requires Step(s, e).record != s.record && pid in Step(s, e).drafts
    ensures e.Others? || (e.Write? && e.writeOk && e.pid != pid)
  {
  }

  /** Where a half of the record changes while a process holds its draft. */
  lemma {:induction false} ChangeBetween(r: Run, k: nat, n: nat, pid: nat, d: Draft, binary: bool) returns (i: nat)
    requires k < n <= |r.events| && Drafts(r, k, pid, d) && Holds(r, k, n, pid, d)
    requires HalfOf(At(r, n).record, binary) != HalfOf(At(r, k).record, binary)
    ensures k < i < n && Overtakes(r, i, pid, binary)
  {
    if n == k + 1 {
      assert false;
    } else if HalfOf(At(r, n - 1).record, binary) != HalfOf(At(r, k).record, binary) {
      i := ChangeBetween(r, k, n - 1, pid, d, binary);
    } else {
      assert At(r, n).drafts[pid] == d && pid in At(r, n).drafts;
      RecordChangedBy(At(r, n - 1), r.events[n - 1], pid);
      i := n - 1;
    }
  }

  /**
   * The write of a draft keeps the half it is not about, unless an outside change or another process's
   * write changed that half since the draft was read; exactly, unless that half is not as it was read.
   */
  lemma HalfLostExactly(r: Run, k: nat, m: nat, pid: nat, d: Draft)
    requires k < m < |r.events| && Records(r, k, m, pid, d)
    ensures var other := d.CacheDraft?;
      && (HalfOf(At(r, m + 1).record, other) == HalfOf(At(r, m).record, other)
          <==> HalfOf(At(r, m).record, other) == HalfOf(At(r, k).record, other))
      && ((forall i | k < i < m :: !Overtakes(r, i, pid, other)) ==>
            HalfOf(At(r, m + 1).record, other) == HalfOf(At(r, m).record, other))
  {
    var other := d.CacheDraft?;
    assert pid in At(r, m).drafts && At(r, m).drafts[pid] == d;
    if HalfOf(At(r, m).record, other) != HalfOf(At(r, k).record, other) {
      var i := ChangeBetween(r, k, m, pid, d, other);
    }
  }

  /**
   * A launch marks its cache while an install holds a record it has read; the launch writes first, the
   * install second.
   */
  function LosingRun(init: State, bin: Path, path: Path, token: string): Run {
    Run(init, [
      Launch(1, path), Others(Missing, init.binaries, init.caches[path := Cache(NoMarker, false, false)]),
      ReadInstall(2, bin), ReadMark(1, token, true), Write(1, true), Write(2, true)])
  }

  /** The losing run once the install has read. */
  lemma BothRead(init: State, bin: Path, path: Path, token: string)
    requires Start(init) && bin in init.binaries && path !in init.caches
    ensures var r := LosingRun(init, bin, path, token);
      At(r, 3) == init.(
        launched := map[1 := (path, false)],
        caches := init.caches[path := Cache(NoMarker, false, false)],
        drafts := map[2 := BinaryDraft(Missing, Claim(bin, init.binaries[bin]))])
  {
    var r := LosingRun(init, bin, path, token);
    assert At(r, 1) == init.(launched := map[1 := (path, false)]);
    assert At(r, 2) == At(r, 1).(caches := init.caches[path := Cache(NoMarker, false, false)]);
  }

  lemma LosingRunIsValid(init: State, bin: Path, path: Path, token: string)
    requires Start(init) && bin in init.binaries && path !in init.caches
    ensures ValidRun(LosingRun(init, bin, path, token))
  {
    var r := LosingRun(init, bin, path, token);
    BothRead(init, bin, path, token);
    assert Fair(r, 1) && Fair(r, 3);
  }

  /** The run that loses a half: the marker stays, but no record claims the cache any more. */
  lemma LoseCacheClaim(init: State, bin: Path, path: Path, token: string)
    requires Start(init) && bin in init.binaries && path !in init.caches
    ensures var r := LosingRun(init, bin, path, token);
      && ValidRun(r)
      && CacheOf(At(r, 5).record) == Some(Claim(path, token))
      && At(r, 6).record == Record(Some(Claim(bin, init.binaries[bin])), None)
      && path in At(r, 6).caches && Owns(At(r, 6).caches[path].marker, token)
  {
    var r := LosingRun(init, bin, path, token);
    var install, mark := BinaryDraft(Missing, Claim(bin, init.binaries[bin])), CacheDraft(Missing, Claim(path, token));
    LosingRunIsValid(init, bin, path, token);
    BothRead(init, bin, path, token);
    assert At(r, 4).drafts == map[2 := install][1 := mark];
    assert At(r, 5).record == Updated(mark) && At(r, 5).drafts[2] == install;
    assert At(r, 6).record == Updated(install);
  }
}
