/**
 The ownership record of the embedding companion (apps/hexis_cli.py): which binary and which model
 cache Hexis may delete. Any number of Hexis processes install, launch, mark and purge at once, each
 reading the record in one step and writing or deleting in a later one, while anything else may change
 the same files between the steps.
 */
module OwnedAssets {
  import opened Prelude

  type Path = string
  type Hash = string

  /** An asset and the proof recorded for it: a binary's hash, or a cache's marker token. */
  datatype Claim = Claim(path: Path, proof: string)

  /** The record file. A file that is no version-1 record reads as unreadable. */
  datatype Record = Missing | Unreadable | Record(binary: Option<Claim>, cache: Option<Claim>)

  /** The marker file inside a cache directory. */
  datatype Marker = NoMarker | BadMarker | Marked(owner: string, token: string)

  /** A cache directory: its marker, and whether its path is a link or resolves to an unsafe place. */
  datatype Cache = Cache(marker: Marker, isLink: bool, unsafePath: bool)

  const HEXIS := "hexis"

  predicate Owns(m: Marker, token: string) {
    m == Marked(HEXIS, token)
  }

  /** What a process that records an asset has read, and the claim it is about to add to it. */
  datatype Draft =
    | BinaryDraft(base: Record, claim: Claim)
    | CacheDraft(base: Record, claim: Claim)

  function BinaryOf(r: Record): Option<Claim> {
    if r.Record? then r.binary else None
  }

  function CacheOf(r: Record): Option<Claim> {
    if r.Record? then r.cache else None
  }

  /** The record a draft is written as. */
  function Updated(d: Draft): Record {
    match d
    case BinaryDraft(base, claim) => Record(Some(claim), CacheOf(base))
    case CacheDraft(base, claim) => Record(BinaryOf(base), Some(claim))
  }

  /** How the reading part of marking a cache ends. */
  datatype MarkStep = NotOurs | NotRecorded | Recorded | Drafted(draft: Draft)

  /** A failed directory removal may already have taken the marker. */
  datatype Removal = Removed | Kept(markerLost: bool)

  /** One step of a process, or of anything else on the machine. */
  datatype Event =
    | Launch(pid: nat, path: Path)
    | ReadInstall(pid: nat, path: Path)
    | ReadMark(pid: nat, newToken: string, markerOk: bool)
    | Write(pid: nat, writeOk: bool)
    | ReadPurge(pid: nat)
    | DeleteBinary(pid: nat, unlinkOk: bool)
    | DeleteCache(pid: nat, rmtree: Removal)
    | Others(record: Record, binaries: map<Path, Hash>, caches: map<Path, Cache>)

  /**
   * The record, the files, and by process: its last launch (the cache path and whether a cache was
   * there), what it is about to write, and the record its purge has read. `minted` are the tokens
   * Hexis has written into markers.
   */
  datatype State = State(
    record: Record,
    binaries: map<Path, Hash>,
    caches: map<Path, Cache>,
    launched: map<nat, (Path, bool)>,
    drafts: map<nat, Draft>,
    purges: map<nat, Record>,
    minted: set<string>)

  // ---------- One step ----------

  /** The process's launch saw no cache, and there is one now that is no link. */
  predicate Appeared(s: State, pid: nat) {
    && pid in s.launched && !s.launched[pid].1
    && s.launched[pid].0 in s.caches && !s.caches[s.launched[pid].0].isLink
  }

  /** A new marker is written: the cache bears none, and writing works. */
  predicate Mints(s: State, pid: nat, markerOk: bool) {
    Appeared(s, pid) && s.caches[s.launched[pid].0].marker.NoMarker? && markerOk
  }

  function MarkedCaches(s: State, pid: nat, newToken: string, markerOk: bool): map<Path, Cache> {
    if !Mints(s, pid, markerOk) then s.caches else
    var path := s.launched[pid].0;
    s.caches[path := s.caches[path].(marker := Marked(HEXIS, newToken))]
  }

  /** A cache of Hexis is claimed under the token it bears now, unless the record says so already. */
  function MarkOutcome(s: State, pid: nat, newToken: string, markerOk: bool): MarkStep {
    if !Appeared(s, pid) then NotOurs else
    var path := s.launched[pid].0;
    var marker := MarkedCaches(s, pid, newToken, markerOk)[path].marker;
    if !marker.Marked? || marker.owner != HEXIS || s.record.Unreadable? then NotRecorded
    else if CacheOf(s.record) == Some(Claim(path, marker.token)) then Recorded
    else Drafted(CacheDraft(s.record, Claim(path, marker.token)))
  }

  /** The binary a record claims is on disk as it was installed. */
  predicate BinaryOwned(s: State, r: Record, path: Path) {
    && BinaryOf(r).Some? && BinaryOf(r).value.path == path
    && path in s.binaries && s.binaries[path] == BinaryOf(r).value.proof
  }

  /** The cache a record claims bears its token and is in a safe place. */
  predicate CacheOwned(s: State, r: Record, path: Path) {
    && CacheOf(r).Some? && CacheOf(r).value.path == path
    && path in s.caches && Owns(s.caches[path].marker, CacheOf(r).value.proof)
    && !s.caches[path].isLink && !s.caches[path].unsafePath
  }

  /** The drafts once `pid` has read: it holds the new one, or none. */
  function Holding(drafts: map<nat, Draft>, pid: nat, d: Option<Draft>): map<nat, Draft> {
    if d.Some? then drafts[pid := d.value] else drafts - {pid}
  }

  function InstallDraft(s: State, path: Path): Option<Draft> {
    if path in s.binaries && !s.record.Unreadable? then Some(BinaryDraft(s.record, Claim(path, s.binaries[path])))
    else None
  }

  function AfterRmtree(caches: map<Path, Cache>, path: Path, rmtree: Removal): map<Path, Cache>
    requires path in caches
  {
    match rmtree
    case Removed => caches - {path}
    case Kept(markerLost) => if markerLost then caches[path := caches[path].(marker := NoMarker)] else caches
  }

  /** A step of a process that has nothing to write or to delete changes nothing. */
  function Step(s: State, e: Event): State {
    match e
    case Launch(pid, path) => s.(launched := s.launched[pid := (path, path in s.caches)])
    case ReadInstall(pid, path) => s.(drafts := Holding(s.drafts, pid, InstallDraft(s, path)))
    case ReadMark(pid, newToken, markerOk) =>
      var r := MarkOutcome(s, pid, newToken, markerOk);
      s.(caches := MarkedCaches(s, pid, newToken, markerOk),
         minted := s.minted + (if Mints(s, pid, markerOk) then {newToken} else {}),
         drafts := Holding(s.drafts, pid, if r.Drafted? then Some(r.draft) else None))
    case Write(pid, writeOk) =>
      if pid !in s.drafts then s
      else s.(record := if writeOk then Updated(s.drafts[pid]) else s.record, drafts := s.drafts - {pid})
    case ReadPurge(pid) => s.(purges := s.purges[pid := s.record])
    case DeleteBinary(pid, unlinkOk) =>
      if pid !in s.purges || BinaryOf(s.purges[pid]).None? then s else
      var path := BinaryOf(s.purges[pid]).value.path;
      if BinaryOwned(s, s.purges[pid], path) && unlinkOk then s.(binaries := s.binaries - {path}) else s
    case DeleteCache(pid, rmtree) =>
      if pid !in s.purges || CacheOf(s.purges[pid]).None? then s else
      var path := CacheOf(s.purges[pid]).value.path;
      if CacheOwned(s, s.purges[pid], path) then s.(caches := AfterRmtree(s.caches, path, rmtree)) else s
    case Others(r, bs, cs) => s.(record := r, binaries := bs, caches := cs)
  }

  /** The three steps of a purge that nothing comes between. */
  function Purged(s: State, pid: nat, unlinkOk: bool, rmtree: Removal): State {
    Step(Step(Step(s, ReadPurge(pid)), DeleteBinary(pid, unlinkOk)), DeleteCache(pid, rmtree))
  }

  lemma UnlinksExactly(s: State, pid: nat, unlinkOk: bool)
    requires pid in s.purges
    ensures var t := Step(s, DeleteBinary(pid, unlinkOk));
      && t == s.(binaries := t.binaries)
      && (forall p :: p in t.binaries <==> p in s.binaries && !(BinaryOwned(s, s.purges[pid], p) && unlinkOk))
      && (forall p | p in t.binaries :: t.binaries[p] == s.binaries[p])
      && (BinaryOf(s.purges[pid]).None? ==> t == s)
  {
  }

  lemma RemovesExactly(s: State, pid: nat, rmtree: Removal)
    requires pid in s.purges
    ensures var t := Step(s, DeleteCache(pid, rmtree));
      && t == s.(caches := t.caches)
      && (forall p :: p in t.caches <==> p in s.caches && !(CacheOwned(s, s.purges[pid], p) && rmtree.Removed?))
      && (forall p | p in t.caches && !CacheOwned(s, s.purges[pid], p) :: t.caches[p] == s.caches[p])
      && (CacheOf(s.purges[pid]).None? ==> t == s)
  {
  }

  /**
   * Exactly the binary that still is as recorded and the cache that bears the recorded token go, if
   * their removal works; everything else stays, and an unreadable record deletes nothing.
   */
  lemma PurgesExactlyOwned(s: State, pid: nat, unlinkOk: bool, rmtree: Removal)
    ensures var t := Purged(s, pid, unlinkOk, rmtree);
      && (forall p :: p in t.binaries <==> p in s.binaries && !(BinaryOwned(s, s.record, p) && unlinkOk))
      && (forall p | p in t.binaries :: t.binaries[p] == s.binaries[p])
      && (forall p :: p in t.caches <==> p in s.caches && !(CacheOwned(s, s.record, p) && rmtree.Removed?))
      && (forall p | p in t.caches && !CacheOwned(s, s.record, p) :: t.caches[p] == s.caches[p])
      && (s.record.Unreadable? ==> t.binaries == s.binaries && t.caches == s.caches)
  {
    var read := Step(s, ReadPurge(pid));
    var unlinked := Step(read, DeleteBinary(pid, unlinkOk));
    UnlinksExactly(read, pid, unlinkOk);
    RemovesExactly(unlinked, pid, rmtree);
  }

  function AfterAll(s: State, events: seq<Event>): State {
    if events == [] then s else Step(AfterAll(s, events[..|events| - 1]), events[|events| - 1])
  }

  /** An installed binary that nothing touches is deleted by the purge that follows. */
  lemma OwnBinaryIsPurged(s: State, pid: nat, path: Path, rmtree: Removal)
    requires path in s.binaries && !s.record.Unreadable?
    ensures var recorded := Step(Step(s, ReadInstall(pid, path)), Write(pid, true));
      && recorded.record.Record? && recorded.record.binary == Some(Claim(path, s.binaries[path]))
      && (s.record.Record? ==> recorded.record.cache == s.record.cache)
      && path !in Purged(recorded, pid, true, rmtree).binaries
  {
    var recorded := Step(Step(s, ReadInstall(pid, path)), Write(pid, true));
    assert BinaryOwned(recorded, recorded.record, path);
    PurgesExactlyOwned(recorded, pid, true, rmtree);
  }

  /**
   * A cache that appears, in a safe place and unmarked, after a launch that saw none is marked, recorded,
   * and deleted by the purge that follows.
   */
  lemma FreshCacheIsPurged(s: State, pid: nat, path: Path, token: string, unlinkOk: bool)
    requires path !in s.caches && !s.record.Unreadable?
    ensures var launched := Step(s, Launch(pid, path));
      var appeared := Step(launched,
        Others(s.record, s.binaries, s.caches[path := Cache(NoMarker, false, false)]));
      var recorded := Step(Step(appeared, ReadMark(pid, token, true)), Write(pid, true));
      && recorded.record.Record? && recorded.record.cache == Some(Claim(path, token))
      && (s.record.Record? ==> recorded.record.binary == s.record.binary)
      && path !in Purged(recorded, pid, unlinkOk, Removed).caches
  {
    var launched := Step(s, Launch(pid, path));
    var appeared := Step(launched,
      Others(s.record, s.binaries, s.caches[path := Cache(NoMarker, false, false)]));
    FreshCacheIsRecorded(appeared, pid, path, token);
    var recorded := Step(Step(appeared, ReadMark(pid, token, true)), Write(pid, true));
    PurgesExactlyOwned(recorded, pid, unlinkOk, Removed);
  }

  lemma FreshCacheIsRecorded(s: State, pid: nat, path: Path, token: string)
    requires pid in s.launched && s.launched[pid] == (path, false) && !s.record.Unreadable?
    requires path in s.caches && s.caches[path] == Cache(NoMarker, false, false)
    ensures var recorded := Step(Step(s, ReadMark(pid, token, true)), Write(pid, true));
      && recorded.record.Record? && recorded.record.cache == Some(Claim(path, token))
      && BinaryOf(recorded.record) == BinaryOf(s.record)
      && CacheOwned(recorded, recorded.record, path)
  {
    var marked := Step(s, ReadMark(pid, token, true));
    assert marked.caches[path] == Cache(Marked(HEXIS, token), false, false);
  }

  // ---------- The functions ----------

  class HostFiles {
    var record: Record
    var binaries: map<Path, Hash>
    var caches: map<Path, Cache>
    var launched: map<nat, (Path, bool)>
    var drafts: map<nat, Draft>
    var purges: map<nat, Record>
    var minted: set<string>

    constructor (binaries: map<Path, Hash>, caches: map<Path, Cache>)
      ensures Now() == State(Missing, binaries, caches, map[], map[], map[], {})
    {
      record, this.binaries, this.caches := Missing, binaries, caches;
      launched, drafts, purges, minted := map[], map[], map[], {};
    }

    function Now(): State
      reads this
    {
      State(record, binaries, caches, launched, drafts, purges, minted)
    }

    /** Launching the companion notes whether a cache is already there. */
    method Launch(pid: nat, path: Path)
      modifies this`launched
      ensures Now() == Step(old(Now()), Event.Launch(pid, path))
    {
      launched := launched[pid := (path, path in caches)];
    }

    /** The reading part of recording an installed binary: its hash, then the record. */
    method ReadForInstall(pid: nat, path: Path) returns (ok: bool)
      modifies this`drafts
      ensures Now() == Step(old(Now()), ReadInstall(pid, path))
      ensures ok <==> path in binaries && !record.Unreadable?
    {
      if path !in binaries || record.Unreadable? {
        drafts := drafts - {pid};
        return false;
      }
      drafts := drafts[pid := BinaryDraft(record, Claim(path, binaries[path]))];
      return true;
    }

    /** The writing part of either recording: the file is replaced as a whole. */
    method WriteRecord(pid: nat, writeOk: bool)
      modifies this`record, this`drafts
      ensures Now() == Step(old(Now()), Write(pid, writeOk))
    {
      if pid in drafts {
        if writeOk {
          record := Updated(drafts[pid]);
        }
        drafts := drafts - {pid};
      }
    }

    /** After an install: the binary's hash is recorded, undisturbed, beside what the record already holds. */
    method RecordOwnedBinary(pid: nat, path: Path, writeOk: bool) returns (ok: bool)
      modifies this`drafts, this`record
      ensures ok <==> path in binaries && !old(record).Unreadable? && writeOk
      ensures record == if ok then Record(Some(Claim(path, binaries[path])), CacheOf(old(record))) else old(record)
      ensures drafts == old(drafts) - {pid}
    {
      ok := ReadForInstall(pid, path);
      if ok {
        WriteRecord(pid, writeOk);
        ok := writeOk;
      }
    }

    /**
     * The reading part of marking a cache that appeared after the launch: a marker that is there
     * already is adopted, a missing one is written, then the record is read.
     */
    method ReadForMark(pid: nat, newToken: string, markerOk: bool) returns (r: MarkStep)
      modifies this`minted, this`caches, this`drafts
      ensures Now() == Step(old(Now()), ReadMark(pid, newToken, markerOk))
      ensures r == MarkOutcome(old(Now()), pid, newToken, markerOk)
    {
      r := SeeMarker(pid, newToken, markerOk);
      drafts := if r.Drafted? then drafts[pid := r.draft] else drafts - {pid};
    }

    method SeeMarker(pid: nat, newToken: string, markerOk: bool) returns (r: MarkStep)
      modifies this`minted, this`caches
      ensures r == MarkOutcome(old(Now()), pid, newToken, markerOk)
      ensures caches == MarkedCaches(old(Now()), pid, newToken, markerOk)
      ensures minted == old(minted) + if Mints(old(Now()), pid, markerOk) then {newToken} else {}
    {
      if pid !in launched || launched[pid].1 {
        return NotOurs;
      }
      var path := launched[pid].0;
      if path !in caches || caches[path].isLink {
        return NotOurs;
      }
      var cache := caches[path];
      var token;
      match cache.marker {
        case BadMarker => return NotRecorded;
        case Marked(owner, t) =>
          if owner != HEXIS {
            return NotRecorded;
          }
          token := t;
        case NoMarker =>
          if !markerOk {
            return NotRecorded;
          }
          token := newToken;
          minted := minted + {newToken};
          caches := caches[path := cache.(marker := Marked(HEXIS, newToken))];
      }
      if record.Unreadable? {
        return NotRecorded;
      }
      var claim := Claim(path, token);
      if CacheOf(record) == Some(claim) {
        return Recorded;
      }
      return Drafted(CacheDraft(record, claim));
    }

    /** Marking a cache, undisturbed: the claim is recorded beside what the record says of the binary. */
    method MarkCacheIfCreated(pid: nat, newToken: string, markerOk: bool, writeOk: bool) returns (r: MarkStep)
      modifies this`minted, this`caches, this`drafts, this`record
      ensures caches == MarkedCaches(old(Now()), pid, newToken, markerOk)
      ensures minted == old(minted) + if Mints(old(Now()), pid, markerOk) then {newToken} else {}
      ensures var read := MarkOutcome(old(Now()), pid, newToken, markerOk);
        if !read.Drafted? then r == read && record == old(record)
        else if !writeOk then r == NotRecorded && record == old(record)
        else r == Recorded && record == Record(BinaryOf(old(record)), Some(read.draft.claim))
    {
      r := ReadForMark(pid, newToken, markerOk);
      if r.Drafted? {
        WriteRecord(pid, writeOk);
        r := if writeOk then Recorded else NotRecorded;
      }
    }

    method ReadForPurge(pid: nat)
      modifies this`purges
      ensures Now() == Step(old(Now()), ReadPurge(pid))
    {
      purges := purges[pid := record];
    }

    /** The binary of the record that was read: its hash is compared and it is unlinked. */
    method PurgeBinary(pid: nat, unlinkOk: bool) returns (removed: seq<Path>)
      modifies this`binaries
      ensures Now() == Step(old(Now()), DeleteBinary(pid, unlinkOk))
      ensures |removed| <= 1 && forall p :: p in removed <==> p in old(binaries) && p !in binaries
    {
      removed := [];
      if pid !in purges || BinaryOf(purges[pid]).None? {
        return;
      }
      var claim := BinaryOf(purges[pid]).value;
      if claim.path in binaries && binaries[claim.path] == claim.proof && unlinkOk {
        binaries := binaries - {claim.path};
        removed := [claim.path];
      }
    }

    /** The cache of the record that was read: its marker and path are compared and it is removed. */
    method PurgeCache(pid: nat, rmtree: Removal) returns (removed: seq<Path>)
      modifies this`caches
      ensures Now() == Step(old(Now()), DeleteCache(pid, rmtree))
      ensures |removed| <= 1 && forall p :: p in removed <==> p in old(caches) && p !in caches
    {
      removed := [];
      if pid !in purges || CacheOf(purges[pid]).None? {
        return;
      }
      var claim := CacheOf(purges[pid]).value;
      if claim.path !in caches || !Owns(caches[claim.path].marker, claim.proof) {
        return;
      }
      var cache := caches[claim.path];
      if cache.isLink || cache.unsafePath {
        return;
      }
      match rmtree {
        case Removed =>
          caches := caches - {claim.path};
          removed := [claim.path];
        case Kept(markerLost) =>
          if markerLost {
            caches := caches[claim.path := cache.(marker := NoMarker)];
          }
      }
    }

    /** A purge, undisturbed: the record is read once, then the binary and the cache are seen to. */
    method PurgeOwnedAssets(pid: nat, unlinkOk: bool, rmtree: Removal) returns (removed: seq<Path>)
      modifies this`purges, this`binaries, this`caches
      ensures Now() == Purged(old(Now()), pid, unlinkOk, rmtree)
      ensures |removed| <= 2
      ensures forall p :: p in removed <==>
        (p in old(binaries) && p !in binaries) || (p in old(caches) && p !in caches)
    {
      ReadForPurge(pid);
      removed := PurgeBinary(pid, unlinkOk);
      var more := PurgeCache(pid, rmtree);
      removed := removed + more;
    }

    /** Anything else on the machine. */
    method Outside(r: Record, bs: map<Path, Hash>, cs: map<Path, Cache>)
      modifies this`record, this`binaries, this`caches
      ensures Now() == Step(old(Now()), Others(r, bs, cs))
    {
      record, binaries, caches := r, bs, cs;
    }
  }

  /** Any interleaving of the steps of all processes and of outside changes does what its steps do. */
  method Interleave(f: HostFiles, events: seq<Event>)
    modifies f
    ensures f.Now() == AfterAll(old(f.Now()), events)
  {
    for i := 0 to |events|
      invariant f.Now() == AfterAll(old(f.Now()), events[..i])
    {
      assert events[..i + 1][..i] == events[..i];
      match events[i] {
        case Launch(pid, path) => f.Launch(pid, path);
        case ReadInstall(pid, path) => var _ := f.ReadForInstall(pid, path);
        case ReadMark(pid, newToken, markerOk) => var _ := f.ReadForMark(pid, newToken, markerOk);
        case Write(pid, writeOk) => f.WriteRecord(pid, writeOk);
        case ReadPurge(pid) => f.ReadForPurge(pid);
        case DeleteBinary(pid, unlinkOk) => var _ := f.PurgeBinary(pid, unlinkOk);
        case DeleteCache(pid, rmtree) => var _ := f.PurgeCache(pid, rmtree);
        case Others(r, bs, cs) => f.Outside(r, bs, cs);
      }
    }
    assert events[..|events|] == events;
  }
}
