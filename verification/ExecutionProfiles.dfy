/**
 Execution profiles (apps/cli_execution.py): each change runs in one transaction that stores the new
 settings and journals the change, or raises and stores nothing.
 */
module ExecutionProfiles {
  import opened Prelude

  datatype Profile = Profile(name: string, kind: string)

  datatype Settings = Settings(active: string, profiles: map<string, Profile>)

  const LOCAL := "local"

  datatype Change =
    | Add(profile: Profile, replace: bool, materialOk: bool)
    | Use(name: string)
    | Remove(name: string)

  datatype Action = Added | Replaced | Selected | Removed

  /** What record_change is given about a change. */
  datatype Entry = Entry(
    action: Action,
    profile: string,
    kind: Option<string>,
    activeBefore: string,
    activeAfter: string)

  // ---------- The mutations ----------

  function WithProfiles(s: Settings, profiles: map<string, Profile>, active: string := ""): Settings {
    Settings(if active == "" then s.active else active, profiles)
  }

  /** The new settings, or None where the mutation raises. */
  function Mutate(s: Settings, c: Change): Option<Settings> {
    match c
    case Add(p, replace, materialOk) =>
      if !materialOk || p.name == LOCAL || (p.name in s.profiles && !replace) then None
      else Some(WithProfiles(s, s.profiles[p.name := p]))
    case Use(name) =>
      if name !in s.profiles then None else Some(WithProfiles(s, s.profiles, name))
    case Remove(name) =>
      if name == LOCAL || name !in s.profiles || s.active == name then None
      else Some(WithProfiles(s, s.profiles - {name}))
  }

  function Subject(c: Change): string {
    match c case Add(p, _, _) => p.name case Use(name) => name case Remove(name) => name
  }

  function ActionOf(c: Change): Action {
    match c
    case Add(_, replace, _) => if replace then Replaced else Added
    case Use(_) => Selected
    case Remove(_) => Removed
  }

  function KindOf(name: string, after: Settings, before: Settings): Option<string> {
    if name in after.profiles then Some(after.profiles[name].kind)
    else if name in before.profiles then Some(before.profiles[name].kind)
    else None
  }

  // ---------- What the store keeps ----------

  /** The active profile is configured, and so is the built-in local one. */
  predicate Configured(s: Settings) {
    s.active in s.profiles && LOCAL in s.profiles
  }

  /** The journal tells the whole story of the profile names and of the active profile. */
  function Replay(names: set<string>, journal: seq<Entry>): set<string> {
    if journal == [] then names else
    var before, e := Replay(names, journal[..|journal| - 1]), journal[|journal| - 1];
    match e.action
    case Added => before + {e.profile}
    case Replaced => before + {e.profile}
    case Selected => before
    case Removed => before - {e.profile}
  }

  /** The profile that is active after the first `i` entries. */
  function ActiveAt(first: string, journal: seq<Entry>, i: nat): string
    requires i <= |journal|
  {
    if i == 0 then first else journal[i - 1].activeAfter
  }

  ghost predicate Linked(first: string, journal: seq<Entry>, last: string) {
    && (forall i | 0 <= i < |journal| :: journal[i].activeBefore == ActiveAt(first, journal, i))
    && last == ActiveAt(first, journal, |journal|)
  }

  /** Only selecting a profile changes which one is active. */
  ghost predicate OnlySelectionSwitches(journal: seq<Entry>) {
    forall i | 0 <= i < |journal| ::
      journal[i].activeAfter == if journal[i].action.Selected? && journal[i].profile != ""
        then journal[i].profile else journal[i].activeBefore
  }

  /** The entry a change is journalled with. */
  function EntryFor(c: Change, before: Settings, after: Settings): Entry {
    Entry(ActionOf(c), Subject(c), KindOf(Subject(c), after, before), before.active, after.active)
  }

  /** What holds of the stored settings and the journal since `first`. */
  ghost predicate Tells(first: Settings, journal: seq<Entry>, now: Settings) {
    && Configured(now)
    && (LOCAL in first.profiles ==> now.profiles[LOCAL] == first.profiles[LOCAL])
    && now.profiles.Keys == Replay(first.profiles.Keys, journal)
    && Linked(first.active, journal, now.active)
    && OnlySelectionSwitches(journal)
  }

  lemma MutateKeepsConfigured(s: Settings, c: Change)
    requires Configured(s) && Mutate(s, c).Some?
    ensures var t := Mutate(s, c).value;
      && Configured(t) && t.profiles[LOCAL] == s.profiles[LOCAL]
      && t.active == (if c.Use? && c.name != "" then c.name else s.active)
      && t.profiles.Keys == (match c
           case Add(p, _, _) => s.profiles.Keys + {p.name}
           case Use(_) => s.profiles.Keys
           case Remove(name) => s.profiles.Keys - {name})
  {
  }

  /** Each change touches the one profile it names: stored as given, or gone; all others stay as they are. */
  lemma MutateTouchesOne(s: Settings, c: Change, name: string)
    requires Mutate(s, c).Some?
    ensures var t := Mutate(s, c).value;
      if c.Add? && c.profile.name == name then name in t.profiles && t.profiles[name] == c.profile
      else if c.Remove? && c.name == name then name in s.profiles && name !in t.profiles
      else if name in s.profiles then name in t.profiles && t.profiles[name] == s.profiles[name]
      else name !in t.profiles
  {
  }

  /** Nothing is replaced unasked, the built-in profile is not touched, and the active one not removed. */
  lemma MutateRefuses(s: Settings, c: Change)
    requires Configured(s)
    ensures c.Add? && c.profile.name in s.profiles && !c.replace ==> Mutate(s, c).None?
    ensures c.Add? && (c.profile.name == "local" || !c.materialOk) ==> Mutate(s, c).None?
    ensures c.Use? && c.name !in s.profiles ==> Mutate(s, c).None?
    ensures c.Remove? && (c.name == "local" || c.name == s.active || c.name !in s.profiles) ==> Mutate(s, c).None?
  {
  }

  /** Nothing else is refused. */
  lemma MutateAccepts(s: Settings, c: Change)
    ensures c.Add? && c.profile.name != "local" && c.materialOk && (c.replace || c.profile.name !in s.profiles) ==>
      Mutate(s, c).Some?
    ensures c.Use? && c.name in s.profiles ==> Mutate(s, c).Some?
    ensures c.Remove? && c.name != "local" && c.name != s.active && c.name in s.profiles ==> Mutate(s, c).Some?
  {
  }

  /** The journal's entry names the change, the kind of its profile, and the active profile before and after. */
  lemma EntryNamesChange(s: Settings, c: Change)
    requires Mutate(s, c).Some?
    ensures var t := Mutate(s, c).value; var e := EntryFor(c, s, t);
      && e.activeBefore == s.active && e.activeAfter == t.active
      && match c
         case Add(p, replace, _) =>
           e.profile == p.name && e.kind == Some(p.kind) && e.action == if replace then Replaced else Added
         case Use(name) => e.profile == name && e.action == Selected && e.kind == Some(s.profiles[name].kind)
         case Remove(name) => e.profile == name && e.action == Removed && e.kind == Some(s.profiles[name].kind)
  {
  }

  lemma ReplayMore(names: set<string>, journal: seq<Entry>, e: Entry)
    ensures var before := Replay(names, journal);
      Replay(names, journal + [e]) ==
        if e.action.Added? || e.action.Replaced? then before + {e.profile}
        else if e.action.Removed? then before - {e.profile}
        else before
  {
    assert (journal + [e])[..|journal|] == journal;
  }

  lemma LinkMore(first: string, journal: seq<Entry>, last: string, e: Entry)
    requires Linked(first, journal, last) && e.activeBefore == last
    ensures Linked(first, journal + [e], e.activeAfter)
  {
    forall i | 0 <= i <= |journal| ensures ActiveAt(first, journal + [e], i) == ActiveAt(first, journal, i) {
    }
  }

  lemma ChangeTells(first: Settings, journal: seq<Entry>, s: Settings, c: Change)
    requires Tells(first, journal, s) && Mutate(s, c).Some?
    ensures var t := Mutate(s, c).value; Tells(first, journal + [EntryFor(c, s, t)], t)
  {
    var t := Mutate(s, c).value;
    var e := EntryFor(c, s, t);
    MutateKeepsConfigured(s, c);
    ReplayMore(first.profiles.Keys, journal, e);
    LinkMore(first.active, journal, s.active, e);
  }

  predicate Applies(s: Settings, c: Change, commitOk: bool) {
    commitOk && Mutate(s, c).Some?
  }

  /** The settings after a run of changes; `commits(i)` is whether the i-th transaction commits. */
  function Stored(s: Settings, changes: seq<Change>, commits: nat -> bool): Settings {
    if changes == [] then s else
    var n := |changes| - 1;
    var before := Stored(s, changes[..n], commits);
    if Applies(before, changes[n], commits(n)) then Mutate(before, changes[n]).value else before
  }

  /** What the run adds to the journal. */
  function Journalled(s: Settings, changes: seq<Change>, commits: nat -> bool): seq<Entry> {
    if changes == [] then [] else
    var n := |changes| - 1;
    var before, entries := Stored(s, changes[..n], commits), Journalled(s, changes[..n], commits);
    if Applies(before, changes[n], commits(n))
    then entries + [EntryFor(changes[n], before, Mutate(before, changes[n]).value)] else entries
  }

  class Store {
    const initial: Settings
    var settings: Settings
    var journal: seq<Entry>

    constructor (s: Settings)
      requires Configured(s)
      ensures Valid() && initial == settings == s && journal == []
    {
      initial, settings, journal := s, s, [];
    }

    ghost predicate Valid()
      reads this
    {
      Configured(initial) && Tells(initial, journal, settings)
    }

    /** _mutate_settings; `commitOk` false is a transaction that fails in the database. */
    method MutateSettings(c: Change, commitOk: bool) returns (ok: bool)
      requires Valid()
      modifies this
      ensures Valid()
      ensures ok <==> commitOk && Mutate(old(settings), c).Some?
      ensures !ok ==> settings == old(settings) && journal == old(journal)
      ensures ok ==>
        && settings == Mutate(old(settings), c).value
        && journal == old(journal) + [EntryFor(c, old(settings), settings)]
    {
      var updated := Mutate(settings, c);
      if updated.None? || !commitOk {
        return false;
      }
      ChangeTells(initial, journal, settings, c);
      journal := journal + [EntryFor(c, settings, updated.value)];
      settings := updated.value;
      return true;
    }

    /**
     * Over any sequence of changes the settings are those of the changes that neither raised nor failed
     * to commit, each of which is journalled; the active profile is configured, the local one never
     * changes, and the journal links up and replays to the configured names.
     */
    method Run(changes: seq<Change>, commits: nat -> bool)
      requires Valid()
      modifies this
      ensures Valid()
      ensures settings == Stored(old(settings), changes, commits)
      ensures journal == old(journal) + Journalled(old(settings), changes, commits)
    {
      for i := 0 to |changes|
        invariant Valid()
        invariant settings == Stored(old(settings), changes[..i], commits)
        invariant journal == old(journal) + Journalled(old(settings), changes[..i], commits)
      {
        assert changes[..i + 1][..i] == changes[..i];
        var ok := MutateSettings(changes[i], commits(i));
      }
      assert changes[..|changes|] == changes;
    }
  }
}
