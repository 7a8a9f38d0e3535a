/**
  Names in the download directory: a name is taken by creating an entry, and given back by removing it while it is
  still empty. The directory itself is the only record of what is taken.
*/
module UniqueName {
  import opened IntText

  datatype Entry = Directory(empty: bool) | RegularFile(size: nat) | Special

  type Names = map<string, Entry>

  const LAST := 9999

  function Candidate(name: string, n: nat): string {
    name + "(" + Digits(n) + ")"
  }

  /** The first free candidate from number `n` on, or one past the last. */
  function FirstFree(entries: Names, name: string, n: nat): (k: nat)
    requires n <= LAST + 1
    ensures n <= k <= LAST + 1
    ensures k <= LAST ==> Candidate(name, k) !in entries
    ensures forall j :: n <= j < k ==> Candidate(name, j) in entries
    decreases LAST + 1 - n
  {
    if n > LAST || Candidate(name, n) !in entries then n else FirstFree(entries, name, n + 1)
  }

  function Fallback(name: string, stamp: string): string {
    name + "_" + stamp
  }

  /** The name that is handed out. */
  function Chosen(entries: Names, name: string, stamp: string): string {
    if name == "" || name !in entries then name
    else
      var n := FirstFree(entries, name, 1);
      if n <= LAST then Candidate(name, n) else Fallback(name, stamp)
  }

  function EntryFor(entries: Names, name: string, multiFile: bool): Entry {
    if name !in entries && !multiFile then RegularFile(0) else Directory(true)
  }

  /** The directory afterwards: creating the entry may fail, and an existing entry stays what it is. */
  function AfterAcquire(entries: Names, name: string, multiFile: bool, creates: bool, stamp: string): Names {
    var chosen := Chosen(entries, name, stamp);
    if name == "" || !creates || chosen in entries then entries
    else entries[chosen := EntryFor(entries, name, multiFile)]
  }

  predicate IsPlaceholder(e: Entry) {
    e == Directory(true) || e == RegularFile(0)
  }

  function AfterRelease(entries: Names, name: string): Names {
    if name in entries && name != "" && IsPlaceholder(entries[name]) then entries - {name} else entries
  }

  class DownloadDirectory {
    var entries: Names

    /** `creates` says whether the file system lets an entry be created, `stamp` is the clock. */
    method Acquire(name: string, multiFile: bool, creates: bool, stamp: string) returns (chosen: string)
      modifies this
      ensures chosen == Chosen(old(entries), name, stamp)
      ensures entries == AfterAcquire(old(entries), name, multiFile, creates, stamp)
    {
      if name == "" {
        return name;
      }
      if name !in entries {
        if creates {
          entries := entries[name := if multiFile then Directory(true) else RegularFile(0)];
        }
        return name;
      }
      var n := 1;
      while n <= LAST
        invariant 1 <= n <= LAST + 1 && entries == old(entries)
        invariant FirstFree(entries, name, 1) == FirstFree(entries, name, n)
      {
        var candidate := Candidate(name, n);
        if candidate !in entries {
          if creates {
            entries := entries[candidate := Directory(true)];
          }
          return candidate;
        }
        n := n + 1;
      }
      chosen := Fallback(name, stamp);
      if creates && chosen !in entries {
        entries := entries[chosen := Directory(true)];
      }
    }

    /** Give a name back; only an entry that is still empty goes. */
    method Release(name: string) returns (removed: bool)
      modifies this
      ensures entries == AfterRelease(old(entries), name)
      ensures removed <==> name != "" && name in old(entries) && IsPlaceholder(old(entries)[name])
      ensures removed <==> name != "" && name in old(entries) && old(entries)[name] in {Directory(true), RegularFile(0)}
      ensures entries == if removed then old(entries) - {name} else old(entries)
    {
      if name == "" || name !in entries {
        return false;
      }
      match entries[name] {
        case Directory(empty) =>
          if !empty {
            return false;
          }
        case RegularFile(size) =>
          if size != 0 {
            return false;
          }
        case Special =>
          return false;
      }
      entries := entries - {name};
      return true;
    }
  }

  // ---------------------------------------------------------------- every run

  /** Who holds which names, and what is on disk. */
  datatype State = State(entries: Names, held: seq<string>)

  datatype Event =
    | Acquired(name: string, multiFile: bool, creates: bool, stamp: string)
    | Released(k: nat)
    | Written(name: string, entry: Entry)

  /** Placeholders can be created, the clock is not needed, holders give back what they hold, and data is only ever
      written into existing entries. */
  predicate Orderly(s: State, e: Event) {
    match e
    case Acquired(name, _, creates, _) =>
      creates && name != "" && (name in s.entries ==> FirstFree(s.entries, name, 1) <= LAST)
    case Released(k) => k < |s.held|
    case Written(name, entry) => name in s.entries && !IsPlaceholder(entry)
  }

  function Step(s: State, e: Event): State
    requires Orderly(s, e)
  {
    match e
    case Acquired(name, multiFile, creates, stamp) =>
      State(AfterAcquire(s.entries, name, multiFile, creates, stamp), s.held + [Chosen(s.entries, name, stamp)])
    case Released(k) => State(AfterRelease(s.entries, s.held[k]), s.held[..k] + s.held[k + 1..])
    case Written(name, entry) => s.(entries := s.entries[name := entry])
  }

  predicate Distinct(names: seq<string>) {
    forall i, j :: 0 <= i < j < |names| ==> names[i] != names[j]
  }

  predicate Held(s: State) {
    Distinct(s.held) && forall i :: 0 <= i < |s.held| ==> s.held[i] in s.entries
  }

  predicate OrderlyRun(s: State, run: seq<Event>)
    decreases |run|
  {
    run == [] || (Orderly(s, run[0]) && OrderlyRun(Step(s, run[0]), run[1..]))
  }

  function Replay(s: State, run: seq<Event>): State
    requires OrderlyRun(s, run)
    decreases |run|
  {
    if run == [] then s else Replay(Step(s, run[0]), run[1..])
  }

  predicate IsFirstFree(entries: Names, name: string, n: nat) {
    && 1 <= n <= LAST && Candidate(name, n) !in entries
    && (forall j :: 1 <= j < n ==> Candidate(name, j) in entries)
  }

  /** The chosen name was free, and it is the first free one: the name itself, or the lowest number. */
  lemma ChosenIsFirstFree(entries: Names, name: string, stamp: string)
    requires name != "" && (name in entries ==> FirstFree(entries, name, 1) <= LAST)
    ensures var chosen := Chosen(entries, name, stamp);
            && (name in entries ==>
                  exists n :: 1 <= n <= 9999 && Numbered(entries, name, n) && chosen == name + "(" + Digits(n) + ")")
            && chosen !in entries && chosen != ""
            && (name !in entries ==> chosen == name)
            && (name in entries ==> exists n :: IsFirstFree(entries, name, n) && chosen == Candidate(name, n))
  {
    if name in entries {
      var n := FirstFree(entries, name, 1);
      assert IsFirstFree(entries, name, n) && Chosen(entries, name, stamp) == Candidate(name, n);
      assert Numbered(entries, name, n);
    }
  }

  /** "name(n)" is free and "name(1)" to "name(n - 1)" are not. */
  predicate Numbered(entries: Names, name: string, n: nat) {
    && name + "(" + Digits(n) + ")" !in entries
    && (forall j :: 1 <= j < n ==> Candidate(name, j) in entries && Candidate(name, j) == name + "(" + Digits(j) + ")")
  }

  /** While one of the 9999 numbers is free, a name that is taken gets the least such number. */
  lemma FreeNumberIsUsed(entries: Names, name: string, stamp: string, n: nat)
    requires name != "" && name in entries && 1 <= n <= 9999 && name + "(" + Digits(n) + ")" !in entries
    ensures exists k :: 1 <= k <= n && Numbered(entries, name, k)
                        && Chosen(entries, name, stamp) == name + "(" + Digits(k) + ")"
  {
    var k := FirstFree(entries, name, 1);
    assert Candidate(name, n) !in entries;
    assert Numbered(entries, name, k);
  }

  /** With all 9999 numbers taken the name gets the time appended, unchecked. */
  lemma AllTakenIsStamped(entries: Names, name: string, stamp: string)
    requires name != "" && name in entries && forall n :: 1 <= n <= 9999 ==> Candidate(name, n) in entries
    ensures Chosen(entries, name, stamp) == name + "_" + stamp
  {
  }

  /** What a call leaves in the directory: a free name is taken by an empty file or, for several files, an empty
      directory; any other chosen name by an empty directory; nothing is made if that fails or there is no name, and
      whatever was there stays as it was. */
  lemma EntryExactly(entries: Names, name: string, multiFile: bool, creates: bool, stamp: string)
    ensures var chosen, r := Chosen(entries, name, stamp), AfterAcquire(entries, name, multiFile, creates, stamp);
            && (name == "" ==> chosen == "" && r == entries) && (!creates ==> r == entries)
            && (name != "" && name !in entries ==> chosen == name)
            && (name != "" && creates && name !in entries ==>
                  r == entries[name := if multiFile then Directory(true) else RegularFile(0)])
            && (creates && name in entries && name != "" && chosen !in entries ==>
                  r == entries[chosen := Directory(true)])
            && (forall other :: other in entries ==> other in r && r[other] == entries[other])
  {
  }

  lemma StepKeepsHeld(s: State, e: Event)
    requires Held(s) && Orderly(s, e)
    ensures Held(Step(s, e))
  {
    match e
    case Acquired(name, multiFile, creates, stamp) =>
      ChosenIsFirstFree(s.entries, name, stamp);
    case Released(k) =>
    case Written(name, entry) =>
  }

  /** A name given back at once leaves the directory as it was. */
  lemma ReleaseUndoesAcquire(entries: Names, name: string, multiFile: bool, stamp: string)
    requires name != "" && (name in entries ==> FirstFree(entries, name, 1) <= LAST)
    ensures AfterRelease(AfterAcquire(entries, name, multiFile, true, stamp), Chosen(entries, name, stamp)) == entries
  {
    ChosenIsFirstFree(entries, name, stamp);
    PutAndTakeAway(entries, Chosen(entries, name, stamp), EntryFor(entries, name, multiFile));
  }

  lemma PutAndTakeAway(entries: Names, chosen: string, entry: Entry)
    requires chosen !in entries && chosen != "" && IsPlaceholder(entry)
    ensures AfterRelease(entries[chosen := entry], chosen) == entries
  {
  }

  /** In every orderly run the names held at the same time are pairwise distinct, even when one asked-for name looks
      like a numbered form of another. */
  lemma {:induction false} HeldNamesAreDistinct(s: State, run: seq<Event>)
    requires Held(s) && OrderlyRun(s, run)
    ensures Held(Replay(s, run))
    decreases |run|
  {
    if run != [] {
      StepKeepsHeld(s, run[0]);
      HeldNamesAreDistinct(Step(s, run[0]), run[1..]);
    }
  }

  predicate HasData(entries: Names, name: string) {
    name in entries && !IsPlaceholder(entries[name])
  }

  /** Data, once written, is never removed by giving names back. */
  lemma {:induction false} DataIsNeverRemoved(s: State, run: seq<Event>, name: string)
    requires OrderlyRun(s, run) && HasData(s.entries, name)
    ensures HasData(Replay(s, run).entries, name)
    decreases |run|
  {
    if run != [] {
      DataIsNeverRemoved(Step(s, run[0]), run[1..], name);
    }
  }

  /** Why the run must be orderly: asking twice for one name gives two names exactly when the first call could create
      its entry. */
  lemma TwoCallsDifferExactly(entries: Names, name: string, multiFile: bool, creates: bool, stamp: string)
    requires name != "" && name !in entries
    ensures var first := Chosen(entries, name, stamp);
            var second := Chosen(AfterAcquire(entries, name, multiFile, creates, stamp), name, stamp);
            second != first <==> creates
  {
    var after := AfterAcquire(entries, name, multiFile, creates, stamp);
    if creates {
      var n := FirstFree(after, name, 1);
      assert |Candidate(name, n)| > |name| && |Fallback(name, stamp)| > |name|;
    }
  }
}
