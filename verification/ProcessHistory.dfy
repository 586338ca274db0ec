/**
 What each observation of the process observer says (src/runtime_tools/process_observer.py): everything in it is determined by
 the poll its run starts in and by the stored samples.

 Name and parent pid are those of the first sample of the run, the parent is what that pid is observed as in the same poll,
 and count and last time are those of the samples that found room. From poll to poll an observation keeps all of this but
 count and last time, so that what was once recorded of a process is never rewritten by a later one that has its pid.
 */
module ProcessHistory {
  import opened ProcessObserver
  import opened Results

  /** The sample of a pid in a poll. */
  function SampleWith(samples: seq<Raw>, pid: int): (sample: Raw)
    requires Has(samples, pid)
    ensures sample.pid == pid
  {
    var n := |samples| - 1;
    HasMore(samples, n, pid);
    if samples[n].pid == pid then samples[n] else SampleWith(samples[..n], pid)
  }

  /** The parent of a process that appears: the root, or the run its parent pid is in at that poll, if that is observed. */
  function ExpectedParent(c: Setup, before: seq<seq<Raw>>, samples: seq<Raw>, sample: Raw): Option<Entity> {
    if sample.pid == c.group then None
    else if sample.ppid == c.group then Some(Root)
    else if Has(samples, sample.ppid) && RunOf(before, sample.ppid) in Take(RunsUpTo(before, samples), c.maxProcesses) then
      Some(EntityOf(c, RunOf(before, sample.ppid)))
    else None
  }

  /** An observation when its run starts. */
  function Birth(c: Setup, before: seq<seq<Raw>>, samples: seq<Raw>, key: Key, now: int): Observed
    requires Has(samples, key.pid)
  {
    var sample := SampleWith(samples, key.pid);
    Observed(EntityOf(c, key), key.pid, sample.ppid, sample.name, ExpectedParent(c, before, samples, sample), now, now, 0)
  }

  /** The same but for what storing samples changes. */
  predicate SameBirth(o: Observed, o': Observed) {
    o'.(lastSeen := o.lastSeen, sampleCount := o.sampleCount) == o
  }

  function Occurrences(stored: seq<Stored>, key: Key): nat {
    if stored == [] then 0
    else Occurrences(stored[..|stored| - 1], key) + (if stored[|stored| - 1].key == key then 1 else 0)
  }

  /** When the last sample of a run was stored, or else when it was first seen. */
  function LastAt(stored: seq<Stored>, key: Key, firstSeen: int): int {
    if stored == [] then firstSeen
    else if stored[|stored| - 1].key == key then stored[|stored| - 1].at
    else LastAt(stored[..|stored| - 1], key, firstSeen)
  }

  lemma {:induction false} NeverStored(stored: seq<Stored>, key: Key, firstSeen: int)
    requires Occurrences(stored, key) == 0
    ensures LastAt(stored, key, firstSeen) == firstSeen
  {
    if stored != [] {
      NeverStored(stored[..|stored| - 1], key, firstSeen);
    }
  }

  predicate TalliedAt(o: Observed, stored: seq<Stored>, key: Key) {
    o.sampleCount == Occurrences(stored, key) && o.lastSeen == LastAt(stored, key, o.firstSeen)
  }

  /** Counts and times of the observations are those of the stored samples. */
  ghost predicate Tallied(observed: map<Key, Observed>, stored: seq<Stored>) {
    && (forall key :: key in observed ==> TalliedAt(observed[key], stored, key))
    && (forall key :: key !in observed ==> Occurrences(stored, key) == 0)
  }

  // ----- Admitting -----

  /** What a poll adds to the observations: one for each run that starts and finds room, made from its sample. */
  ghost predicate Born(c: Setup, s: State, samples: seq<Raw>, a: Admission, now: int) {
    && (forall key :: key in s.observed ==> key in a.state.observed && a.state.observed[key] == s.observed[key])
    && (forall key :: key in a.created <==> key in a.state.observed && key !in s.observed)
    && (forall key :: key in a.created ==>
          Has(samples, key.pid) && a.state.observed[key] == NewObservation(c, key, SampleWith(samples, key.pid), now))
  }

  /** A run that starts and finds room is new. */
  lemma NewKey(c: Setup, before: seq<seq<Raw>>, s: State, prefix: seq<Raw>, sample: Raw, a: Admission, full: bool)
    requires AllUnique(before) && Follows(c, before, s, full) && Tracks(c, before, prefix, a.state, a.current, full)
    requires !Has(prefix, sample.pid) && !(sample.pid in s.active && s.active[sample.pid] in a.state.observed)
    requires |a.state.order| < c.maxProcesses
    ensures Key(sample.pid, GenerationOf(a.state.generations, sample.pid) + 1) == RunOf(before, sample.pid)
    ensures RunOf(before, sample.pid) !in a.state.observed
  {
    NotActive(c, before, s, prefix, sample.pid, full);
    GenerationsMore(a.state.generations, before, prefix, sample);
    NewRunIsNew(before, prefix, sample);
  }

  lemma SampleKept(prefix: seq<Raw>, sample: Raw, pid: int)
    requires Has(prefix, pid) && pid != sample.pid
    ensures Has(prefix + [sample], pid) && SampleWith(prefix + [sample], pid) == SampleWith(prefix, pid)
  {
    HasMore(prefix + [sample], |prefix|, pid);
    assert (prefix + [sample])[..|prefix|] == prefix;
  }

  lemma BornMore(c: Setup, s: State, prefix: seq<Raw>, sample: Raw, a: Admission, a': Admission, now: int)
    requires Born(c, s, prefix, a, now) && !Has(prefix, sample.pid)
    requires var key := Key(sample.pid, GenerationOf(a.state.generations, sample.pid) + 1);
             || (a'.state.observed == a.state.observed && a'.created == a.created)
             || (&& key !in a.state.observed && a'.created == a.created + [key]
                 && a'.state.observed == a.state.observed[key := NewObservation(c, key, sample, now)])
    ensures Born(c, s, prefix + [sample], a', now)
  {
    var all := prefix + [sample];
    HasMore(all, |prefix|, sample.pid);
    forall key | key in a.created
      ensures Has(all, key.pid) && SampleWith(all, key.pid) == SampleWith(prefix, key.pid)
    {
      SampleKept(prefix, sample, key.pid);
    }
  }

  lemma {:induction false} AllBorn(c: Setup, before: seq<seq<Raw>>, s: State, samples: seq<Raw>, now: int, full: bool)
    requires AllUnique(before) && Unique(samples) && Follows(c, before, s, full)
    ensures Born(c, s, samples, AdmitAll(c, s, samples, now), now)
  {
    if samples != [] {
      var prefix, sample := samples[..|samples| - 1], samples[|samples| - 1];
      assert samples == prefix + [sample];
      UniqueSplit(prefix, sample);
      AllBorn(c, before, s, prefix, now, full);
      AllTracks(c, before, s, prefix, now, full);
      OneBorn(c, before, s, prefix, sample, AdmitAll(c, s, prefix, now), now, full);
    }
  }

  lemma OneBorn(c: Setup, before: seq<seq<Raw>>, s: State, prefix: seq<Raw>, sample: Raw, a: Admission, now: int,
                full: bool)
    requires AllUnique(before) && Follows(c, before, s, full) && Tracks(c, before, prefix, a.state, a.current, full)
    requires Born(c, s, prefix, a, now) && !Has(prefix, sample.pid)
    ensures Born(c, s, prefix + [sample], Admit(c, a, s.active, sample, now), now)
  {
    if !(sample.pid in s.active && s.active[sample.pid] in a.state.observed) && |a.state.order| < c.maxProcesses {
      NewKey(c, before, s, prefix, sample, a, full);
    }
    BornMore(c, s, prefix, sample, a, Admit(c, a, s.active, sample, now), now);
  }

  // ----- Linking -----

  /** Linking gives each new observation its parent, and changes nothing else. */
  lemma {:induction false} LinksParents(c: Setup, observed: map<Key, Observed>, current: map<int, Key>,
                                        created: seq<Key>, key: Key)
    requires key in observed
    ensures var linked := LinkAll(c, observed, current, created);
            && linked.Keys == observed.Keys
            && linked[key] == if key in created then observed[key].(parent := ParentOf(c, observed, current, observed[key]))
                              else observed[key]
  {
    LinkKeeps(c, observed, current, created);
    if created != [] {
      var n := |created| - 1;
      LinkKeeps(c, observed, current, created[..n]);
      LinksParents(c, observed, current, created[..n], key);
      assert created == created[..n] + [created[n]];
      var o := observed[key];
      if o.ppid in current && current[o.ppid] in observed {
        LinksParents(c, observed, current, created[..n], current[o.ppid]);
      }
    }
  }

  lemma ParentIs(c: Setup, before: seq<seq<Raw>>, samples: seq<Raw>, a: Admission, key: Key, now: int, full: bool)
    requires Tracks(c, before, samples, a.state, a.current, full) && WellFormed(c, a.state.observed)
    requires Has(samples, key.pid)
    ensures var o := NewObservation(c, key, SampleWith(samples, key.pid), now);
            o.(parent := ParentOf(c, a.state.observed, a.current, o)) == Birth(c, before, samples, key, now)
  {
  }

  // ----- Storing -----

  lemma StoreTallies(c: Setup, s: State, accepted: (Raw, Key), now: int)
    requires Tallied(s.observed, s.stored)
    ensures var s' := Store(c, s, accepted, now);
            && Tallied(s'.observed, s'.stored)
            && (forall key :: key in s.observed ==> key in s'.observed && SameBirth(s.observed[key], s'.observed[key]))
  {
    var key := accepted.1;
    if key in s.observed && |s.stored| < c.maxSamples {
      var more := s.stored + [Stored(key, s.observed[key].entity, accepted.0, now)];
      assert more[..|s.stored|] == s.stored;
    }
  }

  lemma {:induction false} StoresTally(c: Setup, s: State, accepted: seq<(Raw, Key)>, now: int)
    requires Tallied(s.observed, s.stored)
    ensures var s' := StoreAll(c, s, accepted, now);
            && Tallied(s'.observed, s'.stored)
            && (forall key :: key in s.observed ==> key in s'.observed && SameBirth(s.observed[key], s'.observed[key]))
  {
    if accepted != [] {
      StoresTally(c, s, accepted[..|accepted| - 1], now);
      StoreTallies(c, StoreAll(c, s, accepted[..|accepted| - 1], now), accepted[|accepted| - 1], now);
    }
  }

  // ----- All polls -----

  /** Goes on from one poll to the next: old observations keep their birth, new ones are born of the poll. */
  ghost predicate GoesOn(c: Setup, before: seq<seq<Raw>>, samples: seq<Raw>, now: int, observed: map<Key, Observed>,
                         observed': map<Key, Observed>)
  {
    && (forall key :: key in observed ==> key in observed' && SameBirth(observed[key], observed'[key]))
    && (forall key :: key in observed' && key !in observed ==>
          Has(samples, key.pid) && SameBirth(Birth(c, before, samples, key, now), observed'[key]))
  }

  lemma LinkedIs(c: Setup, before: seq<seq<Raw>>, s: State, samples: seq<Raw>, a: Admission, now: int, full: bool,
                 key: Key)
    requires Born(c, s, samples, a, now) && Tallied(s.observed, s.stored) && key in a.state.observed
    requires Tracks(c, before, samples, a.state, a.current, full) && WellFormed(c, a.state.observed)
    ensures var linked := LinkAll(c, a.state.observed, a.current, a.created);
            && key in linked && TalliedAt(linked[key], s.stored, key)
            && (key in s.observed ==> linked[key] == s.observed[key])
            && (key !in s.observed ==> Has(samples, key.pid) && linked[key] == Birth(c, before, samples, key, now))
  {
    LinksParents(c, a.state.observed, a.current, a.created, key);
    if key !in s.observed {
      ParentIs(c, before, samples, a, key, now, full);
      NeverStored(s.stored, key, now);
    }
  }

  lemma LinkedGoesOn(c: Setup, before: seq<seq<Raw>>, s: State, samples: seq<Raw>, a: Admission, now: int, full: bool)
    requires Born(c, s, samples, a, now) && Tallied(s.observed, s.stored)
    requires Tracks(c, before, samples, a.state, a.current, full) && WellFormed(c, a.state.observed)
    ensures var linked := LinkAll(c, a.state.observed, a.current, a.created);
            Tallied(linked, s.stored) && GoesOn(c, before, samples, now, s.observed, linked)
  {
    var linked := LinkAll(c, a.state.observed, a.current, a.created);
    LinkKeeps(c, a.state.observed, a.current, a.created);
    forall key | key in linked
      ensures TalliedAt(linked[key], s.stored, key)
      ensures key in s.observed ==> linked[key] == s.observed[key]
      ensures key !in s.observed ==> Has(samples, key.pid) && linked[key] == Birth(c, before, samples, key, now)
    {
      LinkedIs(c, before, s, samples, a, now, full, key);
    }
    assert s.observed.Keys <= linked.Keys by {
      assert forall key :: key in s.observed ==> key in a.state.observed;
    }
    GoesOnFrom(c, before, samples, now, s.observed, linked, s.stored);
  }

  lemma GoesOnFrom(c: Setup, before: seq<seq<Raw>>, samples: seq<Raw>, now: int, observed: map<Key, Observed>,
                   linked: map<Key, Observed>, stored: seq<Stored>)
    requires Tallied(observed, stored) && observed.Keys <= linked.Keys
    requires forall key :: key in linked ==> TalliedAt(linked[key], stored, key)
    requires forall key :: key in linked && key in observed ==> linked[key] == observed[key]
    requires forall key :: key in linked && key !in observed ==>
               Has(samples, key.pid) && linked[key] == Birth(c, before, samples, key, now)
    ensures Tallied(linked, stored) && GoesOn(c, before, samples, now, observed, linked)
  {
  }

  lemma StoredGoesOn(c: Setup, before: seq<seq<Raw>>, samples: seq<Raw>, now: int, observed: map<Key, Observed>,
                     linked: map<Key, Observed>, stored: map<Key, Observed>)
    requires GoesOn(c, before, samples, now, observed, linked) && stored.Keys == linked.Keys
    requires forall key :: key in linked ==> SameBirth(linked[key], stored[key])
    ensures GoesOn(c, before, samples, now, observed, stored)
  {
  }

  lemma PollGoesOn(c: Setup, before: seq<seq<Raw>>, s: State, samples: seq<Raw>, now: int, full: bool)
    requires AllUnique(before) && Unique(samples) && Follows(c, before, s, full)
    requires WellFormed(c, s.observed) && Tallied(s.observed, s.stored)
    ensures var s' := Polled(c, s, samples, now);
            Tallied(s'.observed, s'.stored) && GoesOn(c, before, samples, now, s.observed, s'.observed)
  {
    var a := AdmitAll(c, s, samples, now);
    AllBorn(c, before, s, samples, now, full);
    AllTracks(c, before, s, samples, now, full);
    AllAccepted(c, before, s, samples, now, full);
    AdmitsWellFormed(c, s, samples, now);
    LinkedGoesOn(c, before, s, samples, a, now, full);
    var linked := a.state.(observed := LinkAll(c, a.state.observed, a.current, a.created), active := a.current);
    StoresTally(c, linked, a.accepted, now);
    StoreKeeps(c, linked, a.accepted, now);
    StoredGoesOn(c, before, samples, now, s.observed, linked.observed, StoreAll(c, linked, a.accepted, now).observed);
  }

  /** The observation of a run when it started. */
  function BirthOf(c: Setup, polls: seq<seq<Raw>>, times: seq<int>, key: Key): Observed
    requires |times| == |polls| && key in Runs(polls)
  {
    var n := |polls| - 1;
    if key in Runs(polls[..n]) then BirthOf(c, polls[..n], times[..n], key)
    else
      StartsCounted(polls[..n], polls[n], key);
      Birth(c, polls[..n], polls[n], key, times[n])
  }

  /** From one poll to the next an observation keeps its birth, and a new one is born. */
  lemma BirthStays(c: Setup, polls: seq<seq<Raw>>, times: seq<int>, observed: map<Key, Observed>,
                   observed': map<Key, Observed>, key: Key)
    requires polls != [] && |times| == |polls| && key in observed' && key in Runs(polls)
    requires var n := |polls| - 1;
             && GoesOn(c, polls[..n], polls[n], times[n], observed, observed')
             && (key in observed ==> key in Runs(polls[..n])
                                     && SameBirth(BirthOf(c, polls[..n], times[..n], key), observed[key]))
             && (key !in observed ==> key !in Runs(polls[..n]))
    ensures SameBirth(BirthOf(c, polls, times, key), observed'[key])
  {
  }

  /**
   Every observation is what its run started as, with the count of its stored samples and the time of the last of them: its
   name and parent pid come from the first sample, and its parent is the run its parent pid was in at that poll.
   */
  lemma {:induction false} ObservationsAre(c: Setup, polls: seq<seq<Raw>>, times: seq<int>)
    requires |times| == |polls| && AllUnique(polls)
    ensures var s := AfterAll(c, polls, times);
            && Tallied(s.observed, s.stored)
            && (forall key :: key in s.observed ==>
                  key in Runs(polls) && SameBirth(BirthOf(c, polls, times, key), s.observed[key]))
    decreases |polls|
  {
    ObservationsAreFirstRuns(c, polls, times);
    if polls != [] {
      var n := |polls| - 1;
      var before, s := polls[..n], AfterAll(c, polls[..n], times[..n]);
      var all := AllSamples(c, before, times[..n]);
      ObservationsAreFirstRuns(c, before, times[..n]);
      ObservationsAre(c, before, times[..n]);
      PollGoesOn(c, before, s, polls[n], times[n], Over(all, c.maxSamples));
      var s' := AfterAll(c, polls, times);
      forall key | key in s'.observed
        ensures key in Runs(polls) && SameBirth(BirthOf(c, polls, times, key), s'.observed[key])
      {
        if key !in s.observed {
          NotBefore(c, before, polls[n], s, s', key);
        }
        BirthStays(c, polls, times, s.observed, s'.observed, key);
      }
    }
  }

  /** An observation that is new after a poll is of a run that starts in it. */
  lemma NotBefore(c: Setup, before: seq<seq<Raw>>, samples: seq<Raw>, s: State, s': State, key: Key)
    requires s.order == Take(Runs(before), c.maxProcesses) && (forall k :: k in s.observed <==> k in s.order)
    requires s'.order == Take(RunsUpTo(before, samples), c.maxProcesses) && (forall k :: k in s'.observed <==> k in s'.order)
    requires key in s'.observed && key !in s.observed && AllUnique(before) && Unique(samples)
    ensures key !in Runs(before)
  {
    var i :| 0 <= i < |s'.order| && s'.order[i] == key;
    if key in Runs(before) {
      var j :| 0 <= j < |Runs(before)| && Runs(before)[j] == key;
      TakeHas(Runs(before), j, c.maxProcesses);
      if i >= |Runs(before)| {
        RunsCounted(before, key);
        StartsCounted(before, samples, key);
      }
    }
  }
}
