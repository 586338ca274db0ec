/**
 The process observer (src/runtime_tools/process_observer.py).

 Each poll lists the processes of the workload's group. A process seen in consecutive polls is one observation; when its pid
 disappears and comes back, that is a new generation. Both the number of observations and the number of stored samples are
 bounded.
 */
module ProcessObserver {
  import opened Results
  import opened Sums

  datatype Raw = Raw(pid: int, ppid: int, name: string, rss: nat)

  datatype Key = Key(pid: int, generation: nat)

  /** The root entity, or the entity of one generation of a pid. */
  datatype Entity = Root | Process(key: Key)

  datatype Observed = Observed(
    entity: Entity,
    pid: int,
    ppid: int,
    name: string,
    parent: Option<Entity>,
    firstSeen: int,
    lastSeen: int,
    sampleCount: nat)

  datatype Stored = Stored(key: Key, entity: Entity, sample: Raw, at: int)

  datatype Setup = Setup(group: int, maxProcesses: nat, maxSamples: nat)

  /** `order` lists the observations in the order they were made. */
  datatype State = State(
    order: seq<Key>,
    observed: map<Key, Observed>,
    active: map<int, Key>,
    generations: map<int, nat>,
    stored: seq<Stored>,
    dropped: set<int>,
    polls: nat,
    truncated: bool)

  function Blank(): State {
    State([], map[], map[], map[], [], {}, 0, false)
  }

  /** What the first loop of a poll builds up beside the state: the new active keys, what was created, what was accepted. */
  datatype Admission = Admission(state: State, current: map<int, Key>, created: seq<Key>, accepted: seq<(Raw, Key)>)

  function GenerationOf(generations: map<int, nat>, pid: int): nat {
    if pid in generations then generations[pid] else 0
  }

  function NewObservation(c: Setup, key: Key, sample: Raw, now: int): Observed {
    Observed(if sample.pid == c.group then Root else Process(key), sample.pid, sample.ppid, sample.name, None, now, now, 0)
  }

  function Admit(c: Setup, a: Admission, previous: map<int, Key>, sample: Raw, now: int): Admission {
    var s := a.state;
    if sample.pid in previous && previous[sample.pid] in s.observed then
      var key := previous[sample.pid];
      a.(current := a.current[sample.pid := key], accepted := a.accepted + [(sample, key)])
    else if |s.order| >= c.maxProcesses then
      a.(state := s.(truncated := true, dropped := s.dropped + {sample.pid}))
    else
      var key := Key(sample.pid, GenerationOf(s.generations, sample.pid) + 1);
      Admission(s.(generations := s.generations[sample.pid := key.generation], order := s.order + [key],
                   observed := s.observed[key := NewObservation(c, key, sample, now)]),
                a.current[sample.pid := key], a.created + [key], a.accepted + [(sample, key)])
  }

  function AdmitAll(c: Setup, s: State, samples: seq<Raw>, now: int): Admission {
    if samples == [] then Admission(s.(polls := s.polls + 1), map[], [], [])
    else Admit(c, AdmitAll(c, s, samples[..|samples| - 1], now), s.active, samples[|samples| - 1], now)
  }

  /** The parent of a new observation: the root, or what its parent pid is observed as in this poll. */
  function ParentOf(c: Setup, observed: map<Key, Observed>, current: map<int, Key>, o: Observed): Option<Entity> {
    if o.pid == c.group then o.parent
    else if o.ppid == c.group then Some(Root)
    else if o.ppid in current && current[o.ppid] in observed then Some(observed[current[o.ppid]].entity)
    else o.parent
  }

  function Linked(c: Setup, observed: map<Key, Observed>, current: map<int, Key>, key: Key): map<Key, Observed> {
    if key !in observed then observed
    else observed[key := observed[key].(parent := ParentOf(c, observed, current, observed[key]))]
  }

  function LinkAll(c: Setup, observed: map<Key, Observed>, current: map<int, Key>, created: seq<Key>)
    : map<Key, Observed>
  {
    if created == [] then observed
    else Linked(c, LinkAll(c, observed, current, created[..|created| - 1]), current, created[|created| - 1])
  }

  function Store(c: Setup, s: State, accepted: (Raw, Key), now: int): State {
    var key := accepted.1;
    if key !in s.observed then s
    else if |s.stored| >= c.maxSamples then s.(truncated := true)
    else
      var o := s.observed[key];
      s.(observed := s.observed[key := o.(lastSeen := now, sampleCount := o.sampleCount + 1)],
         stored := s.stored + [Stored(key, o.entity, accepted.0, now)])
  }

  function StoreAll(c: Setup, s: State, accepted: seq<(Raw, Key)>, now: int): State {
    if accepted == [] then s else Store(c, StoreAll(c, s, accepted[..|accepted| - 1], now), accepted[|accepted| - 1], now)
  }

  /** One poll. */
  function Polled(c: Setup, s: State, samples: seq<Raw>, now: int): State {
    var a := AdmitAll(c, s, samples, now);
    var linked := a.state.(observed := LinkAll(c, a.state.observed, a.current, a.created), active := a.current);
    StoreAll(c, linked, a.accepted, now)
  }

  ghost predicate Handled(a: Admission) {
    && (forall pid :: pid in a.current ==> a.current[pid] in a.state.observed)
    && (forall i :: 0 <= i < |a.created| ==> a.created[i] in a.state.observed)
    && (forall i :: 0 <= i < |a.accepted| ==> a.accepted[i].1 in a.state.observed)
  }

  lemma AdmitHandled(c: Setup, a: Admission, previous: map<int, Key>, sample: Raw, now: int)
    requires Handled(a)
    ensures Handled(Admit(c, a, previous, sample, now))
  {
  }

  lemma {:induction false} AllHandled(c: Setup, s: State, samples: seq<Raw>, now: int)
    ensures Handled(AdmitAll(c, s, samples, now))
  {
    if samples != [] {
      AllHandled(c, s, samples[..|samples| - 1], now);
      AdmitHandled(c, AdmitAll(c, s, samples[..|samples| - 1], now), s.active, samples[|samples| - 1], now);
    }
  }

  /** Once full, nothing more is stored. */
  lemma {:induction false} StopsStoring(c: Setup, s: State, accepted: seq<(Raw, Key)>, i: nat, now: int)
    requires i <= |accepted| && StoreAll(c, s, accepted[..i], now).truncated
    requires |StoreAll(c, s, accepted[..i], now).stored| >= c.maxSamples
    ensures StoreAll(c, s, accepted, now) == StoreAll(c, s, accepted[..i], now)
    decreases |accepted|
  {
    if i == |accepted| {
      assert accepted[..i] == accepted;
    } else {
      assert accepted[..|accepted| - 1][..i] == accepted[..i];
      StopsStoring(c, s, accepted[..|accepted| - 1], i, now);
    }
  }

  class ProcessTreeObserver {
    const c: Setup
    var order: seq<Key>
    var observed: map<Key, Observed>
    var active: map<int, Key>
    var generations: map<int, nat>
    var stored: seq<Stored>
    var dropped: set<int>
    var polls: nat
    var truncated: bool

    constructor (c: Setup)
      ensures this.c == c && Now() == Blank()
    {
      this.c := c;
      order, observed, active, generations, stored, dropped, polls, truncated := [], map[], map[], map[], [], {}, 0, false;
    }

    ghost function Now(): State
      reads this
    {
      State(order, observed, active, generations, stored, dropped, polls, truncated)
    }

    method RecordPoll(samples: seq<Raw>, now: int)
      modifies this
      ensures Now() == Polled(c, old(Now()), samples, now)
    {
      ghost var start := Now();
      polls := polls + 1;
      var current, created, accepted := Accept(samples, now, start);
      ghost var a := AdmitAll(c, start, samples, now);
      assert Now() == a.state && current == a.current && created == a.created && accepted == a.accepted;
      LinkParents(current, created);
      active := current;
      assert Now() == a.state.(observed := LinkAll(c, a.state.observed, a.current, a.created), active := a.current);
      StoreSamples(accepted, now);
    }

    method Accept(samples: seq<Raw>, now: int, ghost start: State)
      returns (current: map<int, Key>, created: seq<Key>, accepted: seq<(Raw, Key)>)
      requires Now() == start.(polls := start.polls + 1)
      modifies this`order, this`observed, this`generations, this`dropped, this`truncated
      ensures Admission(Now(), current, created, accepted) == AdmitAll(c, start, samples, now)
      ensures Handled(Admission(Now(), current, created, accepted))
    {
      current, created, accepted := map[], [], [];
      assert samples[..0] == [];
      for i := 0 to |samples|
        invariant Admission(Now(), current, created, accepted) == AdmitAll(c, start, samples[..i], now)
        invariant active == start.active
      {
        assert samples[..i + 1][..i] == samples[..i];
        current, created, accepted := AcceptSample(samples[i], current, created, accepted, now);
      }
      assert samples[..|samples|] == samples;
      AllHandled(c, start, samples, now);
    }

    method AcceptSample(sample: Raw, current: map<int, Key>, created: seq<Key>, accepted: seq<(Raw, Key)>, now: int)
      returns (current': map<int, Key>, created': seq<Key>, accepted': seq<(Raw, Key)>)
      modifies this`order, this`observed, this`generations, this`dropped, this`truncated
      ensures Admission(Now(), current', created', accepted')
           == Admit(c, Admission(old(Now()), current, created, accepted), active, sample, now)
    {
      current', created', accepted' := current, created, accepted;
      if sample.pid in active && active[sample.pid] in observed {
        var key := active[sample.pid];
        current' := current[sample.pid := key];
        accepted' := accepted + [(sample, key)];
      } else if |order| >= c.maxProcesses {
        truncated := true;
        dropped := dropped + {sample.pid};
      } else {
        var key := Key(sample.pid, GenerationOf(generations, sample.pid) + 1);
        generations := generations[sample.pid := key.generation];
        order := order + [key];
        observed := observed[key := NewObservation(c, key, sample, now)];
        created' := created + [key];
        current' := current[sample.pid := key];
        accepted' := accepted + [(sample, key)];
      }
    }

    method LinkParents(current: map<int, Key>, created: seq<Key>)
      requires forall key :: key in created ==> key in observed
      modifies this`observed
      ensures observed == LinkAll(c, old(observed), current, created)
      ensures observed.Keys == old(observed).Keys
    {
      assert created[..0] == [];
      for i := 0 to |created|
        invariant observed == LinkAll(c, old(observed), current, created[..i])
        invariant observed.Keys == old(observed).Keys
      {
        assert created[..i + 1][..i] == created[..i];
        var o := observed[created[i]];
        if o.pid != c.group {
          if o.ppid == c.group {
            observed := observed[created[i] := o.(parent := Some(Root))];
          } else if o.ppid in current && current[o.ppid] in observed {
            observed := observed[created[i] := o.(parent := Some(observed[current[o.ppid]].entity))];
          }
        }
      }
      assert created[..|created|] == created;
    }

    method StoreSample(sample: Raw, key: Key, now: int)
      requires key in observed && |stored| < c.maxSamples
      modifies this`observed, this`stored
      ensures Now() == Store(c, old(Now()), (sample, key), now) && observed.Keys == old(observed).Keys
    {
      var o := observed[key];
      observed := observed[key := o.(lastSeen := now, sampleCount := o.sampleCount + 1)];
      stored := stored + [Stored(key, o.entity, sample, now)];
    }

    method StoreSamples(accepted: seq<(Raw, Key)>, now: int)
      requires forall i :: 0 <= i < |accepted| ==> accepted[i].1 in observed
      modifies this`observed, this`stored, this`truncated
      ensures Now() == StoreAll(c, old(Now()), accepted, now)
      ensures observed.Keys == old(observed).Keys
    {
      assert accepted[..0] == [];
      var i := 0;
      while i < |accepted|
        invariant 0 <= i <= |accepted|
        invariant Now() == StoreAll(c, old(Now()), accepted[..i], now)
        invariant observed.Keys == old(observed).Keys
      {
        assert accepted[..i + 1][..i] == accepted[..i];
        var key := accepted[i].1;
        if |stored| >= c.maxSamples {
          truncated := true;
          StopsStoring(c, old(Now()), accepted, i + 1, now);
          return;
        }
        StoreSample(accepted[i].0, key, now);
        i := i + 1;
      }
      assert accepted[..|accepted|] == accepted;
    }
  }

  // ----- Runs of consecutive polls -----

  predicate Has(samples: seq<Raw>, pid: int) {
    exists i :: 0 <= i < |samples| && samples[i].pid == pid
  }

  /** Process ids are unique within a poll. */
  ghost predicate Unique(samples: seq<Raw>) {
    forall i, j :: 0 <= i < j < |samples| ==> samples[i].pid != samples[j].pid
  }

  function Latest(polls: seq<seq<Raw>>): seq<Raw> {
    if polls == [] then [] else polls[|polls| - 1]
  }

  /** How many maximal runs of consecutive polls contain the pid. */
  function RunCount(polls: seq<seq<Raw>>, pid: int): nat {
    if polls == [] then 0
    else
      var before := polls[..|polls| - 1];
      RunCount(before, pid) + (if Has(Latest(polls), pid) && !Has(Latest(before), pid) then 1 else 0)
  }

  /** The run that a process seen in the next poll belongs to. */
  function RunOf(before: seq<seq<Raw>>, pid: int): Key {
    Key(pid, RunCount(before, pid) + (if Has(Latest(before), pid) then 0 else 1))
  }

  /** The runs that start in the next poll. */
  function StartsIn(before: seq<seq<Raw>>, samples: seq<Raw>): seq<Key> {
    if samples == [] then []
    else
      var pid := samples[|samples| - 1].pid;
      StartsIn(before, samples[..|samples| - 1]) + (if Has(Latest(before), pid) then [] else [RunOf(before, pid)])
  }

  /** All maximal runs, by the poll they start in. */
  function Runs(polls: seq<seq<Raw>>): seq<Key> {
    if polls == [] then [] else Runs(polls[..|polls| - 1]) + StartsIn(polls[..|polls| - 1], Latest(polls))
  }

  function Take<T>(s: seq<T>, n: nat): seq<T> {
    if |s| <= n then s else s[..n]
  }

  /** No run seen so far has a generation beyond the count of its pid's runs; a process just seen is in its latest run. */
  lemma {:induction false} RunsCounted(polls: seq<seq<Raw>>, key: Key)
    requires forall i :: 0 <= i < |polls| ==> Unique(polls[i])
    ensures key in Runs(polls) ==> key.generation <= RunCount(polls, key.pid)
    ensures Has(Latest(polls), key.pid) && key.generation == RunCount(polls, key.pid) ==> key in Runs(polls)
  {
    if polls != [] {
      var before := polls[..|polls| - 1];
      var last := Latest(polls);
      RunsCounted(before, key);
      StartsCounted(before, last, key);
    }
  }

  lemma {:induction false} StartsCounted(before: seq<seq<Raw>>, samples: seq<Raw>, key: Key)
    ensures key in StartsIn(before, samples)
            <==> Has(samples, key.pid) && !Has(Latest(before), key.pid) && key == RunOf(before, key.pid)
  {
    if samples != [] {
      var n := |samples| - 1;
      StartsCounted(before, samples[..n], key);
      HasMore(samples, n, key.pid);
    }
  }

  lemma HasMore(samples: seq<Raw>, n: nat, pid: int)
    requires n + 1 == |samples|
    ensures Has(samples, pid) <==> Has(samples[..n], pid) || samples[n].pid == pid
  {
    if Has(samples[..n], pid) {
      var i :| 0 <= i < n && samples[..n][i].pid == pid;
      assert samples[i].pid == pid;
    }
    if Has(samples, pid) && samples[n].pid != pid {
      var i :| 0 <= i < |samples| && samples[i].pid == pid;
      assert samples[..n][i].pid == pid;
    }
  }

  // ----- The observations are the first runs -----

  function RunsUpTo(before: seq<seq<Raw>>, samples: seq<Raw>): seq<Key> {
    Runs(before) + StartsIn(before, samples)
  }

  function CountUpTo(before: seq<seq<Raw>>, samples: seq<Raw>, pid: int): nat {
    RunCount(before, pid) + (if Has(samples, pid) && !Has(Latest(before), pid) then 1 else 0)
  }

  ghost predicate DroppedAre(dropped: set<int>, runs: seq<Key>, limit: nat) {
    forall pid :: pid in dropped <==> exists i :: limit <= i < |runs| && runs[i].pid == pid
  }

  ghost predicate ObservedAre(s: State, runs: seq<Key>, limit: nat, full: bool) {
    && s.order == Take(runs, limit) && (forall key :: key in s.observed <==> key in s.order)
    && DroppedAre(s.dropped, runs, limit)
    && (s.truncated <==> |runs| > limit || full)
  }

  /** The active map leads each process of the poll that is observed to its current run. */
  ghost predicate ActiveAre(active: map<int, Key>, order: seq<Key>, before: seq<seq<Raw>>, samples: seq<Raw>) {
    && (forall pid :: pid in active <==> Has(samples, pid) && RunOf(before, pid) in order)
    && (forall pid :: pid in active ==> active[pid] == RunOf(before, pid))
  }

  /** After so many polls, of which a last one may be underway; `full` tells whether samples were left out by earlier ones. */
  ghost predicate Tracks(c: Setup, before: seq<seq<Raw>>, samples: seq<Raw>, s: State, active: map<int, Key>,
                         full: bool) {
    && ObservedAre(s, RunsUpTo(before, samples), c.maxProcesses, full)
    && ActiveAre(active, s.order, before, samples)
    && (|RunsUpTo(before, samples)| <= c.maxProcesses ==>
          GenerationsAre(s.generations, before, samples))
  }

  ghost predicate Follows(c: Setup, polls: seq<seq<Raw>>, s: State, full: bool) {
    && ObservedAre(s, Runs(polls), c.maxProcesses, full)
    && (forall pid :: pid in s.active <==> Has(Latest(polls), pid) && Key(pid, RunCount(polls, pid)) in s.order)
    && (forall pid :: pid in s.active ==> s.active[pid] == Key(pid, RunCount(polls, pid)))
    && (|Runs(polls)| <= c.maxProcesses ==> forall pid :: GenerationOf(s.generations, pid) == RunCount(polls, pid))
  }

  ghost predicate AllUnique(polls: seq<seq<Raw>>) {
    forall i :: 0 <= i < |polls| ==> Unique(polls[i])
  }

  /** What one more sample of the poll adds to the runs. */
  lemma MoreSamples(before: seq<seq<Raw>>, prefix: seq<Raw>, sample: Raw)
    ensures RunsUpTo(before, prefix + [sample])
         == RunsUpTo(before, prefix) + (if Has(Latest(before), sample.pid) then [] else [RunOf(before, sample.pid)])
    ensures forall pid :: Has(prefix + [sample], pid) <==> Has(prefix, pid) || sample.pid == pid
  {
    var more := prefix + [sample];
    assert more[..|prefix|] == prefix;
    forall pid
      ensures Has(more, pid) <==> Has(prefix, pid) || sample.pid == pid
    {
      HasMore(more, |prefix|, pid);
    }
  }

  lemma TakeFull<T>(s: seq<T>, x: T, n: nat)
    requires |s| >= n
    ensures Take(s + [x], n) == Take(s, n)
  {
  }

  lemma TakeHas<T>(s: seq<T>, i: nat, n: nat)
    requires i < |s|
    ensures i < n ==> s[i] in Take(s, n)
  {
    if i < n {
      assert Take(s, n)[i] == s[i];
    }
  }

  lemma DroppedMore(dropped: set<int>, runs: seq<Key>, key: Key, limit: nat)
    requires DroppedAre(dropped, runs, limit) && |runs| >= limit
    ensures DroppedAre(dropped + {key.pid}, runs + [key], limit)
  {
    var more := runs + [key];
    forall pid
      ensures pid in dropped + {key.pid} <==> exists i :: limit <= i < |more| && more[i].pid == pid
    {
      if pid in dropped {
        var i :| limit <= i < |runs| && runs[i].pid == pid;
        assert more[i].pid == pid;
      }
      assert more[|runs|].pid == key.pid;
      if i :| limit <= i < |more| && more[i].pid == pid {
        if i < |runs| {
          assert runs[i].pid == pid;
        }
      }
    }
  }

  lemma ActiveAdds(active: map<int, Key>, order: seq<Key>, order': seq<Key>, before: seq<seq<Raw>>, prefix: seq<Raw>,
                   sample: Raw)
    requires ActiveAre(active, order, before, prefix) && RunOf(before, sample.pid) in order'
    requires order' == order || order' == order + [RunOf(before, sample.pid)]
    ensures ActiveAre(active[sample.pid := RunOf(before, sample.pid)], order', before, prefix + [sample])
  {
    MoreSamples(before, prefix, sample);
    forall pid | pid != sample.pid
      ensures RunOf(before, pid) in order' <==> RunOf(before, pid) in order
    {
    }
  }

  lemma ActiveSkips(active: map<int, Key>, order: seq<Key>, before: seq<seq<Raw>>, prefix: seq<Raw>, sample: Raw)
    requires ActiveAre(active, order, before, prefix) && RunOf(before, sample.pid) !in order
    ensures ActiveAre(active, order, before, prefix + [sample])
  {
    MoreSamples(before, prefix, sample);
  }

  ghost predicate GenerationsAre(generations: map<int, nat>, before: seq<seq<Raw>>, samples: seq<Raw>) {
    forall pid :: GenerationOf(generations, pid) == CountUpTo(before, samples, pid)
  }

  lemma GenerationsMore(generations: map<int, nat>, before: seq<seq<Raw>>, prefix: seq<Raw>, sample: Raw)
    requires GenerationsAre(generations, before, prefix) && !Has(prefix, sample.pid)
    ensures Has(Latest(before), sample.pid) ==> GenerationsAre(generations, before, prefix + [sample])
    ensures !Has(Latest(before), sample.pid) ==>
              GenerationsAre(generations[sample.pid := GenerationOf(generations, sample.pid) + 1], before, prefix + [sample])
              && Key(sample.pid, GenerationOf(generations, sample.pid) + 1) == RunOf(before, sample.pid)
  {
    MoreSamples(before, prefix, sample);
    assert GenerationOf(generations, sample.pid) == CountUpTo(before, prefix, sample.pid);
    forall pid
      ensures CountUpTo(before, prefix + [sample], pid)
           == CountUpTo(before, prefix, pid) + (if pid == sample.pid && !Has(Latest(before), pid) then 1 else 0)
    {
      assert Has(prefix + [sample], pid) <==> Has(prefix, pid) || sample.pid == pid;
    }
  }

  /** A process that goes on in an observed run. */
  lemma ContinuedRun(c: Setup, before: seq<seq<Raw>>, prefix: seq<Raw>, sample: Raw, a: Admission,
                     previous: map<int, Key>, now: int, full: bool)
    requires Tracks(c, before, prefix, a.state, a.current, full) && !Has(prefix, sample.pid)
    requires sample.pid in previous && previous[sample.pid] == RunOf(before, sample.pid) && Has(Latest(before), sample.pid)
    requires RunOf(before, sample.pid) in a.state.order
    ensures var a' := Admit(c, a, previous, sample, now);
            Tracks(c, before, prefix + [sample], a'.state, a'.current, full)
  {
    MoreSamples(before, prefix, sample);
    assert RunsUpTo(before, prefix + [sample]) == RunsUpTo(before, prefix);
    ActiveAdds(a.current, a.state.order, a.state.order, before, prefix, sample);
    if |RunsUpTo(before, prefix)| <= c.maxProcesses {
      GenerationsMore(a.state.generations, before, prefix, sample);
    }
  }

  /** A run that was under way but not observed lies beyond the limit, which was reached before. */
  lemma UnobservedKey(c: Setup, before: seq<seq<Raw>>, prefix: seq<Raw>, pid: int) returns (i: nat)
    requires AllUnique(before) && Has(Latest(before), pid) && RunOf(before, pid) !in Take(Runs(before), c.maxProcesses)
    ensures c.maxProcesses <= i < |RunsUpTo(before, prefix)| && RunsUpTo(before, prefix)[i].pid == pid
    ensures RunOf(before, pid) !in Take(RunsUpTo(before, prefix), c.maxProcesses)
  {
    var key := RunOf(before, pid);
    RunsCounted(before, key);
    i :| 0 <= i < |Runs(before)| && Runs(before)[i] == key;
    TakeHas(Runs(before), i, c.maxProcesses);
    assert RunsUpTo(before, prefix)[i] == key;
    assert Take(RunsUpTo(before, prefix), c.maxProcesses) == Take(Runs(before), c.maxProcesses);
  }

  lemma UnobservedRun(c: Setup, before: seq<seq<Raw>>, prefix: seq<Raw>, sample: Raw, a: Admission,
                      previous: map<int, Key>, now: int, full: bool)
    requires AllUnique(before) && Tracks(c, before, prefix, a.state, a.current, full)
    requires sample.pid !in previous && Has(Latest(before), sample.pid)
    requires RunOf(before, sample.pid) !in Take(Runs(before), c.maxProcesses)
    ensures var a' := Admit(c, a, previous, sample, now);
            Tracks(c, before, prefix + [sample], a'.state, a'.current, full)
  {
    var i := UnobservedKey(c, before, prefix, sample.pid);
    MoreSamples(before, prefix, sample);
    assert RunsUpTo(before, prefix + [sample]) == RunsUpTo(before, prefix);
    ActiveSkips(a.current, a.state.order, before, prefix, sample);
    assert a.state.dropped + {sample.pid} == a.state.dropped;
  }

  lemma NewRunIsNew(before: seq<seq<Raw>>, prefix: seq<Raw>, sample: Raw)
    requires AllUnique(before) && !Has(prefix, sample.pid) && !Has(Latest(before), sample.pid)
    ensures RunOf(before, sample.pid) !in RunsUpTo(before, prefix)
  {
    RunsCounted(before, RunOf(before, sample.pid));
    StartsCounted(before, prefix, RunOf(before, sample.pid));
  }

  lemma DroppedRun(c: Setup, before: seq<seq<Raw>>, prefix: seq<Raw>, sample: Raw, a: Admission,
                   previous: map<int, Key>, now: int, full: bool)
    requires AllUnique(before) && Tracks(c, before, prefix, a.state, a.current, full)
    requires sample.pid !in previous && !Has(prefix, sample.pid) && !Has(Latest(before), sample.pid)
    requires |a.state.order| >= c.maxProcesses
    ensures var a' := Admit(c, a, previous, sample, now);
            Tracks(c, before, prefix + [sample], a'.state, a'.current, full)
  {
    var runs := RunsUpTo(before, prefix);
    var key := RunOf(before, sample.pid);
    MoreSamples(before, prefix, sample);
    NewRunIsNew(before, prefix, sample);
    assert RunsUpTo(before, prefix + [sample]) == runs + [key];
    TakeFull(runs, key, c.maxProcesses);
    DroppedMore(a.state.dropped, runs, key, c.maxProcesses);
    ActiveSkips(a.current, a.state.order, before, prefix, sample);
  }

  lemma NewRun(c: Setup, before: seq<seq<Raw>>, prefix: seq<Raw>, sample: Raw, a: Admission, previous: map<int, Key>,
               now: int, full: bool)
    requires AllUnique(before) && Tracks(c, before, prefix, a.state, a.current, full)
    requires sample.pid !in previous && !Has(prefix, sample.pid) && !Has(Latest(before), sample.pid)
    requires |a.state.order| < c.maxProcesses
    ensures var a' := Admit(c, a, previous, sample, now);
            Tracks(c, before, prefix + [sample], a'.state, a'.current, full)
  {
    var runs := RunsUpTo(before, prefix);
    var key := RunOf(before, sample.pid);
    MoreSamples(before, prefix, sample);
    assert RunsUpTo(before, prefix + [sample]) == runs + [key];
    assert |runs| < c.maxProcesses && a.state.order == runs;
    GenerationsMore(a.state.generations, before, prefix, sample);
    ActiveAdds(a.current, runs, runs + [key], before, prefix, sample);
  }

  // ----- One poll -----

  /** What the state after some polls says about a process of the next. */
  lemma AdmitTracks(c: Setup, before: seq<seq<Raw>>, s: State, prefix: seq<Raw>, sample: Raw, a: Admission, now: int,
                    full: bool)
    requires AllUnique(before) && Follows(c, before, s, full) && Tracks(c, before, prefix, a.state, a.current, full)
    requires !Has(prefix, sample.pid)
    ensures var a' := Admit(c, a, s.active, sample, now);
            Tracks(c, before, prefix + [sample], a'.state, a'.current, full)
  {
    var key := RunOf(before, sample.pid);
    if sample.pid in s.active {
      OrderExtends(c, before, prefix, key);
      ContinuedRun(c, before, prefix, sample, a, s.active, now, full);
    } else if Has(Latest(before), sample.pid) {
      UnobservedRun(c, before, prefix, sample, a, s.active, now, full);
    } else if |a.state.order| >= c.maxProcesses {
      DroppedRun(c, before, prefix, sample, a, s.active, now, full);
    } else {
      NewRun(c, before, prefix, sample, a, s.active, now, full);
    }
  }

  lemma OrderExtends(c: Setup, before: seq<seq<Raw>>, prefix: seq<Raw>, key: Key)
    requires key in Take(Runs(before), c.maxProcesses)
    ensures key in Take(RunsUpTo(before, prefix), c.maxProcesses)
  {
    var i :| 0 <= i < |Take(Runs(before), c.maxProcesses)| && Take(Runs(before), c.maxProcesses)[i] == key;
    assert RunsUpTo(before, prefix)[i] == key;
    TakeHas(RunsUpTo(before, prefix), i, c.maxProcesses);
  }

  lemma UniqueSplit(prefix: seq<Raw>, sample: Raw)
    requires Unique(prefix + [sample])
    ensures Unique(prefix) && !Has(prefix, sample.pid)
  {
    var all := prefix + [sample];
    assert forall i :: 0 <= i < |prefix| ==> all[i] == prefix[i];
    assert all[|prefix|] == sample;
  }

  lemma {:induction false} AllTracks(c: Setup, before: seq<seq<Raw>>, s: State, samples: seq<Raw>, now: int, full: bool)
    requires AllUnique(before) && Unique(samples) && Follows(c, before, s, full)
    ensures var a := AdmitAll(c, s, samples, now);
            Tracks(c, before, samples, a.state, a.current, full)
  {
    if samples == [] {
      NothingYet(c, before, s, now, full);
    } else {
      var prefix, sample := samples[..|samples| - 1], samples[|samples| - 1];
      assert samples == prefix + [sample];
      UniqueSplit(prefix, sample);
      AllTracks(c, before, s, prefix, now, full);
      NextTracks(c, before, s, prefix, sample, now, full);
    }
  }

  lemma NextTracks(c: Setup, before: seq<seq<Raw>>, s: State, prefix: seq<Raw>, sample: Raw, now: int, full: bool)
    requires AllUnique(before) && Follows(c, before, s, full) && !Has(prefix, sample.pid)
    requires var a := AdmitAll(c, s, prefix, now);
             Tracks(c, before, prefix, a.state, a.current, full)
    ensures var a := AdmitAll(c, s, prefix + [sample], now);
            Tracks(c, before, prefix + [sample], a.state, a.current, full)
  {
    var a := AdmitAll(c, s, prefix, now);
    assert (prefix + [sample])[..|prefix|] == prefix;
    assert AdmitAll(c, s, prefix + [sample], now) == Admit(c, a, s.active, sample, now);
    AdmitTracks(c, before, s, prefix, sample, a, now, full);
  }

  lemma NothingYet(c: Setup, before: seq<seq<Raw>>, s: State, now: int, full: bool)
    requires Follows(c, before, s, full)
    ensures Tracks(c, before, [], AdmitAll(c, s, [], now).state, map[], full)
  {
    assert RunsUpTo(before, []) == Runs(before);
  }

  /** Linking parents and storing samples leaves the observations as they are, but for parents and counts. */
  lemma {:induction false} LinkKeeps(c: Setup, observed: map<Key, Observed>, current: map<int, Key>, created: seq<Key>)
    ensures LinkAll(c, observed, current, created).Keys == observed.Keys
  {
    if created != [] {
      LinkKeeps(c, observed, current, created[..|created| - 1]);
    }
  }

  lemma {:induction false} StoreKeeps(c: Setup, s: State, accepted: seq<(Raw, Key)>, now: int)
    ensures var s' := StoreAll(c, s, accepted, now);
            && s'.observed.Keys == s.observed.Keys && (s.truncated ==> s'.truncated)
            && s' == s.(observed := s'.observed, stored := s'.stored, truncated := s'.truncated)
  {
    if accepted != [] {
      StoreKeeps(c, s, accepted[..|accepted| - 1], now);
    }
  }

  // ----- Samples, counts and parents -----

  function EntityOf(c: Setup, key: Key): Entity {
    if key.pid == c.group then Root else Process(key)
  }

  /** Every observation is what its key says, and its parent is the root or the entity of an observation. */
  ghost predicate WellFormed(c: Setup, observed: map<Key, Observed>) {
    forall key :: key in observed ==>
      && observed[key].entity == EntityOf(c, key) && observed[key].pid == key.pid
      && (observed[key].parent.Some? ==> IsParent(observed, observed[key].parent.value))
  }

  ghost predicate IsParent(observed: map<Key, Observed>, parent: Entity) {
    parent.Root? || (parent.key in observed && observed[parent.key].entity == parent)
  }

  lemma {:induction false} AdmitsWellFormed(c: Setup, s: State, samples: seq<Raw>, now: int)
    requires WellFormed(c, s.observed)
    ensures WellFormed(c, AdmitAll(c, s, samples, now).state.observed)
  {
    if samples != [] {
      AdmitsWellFormed(c, s, samples[..|samples| - 1], now);
    }
  }

  lemma {:induction false} LinksWellFormed(c: Setup, observed: map<Key, Observed>, current: map<int, Key>,
                                           created: seq<Key>)
    requires WellFormed(c, observed)
    ensures WellFormed(c, LinkAll(c, observed, current, created))
  {
    if created != [] {
      LinksWellFormed(c, observed, current, created[..|created| - 1]);
      LinkWellFormed(c, LinkAll(c, observed, current, created[..|created| - 1]), current, created[|created| - 1]);
    }
  }

  lemma LinkWellFormed(c: Setup, observed: map<Key, Observed>, current: map<int, Key>, key: Key)
    requires WellFormed(c, observed)
    ensures WellFormed(c, Linked(c, observed, current, key))
  {
    if key in observed {
      var parent := ParentOf(c, observed, current, observed[key]);
      assert parent.Some? ==> IsParent(observed, parent.value);
    }
  }

  lemma {:induction false} StoresWellFormed(c: Setup, s: State, accepted: seq<(Raw, Key)>, now: int)
    requires WellFormed(c, s.observed)
    ensures WellFormed(c, StoreAll(c, s, accepted, now).observed)
  {
    if accepted != [] {
      StoresWellFormed(c, s, accepted[..|accepted| - 1], now);
    }
  }

  /** The processes of a poll that are observed, with their runs. */
  function AcceptedIn(c: Setup, before: seq<seq<Raw>>, samples: seq<Raw>): seq<(Raw, Key)> {
    if samples == [] then []
    else
      var sample := samples[|samples| - 1];
      AcceptedIn(c, before, samples[..|samples| - 1])
      + (if RunOf(before, sample.pid) in Take(RunsUpTo(before, samples), c.maxProcesses)
         then [(sample, RunOf(before, sample.pid))] else [])
  }

  function SamplesOf(c: Setup, accepted: seq<(Raw, Key)>, now: int): seq<Stored> {
    seq(|accepted|, i requires 0 <= i < |accepted| => Stored(accepted[i].1, EntityOf(c, accepted[i].1), accepted[i].0, now))
  }

  /** All samples of observed processes, stored or not. */
  function AllSamples(c: Setup, polls: seq<seq<Raw>>, times: seq<int>): seq<Stored>
    requires |times| == |polls|
  {
    if polls == [] then []
    else
      var n := |polls| - 1;
      AllSamples(c, polls[..n], times[..n]) + SamplesOf(c, AcceptedIn(c, polls[..n], polls[n]), times[n])
  }

  ghost function Counts(observed: map<Key, Observed>): map<Key, int> {
    map key | key in observed :: observed[key].sampleCount
  }

  /** Admitting accepts exactly the observed processes, and no count is lost. */
  lemma {:induction false} AllAccepted(c: Setup, before: seq<seq<Raw>>, s: State, samples: seq<Raw>, now: int,
                                       full: bool)
    requires AllUnique(before) && Unique(samples) && Follows(c, before, s, full)
    ensures var a := AdmitAll(c, s, samples, now);
            && a.accepted == AcceptedIn(c, before, samples) && a.state.stored == s.stored
            && MapSum(Counts(a.state.observed)) == MapSum(Counts(s.observed))
  {
    if samples != [] {
      var n := |samples| - 1;
      AllAccepted(c, before, s, samples[..n], now, full);
      assert samples[..n] + [samples[n]] == samples;
      OneAccepted(c, before, s, samples[..n], samples[n], now, full);
    }
  }

  lemma OneAccepted(c: Setup, before: seq<seq<Raw>>, s: State, prefix: seq<Raw>, sample: Raw, now: int, full: bool)
    requires AllUnique(before) && Unique(prefix + [sample]) && Follows(c, before, s, full)
    ensures var a := AdmitAll(c, s, prefix, now);
            var a' := Admit(c, a, s.active, sample, now);
            && a'.accepted == a.accepted + (if RunOf(before, sample.pid) in Take(RunsUpTo(before, prefix + [sample]), c.maxProcesses)
                                            then [(sample, RunOf(before, sample.pid))] else [])
            && a'.state.stored == a.state.stored
            && MapSum(Counts(a'.state.observed)) == MapSum(Counts(a.state.observed))
  {
    var a := AdmitAll(c, s, prefix, now);
    UniqueSplit(prefix, sample);
    AllTracks(c, before, s, prefix, now, full);
    AdmitTracks(c, before, s, prefix, sample, a, now, full);
    NotActive(c, before, s, prefix, sample.pid, full);
    AdmitsAccepted(c, before, prefix, sample, a, s.active, now, full);
    AdmitsNew(c, before, prefix, sample, a, s.active, now, full);
  }

  lemma NotActive(c: Setup, before: seq<seq<Raw>>, s: State, prefix: seq<Raw>, pid: int, full: bool)
    requires AllUnique(before) && Follows(c, before, s, full)
    ensures pid !in s.active && Has(Latest(before), pid) ==> |RunsUpTo(before, prefix)| > c.maxProcesses
    ensures pid in s.active ==>
              && s.active[pid] == RunOf(before, pid)
              && RunOf(before, pid) in Take(RunsUpTo(before, prefix), c.maxProcesses)
  {
    if pid in s.active {
      OrderExtends(c, before, prefix, RunOf(before, pid));
    } else if Has(Latest(before), pid) {
      var i := UnobservedKey(c, before, prefix, pid);
    }
  }

  lemma AdmitsAccepted(c: Setup, before: seq<seq<Raw>>, prefix: seq<Raw>, sample: Raw, a: Admission,
                       previous: map<int, Key>, now: int, full: bool)
    requires Tracks(c, before, prefix, a.state, a.current, full) && !Has(prefix, sample.pid)
    requires var a' := Admit(c, a, previous, sample, now);
             Tracks(c, before, prefix + [sample], a'.state, a'.current, full)
    ensures Admit(c, a, previous, sample, now).accepted
         == a.accepted + (if RunOf(before, sample.pid) in Take(RunsUpTo(before, prefix + [sample]), c.maxProcesses)
                          then [(sample, RunOf(before, sample.pid))] else [])
    ensures Admit(c, a, previous, sample, now).state.stored == a.state.stored
  {
    var a' := Admit(c, a, previous, sample, now);
    MoreSamples(before, prefix, sample);
    assert sample.pid !in a.current;
    assert sample.pid in a'.current ==> a'.accepted == a.accepted + [(sample, a'.current[sample.pid])];
  }

  lemma CountsSame(observed: map<Key, Observed>, key: Key, o: Observed)
    requires key !in observed && o.sampleCount == 0
    ensures MapSum(Counts(observed[key := o])) == MapSum(Counts(observed))
  {
    MapSumUpdate(Counts(observed), key, 0);
    assert Counts(observed[key := o]) == Counts(observed)[key := 0];
  }

  lemma AdmitsNew(c: Setup, before: seq<seq<Raw>>, prefix: seq<Raw>, sample: Raw, a: Admission, previous: map<int, Key>,
                  now: int, full: bool)
    requires AllUnique(before) && Tracks(c, before, prefix, a.state, a.current, full) && !Has(prefix, sample.pid)
    requires sample.pid !in previous && Has(Latest(before), sample.pid) ==> |RunsUpTo(before, prefix)| > c.maxProcesses
    requires sample.pid in previous ==> previous[sample.pid] in Take(RunsUpTo(before, prefix), c.maxProcesses)
    ensures MapSum(Counts(Admit(c, a, previous, sample, now).state.observed)) == MapSum(Counts(a.state.observed))
  {
    var s := a.state;
    if sample.pid !in previous && |s.order| < c.maxProcesses {
      GenerationsMore(s.generations, before, prefix, sample);
      NewRunIsNew(before, prefix, sample);
      CountsSame(s.observed, RunOf(before, sample.pid), NewObservation(c, RunOf(before, sample.pid), sample, now));
    }
  }

  lemma {:induction false} LinkCounts(c: Setup, observed: map<Key, Observed>, current: map<int, Key>, created: seq<Key>)
    ensures Counts(LinkAll(c, observed, current, created)) == Counts(observed)
  {
    if created != [] {
      LinkCounts(c, observed, current, created[..|created| - 1]);
    }
  }

  /** Samples are stored up to the limit, and the observations' counts add up to them. */
  ghost predicate Sampled(c: Setup, s: State, all: seq<Stored>) {
    && WellFormed(c, s.observed)
    && s.stored == Take(all, c.maxSamples) && MapSum(Counts(s.observed)) == |s.stored|
  }

  lemma CountsMore(c: Setup, observed: map<Key, Observed>, key: Key, now: int)
    requires WellFormed(c, observed) && key in observed
    ensures var o := observed[key];
            var more := observed[key := o.(lastSeen := now, sampleCount := o.sampleCount + 1)];
            WellFormed(c, more) && MapSum(Counts(more)) == MapSum(Counts(observed)) + 1
  {
    var o := observed[key];
    var o' := o.(lastSeen := now, sampleCount := o.sampleCount + 1);
    MapSumUpdate(Counts(observed), key, o'.sampleCount);
    assert Counts(observed[key := o']) == Counts(observed)[key := o'.sampleCount];
  }

  function SampleOf(c: Setup, accepted: (Raw, Key), now: int): Stored {
    Stored(accepted.1, EntityOf(c, accepted.1), accepted.0, now)
  }

  lemma StoreCounts(c: Setup, s: State, accepted: (Raw, Key), now: int)
    requires WellFormed(c, s.observed) && accepted.1 in s.observed && |s.stored| < c.maxSamples
    ensures var s' := Store(c, s, accepted, now);
            && WellFormed(c, s'.observed) && MapSum(Counts(s'.observed)) == MapSum(Counts(s.observed)) + 1
            && s'.stored == s.stored + [SampleOf(c, accepted, now)] && s'.truncated == s.truncated
  {
    CountsMore(c, s.observed, accepted.1, now);
  }

  lemma StoresOne(c: Setup, s: State, accepted: (Raw, Key), now: int, all: seq<Stored>)
    requires Sampled(c, s, all) && accepted.1 in s.observed && |all| < c.maxSamples
    ensures var s' := Store(c, s, accepted, now);
            Sampled(c, s', all + [SampleOf(c, accepted, now)]) && s'.truncated == s.truncated
  {
    StoreCounts(c, s, accepted, now);
    var more := all + [SampleOf(c, accepted, now)];
    assert Take(all, c.maxSamples) == all && Take(more, c.maxSamples) == more;
  }

  lemma StoresNone(c: Setup, s: State, accepted: (Raw, Key), now: int, all: seq<Stored>)
    requires Sampled(c, s, all) && accepted.1 in s.observed && |all| >= c.maxSamples
    ensures var s' := Store(c, s, accepted, now);
            Sampled(c, s', all + [SampleOf(c, accepted, now)]) && s'.truncated
  {
    TakeFull(all, SampleOf(c, accepted, now), c.maxSamples);
  }

  lemma {:induction false} StoresSampled(c: Setup, s: State, accepted: seq<(Raw, Key)>, now: int, all: seq<Stored>)
    requires Sampled(c, s, all) && (|all| > c.maxSamples ==> s.truncated)
    requires forall i :: 0 <= i < |accepted| ==> accepted[i].1 in s.observed
    ensures var s' := StoreAll(c, s, accepted, now);
            var more := all + SamplesOf(c, accepted, now);
            && Sampled(c, s', more) && (s'.truncated <==> s.truncated || |more| > c.maxSamples)
  {
    if accepted == [] {
      assert all + SamplesOf(c, accepted, now) == all;
    } else {
      var n := |accepted| - 1;
      var more := all + SamplesOf(c, accepted[..n], now);
      var before := StoreAll(c, s, accepted[..n], now);
      StoresSampled(c, s, accepted[..n], now, all);
      StoreKeeps(c, s, accepted[..n], now);
      assert all + SamplesOf(c, accepted, now) == more + [SampleOf(c, accepted[n], now)];
      if |more| < c.maxSamples {
        StoresOne(c, before, accepted[n], now, more);
      } else {
        StoresNone(c, before, accepted[n], now, more);
      }
    }
  }

  // ----- All polls -----

  predicate Over(all: seq<Stored>, limit: nat) {
    |all| > limit
  }

  lemma PollKeeps(c: Setup, before: seq<seq<Raw>>, s: State, samples: seq<Raw>, now: int, all: seq<Stored>)
    requires AllUnique(before) && Unique(samples)
    requires Follows(c, before, s, Over(all, c.maxSamples)) && Sampled(c, s, all)
    ensures var s' := Polled(c, s, samples, now);
            var more := all + SamplesOf(c, AcceptedIn(c, before, samples), now);
            Follows(c, before + [samples], s', Over(more, c.maxSamples)) && Sampled(c, s', more)
  {
    var full := Over(all, c.maxSamples);
    var a := AdmitAll(c, s, samples, now);
    AllTracks(c, before, s, samples, now, full);
    AllAccepted(c, before, s, samples, now, full);
    AllHandled(c, s, samples, now);
    AdmitsWellFormed(c, s, samples, now);
    var linked := a.state.(observed := LinkAll(c, a.state.observed, a.current, a.created), active := a.current);
    LinkKeeps(c, a.state.observed, a.current, a.created);
    LinkCounts(c, a.state.observed, a.current, a.created);
    LinksWellFormed(c, a.state.observed, a.current, a.created);
    StoresSampled(c, linked, a.accepted, now, all);
    StoreKeeps(c, linked, a.accepted, now);
    TracksFollow(c, before, samples, linked, StoreAll(c, linked, a.accepted, now), full,
                 Over(all + SamplesOf(c, a.accepted, now), c.maxSamples));
  }

  lemma TracksFollow(c: Setup, before: seq<seq<Raw>>, samples: seq<Raw>, linked: State, s: State, full: bool,
                     full': bool)
    requires Tracks(c, before, samples, linked, linked.active, full)
    requires s == linked.(observed := s.observed, stored := s.stored, truncated := s.truncated)
    requires s.observed.Keys == linked.observed.Keys && (full ==> full') && (s.truncated <==> linked.truncated || full')
    ensures Follows(c, before + [samples], s, full')
  {
    var polls := before + [samples];
    assert polls[..|before|] == before;
    assert Runs(polls) == RunsUpTo(before, samples);
    forall pid
      ensures RunCount(polls, pid) == CountUpTo(before, samples, pid)
      ensures Has(samples, pid) ==> RunOf(before, pid) == Key(pid, RunCount(polls, pid))
    {
    }
  }

  /** The state after all polls, each at a time of its own. */
  function AfterAll(c: Setup, polls: seq<seq<Raw>>, times: seq<int>): State
    requires |times| == |polls|
  {
    if polls == [] then Blank()
    else
      var n := |polls| - 1;
      Polled(c, AfterAll(c, polls[..n], times[..n]), polls[n], times[n])
  }

  /**
   The observations are the first runs, in order, up to the limit, and the stored samples are the first samples of observed
   processes; what is dropped are the pids of the other runs; the counts add up to the stored samples; every parent is the
   root or an observation.
   */
  lemma {:induction false} ObservationsAreFirstRuns(c: Setup, polls: seq<seq<Raw>>, times: seq<int>)
    requires |times| == |polls| && AllUnique(polls)
    ensures var s := AfterAll(c, polls, times);
            var all := AllSamples(c, polls, times);
            && Follows(c, polls, s, Over(all, c.maxSamples)) && Sampled(c, s, all)
            && s.order == Take(Runs(polls), c.maxProcesses)
            && (s.truncated <==> |Runs(polls)| > c.maxProcesses || |all| > c.maxSamples)
    decreases |polls|
  {
    if polls == [] {
      assert Counts(map[]) == map[];
    } else {
      var n := |polls| - 1;
      assert polls[..n] + [polls[n]] == polls;
      ObservationsAreFirstRuns(c, polls[..n], times[..n]);
      PollKeeps(c, polls[..n], AfterAll(c, polls[..n], times[..n]), polls[n], times[n], AllSamples(c, polls[..n], times[..n]));
    }
  }

  lemma {:induction false} AdmitsPoll(c: Setup, s: State, samples: seq<Raw>, now: int)
    ensures AdmitAll(c, s, samples, now).state.polls == s.polls + 1
  {
    if samples != [] {
      AdmitsPoll(c, s, samples[..|samples| - 1], now);
    }
  }

  lemma {:induction false} StoresNoPoll(c: Setup, s: State, accepted: seq<(Raw, Key)>, now: int)
    ensures StoreAll(c, s, accepted, now).polls == s.polls
  {
    if accepted != [] {
      StoresNoPoll(c, s, accepted[..|accepted| - 1], now);
    }
  }

  /** Each poll is counted once, whatever it brings. */
  lemma {:induction false} PollsCounted(c: Setup, polls: seq<seq<Raw>>, times: seq<int>)
    requires |times| == |polls|
    ensures AfterAll(c, polls, times).polls == |polls|
  {
    if polls != [] {
      var n := |polls| - 1;
      var s := AfterAll(c, polls[..n], times[..n]);
      var a := AdmitAll(c, s, polls[n], times[n]);
      PollsCounted(c, polls[..n], times[..n]);
      AdmitsPoll(c, s, polls[n], times[n]);
      StoresNoPoll(c, a.state.(observed := LinkAll(c, a.state.observed, a.current, a.created), active := a.current), a.accepted,
                   times[n]);
    }
  }

  /** No run, and so no observation and no entity, is listed twice. */
  lemma {:induction false} RunsDiffer(polls: seq<seq<Raw>>, i: nat, j: nat)
    requires AllUnique(polls) && i < j < |Runs(polls)|
    ensures Runs(polls)[i] != Runs(polls)[j]
    decreases |polls|
  {
    var n := |polls| - 1;
    var before := polls[..n];
    var m := |Runs(before)|;
    if j < m {
      RunsDiffer(before, i, j);
    } else if i < m {
      RunsCounted(before, Runs(before)[i]);
      StartsCounted(before, polls[n], StartsIn(before, polls[n])[j - m]);
    } else {
      StartsDiffer(before, polls[n], i - m, j - m);
    }
  }

  lemma {:induction false} StartsDiffer(before: seq<seq<Raw>>, samples: seq<Raw>, i: nat, j: nat)
    requires Unique(samples) && i < j < |StartsIn(before, samples)|
    ensures StartsIn(before, samples)[i] != StartsIn(before, samples)[j]
  {
    var n := |samples| - 1;
    var fewer := StartsIn(before, samples[..n]);
    if j < |fewer| {
      StartsDiffer(before, samples[..n], i, j);
    } else {
      StartsCounted(before, samples[..n], fewer[i]);
    }
  }
}
