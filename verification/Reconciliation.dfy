/**
 * Reconciliations of any number of connectors, several of one connector included, interleaved at every store call.
 * Each tuple belongs to one connector, and a failing call counts as a call on the part that took effect, followed by
 * the failure.
 */
module Reconciliation {
  import opened Tuples
  import opened Connectors

  type Owner = Tuple -> string

  /**
   * A sync under way: what is still to add and to remove, what the connector had in the store at its start, and
   * whether no other sync of the connector wrote since.
   */
  datatype Job = Job(
    c: string, desired: set<Tuple>, previous: set<Tuple>, add: set<Tuple>, remove: set<Tuple>, start: set<Tuple>,
    alone: bool)

  datatype State = State(store: set<Tuple>, saved: map<string, set<Tuple>>, jobs: map<nat, Job>)

  datatype Event =
    | Begin(k: nat, c: string, desired: set<Tuple>)
    | Write(k: nat, chunk: set<Tuple>)
    | Delete(k: nat, chunk: set<Tuple>)
    | Finish(k: nat)
    | Fail(k: nat)

  function Own(owner: Owner, store: set<Tuple>, c: string): set<Tuple> {
    set t | t in store && owner(t) == c
  }

  predicate Owned(owner: Owner, tuples: set<Tuple>, c: string) {
    forall t :: t in tuples ==> owner(t) == c
  }

  predicate Enabled(owner: Owner, s: State, e: Event) {
    match e
    case Begin(k, c, desired) => k !in s.jobs && Owned(owner, desired, c)
    case Write(k, chunk) => k in s.jobs && chunk <= s.jobs[k].add
    case Delete(k, chunk) => k in s.jobs && s.jobs[k].add == {} && chunk <= s.jobs[k].remove
    case Finish(k) => k in s.jobs && s.jobs[k].add == {} && s.jobs[k].remove == {}
    case Fail(k) => k in s.jobs
  }

  /** The connector whose sync takes the step. */
  function Actor(owner: Owner, s: State, e: Event): string
    requires Enabled(owner, s, e)
  {
    if e.Begin? then e.c else s.jobs[e.k].c
  }

  /** The other syncs of the connector are no longer alone. */
  function Crowded(jobs: map<nat, Job>, k: nat): map<nat, Job>
    requires k in jobs
  {
    map j | j in jobs :: if j != k && jobs[j].c == jobs[k].c then jobs[j].(alone := false) else jobs[j]
  }

  function Apply(owner: Owner, s: State, e: Event): State
    requires Enabled(owner, s, e)
  {
    match e
    case Begin(k, c, desired) =>
      var p := Baseline(s.saved, c);
      s.(jobs := s.jobs[k := Job(c, desired, p, desired - p, p - desired, Own(owner, s.store, c), true)])
    case Write(k, chunk) =>
      var j := s.jobs[k];
      s.(store := s.store + chunk, jobs := Crowded(s.jobs, k)[k := j.(add := j.add - chunk)])
    case Delete(k, chunk) =>
      var j := s.jobs[k];
      s.(store := s.store - chunk, jobs := Crowded(s.jobs, k)[k := j.(remove := j.remove - chunk)])
    case Finish(k) =>
      s.(saved := s.saved[s.jobs[k].c := s.jobs[k].desired], jobs := Crowded(s.jobs, k) - {k})
    case Fail(k) => s.(jobs := s.jobs - {k})
  }

  predicate IsRun(owner: Owner, states: seq<State>, events: seq<Event>) {
    && |states| == |events| + 1
    && forall i :: 0 <= i < |events| ==>
         Enabled(owner, states[i], events[i]) && states[i + 1] == Apply(owner, states[i], events[i])
  }

  // ---- Invariant ---------------------------------------------------------------------------

  /** A sync works on the difference it computed at its start. */
  predicate JobOk(owner: Owner, j: Job) {
    && Owned(owner, j.desired, j.c) && Owned(owner, j.previous, j.c)
    && j.add <= j.desired - j.previous
    && j.remove <= j.previous - j.desired
  }

  /** A sync that is alone has applied exactly the part of its difference that is not left, on what it found. */
  predicate Progress(owner: Owner, store: set<Tuple>, saved: map<string, set<Tuple>>, j: Job) {
    j.alone ==>
      && j.previous == Baseline(saved, j.c)
      && Own(owner, store, j.c)
         == (j.start + (j.desired - j.previous - j.add)) - (j.previous - j.desired - j.remove)
  }

  ghost predicate Inv(owner: Owner, s: State) {
    && (forall c :: Owned(owner, Baseline(s.saved, c), c))
    && forall k :: k in s.jobs ==> JobOk(owner, s.jobs[k]) && Progress(owner, s.store, s.saved, s.jobs[k])
  }

  /** No step touches another connector's tuples, baseline or syncs. */
  lemma OthersUntouched(owner: Owner, s: State, e: Event, c: string)
    requires Inv(owner, s) && Enabled(owner, s, e) && c != Actor(owner, s, e)
    ensures var after := Apply(owner, s, e);
            && Own(owner, after.store, c) == Own(owner, s.store, c)
            && Baseline(after.saved, c) == Baseline(s.saved, c)
            && forall k :: k in after.jobs && after.jobs[k].c == c ==> k in s.jobs && after.jobs[k] == s.jobs[k]
  {
    if !e.Begin? {
      assert JobOk(owner, s.jobs[e.k]);
    }
  }

  /** The sync that takes the step keeps its account. */
  lemma ActingJobKept(owner: Owner, s: State, e: Event)
    requires Inv(owner, s) && Enabled(owner, s, e) && e.k in Apply(owner, s, e).jobs
    ensures var after := Apply(owner, s, e);
            JobOk(owner, after.jobs[e.k]) && Progress(owner, after.store, after.saved, after.jobs[e.k])
  {
    var after := Apply(owner, s, e);
    var j := after.jobs[e.k];
    match e
    case Begin(k, c, desired) =>
      assert j.desired - j.previous - j.add == {} == j.previous - j.desired - j.remove;
    case Write(k, chunk) =>
      var i := s.jobs[k];
      assert JobOk(owner, i) && Progress(owner, s.store, s.saved, i);
      assert Own(owner, after.store, i.c) == Own(owner, s.store, i.c) + chunk;
      assert i.desired - i.previous - (i.add - chunk) == (i.desired - i.previous - i.add) + chunk;
      assert chunk !! (i.previous - i.desired - i.remove);
    case Delete(k, chunk) =>
      var i := s.jobs[k];
      assert JobOk(owner, i) && Progress(owner, s.store, s.saved, i);
      assert Own(owner, after.store, i.c) == Own(owner, s.store, i.c) - chunk;
      assert i.previous - i.desired - (i.remove - chunk) == (i.previous - i.desired - i.remove) + chunk;
  }

  lemma OtherJobKept(owner: Owner, s: State, e: Event, k: nat)
    requires Inv(owner, s) && Enabled(owner, s, e) && k in Apply(owner, s, e).jobs && k != e.k
    ensures var after := Apply(owner, s, e);
            JobOk(owner, after.jobs[k]) && Progress(owner, after.store, after.saved, after.jobs[k])
  {
    var j := s.jobs[k];
    assert JobOk(owner, j) && Progress(owner, s.store, s.saved, j);
    if j.c != Actor(owner, s, e) {
      OthersUntouched(owner, s, e, j.c);
    }
  }

  lemma StepKeeps(owner: Owner, s: State, e: Event)
    requires Inv(owner, s) && Enabled(owner, s, e)
    ensures Inv(owner, Apply(owner, s, e))
  {
    var after := Apply(owner, s, e);
    forall k | k in after.jobs
      ensures JobOk(owner, after.jobs[k]) && Progress(owner, after.store, after.saved, after.jobs[k])
    {
      if k == e.k {
        ActingJobKept(owner, s, e);
      } else {
        OtherJobKept(owner, s, e, k);
      }
    }
    forall c
      ensures Owned(owner, Baseline(after.saved, c), c)
    {
      assert Owned(owner, Baseline(s.saved, c), c);
      assert e.Finish? ==> JobOk(owner, s.jobs[e.k]);
    }
  }

  lemma {:induction false} RunKeeps(owner: Owner, states: seq<State>, events: seq<Event>, n: nat)
    requires IsRun(owner, states, events) && Inv(owner, states[0]) && n <= |events|
    ensures Inv(owner, states[n])
  {
    if n == 0 {
    } else {
      RunKeeps(owner, states, events, n - 1);
      StepKeeps(owner, states[n - 1], events[n - 1]);
    }
  }

  // ---- When a sync leaves the snapshot -----------------------------------------------------

  /** Against the baseline: nothing in the store that `desired` does not want, nothing missing that it wants. */
  predicate Harmless(own: set<Tuple>, previous: set<Tuple>, desired: set<Tuple>) {
    own - previous <= desired && (previous - own) !! desired
  }

  /** A sync that completes alone leaves exactly its snapshot if and only if the drift it started from was harmless. */
  lemma FinishIsExactIff(owner: Owner, s: State, k: nat)
    requires Inv(owner, s) && Enabled(owner, s, Finish(k)) && s.jobs[k].alone
    ensures var j, after := s.jobs[k], Apply(owner, s, Finish(k));
            && Baseline(after.saved, j.c) == j.desired
            && (Own(owner, after.store, j.c) == j.desired <==> Harmless(j.start, j.previous, j.desired))
  {
    DifferenceIsExactIff(s.jobs[k].start, s.jobs[k].previous, s.jobs[k].desired);
  }

  lemma DifferenceIsExactIff(own: set<Tuple>, previous: set<Tuple>, desired: set<Tuple>)
    ensures (own + (desired - previous)) - (previous - desired) == desired <==> Harmless(own, previous, desired)
  {
    var result := (own + (desired - previous)) - (previous - desired);
    if result == desired {
      forall t | t in own - previous
        ensures t in desired
      {
        assert t in result;
      }
      forall t | t in previous - own
        ensures t !in desired
      {
        assert t !in result;
      }
    }
  }

  // ---- Retrying ----------------------------------------------------------------------------

  /** Every sync of `c` in the run takes the same snapshot. */
  predicate SameSnapshot(events: seq<Event>, c: string, desired: set<Tuple>) {
    forall i :: 0 <= i < |events| && events[i].Begin? && events[i].c == c ==> events[i].desired == desired
  }

  /** A sync towards `desired` beside others towards it: nothing it wants is lost, nothing it removed comes back. */
  predicate Heading(own: set<Tuple>, baseline: set<Tuple>, desired: set<Tuple>, j: Job) {
    && j.desired == desired
    && desired - j.add <= own
    && (j.previous - desired - j.remove) !! own
    && (baseline == j.previous || baseline == desired)
  }

  /** While `c` only takes one snapshot, its drift is harmless for it, in, between and across its syncs. */
  predicate Converging(owner: Owner, s: State, c: string, desired: set<Tuple>) {
    var own, baseline := Own(owner, s.store, c), Baseline(s.saved, c);
    && Harmless(own, baseline, desired)
    && forall k :: k in s.jobs && s.jobs[k].c == c ==> Heading(own, baseline, desired, s.jobs[k])
  }

  /** The sync that completes finds exactly the snapshot, whatever other syncs towards it are under way. */
  lemma FinishesExact(owner: Owner, s: State, k: nat, desired: set<Tuple>)
    requires Inv(owner, s) && Enabled(owner, s, Finish(k)) && Converging(owner, s, s.jobs[k].c, desired)
    ensures Own(owner, s.store, s.jobs[k].c) == desired
  {
    var j := s.jobs[k];
    var own, baseline := Own(owner, s.store, j.c), Baseline(s.saved, j.c);
    assert Heading(own, baseline, desired, j);
    assert forall t :: t in own ==> t in baseline || t in desired;
  }

  lemma ConvergingBegin(owner: Owner, s: State, e: Event, desired: set<Tuple>)
    requires Inv(owner, s) && Enabled(owner, s, e) && e.Begin? && e.desired == desired
    requires Converging(owner, s, e.c, desired)
    ensures Converging(owner, Apply(owner, s, e), e.c, desired)
  {
    var own, baseline := Own(owner, s.store, e.c), Baseline(s.saved, e.c);
    assert desired - (desired - baseline) <= own;
  }

  lemma ConvergingWork(owner: Owner, s: State, e: Event, desired: set<Tuple>)
    requires Inv(owner, s) && Enabled(owner, s, e) && (e.Write? || e.Delete?)
    requires Converging(owner, s, s.jobs[e.k].c, desired)
    ensures Converging(owner, Apply(owner, s, e), s.jobs[e.k].c, desired)
  {
    var i, after := s.jobs[e.k], Apply(owner, s, e);
    var own, baseline := Own(owner, s.store, i.c), Baseline(s.saved, i.c);
    assert JobOk(owner, i) && Heading(own, baseline, desired, i);
    var now := Own(owner, after.store, i.c);
    assert now == if e.Write? then own + e.chunk else own - e.chunk;
    assert e.Write? ==> e.chunk <= desired;
    assert e.Delete? ==> e.chunk !! desired;
    forall k | k in after.jobs && after.jobs[k].c == i.c
      ensures Heading(now, baseline, desired, after.jobs[k])
    {
      assert Heading(own, baseline, desired, s.jobs[k]);
    }
  }

  lemma ConvergingFinish(owner: Owner, s: State, e: Event, desired: set<Tuple>)
    requires Inv(owner, s) && Enabled(owner, s, e) && e.Finish? && Converging(owner, s, s.jobs[e.k].c, desired)
    ensures Converging(owner, Apply(owner, s, e), s.jobs[e.k].c, desired)
  {
    var c, after := s.jobs[e.k].c, Apply(owner, s, e);
    var own, baseline := Own(owner, s.store, c), Baseline(s.saved, c);
    FinishesExact(owner, s, e.k, desired);
    assert Heading(own, baseline, desired, s.jobs[e.k]);
    forall k | k in after.jobs && after.jobs[k].c == c
      ensures Heading(own, desired, desired, after.jobs[k])
    {
      assert Heading(own, baseline, desired, s.jobs[k]);
    }
  }

  lemma ConvergingStep(owner: Owner, s: State, e: Event, c: string, desired: set<Tuple>)
    requires Inv(owner, s) && Enabled(owner, s, e) && Converging(owner, s, c, desired)
    requires e.Begin? && e.c == c ==> e.desired == desired
    ensures Converging(owner, Apply(owner, s, e), c, desired)
  {
    if Actor(owner, s, e) != c {
      OthersUntouched(owner, s, e, c);
    } else if e.Begin? {
      ConvergingBegin(owner, s, e, desired);
    } else if e.Write? || e.Delete? {
      ConvergingWork(owner, s, e, desired);
    } else if e.Finish? {
      ConvergingFinish(owner, s, e, desired);
    }
  }

  /** No sync of `c` is under way and the store agrees with its baseline. */
  predicate Settled(owner: Owner, s: State, c: string) {
    (forall k :: k in s.jobs ==> s.jobs[k].c != c) && Own(owner, s.store, c) == Baseline(s.saved, c)
  }

  lemma {:induction false} ConvergingRun(
    owner: Owner, states: seq<State>, events: seq<Event>, c: string, desired: set<Tuple>, n: nat)
    requires IsRun(owner, states, events) && Inv(owner, states[0]) && n <= |events|
    requires Settled(owner, states[0], c) && SameSnapshot(events, c, desired)
    ensures Converging(owner, states[n], c, desired)
  {
    if n == 0 {
    } else {
      ConvergingRun(owner, states, events, c, desired, n - 1);
      RunKeeps(owner, states, events, n - 1);
      ConvergingStep(owner, states[n - 1], events[n - 1], c, desired);
    }
  }

  /**
   * From a store that agrees with the baseline, in every interleaving with the other connectors and with further syncs
   * of the same snapshot, and after any number of attempts that failed anywhere, each attempt that completes leaves
   * exactly the snapshot.
   */
  lemma RetryConverges(
    owner: Owner, states: seq<State>, events: seq<Event>, c: string, desired: set<Tuple>, n: nat)
    requires IsRun(owner, states, events) && Inv(owner, states[0]) && n < |events|
    requires Settled(owner, states[0], c) && SameSnapshot(events, c, desired)
    requires events[n].Finish? && events[n].k in states[n].jobs && states[n].jobs[events[n].k].c == c
    ensures Own(owner, states[n + 1].store, c) == desired == Baseline(states[n + 1].saved, c)
  {
    RunKeeps(owner, states, events, n);
    ConvergingRun(owner, states, events, c, desired, n);
    FinishesExact(owner, states[n], events[n].k, desired);
    assert Heading(Own(owner, states[n].store, c), Baseline(states[n].saved, c), desired, states[n].jobs[events[n].k]);
  }

  /** A tuple that neither the baseline nor any sync under way knows. */
  predicate Stray(owner: Owner, s: State, t: Tuple) {
    && t in s.store && t !in Baseline(s.saved, owner(t))
    && forall k :: k in s.jobs && s.jobs[k].c == owner(t) ==> t !in s.jobs[k].desired && t !in s.jobs[k].previous
  }

  lemma StrayStep(owner: Owner, s: State, e: Event, t: Tuple)
    requires Inv(owner, s) && Enabled(owner, s, e) && Stray(owner, s, t)
    requires e.Begin? && e.c == owner(t) ==> t !in e.desired
    ensures Stray(owner, Apply(owner, s, e), t)
  {
    if Actor(owner, s, e) != owner(t) {
      assert t in Own(owner, s.store, owner(t));
      OthersUntouched(owner, s, e, owner(t));
      assert t in Own(owner, Apply(owner, s, e).store, owner(t));
    } else if !e.Begin? {
      assert JobOk(owner, s.jobs[e.k]);
    }
  }

  /** A stray tuple that no later snapshot wants is never removed again. */
  lemma {:induction false} StrayStays(
    owner: Owner, states: seq<State>, events: seq<Event>, t: Tuple, i: nat, n: nat)
    requires IsRun(owner, states, events) && Inv(owner, states[0]) && i <= n <= |events| && Stray(owner, states[i], t)
    requires forall k :: i <= k < n && events[k].Begin? && events[k].c == owner(t) ==> t !in events[k].desired
    ensures Stray(owner, states[n], t)
    decreases n
  {
    if i == n {
    } else {
      StrayStays(owner, states, events, t, i, n - 1);
      RunKeeps(owner, states, events, n - 1);
      StrayStep(owner, states[n - 1], events[n - 1], t);
    }
  }

  const EMPTY := State({}, map[], map[])

  /** The run from the empty state, if every event is possible when its turn comes. */
  ghost predicate Leads(owner: Owner, events: seq<Event>, final: State) {
    exists states: seq<State> :: IsRun(owner, states, events) && states[0] == EMPTY && states[|events|] == final
  }

  lemma LeadsOn(owner: Owner, events: seq<Event>, s: State, e: Event)
    requires Leads(owner, events, s) && Enabled(owner, s, e)
    ensures Leads(owner, events + [e], Apply(owner, s, e))
  {
    var states :| IsRun(owner, states, events) && states[0] == EMPTY && states[|events|] == s;
    assert IsRun(owner, states + [Apply(owner, s, e)], events + [e]);
  }

  /** A sync of `{t}` that has written `t`. */
  function Wrote(owner: Owner, t: Tuple): State {
    State({t}, map[], map[0 := Job(owner(t), {t}, {}, {}, {}, {}, true)])
  }

  lemma LeadsToWrote(owner: Owner, t: Tuple)
    ensures Leads(owner, [Begin(0, owner(t), {t}), Write(0, {t})], Wrote(owner, t))
  {
    var c := owner(t);
    var none: set<Tuple> := {};
    assert {t} - none == {t} && none - {t} == none && Own(owner, none, c) == none;
    var begun := State({}, map[], map[0 := Job(c, {t}, {}, {t}, {}, {}, true)]);
    assert Apply(owner, EMPTY, Begin(0, c, {t})) == begun;
    assert none + {t} == {t} && {t} - {t} == none;
    assert Apply(owner, begun, Write(0, {t})).jobs == Wrote(owner, t).jobs;
    assert Apply(owner, begun, Write(0, {t})) == Wrote(owner, t);
    assert IsRun(owner, [EMPTY, begun, Wrote(owner, t)], [Begin(0, c, {t}), Write(0, {t})]);
  }

  /** The store keeps `t`; the baseline and every sync forget it. */
  function Forgotten(c: string, t: Tuple): State {
    State({t}, map[c := {}], map[])
  }

  /** A failed sync followed by one of a smaller snapshot leaves a stray tuple. */
  lemma ChangedSnapshotNeedNotConverge(owner: Owner, t: Tuple)
    ensures var c := owner(t);
            && Leads(owner, [Begin(0, c, {t}), Write(0, {t}), Fail(0), Begin(1, c, {}), Finish(1)], Forgotten(c, t))
            && Stray(owner, Forgotten(c, t), t)
  {
    var c, s := owner(t), Wrote(owner, t);
    LeadsToWrote(owner, t);
    var failed := State({t}, map[], map[]);
    assert Apply(owner, s, Fail(0)) == failed;
    LeadsOn(owner, [Begin(0, c, {t}), Write(0, {t})], s, Fail(0));
    var begun := State({t}, map[], map[1 := Job(c, {}, {}, {}, {}, {t}, true)]);
    var none: set<Tuple> := {};
    assert none - none == none && Own(owner, {t}, c) == {t};
    assert Apply(owner, failed, Begin(1, c, {})) == begun;
    LeadsOn(owner, [Begin(0, c, {t}), Write(0, {t}), Fail(0)], failed, Begin(1, c, {}));
    assert Apply(owner, begun, Finish(1)) == Forgotten(c, t);
    LeadsOn(owner, [Begin(0, c, {t}), Write(0, {t}), Fail(0), Begin(1, c, {})], begun, Finish(1));
  }

  /** Beside the sync that wrote `t`, one of the empty snapshot has begun. */
  lemma LeadsToBoth(owner: Owner, t: Tuple)
    ensures var s := Wrote(owner, t);
            var second := Job(owner(t), {}, {}, {}, {}, {t}, true);
            var both := s.(jobs := s.jobs[1 := second]);
            Leads(owner, [Begin(0, owner(t), {t}), Write(0, {t}), Begin(1, owner(t), {})], both)
  {
    var c, s := owner(t), Wrote(owner, t);
    LeadsToWrote(owner, t);
    LeadsOn(owner, [Begin(0, c, {t}), Write(0, {t})], s, Begin(1, c, {}));
    var none: set<Tuple> := {};
    assert none - none == none && Own(owner, {t}, c) == {t};
    assert Apply(owner, s, Begin(1, c, {})) == s.(jobs := s.jobs[1 := Job(c, {}, {}, {}, {}, {t}, true)]);
  }

  /** So do two overlapping syncs of different snapshots, without any failure. */
  lemma OverlapNeedNotConverge(owner: Owner, t: Tuple)
    ensures var c := owner(t);
            && Leads(owner, [Begin(0, c, {t}), Write(0, {t}), Begin(1, c, {}), Finish(0), Finish(1)], Forgotten(c, t))
            && Stray(owner, Forgotten(c, t), t)
  {
    var c := owner(t);
    LeadsToBoth(owner, t);
    var first, second := Job(c, {t}, {}, {}, {}, {}, true), Job(c, {}, {}, {}, {}, {t}, true);
    var both := State({t}, map[], map[0 := first, 1 := second]);
    assert both == Wrote(owner, t).(jobs := Wrote(owner, t).jobs[1 := second]);
    LeadsOn(owner, [Begin(0, c, {t}), Write(0, {t}), Begin(1, c, {})], both, Finish(0));
    var one := State({t}, map[c := {t}], map[1 := second.(alone := false)]);
    assert Apply(owner, both, Finish(0)) == one;
    LeadsOn(owner, [Begin(0, c, {t}), Write(0, {t}), Begin(1, c, {}), Finish(0)], one, Finish(1));
    assert Apply(owner, one, Finish(1)) == Forgotten(c, t);
  }

  /** Every outcome of a single reconciliation is a run of its sync's steps. */
  lemma AttemptIsRun(
    owner: Owner, s: State, k: nat, c: string, desired: set<Tuple>, after: set<Tuple>,
    added: set<Tuple>, removed: set<Tuple>, completes: bool)
    requires k !in s.jobs && Owned(owner, desired, c)
    requires Attempt(s.store, Baseline(s.saved, c), desired, after, added, removed)
    requires completes ==> added == desired - Baseline(s.saved, c) && removed == Baseline(s.saved, c) - desired
    ensures exists states: seq<State>, events: seq<Event> ::
              && IsRun(owner, states, events) && states[0] == s
              && (forall i :: 0 <= i < |events| ==> events[i].k == k)
              && states[|events|].store == after
              && states[|events|].saved == (if completes then s.saved[c := desired] else s.saved)
              && k !in states[|events|].jobs
  {
    var s1 := Apply(owner, s, Begin(k, c, desired));
    var s2 := Apply(owner, s1, Write(k, added));
    if removed == {} && !completes {
      var s3 := Apply(owner, s2, Fail(k));
      assert IsRun(owner, [s, s1, s2, s3], [Begin(k, c, desired), Write(k, added), Fail(k)]);
    } else {
      var end := if completes then Finish(k) else Fail(k);
      var s3 := Apply(owner, s2, Delete(k, removed));
      var s4 := Apply(owner, s3, end);
      assert IsRun(owner, [s, s1, s2, s3, s4], [Begin(k, c, desired), Write(k, added), Delete(k, removed), end]);
    }
  }
}
