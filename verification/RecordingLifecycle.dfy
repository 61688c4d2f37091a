// Runs of the recording scheduler: the life of each schedule, and how exact the
// priority queue is.
module RecordingLifecycle {
  import opened Models
  import opened Recordings
  import opened RecordingProperties

  // Runs

  // Schedules loaded from disk are neither being recorded nor waiting.
  ghost predicate Initial(s: State) {
    && s.recorders == map[]
    && (forall id | id in s.schedules ::
        && s.schedules[id].program.id == id
        && s.schedules[id].program.startAt.Some?
        && (s.schedules[id].state.IsReady() || s.schedules[id].state.Rescheduling?))
    && HistoryOk(s.history)
    && Timed(s.schedules)
    && s.queue == multiset(ReadyItems(s.schedules))
  }

  lemma InitialInv(s: State)
    requires Initial(s)
    ensures Inv(s) && QueueExact(s)
  {
    forall id | id in s.schedules ensures ScheduleOk(s, id) {}
    RebuiltKeeps(s);
    assert Rebuilt(s) == s;
  }

  ghost predicate AllAdmissible(s: State, ms: seq<Msg>)
    requires Inv(s) && Timed(s.schedules)
    decreases |ms|
  {
    ms == [] ||
    (Admissible(s, ms[0]) && (StepKeepsInv(s, ms[0]); AllAdmissible(Step(s, ms[0]).state, ms[1..])))
  }

  ghost function Run(s: State, ms: seq<Msg>): (r: State)
    requires Inv(s) && Timed(s.schedules) && AllAdmissible(s, ms)
    ensures Inv(r) && Timed(r.schedules)
    decreases |ms|
  {
    if ms == [] then s
    else
      StepKeepsInv(s, ms[0]);
      Run(Step(s, ms[0]).state, ms[1..])
  }

  // The messages are well-formed and the invariant holds after each of them.
  ghost predicate HoldsThroughout(s: State, ms: seq<Msg>)
    decreases |ms|
  {
    && Inv(s)
    && (ms == [] || (InvIsTimed(s); WellFormed(s, ms[0]) && HoldsThroughout(Step(s, ms[0]).state, ms[1..])))
  }

  // Only adding a schedule for a program with a left-over recorder ever breaks
  // the invariant.
  lemma {:induction false} HoldsThroughoutIff(s: State, ms: seq<Msg>)
    requires Inv(s) && Timed(s.schedules)
    ensures HoldsThroughout(s, ms) <==> AllAdmissible(s, ms)
    decreases |ms|
  {
    if ms != [] && WellFormed(s, ms[0]) {
      StepKeepsInvIff(s, ms[0]);
      if Admissible(s, ms[0]) {
        StepKeepsInv(s, ms[0]);
        HoldsThroughoutIff(Step(s, ms[0]).state, ms[1..]);
      }
    }
  }

  // After any run: a scheduled program is being recorded exactly if it has a
  // recorder, every schedule has a start time, a waiting one has the reason of
  // its refusal, finished ones are only in the history, and the queue holds
  // distinct ready programs without a recorder.
  lemma EveryRun(s: State, ms: seq<Msg>)
    requires Initial(s) && Inv(s) && AllAdmissible(s, ms)
    ensures
      var r := Run(s, ms);
      && (forall id | id in r.schedules ::
          && r.schedules[id].program.id == id
          && r.schedules[id].program.startAt.Some?
          && (r.schedules[id].state.Recording? <==> id in r.recorders)
          && (r.schedules[id].state.Waiting? ==> r.schedules[id].failure.Some?)
          && !r.schedules[id].state.IsDone())
      && (forall c | c in r.history :: c.state.IsDone())
      && (forall it | it in r.queue ::
          && r.queue[it] == 1
          && it.id in r.schedules
          && r.schedules[it.id].state.IsReady()
          && it.id !in r.recorders)
  {
    var r := Run(s, ms);
    forall id | id in r.schedules ensures ScheduleOk(r, id) {}
  }

  // Lifecycle

  // The transitions documented for `RecordingScheduleState`.
  predicate Documented(a: ScheduleState, b: ScheduleState) {
    match a
    case Scheduled => b.Waiting? || b.Tracking? || b.Recording? || b.Rescheduling? || b.Failed?
    case Tracking => b.Scheduled? || b.Waiting? || b.Recording? || b.Rescheduling? || b.Failed?
    case Waiting => b.Scheduled? || b.Tracking? || b.Failed?
    case Recording => b.Rescheduling? || b.Finished? || b.Failed?
    case Rescheduling => b.Scheduled? || b.Tracking? || b.Failed?
    case Finished | Failed => false
  }

  ghost function Touched(a: State, b: State): set<ProgramId> {
    set id | id in a.schedules && (id !in b.schedules || a.schedules[id].state != b.schedules[id].state)
  }

  predicate StateStep(a: ScheduleState, b: ScheduleState) { a == b || Documented(a, b) }

  ghost predicate ArrivalOk(a: State, h: Schedule) {
    && h.program.id in a.schedules
    && h.state.IsDone()
    && Documented(a.schedules[h.program.id].state, h.state)
  }

  function Ids(left: seq<Schedule>): seq<ProgramId> {
    seq(|left|, i requires 0 <= i < |left| => left[i].program.id)
  }

  // From `a` to `b` each schedule takes at most one documented transition, and
  // those that leave are exactly those that enter the history, each once.
  ghost predicate Flow(a: State, b: State, left: seq<Schedule>) {
    && b.history == a.history + left
    && b.schedules.Keys <= a.schedules.Keys
    && (forall id | id in b.schedules :: StateStep(a.schedules[id].state, b.schedules[id].state))
    && (forall h | h in left :: ArrivalOk(a, h))
    && multiset(Ids(left)) == multiset(a.schedules.Keys - b.schedules.Keys)
  }

  lemma IdsOfSum(f: seq<Schedule>, g: seq<Schedule>)
    ensures multiset(Ids(f + g)) == multiset(Ids(f)) + multiset(Ids(g))
  {
    assert Ids(f + g) == Ids(f) + Ids(g);
  }

  lemma SplitKeys(a: set<ProgramId>, b: set<ProgramId>, c: set<ProgramId>)
    requires c <= b <= a
    ensures multiset(a - c) == multiset(a - b) + multiset(b - c)
  {
  }

  lemma InIds(left: seq<Schedule>, h: Schedule)
    requires h in left
    ensures h.program.id in multiset(Ids(left))
  {
    var i :| 0 <= i < |left| && left[i] == h;
    assert Ids(left)[i] == h.program.id;
    assert Ids(left)[i] in multiset(Ids(left));
  }

  // A schedule that changes on the way to `b` does not change again.
  ghost predicate ChangeOnce(a: State, b: State, c: State)
    requires c.schedules.Keys <= b.schedules.Keys <= a.schedules.Keys
  {
    forall id | id in b.schedules ::
      a.schedules[id].state == b.schedules[id].state ||
      (id in c.schedules && c.schedules[id].state == b.schedules[id].state)
  }

  lemma TouchedCompose(a: State, b: State, c: State)
    requires c.schedules.Keys <= b.schedules.Keys <= a.schedules.Keys
    requires Touched(a, b) !! Touched(b, c)
    ensures ChangeOnce(a, b, c)
    ensures Touched(a, c) <= Touched(a, b) + Touched(b, c)
  {
    forall id | id in b.schedules
      ensures a.schedules[id].state == b.schedules[id].state ||
        (id in c.schedules && c.schedules[id].state == b.schedules[id].state)
    {
      assert id !in Touched(a, b) || id !in Touched(b, c);
    }
  }

  lemma LeaversCompose(a: set<ProgramId>, b: set<ProgramId>, c: set<ProgramId>, f: seq<Schedule>, g: seq<Schedule>)
    requires c <= b <= a
    requires multiset(Ids(f)) == multiset(a - b) && multiset(Ids(g)) == multiset(b - c)
    ensures multiset(Ids(f + g)) == multiset(a - c)
  {
    IdsOfSum(f, g);
    SplitKeys(a, b, c);
  }

  lemma ArrivalsCompose(a: State, b: State, c: State, f: seq<Schedule>, g: seq<Schedule>)
    requires c.schedules.Keys <= b.schedules.Keys <= a.schedules.Keys && ChangeOnce(a, b, c)
    requires forall h | h in f :: ArrivalOk(a, h)
    requires forall h | h in g :: ArrivalOk(b, h)
    requires multiset(Ids(g)) == multiset(b.schedules.Keys - c.schedules.Keys)
    ensures forall h | h in f + g :: ArrivalOk(a, h)
  {
    forall h | h in g ensures ArrivalOk(a, h) {
      InIds(g, h);
      assert h.program.id in multiset(b.schedules.Keys - c.schedules.Keys);
      assert ArrivalOk(b, h);
    }
  }

  lemma FlowCompose(a: State, b: State, c: State, f: seq<Schedule>, g: seq<Schedule>)
    requires Flow(a, b, f) && Flow(b, c, g) && ChangeOnce(a, b, c)
    ensures Flow(a, c, f + g)
  {
    AppendAssociative(a.history, f, g);
    ArrivalsCompose(a, b, c, f, g);
    LeaversCompose(a.schedules.Keys, b.schedules.Keys, c.schedules.Keys, f, g);
  }

  lemma SameFlow(a: State, b: State)
    requires b.history == a.history && b.schedules == a.schedules
    ensures Flow(a, b, []) && Touched(a, b) == {}
  {
    assert multiset(a.schedules.Keys - b.schedules.Keys) == multiset{};
  }

  // One schedule changes its state.
  lemma OneChanges(a: State, b: State, id: ProgramId)
    requires id in a.schedules && b.history == a.history
    requires b.schedules.Keys == a.schedules.Keys
    requires forall other | other != id && other in a.schedules :: b.schedules[other].state == a.schedules[other].state
    requires StateStep(a.schedules[id].state, b.schedules[id].state)
    ensures Flow(a, b, []) && Touched(a, b) <= {id}
  {
    assert a.schedules.Keys - b.schedules.Keys == {};
  }

  // One schedule leaves for the history.
  lemma OneLeaves(a: State, b: State, id: ProgramId, h: Schedule)
    requires id in a.schedules && b.history == a.history + [h]
    requires b.schedules.Keys == a.schedules.Keys - {id}
    requires forall other | other in b.schedules :: b.schedules[other].state == a.schedules[other].state
    requires h.program.id == id && ArrivalOk(a, h)
    ensures Flow(a, b, [h]) && Touched(a, b) <= {id}
  {
    assert a.schedules.Keys - b.schedules.Keys == {id};
    assert Ids([h]) == [id];
  }

  lemma StartFlows(s: State, id: ProgramId, o: StartOutcome) returns (left: seq<Schedule>)
    requires id in s.schedules && s.schedules[id].program.id == id && s.schedules[id].state.IsReady()
    ensures Flow(s, ApplyStart(s, id, o).0, left)
    ensures Touched(s, ApplyStart(s, id, o).0) <= {id}
  {
    var s' := ApplyStart(s, id, o).0;
    if id in s'.schedules {
      left := [];
      OneChanges(s, s', id);
    } else {
      left := [s.schedules[id].(state := Failed, failure := Some(StartRecordingFailed))];
      OneLeaves(s, s', id, left[0]);
    }
  }

  ghost function PickedIds(picked: seq<QueueItem>): set<ProgramId> {
    set i | 0 <= i < |picked| :: picked[i].id
  }

  lemma {:induction false} StartAllFlows(s: State, picked: seq<QueueItem>, outcomes: seq<StartOutcome>)
    returns (left: seq<Schedule>)
    requires |picked| == |outcomes| && Inv(s) && AllStartable(s, picked)
    ensures Flow(s, StartAll(s, picked, outcomes).0, left)
    ensures Touched(s, StartAll(s, picked, outcomes).0) <= PickedIds(picked)
    decreases |picked|
  {
    if picked == [] {
      left := [];
      SameFlow(s, s);
    } else {
      var s1, f := StartFirst(s, picked, outcomes);
      var g := StartAllFlows(s1, picked[1..], outcomes[1..]);
      var s2 := StartAll(s1, picked[1..], outcomes[1..]).0;
      RestOfPicked(picked);
      TouchedCompose(s, s1, s2);
      FlowCompose(s, s1, s2, f, g);
      left := f + g;
    }
  }

  lemma RestOfPicked(picked: seq<QueueItem>)
    requires picked != []
    ensures PickedIds(picked) == {picked[0].id} + PickedIds(picked[1..])
    ensures (forall i, j | 0 <= i < j < |picked| :: picked[i].id != picked[j].id) ==>
      picked[0].id !in PickedIds(picked[1..])
  {
    assert picked == [picked[0]] + picked[1..];
    forall id | id in PickedIds(picked) ensures id in {picked[0].id} + PickedIds(picked[1..]) {
      var i :| 0 <= i < |picked| && picked[i].id == id;
      if i > 0 { assert picked[1..][i - 1].id == id; }
    }
    forall id | id in PickedIds(picked[1..]) ensures id in PickedIds(picked) {
      var i :| 0 <= i < |picked[1..]| && picked[1..][i].id == id;
      assert picked[i + 1].id == id;
    }
    if forall i, j | 0 <= i < j < |picked| :: picked[i].id != picked[j].id {
      forall id | id in PickedIds(picked[1..]) ensures id != picked[0].id {
        var i :| 0 <= i < |picked[1..]| && picked[1..][i].id == id;
        assert picked[i + 1].id == id;
      }
    }
  }

  lemma StartFirst(s: State, picked: seq<QueueItem>, outcomes: seq<StartOutcome>)
    returns (s1: State, left: seq<Schedule>)
    requires |picked| == |outcomes| && picked != [] && Inv(s) && AllStartable(s, picked)
    ensures s1 == ApplyStart(s, picked[0].id, outcomes[0]).0
    ensures Inv(s1) && AllStartable(s1, picked[1..])
    ensures Flow(s, s1, left) && Touched(s, s1) <= {picked[0].id}
  {
    assert Startable(s, picked[0].id);
    StartKeeps(s, picked[0].id, outcomes[0]);
    s1 := ApplyStart(s, picked[0].id, outcomes[0]).0;
    forall i | 0 <= i < |picked[1..]| ensures Startable(s1, picked[1..][i].id) {
      assert Startable(s, picked[i + 1].id) && picked[0].id != picked[i + 1].id;
    }
    assert ScheduleOk(s, picked[0].id);
    left := StartFlows(s, picked[0].id, outcomes[0]);
  }

  // Entries of the distinct programs `ids` that leave `a.schedules` form a flow.
  lemma EntriesFlow(a: State, b: State, ids: seq<ProgramId>, f: Schedule -> Schedule)
    requires SchedulesOk(a)
    requires Distinct(ids) && forall id :: id in ids <==> id in a.schedules && id !in b.schedules
    requires forall id | id in ids ::
      f(a.schedules[id]).program == a.schedules[id].program && f(a.schedules[id]).state.IsDone() &&
      Documented(a.schedules[id].state, f(a.schedules[id]).state)
    requires b.schedules.Keys <= a.schedules.Keys
    requires forall id | id in b.schedules :: StateStep(a.schedules[id].state, b.schedules[id].state)
    requires b.history == a.history + Entries(a.schedules, ids, f)
    ensures Flow(a, b, Entries(a.schedules, ids, f))
  {
    var left := Entries(a.schedules, ids, f);
    forall i | 0 <= i < |left|
      ensures left[i] == f(a.schedules[ids[i]]) && ids[i] in ids && left[i].program.id == ids[i]
    {
      assert ids[i] in ids;
      assert ScheduleOk(a, ids[i]);
    }
    assert Ids(left) == ids;
    DistinctMultiset(ids, a.schedules.Keys - b.schedules.Keys);
  }

  // Maintenance in two stages: the expired schedules leave, then the ended ones
  // are handled.
  function Unexpired(s: State, now: int, order: seq<ProgramId>): State {
    s.(schedules := UnexpiredSchedules(s, now),
       history := s.history + Entries(s.schedules, Select(order, IsExpired(s, now)), Expired))
  }

  lemma UnexpiredFlows(s: State, now: int, order: seq<ProgramId>)
    requires SchedulesOk(s) && Enumerates(order, s.schedules)
    ensures Flow(s, Unexpired(s, now, order), Entries(s.schedules, Select(order, IsExpired(s, now)), Expired))
    ensures SchedulesOk(Unexpired(s, now, order))
  {
    var p := IsExpired(s, now);
    var mid := Unexpired(s, now, order);
    SelectDistinct(order, p);
    forall id | id in mid.schedules ensures ScheduleOk(mid, id) { assert ScheduleOk(s, id); }
    EntriesFlow(s, mid, Select(order, p), Expired);
  }

  function UnexpiredSchedules(s: State, now: int): map<ProgramId, Schedule> {
    map id | id in s.schedules && !VerdictAt(s, id, now).Expire? :: s.schedules[id]
  }

  lemma EndedSchedules(s: State, now: int)
    requires SchedulesOk(s)
    ensures
      var mid, end := UnexpiredSchedules(s, now), Surviving(s, now);
      && end.Keys <= mid.Keys
      && (forall id | id in end :: StateStep(mid[id].state, end[id].state))
      && (forall id :: id in mid && id !in end <==> IsGivenUp(s, now)(id))
      && (forall id | id in mid && id !in end :: mid[id] == s.schedules[id] && mid[id].state.Waiting?)
  {
    forall id | id in s.schedules ensures ScheduleOk(s, id) {}
  }

  lemma GivenUpSelected(s: State, now: int, order: seq<ProgramId>)
    requires Enumerates(order, s.schedules)
    ensures forall id :: id in Select(Select(order, HasEnded(s, now)), IsGivenUp(s, now)) <==> IsGivenUp(s, now)(id)
  {
  }

  lemma EndedFlows(s: State, now: int, order: seq<ProgramId>) returns (left: seq<Schedule>)
    requires SchedulesOk(s) && Enumerates(order, s.schedules)
    requires SchedulesOk(Unexpired(s, now, order))
    ensures Flow(Unexpired(s, now, order), Maintained(s, now, order).0, left)
    ensures forall id | id in s.schedules && VerdictAt(s, id, now).Expire? ::
      id !in Touched(Unexpired(s, now, order), Maintained(s, now, order).0)
  {
    var ended := Select(order, HasEnded(s, now));
    var givenUp := Select(ended, IsGivenUp(s, now));
    SelectDistinct(order, HasEnded(s, now));
    SelectDistinct(ended, IsGivenUp(s, now));
    EndedSchedules(s, now);
    GivenUpSelected(s, now, order);
    var mid := Unexpired(s, now, order);
    assert Entries(s.schedules, givenUp, GivenUp) == Entries(mid.schedules, givenUp, GivenUp);
    EntriesFlow(mid, Maintained(s, now, order).0, givenUp, GivenUp);
    left := Entries(mid.schedules, givenUp, GivenUp);
  }

  lemma MaintainedFlows(s: State, now: int, order: seq<ProgramId>) returns (left: seq<Schedule>)
    requires SchedulesOk(s) && Enumerates(order, s.schedules)
    ensures Flow(s, Maintained(s, now, order).0, left)
    ensures forall id | id in Touched(s, Maintained(s, now, order).0) ::
      id in Maintained(s, now, order).0.schedules ==> Maintained(s, now, order).0.schedules[id].state.Rescheduling?
  {
    UnexpiredFlows(s, now, order);
    var f := Entries(s.schedules, Select(order, IsExpired(s, now)), Expired);
    var g := EndedFlows(s, now, order);
    var mid := Unexpired(s, now, order);
    assert forall id | id in Touched(s, mid) :: VerdictAt(s, id, now).Expire?;
    TouchedCompose(s, mid, Maintained(s, now, order).0);
    FlowCompose(s, mid, Maintained(s, now, order).0, f, g);
    left := f + g;
  }

  lemma ProcessFlows(
    s: State, now: int, order: seq<ProgramId>, picked: seq<QueueItem>, outcomes: seq<StartOutcome>)
    returns (left: seq<Schedule>)
    requires Inv(s) && Timed(s.schedules) && WellFormed(s, Process(now, order, picked, outcomes))
    ensures
      var s' := HandleProcess(s, now, order, picked, outcomes).state;
      Flow(s, s'.(history := s.history + left), left) && s'.history == Kept(s.history + left, now)
  {
    var s1 := Prepared(s, now, order).0;
    PreparedKeeps(s, now, order);
    DequeuedIsStartable(s1, now, picked);
    left := PreparedFlows(s, now, order, picked, outcomes);
    var s3 := StartAll(Dequeued(s1, picked), picked, outcomes).0;
    assert HandleProcess(s, now, order, picked, outcomes).state.(history := s.history + left) == s3;
  }

  // Maintenance postpones or removes schedules; those started afterwards are ready.
  lemma StartedAreUntouched(s: State, s2: State, picked: seq<QueueItem>)
    requires AllStartable(s2, picked)
    requires forall id | id in Touched(s, s2) :: id in s2.schedules ==> s2.schedules[id].state.Rescheduling?
    ensures Touched(s, s2) !! PickedIds(picked)
  {
    forall id | id in PickedIds(picked) ensures id !in Touched(s, s2) {
      var i :| 0 <= i < |picked| && picked[i].id == id;
      assert Startable(s2, picked[i].id);
    }
  }

  lemma PreparedFlows(
    s: State, now: int, order: seq<ProgramId>, picked: seq<QueueItem>, outcomes: seq<StartOutcome>)
    returns (left: seq<Schedule>)
    requires SchedulesOk(s) && Timed(s.schedules) && Enumerates(order, s.schedules) && |picked| == |outcomes|
    requires Inv(Dequeued(Prepared(s, now, order).0, picked))
    requires AllStartable(Dequeued(Prepared(s, now, order).0, picked), picked)
    ensures Flow(s, StartAll(Dequeued(Prepared(s, now, order).0, picked), picked, outcomes).0, left)
  {
    var s2 := Dequeued(Prepared(s, now, order).0, picked);
    var f := FlowsToDequeued(s, now, order, picked);
    StartedAreUntouched(s, s2, picked);
    var g := StartAllFlows(s2, picked, outcomes);
    TouchedCompose(s, s2, StartAll(s2, picked, outcomes).0);
    FlowCompose(s, s2, StartAll(s2, picked, outcomes).0, f, g);
    left := f + g;
  }

  lemma FlowsToDequeued(s: State, now: int, order: seq<ProgramId>, picked: seq<QueueItem>)
    returns (left: seq<Schedule>)
    requires SchedulesOk(s) && Timed(s.schedules) && Enumerates(order, s.schedules)
    ensures
      var s2 := Dequeued(Prepared(s, now, order).0, picked);
      && Flow(s, s2, left)
      && forall id | id in Touched(s, s2) :: id in s2.schedules ==> s2.schedules[id].state.Rescheduling?
  {
    left := MaintainedFlows(s, now, order);
    var s1 := Maintained(s, now, order).0;
    var s2 := Dequeued(Prepared(s, now, order).0, picked);
    assert s2.schedules == s1.schedules && s2.history == s1.history;
    assert Touched(s, s2) == Touched(s, s1);
  }

  lemma OnairFlows(s: State, p: Program, store: RecordStore)
    ensures Flow(s, ApplyOnair(s, p, store).0, [])
    ensures Touched(s, ApplyOnair(s, p, store).0) <= {p.id}
    ensures p.id in s.schedules && s.schedules[p.id].state.Tracking? ==> Touched(s, ApplyOnair(s, p, store).0) == {}
    ensures p.id in Touched(s, ApplyOnair(s, p, store).0) ==>
      p.id in ApplyOnair(s, p, store).0.schedules && ApplyOnair(s, p, store).0.schedules[p.id].state.Tracking?
  {
    var s' := ApplyOnair(s, p, store).0;
    if p.id in s.schedules {
      OneChanges(s, s', p.id);
    } else {
      SameFlow(s, s');
    }
  }

  lemma OnairPairFlows(s: State, current: Option<Program>, next: Option<Program>, store: RecordStore)
    ensures Flow(s, ApplyOnairPair(s, current, next, store).0, [])
  {
    var (s1, _, c1) := ApplyMaybeOnair(s, current, store, false);
    if current.Some? && current.value.startAt.Some? {
      OnairFlows(s, current.value, store);
    } else {
      SameFlow(s, s);
    }
    if next.Some? && next.value.startAt.Some? {
      OnairFlows(s1, next.value, store);
      var s2 := ApplyOnair(s1, next.value, store).0;
      TouchedCompose(s, s1, s2);
      FlowCompose(s, s1, s2, [], []);
      var none: seq<Schedule> := [];
      assert none + none == none;
    }
  }

  lemma StoppedFlows(s: State, id: ProgramId, exit: Exit, store: RecordStore) returns (left: seq<Schedule>)
    requires Inv(s)
    ensures Flow(s, ApplyStopped(s, id, exit, store).0, left)
  {
    var s' := ApplyStopped(s, id, exit, store).0;
    left := [];
    if id in s.schedules { assert ScheduleOk(s, id); }
    if id !in s.schedules || id !in s.recorders {
      SameFlow(s, s');
    } else if exit.Retry? {
      OneChanges(s, s', id);
    } else {
      left := [StoppedSchedule(s.schedules[id], exit)];
      OneLeaves(s, s', id, left[0]);
    }
  }

  lemma ProgramsFlow(s: State, now: int, service: nat, ps: map<nat, Program>, order: seq<ProgramId>)
    returns (left: seq<Schedule>)
    requires Inv(s) && Timed(s.schedules) && Enumerates(order, s.schedules)
    ensures Flow(s, HandlePrograms(s, now, service, Some(ps), order).state, left)
  {
    var s' := HandlePrograms(s, now, service, Some(ps), order).state;
    ProgramsState(s, now, service, ps, order);
    left := Entries(s.schedules, Select(order, IsGone(s, now, service, ps)), RemovedFromEpgFailed);
    GoneFlow(s, s', now, service, ps, order);
  }

  lemma ProgramsState(s: State, now: int, service: nat, ps: map<nat, Program>, order: seq<ProgramId>)
    requires Timed(s.schedules)
    ensures
      var s' := HandlePrograms(s, now, service, Some(ps), order).state;
      var gone := Select(order, IsGone(s, now, service, ps));
      && s'.schedules == WithPrograms(s.schedules, now, service, ps)
      && s'.history == s.history + Entries(s.schedules, gone, RemovedFromEpgFailed)
  {
  }

  lemma GoneFlow(s: State, s': State, now: int, service: nat, ps: map<nat, Program>, order: seq<ProgramId>)
    requires SchedulesOk(s) && Enumerates(order, s.schedules)
    requires s'.schedules == WithPrograms(s.schedules, now, service, ps)
    requires s'.history ==
      s.history + Entries(s.schedules, Select(order, IsGone(s, now, service, ps)), RemovedFromEpgFailed)
    ensures Flow(s, s', Entries(s.schedules, Select(order, IsGone(s, now, service, ps)), RemovedFromEpgFailed))
  {
    var gone := Select(order, IsGone(s, now, service, ps));
    SelectDistinct(order, IsGone(s, now, service, ps));
    GoneStates(s, s', now, service, ps);
    EntriesFlow(s, s', gone, RemovedFromEpgFailed);
  }

  lemma GoneStates(s: State, s': State, now: int, service: nat, ps: map<nat, Program>)
    requires SchedulesOk(s) && s'.schedules == WithPrograms(s.schedules, now, service, ps)
    ensures forall id :: IsGone(s, now, service, ps)(id) <==> id in s.schedules && id !in s'.schedules
    ensures forall id | IsGone(s, now, service, ps)(id) :: Documented(s.schedules[id].state, Failed)
    ensures forall id | id in s'.schedules :: StateStep(s.schedules[id].state, s'.schedules[id].state)
  {
    forall id | id in s.schedules ensures ScheduleOk(s, id) {}
  }

  // Schedules removed on request, or because their service is gone, leave without
  // entering the history; nothing else happens to the states of the others.
  ghost predicate Drops(s: State, s': State) {
    && s'.history == s.history
    && s'.schedules.Keys <= s.schedules.Keys
    && forall id | id in s'.schedules :: s'.schedules[id].state == s.schedules[id].state
  }

  ghost predicate Lives(s: State, m: Msg, s': State, left: seq<Schedule>) {
    match m
    case Remove(id) => left == [] && Drops(s, s') && s'.schedules.Keys == s.schedules.Keys - {id}
    case RemoveAll => left == [] && Drops(s, s') && s'.schedules == map[]
    case RemoveTagged(tag, _) => left == [] && Drops(s, s') && forall id | id in s.schedules && id !in s'.schedules ::
      tag in s.schedules[id].tags && (s.schedules[id].state.Scheduled? || s.schedules[id].state.Rescheduling?)
    case ServicesUpdated(services, _) => left == [] && Drops(s, s') && forall id | id in s.schedules ::
      id in s'.schedules <==> s.schedules[id].state.Recording? || id.service in services
    case Add(c, _, _, _) =>
      if c.program.id in s.schedules then left == [] && s' == s else Flow(WithSchedule(s, c), s', left)
    case Start(c, _) =>
      if c.program.id in s.schedules then left == [] && s' == s else Flow(WithSchedule(s, c), s', left)
    case Process(now, _, _, _) =>
      Flow(s, s'.(history := s.history + left), left) && s'.history == Kept(s.history + left, now)
    case _ => Flow(s, s', left)
  }

  lemma RemovalDrops(s: State, m: Msg)
    requires Inv(s) && Timed(s.schedules) && WellFormed(s, m)
    requires m.Remove? || m.RemoveAll? || m.RemoveTagged? || m.ServicesUpdated?
    ensures Lives(s, m, Step(s, m).state, [])
  {
    match m
    case ServicesUpdated(services, order) => UnservedDrop(s, services, order);
    case RemoveTagged(tag, now) => TaggedDrop(s, tag, now);
    case Remove(id) => assert Step(s, m) == HandleRemove(s, id);
    case RemoveAll =>
  }

  lemma UnservedDrop(s: State, services: map<nat, Service>, order: seq<ProgramId>)
    requires Timed(s.schedules)
    ensures
      var s' := HandleServices(s, services, order).state;
      && Drops(s, s')
      && forall id | id in s.schedules ::
           id in s'.schedules <==> s.schedules[id].state.Recording? || id.service in services
  {
  }

  lemma TaggedDrop(s: State, tag: string, now: int)
    requires Inv(s) && Timed(s.schedules)
    ensures
      var s' := HandleRemoveTagged(s, tag, now).state;
      && Drops(s, s')
      && forall id | id in s.schedules && id !in s'.schedules ::
           tag in s.schedules[id].tags && (s.schedules[id].state.Scheduled? || s.schedules[id].state.Rescheduling?)
  {
    forall id | id in s.schedules ensures !s.schedules[id].state.IsDone() { assert ScheduleOk(s, id); }
  }

  lemma AdditionFlows(s: State, m: Msg) returns (left: seq<Schedule>)
    requires Timed(s.schedules) && WellFormed(s, m) && (m.Add? || m.Start?)
    ensures Lives(s, m, Step(s, m).state, left)
  {
    left := [];
    if m.schedule.program.id !in s.schedules {
      if m.Add? {
        OnairPairFlows(WithSchedule(s, m.schedule), m.current, m.next, m.store);
      } else {
        left := StartFlows(WithSchedule(s, m.schedule), m.schedule.program.id, m.outcome);
      }
    }
  }

  // What a message does to the life of every schedule: only a removal or an
  // update of the services makes a schedule vanish without entering the history.
  lemma Lifecycle(s: State, m: Msg) returns (left: seq<Schedule>)
    requires Inv(s) && Timed(s.schedules) && WellFormed(s, m)
    ensures Lives(s, m, Step(s, m).state, left)
  {
    left := [];
    match m
    case Add(_, _, _, _) => left := AdditionFlows(s, m);
    case Start(_, _) => left := AdditionFlows(s, m);
    case Process(now, order, picked, outcomes) => left := ProcessFlows(s, now, order, picked, outcomes);
    case PipelineStopped(id, codes, store) => left := StoppedFlows(s, id, ExitOf(codes), store);
    case ProgramsUpdated(now, service, programs, order) =>
      if programs.Some? { left := ProgramsFlow(s, now, service, programs.value, order); } else { SameFlow(s, s); }
    case OnairChanged(current, next, store) => OnairPairFlows(s, current, next, store);
    case TunerAvailable(types) => WokenFlows(s, types);
    case StopRecording(id) => SameFlow(s, TriggerTaken(s, id));
    case _ => RemovalDrops(s, m);
  }

  lemma WokenFlows(s: State, types: seq<ChannelType>)
    requires Timed(s.schedules)
    ensures Flow(s, HandleTunerAvailable(s, types).state, [])
  {
    var s' := HandleTunerAvailable(s, types).state;
    assert s'.schedules.Keys == s.schedules.Keys;
    assert multiset(s.schedules.Keys - s'.schedules.Keys) == multiset{};
  }

  // The account of a run

  predicate Removes(m: Msg) { m.Remove? || m.RemoveAll? || m.RemoveTagged? || m.ServicesUpdated? }

  predicate Adds(s: State, m: Msg) { (m.Add? || m.Start?) && m.schedule.program.id !in s.schedules }

  function StateOf(s: State, id: ProgramId): Option<ScheduleState> {
    if id in s.schedules then Some(s.schedules[id].state) else None
  }

  // One step on the path of a program: from `from` it takes at most one documented
  // transition to `to`, or leaves, for the history unless it is removed.
  ghost predicate PathStep(
    from: Option<ScheduleState>, to: Option<ScheduleState>, removes: bool, left: seq<Schedule>, id: ProgramId)
  {
    if from.None? then to.None? && IsAbsent(left, id)
    else if to.Some? then StateStep(from.value, to.value) && IsAbsent(left, id)
    else if removes then IsAbsent(left, id)
    else exists h :: h in left && h.program.id == id && h.state.IsDone() && Documented(from.value, h.state)
  }

  ghost predicate IsAbsent(left: seq<Schedule>, id: ProgramId) {
    forall h | h in left :: h.program.id != id
  }

  // A schedule that is added starts as Scheduled.
  function Before(s: State, m: Msg, id: ProgramId): Option<ScheduleState> {
    if Adds(s, m) && m.schedule.program.id == id then Some(Scheduled) else StateOf(s, id)
  }

  function AddedBy(s: State, m: Msg): multiset<ProgramId> {
    if Adds(s, m) then multiset{m.schedule.program.id} else multiset{}
  }

  function RemovedBy(s: State, m: Msg, s': State): multiset<ProgramId> {
    if Removes(m) then multiset(s.schedules.Keys - s'.schedules.Keys) else multiset{}
  }

  // `ProcessRecording` prunes the history.
  function LoggedBy(history: seq<Schedule>, m: Msg, left: seq<Schedule>): seq<Schedule> {
    if m.Process? then Kept(history + left, m.now) else history + left
  }

  ghost predicate Accounts(s: State, m: Msg, s': State, left: seq<Schedule>) {
    && AllOnPath(s, m, s', left) && Balanced(s, m, s', left)
    && s'.history == LoggedBy(s.history, m, left)
  }

  ghost predicate AllOnPath(s: State, m: Msg, s': State, left: seq<Schedule>) {
    forall id :: PathStep(Before(s, m, id), StateOf(s', id), Removes(m), left, id)
  }

  ghost predicate Balanced(s: State, m: Msg, s': State, left: seq<Schedule>) {
    multiset(s.schedules.Keys) + AddedBy(s, m) ==
    multiset(s'.schedules.Keys) + RemovedBy(s, m, s') + multiset(Ids(left))
  }

  lemma FlowPath(a: State, b: State, left: seq<Schedule>, id: ProgramId)
    requires Flow(a, b, left)
    ensures PathStep(StateOf(a, id), StateOf(b, id), false, left, id)
  {
    forall h | h in left && h.program.id == id ensures id in a.schedules && id !in b.schedules {
      InIds(left, h);
      assert id in multiset(a.schedules.Keys - b.schedules.Keys);
    }
    if id in a.schedules && id !in b.schedules {
      assert id in multiset(Ids(left));
      var i :| 0 <= i < |left| && Ids(left)[i] == id;
      assert left[i] in left && ArrivalOk(a, left[i]);
    }
  }

  lemma FlowBalances(a: State, b: State, left: seq<Schedule>)
    requires Flow(a, b, left)
    ensures multiset(a.schedules.Keys) == multiset(b.schedules.Keys) + multiset(Ids(left))
  {
    SetSplit(a.schedules.Keys, b.schedules.Keys);
  }

  // `b` is `s'` up to the pruning of the history.
  lemma FlowAccounts(s: State, m: Msg, s': State, b: State, left: seq<Schedule>)
    requires !Removes(m) && !Adds(s, m) && Flow(s, b, left) && b.schedules == s'.schedules
    requires s'.history == LoggedBy(s.history, m, left)
    ensures Accounts(s, m, s', left)
  {
    FlowBalances(s, b, left);
    forall id ensures PathStep(Before(s, m, id), StateOf(s', id), Removes(m), left, id) {
      FlowPath(s, b, left, id);
    }
  }

  lemma AdditionAccounts(s: State, m: Msg, s': State, left: seq<Schedule>)
    requires Adds(s, m) && m.schedule.state.Scheduled? && Flow(WithSchedule(s, m.schedule), s', left)
    ensures Accounts(s, m, s', left)
  {
    FlowBalances(WithSchedule(s, m.schedule), s', left);
    AdditionBalances(s, m, s', left);
    forall id ensures PathStep(Before(s, m, id), StateOf(s', id), Removes(m), left, id) {
      AdditionPath(s, m, s', left, id);
    }
  }

  lemma AdditionBalances(s: State, m: Msg, s': State, left: seq<Schedule>)
    requires Adds(s, m)
    requires multiset(WithSchedule(s, m.schedule).schedules.Keys) == multiset(s'.schedules.Keys) + multiset(Ids(left))
    ensures Balanced(s, m, s', left)
  {
    var id := m.schedule.program.id;
    var keys, keys' := s.schedules.Keys, WithSchedule(s, m.schedule).schedules.Keys;
    WithKey(s.schedules, id, m.schedule);
    SetPlus(keys, id, keys');
    NothingRemoved(multiset(keys'), multiset(s'.schedules.Keys), RemovedBy(s, m, s'), multiset(Ids(left)));
  }

  lemma NothingRemoved<T>(a: multiset<T>, b: multiset<T>, removed: multiset<T>, left: multiset<T>)
    requires a == b + left && removed == multiset{}
    ensures a == b + removed + left
  {
  }

  lemma WithKey(m: map<ProgramId, Schedule>, id: ProgramId, c: Schedule)
    ensures m[id := c].Keys == m.Keys + {id}
  {
  }

  lemma AdditionPath(s: State, m: Msg, s': State, left: seq<Schedule>, id: ProgramId)
    requires Adds(s, m) && m.schedule.state.Scheduled? && Flow(WithSchedule(s, m.schedule), s', left)
    ensures PathStep(Before(s, m, id), StateOf(s', id), Removes(m), left, id)
  {
    var a := WithSchedule(s, m.schedule);
    FlowPath(a, s', left, id);
    assert StateOf(a, id) == Before(s, m, id);
  }

  lemma RemovalAccounts(s: State, m: Msg, s': State)
    requires Removes(m) && Drops(s, s')
    ensures Accounts(s, m, s', [])
  {
    RemovalBalances(s, m, s');
    EmptySum(s.history);
    forall id ensures PathStep(Before(s, m, id), StateOf(s', id), Removes(m), [], id) { RemovalPath(s, s', id); }
  }

  lemma RemovalBalances(s: State, m: Msg, s': State)
    requires Removes(m) && Drops(s, s')
    ensures Balanced(s, m, s', [])
  {
    SetSplit(s.schedules.Keys, s'.schedules.Keys);
    assert Ids([]) == [];
  }

  lemma RemovalPath(s: State, s': State, id: ProgramId)
    requires Drops(s, s')
    ensures PathStep(StateOf(s, id), StateOf(s', id), true, [], id)
  {
  }

  lemma StepAccounts(s: State, m: Msg) returns (left: seq<Schedule>)
    requires Inv(s) && Timed(s.schedules) && WellFormed(s, m)
    ensures Accounts(s, m, Step(s, m).state, left)
  {
    left := Lifecycle(s, m);
    LivesAccounts(s, m, Step(s, m).state, left);
  }

  lemma LivesAccounts(s: State, m: Msg, s': State, left: seq<Schedule>)
    requires Lives(s, m, s', left) && (m.Add? || m.Start? ==> m.schedule.state.Scheduled?)
    ensures Accounts(s, m, s', left)
  {
    if Removes(m) {
      RemovalAccounts(s, m, s');
    } else if Adds(s, m) {
      AdditionAccounts(s, m, s', left);
    } else if m.Add? || m.Start? {
      SameFlow(s, s);
      EmptySum(s.history);
      FlowAccounts(s, m, s', s, left);
    } else if m.Process? {
      FlowAccounts(s, m, s', s'.(history := s.history + left), left);
    } else {
      FlowAccounts(s, m, s', s', left);
    }
  }

  // The programs added and removed in a run.

  ghost function Added(s: State, ms: seq<Msg>): multiset<ProgramId>
    requires Inv(s) && Timed(s.schedules) && AllAdmissible(s, ms)
    decreases |ms|
  {
    if ms == [] then multiset{}
    else
      StepKeepsInv(s, ms[0]);
      AddedBy(s, ms[0]) + Added(Step(s, ms[0]).state, ms[1..])
  }

  ghost function RemovedIn(s: State, ms: seq<Msg>): multiset<ProgramId>
    requires Inv(s) && Timed(s.schedules) && AllAdmissible(s, ms)
    decreases |ms|
  {
    if ms == [] then multiset{}
    else
      StepKeepsInv(s, ms[0]);
      RemovedBy(s, ms[0], Step(s, ms[0]).state) + RemovedIn(Step(s, ms[0]).state, ms[1..])
  }

  // The programs of the schedules that leave for the history, step by step.
  function Left(lefts: seq<seq<Schedule>>): multiset<ProgramId> {
    if lefts == [] then multiset{} else multiset(Ids(lefts[0])) + Left(lefts[1..])
  }

  function Logged(history: seq<Schedule>, ms: seq<Msg>, lefts: seq<seq<Schedule>>): seq<Schedule>
    requires |ms| == |lefts|
    decreases |ms|
  {
    if ms == [] then history else Logged(LoggedBy(history, ms[0], lefts[0]), ms[1..], lefts[1..])
  }

  // The path of a program through the run.
  ghost predicate OnPath(s: State, ms: seq<Msg>, lefts: seq<seq<Schedule>>, id: ProgramId)
    requires Inv(s) && Timed(s.schedules) && AllAdmissible(s, ms) && |ms| == |lefts|
    decreases |ms|
  {
    ms == [] ||
    (StepKeepsInv(s, ms[0]);
     var s' := Step(s, ms[0]).state;
     && PathStep(Before(s, ms[0], id), StateOf(s', id), Removes(ms[0]), lefts[0], id)
     && OnPath(s', ms[1..], lefts[1..], id))
  }

  lemma Balance<T>(
    a: multiset<T>, b: multiset<T>, c: multiset<T>, added: multiset<T>, removed: multiset<T>, left: multiset<T>,
    added': multiset<T>, removed': multiset<T>, left': multiset<T>)
    requires a + added == b + removed + left && b + added' == c + removed' + left'
    ensures a + (added + added') == c + (removed + removed') + (left + left')
  {
    forall x ensures (a + (added + added'))[x] == (c + (removed + removed') + (left + left'))[x] {
      assert (a + added)[x] == (b + removed + left)[x] && (b + added')[x] == (c + removed' + left')[x];
    }
  }

  // In every run each program, whenever it is scheduled, follows the documented
  // transitions.  The programs scheduled at first or added later are those still
  // scheduled, those removed and those that left for the history, each as often;
  // and the history consists of the latter, in the order in which they left, and of
  // what it held at first, as far as it has not been pruned.
  lemma {:induction false} EveryScheduleIsAccountedFor(s: State, ms: seq<Msg>) returns (lefts: seq<seq<Schedule>>)
    requires Inv(s) && Timed(s.schedules) && AllAdmissible(s, ms)
    ensures |lefts| == |ms|
    ensures forall id :: OnPath(s, ms, lefts, id)
    ensures multiset(s.schedules.Keys) + Added(s, ms) ==
      multiset(Run(s, ms).schedules.Keys) + RemovedIn(s, ms) + Left(lefts)
    ensures Run(s, ms).history == Logged(s.history, ms, lefts)
    decreases |ms|
  {
    if ms == [] {
      lefts := [];
    } else {
      StepKeepsInv(s, ms[0]);
      var s' := Step(s, ms[0]).state;
      var left := StepAccounts(s, ms[0]);
      var rest := EveryScheduleIsAccountedFor(s', ms[1..]);
      lefts := [left] + rest;
      TailOfCons(left, rest);
      Balance(
        multiset(s.schedules.Keys), multiset(s'.schedules.Keys), multiset(Run(s', ms[1..]).schedules.Keys),
        AddedBy(s, ms[0]), RemovedBy(s, ms[0], s'), multiset(Ids(left)),
        Added(s', ms[1..]), RemovedIn(s', ms[1..]), Left(rest));
      forall id ensures OnPath(s, ms, lefts, id) { assert OnPath(s', ms[1..], rest, id); }
    }
  }

  // Exactness of the queue

  // The queue holds every ready schedule, at its current start time and priority.
  ghost predicate QueueExact(s: State) {
    Timed(s.schedules) && s.queue == multiset(ReadyItems(s.schedules))
  }

  function ItemOf(c: Schedule): QueueItem
    requires c.program.startAt.Some?
  {
    QueueItem(c.program.id, c.program.startAt.value, c.priority)
  }

  lemma ReadyAt(m: map<ProgramId, Schedule>, id: ProgramId)
    requires Timed(m) && id in m && m[id].state.IsReady()
    ensures ItemOf(m[id]) in ReadyItems(m)
  {
  }

  // The items of the ready schedules of `m` are among those of `n`.
  lemma ReadyWithin(m: map<ProgramId, Schedule>, n: map<ProgramId, Schedule>)
    requires Timed(m) && Timed(n)
    requires forall id | id in m && m[id].state.IsReady() ::
      id in n && n[id].state.IsReady() && ItemOf(n[id]) == ItemOf(m[id])
    ensures ReadyItems(m) <= ReadyItems(n)
  {
    forall x | x in ReadyItems(m) ensures x in ReadyItems(n) {
      var id :| id in m && m[id].state.IsReady() && x == ItemOf(m[id]);
      ReadyAt(n, id);
    }
  }

  // Maps that agree on their ready schedules have the same ready items.
  lemma SameReady(m: map<ProgramId, Schedule>, n: map<ProgramId, Schedule>)
    requires Timed(m) && Timed(n)
    requires forall id | id in m && m[id].state.IsReady() ::
      id in n && n[id].state.IsReady() && ItemOf(n[id]) == ItemOf(m[id])
    requires forall id | id in n && n[id].state.IsReady() ::
      id in m && m[id].state.IsReady() && ItemOf(m[id]) == ItemOf(n[id])
    ensures ReadyItems(m) == ReadyItems(n)
  {
    ReadyWithin(m, n);
    ReadyWithin(n, m);
  }

  // A schedule that is not ready may go, or change to one that is not.
  lemma NotReadyAnyway(m: map<ProgramId, Schedule>, id: ProgramId, c: Schedule)
    requires Timed(m) && id in m && !m[id].state.IsReady()
    requires !c.state.IsReady() && c.program.startAt.Some?
    ensures Timed(m - {id}) && ReadyItems(m - {id}) == ReadyItems(m)
    ensures Timed(m[id := c]) && ReadyItems(m[id := c]) == ReadyItems(m)
  {
    SameReady(m, m - {id});
    SameReady(m, m[id := c]);
  }

  lemma StoppedStaysExact(s: State, id: ProgramId, exit: Exit, store: RecordStore)
    requires Inv(s) && QueueExact(s) && Timed(ApplyStopped(s, id, exit, store).0.schedules)
    ensures QueueExact(ApplyStopped(s, id, exit, store).0)
  {
    if id in s.recorders && id in s.schedules {
      assert ScheduleOk(s, id);
      StoppedMeans(s, id, exit, store);
      NotReadyAnyway(s.schedules, id, StoppedSchedule(s.schedules[id], exit));
    }
  }

  lemma StartedStaysExact(s: State, c: Schedule, o: StartOutcome)
    requires QueueExact(s) && c.state.Scheduled? && c.program.startAt.Some?
    ensures QueueExact(HandleStart(s, c, o).state)
  {
    if c.program.id !in s.schedules {
      SameReady(s.schedules, HandleStart(s, c, o).state.schedules);
    }
  }

  // The queue and the items being started make up the ready schedules.
  ghost predicate ExactWith(s: State, picked: seq<QueueItem>) {
    Timed(s.schedules) && s.queue + multiset(picked) == multiset(ReadyItems(s.schedules))
  }

  // Starting a program takes its item out of the ready ones.
  lemma StartTakesItem(s: State, it: QueueItem, o: StartOutcome)
    requires Inv(s) && Startable(s, it.id) && Timed(s.schedules) && it in ReadyItems(s.schedules)
    ensures ReadyItems(ApplyStart(s, it.id, o).0.schedules) == ReadyItems(s.schedules) - {it}
  {
    var m, n := s.schedules, ApplyStart(s, it.id, o).0.schedules;
    forall id | id in m ensures m[id].program.id == id { assert ScheduleOk(s, id); }
    forall x | x in ReadyItems(m) && x != it ensures x in ReadyItems(n) {
      var id :| id in m && m[id].state.IsReady() &&
        x == QueueItem(m[id].program.id, m[id].program.startAt.value, m[id].priority);
      assert id != it.id;
      ReadyAt(n, id);
    }
    forall x | x in ReadyItems(n) ensures x in ReadyItems(m) && x != it {
      var id :| id in n && n[id].state.IsReady() &&
        x == QueueItem(n[id].program.id, n[id].program.startAt.value, n[id].priority);
      assert id != it.id;
      ReadyAt(m, id);
    }
  }

  lemma {:induction false} StartAllStaysExact(s: State, picked: seq<QueueItem>, outcomes: seq<StartOutcome>)
    requires |picked| == |outcomes| && Inv(s) && AllStartable(s, picked) && ExactWith(s, picked)
    ensures QueueExact(StartAll(s, picked, outcomes).0)
    decreases |picked|
  {
    if picked == [] {
      assert s.queue + multiset(picked) == s.queue;
    } else {
      var s1, _ := StartFirst(s, picked, outcomes);
      StartFirstStaysExact(s, picked, outcomes);
      StartAllStaysExact(s1, picked[1..], outcomes[1..]);
    }
  }

  lemma StartFirstStaysExact(s: State, picked: seq<QueueItem>, outcomes: seq<StartOutcome>)
    requires |picked| == |outcomes| && picked != [] && Inv(s) && AllStartable(s, picked) && ExactWith(s, picked)
    ensures ExactWith(ApplyStart(s, picked[0].id, outcomes[0]).0, picked[1..])
  {
    assert Startable(s, picked[0].id);
    TakeFirst(s.queue, picked, ReadyItems(s.schedules));
    StartTakesItem(s, picked[0], outcomes[0]);
    StartKeeps(s, picked[0].id, outcomes[0]);
  }

  lemma TakeFirst(q: multiset<QueueItem>, picked: seq<QueueItem>, items: set<QueueItem>)
    requires picked != [] && q + multiset(picked) == multiset(items)
    ensures picked[0] in items
    ensures q + multiset(picked[1..]) == multiset(items - {picked[0]})
  {
    var it := picked[0];
    assert picked == [it] + picked[1..];
    assert multiset(picked) == multiset{it} + multiset(picked[1..]);
    assert it in multiset(picked);
    assert it in multiset(items);
    assert q + multiset(picked[1..]) == multiset(items) - multiset{it};
    assert multiset(items) - multiset{it} == multiset(items - {it});
  }

  lemma PreparedStaysExact(s: State, now: int, order: seq<ProgramId>)
    requires Inv(s) && QueueExact(s) && Enumerates(order, s.schedules)
    ensures QueueExact(Prepared(s, now, order).0)
  {
    PreparedKeeps(s, now, order);
    if !Maintained(s, now, order).2 { UnchangedByMaintenance(s, now, order); }
  }

  lemma StartingStaysExact(s: State, now: int, picked: seq<QueueItem>, outcomes: seq<StartOutcome>)
    requires Inv(s) && QueueExact(s) && Dequeues(s.queue, now, picked) && |picked| == |outcomes|
    ensures QueueExact(StartAll(Dequeued(s, picked), picked, outcomes).0)
  {
    DequeuedIsStartable(s, now, picked);
    assert s.queue - multiset(picked) + multiset(picked) == s.queue;
    StartAllStaysExact(Dequeued(s, picked), picked, outcomes);
  }

  lemma ProcessStaysExact(
    s: State, now: int, order: seq<ProgramId>, picked: seq<QueueItem>, outcomes: seq<StartOutcome>)
    requires Inv(s) && QueueExact(s) && WellFormed(s, Process(now, order, picked, outcomes))
    ensures QueueExact(HandleProcess(s, now, order, picked, outcomes).state)
  {
    PreparedKeeps(s, now, order);
    PreparedStaysExact(s, now, order);
    StartingStaysExact(Prepared(s, now, order).0, now, picked, outcomes);
  }

  lemma ProgramsStayExact(s: State, now: int, service: nat, ps: map<nat, Program>, order: seq<ProgramId>)
    requires Inv(s) && QueueExact(s) && WellFormed(s, ProgramsUpdated(now, service, Some(ps), order))
    ensures QueueExact(HandlePrograms(s, now, service, Some(ps), order).state)
  {
    ProgramsKeeps(s, now, service, ps, order);
    var s' := HandlePrograms(s, now, service, Some(ps), order).state;
    InvIsTimed(s');
    if forall id | id in s.schedules :: EpgVerdictOf(s.schedules[id], id, now, service, ps).Untouched? {
      AllUntouched(s.schedules, now, service, ps);
    }
  }

  lemma RemovalStaysExact(s: State, m: Msg)
    requires QueueExact(s) && WellFormed(s, m)
    requires m.Remove? || m.RemoveAll? || m.RemoveTagged? || m.StopRecording? || m.TunerAvailable? || m.ServicesUpdated?
    ensures QueueExact(Step(s, m).state)
  {
    assert ReadyItems(map[]) == {};
  }

  lemma WorkStaysExact(s: State, m: Msg)
    requires Inv(s) && QueueExact(s) && WellFormed(s, m)
    requires m.Process? || m.PipelineStopped? || m.Start? || m.ProgramsUpdated?
    ensures QueueExact(Step(s, m).state)
  {
    match m
    case Process(now, order, picked, outcomes) => ProcessStaysExact(s, now, order, picked, outcomes);
    case PipelineStopped(id, codes, store) => EndedStaysExact(s, id, codes, store);
    case Start(c, o) => StartedStaysExact(s, c, o);
    case ProgramsUpdated(now, service, programs, order) =>
      if programs.Some? { ProgramsStayExact(s, now, service, programs.value, order); }
  }

  lemma EndedStaysExact(s: State, id: ProgramId, codes: seq<Option<int>>, store: RecordStore)
    requires Inv(s) && QueueExact(s)
    ensures QueueExact(HandleStopped(s, id, codes, store).state)
  {
    StoppedKeeps(s, id, ExitOf(codes), store);
    InvIsTimed(ApplyStopped(s, id, ExitOf(codes), store).0);
    StoppedStaysExact(s, id, ExitOf(codes), store);
  }

  lemma AddedStaysExact(s: State, m: Msg)
    requires QueueExact(s) && WellFormed(s, m) && m.Add?
    ensures QueueExact(Step(s, m).state)
  {
  }

  // Every message but an on-air update keeps the queue exact.
  lemma QueueStaysExact(s: State, m: Msg)
    requires Inv(s) && QueueExact(s) && WellFormed(s, m) && !m.OnairChanged?
    ensures QueueExact(Step(s, m).state)
  {
    if m.Process? || m.PipelineStopped? || m.Start? || m.ProgramsUpdated? {
      WorkStaysExact(s, m);
    } else if m.Add? {
      AddedStaysExact(s, m);
    } else {
      RemovalStaysExact(s, m);
    }
  }

  // `p` adds a ready schedule or moves one.
  predicate Disturbs(s: State, p: Option<Program>) {
    && p.Some? && p.value.startAt.Some? && p.value.id in s.schedules
    && var c := s.schedules[p.value.id];
       c.state.Waiting? || c.state.Rescheduling? || (c.state.IsReady() && c.program.startAt != p.value.startAt)
  }

  lemma ReplacedSameReady(m: map<ProgramId, Schedule>, id: ProgramId, c: Schedule)
    requires Timed(m) && id in m && c.program.startAt.Some?
    requires m[id].state.IsReady() <==> c.state.IsReady()
    requires c.state.IsReady() ==> ItemOf(c) == ItemOf(m[id])
    ensures Timed(m[id := c]) && ReadyItems(m[id := c]) == ReadyItems(m)
  {
    SameReady(m, m[id := c]);
  }

  lemma UndisturbedReady(s: State, p: Option<Program>, store: RecordStore, changed: bool)
    requires Inv(s) && Timed(s.schedules) && !Disturbs(s, p)
    ensures Timed(ApplyMaybeOnair(s, p, store, changed).0.schedules)
    ensures ReadyItems(ApplyMaybeOnair(s, p, store, changed).0.schedules) == ReadyItems(s.schedules)
  {
    if p.Some? && p.value.startAt.Some? && p.value.id in s.schedules {
      var id := p.value.id;
      assert ScheduleOk(s, id);
      var c := s.schedules[id];
      ReplacedSameReady(s.schedules, id, c.(program := p.value, state := if c.state.Scheduled? then Tracking else c.state));
    }
  }

  // If the program of `id` is ready at another start time than before, or only
  // now, the ready items differ.
  lemma ReadyItemsDiffer(m: map<ProgramId, Schedule>, n: map<ProgramId, Schedule>, id: ProgramId)
    requires Timed(m) && Timed(n)
    requires forall i | i in m :: m[i].program.id == i
    requires id in n && n[id].state.IsReady() && n[id].program.id == id
    requires id in m && m[id].state.IsReady() ==> m[id].program.startAt != n[id].program.startAt
    ensures ReadyItems(m) != ReadyItems(n)
  {
    ReadyAt(n, id);
  }

  // Unless it reports a move, an on-air update that disturbs the ready schedules
  // leaves the disturbed program ready at the reported start.
  lemma DisturbedReady(s: State, p: Option<Program>, store: RecordStore, changed: bool)
    requires Inv(s) && Timed(s.schedules) && Disturbs(s, p)
    ensures
      var (s', _, moved) := ApplyMaybeOnair(s, p, store, changed);
      && (!moved ==> !s.schedules[p.value.id].state.IsReady())
      && p.value.id in s'.schedules
      && s'.schedules[p.value.id].state.Tracking?
      && s'.schedules[p.value.id].program == p.value
      && (moved <==> s.schedules[p.value.id].program.startAt != p.value.startAt)
  {
    assert ScheduleOk(s, p.value.id);
  }

  // An update that reports no move keeps tracked programs tracked, at their start.
  lemma StaysTracked(s: State, p: Option<Program>, store: RecordStore, id: ProgramId)
    requires id in s.schedules && s.schedules[id].state.Tracking? && s.schedules[id].program.id == id
    requires !ApplyMaybeOnair(s, p, store, false).2
    ensures
      var s' := ApplyMaybeOnair(s, p, store, false).0;
      id in s'.schedules && s'.schedules[id].state.Tracking? && s'.schedules[id].program.id == id &&
      s'.schedules[id].program.startAt == s.schedules[id].program.startAt
  {
  }

  lemma MaybeOnairIds(s: State, p: Option<Program>, store: RecordStore, changed: bool)
    requires Inv(s)
    ensures Inv(ApplyMaybeOnair(s, p, store, changed).0)
    ensures Timed(ApplyMaybeOnair(s, p, store, changed).0.schedules)
    ensures ApplyMaybeOnair(s, p, store, changed).0.queue == s.queue
    ensures forall id | id in s.schedules :: s.schedules[id].program.id == id
  {
    if p.Some? && p.value.startAt.Some? { OnairKeeps(s, p.value, store); }
    InvIsTimed(ApplyMaybeOnair(s, p, store, changed).0);
    forall id | id in s.schedules ensures s.schedules[id].program.id == id { assert ScheduleOk(s, id); }
  }

  lemma UnannouncedCurrent(s: State, current: Option<Program>, next: Option<Program>, store: RecordStore)
    requires Inv(s) && QueueExact(s) && Disturbs(s, current) && !ApplyOnairPair(s, current, next, store).2
    ensures !QueueExact(ApplyOnairPair(s, current, next, store).0)
  {
    var (s1, _, c1) := ApplyMaybeOnair(s, current, store, false);
    var s2 := ApplyMaybeOnair(s1, next, store, c1).0;
    MaybeOnairIds(s, current, store, false);
    MaybeOnairIds(s1, next, store, c1);
    DisturbedReady(s, current, store, false);
    StaysTracked(s1, next, store, current.value.id);
    ReadyItemsDiffer(s.schedules, s2.schedules, current.value.id);
    MultisetsDiffer(ReadyItems(s.schedules), ReadyItems(s2.schedules));
  }

  lemma UnannouncedNext(s: State, current: Option<Program>, next: Option<Program>, store: RecordStore)
    requires Inv(s) && QueueExact(s) && !Disturbs(s, current)
    requires Disturbs(ApplyMaybeOnair(s, current, store, false).0, next)
    requires !ApplyOnairPair(s, current, next, store).2
    ensures !QueueExact(ApplyOnairPair(s, current, next, store).0)
  {
    var (s1, _, c1) := ApplyMaybeOnair(s, current, store, false);
    var s2 := ApplyMaybeOnair(s1, next, store, c1).0;
    MaybeOnairIds(s, current, store, false);
    MaybeOnairIds(s1, next, store, c1);
    DisturbedReady(s1, next, store, c1);
    UndisturbedReady(s, current, store, false);
    ReadyItemsDiffer(s1.schedules, s2.schedules, next.value.id);
    MultisetsDiffer(ReadyItems(s1.schedules), ReadyItems(s2.schedules));
  }

  lemma OnairExactStepwise(s: State, current: Option<Program>, next: Option<Program>, store: RecordStore)
    requires Inv(s) && QueueExact(s)
    ensures
      var s1 := ApplyMaybeOnair(s, current, store, false).0;
      QueueExact(HandleOnair(s, current, next, store).state) <==>
        ApplyOnairPair(s, current, next, store).2 || (!Disturbs(s, current) && !Disturbs(s1, next))
  {
    var (s1, _, c1) := ApplyMaybeOnair(s, current, store, false);
    MaybeOnairIds(s, current, store, false);
    MaybeOnairIds(s1, next, store, c1);
    if !ApplyOnairPair(s, current, next, store).2 {
      if Disturbs(s, current) {
        UnannouncedCurrent(s, current, next, store);
      } else if Disturbs(s1, next) {
        UnannouncedNext(s, current, next, store);
      } else {
        UndisturbedReady(s, current, store, false);
        UndisturbedReady(s1, next, store, c1);
      }
    }
  }

  // A program without a start time is ignored.
  predicate Applies(p: Option<Program>) { p.Some? && p.value.startAt.Some? }

  predicate IsPending(s: State, id: ProgramId) {
    id in s.schedules && !s.schedules[id].state.Recording? && !s.schedules[id].state.IsDone()
  }

  predicate SameProgram(current: Option<Program>, next: Option<Program>) {
    Applies(current) && Applies(next) && current.value.id == next.value.id
  }

  // The last program that applies moves a schedule that is not being recorded.
  predicate Rebuilds(s: State, current: Option<Program>, next: Option<Program>) {
    if SameProgram(current, next) then
      IsPending(s, next.value.id) && current.value.startAt != next.value.startAt
    else
      var last := if Applies(next) then next else current;
      && Applies(last) && IsPending(s, last.value.id)
      && s.schedules[last.value.id].program.startAt != last.value.startAt
  }

  lemma MovedIff(s: State, p: Option<Program>, store: RecordStore, changed: bool)
    ensures ApplyMaybeOnair(s, p, store, changed).2 <==>
      if Applies(p) then IsPending(s, p.value.id) && s.schedules[p.value.id].program.startAt != p.value.startAt
      else changed
  {
  }

  lemma PendingStays(s: State, p: Option<Program>, store: RecordStore, changed: bool, id: ProgramId)
    ensures
      var s' := ApplyMaybeOnair(s, p, store, changed).0;
      && (IsPending(s', id) <==> IsPending(s, id))
      && (IsPending(s, id) ==>
          s'.schedules[id].program.startAt ==
            (if Applies(p) && p.value.id == id then p.value.startAt else s.schedules[id].program.startAt))
  {
  }

  lemma RebuildsIff(s: State, current: Option<Program>, next: Option<Program>, store: RecordStore)
    ensures ApplyOnairPair(s, current, next, store).2 <==> Rebuilds(s, current, next)
  {
    var r := ApplyMaybeOnair(s, current, store, false);
    MovedIff(s, current, store, false);
    MovedIff(r.0, next, store, r.2);
    if Applies(next) { PendingStays(s, current, store, false, next.value.id); }
  }

  lemma DisturbsLater(s: State, current: Option<Program>, next: Option<Program>, store: RecordStore)
    requires !Rebuilds(s, current, next)
    ensures Disturbs(ApplyMaybeOnair(s, current, store, false).0, next) <==>
      !SameProgram(current, next) && Disturbs(s, next)
  {
  }

  // An on-air update keeps the queue exact if and only if its last part moves a
  // schedule, so that the queue is rebuilt, or neither part disturbs the ready
  // schedules; a second part for the same program finds it tracked already.
  lemma OnairExactIff(s: State, current: Option<Program>, next: Option<Program>, store: RecordStore)
    requires Inv(s) && QueueExact(s)
    ensures QueueExact(HandleOnair(s, current, next, store).state) <==>
      Rebuilds(s, current, next) ||
      (!Disturbs(s, current) && (SameProgram(current, next) || !Disturbs(s, next)))
  {
    OnairExactStepwise(s, current, next, store);
    RebuildsIff(s, current, next, store);
    if !Rebuilds(s, current, next) { DisturbsLater(s, current, next, store); }
  }

  lemma MultisetsDiffer(a: set<QueueItem>, b: set<QueueItem>)
    requires a != b
    ensures multiset(a) != multiset(b)
  {
    var x :| (x in a) != (x in b);
    assert (x in multiset(a)) != (x in multiset(b));
  }

  // It does happen: a recording refused for lack of a tuner waits; when the
  // on-air tracker reports its program at the same start time it is tracked, but
  // it is not queued, and no longer waiting it is not woken by a free tuner either.
  lemma TrackedButNotQueued() returns (s: State, p: Program, s': State, types: seq<ChannelType>)
    ensures Inv(s) && QueueExact(s) && p.id in s.schedules && s.schedules[p.id].state.Waiting?
    ensures s' == HandleOnair(s, Some(p), None, Disabled).state
    ensures p.id in s'.schedules && s'.schedules[p.id].state.Tracking? && s'.queue == multiset{}
    ensures s'.schedules[p.id].service.channel.channelType in types
    ensures Timed(s'.schedules) && HandleTunerAvailable(s', types).state == s'
  {
    var id := ProgramId(1, 2);
    p := Program(id, Some(0), Some(60000));
    var c := Schedule.Schedule(Waiting, p, Service.Service("s", Channel.Channel("c", GR, "1")), 0, {}, Some(StartRecordingFailed));
    s := State.State(map[id := c], multiset{}, [], map[]);
    assert ScheduleOk(s, id);
    assert ReadyItems(s.schedules) == {};
    types := [GR];
    s' := HandleOnair(s, Some(p), None, Disabled).state;
    assert s'.schedules[id].state.Tracking?;
  }
}
