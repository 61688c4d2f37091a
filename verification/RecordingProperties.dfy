// What the recording scheduler guarantees over every run.
module RecordingProperties {
  import opened Models
  import opened Recordings

  // Invariants

  ghost predicate ScheduleOk(s: State, id: ProgramId)
    requires id in s.schedules
  {
    var c := s.schedules[id];
    && c.program.id == id
    && c.program.startAt.Some?
    && !c.state.IsDone()
    && (c.state.Recording? <==> id in s.recorders)
    && (c.state.Waiting? ==> c.failure.Some?)
  }

  ghost predicate SchedulesOk(s: State) {
    forall id | id in s.schedules :: ScheduleOk(s, id)
  }

  // Queued programs are distinct, scheduled, ready and (by ScheduleOk) have no recorder.
  ghost predicate QueueOk(s: State) {
    && (forall it | it in s.queue :: s.queue[it] == 1 && it.id in s.schedules && s.schedules[it.id].state.IsReady())
    && (forall a, b | a in s.queue && b in s.queue && a.id == b.id :: a == b)
  }

  ghost predicate EntryOk(c: Schedule) {
    c.state.IsDone() && c.program.startAt.Some? && (c.state.Failed? ==> c.failure.Some?)
  }

  ghost predicate HistoryOk(h: seq<Schedule>) {
    forall c | c in h :: EntryOk(c)
  }

  ghost predicate Inv(s: State) {
    SchedulesOk(s) && QueueOk(s) && HistoryOk(s.history)
  }

  // No schedule is added for a program that is not scheduled but still has a recorder.
  ghost predicate Admissible(s: State, m: Msg)
    requires Timed(s.schedules)
  {
    && WellFormed(s, m)
    && (m.Add? ==> m.schedule.program.id in s.schedules || m.schedule.program.id !in s.recorders)
  }

  lemma InvIsTimed(s: State)
    requires SchedulesOk(s)
    ensures Timed(s.schedules)
  {
    forall id | id in s.schedules ensures s.schedules[id].program.startAt.Some? { assert ScheduleOk(s, id); }
  }

  lemma RebuiltKeeps(s: State)
    requires SchedulesOk(s) && HistoryOk(s.history) && Timed(s.schedules)
    ensures Inv(Rebuilt(s))
  {
    var s' := Rebuilt(s);
    forall id | id in s'.schedules ensures ScheduleOk(s', id) { assert ScheduleOk(s, id); }
    forall it | it in s'.queue
      ensures s'.queue[it] == 1 && it.id in s.schedules && s.schedules[it.id].state.IsReady()
    {
      var id :| id in s.schedules && s.schedules[id].state.IsReady() &&
        it == QueueItem(s.schedules[id].program.id, s.schedules[id].program.startAt.value, s.schedules[id].priority);
      assert ScheduleOk(s, id);
    }
    forall a, b | a in s'.queue && b in s'.queue && a.id == b.id ensures a == b {
      var i :| i in s.schedules && s.schedules[i].state.IsReady() &&
        a == QueueItem(s.schedules[i].program.id, s.schedules[i].program.startAt.value, s.schedules[i].priority);
      var j :| j in s.schedules && s.schedules[j].state.IsReady() &&
        b == QueueItem(s.schedules[j].program.id, s.schedules[j].program.startAt.value, s.schedules[j].priority);
      assert ScheduleOk(s, i) && ScheduleOk(s, j);
    }
  }

  // On-air updates

  lemma OnairKeeps(s: State, p: Program, store: RecordStore)
    requires Inv(s) && p.startAt.Some?
    ensures Inv(ApplyOnair(s, p, store).0)
  {
    OnairSchedulesOk(s, p, store);
    OnairQueueOk(s, p, store);
  }

  lemma OnairSchedulesOk(s: State, p: Program, store: RecordStore)
    requires SchedulesOk(s) && p.startAt.Some?
    ensures SchedulesOk(ApplyOnair(s, p, store).0)
  {
    var s' := ApplyOnair(s, p, store).0;
    if p.id in s.schedules { assert ScheduleOk(s, p.id); }
    forall id | id in s'.schedules ensures ScheduleOk(s', id) { assert ScheduleOk(s, id); }
  }

  // Ready schedules stay ready.
  lemma OnairQueueOk(s: State, p: Program, store: RecordStore)
    requires QueueOk(s)
    ensures QueueOk(ApplyOnair(s, p, store).0)
  {
    var s' := ApplyOnair(s, p, store).0;
    assert s'.queue == s.queue;
    forall it | it in s.queue ensures it.id in s'.schedules && s'.schedules[it.id].state.IsReady() {
      assert s.schedules[it.id].state.IsReady();
    }
  }

  lemma OnairPairKeeps(s: State, current: Option<Program>, next: Option<Program>, store: RecordStore)
    requires Inv(s)
    ensures Inv(ApplyOnairPair(s, current, next, store).0)
  {
    if current.Some? && current.value.startAt.Some? { OnairKeeps(s, current.value, store); }
    var s1 := ApplyMaybeOnair(s, current, store, false).0;
    if next.Some? && next.value.startAt.Some? { OnairKeeps(s1, next.value, store); }
  }

  lemma AddKeeps(s: State, c: Schedule, current: Option<Program>, next: Option<Program>, store: RecordStore)
    requires Inv(s) && Timed(s.schedules) && c.state.Scheduled? && c.program.startAt.Some?
    requires c.program.id in s.schedules || c.program.id !in s.recorders
    ensures Inv(HandleAdd(s, c, current, next, store).state)
  {
    if c.program.id !in s.schedules {
      AddedKeeps(s, c);
      OnairPairKeeps(WithSchedule(s, c), current, next, store);
      var s1 := ApplyOnairPair(WithSchedule(s, c), current, next, store).0;
      InvIsTimed(s1);
      RebuiltKeeps(s1);
    }
  }

  // An on-air update leaves a ready schedule ready and starts no recorder.
  lemma OnairLeavesReady(s: State, p: Option<Program>, store: RecordStore, changed: bool, id: ProgramId)
    requires id in s.schedules && s.schedules[id].state.IsReady()
    ensures
      var s' := ApplyMaybeOnair(s, p, store, changed).0;
      id in s'.schedules && s'.schedules[id].state.IsReady() && s'.recorders == s.recorders
  {
  }

  lemma PairLeavesReady(s: State, current: Option<Program>, next: Option<Program>, store: RecordStore, id: ProgramId)
    requires id in s.schedules && s.schedules[id].state.IsReady()
    ensures
      var s' := ApplyOnairPair(s, current, next, store).0;
      id in s'.schedules && s'.schedules[id].state.IsReady() && s'.recorders == s.recorders
  {
    var r := ApplyMaybeOnair(s, current, store, false);
    OnairLeavesReady(s, current, store, false, id);
    OnairLeavesReady(r.0, next, store, r.2, id);
  }

  // Adding a schedule keeps the invariant exactly if it is refused or the program
  // has no recorder left over from an earlier schedule.
  lemma AddKeepsIff(s: State, c: Schedule, current: Option<Program>, next: Option<Program>, store: RecordStore)
    requires Inv(s) && Timed(s.schedules) && c.state.Scheduled? && c.program.startAt.Some?
    ensures Inv(HandleAdd(s, c, current, next, store).state) <==>
      c.program.id in s.schedules || c.program.id !in s.recorders
  {
    var id := c.program.id;
    if id in s.schedules || id !in s.recorders {
      AddKeeps(s, c, current, next, store);
    } else {
      PairLeavesReady(WithSchedule(s, c), current, next, store, id);
      assert !ScheduleOk(HandleAdd(s, c, current, next, store).state, id);
    }
  }

  // The end of such a left-over recorder finishes the new schedule, which was
  // never recorded, and leaves its item in the queue.
  lemma LeftOverFinishesAdded(s: State, c: Schedule, store: RecordStore, codes: seq<Option<int>>)
    requires Inv(s) && Timed(s.schedules) && c.state.Scheduled? && c.program.startAt.Some?
    requires c.program.id in s.recorders && c.program.id !in s.schedules && ExitOf(codes).Success?
    ensures
      var s1 := HandleAdd(s, c, None, None, store).state;
      var s2 := HandleStopped(s1, c.program.id, codes, store).state;
      && s1.schedules == s.schedules[c.program.id := c]
      && s2.schedules == s.schedules && s2.recorders == s.recorders - {c.program.id}
      && s2.history == s.history + [c.(state := Finished)]
      && QueueItem(c.program.id, c.program.startAt.value, c.priority) in s2.queue
  {
    var id := c.program.id;
    var s1 := HandleAdd(s, c, None, None, store).state;
    assert s1.schedules == s.schedules[id := c] && s1.recorders == s.recorders;
    assert QueueItem(s1.schedules[id].program.id, s1.schedules[id].program.startAt.value, s1.schedules[id].priority)
      in ReadyItems(s1.schedules);
    assert s1.schedules[id := c.(state := Finished)] - {id} == s.schedules;
  }

  // Removal

  lemma RemoveKeeps(s: State, id: ProgramId)
    requires Inv(s) && Timed(s.schedules)
    ensures Inv(HandleRemove(s, id).state)
  {
    if id in s.schedules {
      var s1 := Removed(s, id);
      var s2 := if s.schedules[id].state.Recording? then TriggerTaken(s1, id) else s1;
      forall i | i in s2.schedules ensures ScheduleOk(s2, i) { assert ScheduleOk(s, i); }
      RebuiltKeeps(s2);
    }
  }

  // Removing a schedule leaves a recorder over exactly if it is being recorded.
  lemma LeftOverIff(s: State, id: ProgramId)
    requires Inv(s) && Timed(s.schedules) && id in s.schedules
    ensures
      var s' := HandleRemove(s, id).state;
      && Inv(s') && id !in s'.schedules
      && (id in s'.recorders <==> s.schedules[id].state.Recording?)
  {
    RemoveKeeps(s, id);
    assert ScheduleOk(s, id);
  }

  lemma RemoveTaggedKeeps(s: State, tag: string, now: int)
    requires Inv(s) && Timed(s.schedules)
    ensures Inv(HandleRemoveTagged(s, tag, now).state)
  {
    var kept := map id | id in s.schedules && RetainedByTag(s.schedules[id], tag, now) :: s.schedules[id];
    var s1 := s.(schedules := kept);
    forall i | i in s1.schedules ensures ScheduleOk(s1, i) { assert ScheduleOk(s, i); }
    RebuiltKeeps(s1);
  }

  // Starting

  ghost predicate Startable(s: State, id: ProgramId) {
    && id in s.schedules
    && s.schedules[id].state.IsReady()
    && id !in s.recorders
    && forall it | it in s.queue :: it.id != id
  }

  lemma StartKeeps(s: State, id: ProgramId, o: StartOutcome)
    requires Inv(s) && Startable(s, id)
    ensures Inv(ApplyStart(s, id, o).0)
    ensures ApplyStart(s, id, o).0.queue == s.queue
  {
    var s' := ApplyStart(s, id, o).0;
    assert ScheduleOk(s, id);
    forall i | i in s'.schedules ensures ScheduleOk(s', i) {
      if i in s.schedules { assert ScheduleOk(s, i); }
    }
  }

  lemma StartLeavesStartable(s: State, id: ProgramId, o: StartOutcome, other: ProgramId)
    requires Startable(s, id) && Startable(s, other) && other != id
    ensures Startable(ApplyStart(s, id, o).0, other)
  {
  }

  ghost predicate AllStartable(s: State, picked: seq<QueueItem>) {
    && (forall i | 0 <= i < |picked| :: Startable(s, picked[i].id))
    && (forall i, j | 0 <= i < j < |picked| :: picked[i].id != picked[j].id)
  }

  lemma {:induction false} StartAllKeeps(s: State, picked: seq<QueueItem>, outcomes: seq<StartOutcome>)
    requires |picked| == |outcomes|
    requires Inv(s) && AllStartable(s, picked)
    ensures Inv(StartAll(s, picked, outcomes).0)
    ensures StartAll(s, picked, outcomes).0.queue == s.queue
    decreases |picked|
  {
    if picked != [] {
      FirstStartKeeps(s, picked, outcomes);
      StartKeeps(s, picked[0].id, outcomes[0]);
      var s1 := ApplyStart(s, picked[0].id, outcomes[0]).0;
      StartAllKeeps(s1, picked[1..], outcomes[1..]);
    }
  }

  // The k-th program taken from the queue is started from a state in which it
  // is scheduled, ready and without a recorder, so starting it never fails
  // because a recorder exists.
  lemma {:induction false} QueuedStartsAreFresh(
    s: State, picked: seq<QueueItem>, outcomes: seq<StartOutcome>, k: nat)
    requires k < |picked| == |outcomes|
    requires Inv(s) && AllStartable(s, picked)
    ensures Startable(StartAll(s, picked[..k], outcomes[..k]).0, picked[k].id)
    decreases k
  {
    assert Startable(s, picked[k].id);
    if k > 0 {
      FirstStartKeeps(s, picked, outcomes);
      var s1 := ApplyStart(s, picked[0].id, outcomes[0]).0;
      QueuedStartsAreFresh(s1, picked[1..], outcomes[1..], k - 1);
      TakeTail(picked, k, k - 1);
      TakeTail(outcomes, k, k - 1);
    }
  }

  lemma FirstStartKeeps(s: State, picked: seq<QueueItem>, outcomes: seq<StartOutcome>)
    requires 0 < |picked| == |outcomes| && Inv(s) && AllStartable(s, picked)
    ensures Inv(ApplyStart(s, picked[0].id, outcomes[0]).0)
    ensures AllStartable(ApplyStart(s, picked[0].id, outcomes[0]).0, picked[1..])
  {
    assert Startable(s, picked[0].id);
    StartKeeps(s, picked[0].id, outcomes[0]);
    var s1 := ApplyStart(s, picked[0].id, outcomes[0]).0;
    forall i | 0 <= i < |picked[1..]| ensures Startable(s1, picked[1..][i].id) {
      assert Startable(s, picked[i + 1].id) && picked[0].id != picked[i + 1].id;
      StartLeavesStartable(s, picked[0].id, outcomes[0], picked[i + 1].id);
    }
  }

  // Dequeuing takes exactly the items due within the preparation time, in order
  // of start time and priority.
  lemma DequeuesExactlyTheDue(s: State, now: int, picked: seq<QueueItem>, it: QueueItem)
    requires QueueOk(s) && Dequeues(s.queue, now, picked)
    ensures it in picked <==> it in s.queue && it.startAt - now <= PREP
    ensures forall i, j | 0 <= i < j < |picked| ::
      picked[i].startAt < picked[j].startAt ||
      (picked[i].startAt == picked[j].startAt && picked[i].priority >= picked[j].priority)
  {
    assert it in picked <==> it in multiset(picked);
    forall i, j | 0 <= i < j < |picked|
      ensures picked[i].startAt < picked[j].startAt ||
        (picked[i].startAt == picked[j].startAt && picked[i].priority >= picked[j].priority)
    {
      assert !picked[j].Precedes(picked[i]);
    }
  }

  lemma PickedAreDistinct(q: multiset<QueueItem>, picked: seq<QueueItem>)
    requires multiset(picked) <= q
    requires forall it | it in q :: q[it] == 1
    requires forall a, b | a in q && b in q && a.id == b.id :: a == b
    ensures forall it | it in picked :: it in q && it !in q - multiset(picked)
    ensures forall i, j | 0 <= i < j < |picked| :: picked[i].id != picked[j].id
  {
    forall it | it in picked ensures it in q && it !in q - multiset(picked) {
      assert it in multiset(picked);
    }
    forall i, j | 0 <= i < j < |picked| ensures picked[i].id != picked[j].id {
      if picked[i].id == picked[j].id {
        assert picked[i] in q && picked[j] in q;
        TwiceInSequence(picked, i, j);
      }
    }
  }

  lemma DequeuedKeeps(s: State, now: int, picked: seq<QueueItem>)
    requires Inv(s) && Dequeues(s.queue, now, picked)
    ensures Inv(Dequeued(s, picked))
  {
    var s' := Dequeued(s, picked);
    assert forall it | it in s'.queue :: it in s.queue;
    forall i | i in s'.schedules ensures ScheduleOk(s', i) { assert ScheduleOk(s, i); }
  }

  lemma DequeuedIsStartable(s: State, now: int, picked: seq<QueueItem>)
    requires Inv(s) && Dequeues(s.queue, now, picked)
    ensures Inv(Dequeued(s, picked))
    ensures AllStartable(Dequeued(s, picked), picked)
  {
    DequeuedKeeps(s, now, picked);
    PickedAreDistinct(s.queue, picked);
    forall i | 0 <= i < |picked| ensures Startable(Dequeued(s, picked), picked[i].id) {
      OneIsStartable(s, picked, i);
    }
  }

  lemma OneIsStartable(s: State, picked: seq<QueueItem>, i: nat)
    requires SchedulesOk(s) && QueueOk(s) && i < |picked|
    requires picked[i] in s.queue && picked[i] !in s.queue - multiset(picked)
    ensures Startable(Dequeued(s, picked), picked[i].id)
  {
    assert ScheduleOk(s, picked[i].id);
    assert forall it | it in s.queue - multiset(picked) :: it in s.queue;
  }

  lemma TwiceInSequence(a: seq<QueueItem>, i: nat, j: nat)
    requires i < j < |a| && a[i] == a[j]
    ensures multiset(a)[a[i]] >= 2
  {
    assert a == a[..j] + a[j..];
    assert a[..j][i] in multiset(a[..j]) && a[j..][0] in multiset(a[j..]);
    assert multiset(a) == multiset(a[..j]) + multiset(a[j..]);
  }

  // Maintenance

  lemma MaintainedKeeps(s: State, now: int, order: seq<ProgramId>)
    requires SchedulesOk(s) && HistoryOk(s.history)
    ensures SchedulesOk(Maintained(s, now, order).0) && HistoryOk(Maintained(s, now, order).0.history)
  {
    var s' := Maintained(s, now, order).0;
    forall i | i in s'.schedules ensures ScheduleOk(s', i) { assert ScheduleOk(s, i); }
    var expired := Select(order, IsExpired(s, now));
    var ended := Select(order, HasEnded(s, now));
    var givenUp := Select(ended, IsGivenUp(s, now));
    forall c | c in Entries(s.schedules, expired, Expired) ensures EntryOk(c) {
      var i :| 0 <= i < |expired| && c == Entries(s.schedules, expired, Expired)[i];
      assert expired[i] in expired;
      assert ScheduleOk(s, expired[i]);
    }
    forall c | c in Entries(s.schedules, givenUp, GivenUp) ensures EntryOk(c) {
      var i :| 0 <= i < |givenUp| && c == Entries(s.schedules, givenUp, GivenUp)[i];
      assert givenUp[i] in givenUp;
      assert ScheduleOk(s, givenUp[i]);
    }
  }

  // Maintenance that reports no change makes none.
  lemma UnchangedByMaintenance(s: State, now: int, order: seq<ProgramId>)
    requires Enumerates(order, s.schedules) && !Maintained(s, now, order).2
    ensures Maintained(s, now, order).0 == s
  {
    var (s', _, _) := Maintained(s, now, order);
    forall id | id in s.schedules ensures id in s'.schedules && s'.schedules[id] == s.schedules[id] {
      assert id in order;
      assert !VerdictAt(s, id, now).Expire? by {
        assert id !in Select(order, IsExpired(s, now));
      }
      assert !VerdictAt(s, id, now).Reschedule? && !VerdictAt(s, id, now).GiveUp? by {
        assert id !in Select(order, HasEnded(s, now));
      }
    }
    assert s'.schedules == s.schedules;
  }

  lemma PreparedKeeps(s: State, now: int, order: seq<ProgramId>)
    requires Inv(s) && Timed(s.schedules) && Enumerates(order, s.schedules)
    ensures Inv(Prepared(s, now, order).0)
  {
    MaintainedKeeps(s, now, order);
    if Maintained(s, now, order).2 {
      RebuiltKeeps(Maintained(s, now, order).0);
    } else {
      UnchangedByMaintenance(s, now, order);
    }
  }

  lemma ProcessKeeps(s: State, now: int, order: seq<ProgramId>, picked: seq<QueueItem>, outcomes: seq<StartOutcome>)
    requires Inv(s) && Timed(s.schedules) && WellFormed(s, Process(now, order, picked, outcomes))
    ensures Inv(HandleProcess(s, now, order, picked, outcomes).state)
  {
    var s1 := Prepared(s, now, order).0;
    PreparedKeeps(s, now, order);
    DequeuedIsStartable(s1, now, picked);
    StartAllKeeps(Dequeued(s1, picked), picked, outcomes);
    var s2 := StartAll(Dequeued(s1, picked), picked, outcomes).0;
    var s3 := s2.(history := Kept(s2.history, now));
    forall i | i in s3.schedules ensures ScheduleOk(s3, i) { assert ScheduleOk(s2, i); }
  }

  // The other handlers

  lemma StoppedKeeps(s: State, id: ProgramId, exit: Exit, store: RecordStore)
    requires Inv(s)
    ensures Inv(ApplyStopped(s, id, exit, store).0)
  {
    if id in s.recorders && id in s.schedules {
      assert ScheduleOk(s, id);
      StoppedMeans(s, id, exit, store);
    }
    var s' := ApplyStopped(s, id, exit, store).0;
    forall i | i in s'.schedules ensures ScheduleOk(s', i) { assert ScheduleOk(s, i); }
  }

  lemma StoppedMeans(s: State, id: ProgramId, exit: Exit, store: RecordStore)
    requires id in s.recorders && id in s.schedules
    ensures
      var s', c := ApplyStopped(s, id, exit, store).0, StoppedSchedule(s.schedules[id], exit);
      s' == if exit.Retry? then s.(schedules := s.schedules[id := c], recorders := s.recorders - {id})
            else s.(schedules := s.schedules - {id}, recorders := s.recorders - {id}, history := s.history + [c])
  {
    assert s.schedules[id := StoppedSchedule(s.schedules[id], exit)] - {id} == s.schedules - {id};
  }

  lemma TunerAvailableKeeps(s: State, types: seq<ChannelType>)
    requires Inv(s) && Timed(s.schedules)
    ensures Inv(HandleTunerAvailable(s, types).state)
  {
    var s1 := s.(schedules := Woken(s.schedules, types));
    forall i | i in s1.schedules ensures ScheduleOk(s1, i) { assert ScheduleOk(s, i); }
    RebuiltKeeps(s1);
  }

  lemma ServicesKeeps(s: State, services: map<nat, Service>, order: seq<ProgramId>)
    requires Inv(s) && Timed(s.schedules)
    ensures Inv(HandleServices(s, services, order).state)
  {
    var removed := Select(order, IsUnserved(s, services));
    var recorders := map id | id in s.recorders ::
      if id in removed then Recorder.Recorder(None) else s.recorders[id];
    var s1 := s.(schedules := WithServices(s.schedules, services), recorders := recorders);
    forall i | i in s1.schedules ensures ScheduleOk(s1, i) { assert ScheduleOk(s, i); }
    if s1.schedules != s.schedules { RebuiltKeeps(s1); }
  }

  lemma ProgramsKeeps(s: State, now: int, service: nat, ps: map<nat, Program>, order: seq<ProgramId>)
    requires Inv(s) && Timed(s.schedules)
    requires forall e | e in ps :: ps[e].id == ProgramId(service, e)
    ensures Inv(HandlePrograms(s, now, service, Some(ps), order).state)
  {
    var gone := Select(order, IsGone(s, now, service, ps));
    var s1 := s.(schedules := WithPrograms(s.schedules, now, service, ps),
                 history := s.history + Entries(s.schedules, gone, RemovedFromEpgFailed));
    forall i | i in s1.schedules ensures ScheduleOk(s1, i) { assert ScheduleOk(s, i); }
    forall c | c in Entries(s.schedules, gone, RemovedFromEpgFailed) ensures EntryOk(c) {
      var i :| 0 <= i < |gone| && c == Entries(s.schedules, gone, RemovedFromEpgFailed)[i];
      assert gone[i] in gone;
      assert ScheduleOk(s, gone[i]);
    }
    if exists id :: id in s.schedules && !EpgVerdictOf(s.schedules[id], id, now, service, ps).Untouched? {
      RebuiltKeeps(s1);
    } else {
      AllUntouched(s.schedules, now, service, ps);
    }
  }

  lemma AnyProgramsKeep(s: State, now: int, service: nat, programs: Option<map<nat, Program>>, order: seq<ProgramId>)
    requires Inv(s) && Timed(s.schedules)
    requires programs.Some? ==> forall e | e in programs.value :: programs.value[e].id == ProgramId(service, e)
    ensures Inv(HandlePrograms(s, now, service, programs, order).state)
  {
    if programs.Some? {
      ProgramsKeeps(s, now, service, programs.value, order);
      assert programs == Some(programs.value);
    }
  }

  lemma AllUntouched(m: map<ProgramId, Schedule>, now: int, service: nat, ps: map<nat, Program>)
    requires forall id | id in m :: EpgVerdictOf(m[id], id, now, service, ps).Untouched?
    ensures WithPrograms(m, now, service, ps) == m
  {
  }

  lemma OnairChangedKeeps(s: State, current: Option<Program>, next: Option<Program>, store: RecordStore)
    requires Inv(s) && Timed(s.schedules)
    ensures Inv(HandleOnair(s, current, next, store).state)
  {
    OnairPairKeeps(s, current, next, store);
    RebuiltKeeps(ApplyOnairPair(s, current, next, store).0);
  }

  function WithSchedule(s: State, c: Schedule): State {
    s.(schedules := s.schedules[c.program.id := c])
  }

  lemma AddedKeeps(s: State, c: Schedule)
    requires Inv(s) && c.program.id !in s.schedules && c.program.id !in s.recorders
    requires c.state.Scheduled? && c.program.startAt.Some?
    ensures Inv(WithSchedule(s, c)) && Startable(WithSchedule(s, c), c.program.id)
  {
    var added := WithSchedule(s, c);
    forall id | id in added.schedules ensures ScheduleOk(added, id) {
      if id != c.program.id { assert ScheduleOk(s, id); }
    }
  }

  lemma TriggerTakenKeeps(s: State, id: ProgramId)
    requires Inv(s)
    ensures Inv(TriggerTaken(s, id))
  {
    forall i | i in s.schedules ensures ScheduleOk(TriggerTaken(s, id), i) { assert ScheduleOk(s, i); }
  }

  lemma StartHandlerKeeps(s: State, c: Schedule, o: StartOutcome)
    requires Inv(s) && c.state.Scheduled? && c.program.startAt.Some?
    ensures Inv(HandleStart(s, c, o).state)
  {
    var id := c.program.id;
    if id !in s.schedules && id !in s.recorders {
      AddedKeeps(s, c);
      StartKeeps(WithSchedule(s, c), id, o);
    } else if id !in s.schedules {
      FailedStart(s, c, o);
      var s' := HandleStart(s, c, o).state;
      forall i | i in s'.schedules ensures ScheduleOk(s', i) { assert ScheduleOk(s, i); }
    }
  }

  // A direct start fails while an earlier recorder of the program goes on.
  lemma FailedStart(s: State, c: Schedule, o: StartOutcome)
    requires c.program.id !in s.schedules && c.program.id in s.recorders
    ensures HandleStart(s, c, o).state ==
      s.(history := s.history + [c.(state := Failed, failure := Some(StartRecordingFailed))])
  {
    assert s.schedules[c.program.id := c] - {c.program.id} == s.schedules;
  }

  lemma RequestKeepsInv(s: State, m: Msg)
    requires Inv(s) && Timed(s.schedules) && Admissible(s, m)
    requires m.Add? || m.Remove? || m.RemoveAll? || m.RemoveTagged? || m.Start? || m.StopRecording?
    ensures Inv(Step(s, m).state)
  {
    match m {
      case Add(c, current, next, store) => AddKeeps(s, c, current, next, store);
      case Remove(id) => RemoveKeeps(s, id);
      case RemoveAll =>
      case RemoveTagged(tag, now) => RemoveTaggedKeeps(s, tag, now);
      case Start(c, o) => StartHandlerKeeps(s, c, o);
      case StopRecording(id) => TriggerTakenKeeps(s, id);
    }
  }

  lemma TunersKeepInv(s: State, m: Msg)
    requires Inv(s) && Timed(s.schedules) && Admissible(s, m) && m.TunerAvailable?
    ensures Inv(Step(s, m).state)
  {
    TunerAvailableKeeps(s, m.types);
  }

  lemma ServicesKeepInv(s: State, m: Msg)
    requires Inv(s) && Timed(s.schedules) && Admissible(s, m) && m.ServicesUpdated?
    ensures Inv(Step(s, m).state)
  {
    ServicesKeeps(s, m.services, m.order);
    assert Step(s, m) == HandleServices(s, m.services, m.order);
  }

  lemma ProgramsKeepInv(s: State, m: Msg)
    requires Inv(s) && Timed(s.schedules) && Admissible(s, m) && m.ProgramsUpdated?
    ensures Inv(Step(s, m).state)
  {
    AnyProgramsKeep(s, m.now, m.service, m.programs, m.order);
  }

  lemma OnairKeepsInv(s: State, m: Msg)
    requires Inv(s) && Timed(s.schedules) && Admissible(s, m) && m.OnairChanged?
    ensures Inv(Step(s, m).state)
  {
    OnairChangedKeeps(s, m.current, m.next, m.store);
    assert Step(s, m) == HandleOnair(s, m.current, m.next, m.store);
  }

  lemma NoticeKeepsInv(s: State, m: Msg)
    requires Inv(s) && Timed(s.schedules) && Admissible(s, m)
    requires m.TunerAvailable? || m.ServicesUpdated? || m.ProgramsUpdated? || m.OnairChanged?
    ensures Inv(Step(s, m).state)
  {
    if m.TunerAvailable? {
      TunersKeepInv(s, m);
    } else if m.ServicesUpdated? {
      ServicesKeepInv(s, m);
    } else if m.ProgramsUpdated? {
      ProgramsKeepInv(s, m);
    } else {
      OnairKeepsInv(s, m);
    }
  }

  lemma PipelineKeepsInv(s: State, m: Msg)
    requires Inv(s) && Timed(s.schedules) && Admissible(s, m) && (m.Process? || m.PipelineStopped?)
    ensures Inv(Step(s, m).state)
  {
    match m {
      case Process(now, order, picked, outcomes) => ProcessKeeps(s, now, order, picked, outcomes);
      case PipelineStopped(id, codes, store) => StoppedKeeps(s, id, ExitOf(codes), store);
    }
  }

  lemma KeepsInv(s: State, m: Msg)
    requires Inv(s) && Timed(s.schedules) && Admissible(s, m)
    ensures Inv(Step(s, m).state)
  {
    if m.TunerAvailable? || m.ServicesUpdated? || m.ProgramsUpdated? || m.OnairChanged? {
      NoticeKeepsInv(s, m);
    } else if m.Process? || m.PipelineStopped? {
      PipelineKeepsInv(s, m);
    } else {
      RequestKeepsInv(s, m);
    }
  }

  lemma StepKeepsInv(s: State, m: Msg)
    requires Inv(s) && Timed(s.schedules) && Admissible(s, m)
    ensures Inv(Step(s, m).state) && Timed(Step(s, m).state.schedules)
  {
    KeepsInv(s, m);
    InvIsTimed(Step(s, m).state);
  }

  // Every well-formed message keeps the start times, whatever the state.

  lemma {:induction false} StartAllKeepsTimed(s: State, picked: seq<QueueItem>, outcomes: seq<StartOutcome>)
    requires |picked| == |outcomes| && Timed(s.schedules)
    ensures Timed(StartAll(s, picked, outcomes).0.schedules)
    decreases |picked|
  {
    if picked != [] {
      StartAllKeepsTimed(ApplyStart(s, picked[0].id, outcomes[0]).0, picked[1..], outcomes[1..]);
    }
  }

  lemma ProgramsKeepTimed(s: State, now: int, service: nat, programs: Option<map<nat, Program>>, order: seq<ProgramId>)
    requires Timed(s.schedules)
    ensures Timed(HandlePrograms(s, now, service, programs, order).state.schedules)
  {
  }

  lemma RequestKeepsTimed(s: State, m: Msg)
    requires Timed(s.schedules) && WellFormed(s, m)
    requires m.Add? || m.Remove? || m.RemoveAll? || m.RemoveTagged? || m.Start? || m.StopRecording?
    ensures Timed(Step(s, m).state.schedules)
  {
  }

  lemma NoticeKeepsTimed(s: State, m: Msg)
    requires Timed(s.schedules) && WellFormed(s, m)
    requires m.PipelineStopped? || m.TunerAvailable? || m.ServicesUpdated? || m.OnairChanged?
    ensures Timed(Step(s, m).state.schedules)
  {
  }

  lemma StepKeepsTimed(s: State, m: Msg)
    requires Timed(s.schedules) && WellFormed(s, m)
    ensures Timed(Step(s, m).state.schedules)
  {
    match m
    case Process(now, order, picked, outcomes) =>
      StartAllKeepsTimed(Dequeued(Prepared(s, now, order).0, picked), picked, outcomes);
    case ProgramsUpdated(now, service, programs, order) =>
      assert Step(s, m) == HandlePrograms(s, now, service, programs, order);
      ProgramsKeepTimed(s, now, service, programs, order);
    case PipelineStopped(_, _, _) => NoticeKeepsTimed(s, m);
    case TunerAvailable(_) => NoticeKeepsTimed(s, m);
    case ServicesUpdated(_, _) => NoticeKeepsTimed(s, m);
    case OnairChanged(_, _, _) => NoticeKeepsTimed(s, m);
    case _ => RequestKeepsTimed(s, m);
  }

  // A message keeps the invariant exactly if it is admissible.
  lemma StepKeepsInvIff(s: State, m: Msg)
    requires Inv(s) && Timed(s.schedules) && WellFormed(s, m)
    ensures Inv(Step(s, m).state) <==> Admissible(s, m)
  {
    if m.Add? {
      AddKeepsIff(s, m.schedule, m.current, m.next, m.store);
    } else {
      KeepsInv(s, m);
    }
  }

  // Selections

  ghost predicate Distinct(ids: seq<ProgramId>) {
    forall i, j | 0 <= i < j < |ids| :: ids[i] != ids[j]
  }

  // Selecting from distinct programs keeps them distinct.
  lemma {:induction false} SelectDistinct(order: seq<ProgramId>, p: ProgramId -> bool)
    requires Distinct(order)
    ensures Distinct(Select(order, p))
  {
    if order != [] {
      SelectDistinct(order[1..], p);
      assert forall id | id in Select(order[1..], p) :: id in order[1..];
    }
  }

  lemma {:induction false} SelectSnoc(a: seq<ProgramId>, x: ProgramId, p: ProgramId -> bool)
    ensures Select(a + [x], p) == Select(a, p) + if p(x) then [x] else []
  {
    if a == [] {
      assert a + [x] == [x] && [x][1..] == [];
    } else {
      assert (a + [x])[0] == a[0] && (a + [x])[1..] == a[1..] + [x];
      SelectSnoc(a[1..], x, p);
    }
  }

  lemma SelectNext(order: seq<ProgramId>, i: nat, p: ProgramId -> bool)
    requires i < |order|
    ensures Select(order[..i + 1], p) == Select(order[..i], p) + if p(order[i]) then [order[i]] else []
  {
    assert order[..i + 1] == order[..i] + [order[i]];
    SelectSnoc(order[..i], order[i], p);
  }

  lemma {:induction false} SelectAgrees(a: seq<ProgramId>, p: ProgramId -> bool, q: ProgramId -> bool)
    requires forall id | id in a :: p(id) <==> q(id)
    ensures Select(a, p) == Select(a, q)
  {
    if a != [] {
      assert a[0] in a && forall id | id in a[1..] :: id in a;
      SelectAgrees(a[1..], p, q);
    }
  }

  lemma EntriesSnoc(m: map<ProgramId, Schedule>, ids: seq<ProgramId>, id: ProgramId, f: Schedule -> Schedule)
    requires id in m && forall i | i in ids :: i in m
    ensures Entries(m, ids + [id], f) == Entries(m, ids, f) + [f(m[id])]
  {
  }

  lemma FailuresSnoc(ids: seq<ProgramId>, id: ProgramId, reason: Reason)
    ensures Failures(ids + [id], reason) == Failures(ids, reason) + [RecordingFailed(id, reason)]
  {
  }
}
