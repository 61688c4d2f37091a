// What the handlers of the recording manager do to each schedule, told by its
// fields, the time and the message.
module RecordingEffects {
  import opened Models
  import opened Recordings
  import opened RecordingProperties
  import opened RecordingLifecycle

  // The queue

  // Exactly the schedules in the states Scheduled and Tracking are queued, once.
  lemma QueueMeans(s: State, it: QueueItem)
    requires Inv(s) && QueueExact(s)
    ensures s.queue[it] <= 1
    ensures it in s.queue <==>
      && it.id in s.schedules
      && (s.schedules[it.id].state.Scheduled? || s.schedules[it.id].state.Tracking?)
      && s.schedules[it.id].program.startAt == Some(it.startAt)
      && s.schedules[it.id].priority == it.priority
  {
    if it.id in s.schedules {
      assert ScheduleOk(s, it.id);
      if s.schedules[it.id].state.IsReady() { ReadyAt(s.schedules, it.id); }
    }
    if it in s.queue {
      assert it in ReadyItems(s.schedules);
      var id :| id in s.schedules && s.schedules[id].state.IsReady() &&
        it == QueueItem(s.schedules[id].program.id, s.schedules[id].program.startAt.value, s.schedules[id].priority);
      assert ScheduleOk(s, id);
    }
  }

  // Maintenance

  predicate IsOverdue(c: Schedule, now: int)
    requires c.program.startAt.Some?
  {
    !c.state.Recording? && c.program.startAt.value + 15 * 60 * 60 * 1000 <= now
  }

  predicate IsOver(c: Schedule, now: int)
    requires c.program.startAt.Some?
  {
    c.program.duration.Some? && c.program.startAt.value + c.program.duration.value <= now
  }

  // What maintenance does to the schedule of `id`: it fails if it is not being
  // recorded 15 hours after its start; otherwise, if its program is over, it is
  // postponed if it has not been tried, and given up if it waits.
  ghost predicate IsMaintained(
    c: Schedule, id: ProgramId, now: int, s': State, arrivals: seq<Schedule>, events: seq<Event>)
    requires c.program.startAt.Some?
  {
    if IsOverdue(c, now) then
      && id !in s'.schedules
      && c.(state := Failed, failure := Some(ScheduleExpired)) in arrivals
      && RecordingFailed(id, ScheduleExpired) in events
    else if (c.state.Scheduled? || c.state.Tracking?) && IsOver(c, now) then
      && id in s'.schedules
      && s'.schedules[id] == c.(state := Rescheduling, failure := Some(ProgramEnded))
      && RecordingFailed(id, ProgramEnded) in events
    else if c.state.Waiting? && IsOver(c, now) then
      && id !in s'.schedules
      && c.(state := Failed) in arrivals
      && RecordingFailed(id, ProgramEnded) in events
    else
      && id in s'.schedules && s'.schedules[id] == c
      && forall e | e in events :: e.RecordingFailed? ==> e.id != id
  }

  function MaintenanceArrivals(s: State, now: int, order: seq<ProgramId>): seq<Schedule> {
    var expired, ended := Select(order, IsExpired(s, now)), Select(order, HasEnded(s, now));
    Entries(s.schedules, expired, Expired) + Entries(s.schedules, Select(ended, IsGivenUp(s, now)), GivenUp)
  }

  lemma EntryIn(m: map<ProgramId, Schedule>, ids: seq<ProgramId>, f: Schedule -> Schedule, id: ProgramId)
    requires id in ids && forall i | i in ids :: i in m
    ensures f(m[id]) in Entries(m, ids, f)
  {
    var i :| 0 <= i < |ids| && ids[i] == id;
    assert Entries(m, ids, f)[i] == f(m[id]);
  }

  lemma FailuresMean(ids: seq<ProgramId>, reason: Reason, e: Event)
    ensures e in Failures(ids, reason) <==> e.RecordingFailed? && e.id in ids && e.reason == reason
  {
    if e.RecordingFailed? && e.id in ids {
      var i :| 0 <= i < |ids| && ids[i] == e.id;
      assert Failures(ids, reason)[i] == RecordingFailed(e.id, reason);
    }
  }

  lemma VerdictMeans(s: State, now: int, id: ProgramId)
    requires SchedulesOk(s) && id in s.schedules && s.schedules[id].program.startAt.Some?
    ensures
      var c := s.schedules[id];
      && (IsExpired(s, now)(id) <==> IsOverdue(c, now))
      && (HasEnded(s, now)(id) <==>
          !IsOverdue(c, now) && (c.state.Scheduled? || c.state.Tracking? || c.state.Waiting?) && IsOver(c, now))
      && (IsGivenUp(s, now)(id) <==> !IsOverdue(c, now) && c.state.Waiting? && IsOver(c, now))
  {
    assert ScheduleOk(s, id);
  }

  lemma MaintenanceMeans(s: State, now: int, order: seq<ProgramId>, id: ProgramId)
    requires Inv(s) && Timed(s.schedules) && Enumerates(order, s.schedules) && id in s.schedules
    ensures
      var (s', events, _) := Maintained(s, now, order);
      && s'.history == s.history + MaintenanceArrivals(s, now, order)
      && IsMaintained(s.schedules[id], id, now, s', MaintenanceArrivals(s, now, order), events)
  {
    var (s', events, _) := Maintained(s, now, order);
    var expired, ended := Select(order, IsExpired(s, now)), Select(order, HasEnded(s, now));
    var givenUp := Select(ended, IsGivenUp(s, now));
    AppendAssociative(s.history, Entries(s.schedules, expired, Expired), Entries(s.schedules, givenUp, GivenUp));
    VerdictMeans(s, now, id);
    assert id in order;
    if id in expired { EntryIn(s.schedules, expired, Expired, id); }
    if id in givenUp { EntryIn(s.schedules, givenUp, GivenUp, id); }
    FailuresMean(expired, ScheduleExpired, RecordingFailed(id, ScheduleExpired));
    FailuresMean(ended, ProgramEnded, RecordingFailed(id, ProgramEnded));
    forall e | e in events && e.RecordingFailed? && e.id == id ensures id in expired || id in ended {
      FailuresMean(expired, ScheduleExpired, e);
      FailuresMean(ended, ProgramEnded, e);
    }
  }

  // Starting

  // What comes of starting `c`: it is recorded, waits for a tuner, or fails.
  ghost predicate IsStarted(c: Schedule, id: ProgramId, o: StartOutcome, s': State, arrivals: seq<Schedule>) {
    match o
    case Started(stream, _) =>
      && id in s'.schedules && s'.schedules[id] == c.(state := Recording)
      && id in s'.recorders && s'.recorders[id] == Recorder.Recorder(Some(stream))
    case Refused =>
      id in s'.schedules && s'.schedules[id] == c.(state := Waiting, failure := Some(StartRecordingFailed))
    case Errored =>
      && id !in s'.schedules
      && c.(state := Failed, failure := Some(StartRecordingFailed)) in arrivals
  }

  // A start changes nothing else, and tells what came of it.
  lemma StartMeans(s: State, id: ProgramId, o: StartOutcome) returns (arrivals: seq<Schedule>)
    requires id in s.schedules
    ensures
      var (s', events), o' := ApplyStart(s, id, o), if id in s.recorders then Errored else o;
      && s'.history == s.history + arrivals
      && IsStarted(s.schedules[id], id, o', s', arrivals)
      && (forall i | i != id :: i in s'.schedules <==> i in s.schedules)
      && (forall i | i in s.schedules && i != id :: s'.schedules[i] == s.schedules[i])
      && (forall i | i != id || !o'.Started? :: i in s'.recorders <==> i in s.recorders)
      && (forall i | i in s.recorders && (i != id || !o'.Started?) :: s'.recorders[i] == s.recorders[i])
      && |arrivals| == (if o'.Errored? then 1 else 0)
      && (!o'.Started? ==> events == [RecordingFailed(id, StartRecordingFailed)])
      && (o'.Started? ==> events == if o'.recorded then [RecordSaved(id, RecordRecording)] else [])
  {
    arrivals := ApplyStart(s, id, o).0.history[|s.history|..];
  }

  // Only a schedule that is not known yet is started directly.
  lemma DirectStartMeans(s: State, c: Schedule, o: StartOutcome) returns (arrivals: seq<Schedule>)
    ensures
      var r, id := HandleStart(s, c, o), c.program.id;
      if id in s.schedules then r == Outcome(s, [], AlreadyExists)
      else
        && r.reply == Done && r.state.history == s.history + arrivals
        && IsStarted(c, id, if id in s.recorders then Errored else o, r.state, arrivals)
        && (forall i | i in s.schedules :: i in r.state.schedules && r.state.schedules[i] == s.schedules[i])
  {
    arrivals := [];
    if c.program.id !in s.schedules { arrivals := StartMeans(WithSchedule(s, c), c.program.id, o); }
  }

  // Programs that are not picked are left alone.
  ghost predicate IsLeftAlone(s: State, s': State, id: ProgramId)
    requires id in s.schedules
  {
    && id in s'.schedules && s'.schedules[id] == s.schedules[id]
    && (id in s'.recorders <==> id in s.recorders)
    && (id in s.recorders ==> s'.recorders[id] == s.recorders[id])
  }

  lemma {:induction false} UnpickedStays(s: State, picked: seq<QueueItem>, outcomes: seq<StartOutcome>, id: ProgramId)
    returns (arrivals: seq<Schedule>)
    requires |picked| == |outcomes| && Inv(s) && AllStartable(s, picked) && id in s.schedules
    requires forall k | 0 <= k < |picked| :: picked[k].id != id
    ensures StartAll(s, picked, outcomes).0.history == s.history + arrivals
    ensures IsLeftAlone(s, StartAll(s, picked, outcomes).0, id)
    decreases |picked|
  {
    arrivals := [];
    if picked == [] {
      EmptySum(s.history);
    } else {
      FirstStartKeeps(s, picked, outcomes);
      assert Startable(s, picked[0].id);
      var s1 := ApplyStart(s, picked[0].id, outcomes[0]).0;
      var f := StartMeans(s, picked[0].id, outcomes[0]);
      assert IsLeftAlone(s, s1, id);
      var g := UnpickedStays(s1, picked[1..], outcomes[1..], id);
      arrivals := f + g;
      AppendAssociative(s.history, f, g);
    }
  }

  // A picked program is started once.
  lemma {:induction false} PickedIsStarted(
    s: State, picked: seq<QueueItem>, outcomes: seq<StartOutcome>, id: ProgramId, k: nat)
    returns (arrivals: seq<Schedule>)
    requires |picked| == |outcomes| && Inv(s) && AllStartable(s, picked) && id in s.schedules
    requires k < |picked| && picked[k].id == id
    ensures StartAll(s, picked, outcomes).0.history == s.history + arrivals
    ensures IsStarted(s.schedules[id], id, outcomes[k], StartAll(s, picked, outcomes).0, arrivals)
    decreases |picked|
  {
    var first, rest := picked[0].id, picked[1..];
    assert AllStartable(s, picked) && Startable(s, first);
    FirstStartKeeps(s, picked, outcomes);
    var s1 := ApplyStart(s, first, outcomes[0]).0;
    var f := StartMeans(s, first, outcomes[0]);
    var g;
    if k == 0 {
      assert forall i | 0 <= i < |rest| :: rest[i] == picked[i + 1];
      g := StartRestMeans(s1, s.schedules[id], outcomes[0], rest, outcomes[1..], id, f);
    } else {
      assert picked[0].id != picked[k].id;
      g := PickedIsStarted(s1, rest, outcomes[1..], id, k - 1);
    }
    arrivals := f + g;
    AppendAssociative(s.history, f, g);
  }

  // What has come of a start stays.
  lemma StartRestMeans(
    s: State, c: Schedule, o: StartOutcome, picked: seq<QueueItem>, outcomes: seq<StartOutcome>, id: ProgramId,
    before: seq<Schedule>)
    returns (arrivals: seq<Schedule>)
    requires |picked| == |outcomes| && Inv(s) && AllStartable(s, picked)
    requires forall k | 0 <= k < |picked| :: picked[k].id != id
    requires IsStarted(c, id, o, s, before)
    ensures StartAll(s, picked, outcomes).0.history == s.history + arrivals
    ensures IsStarted(c, id, o, StartAll(s, picked, outcomes).0, before + arrivals)
    decreases |picked|
  {
    arrivals := [];
    if picked == [] {
      EmptySum(s.history);
      EmptySum(before);
    } else {
      FirstStartKeeps(s, picked, outcomes);
      assert Startable(s, picked[0].id);
      var s1 := ApplyStart(s, picked[0].id, outcomes[0]).0;
      var f := StartMeans(s, picked[0].id, outcomes[0]);
      assert IsStarted(c, id, o, s1, before + f);
      var g := StartRestMeans(s1, c, o, picked[1..], outcomes[1..], id, before + f);
      arrivals := f + g;
      AppendAssociative(s.history, f, g);
      AppendAssociative(before, f, g);
    }
  }

  // The whole of `ProcessRecording`, for each schedule: it is maintained; if it is
  // then ready and starts within 15 seconds it is started, once; otherwise it
  // stays as it is.
  lemma ProcessMeans(
    s: State, now: int, order: seq<ProgramId>, picked: seq<QueueItem>, outcomes: seq<StartOutcome>, id: ProgramId)
    returns (arrivals: seq<Schedule>)
    requires Inv(s) && QueueExact(s) && WellFormed(s, Process(now, order, picked, outcomes)) && id in s.schedules
    ensures
      var s', c := HandleProcess(s, now, order, picked, outcomes).state, s.schedules[id];
      && s'.history == Kept(s.history + arrivals, now)
      && if IsOverdue(c, now) || (!c.state.Recording? && !c.state.Rescheduling? && IsOver(c, now)) then
           IsMaintained(c, id, now, s', arrivals, HandleProcess(s, now, order, picked, outcomes).events)
         else if (c.state.Scheduled? || c.state.Tracking?) && c.program.startAt.value - now <= 15 * 1000 then
           exists k | 0 <= k < |picked| ::
             picked[k] == QueueItem(id, c.program.startAt.value, c.priority) && IsStarted(c, id, outcomes[k], s', arrivals)
         else id in s'.schedules && s'.schedules[id] == c
  {
    var s1 := Prepared(s, now, order).0;
    var s2, c, f := Dequeued(s1, picked), s.schedules[id], MaintenanceArrivals(s, now, order);
    PreparedKeeps(s, now, order);
    DequeuedIsStartable(s1, now, picked);
    MaintenanceMeans(s, now, order, id);
    assert ScheduleOk(s, id);
    var g;
    if id !in s1.schedules {
      g := StartOthers(s2, picked, outcomes, id);
    } else {
      PreparedStaysExact(s, now, order);
      PickedIff(s1, now, picked, id);
      if k :| 0 <= k < |picked| && picked[k].id == id {
        g := PickedIsStarted(s2, picked, outcomes, id, k);
      } else {
        g := UnpickedStays(s2, picked, outcomes, id);
      }
    }
    arrivals := f + g;
    AppendAssociative(s.history, f, g);
    assert HandleProcess(s, now, order, picked, outcomes).state.schedules == StartAll(s2, picked, outcomes).0.schedules;
  }

  // What is told of the starts, one by one.
  function StartsTold(picked: seq<QueueItem>, outcomes: seq<StartOutcome>): seq<Event>
    requires |picked| == |outcomes|
    decreases |picked|
  {
    if picked == [] then []
    else
      (match outcomes[0]
       case Started(_, recorded) => if recorded then [RecordSaved(picked[0].id, RecordRecording)] else []
       case Refused | Errored => [RecordingFailed(picked[0].id, StartRecordingFailed)])
      + StartsTold(picked[1..], outcomes[1..])
  }

  lemma {:induction false} StartAllTells(s: State, picked: seq<QueueItem>, outcomes: seq<StartOutcome>)
    requires |picked| == |outcomes| && Inv(s) && AllStartable(s, picked)
    ensures StartAll(s, picked, outcomes).1 == StartsTold(picked, outcomes)
    decreases |picked|
  {
    if picked != [] {
      FirstStartKeeps(s, picked, outcomes);
      assert Startable(s, picked[0].id);
      var _ := StartMeans(s, picked[0].id, outcomes[0]);
      StartAllTells(ApplyStart(s, picked[0].id, outcomes[0]).0, picked[1..], outcomes[1..]);
    }
  }

  // The announcements of maintenance come first, then those of the starts.
  lemma ProcessTells(s: State, now: int, order: seq<ProgramId>, picked: seq<QueueItem>, outcomes: seq<StartOutcome>)
    requires Inv(s) && Timed(s.schedules) && WellFormed(s, Process(now, order, picked, outcomes))
    ensures HandleProcess(s, now, order, picked, outcomes).events ==
      Maintained(s, now, order).1 + StartsTold(picked, outcomes)
  {
    PreparedKeeps(s, now, order);
    DequeuedIsStartable(Prepared(s, now, order).0, now, picked);
    StartAllTells(Dequeued(Prepared(s, now, order).0, picked), picked, outcomes);
  }

  // Only requests are replied to.
  lemma NoticesHaveNoReply(s: State, m: Msg)
    requires Timed(s.schedules) && WellFormed(s, m)
    requires m.Process? || m.PipelineStopped? || m.TunerAvailable? || m.ServicesUpdated? || m.ProgramsUpdated? || m.OnairChanged?
    ensures Step(s, m).reply == Done
  {
  }

  lemma PickedIff(s: State, now: int, picked: seq<QueueItem>, id: ProgramId)
    requires Inv(s) && QueueExact(s) && Dequeues(s.queue, now, picked) && id in s.schedules
    ensures s.schedules[id].program.startAt.Some?
    ensures
      var c := s.schedules[id];
      (exists k | 0 <= k < |picked| :: picked[k].id == id) <==>
      (c.state.Scheduled? || c.state.Tracking?) && c.program.startAt.value - now <= 15 * 1000
    ensures forall k | 0 <= k < |picked| && picked[k].id == id ::
      picked[k] == QueueItem(id, s.schedules[id].program.startAt.value, s.schedules[id].priority)
  {
    assert ScheduleOk(s, id);
    var c := s.schedules[id];
    var it := QueueItem(id, c.program.startAt.value, c.priority);
    QueueMeans(s, it);
    DequeuesExactlyTheDue(s, now, picked, it);
    forall k | 0 <= k < |picked| && picked[k].id == id ensures picked[k] == it && it in picked {
      DequeuesExactlyTheDue(s, now, picked, picked[k]);
      QueueMeans(s, picked[k]);
      assert picked[k] in picked;
    }
    if it in picked { var k :| 0 <= k < |picked| && picked[k] == it; }
  }

  lemma {:induction false} StartOthers(s: State, picked: seq<QueueItem>, outcomes: seq<StartOutcome>, id: ProgramId)
    returns (arrivals: seq<Schedule>)
    requires |picked| == |outcomes| && Inv(s) && AllStartable(s, picked) && id !in s.schedules
    ensures StartAll(s, picked, outcomes).0.history == s.history + arrivals
    ensures id !in StartAll(s, picked, outcomes).0.schedules
    decreases |picked|
  {
    arrivals := [];
    if picked == [] {
      EmptySum(s.history);
    } else {
      FirstStartKeeps(s, picked, outcomes);
      assert Startable(s, picked[0].id);
      var f := StartMeans(s, picked[0].id, outcomes[0]);
      var g := StartOthers(ApplyStart(s, picked[0].id, outcomes[0]).0, picked[1..], outcomes[1..], id);
      arrivals := f + g;
      AppendAssociative(s.history, f, g);
    }
  }

  // The history keeps its entries for 72 hours from their start, each as often as
  // it was there and in their order.
  lemma {:induction false} KeptMeans(a: seq<Schedule>, b: seq<Schedule>, c: Schedule, now: int)
    ensures Kept([], now) == []
    ensures Kept([c], now) ==
      if c.program.startAt.Some? && c.program.startAt.value + 72 * 60 * 60 * 1000 > now then [c] else []
    ensures Kept(a + b, now) == Kept(a, now) + Kept(b, now)
    decreases |a|
  {
    assert [c][1..] == [];
    if a == [] {
      EmptySum(b);
      EmptySum(Kept(b, now));
    } else {
      TailSum(a, b);
      KeptMeans(a[1..], b, c, now);
      AppendAssociative(if Retained(a[0], now) then [a[0]] else [], Kept(a[1..], now), Kept(b, now));
    }
  }

  // The end of a pipeline

  // What is saved to a record that is kept: the status, unless it cannot be loaded.
  function Saved(id: ProgramId, status: RecordStatus, store: RecordStore): seq<Event> {
    match store
    case Disabled => []
    case Loaded => [RecordSaved(id, status)]
    case Broken => [RecordSaved(id, RecordRecording)]
  }

  // The first code that is neither missing nor 0.
  ghost predicate IsFirstFailure(codes: seq<Option<int>>, code: int) {
    code != 0 && exists i :: IsFailureAt(codes, i, code)
  }

  ghost predicate IsFailureAt(codes: seq<Option<int>>, i: nat, code: int) {
    && i < |codes| && codes[i] == Some(code)
    && forall j | 0 <= j < i :: codes[j] == None || codes[j] == Some(0)
  }

  lemma {:induction false} ErrorIsFirst(codes: seq<Option<int>>)
    requires FirstError(codes).Error?
    ensures IsFirstFailure(codes, FirstError(codes).code)
    decreases |codes|
  {
    if codes[0].Some? && codes[0].value != 0 {
      assert IsFailureAt(codes, 0, FirstError(codes).code);
    } else {
      ErrorIsFirst(codes[1..]);
      var code := FirstError(codes).code;
      var i: nat :| IsFailureAt(codes[1..], i, code);
      forall j | 0 <= j < i + 1 ensures codes[j] == None || codes[j] == Some(0) {
        if j > 0 { assert codes[j] == codes[1..][j - 1]; }
      }
      assert IsFailureAt(codes, i + 1, code);
    }
  }

  ghost predicate FailsWith(s: State, r: Outcome, id: ProgramId, code: int, store: RecordStore)
    requires id in s.schedules
  {
    && r.state.history == s.history + [s.schedules[id].(state := Failed, failure := Some(PipelineError(code)))]
    && r.events == [RecordingFailed(id, PipelineError(code))]
                   + Saved(id, RecordFailed(PipelineError(code)), store) + [RecordingStopped(id)]
  }

  // A recording is rescheduled if some command exits with 222, finishes if no exit
  // code is other than 0, and otherwise fails with the first code that is.
  lemma RecordingStoppedMeans(s: State, id: ProgramId, codes: seq<Option<int>>, store: RecordStore)
    requires id in s.recorders && id in s.schedules
    ensures
      var (r, c) := (HandleStopped(s, id, codes, store), s.schedules[id]);
      && r.state.recorders == s.recorders - {id} && r.state.queue == s.queue
      && if Some(222) in codes then
           && r.state.schedules == s.schedules[id := c.(state := Rescheduling, failure := Some(NeedRescheduling))]
           && r.state.history == s.history
           && r.events == [RecordingFailed(id, NeedRescheduling)]
                          + Saved(id, RecordFailed(NeedRescheduling), store) + [RecordingStopped(id)]
         else if forall code | code in codes :: code == None || code == Some(0) then
           && r.state.schedules == s.schedules - {id}
           && r.state.history == s.history + [c.(state := Finished)]
           && r.events == Saved(id, RecordFinished, store) + [RecordingStopped(id)]
         else
           && r.state.schedules == s.schedules - {id}
           && exists code :: IsFirstFailure(codes, code) && FailsWith(s, r, id, code, store)
  {
    var exit := ExitOf(codes);
    StoppedMeans(s, id, exit, store);
    if exit.Error? {
      ErrorIsFirst(codes);
      assert Some(exit.code) in codes && exit.code != 0;
    } else if exit.Success? {
      EmptySum(Saved(id, RecordFinished, store));
      forall code | code in codes ensures code == None || code == Some(0) {}
    }
  }

  // Without a schedule the record is canceled, or broken if it cannot be loaded;
  // without a recorder there is nothing to do.
  lemma UnscheduledStopMeans(s: State, id: ProgramId, codes: seq<Option<int>>, store: RecordStore)
    returns (failure: seq<Event>)
    requires id !in s.recorders || id !in s.schedules
    ensures
      var r := HandleStopped(s, id, codes, store);
      if id !in s.recorders then r == Outcome(s, [RecordingStopped(id)], Done)
      else r.state == s.(recorders := s.recorders - {id}) && r.events == failure + Canceled(id, store) + [RecordingStopped(id)]
    ensures
      if Some(222) in codes || forall code | code in codes :: code == None || code == Some(0) then failure == []
      else exists code :: IsFirstFailure(codes, code) && failure == [RecordingFailed(id, PipelineError(code))]
  {
    var exit := ExitOf(codes);
    failure := [];
    if exit.Error? {
      ErrorIsFirst(codes);
      assert Some(exit.code) in codes && exit.code != 0;
      failure := [RecordingFailed(id, PipelineError(exit.code))];
    }
  }

  function Canceled(id: ProgramId, store: RecordStore): seq<Event> {
    match store
    case Disabled => []
    case Loaded => [RecordSaved(id, RecordCanceled)]
    case Broken => [RecordBroken(id)]
  }

  // Requests

  // A recorder whose stream is stopped has lost its trigger.
  lemma StopRequestMeans(s: State, id: ProgramId)
    ensures
      var r := HandleStop(s, id);
      if id in s.recorders then r == Outcome(s.(recorders := s.recorders[id := Recorder.Recorder(None)]), [], Done)
      else r == Outcome(s, [], RecorderNotFound)
  {
  }

  // A schedule that is removed is replied, and its stream, if any, stopped.
  lemma RemovalMeans(s: State, id: ProgramId)
    requires Inv(s) && Timed(s.schedules)
    ensures
      var r := HandleRemove(s, id);
      if id !in s.schedules then r == Outcome(s, [], ScheduleNotFound)
      else
        && r.state.schedules == s.schedules - {id} && r.state.history == s.history && r.events == []
        && r.reply == Ok(s.schedules[id])
        && r.state.recorders ==
           if id in s.recorders then s.recorders[id := Recorder.Recorder(None)] else s.recorders
  {
    if id in s.schedules { assert ScheduleOk(s, id); }
  }

  // All schedules go, and the streams of those being recorded are stopped.
  lemma RemovalOfAllMeans(s: State, id: ProgramId)
    requires Inv(s)
    ensures
      var r := HandleRemoveAll(s);
      && r.state.schedules == map[] && r.state.queue == multiset{} && r.state.history == s.history
      && r.events == [] && r.reply == Done
      && (id in r.state.recorders <==> id in s.recorders)
      && (id in s.recorders ==>
          r.state.recorders[id] == if id in s.schedules then Recorder.Recorder(None) else s.recorders[id])
  {
    if id in s.schedules { assert ScheduleOk(s, id); }
  }

  // Of the schedules with the tag, exactly those stay that are tracked, wait or are
  // being recorded, and those that start within 15 seconds or have started.
  lemma RemovalByTagMeans(s: State, tag: string, now: int, id: ProgramId)
    requires Inv(s) && Timed(s.schedules) && id in s.schedules
    ensures
      var s', c := HandleRemoveTagged(s, tag, now).state, s.schedules[id];
      && (id in s'.schedules <==>
          || tag !in c.tags
          || c.state.Tracking? || c.state.Waiting? || c.state.Recording?
          || (c.state.Scheduled? && c.program.startAt.value - now <= 15 * 1000))
      && (id in s'.schedules ==> s'.schedules[id] == c)
      && s'.schedules.Keys <= s.schedules.Keys && s'.recorders == s.recorders && s'.history == s.history
    ensures HandleRemoveTagged(s, tag, now).events == [] && HandleRemoveTagged(s, tag, now).reply == Done
  {
    assert ScheduleOk(s, id);
  }

  // On-air programs

  predicate HasStart(p: Option<Program>) { p.Some? && p.value.startAt.Some? }

  // What a reported program makes of its schedule: it takes over the program, and
  // is tracked unless it is being recorded.
  function Reported(c: Schedule, p: Option<Program>): Schedule {
    if !HasStart(p) || p.value.id != c.program.id || c.state.IsDone() then c
    else c.(program := p.value, state := if c.state.Recording? then Recording else Tracking)
  }

  // Each moved start is announced; the record of a recording is saved.
  function ReportOf(s: State, c: Schedule, p: Option<Program>, store: RecordStore): seq<Event> {
    if !HasStart(p) || p.value.id != c.program.id || c.state.IsDone() then []
    else if c.state.Recording? then
      if p.value.id in s.recorders then Saved(p.value.id, RecordRecording, store) else []
    else if c.program.startAt != p.value.startAt then [RecordingRescheduled(p.value.id)]
    else []
  }

  // The announcements of one report.
  function ReportIn(s: State, p: Option<Program>, store: RecordStore): seq<Event> {
    if HasStart(p) && p.value.id in s.schedules then ReportOf(s, s.schedules[p.value.id], p, store) else []
  }

  lemma OneReportMeans(s: State, p: Option<Program>, store: RecordStore, changed: bool)
    requires SchedulesOk(s)
    ensures
      var s' := ApplyMaybeOnair(s, p, store, changed).0;
      && s'.recorders == s.recorders && s'.history == s.history && s'.schedules.Keys == s.schedules.Keys
      && forall id | id in s.schedules :: s'.schedules[id] == Reported(s.schedules[id], p)
  {
    OneReportKeeps(s, p, store, changed);
    forall id | id in s.schedules
      ensures ApplyMaybeOnair(s, p, store, changed).0.schedules[id] == Reported(s.schedules[id], p)
    {
      assert ScheduleOk(s, id);
      OneReportAt(s, p, store, changed, id);
    }
  }

  lemma OneReportKeeps(s: State, p: Option<Program>, store: RecordStore, changed: bool)
    ensures
      var s' := ApplyMaybeOnair(s, p, store, changed).0;
      s'.recorders == s.recorders && s'.history == s.history && s'.schedules.Keys == s.schedules.Keys
  {
  }

  lemma OneReportAt(s: State, p: Option<Program>, store: RecordStore, changed: bool, id: ProgramId)
    requires id in s.schedules && s.schedules[id].program.id == id
    ensures
      var s' := ApplyMaybeOnair(s, p, store, changed).0;
      id in s'.schedules && s'.schedules[id] == Reported(s.schedules[id], p)
  {
  }

  lemma OneReportTells(s: State, p: Option<Program>, store: RecordStore, changed: bool)
    requires SchedulesOk(s)
    ensures ApplyMaybeOnair(s, p, store, changed).1 == ReportIn(s, p, store)
  {
    if HasStart(p) && p.value.id in s.schedules { assert ScheduleOk(s, p.value.id); }
  }

  // A change of the on-air program applies the current program and then the next
  // one, and so does the addition of a schedule, to which they apply as well.
  lemma OnairMeans(s: State, current: Option<Program>, next: Option<Program>, store: RecordStore)
    requires SchedulesOk(s)
    ensures
      var s1, s' := ApplyMaybeOnair(s, current, store, false).0, ApplyOnairPair(s, current, next, store).0;
      && s'.recorders == s.recorders && s'.history == s.history && s'.schedules.Keys == s.schedules.Keys
      && (forall id | id in s.schedules :: s'.schedules[id] == Reported(Reported(s.schedules[id], current), next))
      && ApplyOnairPair(s, current, next, store).1 == ReportIn(s, current, store) + ReportIn(s1, next, store)
  {
    var r := ApplyMaybeOnair(s, current, store, false);
    OneReportMeans(s, current, store, false);
    OneReportTells(s, current, store, false);
    if HasStart(current) { OnairSchedulesOk(s, current.value, store); }
    OneReportMeans(r.0, next, store, r.2);
    OneReportTells(r.0, next, store, r.2);
  }

  lemma AdditionMeans(s: State, c: Schedule, current: Option<Program>, next: Option<Program>, store: RecordStore)
    requires Inv(s) && Timed(s.schedules) && c.state.Scheduled? && c.program.startAt.Some?
    requires c.program.id !in s.recorders
    ensures
      var r, id := HandleAdd(s, c, current, next, store), c.program.id;
      if id in s.schedules then r == Outcome(s, [], AlreadyExists)
      else
        && r.state.schedules.Keys == s.schedules.Keys + {id}
        && r.state.schedules[id] == Reported(Reported(c, current), next)
        && r.reply == Ok(r.state.schedules[id])
        && r.state.recorders == s.recorders && r.state.history == s.history
        && forall i | i in s.schedules :: r.state.schedules[i] == Reported(Reported(s.schedules[i], current), next)
  {
    if c.program.id !in s.schedules {
      AddedKeeps(s, c);
      OnairMeans(WithSchedule(s, c), current, next, store);
    }
  }

  lemma OnairHandlerMeans(s: State, current: Option<Program>, next: Option<Program>, store: RecordStore)
    requires Inv(s) && Timed(s.schedules)
    ensures
      var s1, s' := ApplyMaybeOnair(s, current, store, false).0, HandleOnair(s, current, next, store).state;
      && HandleOnair(s, current, next, store).events == ReportIn(s, current, store) + ReportIn(s1, next, store)
      && s'.recorders == s.recorders && s'.history == s.history && s'.schedules.Keys == s.schedules.Keys
      && forall id | id in s.schedules :: s'.schedules[id] == Reported(Reported(s.schedules[id], current), next)
  {
    OnairMeans(s, current, next, store);
  }

  // Tuners, services and programs

  lemma TunerAvailableMeans(s: State, types: seq<ChannelType>, id: ProgramId)
    requires Timed(s.schedules)
    ensures
      var r := HandleTunerAvailable(s, types);
      && r.events == [] && r.state.recorders == s.recorders && r.state.history == s.history
      && (id in r.state.schedules <==> id in s.schedules)
      && (id in s.schedules ==>
          r.state.schedules[id] ==
            if s.schedules[id].state.Waiting? && s.schedules[id].service.channel.channelType in types
            then s.schedules[id].(state := Scheduled) else s.schedules[id])
  {
  }

  // A schedule stays exactly if it is being recorded or its service is still there;
  // others are announced, and those not being recorded get the new service.
  lemma ServicesMean(s: State, services: map<nat, Service>, order: seq<ProgramId>, id: ProgramId)
    requires Inv(s) && Timed(s.schedules) && Enumerates(order, s.schedules) && id in s.schedules
    ensures
      var r, c := HandleServices(s, services, order), s.schedules[id];
      && r.state.history == s.history && r.state.recorders == s.recorders
      && (id in r.state.schedules <==> c.state.Recording? || id.service in services)
      && (id in r.state.schedules ==>
          r.state.schedules[id] == if c.state.Recording? then c else c.(service := services[id.service]))
  {
    ServicesStopNone(s, services, order);
  }

  // What loses its service is not being recorded.
  lemma ServicesStopNone(s: State, services: map<nat, Service>, order: seq<ProgramId>)
    requires SchedulesOk(s) && Timed(s.schedules)
    ensures HandleServices(s, services, order).state.recorders == s.recorders
  {
    var removed := Select(order, IsUnserved(s, services));
    forall i | i in removed ensures i !in s.recorders { assert ScheduleOk(s, i); }
    assert s.recorders == map i | i in s.recorders :: if i in removed then Recorder.Recorder(None) else s.recorders[i];
  }

  // Whatever the state, the recorder left over for such a schedule loses its trigger.
  lemma ServicesStopLeftOvers(s: State, services: map<nat, Service>, order: seq<ProgramId>, id: ProgramId)
    requires Timed(s.schedules) && Enumerates(order, s.schedules) && id in s.recorders
    ensures
      var recorders := HandleServices(s, services, order).state.recorders;
      && id in recorders
      && recorders[id] ==
         if id in s.schedules && !s.schedules[id].state.Recording? && id.service !in services
         then Recorder.Recorder(None) else s.recorders[id]
  {
  }

  lemma ServicesAnnounce(s: State, services: map<nat, Service>, order: seq<ProgramId>, e: Event)
    requires Timed(s.schedules) && Enumerates(order, s.schedules)
    ensures e in HandleServices(s, services, order).events <==>
      && e.RecordingFailed? && e.reason == RemovedFromEpg
      && e.id in s.schedules && !s.schedules[e.id].state.Recording? && e.id.service !in services
  {
    FailuresMean(Select(order, IsUnserved(s, services)), RemovedFromEpg, e);
  }

  // The program has an end that has not passed.
  predicate IsToCome(p: Program, now: int) {
    p.startAt.Some? && p.duration.Some? && p.startAt.value + p.duration.value > now
  }

  lemma EpgVerdictMeans(c: Schedule, id: ProgramId, now: int, service: nat, ps: map<nat, Program>)
    ensures
      var v, mine := EpgVerdictOf(c, id, now, service, ps), id.service == service && !c.state.Recording?;
      && (v.Gone? <==> mine && id.eid !in ps)
      && (v.Moved? <==> mine && id.eid in ps && IsToCome(ps[id.eid], now) && ps[id.eid].startAt != c.program.startAt)
      && (v.Updated? <==> mine && id.eid in ps && IsToCome(ps[id.eid], now) && ps[id.eid].startAt == c.program.startAt)
  {
  }

  // What an update of the programs of its service does to a schedule that is not
  // being recorded: it fails if its program is gone; if the program is to come it
  // takes it over, and is scheduled anew if the start has moved.
  lemma ProgramsMean(s: State, now: int, service: nat, ps: map<nat, Program>, order: seq<ProgramId>, id: ProgramId)
    returns (arrivals: seq<Schedule>)
    requires Inv(s) && Timed(s.schedules) && Enumerates(order, s.schedules) && id in s.schedules
    ensures
      var r, c := HandlePrograms(s, now, service, Some(ps), order), s.schedules[id];
      && r.state.recorders == s.recorders && r.state.history == s.history + arrivals
      && if id.service != service || c.state.Recording? then
           id in r.state.schedules && r.state.schedules[id] == c
         else if id.eid !in ps then
           && id !in r.state.schedules
           && c.(state := Failed, failure := Some(RemovedFromEpg)) in arrivals
           && RecordingFailed(id, RemovedFromEpg) in r.events
         else
           var p := ps[id.eid];
           && id in r.state.schedules
           && r.state.schedules[id] ==
              (if !IsToCome(p, now) then c
               else c.(program := p, state := if p.startAt == c.program.startAt then c.state else Scheduled))
  {
    var gone := Select(order, IsGone(s, now, service, ps));
    arrivals := Entries(s.schedules, gone, RemovedFromEpgFailed);
    ProgramsState(s, now, service, ps, order);
    EpgVerdictMeans(s.schedules[id], id, now, service, ps);
    assert id in order;
    if id in gone {
      EntryIn(s.schedules, gone, RemovedFromEpgFailed, id);
      FailuresMean(gone, RemovedFromEpg, RecordingFailed(id, RemovedFromEpg));
      ProgramsTell(s, now, service, ps, order);
    }
  }

  lemma ProgramsTell(s: State, now: int, service: nat, ps: map<nat, Program>, order: seq<ProgramId>)
    requires Timed(s.schedules)
    ensures HandlePrograms(s, now, service, Some(ps), order).events ==
      Failures(Select(order, IsGone(s, now, service, ps)), RemovedFromEpg) +
      Rescheduled(Select(order, IsMoved(s, now, service, ps)))
  {
  }

  // It announces exactly those that fail and those whose start has moved.
  lemma ProgramsAnnounce(s: State, now: int, service: nat, ps: map<nat, Program>, order: seq<ProgramId>, e: Event)
    requires Timed(s.schedules) && Enumerates(order, s.schedules)
    ensures e in HandlePrograms(s, now, service, Some(ps), order).events <==>
      && (e.RecordingFailed? || e.RecordingRescheduled?)
      && e.id in s.schedules && e.id.service == service && !s.schedules[e.id].state.Recording?
      && if e.RecordingFailed? then e.reason == RemovedFromEpg && e.id.eid !in ps
         else e.id.eid in ps && IsToCome(ps[e.id.eid], now) && ps[e.id.eid].startAt != s.schedules[e.id].program.startAt
  {
    var gone, moved := Select(order, IsGone(s, now, service, ps)), Select(order, IsMoved(s, now, service, ps));
    ProgramsTell(s, now, service, ps, order);
    FailuresMean(gone, RemovedFromEpg, e);
    if e.RecordingRescheduled? { RescheduledMean(moved, e.id); }
    if (e.RecordingFailed? || e.RecordingRescheduled?) && e.id in s.schedules {
      assert e.id in order;
      EpgVerdictMeans(s.schedules[e.id], e.id, now, service, ps);
    }
  }

  lemma RescheduledMean(ids: seq<ProgramId>, id: ProgramId)
    ensures RecordingRescheduled(id) in Rescheduled(ids) <==> id in ids
  {
    if id in ids {
      var i :| 0 <= i < |ids| && ids[i] == id;
      assert Rescheduled(ids)[i] == RecordingRescheduled(id);
    }
  }

  // Nothing happens if the EPG does not answer.
  lemma NoProgramsMean(s: State, now: int, service: nat, order: seq<ProgramId>)
    requires Timed(s.schedules)
    ensures HandlePrograms(s, now, service, None, order) == Outcome(s, [], Done)
  {
  }
}
