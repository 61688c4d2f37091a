// The recording manager and the tuner manager as two actors.
//
// Each actor handles one message at a time.  The recording manager waits inside
// its handler while the tuner manager serves a request, so tuners are served to
// others in between, and their `TunerAvailable` messages pile up in the mailbox
// of the recording manager.  A schedule that was refused a tuner must not miss
// the message of the tuner that becomes idle in the meantime.
module WakeUps {
  import opened Models
  import T = Tuners
  import TP = TunerProperties
  import R = Recordings
  import RP = RecordingProperties
  import RL = RecordingLifecycle

  // What makes the recording manager start pipelines: schedules that are due, or
  // the schedule of a direct request.
  datatype Job =
    | Due(now: int, order: seq<ProgramId>, picked: seq<R.QueueItem>)
    | Direct(schedule: R.Schedule)

  // Where the request for the next program of a job is.
  datatype Ask = NotSent | Sent | Answered(reply: T.Reply)

  datatype Phase = Idle | Busy(origin: R.State, job: Job, outcomes: seq<R.StartOutcome>, ask: Ask)

  // `refused` holds the programs whose last request was refused and whose channel
  // has not changed since.
  datatype System = System(
    tuners: T.State,
    recording: R.State,
    mailbox: seq<seq<ChannelType>>,
    phase: Phase,
    refused: set<ProgramId>)

  datatype Action =
    | Tune(request: T.Msg)
    | Deliver
    | Handle(msg: R.Msg)
    | Begin(job: Job)
    | Request(clock: bool)
    | Serve(act: T.Activation, answered: bool)
    | Receive(built: bool, recorded: bool)
    | Finish

  // Jobs

  function Picked(job: Job): seq<R.QueueItem>
    requires job.Direct? ==> job.schedule.program.startAt.Some?
  {
    match job
    case Due(_, _, picked) => picked
    case Direct(c) => [R.QueueItem(c.program.id, c.program.startAt.value, c.priority)]
  }

  ghost predicate JobOk(s: R.State, job: Job)
    requires R.Timed(s.schedules)
  {
    match job
    case Due(now, order, picked) =>
      R.Enumerates(order, s.schedules) && R.Dequeues(R.Prepared(s, now, order).0.queue, now, picked)
    case Direct(c) => c.state.Scheduled? && c.program.startAt.Some? && c.program.id !in s.schedules
  }

  // The state from which the programs of a job are started, one by one.
  function Base(s: R.State, job: Job): R.State
    requires R.Timed(s.schedules)
  {
    match job
    case Due(now, order, picked) => R.Dequeued(R.Prepared(s, now, order).0, picked)
    case Direct(c) => RP.WithSchedule(s, c)
  }

  function Completed(s: R.State, job: Job): R.State {
    match job
    case Due(now, _, _) => s.(history := R.Kept(s.history, now))
    case Direct(_) => s
  }

  // The message that is handled by a job with these outcomes.
  function MessageOf(job: Job, outcomes: seq<R.StartOutcome>): R.Msg
    requires job.Direct? ==> |outcomes| == 1
  {
    match job
    case Due(now, order, picked) => R.Process(now, order, picked, outcomes)
    case Direct(c) => R.Start(c, outcomes[0])
  }

  // Steps

  predicate InProgress(y: System) {
    && y.phase.Busy?
    && (y.phase.job.Direct? ==> y.phase.job.schedule.program.startAt.Some?)
    && |y.phase.outcomes| < |Picked(y.phase.job)|
  }

  function Current(y: System): ProgramId
    requires InProgress(y)
  {
    Picked(y.phase.job)[|y.phase.outcomes|].id
  }

  ghost predicate Enabled(y: System, a: Action) {
    R.Timed(y.recording.schedules) &&
    match a
    case Tune(m) => !m.ShutDown?
    case Deliver => y.phase.Idle? && y.mailbox != []
    case Handle(m) =>
      && y.phase.Idle? && !m.Process? && !m.TunerAvailable?
      && (m.Start? ==> m.schedule.program.id in y.recording.schedules)
      && R.WellFormed(y.recording, m)
    case Begin(job) => y.phase.Idle? && JobOk(y.recording, job)
    case Request(_) => InProgress(y) && y.phase.ask.NotSent?
    case Serve(_, _) => InProgress(y) && y.phase.ask.Sent? && Current(y) in y.recording.schedules
    case Receive(_, _) => InProgress(y) && y.phase.ask.Answered?
    case Finish =>
      && y.phase.Busy?
      && (y.phase.job.Direct? ==> y.phase.job.schedule.program.startAt.Some?)
      && |y.phase.outcomes| == |Picked(y.phase.job)|
  }

  // The messages among `es` that reach the recording manager.
  function Notices(es: seq<T.Event>): (r: seq<seq<ChannelType>>)
    ensures forall i, types | T.TunerAvailable(i, types) in es :: types in r
  {
    if es == [] then []
    else
      assert es == [es[0]] + es[1..];
      (if es[0].TunerAvailable? then [es[0].channelTypes] else []) + Notices(es[1..])
  }

  function Tuned(y: System, m: T.Msg): System {
    var o := T.Step(y.tuners, m);
    y.(tuners := o.state, mailbox := y.mailbox + Notices(o.events))
  }

  function RequestFor(s: R.State, id: ProgramId): T.Request
    requires id in s.schedules
  {
    T.Request(s.schedules[id].service.channel, User(Recorder(id), Clamped(s.schedules[id].priority)), None)
  }

  // A recording asks for the channel of its service, under its own name, with the
  // priority of its schedule as far as there is such a priority.
  lemma RequestMeans(s: R.State, id: ProgramId)
    requires id in s.schedules
    ensures
      var r, p := RequestFor(s, id), s.schedules[id].priority;
      && r.channel == s.schedules[id].service.channel && r.user.info == Recorder(id) && r.streamId == None
      && (r.user.priority as int) == (if p < -128 then -128 else if p > 128 then 128 else p)
  {
  }

  // The next program of the job ends up with outcome `o`.
  function Resolved(y: System, o: R.StartOutcome): System
    requires InProgress(y)
  {
    var id := Current(y);
    y.(recording := R.ApplyStart(y.recording, id, o).0,
       phase := y.phase.(outcomes := y.phase.outcomes + [o], ask := NotSent),
       refused := if o.Refused? then y.refused + {id} else y.refused)
  }

  // The programs of `refused` whose channel is still the same.
  function SameChannel(s: R.State, s': R.State, refused: set<ProgramId>): set<ProgramId> {
    set id | id in refused && id in s.schedules && id in s'.schedules &&
             s.schedules[id].service.channel == s'.schedules[id].service.channel
  }

  // What a reply comes to; a pipeline can still fail to be built.
  function OutcomeOf(reply: T.Reply, built: bool, recorded: bool): R.StartOutcome {
    match reply
    case Granted(stream) => if built then R.Started(stream, recorded) else R.Errored
    case Denied(error) => if error.TunerUnavailable? then R.Refused else R.Errored
    case _ => R.Errored
  }

  // A program is started exactly if it is granted a stream and its pipeline is built,
  // and waits exactly if no tuner is available.
  lemma OutcomeMeans(reply: T.Reply, built: bool, recorded: bool, stream: T.SubscriptionId)
    ensures OutcomeOf(reply, built, recorded) == R.Started(stream, recorded) <==> reply == T.Granted(stream) && built
    ensures OutcomeOf(reply, built, recorded) == R.Refused <==> reply == T.Denied(T.TunerUnavailable)
    ensures OutcomeOf(reply, built, recorded).Started? ==> reply.Granted?
  {
  }

  // The announcements of idle tuners, and nothing else, reach the recording manager,
  // in order.
  lemma {:induction false} NoticesMean(es: seq<T.Event>, fs: seq<T.Event>, i: nat, types: seq<ChannelType>)
    ensures Notices([]) == [] && Notices([T.TunerAvailable(i, types)]) == [types] && Notices([T.StatusChanged(i)]) == []
    ensures Notices(es + fs) == Notices(es) + Notices(fs)
    decreases |es|
  {
    assert [T.TunerAvailable(i, types)][1..] == [] && [T.StatusChanged(i)][1..] == [];
    if es == [] {
      EmptySum(fs);
      EmptySum(Notices(fs));
    } else {
      TailSum(es, fs);
      NoticesMean(es[1..], fs, i, types);
      AppendAssociative(if es[0].TunerAvailable? then [es[0].channelTypes] else [], Notices(es[1..]), Notices(fs));
    }
  }

  function Next(y: System, a: Action): System
    requires Enabled(y, a)
  {
    match a
    case Tune(m) => Tuned(y, m)
    case Deliver =>
      y.(recording := R.HandleTunerAvailable(y.recording, y.mailbox[0]).state, mailbox := y.mailbox[1..])
    case Handle(m) =>
      var s' := R.Step(y.recording, m).state;
      y.(recording := s', refused := SameChannel(y.recording, s', y.refused))
    case Begin(job) => y.(recording := Base(y.recording, job), phase := Busy(y.recording, job, [], NotSent))
    case Request(clock) =>
      if clock && Current(y) in y.recording.schedules && Current(y) !in y.recording.recorders
      then y.(phase := y.phase.(ask := Sent))
      else Resolved(y, R.Errored)
    case Serve(act, answered) =>
      var m := T.Start(RequestFor(y.recording, Current(y)), act, answered);
      Tuned(y, m).(phase := y.phase.(ask := Answered(T.Step(y.tuners, m).reply)))
    case Receive(built, recorded) => Resolved(y, OutcomeOf(y.phase.ask.reply, built, recorded))
    case Finish => y.(recording := Completed(y.recording, y.phase.job), phase := Idle)
  }

  ghost predicate Initial(y: System) {
    && TP.Initial(y.tuners) && RL.Initial(y.recording)
    && y.mailbox == [] && y.phase.Idle? && y.refused == {}
  }

  // The run from `y` takes the actions `acts`.
  ghost predicate Possible(y: System, acts: seq<Action>)
    decreases |acts|
  {
    acts == [] || (Enabled(y, acts[0]) && Possible(Next(y, acts[0]), acts[1..]))
  }

  function After(y: System, acts: seq<Action>): System
    requires Possible(y, acts)
    decreases |acts|
  {
    if acts == [] then y else After(Next(y, acts[0]), acts[1..])
  }

  lemma {:induction false} Extend(y: System, acts: seq<Action>, a: Action)
    requires Possible(y, acts) && Enabled(After(y, acts), a)
    ensures Possible(y, acts + [a]) && After(y, acts + [a]) == Next(After(y, acts), a)
    decreases |acts|
  {
    if acts == [] {
      assert acts + [a] == [a] && [a][1..] == [];
      assert Possible(Next(y, a), []);
    } else {
      TailSnoc(acts, a);
      Extend(Next(y, acts[0]), acts[1..], a);
    }
  }

  // `Extend`, seen from the end of a longer run.
  lemma {:induction false} LastStep(y: System, acts: seq<Action>, a: Action)
    requires Possible(y, acts + [a])
    ensures Possible(y, acts) && Enabled(After(y, acts), a)
    ensures After(y, acts + [a]) == Next(After(y, acts), a)
    decreases |acts|
  {
    if acts == [] {
      assert acts + [a] == [a] && [a][1..] == [];
      assert After(Next(y, a), []) == Next(y, a);
    } else {
      TailSnoc(acts, a);
      LastStep(Next(y, acts[0]), acts[1..], a);
    }
  }

  // Wake-ups

  predicate Serves(t: T.Tuner, c: Channel) {
    t.restriction.Unrestricted? && t.Supports(c) && !t.Excludes(c)
  }

  predicate Announced(mailbox: seq<seq<ChannelType>>, c: Channel) {
    exists k | 0 <= k < |mailbox| :: c.channelType in mailbox[k]
  }

  // If an idle tuner could serve the channel, its message is under way.
  ghost predicate Promised(y: System, c: Channel) {
    forall i | 0 <= i < |y.tuners.tuners| && Serves(y.tuners.tuners[i], c) && !y.tuners.tuners[i].IsActive() ::
      Announced(y.mailbox, c)
  }

  predicate WaitsIn(s: R.State, id: ProgramId) {
    id in s.schedules && s.schedules[id].state.Waiting?
  }

  ghost predicate NoneForgotten(y: System) {
    forall id | WaitsIn(y.recording, id) && id in y.refused :: Promised(y, y.recording.schedules[id].service.channel)
  }

  // The refusal the recording manager is about to learn of is covered as well.
  ghost predicate RefusalCovered(y: System) {
    InProgress(y) && y.phase.ask == Answered(T.Denied(T.TunerUnavailable)) && Current(y) in y.recording.schedules ==>
      Promised(y, y.recording.schedules[Current(y)].service.channel)
  }

  ghost predicate TunersOk(y: System) { TP.Inv(y.tuners) && !y.tuners.stopping }

  ghost predicate Covered(y: System) {
    TunersOk(y) && NoneForgotten(y) && RefusalCovered(y)
  }

  // A tuner that a step leaves idle is announced.
  lemma IdleIsAnnounced(s: T.State, m: T.Msg, i: nat)
    requires TP.Inv(s) && !m.ShutDown? && i < |s.tuners| && s.tuners[i].IsActive()
    ensures i < |T.Step(s, m).state.tuners|
    ensures !T.Step(s, m).state.tuners[i].IsActive() ==>
      T.TunerAvailable(i, s.tuners[i].channelTypes) in T.Step(s, m).events
  {
    TP.StepKeepsConfig(s, m);
    if m.Start? {
      TP.ActivateMoves(s, m.request, m.act);
      if TP.Chosen(s, m.request).Some? {
        assert TP.Moves(s, T.ActivateTuner(s, m.request, m.act), TP.Chosen(s, m.request).value, m.request.user);
      }
    }
  }

  lemma TunedKeepsPromise(y: System, m: T.Msg, c: Channel)
    requires TunersOk(y) && !m.ShutDown? && Promised(y, c)
    ensures Promised(Tuned(y, m), c)
  {
    TP.StepKeepsConfig(y.tuners, m);
    var y' := Tuned(y, m);
    forall i | 0 <= i < |y'.tuners.tuners| && Serves(y'.tuners.tuners[i], c) && !y'.tuners.tuners[i].IsActive()
      ensures Announced(y'.mailbox, c)
    {
      var t := y.tuners.tuners[i];
      assert Serves(t, c);
      if t.IsActive() {
        IdleIsAnnounced(y.tuners, m, i);
        var es := T.Step(y.tuners, m).events;
        assert t.channelTypes in Notices(es);
        var k :| 0 <= k < |Notices(es)| && Notices(es)[k] == t.channelTypes;
        assert c.channelType in y'.mailbox[|y.mailbox| + k];
      } else {
        assert Announced(y.mailbox, c);
        var k :| 0 <= k < |y.mailbox| && c.channelType in y.mailbox[k];
        assert c.channelType in y'.mailbox[k];
      }
    }
  }

  lemma TunedKeepsOk(y: System, m: T.Msg)
    requires TunersOk(y) && !m.ShutDown?
    ensures TunersOk(Tuned(y, m))
  {
    TP.StepKeepsInv(y.tuners, m);
    if m.Start? { TP.ActivateMoves(y.tuners, m.request, m.act); }
  }

  lemma TunedKeeps(y: System, m: T.Msg)
    requires Covered(y) && !m.ShutDown?
    ensures Covered(Tuned(y, m))
  {
    var y' := Tuned(y, m);
    TunedKeepsOk(y, m);
    forall id | WaitsIn(y'.recording, id) && id in y'.refused
      ensures Promised(y', y'.recording.schedules[id].service.channel)
    {
      assert WaitsIn(y.recording, id);
      TunedKeepsPromise(y, m, y.recording.schedules[id].service.channel);
    }
    if InProgress(y) && y.phase.ask == Answered(T.Denied(T.TunerUnavailable)) && Current(y) in y.recording.schedules {
      TunedKeepsPromise(y, m, y.recording.schedules[Current(y)].service.channel);
    }
  }

  lemma RefusedFindsNoneIdle(s: T.State, r: T.Request, act: T.Activation, answered: bool)
    requires TP.Inv(s) && !s.stopping && r.streamId.None?
    requires T.StartStreaming(s, r, act, answered).reply == T.Denied(T.TunerUnavailable)
    ensures T.StartStreaming(s, r, act, answered).state == s
    ensures forall i | 0 <= i < |s.tuners| && Serves(s.tuners[i], r.channel) :: s.tuners[i].IsActive()
  {
    TP.RefusedIff(s, r, act, answered);
    TP.NothingElseIff(s, r);
    TP.ActivateMoves(s, r, act);
    forall i | 0 <= i < |s.tuners| && Serves(s.tuners[i], r.channel) ensures s.tuners[i].IsActive() {
      assert TP.Outranked(s.tuners[i], r);
    }
  }

  // When a request is refused, no tuner that serves its channel is idle.
  lemma RefusalIsPromised(y: System, act: T.Activation, answered: bool)
    requires Covered(y) && Enabled(y, Serve(act, answered))
    ensures RefusalCovered(Next(y, Serve(act, answered)))
  {
    var r := RequestFor(y.recording, Current(y));
    assert T.Step(y.tuners, T.Start(r, act, answered)) == T.StartStreaming(y.tuners, r, act, answered);
    if T.StartStreaming(y.tuners, r, act, answered).reply == T.Denied(T.TunerUnavailable) {
      RefusedFindsNoneIdle(y.tuners, r, act, answered);
    }
  }

  lemma ServeKeeps(y: System, act: T.Activation, answered: bool)
    requires Covered(y) && Enabled(y, Serve(act, answered))
    ensures Covered(Next(y, Serve(act, answered)))
  {
    var m := T.Start(RequestFor(y.recording, Current(y)), act, answered);
    TunedKeeps(y, m);
    RefusalIsPromised(y, act, answered);
    var y', t := Next(y, Serve(act, answered)), Tuned(y, m);
    forall id | WaitsIn(y'.recording, id) && id in y'.refused
      ensures Promised(y', y'.recording.schedules[id].service.channel)
    {
      assert WaitsIn(t.recording, id) && id in t.refused;
      assert Promised(t, t.recording.schedules[id].service.channel);
    }
  }

  // Schedules start to wait only when a request is refused.
  lemma NoneStartsWaiting(s: R.State, m: R.Msg, id: ProgramId)
    requires R.Timed(s.schedules) && R.WellFormed(s, m)
    requires !m.Process? && (m.Start? ==> m.schedule.program.id in s.schedules)
    requires WaitsIn(R.Step(s, m).state, id)
    ensures WaitsIn(s, id)
  {
    match m
    case Add(c, current, next, store) =>
      if c.program.id !in s.schedules { OnairStartsNoWait(RP.WithSchedule(s, c), current, next, store, id); }
    case OnairChanged(current, next, store) => OnairStartsNoWait(s, current, next, store, id);
    case ProgramsUpdated(_, _, _, _) => ProgramsStartNoWait(s, m, id);
    case PipelineStopped(_, _, _) =>
    case _ =>
  }

  lemma OneOnairStartsNoWait(s: R.State, p: Option<R.Program>, store: R.RecordStore, changed: bool, id: ProgramId)
    requires WaitsIn(R.ApplyMaybeOnair(s, p, store, changed).0, id)
    ensures WaitsIn(s, id)
  {
  }

  lemma OnairStartsNoWait(
    s: R.State, current: Option<R.Program>, next: Option<R.Program>, store: R.RecordStore, id: ProgramId)
    requires WaitsIn(R.ApplyOnairPair(s, current, next, store).0, id)
    ensures WaitsIn(s, id)
  {
    var r := R.ApplyMaybeOnair(s, current, store, false);
    OneOnairStartsNoWait(r.0, next, store, r.2, id);
    OneOnairStartsNoWait(s, current, store, false, id);
  }

  lemma ProgramsStartNoWait(s: R.State, m: R.Msg, id: ProgramId)
    requires m.ProgramsUpdated? && R.Timed(s.schedules) && R.WellFormed(s, m)
    requires WaitsIn(R.Step(s, m).state, id)
    ensures WaitsIn(s, id)
  {
  }

  lemma HandleKeeps(y: System, m: R.Msg)
    requires Covered(y) && Enabled(y, Handle(m))
    ensures Covered(Next(y, Handle(m)))
  {
    var y' := Next(y, Handle(m));
    forall id | WaitsIn(y'.recording, id) && id in y'.refused
      ensures Promised(y', y'.recording.schedules[id].service.channel)
    {
      NoneStartsWaiting(y.recording, m, id);
      assert Promised(y, y.recording.schedules[id].service.channel);
    }
  }

  lemma DeliverKeeps(y: System)
    requires Covered(y) && Enabled(y, Deliver)
    ensures Covered(Next(y, Deliver))
  {
    var y' := Next(y, Deliver);
    forall id | WaitsIn(y'.recording, id) && id in y'.refused
      ensures Promised(y', y'.recording.schedules[id].service.channel)
    {
      var c := y.recording.schedules[id];
      assert WaitsIn(y.recording, id) && y'.recording.schedules[id] == c;
      assert Promised(y, c.service.channel);
      assert !R.IsWoken(c, y.mailbox[0]);
      if Announced(y.mailbox, c.service.channel) {
        var k :| 0 <= k < |y.mailbox| && c.service.channel.channelType in y.mailbox[k];
        assert y'.mailbox[k - 1] == y.mailbox[k];
      }
    }
  }

  lemma PreparedWaits(s: R.State, now: int, order: seq<ProgramId>, id: ProgramId)
    requires R.Timed(s.schedules) && WaitsIn(R.Prepared(s, now, order).0, id)
    ensures WaitsIn(s, id)
    ensures R.Prepared(s, now, order).0.schedules[id].service == s.schedules[id].service
  {
  }

  lemma BeginKeeps(y: System, job: Job)
    requires Covered(y) && Enabled(y, Begin(job))
    ensures Covered(Next(y, Begin(job)))
  {
    var y' := Next(y, Begin(job));
    forall id | WaitsIn(y'.recording, id) && id in y'.refused
      ensures Promised(y', y'.recording.schedules[id].service.channel)
    {
      if job.Due? { PreparedWaits(y.recording, job.now, job.order, id); }
      assert WaitsIn(y.recording, id);
      assert Promised(y, y.recording.schedules[id].service.channel);
    }
  }

  // A program waits after its request only if the request was refused, and its
  // refusal was covered.
  lemma ResolvedKeeps(y: System, o: R.StartOutcome)
    requires Covered(y) && InProgress(y)
    requires o.Refused? ==> y.phase.ask == Answered(T.Denied(T.TunerUnavailable))
    ensures Covered(Resolved(y, o))
  {
    var y', current := Resolved(y, o), Current(y);
    forall id | WaitsIn(y'.recording, id) && id in y'.refused
      ensures Promised(y', y'.recording.schedules[id].service.channel)
    {
      assert id in y.recording.schedules;
      assert y'.recording.schedules[id].service == y.recording.schedules[id].service;
      if id != current || !o.Refused? { assert WaitsIn(y.recording, id); }
      assert Promised(y, y.recording.schedules[id].service.channel);
    }
  }

  lemma StepKeepsCovered(y: System, a: Action)
    requires Covered(y) && Enabled(y, a)
    ensures Covered(Next(y, a))
  {
    match a
    case Tune(m) => TunedKeeps(y, m);
    case Deliver => DeliverKeeps(y);
    case Handle(m) => HandleKeeps(y, m);
    case Begin(job) => BeginKeeps(y, job);
    case Request(clock) =>
      if clock && Current(y) in y.recording.schedules && Current(y) !in y.recording.recorders {
        SentKeeps(y);
      } else {
        ResolvedKeeps(y, R.Errored);
      }
    case Serve(act, answered) => ServeKeeps(y, act, answered);
    case Receive(built, recorded) => ResolvedKeeps(y, OutcomeOf(y.phase.ask.reply, built, recorded));
    case Finish => FinishKeeps(y);
  }

  lemma SentKeeps(y: System)
    requires Covered(y) && y.phase.Busy?
    ensures Covered(y.(phase := y.phase.(ask := Sent)))
  {
    forall id | WaitsIn(y.recording, id) && id in y.refused
      ensures Promised(y.(phase := y.phase.(ask := Sent)), y.recording.schedules[id].service.channel)
    {
      assert Promised(y, y.recording.schedules[id].service.channel);
    }
  }

  lemma FinishKeeps(y: System)
    requires Covered(y) && Enabled(y, Finish)
    ensures Covered(Next(y, Finish))
  {
    var y' := Next(y, Finish);
    forall id | WaitsIn(y'.recording, id) && id in y'.refused
      ensures Promised(y', y'.recording.schedules[id].service.channel)
    {
      assert WaitsIn(y.recording, id);
      assert Promised(y, y.recording.schedules[id].service.channel);
    }
  }

  // Atomicity

  // Seen from outside its handlers, the recording manager behaves as if each job
  // were a single step.
  ghost predicate Atomic(y: System) {
    match y.phase
    case Idle => RP.Inv(y.recording) && R.Timed(y.recording.schedules)
    case Busy(origin, job, outcomes, ask) =>
      && RP.Inv(origin) && R.Timed(origin.schedules) && JobOk(origin, job)
      && StartedFrom(Base(origin, job), Picked(job), outcomes, y.recording)
      && R.Timed(y.recording.schedules)
  }

  lemma {:induction false} StartAllSnoc(s: R.State, a: seq<R.QueueItem>, os: seq<R.StartOutcome>, x: R.QueueItem, o: R.StartOutcome)
    requires |a| == |os|
    ensures R.StartAll(s, a + [x], os + [o]).0 == R.ApplyStart(R.StartAll(s, a, os).0, x.id, o).0
    decreases |a|
  {
    if a == [] {
      assert (a + [x])[1..] == [] && (os + [o])[1..] == [];
      assert R.StartAll(s, a, os).0 == s;
    } else {
      assert (a + [x])[1..] == a[1..] + [x] && (os + [o])[1..] == os[1..] + [o];
      StartAllSnoc(R.ApplyStart(s, a[0].id, os[0]).0, a[1..], os[1..], x, o);
    }
  }

  // The first `|os|` of `items` have been started from `base`.
  ghost predicate StartedFrom(base: R.State, items: seq<R.QueueItem>, os: seq<R.StartOutcome>, s: R.State) {
    |os| <= |items| && s == R.StartAll(base, items[..|os|], os).0
  }

  lemma StartNext(base: R.State, items: seq<R.QueueItem>, os: seq<R.StartOutcome>, s: R.State, o: R.StartOutcome)
    requires StartedFrom(base, items, os, s) && |os| < |items|
    ensures StartedFrom(base, items, os + [o], R.ApplyStart(s, items[|os|].id, o).0)
  {
    StartAllSnoc(base, items[..|os|], os, items[|os|], o);
    assert items[..|os| + 1] == items[..|os|] + [items[|os|]];
  }

  lemma NextIsFresh(base: R.State, items: seq<R.QueueItem>, os: seq<R.StartOutcome>, s: R.State)
    requires RP.Inv(base) && RP.AllStartable(base, items)
    requires StartedFrom(base, items, os, s) && |os| < |items|
    ensures RP.Startable(s, items[|os|].id)
  {
    var all := os + seq(|items| - |os|, i => R.Errored);
    RP.QueuedStartsAreFresh(base, items, all, |os|);
    assert all[..|os|] == os;
  }

  lemma ResolvedIsAtomic(y: System, o: R.StartOutcome)
    requires Atomic(y) && InProgress(y)
    ensures Atomic(Resolved(y, o))
  {
    StartNext(Base(y.phase.origin, y.phase.job), Picked(y.phase.job), y.phase.outcomes, y.recording, o);
  }

  lemma BeginIsAtomic(y: System, job: Job)
    requires Atomic(y) && Enabled(y, Begin(job))
    ensures Atomic(Next(y, Begin(job)))
  {
    var y' := Next(y, Begin(job));
    assert Picked(job)[..0] == [];
    assert R.StartAll(Base(y.recording, job), [], []).0 == Base(y.recording, job);
    BaseIsTimed(y.recording, job);
  }

  lemma BaseIsTimed(s: R.State, job: Job)
    requires RP.Inv(s) && R.Timed(s.schedules) && JobOk(s, job)
    ensures R.Timed(Base(s, job).schedules)
  {
    if job.Due? { DueIsStartable(s, job); }
  }

  lemma DueIsStartable(s: R.State, job: Job)
    requires RP.Inv(s) && R.Timed(s.schedules) && JobOk(s, job) && job.Due?
    ensures RP.Inv(Base(s, job)) && R.Timed(Base(s, job).schedules)
    ensures RP.AllStartable(Base(s, job), Picked(job))
  {
    RP.PreparedKeeps(s, job.now, job.order);
    RP.DequeuedIsStartable(R.Prepared(s, job.now, job.order).0, job.now, job.picked);
    RP.InvIsTimed(Base(s, job));
  }

  // A job that is done is the step of its message with the outcomes it had.
  lemma JobIsStep(y: System)
    requires Atomic(y) && Enabled(y, Finish)
    ensures
      var m := MessageOf(y.phase.job, y.phase.outcomes);
      && RP.Admissible(y.phase.origin, m)
      && Next(y, Finish).recording == R.Step(y.phase.origin, m).state
  {
    match y.phase.job
    case Due(_, _, _) => DueIsStep(y.phase.origin, y.phase.job, y.phase.outcomes, y.recording);
    case Direct(_) => DirectIsStep(y.phase.origin, y.phase.job, y.phase.outcomes, y.recording);
  }

  lemma DueIsStep(s: R.State, job: Job, os: seq<R.StartOutcome>, s': R.State)
    requires R.Timed(s.schedules) && job.Due? && JobOk(s, job) && |os| == |Picked(job)|
    requires StartedFrom(Base(s, job), Picked(job), os, s')
    ensures RP.Admissible(s, MessageOf(job, os))
    ensures R.Step(s, MessageOf(job, os)).state == Completed(s', job)
  {
    assert Picked(job)[..|os|] == job.picked;
    DueIsProcess(s, job.now, job.order, job.picked, os, s');
    assert R.Step(s, MessageOf(job, os)) == R.HandleProcess(s, job.now, job.order, job.picked, os);
  }

  lemma DueIsProcess(
    s: R.State, now: int, order: seq<ProgramId>, picked: seq<R.QueueItem>, os: seq<R.StartOutcome>, s': R.State)
    requires R.Timed(s.schedules) && |os| == |picked|
    requires s' == R.StartAll(R.Dequeued(R.Prepared(s, now, order).0, picked), picked, os).0
    ensures R.HandleProcess(s, now, order, picked, os).state == s'.(history := R.Kept(s'.history, now))
  {
  }

  lemma DirectIsStep(s: R.State, job: Job, os: seq<R.StartOutcome>, s': R.State)
    requires R.Timed(s.schedules) && job.Direct? && JobOk(s, job) && |os| == 1
    requires StartedFrom(Base(s, job), Picked(job), os, s')
    ensures RP.Admissible(s, MessageOf(job, os))
    ensures R.Step(s, MessageOf(job, os)).state == Completed(s', job)
  {
    var items := Picked(job);
    assert items[..1] == items && items[1..] == [] && os[1..] == [];
    var s1 := R.ApplyStart(Base(s, job), items[0].id, os[0]).0;
    assert R.StartAll(s1, items[1..], os[1..]).0 == s1;
  }

  lemma DeliveryIsAtomic(y: System)
    requires Atomic(y) && Enabled(y, Deliver)
    ensures Atomic(Next(y, Deliver))
  {
    var m := R.TunerAvailable(y.mailbox[0]);
    RP.StepKeepsInv(y.recording, m);
    assert R.Step(y.recording, m) == R.HandleTunerAvailable(y.recording, y.mailbox[0]);
  }

  lemma FinishIsAtomic(y: System)
    requires Atomic(y) && Enabled(y, Finish)
    ensures Atomic(Next(y, Finish))
  {
    JobIsStep(y);
    RP.StepKeepsInv(y.phase.origin, MessageOf(y.phase.job, y.phase.outcomes));
  }

  lemma HandlingIsAtomic(y: System, m: R.Msg)
    requires Atomic(y) && Enabled(y, Handle(m)) && RP.Admissible(y.recording, m)
    ensures Atomic(Next(y, Handle(m)))
  {
    RP.StepKeepsInv(y.recording, m);
  }

  lemma StepIsAtomic(y: System, a: Action)
    requires Atomic(y) && Enabled(y, a) && (a.Handle? ==> RP.Admissible(y.recording, a.msg))
    ensures Atomic(Next(y, a))
  {
    match a
    case Tune(m) =>
    case Deliver => DeliveryIsAtomic(y);
    case Handle(m) => HandlingIsAtomic(y, m);
    case Begin(job) => BeginIsAtomic(y, job);
    case Request(clock) =>
      if !(clock && Current(y) in y.recording.schedules && Current(y) !in y.recording.recorders) {
        ResolvedIsAtomic(y, R.Errored);
      }
    case Serve(_, _) =>
    case Receive(built, recorded) => ResolvedIsAtomic(y, OutcomeOf(y.phase.ask.reply, built, recorded));
    case Finish => FinishIsAtomic(y);
  }

  // Main results

  lemma InitialIsOk(y: System)
    requires Initial(y)
    ensures Covered(y) && Atomic(y)
  {
    RL.InitialInv(y.recording);
    assert forall id | id in y.recording.schedules :: !WaitsIn(y.recording, id);
  }

  lemma {:induction false} StaysCovered(y: System, acts: seq<Action>)
    requires Covered(y) && Possible(y, acts)
    ensures Covered(After(y, acts))
    decreases |acts|
  {
    if acts != [] {
      StepKeepsCovered(y, acts[0]);
      StaysCovered(Next(y, acts[0]), acts[1..]);
    }
  }

  // The messages that are not interrupted are admissible.
  ghost predicate AllAdmissible(y: System, acts: seq<Action>)
    requires Possible(y, acts)
    decreases |acts|
  {
    acts == [] ||
    ((acts[0].Handle? ==> RP.Admissible(y.recording, acts[0].msg)) && AllAdmissible(Next(y, acts[0]), acts[1..]))
  }

  lemma {:induction false} StaysAtomic(y: System, acts: seq<Action>)
    requires Atomic(y) && Possible(y, acts) && AllAdmissible(y, acts)
    ensures Atomic(After(y, acts))
    decreases |acts|
  {
    if acts != [] {
      StepIsAtomic(y, acts[0]);
      StaysAtomic(Next(y, acts[0]), acts[1..]);
    }
  }

  // However the two actors interleave: while a schedule waits for a tuner on the
  // channel it was refused, either no idle tuner could serve it or a message that
  // wakes it up is in the mailbox.
  lemma NoLostWakeUp(y: System, acts: seq<Action>, id: ProgramId, i: nat)
    requires Initial(y) && Possible(y, acts)
    requires WaitsIn(After(y, acts).recording, id) && id in After(y, acts).refused
    requires i < |After(y, acts).tuners.tuners|
    requires Serves(After(y, acts).tuners.tuners[i], After(y, acts).recording.schedules[id].service.channel)
    requires !After(y, acts).tuners.tuners[i].IsActive()
    ensures exists types :: types in After(y, acts).mailbox && R.IsWoken(After(y, acts).recording.schedules[id], types)
  {
    InitialIsOk(y);
    StaysCovered(y, acts);
    var y' := After(y, acts);
    var c := y'.recording.schedules[id].service.channel;
    assert Promised(y', c);
    assert Announced(y'.mailbox, c);
    var k :| 0 <= k < |y'.mailbox| && c.channelType in y'.mailbox[k];
    assert R.IsWoken(y'.recording.schedules[id], y'.mailbox[k]);
  }

  // The guard on start times, which the source unwraps, holds all along.
  lemma StepKeepsTimed(y: System, a: Action)
    requires Enabled(y, a)
    ensures R.Timed(Next(y, a).recording.schedules)
  {
    match a
    case Handle(m) => RP.StepKeepsTimed(y.recording, m);
    case Deliver => assert R.Timed(R.HandleTunerAvailable(y.recording, y.mailbox[0]).state.schedules);
    case _ =>
  }

  // Every waiting schedule

  ghost predicate AllCovered(y: System) {
    forall id | WaitsIn(y.recording, id) :: Promised(y, y.recording.schedules[id].service.channel)
  }

  // The update leaves the channels of waiting schedules alone, or moves them to
  // channels that are promised as well.
  ghost predicate MovesAreCovered(y: System, services: map<nat, R.Service>) {
    forall id | WaitsIn(y.recording, id) && id.service in services ::
      services[id.service].channel == y.recording.schedules[id].service.channel ||
      Promised(y, services[id.service].channel)
  }

  lemma SamePromise(y: System, y': System, c: Channel)
    requires y'.tuners == y.tuners && y'.mailbox == y.mailbox
    ensures Promised(y', c) <==> Promised(y, c)
  {
  }

  lemma UpdatedWaits(s: R.State, services: map<nat, R.Service>, order: seq<ProgramId>, id: ProgramId)
    requires R.Timed(s.schedules)
    ensures
      var s' := R.HandleServices(s, services, order).state;
      && (WaitsIn(s', id) <==> WaitsIn(s, id) && id.service in services)
      && (WaitsIn(s', id) ==> s'.schedules[id].service == services[id.service])
  {
  }

  // An update of the services keeps every waiting schedule covered if and only if
  // it moves them to promised channels only.
  lemma UpdateKeepsAllIff(y: System, services: map<nat, R.Service>, order: seq<ProgramId>)
    requires AllCovered(y) && Enabled(y, Handle(R.ServicesUpdated(services, order)))
    ensures AllCovered(Next(y, Handle(R.ServicesUpdated(services, order)))) <==> MovesAreCovered(y, services)
  {
    var m := R.ServicesUpdated(services, order);
    var y' := Next(y, Handle(m));
    assert R.Step(y.recording, m) == R.HandleServices(y.recording, services, order);
    forall id | WaitsIn(y.recording, id) && id.service in services
      ensures WaitsIn(y'.recording, id) && y'.recording.schedules[id].service == services[id.service]
      ensures Promised(y', services[id.service].channel) <==> Promised(y, services[id.service].channel)
    {
      UpdatedWaits(y.recording, services, order, id);
      SamePromise(y, y', services[id.service].channel);
    }
    forall id | WaitsIn(y'.recording, id) ensures WaitsIn(y.recording, id) && id.service in services {
      UpdatedWaits(y.recording, services, order, id);
    }
  }

  // Only an update of the services moves a schedule that goes on waiting.
  lemma OnlyUpdatesMove(s: R.State, m: R.Msg, id: ProgramId)
    requires R.Timed(s.schedules) && R.WellFormed(s, m)
    requires !m.Process? && !m.ServicesUpdated? && (m.Start? ==> m.schedule.program.id in s.schedules)
    requires WaitsIn(R.Step(s, m).state, id)
    ensures WaitsIn(s, id) && R.Step(s, m).state.schedules[id].service == s.schedules[id].service
  {
    NoneStartsWaiting(s, m, id);
    match m
    case Add(c, current, next, store) =>
      if c.program.id !in s.schedules { OnairKeepsService(RP.WithSchedule(s, c), current, next, store, id); }
    case OnairChanged(current, next, store) => OnairKeepsService(s, current, next, store, id);
    case ProgramsUpdated(_, _, _, _) =>
    case PipelineStopped(_, _, _) =>
    case _ =>
  }

  lemma OneOnairKeepsService(s: R.State, p: Option<R.Program>, store: R.RecordStore, changed: bool, id: ProgramId)
    requires id in s.schedules
    ensures
      var s' := R.ApplyMaybeOnair(s, p, store, changed).0;
      id in s'.schedules && s'.schedules[id].service == s.schedules[id].service
  {
  }

  lemma OnairKeepsService(
    s: R.State, current: Option<R.Program>, next: Option<R.Program>, store: R.RecordStore, id: ProgramId)
    requires id in s.schedules
    ensures
      var s' := R.ApplyOnairPair(s, current, next, store).0;
      id in s'.schedules && s'.schedules[id].service == s.schedules[id].service
  {
    var r := R.ApplyMaybeOnair(s, current, store, false);
    OneOnairKeepsService(s, current, store, false, id);
    OneOnairKeepsService(r.0, next, store, r.2, id);
  }

  predicate IsUpdate(a: Action) { a.Handle? && a.msg.ServicesUpdated? }

  // Every other action keeps every waiting schedule covered.
  lemma StepKeepsAll(y: System, a: Action)
    requires Covered(y) && AllCovered(y) && Enabled(y, a) && !IsUpdate(a)
    ensures AllCovered(Next(y, a))
  {
    if a.Handle? { HandleKeepsAll(y, a.msg); } else { OthersKeepAll(y, a); }
  }

  lemma HandleKeepsAll(y: System, m: R.Msg)
    requires AllCovered(y) && Enabled(y, Handle(m)) && !m.ServicesUpdated?
    ensures AllCovered(Next(y, Handle(m)))
  {
    var y' := Next(y, Handle(m));
    forall id | WaitsIn(y'.recording, id) ensures Promised(y', y'.recording.schedules[id].service.channel) {
      OnlyUpdatesMove(y.recording, m, id);
      assert Promised(y, y.recording.schedules[id].service.channel);
      SamePromise(y, y', y.recording.schedules[id].service.channel);
    }
  }

  // `StepKeepsCovered` for a system in which every program counts as refused.
  lemma OthersKeepAll(y: System, a: Action)
    requires Covered(y) && AllCovered(y) && Enabled(y, a) && !a.Handle?
    ensures AllCovered(Next(y, a))
  {
    var y' := Next(y, a);
    var x := y.(refused := y'.recording.schedules.Keys);
    AllIsCovered(y, x);
    SameEnabled(y, x, a);
    StepKeepsCovered(x, a);
    var x' := Next(x, a);
    forall id | WaitsIn(y'.recording, id) ensures Promised(y', y'.recording.schedules[id].service.channel) {
      assert WaitsIn(x'.recording, id) && id in x'.refused;
      SamePromise(x', y', y'.recording.schedules[id].service.channel);
    }
  }

  lemma AllIsCovered(y: System, x: System)
    requires Covered(y) && AllCovered(y) && x == y.(refused := x.refused)
    ensures Covered(x)
  {
    forall id | WaitsIn(x.recording, id) && id in x.refused
      ensures Promised(x, x.recording.schedules[id].service.channel)
    {
      SamePromise(y, x, x.recording.schedules[id].service.channel);
    }
    if InProgress(x) && x.phase.ask == Answered(T.Denied(T.TunerUnavailable)) && Current(x) in x.recording.schedules {
      SamePromise(y, x, x.recording.schedules[Current(x)].service.channel);
    }
  }

  // `refused` decides nothing.
  lemma SameEnabled(y: System, x: System, a: Action)
    requires Enabled(y, a) && !a.Handle? && x == y.(refused := x.refused)
    ensures Enabled(x, a)
    ensures
      var y', x' := Next(y, a), Next(x, a);
      && x' == y'.(refused := x'.refused) && x.refused <= x'.refused
  {
  }

  // Over runs: every waiting schedule stays covered if and only if every update of
  // the services moves waiting schedules to promised channels only.

  ghost predicate UpdatesAreCovered(y: System, acts: seq<Action>)
    requires Possible(y, acts)
    decreases |acts|
  {
    acts == [] ||
    ((IsUpdate(acts[0]) ==> MovesAreCovered(y, acts[0].msg.services)) && UpdatesAreCovered(Next(y, acts[0]), acts[1..]))
  }

  ghost predicate AlwaysCovered(y: System, acts: seq<Action>)
    requires Possible(y, acts)
    decreases |acts|
  {
    AllCovered(y) && (acts == [] || AlwaysCovered(Next(y, acts[0]), acts[1..]))
  }

  lemma {:induction false} StaysCoveredIff(y: System, acts: seq<Action>)
    requires Covered(y) && AllCovered(y) && Possible(y, acts)
    ensures AlwaysCovered(y, acts) <==> UpdatesAreCovered(y, acts)
    decreases |acts|
  {
    if acts != [] {
      StepKeepsCovered(y, acts[0]);
      if IsUpdate(acts[0]) {
        UpdateKeepsAllIff(y, acts[0].msg.services, acts[0].msg.order);
        assert acts[0] == Handle(R.ServicesUpdated(acts[0].msg.services, acts[0].msg.order));
      } else {
        StepKeepsAll(y, acts[0]);
      }
      if AllCovered(Next(y, acts[0])) { StaysCoveredIff(Next(y, acts[0]), acts[1..]); }
    }
  }

  lemma NoneEverForgottenIff(y: System, acts: seq<Action>)
    requires Initial(y) && Possible(y, acts)
    ensures AlwaysCovered(y, acts) <==> UpdatesAreCovered(y, acts)
  {
    InitialIsOk(y);
    assert forall id | id in y.recording.schedules :: !WaitsIn(y.recording, id);
    StaysCoveredIff(y, acts);
  }

  // `a` changes the channel of `id` while it waits.
  predicate Moves(y: System, a: Action, id: ProgramId) {
    && IsUpdate(a) && WaitsIn(y.recording, id) && id.service in a.msg.services
    && a.msg.services[id.service].channel != y.recording.schedules[id].service.channel
  }

  // A waiting program is outside `refused` only if it was before or is moved.
  lemma LeavesRefused(y: System, a: Action, id: ProgramId)
    requires Enabled(y, a) && WaitsIn(Next(y, a).recording, id) && id !in Next(y, a).refused
    ensures WaitsIn(y.recording, id)
    ensures id !in y.refused || Moves(y, a, id)
  {
    match a
    case Handle(m) => HandleLeavesRefused(y, m, id);
    case Begin(job) => if job.Due? { PreparedWaits(y.recording, job.now, job.order, id); }
    case _ =>
  }

  lemma HandleLeavesRefused(y: System, m: R.Msg, id: ProgramId)
    requires Enabled(y, Handle(m))
    requires WaitsIn(Next(y, Handle(m)).recording, id) && id !in Next(y, Handle(m)).refused
    ensures WaitsIn(y.recording, id)
    ensures id !in y.refused || Moves(y, Handle(m), id)
  {
    if m.ServicesUpdated? {
      assert R.Step(y.recording, m) == R.HandleServices(y.recording, m.services, m.order);
      UpdatedWaits(y.recording, m.services, m.order, id);
    } else {
      OnlyUpdatesMove(y.recording, m, id);
    }
  }

  ghost predicate WaitsAfter(y: System, acts: seq<Action>, id: ProgramId) {
    Possible(y, acts) && WaitsIn(After(y, acts).recording, id)
  }

  ghost predicate MovedBy(y: System, acts: seq<Action>, a: Action, id: ProgramId) {
    Possible(y, acts) && Moves(After(y, acts), a, id)
  }

  // The action `acts[k]` moves `id`, which waits from then on.
  ghost predicate WasMoved(y: System, acts: seq<Action>, id: ProgramId, k: nat) {
    && k < |acts| && MovedBy(y, acts[..k], acts[k], id)
    && forall j | k < j <= |acts| :: WaitsAfter(y, acts[..j], id)
  }

  lemma StillWaits(y: System, init: seq<Action>, a: Action, id: ProgramId, k: nat)
    requires WasMoved(y, init, id, k) && WaitsAfter(y, init + [a], id)
    ensures WasMoved(y, init + [a], id, k)
  {
    var acts := init + [a];
    TakeOfSnoc(init, a, k);
    forall j | k < j <= |acts| ensures WaitsAfter(y, acts[..j], id) {
      if j <= |init| { TakeOfSnoc(init, a, j); } else { TakeAll(acts, j); }
    }
  }

  lemma JustMoved(y: System, init: seq<Action>, a: Action, id: ProgramId)
    requires MovedBy(y, init, a, id) && WaitsAfter(y, init + [a], id)
    ensures WasMoved(y, init + [a], id, |init|)
  {
    var acts := init + [a];
    TakeOfSnoc(init, a, |init|);
    TakeAll(init, |init|);
    TakeAll(acts, |acts|);
  }

  // In every run, a waiting schedule outside `refused` was moved while it waited,
  // and has waited ever since.
  lemma {:induction false} UnrefusedWasMoved(y: System, acts: seq<Action>, id: ProgramId) returns (k: nat)
    requires Initial(y) && Possible(y, acts)
    requires WaitsIn(After(y, acts).recording, id) && id !in After(y, acts).refused
    ensures WasMoved(y, acts, id, k)
    decreases |acts|
  {
    k := 0;
    if acts != [] {
      var n := |acts| - 1;
      var init, a := acts[..n], acts[n];
      SplitLast(acts);
      LastStep(y, init, a);
      LeavesRefused(After(y, init), a, id);
      if Moves(After(y, init), a, id) {
        k := n;
        JustMoved(y, init, a, id);
      } else {
        k := UnrefusedWasMoved(y, init, id);
        StillWaits(y, init, a, id, k);
      }
    }
  }

  // Without mention of `refused`: a schedule waits next to an idle tuner that
  // serves it and is not announced only if an update moved its channel meanwhile.
  lemma ForgottenWasMoved(y: System, acts: seq<Action>, id: ProgramId) returns (k: nat)
    requires Initial(y) && Possible(y, acts)
    requires WaitsIn(After(y, acts).recording, id)
    requires !Promised(After(y, acts), After(y, acts).recording.schedules[id].service.channel)
    ensures WasMoved(y, acts, id, k)
  {
    InitialIsOk(y);
    StaysCovered(y, acts);
    k := UnrefusedWasMoved(y, acts, id);
  }

  // One idle tuner, which supports GR only, and a schedule of a BS channel.

  function ExampleTuner(): T.Tuner { T.Tuner(0, [GR], [], None, T.Unrestricted, T.Inactive) }

  function ExampleId(): ProgramId { ProgramId(1, 1) }

  function ExampleSchedule(state: R.ScheduleState, channelType: ChannelType): R.Schedule {
    R.Schedule(state, R.Program(ExampleId(), Some(0), Some(1)), R.Service("S", Channel("C", channelType, "1")), 0, {},
               if state.Waiting? then Some(R.StartRecordingFailed) else None)
  }

  function ExampleRecording(c: R.Schedule): R.State { R.State(map[ExampleId() := c], multiset{}, [], map[]) }

  function NoRecording(): R.State { R.State(map[], multiset{}, [], map[]) }

  function Example(recording: R.State, phase: Phase, refused: set<ProgramId>): System {
    System(T.State([ExampleTuner()], 0, false), recording, [], phase, refused)
  }

  function ExampleBusy(outcomes: seq<R.StartOutcome>, ask: Ask): Phase {
    Busy(NoRecording(), Direct(ExampleSchedule(R.Scheduled, BS)), outcomes, ask)
  }

  function ExampleUpdate(): R.Msg {
    R.ServicesUpdated(map[1 := R.Service("S", Channel("C", GR, "1"))], [ExampleId()])
  }

  lemma ExampleIsAsked()
    ensures
      var c := ExampleSchedule(R.Scheduled, BS);
      var y, y1 := Example(NoRecording(), Idle, {}), Example(ExampleRecording(c), ExampleBusy([], NotSent), {});
      && Initial(y) && Enabled(y, Begin(Direct(c))) && Next(y, Begin(Direct(c))) == y1
      && Enabled(y1, Request(true)) && Next(y1, Request(true)) == Example(ExampleRecording(c), ExampleBusy([], Sent), {})
  {
    assert R.ReadyItems(map[]) == {};
  }

  lemma ExampleIsRefused()
    ensures
      var c, reply := ExampleSchedule(R.Scheduled, BS), T.Denied(T.TunerUnavailable);
      var y2, y3 := Example(ExampleRecording(c), ExampleBusy([], Sent), {}),
                    Example(ExampleRecording(c), ExampleBusy([], Answered(reply)), {});
      Enabled(y2, Serve(T.Spawned, true)) && Next(y2, Serve(T.Spawned, true)) == y3
  {
    var c := ExampleSchedule(R.Scheduled, BS);
    var y2 := Example(ExampleRecording(c), ExampleBusy([], Sent), {});
    assert Current(y2) == ExampleId();
    NoTunerFor(y2.tuners, ExampleTuner(), RequestFor(y2.recording, ExampleId()));
  }

  lemma ExampleWaits()
    ensures
      var c, reply := ExampleSchedule(R.Scheduled, BS), T.Denied(T.TunerUnavailable);
      var w := ExampleRecording(ExampleSchedule(R.Waiting, BS));
      var y3, y4 := Example(ExampleRecording(c), ExampleBusy([], Answered(reply)), {}),
                    Example(w, ExampleBusy([R.Refused], NotSent), {ExampleId()});
      && Enabled(y3, Receive(true, true)) && Next(y3, Receive(true, true)) == y4
      && Enabled(y4, Finish) && Next(y4, Finish) == Example(w, Idle, {ExampleId()})
  {
    var c, w := ExampleSchedule(R.Scheduled, BS), ExampleSchedule(R.Waiting, BS);
    var y3 := Example(ExampleRecording(c), ExampleBusy([], Answered(T.Denied(T.TunerUnavailable))), {});
    assert Current(y3) == ExampleId();
    assert map[ExampleId() := c][ExampleId() := w] == map[ExampleId() := w];
    assert R.ApplyStart(y3.recording, ExampleId(), R.Refused).0 == ExampleRecording(w);
    assert y3.phase.outcomes + [R.Refused] == [R.Refused];
    assert {} + {ExampleId()} == {ExampleId()};
  }

  lemma ExampleMoves()
    ensures
      var y5 := Example(ExampleRecording(ExampleSchedule(R.Waiting, BS)), Idle, {ExampleId()});
      var y6 := Example(ExampleRecording(ExampleSchedule(R.Waiting, GR)), Idle, {});
      Enabled(y5, Handle(ExampleUpdate())) && Next(y5, Handle(ExampleUpdate())) == y6
  {
    var s := ExampleRecording(ExampleSchedule(R.Waiting, BS));
    var m := map[1 := R.Service("S", Channel("C", GR, "1"))];
    var w := ExampleRecording(ExampleSchedule(R.Waiting, GR));
    assert R.WithServices(s.schedules, m) == w.schedules;
    assert s.schedules[ExampleId()].service != w.schedules[ExampleId()].service;
    assert R.ReadyItems(w.schedules) == {};
    assert R.HandleServices(s, m, [ExampleId()]).state == w;
  }

  lemma ExampleRefuses() returns (y: System, acts: seq<Action>)
    ensures y == Example(NoRecording(), Idle, {}) && Initial(y) && Possible(y, acts)
    ensures After(y, acts) ==
      Example(ExampleRecording(ExampleSchedule(R.Scheduled, BS)),
              ExampleBusy([], Answered(T.Denied(T.TunerUnavailable))), {})
  {
    var c := ExampleSchedule(R.Scheduled, BS);
    ExampleIsAsked();
    ExampleIsRefused();
    y, acts := Example(NoRecording(), Idle, {}), [];
    Extend(y, acts, Begin(Direct(c)));
    acts := acts + [Begin(Direct(c))];
    Extend(y, acts, Request(true));
    acts := acts + [Request(true)];
    Extend(y, acts, Serve(T.Spawned, true));
    acts := acts + [Serve(T.Spawned, true)];
  }

  // An update of the services that fails the condition of `UpdateKeepsAllIff`: in
  // this run a schedule waits next to an idle tuner that no message announces.
  lemma MovedChannelIsForgotten() returns (y: System, acts: seq<Action>)
    ensures Initial(y) && Possible(y, acts)
    ensures !AllCovered(After(y, acts)) && After(y, acts).mailbox == []
  {
    y, acts := ExampleRefuses();
    ExampleWaits();
    Extend(y, acts, Receive(true, true));
    acts := acts + [Receive(true, true)];
    Extend(y, acts, Finish);
    acts := acts + [Finish];
    ExampleMoves();
    Extend(y, acts, Handle(ExampleUpdate()));
    acts := acts + [Handle(ExampleUpdate())];
    ExampleIsUncovered();
  }

  lemma ExampleIsUncovered()
    ensures !AllCovered(Example(ExampleRecording(ExampleSchedule(R.Waiting, GR)), Idle, {}))
  {
    var z := Example(ExampleRecording(ExampleSchedule(R.Waiting, GR)), Idle, {});
    assert WaitsIn(z.recording, ExampleId());
    assert Serves(z.tuners.tuners[0], z.recording.schedules[ExampleId()].service.channel);
  }

  lemma NoTunerFor(s: T.State, t: T.Tuner, r: T.Request)
    requires s.tuners == [t] && !s.stopping && !t.Supports(r.channel) && t.activity.Inactive?
    requires t.restriction.Unrestricted? && t.reservedFor.None? && r.streamId.None?
    ensures T.StartStreaming(s, r, T.Spawned, true) == T.Outcome(s, [], T.Denied(T.TunerUnavailable))
  {
    assert T.Reserved(s, r).None? && T.Shareable(s, r).None? && T.Available(s, r).None?;
    assert T.LeastCandidate(s.tuners, r.channel, r.user.priority, 1).None?;
  }

  // Each actor by itself

  // The messages the tuner manager handles in a run.
  function TunerMessages(y: System, acts: seq<Action>): seq<T.Msg>
    requires Possible(y, acts)
    decreases |acts|
  {
    if acts == [] then []
    else
      (match acts[0]
       case Tune(m) => [m]
       case Serve(act, answered) => [T.Start(RequestFor(y.recording, Current(y)), act, answered)]
       case _ => [])
      + TunerMessages(Next(y, acts[0]), acts[1..])
  }

  // Its part of a run is its own run with these messages.
  lemma {:induction false} TunersRun(y: System, acts: seq<Action>)
    requires Possible(y, acts)
    ensures After(y, acts).tuners == TP.Run(y.tuners, TunerMessages(y, acts))
    decreases |acts|
  {
    if acts != [] {
      var a, rest := acts[0], TunerMessages(Next(y, acts[0]), acts[1..]);
      TunersRun(Next(y, a), acts[1..]);
      match a
      case Tune(m) => TunersGoOn(y.tuners, m, rest);
      case Serve(act, answered) => TunersGoOn(y.tuners, T.Start(RequestFor(y.recording, Current(y)), act, answered), rest);
      case _ => EmptySum(rest);
    }
  }

  lemma TunersGoOn(s: T.State, m: T.Msg, rest: seq<T.Msg>)
    ensures TP.Run(s, [m] + rest) == TP.Run(T.Step(s, m).state, rest)
  {
    TailOfCons(m, rest);
  }

  // The state of the recording manager between its handlers.
  function Settled(y: System): R.State {
    match y.phase
    case Idle => y.recording
    case Busy(origin, _, _, _) => origin
  }

  // The message the recording manager is done with by `a`, if any.
  function Done(y: System, a: Action): seq<R.Msg>
    requires Enabled(y, a)
  {
    match a
    case Deliver => [R.TunerAvailable(y.mailbox[0])]
    case Handle(m) => [m]
    case Finish => [MessageOf(y.phase.job, y.phase.outcomes)]
    case _ => []
  }

  function RecordingMessages(y: System, acts: seq<Action>): seq<R.Msg>
    requires Possible(y, acts)
    decreases |acts|
  {
    if acts == [] then [] else Done(y, acts[0]) + RecordingMessages(Next(y, acts[0]), acts[1..])
  }

  ghost predicate Leads(s: R.State, ms: seq<R.Msg>, s': R.State)
    decreases |ms|
  {
    if ms == [] then s' == s
    else R.Timed(s.schedules) && R.WellFormed(s, ms[0]) && Leads(R.Step(s, ms[0]).state, ms[1..], s')
  }

  lemma SettledStep(y: System, a: Action)
    requires Atomic(y) && Enabled(y, a) && (a.Handle? ==> RP.Admissible(y.recording, a.msg))
    ensures Done(y, a) == [] ==> Settled(Next(y, a)) == Settled(y)
    ensures Done(y, a) != [] ==>
      && |Done(y, a)| == 1 && R.Timed(Settled(y).schedules) && R.WellFormed(Settled(y), Done(y, a)[0])
      && R.Step(Settled(y), Done(y, a)[0]).state == Settled(Next(y, a))
  {
    match a
    case Finish => JobIsStep(y);
    case Deliver =>
      assert R.Step(y.recording, R.TunerAvailable(y.mailbox[0])) == R.HandleTunerAvailable(y.recording, y.mailbox[0]);
    case _ =>
  }

  // Its part of a run, seen between its handlers, is its own run with the messages it
  // is done with, a job counting as one.
  lemma {:induction false} RecordingRuns(y: System, acts: seq<Action>)
    requires Atomic(y) && Possible(y, acts) && AllAdmissible(y, acts)
    ensures Leads(Settled(y), RecordingMessages(y, acts), Settled(After(y, acts)))
    decreases |acts|
  {
    if acts != [] {
      var a, rest := acts[0], RecordingMessages(Next(y, acts[0]), acts[1..]);
      StepIsAtomic(y, a);
      SettledStep(y, a);
      RecordingRuns(Next(y, a), acts[1..]);
      if Done(y, a) == [] { EmptySum(rest); } else { TailSum(Done(y, a), rest); }
    }
  }

  // Ready, and not in the queue any more.
  predicate IsTaken(s: R.State, id: ProgramId) {
    id in s.schedules && s.schedules[id].state.IsReady() && forall it | it in s.queue :: it.id != id
  }

  // However the tuners are used in between, a program that is due is started from
  // a state in which it is ready and has no recorder.  So is the program of a
  // direct request, unless an earlier recorder was left over when it came.
  lemma AskedProgramsAreFresh(y: System, acts: seq<Action>)
    requires Initial(y) && Possible(y, acts) && AllAdmissible(y, acts) && InProgress(After(y, acts))
    ensures
      var z := After(y, acts);
      && IsTaken(z.recording, Current(z))
      && (RP.Startable(z.recording, Current(z)) <==>
          z.phase.job.Due? || Current(z) !in z.phase.origin.recorders)
  {
    InitialIsOk(y);
    StaysAtomic(y, acts);
    var p := After(y, acts).phase;
    match p.job
    case Due(_, _, _) =>
      DueIsStartable(p.origin, p.job);
      NextIsFresh(Base(p.origin, p.job), Picked(p.job), p.outcomes, After(y, acts).recording);
    case Direct(c) =>
      DirectIsTaken(p.origin, p.job, After(y, acts).recording);
  }

  lemma DirectIsTaken(s: R.State, job: Job, s': R.State)
    requires RP.Inv(s) && R.Timed(s.schedules) && JobOk(s, job) && job.Direct?
    requires StartedFrom(Base(s, job), Picked(job), [], s')
    ensures s' == Base(s, job) && IsTaken(s', job.schedule.program.id)
  {
    assert Picked(job)[..0] == [];
  }
}
