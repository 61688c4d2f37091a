// The recording scheduler of mirakc-core/src/recording/mod.rs as functions on
// values.
//
// What the environment decides is a parameter of the handlers: the time, the
// outcome of starting a pipeline, exit codes, EPG data, and the order in which a
// `HashMap` is iterated (`order`, an enumeration of its keys).
module Recordings {
  import opened Models
  import Tuners

  // In milliseconds.
  const PREP: int := 15 * 1000
  const MAX_DELAY: int := 15 * 60 * 60 * 1000
  const MAX_RETAIN: int := 72 * 60 * 60 * 1000
  const EXIT_RETRY: int := 222

  datatype ScheduleState = Scheduled | Tracking | Waiting | Recording | Rescheduling | Finished | Failed {
    predicate IsReady() { Scheduled? || Tracking? }
    predicate IsDone() { Finished? || Failed? }
  }

  datatype Reason =
    | StartRecordingFailed
    | IoError
    | PipelineError(exitCode: int)
    | NeedRescheduling
    | ProgramEnded
    | ScheduleExpired
    | RemovedFromEpg

  datatype Program = Program(id: ProgramId, startAt: Option<int>, duration: Option<int>) {
    function EndAt(): Option<int> {
      if startAt.Some? && duration.Some? then Some(startAt.value + duration.value) else None
    }
  }

  datatype Service = Service(name: string, channel: Channel)

  datatype Schedule = Schedule(
    state: ScheduleState,
    program: Program,
    service: Service,
    priority: int,
    tags: set<string>,
    failure: Option<Reason>)

  datatype QueueItem = QueueItem(id: ProgramId, startAt: int, priority: int) {
    // The order of the priority queue: earlier first, then higher priority.
    predicate Precedes(other: QueueItem) {
      startAt < other.startAt || (startAt == other.startAt && priority > other.priority)
    }
  }

  // Dropping the trigger stops the stream.
  datatype Recorder = Recorder(trigger: Option<Tuners.SubscriptionId>)

  datatype State = State(
    schedules: map<ProgramId, Schedule>,
    queue: multiset<QueueItem>,
    history: seq<Schedule>,
    recorders: map<ProgramId, Recorder>)

  // The status stored in the record of a recording.
  datatype RecordStatus = RecordRecording | RecordFinished | RecordCanceled | RecordFailed(reason: Reason)

  datatype Event =
    | RecordingFailed(id: ProgramId, reason: Reason)
    | RecordingRescheduled(id: ProgramId)
    | RecordingStopped(id: ProgramId)
    | RecordSaved(id: ProgramId, status: RecordStatus)
    | RecordBroken(id: ProgramId)

  // Whether records are kept, and whether the record at hand can be loaded.
  datatype RecordStore = Disabled | Loaded | Broken

  // What comes of starting a recording pipeline, once no recorder exists.
  datatype StartOutcome = Started(stream: Tuners.SubscriptionId, recorded: bool) | Refused | Errored

  // The exit codes of the commands of a recording pipeline.
  datatype Exit = Retry | Error(code: int) | Success

  // `None` stands for a command without an exit code.
  function ExitOf(codes: seq<Option<int>>): (e: Exit)
    ensures e.Retry? <==> Some(EXIT_RETRY) in codes
    ensures e.Success? <==> forall c | c in codes && c.Some? :: c.value == 0
    ensures e.Error? ==> e.code != 0 && Some(e.code) in codes
  {
    if Some(EXIT_RETRY) in codes then Retry else FirstError(codes)
  }

  function FirstError(codes: seq<Option<int>>): (e: Exit)
    ensures !e.Retry?
    ensures e.Success? <==> forall c | c in codes && c.Some? :: c.value == 0
    ensures e.Error? ==> e.code != 0 && Some(e.code) in codes
  {
    if codes == [] then Success
    else if codes[0].Some? && codes[0].value != 0 then Error(codes[0].value)
    else
      var e := FirstError(codes[1..]);
      assert codes == [codes[0]] + codes[1..];
      e
  }

  ghost predicate Enumerates(order: seq<ProgramId>, m: map<ProgramId, Schedule>) {
    && (forall i, j | 0 <= i < j < |order| :: order[i] != order[j])
    && (forall id :: id in order <==> id in m)
  }

  function Select(order: seq<ProgramId>, p: ProgramId -> bool): (r: seq<ProgramId>)
    ensures forall id :: id in r <==> id in order && p(id)
  {
    if order == [] then []
    else
      var rest := Select(order[1..], p);
      assert order == [order[0]] + order[1..];
      if p(order[0]) then [order[0]] + rest else rest
  }

  // Every schedule has a start time, so that the source can unwrap it.
  ghost predicate Timed(m: map<ProgramId, Schedule>) {
    forall id | id in m :: m[id].program.startAt.Some?
  }

  // Queue

  function ReadyItems(m: map<ProgramId, Schedule>): set<QueueItem>
    requires Timed(m)
  {
    set id | id in m && m[id].state.IsReady() :: QueueItem(m[id].program.id, m[id].program.startAt.value, m[id].priority)
  }

  function Rebuilt(s: State): State
    requires Timed(s.schedules)
  {
    s.(queue := multiset(ReadyItems(s.schedules)))
  }

  // The items leave the queue in `picked`: all that are due, best first.
  ghost predicate Dequeues(q: multiset<QueueItem>, now: int, picked: seq<QueueItem>) {
    && multiset(picked) <= q
    && (forall i, j | 0 <= i < j < |picked| :: !picked[j].Precedes(picked[i]))
    && (forall it | it in picked :: it.startAt - now <= PREP)
    && (forall it | it in q - multiset(picked) :: it.startAt - now > PREP)
  }

  // Records

  // The source reaches `unreachable!()` or unwraps a missing reason otherwise.
  predicate RecordUpdatable(c: Schedule) {
    && !c.state.Scheduled? && !c.state.Tracking? && !c.state.Waiting?
    && (c.state.Failed? ==> c.failure.Some?)
  }

  function StatusFor(c: Schedule): RecordStatus
    requires RecordUpdatable(c)
  {
    match c.state
    case Recording => RecordRecording
    case Rescheduling => RecordFailed(NeedRescheduling)
    case Finished => RecordFinished
    case Failed => RecordFailed(c.failure.value)
  }

  function UpdateRecord(s: State, id: ProgramId, store: RecordStore): seq<Event>
    requires id in s.schedules ==> RecordUpdatable(s.schedules[id])
  {
    if id !in s.recorders || store.Disabled? then []
    else if store.Loaded? then
      [RecordSaved(id, if id in s.schedules then StatusFor(s.schedules[id]) else RecordCanceled)]
    else if id in s.schedules then [RecordSaved(id, RecordRecording)]
    else [RecordBroken(id)]
  }

  // Adding and removing

  function Removed(s: State, id: ProgramId): State {
    s.(schedules := s.schedules - {id})
  }

  // A recorder whose trigger is taken goes on until its pipeline ends.
  function TriggerTaken(s: State, id: ProgramId): State {
    if id in s.recorders then s.(recorders := s.recorders[id := Recorder.Recorder(None)]) else s
  }

  predicate RetainedByTag(c: Schedule, tag: string, now: int)
    requires c.state.Scheduled? ==> c.program.startAt.Some?
  {
    tag !in c.tags || c.state.Tracking? || c.state.Waiting? || c.state.Recording? ||
    (c.state.Scheduled? && c.program.startAt.value - now <= PREP)
  }

  // Maintenance

  datatype Verdict = Keep | Expire | Reschedule | GiveUp

  function VerdictOf(c: Schedule, now: int): Verdict
    requires c.program.startAt.Some?
  {
    if c.state.Recording? || c.state.IsDone() then Keep
    else if c.program.startAt.value + MAX_DELAY <= now then Expire
    else if (c.state.IsReady() || c.state.Waiting?) && c.program.EndAt().Some? && c.program.EndAt().value <= now then
      if c.state.Waiting? then GiveUp else Reschedule
    else Keep
  }

  function Expired(c: Schedule): Schedule { c.(state := Failed, failure := Some(ScheduleExpired)) }
  function Postponed(c: Schedule): Schedule { c.(state := Rescheduling, failure := Some(ProgramEnded)) }
  function GivenUp(c: Schedule): Schedule { c.(state := Failed) }
  function RemovedFromEpgFailed(c: Schedule): Schedule { c.(state := Failed, failure := Some(RemovedFromEpg)) }

  // The entries of `ids`, each changed by `f`.
  function Entries(m: map<ProgramId, Schedule>, ids: seq<ProgramId>, f: Schedule -> Schedule): (r: seq<Schedule>)
    requires forall id | id in ids :: id in m
    ensures |r| == |ids| && forall i | 0 <= i < |r| :: r[i] == f(m[ids[i]])
  {
    seq(|ids|, i requires 0 <= i < |ids| => f(m[ids[i]]))
  }

  function Failures(ids: seq<ProgramId>, reason: Reason): (r: seq<Event>)
    ensures |r| == |ids| && forall i | 0 <= i < |r| :: r[i] == RecordingFailed(ids[i], reason)
  {
    seq(|ids|, i requires 0 <= i < |ids| => RecordingFailed(ids[i], reason))
  }

  // Starting

  function ApplyStart(s: State, id: ProgramId, o: StartOutcome): (r: (State, seq<Event>))
    ensures Timed(s.schedules) ==> Timed(r.0.schedules)
  {
    if id !in s.schedules then (s, [])
    else if id !in s.recorders && o.Started? then
      (s.(schedules := s.schedules[id := s.schedules[id].(state := Recording)],
          recorders := s.recorders[id := Recorder.Recorder(Some(o.stream))]),
       if o.recorded then [RecordSaved(id, RecordRecording)] else [])
    else if id !in s.recorders && o.Refused? then
      (s.(schedules := s.schedules[id := s.schedules[id].(state := Waiting, failure := Some(StartRecordingFailed))]),
       [RecordingFailed(id, StartRecordingFailed)])
    else
      (Removed(s, id).(history := s.history +
         [s.schedules[id].(state := Failed, failure := Some(StartRecordingFailed))]),
       [RecordingFailed(id, StartRecordingFailed)])
  }

  // On-air updates

  function ApplyOnair(s: State, p: Program, store: RecordStore): (r: (State, seq<Event>, bool)) {
    if p.id !in s.schedules then (s, [], false)
    else
      var c := s.schedules[p.id];
      var moved := c.program.startAt != p.startAt;
      match c.state
      case Scheduled | Waiting | Rescheduling =>
        (s.(schedules := s.schedules[p.id := c.(program := p, state := Tracking)]),
         if moved then [RecordingRescheduled(p.id)] else [], moved)
      case Tracking =>
        (s.(schedules := s.schedules[p.id := c.(program := p)]),
         if moved then [RecordingRescheduled(p.id)] else [], moved)
      case Recording =>
        var s' := s.(schedules := s.schedules[p.id := c.(program := p)]);
        (s', UpdateRecord(s', p.id, store), false)
      case Finished | Failed => (s, [], false)
  }

  // A program without a start time is ignored.
  function ApplyMaybeOnair(s: State, p: Option<Program>, store: RecordStore, changed: bool)
    : (r: (State, seq<Event>, bool))
    ensures Timed(s.schedules) ==> Timed(r.0.schedules)
  {
    if p.Some? && p.value.startAt.Some? then ApplyOnair(s, p.value, store) else (s, [], changed)
  }

  // `next` is applied after `current`, and its result alone decides whether the
  // queue is rebuilt.
  function ApplyOnairPair(s: State, current: Option<Program>, next: Option<Program>, store: RecordStore)
    : (r: (State, seq<Event>, bool))
    ensures Timed(s.schedules) ==> Timed(r.0.schedules)
  {
    var (s1, e1, c1) := ApplyMaybeOnair(s, current, store, false);
    var (s2, e2, c2) := ApplyMaybeOnair(s1, next, store, c1);
    (s2, e1 + e2, c2)
  }

  // The end of a recording

  function StoppedSchedule(c: Schedule, exit: Exit): Schedule {
    match exit
    case Retry => c.(state := Rescheduling, failure := Some(NeedRescheduling))
    case Error(code) => c.(state := Failed, failure := Some(PipelineError(code)))
    case Success => c.(state := Finished)
  }

  function ApplyStopped(s: State, id: ProgramId, exit: Exit, store: RecordStore): (State, seq<Event>) {
    if id !in s.recorders then (s, [RecordingStopped(id)])
    else if id !in s.schedules then
      (s.(recorders := s.recorders - {id}),
       (if exit.Error? then [RecordingFailed(id, PipelineError(exit.code))] else [])
       + UpdateRecord(s, id, store) + [RecordingStopped(id)])
    else
      var c := StoppedSchedule(s.schedules[id], exit);
      var s1 := s.(schedules := s.schedules[id := c]);
      var events :=
        (match exit
         case Retry => [RecordingFailed(id, NeedRescheduling)]
         case Error(code) => [RecordingFailed(id, PipelineError(code))]
         case Success => [])
        + UpdateRecord(s1, id, store) + [RecordingStopped(id)];
      var s2 := s1.(recorders := s1.recorders - {id});
      (if exit.Retry? then s2 else Removed(s2, id).(history := s2.history + [c]), events)
  }

  // Tuners and services

  function Woken(m: map<ProgramId, Schedule>, types: seq<ChannelType>): map<ProgramId, Schedule> {
    map id | id in m ::
      if m[id].state.Waiting? && m[id].service.channel.channelType in types then m[id].(state := Scheduled) else m[id]
  }

  predicate IsWoken(c: Schedule, types: seq<ChannelType>) {
    c.state.Waiting? && c.service.channel.channelType in types
  }

  predicate RetainedByServices(c: Schedule, id: ProgramId, services: map<nat, Service>) {
    c.state.Recording? || id.service in services
  }

  function WithServices(m: map<ProgramId, Schedule>, services: map<nat, Service>): map<ProgramId, Schedule> {
    map id | id in m && RetainedByServices(m[id], id, services) ::
      if m[id].state.Recording? then m[id] else m[id].(service := services[id.service])
  }

  // EPG programs of one service, by event ID

  datatype EpgVerdict = Untouched | Gone | Updated | Moved

  function EpgVerdictOf(c: Schedule, id: ProgramId, now: int, service: nat, programs: map<nat, Program>): EpgVerdict {
    if id.service != service || c.state.Recording? then Untouched
    else if id.eid !in programs then Gone
    else
      var p := programs[id.eid];
      if p.EndAt().None? || p.EndAt().value <= now then Untouched
      else if p.startAt != c.program.startAt then Moved
      else Updated
  }

  function WithPrograms(m: map<ProgramId, Schedule>, now: int, service: nat, programs: map<nat, Program>)
    : map<ProgramId, Schedule>
  {
    map id | id in m && !EpgVerdictOf(m[id], id, now, service, programs).Gone? ::
      match EpgVerdictOf(m[id], id, now, service, programs)
      case Untouched => m[id]
      case Updated => m[id].(program := programs[id.eid])
      case Moved => m[id].(program := programs[id.eid], state := Scheduled)
      case Gone => m[id]
  }

  // Handlers

  datatype Reply = Done | Ok(schedule: Schedule) | AlreadyExists | ScheduleNotFound | RecorderNotFound

  datatype Outcome = Outcome(state: State, events: seq<Event>, reply: Reply)

  function HandleAdd(s: State, c: Schedule, current: Option<Program>, next: Option<Program>, store: RecordStore): Outcome
    requires Timed(s.schedules) && c.program.startAt.Some?
  {
    if c.program.id in s.schedules then Outcome(s, [], AlreadyExists)
    else
      var added := s.(schedules := s.schedules[c.program.id := c]);
      var (s1, events, _) := ApplyOnairPair(added, current, next, store);
      Outcome(Rebuilt(s1), events,
              if c.program.id in s1.schedules then Ok(s1.schedules[c.program.id]) else ScheduleNotFound)
  }

  function HandleRemove(s: State, id: ProgramId): Outcome
    requires Timed(s.schedules)
  {
    if id !in s.schedules then Outcome(s, [], ScheduleNotFound)
    else
      var c := s.schedules[id];
      var s1 := Removed(s, id);
      Outcome(Rebuilt(if c.state.Recording? then TriggerTaken(s1, id) else s1), [], Ok(c))
  }

  function HandleRemoveAll(s: State): Outcome {
    var recorders := map id | id in s.recorders ::
      if id in s.schedules && s.schedules[id].state.Recording? then Recorder.Recorder(None) else s.recorders[id];
    Outcome(s.(schedules := map[], queue := multiset{}, recorders := recorders), [], Done)
  }

  function HandleRemoveTagged(s: State, tag: string, now: int): Outcome
    requires Timed(s.schedules)
  {
    var kept := map id | id in s.schedules && RetainedByTag(s.schedules[id], tag, now) :: s.schedules[id];
    Outcome(Rebuilt(s.(schedules := kept)), [], Done)
  }

  function HandleStart(s: State, c: Schedule, o: StartOutcome): Outcome {
    if c.program.id in s.schedules then Outcome(s, [], AlreadyExists)
    else
      var (s1, events) := ApplyStart(s.(schedules := s.schedules[c.program.id := c]), c.program.id, o);
      Outcome(s1, events, Done)
  }

  function HandleStop(s: State, id: ProgramId): Outcome {
    if id in s.recorders then Outcome(TriggerTaken(s, id), [], Done) else Outcome(s, [], RecorderNotFound)
  }

  function VerdictAt(s: State, id: ProgramId, now: int): Verdict {
    if id in s.schedules && s.schedules[id].program.startAt.Some? then VerdictOf(s.schedules[id], now) else Keep
  }

  function IsExpired(s: State, now: int): ProgramId -> bool {
    id => VerdictAt(s, id, now).Expire?
  }

  function HasEnded(s: State, now: int): ProgramId -> bool {
    id => VerdictAt(s, id, now).Reschedule? || VerdictAt(s, id, now).GiveUp?
  }

  function IsGivenUp(s: State, now: int): ProgramId -> bool {
    id => VerdictAt(s, id, now).GiveUp?
  }

  function Surviving(s: State, now: int): map<ProgramId, Schedule> {
    map id | id in s.schedules && !VerdictAt(s, id, now).Expire? && !VerdictAt(s, id, now).GiveUp? ::
      if VerdictAt(s, id, now).Reschedule? then Postponed(s.schedules[id]) else s.schedules[id]
  }

  function Maintained(s: State, now: int, order: seq<ProgramId>): (r: (State, seq<Event>, bool))
    ensures Timed(s.schedules) ==> Timed(r.0.schedules)
  {
    var expired := Select(order, IsExpired(s, now));
    var ended := Select(order, HasEnded(s, now));
    var givenUp := Select(ended, IsGivenUp(s, now));
    (s.(schedules := Surviving(s, now),
        history := s.history + Entries(s.schedules, expired, Expired) + Entries(s.schedules, givenUp, GivenUp)),
     Failures(expired, ScheduleExpired) + Failures(ended, ProgramEnded),
     expired != [] || ended != [])
  }

  // Maintenance, with the queue rebuilt if it changed any schedule.
  function Prepared(s: State, now: int, order: seq<ProgramId>): (r: (State, seq<Event>))
    requires Timed(s.schedules)
  {
    var (s1, events, changed) := Maintained(s, now, order);
    (if changed then Rebuilt(s1) else s1, events)
  }

  function Dequeued(s: State, picked: seq<QueueItem>): State {
    s.(queue := s.queue - multiset(picked))
  }

  function StartAll(s: State, picked: seq<QueueItem>, outcomes: seq<StartOutcome>): (r: (State, seq<Event>))
    requires |picked| == |outcomes|
    decreases |picked|
  {
    if picked == [] then (s, [])
    else
      var (s1, e1) := ApplyStart(s, picked[0].id, outcomes[0]);
      var (s2, e2) := StartAll(s1, picked[1..], outcomes[1..]);
      (s2, e1 + e2)
  }

  predicate Retained(c: Schedule, now: int) {
    c.program.startAt.Some? && c.program.startAt.value + MAX_RETAIN > now
  }

  function Kept(history: seq<Schedule>, now: int): (r: seq<Schedule>)
    ensures forall c :: c in r <==> c in history && Retained(c, now)
  {
    if history == [] then []
    else
      assert history == [history[0]] + history[1..];
      (if Retained(history[0], now) then [history[0]] else []) + Kept(history[1..], now)
  }

  function HandleProcess(s: State, now: int, order: seq<ProgramId>, picked: seq<QueueItem>, outcomes: seq<StartOutcome>)
    : Outcome
    requires Timed(s.schedules) && |picked| == |outcomes|
  {
    var (s1, e1) := Prepared(s, now, order);
    var (s2, e2) := StartAll(Dequeued(s1, picked), picked, outcomes);
    Outcome(s2.(history := Kept(s2.history, now)), e1 + e2, Done)
  }

  function HandleStopped(s: State, id: ProgramId, codes: seq<Option<int>>, store: RecordStore): Outcome {
    var (s1, events) := ApplyStopped(s, id, ExitOf(codes), store);
    Outcome(s1, events, Done)
  }

  function HandleTunerAvailable(s: State, types: seq<ChannelType>): Outcome
    requires Timed(s.schedules)
  {
    if exists id :: id in s.schedules && IsWoken(s.schedules[id], types) then
      Outcome(Rebuilt(s.(schedules := Woken(s.schedules, types))), [], Done)
    else Outcome(s, [], Done)
  }

  function IsUnserved(s: State, services: map<nat, Service>): ProgramId -> bool {
    id => id in s.schedules && !RetainedByServices(s.schedules[id], id, services)
  }

  function HandleServices(s: State, services: map<nat, Service>, order: seq<ProgramId>): Outcome
    requires Timed(s.schedules)
  {
    var removed := Select(order, IsUnserved(s, services));
    var recorders := map id | id in s.recorders ::
      if id in removed then Recorder.Recorder(None) else s.recorders[id];
    var schedules := WithServices(s.schedules, services);
    var s1 := s.(schedules := schedules, recorders := recorders);
    Outcome(if schedules == s.schedules then s1 else Rebuilt(s1), Failures(removed, RemovedFromEpg), Done)
  }

  function IsGone(s: State, now: int, service: nat, ps: map<nat, Program>): ProgramId -> bool {
    id => id in s.schedules && EpgVerdictOf(s.schedules[id], id, now, service, ps).Gone?
  }

  function IsMoved(s: State, now: int, service: nat, ps: map<nat, Program>): ProgramId -> bool {
    id => id in s.schedules && EpgVerdictOf(s.schedules[id], id, now, service, ps).Moved?
  }

  function Rescheduled(ids: seq<ProgramId>): (r: seq<Event>)
    ensures |r| == |ids| && forall i | 0 <= i < |r| :: r[i] == RecordingRescheduled(ids[i])
  {
    seq(|ids|, i requires 0 <= i < |ids| => RecordingRescheduled(ids[i]))
  }

  // `programs` is `None` if the EPG does not answer.
  function HandlePrograms(
    s: State, now: int, service: nat, programs: Option<map<nat, Program>>, order: seq<ProgramId>): Outcome
    requires Timed(s.schedules)
  {
    if programs.None? then Outcome(s, [], Done)
    else
      var ps := programs.value;
      var gone := Select(order, IsGone(s, now, service, ps));
      var moved := Select(order, IsMoved(s, now, service, ps));
      var s1 := s.(schedules := WithPrograms(s.schedules, now, service, ps),
                   history := s.history + Entries(s.schedules, gone, RemovedFromEpgFailed));
      var events := Failures(gone, RemovedFromEpg) + Rescheduled(moved);
      if exists id :: id in s.schedules && !EpgVerdictOf(s.schedules[id], id, now, service, ps).Untouched? then
        Outcome(Rebuilt(s1), events, Done)
      else Outcome(s1, events, Done)
  }

  function HandleOnair(s: State, current: Option<Program>, next: Option<Program>, store: RecordStore): Outcome
    requires Timed(s.schedules)
  {
    var (s1, events, changed) := ApplyOnairPair(s, current, next, store);
    Outcome(if changed then Rebuilt(s1) else s1, events, Done)
  }

  datatype Msg =
    | Add(schedule: Schedule, current: Option<Program>, next: Option<Program>, store: RecordStore)
    | Remove(id: ProgramId)
    | RemoveAll
    | RemoveTagged(tag: string, now: int)
    | Start(schedule: Schedule, outcome: StartOutcome)
    | StopRecording(id: ProgramId)
    | Process(now: int, order: seq<ProgramId>, picked: seq<QueueItem>, outcomes: seq<StartOutcome>)
    | PipelineStopped(id: ProgramId, codes: seq<Option<int>>, store: RecordStore)
    | TunerAvailable(types: seq<ChannelType>)
    | ServicesUpdated(services: map<nat, Service>, order: seq<ProgramId>)
    | ProgramsUpdated(now: int, service: nat, programs: Option<map<nat, Program>>, order: seq<ProgramId>)
    | OnairChanged(current: Option<Program>, next: Option<Program>, store: RecordStore)

  ghost predicate WellFormed(s: State, m: Msg)
    requires Timed(s.schedules)
  {
    match m
    case Add(c, _, _, _) => c.state.Scheduled? && c.program.startAt.Some?
    case Start(c, _) => c.state.Scheduled? && c.program.startAt.Some?
    case Process(now, order, picked, outcomes) =>
      |picked| == |outcomes| && Enumerates(order, s.schedules) && Dequeues(Prepared(s, now, order).0.queue, now, picked)
    case ServicesUpdated(_, order) => Enumerates(order, s.schedules)
    case ProgramsUpdated(_, service, programs, order) =>
      && Enumerates(order, s.schedules)
      && (programs.Some? ==> forall e | e in programs.value :: programs.value[e].id == ProgramId(service, e))
    case _ => true
  }

  function Step(s: State, m: Msg): Outcome
    requires Timed(s.schedules) && WellFormed(s, m)
  {
    match m
    case Add(c, current, next, store) => HandleAdd(s, c, current, next, store)
    case Remove(id) => HandleRemove(s, id)
    case RemoveAll => HandleRemoveAll(s)
    case RemoveTagged(tag, now) => HandleRemoveTagged(s, tag, now)
    case Start(c, o) => HandleStart(s, c, o)
    case StopRecording(id) => HandleStop(s, id)
    case Process(now, order, picked, outcomes) => HandleProcess(s, now, order, picked, outcomes)
    case PipelineStopped(id, codes, store) => HandleStopped(s, id, codes, store)
    case TunerAvailable(types) => HandleTunerAvailable(s, types)
    case ServicesUpdated(services, order) => HandleServices(s, services, order)
    case ProgramsUpdated(now, service, programs, order) => HandlePrograms(s, now, service, programs, order)
    case OnairChanged(current, next, store) => HandleOnair(s, current, next, store)
  }
}
