// What the allocator guarantees in every reachable state.
module TunerProperties {
  import opened Models
  import opened Tuners

  // Invariants

  ghost predicate SessionOk(s: State, i: nat)
    requires i < |s.tuners|
  {
    s.tuners[i].IsActive() ==>
      var session := s.tuners[i].activity.session;
      && session.id.tunerIndex == i
      && session.id.sessionNumber < s.nextSession
      && session.subscribers != map[]
      && forall k | k in session.subscribers :: k < session.nextSerial
  }

  // At handler boundaries every active tuner has its own session with a user.
  ghost predicate Inv(s: State) {
    forall i | 0 <= i < |s.tuners| :: s.tuners[i].index == i && SessionOk(s, i)
  }

  predicate OwnStation(t: Tuner) {
    t.restriction.OneChannel? && t.IsActive() ==>
      && t.activity.session.channel.channelType == t.restriction.channelType
      && t.activity.session.channel.channel == t.restriction.channel
  }

  ghost predicate OnOwnStations(s: State) {
    forall i | 0 <= i < |s.tuners| :: OwnStation(s.tuners[i])
  }

  // The user a channel-restricted tuner is reserved for asks for that channel.
  ghost predicate AsksForOwn(ts: seq<Tuner>, r: Request) {
    forall i | 0 <= i < |ts| && ts[i].IsReservedFor(r.user) && ts[i].restriction.OneChannel? ::
      r.channel.channelType == ts[i].restriction.channelType && r.channel.channel == ts[i].restriction.channel
  }

  // Stream identifiers come from this manager, so their tuner exists.
  ghost predicate Admissible(s: State, m: Msg) {
    match m
    case Start(r, _, _) => AsksForOwn(s.tuners, r) &&
      (r.streamId.Some? ==> r.streamId.value.session.tunerIndex < |s.tuners|)
    case Stop(id) => id.session.tunerIndex < |s.tuners|
    case ShutDown => true
  }

  // A tuner as it is loaded: it is reserved for an on-air tracker and then for any
  // channel, for a timeshift recorder and then for its channel, or for nobody.
  predicate Loaded(t: Tuner) {
    && !t.IsActive()
    && match t.restriction
       case Unrestricted => t.reservedFor.None?
       case Exclusive => t.reservedFor.Some? && t.reservedFor.value.OnairProgramTracker?
       case OneChannel(channelType, _) =>
         t.reservedFor.Some? && t.reservedFor.value.TimeshiftRecorder? && channelType in t.channelTypes
  }

  ghost predicate Initial(s: State) {
    && !s.stopping
    && forall i | 0 <= i < |s.tuners| :: s.tuners[i].index == i && Loaded(s.tuners[i])
  }

  function Run(s: State, ms: seq<Msg>): State
    decreases |ms|
  {
    if ms == [] then s else Run(Step(s, ms[0]).state, ms[1..])
  }

  ghost predicate AllAdmissible(s: State, ms: seq<Msg>)
    decreases |ms|
  {
    ms == [] || (Admissible(s, ms[0]) && AllAdmissible(Step(s, ms[0]).state, ms[1..]))
  }

  // What never changes: the configuration of each tuner.
  ghost predicate SameConfig(s: State, s': State) {
    && |s.tuners| == |s'.tuners|
    && forall i | 0 <= i < |s.tuners| :: s'.tuners[i] == s.tuners[i].(activity := s'.tuners[i].activity)
  }

  // Only tuner `i` differs.
  ghost predicate OnlyTuner(s: State, s': State, i: nat) {
    && i < |s.tuners|
    && SameConfig(s, s')
    && forall j | 0 <= j < |s.tuners| && j != i :: s'.tuners[j] == s.tuners[j]
  }

  lemma SubscribedKeeps(s: State, i: nat, user: User)
    requires i < |s.tuners| && s.tuners[i].IsActive()
    requires forall j | 0 <= j < |s.tuners| :: s.tuners[j].index == j && (j != i ==> SessionOk(s, j))
    requires s.tuners[i].activity.session.id.tunerIndex == i
    requires s.tuners[i].activity.session.id.sessionNumber < s.nextSession
    requires forall k | k in s.tuners[i].activity.session.subscribers :: k < s.tuners[i].activity.session.nextSerial
    ensures Inv(Subscribed(s, i, user).state)
  {
    var session := s.tuners[i].activity.session;
    var users := session.subscribers[session.nextSerial := user];
    assert session.nextSerial in users;
    var s' := Subscribed(s, i, user).state;
    forall j | 0 <= j < |s'.tuners| ensures s'.tuners[j].index == j && SessionOk(s', j) {
      if j != i { assert SessionOk(s, j); }
    }
  }

  lemma DeactivatedKeeps(s: State, i: nat)
    requires Inv(s) && i < |s.tuners|
    ensures Inv(Deactivated(s, i))
  {
    var s' := Deactivated(s, i);
    forall j | 0 <= j < |s'.tuners| ensures s'.tuners[j].index == j && SessionOk(s', j) {
      if j != i { assert SessionOk(s, j); }
    }
  }

  lemma LaunchedKeeps(s: State, i: nat, r: Request, act: Activation)
    requires Inv(s) && i < |s.tuners|
    ensures Inv(Launched(s, i, r, act).state)
  {
    var burnt := s.(nextSession := s.nextSession + 1);
    forall j | 0 <= j < |s.tuners| ensures SessionOk(burnt, j) {
      assert SessionOk(s, j);
    }
    if act.Spawned? && !s.tuners[i].IsActive() {
      var s1 := WithSession(s, i, r.channel);
      forall j | 0 <= j < |s1.tuners| && j != i ensures s1.tuners[j].index == j && SessionOk(s1, j) {
        assert SessionOk(s, j);
      }
      SubscribedKeeps(s1, i, r.user);
    }
  }

  lemma GrabbedIsLaunch(s: State, i: nat, r: Request, act: Activation)
    requires i < |s.tuners|
    ensures !act.FilterFails? ==> Grabbed(s, i, r, act).state == Launched(Deactivated(s, i), i, r, act).state
  {
  }

  lemma ActivateKeeps(s: State, r: Request, act: Activation)
    requires Inv(s)
    ensures Inv(ActivateTuner(s, r, act).state)
  {
    forall i | 0 <= i < |s.tuners| && s.tuners[i].IsActive()
      ensures Inv(Subscribed(s, i, r.user).state)
    {
      assert SessionOk(s, i);
      SubscribedKeeps(s, i, r.user);
    }
    forall i: nat | i < |s.tuners| ensures Inv(Launched(s, i, r, act).state) && Inv(Grabbed(s, i, r, act).state) {
      LaunchedKeeps(s, i, r, act);
      DeactivatedKeeps(s, i);
      LaunchedKeeps(Deactivated(s, i), i, r, act);
      GrabbedIsLaunch(s, i, r, act);
    }
  }

  lemma StopKeeps(s: State, id: SubscriptionId)
    requires Inv(s)
    ensures Inv(StopStreaming(s, id).state)
  {
    var s' := StopStreaming(s, id).state;
    if s' != s {
      var i := id.session.tunerIndex;
      forall j | 0 <= j < |s'.tuners| ensures s'.tuners[j].index == j && SessionOk(s', j) {
        assert SessionOk(s, j);
      }
    }
  }

  lemma StepKeepsInv(s: State, m: Msg)
    requires Inv(s)
    ensures Inv(Step(s, m).state)
  {
    match m
    case Start(r, act, answered) =>
      ActivateKeeps(s, r, act);
      var o := ActivateTuner(s, r, act);
      if o.reply.Granted? && o.reply.id.session.tunerIndex < |o.state.tuners| {
        DeactivatedKeeps(o.state, o.reply.id.session.tunerIndex);
      }
    case Stop(id) => StopKeeps(s, id);
    case ShutDown =>
  }

  // Configuration

  // The tuner a request is directed to.
  function Chosen(s: State, r: Request): (i: Option<nat>)
    ensures i.Some? ==> i.value < |s.tuners|
  {
    if r.streamId.Some? then
      var i := r.streamId.value.session.tunerIndex;
      if i < |s.tuners| then Some(i) else None
    else if Reserved(s, r).Some? then Reserved(s, r)
    else if Shareable(s, r).Some? then Shareable(s, r)
    else if Available(s, r).Some? then Available(s, r)
    else Grabbable(s, r)
  }

  lemma SubscribedOnly(s: State, i: nat, user: User)
    requires i < |s.tuners| && s.tuners[i].IsActive()
    ensures OnlyTuner(s, Subscribed(s, i, user).state, i)
  {
  }

  lemma LaunchedOnly(s: State, i: nat, r: Request, act: Activation)
    requires i < |s.tuners|
    ensures OnlyTuner(s, Launched(s, i, r, act).state, i)
    ensures Launched(s, i, r, act).reply.Granted? ==> Launched(s, i, r, act).reply.id.session.tunerIndex == i
  {
  }

  lemma GrabbedOnly(s: State, i: nat, r: Request, act: Activation)
    requires i < |s.tuners|
    ensures OnlyTuner(s, Grabbed(s, i, r, act).state, i)
    ensures Grabbed(s, i, r, act).reply.Granted? ==> Grabbed(s, i, r, act).reply.id.session.tunerIndex == i
  {
  }

  // What a step directed to tuner `i` leaves alone.
  ghost predicate Touches(s: State, o: Outcome, i: nat) {
    OnlyTuner(s, o.state, i) && (o.reply.Granted? ==> o.reply.id.session.tunerIndex == i)
  }

  lemma StepsTouch(s: State, i: nat, r: Request, act: Activation)
    requires Inv(s) && i < |s.tuners|
    ensures Touches(s, Launched(s, i, r, act), i) && Touches(s, Grabbed(s, i, r, act), i)
    ensures s.tuners[i].IsActive() ==> Touches(s, Subscribed(s, i, r.user), i)
  {
    assert SessionOk(s, i);
    if s.tuners[i].IsActive() { SubscribedOnly(s, i, r.user); }
    LaunchedOnly(s, i, r, act);
    GrabbedOnly(s, i, r, act);
  }

  lemma ActivateTouchesChosen(s: State, r: Request, act: Activation)
    requires Inv(s)
    ensures Chosen(s, r).None? ==> ActivateTuner(s, r, act).state == s && !ActivateTuner(s, r, act).reply.Granted?
    ensures Chosen(s, r).Some? ==> OnlyTuner(s, ActivateTuner(s, r, act).state, Chosen(s, r).value)
    ensures ActivateTuner(s, r, act).reply.Granted? ==>
      Chosen(s, r) == Some(ActivateTuner(s, r, act).reply.id.session.tunerIndex)
  {
    if Chosen(s, r).Some? {
      StepsTouch(s, Chosen(s, r).value, r, act);
      assert Touches(s, ActivateTuner(s, r, act), Chosen(s, r).value);
    }
  }

  // A request changes no tuner but the one it is directed to.
  lemma StartTouchesChosen(s: State, r: Request, act: Activation, answered: bool)
    requires Inv(s)
    ensures Chosen(s, r).None? ==> StartStreaming(s, r, act, answered).state == s
    ensures Chosen(s, r).Some? ==> OnlyTuner(s, StartStreaming(s, r, act, answered).state, Chosen(s, r).value)
  {
    ActivateTouchesChosen(s, r, act);
  }

  lemma StepKeepsConfig(s: State, m: Msg)
    requires Inv(s)
    ensures SameConfig(s, Step(s, m).state)
  {
    if m.Start? { StartTouchesChosen(s, m.request, m.act, m.answered); }
  }

  // Panics

  // When a request makes the manager panic: it reaches an active tuner it takes
  // for an idle one, because that tuner is restricted to the requested station
  // while being tuned to another.
  ghost predicate ReachesBusyTuner(s: State, r: Request, act: Activation) {
    && !s.stopping
    && (act.SpawnFails? || act.Spawned?)
    && r.streamId.None?
    && (forall i | 0 <= i < |s.tuners| :: !s.tuners[i].IsReservedFor(r.user))
    && (forall i | 0 <= i < |s.tuners| :: s.tuners[i].Excludes(r.channel) || !s.tuners[i].IsReuseable(r.channel))
    && exists i :: 0 <= i < |s.tuners| && BusyButAvailable(s, r, i)
  }

  ghost predicate BusyButAvailable(s: State, r: Request, i: nat)
    requires i < |s.tuners|
  {
    && !s.tuners[i].Excludes(r.channel)
    && s.tuners[i].IsActive()
    && s.tuners[i].restriction == OneChannel(r.channel.channelType, r.channel.channel)
    && forall j | 0 <= j < i :: s.tuners[j].Excludes(r.channel) || !s.tuners[j].IsAvailableFor(r.channel)
  }

  lemma StartPanicsIff(s: State, r: Request, act: Activation, answered: bool)
    requires r.streamId.Some? ==> r.streamId.value.session.tunerIndex < |s.tuners|
    ensures StartStreaming(s, r, act, answered).reply.Panicked? <==> ReachesBusyTuner(s, r, act)
  {
    if ReachesBusyTuner(s, r, act) {
      var i :| 0 <= i < |s.tuners| && BusyButAvailable(s, r, i);
      assert s.tuners[i].IsAvailableFor(r.channel);
      assert Available(s, r) == Some(i);
    } else if StartStreaming(s, r, act, answered).reply.Panicked? {
      var i := Available(s, r).value;
      assert BusyButAvailable(s, r, i);
    }
  }

  lemma SubscribedKeepsStations(s: State, i: nat, user: User)
    requires OnOwnStations(s) && i < |s.tuners| && s.tuners[i].IsActive()
    ensures OnOwnStations(Subscribed(s, i, user).state)
  {
    var s' := Subscribed(s, i, user).state;
    forall j | 0 <= j < |s'.tuners| ensures OwnStation(s'.tuners[j]) {
      assert OwnStation(s.tuners[j]);
    }
  }

  lemma LaunchedKeepsStations(s: State, i: nat, r: Request, act: Activation)
    requires OnOwnStations(s) && i < |s.tuners|
    requires s.tuners[i].restriction.OneChannel? ==>
      s.tuners[i].restriction == OneChannel(r.channel.channelType, r.channel.channel)
    ensures OnOwnStations(Launched(s, i, r, act).state)
  {
    if act.Spawned? && !s.tuners[i].IsActive() {
      var s1 := WithSession(s, i, r.channel);
      forall j | 0 <= j < |s1.tuners| ensures OwnStation(s1.tuners[j]) {
        assert OwnStation(s.tuners[j]);
      }
      SubscribedKeepsStations(s1, i, r.user);
    }
  }

  lemma DeactivatedKeepsStations(s: State, i: nat)
    requires OnOwnStations(s) && i < |s.tuners|
    ensures OnOwnStations(Deactivated(s, i))
  {
    var s' := Deactivated(s, i);
    forall j | 0 <= j < |s'.tuners| ensures OwnStation(s'.tuners[j]) {
      assert OwnStation(s.tuners[j]);
    }
  }

  lemma ActivateKeepsStations(s: State, r: Request, act: Activation)
    requires OnOwnStations(s) && AsksForOwn(s.tuners, r)
    ensures OnOwnStations(ActivateTuner(s, r, act).state)
  {
    forall i | 0 <= i < |s.tuners| && s.tuners[i].IsActive()
      ensures OnOwnStations(Subscribed(s, i, r.user).state)
    {
      SubscribedKeepsStations(s, i, r.user);
    }
    if r.streamId.Some? {
    } else if Reserved(s, r).Some? {
      LaunchedKeepsStations(s, Reserved(s, r).value, r, act);
    } else if Shareable(s, r).Some? {
    } else if Available(s, r).Some? {
      LaunchedKeepsStations(s, Available(s, r).value, r, act);
    } else if Grabbable(s, r).Some? {
      var i := Grabbable(s, r).value;
      DeactivatedKeepsStations(s, i);
      LaunchedKeepsStations(Deactivated(s, i), i, r, act);
      GrabbedIsLaunch(s, i, r, act);
    }
  }

  lemma StepKeepsStations(s: State, m: Msg)
    requires Inv(s) && OnOwnStations(s) && Admissible(s, m)
    ensures OnOwnStations(Step(s, m).state)
  {
    match m
    case Start(r, act, answered) =>
      ActivateKeepsStations(s, r, act);
      var o := ActivateTuner(s, r, act);
      if o.reply.Granted? && o.reply.id.session.tunerIndex < |o.state.tuners| {
        DeactivatedKeepsStations(o.state, o.reply.id.session.tunerIndex);
      }
    case Stop(id) =>
      var s' := StopStreaming(s, id).state;
      forall j | 0 <= j < |s'.tuners| ensures OwnStation(s'.tuners[j]) {
        assert OwnStation(s.tuners[j]);
      }
    case ShutDown =>
  }

  // The manager never panics, in any run in which each reserved user asks for
  // the channel of its tuner.
  lemma {:induction false} NeverPanics(s: State, ms: seq<Msg>, m: Msg)
    requires Inv(s) && OnOwnStations(s)
    requires AllAdmissible(s, ms) && Admissible(Run(s, ms), m)
    ensures Inv(Run(s, ms)) && OnOwnStations(Run(s, ms))
    ensures !Step(Run(s, ms), m).reply.Panicked?
    decreases |ms|
  {
    if ms == [] {
      if m.Start? {
        StartPanicsIff(s, m.request, m.act, m.answered);
        forall i | 0 <= i < |s.tuners| && BusyButAvailable(s, m.request, i)
          ensures s.tuners[i].IsReuseable(m.request.channel)
        {
          assert OwnStation(s.tuners[i]);
        }
      }
    } else {
      StepKeepsInv(s, ms[0]);
      StepKeepsStations(s, ms[0]);
      NeverPanics(Step(s, ms[0]).state, ms[1..], m);
    }
  }

  // Without that assumption it can: the reserved user moves its tuner to another
  // channel, and the next request for the tuner's own channel finds it busy.
  lemma OffStationPanics() returns (s: State, off: Msg, on: Msg)
    ensures Initial(s) && !Admissible(s, off)
    ensures Step(s, off).reply.Granted?
    ensures Step(Step(s, off).state, on).reply.Panicked?
  {
    var owner := TimeshiftRecorder("nhk");
    var t := Tuner(0, [GR], [], Some(owner), OneChannel(GR, "0"), Inactive);
    s := State([t], 0, false);
    var r := Request(Channel("x", GR, "1"), User(owner, 0), None);
    off := Start(r, Spawned, true);
    assert t.IsReservedFor(r.user);
    assert Reserved(s, r) == Some(0);
    var s1 := Step(s, off).state;
    var t1 := s1.tuners[0];
    assert t1 == t.(activity := Active(Session(SessionId(0, 0), r.channel, map[1 := r.user], 2)));
    var r1 := Request(Channel("nhk", GR, "0"), User(Web("1", None), 0), None);
    on := Start(r1, Spawned, true);
    assert !t1.IsReservedFor(r1.user) && !t1.IsReuseable(r1.channel) && !t1.Excludes(r1.channel);
    assert t1.IsAvailableFor(r1.channel);
    assert Available(s1, r1) == Some(0);
    assert Reserved(s1, r1).None? && Shareable(s1, r1).None?;
  }

  // Stations

  predicate TunedTo(s: State, i: nat, c: Channel) {
    i < |s.tuners| && s.tuners[i].IsActive() && s.tuners[i].activity.session.channel.SameStation(c)
  }

  lemma ActivateIsOnStationIff(s: State, r: Request, act: Activation)
    requires Inv(s) && ActivateTuner(s, r, act).reply.Granted?
    ensures
      var i := ActivateTuner(s, r, act).reply.id.session.tunerIndex;
      && Chosen(s, r) == Some(i) && i < |s.tuners|
      && (TunedTo(ActivateTuner(s, r, act).state, i, r.channel) <==>
          (r.streamId.None? && Reserved(s, r).None?) || !s.tuners[i].IsActive() || TunedTo(s, i, r.channel))
  {
    ActivateTouchesChosen(s, r, act);
    assert SessionOk(s, Chosen(s, r).value);
  }

  // A granted stream is on the requested station unless the request names a stream
  // or its user has a reserved tuner, and that tuner is busy with another station.
  lemma GrantIsOnStationIff(s: State, r: Request, act: Activation, answered: bool)
    requires Inv(s) && StartStreaming(s, r, act, answered).reply.Granted?
    ensures
      var i := StartStreaming(s, r, act, answered).reply.id.session.tunerIndex;
      && Chosen(s, r) == Some(i) && i < |s.tuners|
      && (TunedTo(StartStreaming(s, r, act, answered).state, i, r.channel) <==>
          (r.streamId.None? && Reserved(s, r).None?) || !s.tuners[i].IsActive() || TunedTo(s, i, r.channel))
  {
    ActivateIsOnStationIff(s, r, act);
  }

  // In admissible runs, a request that names no stream and is granted a tuner
  // restricted to one channel gets its station.
  lemma RestrictedGrantsAreOnStation(s: State, ms: seq<Msg>, r: Request, act: Activation, answered: bool)
    requires Inv(s) && OnOwnStations(s) && r.streamId.None?
    requires AllAdmissible(s, ms) && Admissible(Run(s, ms), Start(r, act, answered))
    requires StartStreaming(Run(s, ms), r, act, answered).reply.Granted?
    ensures
      var i := StartStreaming(Run(s, ms), r, act, answered).reply.id.session.tunerIndex;
      && i < |Run(s, ms).tuners|
      && (Run(s, ms).tuners[i].restriction.OneChannel? ==>
          TunedTo(StartStreaming(Run(s, ms), r, act, answered).state, i, r.channel))
  {
    NeverPanics(s, ms, Start(r, act, answered));
    var s' := Run(s, ms);
    GrantIsOnStationIff(s', r, act, answered);
    var i := Chosen(s', r).value;
    assert OwnStation(s'.tuners[i]);
  }

  // It does happen from an initial state: an on-air tracker asks for a second
  // channel on its tuner and is given the stream of the first one.
  lemma ReservedUserGetsOtherStation(name: string, c: Channel, d: Channel)
    requires !c.SameStation(d)
    ensures
      var owner := OnairProgramTracker(name);
      var s := State([Tuner(0, [c.channelType], [], Some(owner), Exclusive, Inactive)], 0, false);
      var r, r' := Request(c, User(owner, 0), None), Request(d, User(owner, 0), None);
      var s1 := StartStreaming(s, r, Spawned, true).state;
      && Initial(s) && Inv(s1)
      && StartStreaming(s1, r', Spawned, true).reply.Granted?
      && !TunedTo(StartStreaming(s1, r', Spawned, true).state, 0, d)
  {
    var owner := OnairProgramTracker(name);
    var s := State([Tuner(0, [c.channelType], [], Some(owner), Exclusive, Inactive)], 0, false);
    var r, r' := Request(c, User(owner, 0), None), Request(d, User(owner, 0), None);
    assert s.tuners[0].IsReservedFor(r.user) && Reserved(s, r) == Some(0);
    var s1 := StartStreaming(s, r, Spawned, true).state;
    StepKeepsInv(s, Start(r, Spawned, true));
    assert s1.tuners[0].IsReservedFor(r'.user) && Reserved(s1, r') == Some(0);
    assert TunedTo(s1, 0, c) && !TunedTo(s1, 0, d);
    GrantIsOnStationIff(s1, r', Spawned, true);
  }

  // Preemption

  lemma {:induction false} LeastCandidateIsLeast(ts: seq<Tuner>, c: Channel, p: Priority, n: nat)
    requires n <= |ts|
    ensures LeastCandidate(ts, c, p, n).None? ==> forall j | 0 <= j < n :: !Candidate(ts[j], c, p)
    ensures LeastCandidate(ts, c, p, n).Some? ==>
      IsLeastCandidate(ts, c, p, n, LeastCandidate(ts, c, p, n).value)
  {
    if n > 0 {
      LeastCandidateIsLeast(ts, c, p, n - 1);
    }
  }

  // Least by highest user priority, then number of users, then index.
  ghost predicate IsLeastCandidate(ts: seq<Tuner>, c: Channel, p: Priority, n: nat, i: nat)
    requires n <= |ts|
  {
    && i < n
    && Candidate(ts[i], c, p)
    && forall j | 0 <= j < n && Candidate(ts[j], c, p) ::
      !RanksBelow(ts[j], ts[i]) && (j < i ==> RanksBelow(ts[i], ts[j]))
  }

  ghost predicate LosesSession(s: State, s': State, i: nat)
    requires i < |s.tuners| == |s'.tuners|
  {
    && s.tuners[i].IsActive()
    && (s'.tuners[i].IsActive() ==> s'.tuners[i].activity.session.id != s.tuners[i].activity.session.id)
  }

  ghost predicate NothingElse(s: State, r: Request) {
    && r.streamId.None?
    && forall i | 0 <= i < |s.tuners| ::
      && !s.tuners[i].IsReservedFor(r.user)
      && (s.tuners[i].Excludes(r.channel) ||
          (!s.tuners[i].IsReuseable(r.channel) && !s.tuners[i].IsAvailableFor(r.channel)))
  }

  lemma NothingElseIff(s: State, r: Request)
    ensures NothingElse(s, r) <==>
      r.streamId.None? && Reserved(s, r).None? && Shareable(s, r).None? && Available(s, r).None?
  {
  }

  // A request takes a tuner from its users only if no tuner is reserved for it,
  // can be shared or is idle.  It takes the least candidate, whose users all have
  // lower priority unless the request has the GRAB priority.
  lemma GrabIsSound(s: State, r: Request, act: Activation, i: nat)
    requires Inv(s) && i < |s.tuners| && |ActivateTuner(s, r, act).state.tuners| == |s.tuners|
    requires LosesSession(s, ActivateTuner(s, r, act).state, i)
    ensures NothingElse(s, r)
    ensures s.tuners[i].restriction.Unrestricted?
    ensures forall k | k in s.tuners[i].activity.session.subscribers ::
      r.user.priority == GRAB || s.tuners[i].activity.session.subscribers[k].priority < r.user.priority
    ensures IsLeastCandidate(s.tuners, r.channel, r.user.priority, |s.tuners|, i)
  {
    NothingElseIff(s, r);
    ActivateTouchesChosen(s, r, act);
    LeastCandidateIsLeast(s.tuners, r.channel, r.user.priority, |s.tuners|);
    assert SessionOk(s, i);
  }

  // Every eligible tuner is held by a user the request does not outrank.
  ghost predicate Outranked(t: Tuner, r: Request) {
    && t.IsActive()
    && r.user.priority != GRAB
    && exists k :: k in t.activity.session.subscribers && r.user.priority <= t.activity.session.subscribers[k].priority
  }

  // The manager refuses a request exactly when no tuner can serve it.
  lemma RefusedIff(s: State, r: Request, act: Activation, answered: bool)
    requires Inv(s) && !s.stopping && r.streamId.None?
    ensures StartStreaming(s, r, act, answered).reply == Denied(TunerUnavailable) <==>
      && NothingElse(s, r)
      && forall i | 0 <= i < |s.tuners| ::
        s.tuners[i].restriction.Unrestricted? && s.tuners[i].Supports(r.channel) && !s.tuners[i].Excludes(r.channel)
        ==> Outranked(s.tuners[i], r)
  {
    NothingElseIff(s, r);
    LeastCandidateIsLeast(s.tuners, r.channel, r.user.priority, |s.tuners|);
    var refused := StartStreaming(s, r, act, answered).reply == Denied(TunerUnavailable);
    assert refused <==> NothingElse(s, r) && Grabbable(s, r).None?;
    forall i | 0 <= i < |s.tuners|
      ensures Candidate(s.tuners[i], r.channel, r.user.priority) <==>
        && s.tuners[i].restriction.Unrestricted? && s.tuners[i].Supports(r.channel)
        && !s.tuners[i].Excludes(r.channel) && !Outranked(s.tuners[i], r)
    {
    }
  }

  // Who keeps and who loses a stream

  function UserOf(s: State, id: SubscriptionId): Option<User> {
    if id.session.tunerIndex < |s.tuners| then
      var a := s.tuners[id.session.tunerIndex].activity;
      if a.Active? && a.session.id == id.session && id.serial in a.session.subscribers
      then Some(a.session.subscribers[id.serial]) else None
    else None
  }

  // What finding a tuner can do to tuner `i`: nothing, end its session, or
  // subscribe the user to its session or to a new one.
  datatype Move = Nothing | Ended | Joined | Opened

  function MoveOf(s: State, o: Outcome, i: nat): Move
    requires i < |s.tuners| == |o.state.tuners|
  {
    if !o.reply.Granted? then
      if o.state.tuners[i].activity == s.tuners[i].activity then Nothing else Ended
    else if s.tuners[i].IsActive() && o.reply.id.session == s.tuners[i].activity.session.id then Joined
    else Opened
  }

  ghost predicate Moves(s: State, o: Outcome, i: nat, user: User) {
    && OnlyTuner(s, o.state, i)
    && s.nextSession <= o.state.nextSession
    && o.state.stopping == s.stopping
    && var a, a' := s.tuners[i].activity, o.state.tuners[i].activity;
       match MoveOf(s, o, i)
       case Nothing => o.events == []
       case Ended =>
         && a.Active? && a'.Inactive?
         && o.events == [StatusChanged(i), TunerAvailable(i, s.tuners[i].channelTypes)]
       case Joined =>
         && o.events == [StatusChanged(i)]
         && o.reply == Granted(SubscriptionId(a.session.id, a.session.nextSerial))
         && a' == Active(a.session.(subscribers := a.session.subscribers[a.session.nextSerial := user],
                                    nextSerial := a.session.nextSerial + 1))
       case Opened =>
         && o.events == [StatusChanged(i)]
         && o.state.nextSession == s.nextSession + 1
         && o.reply == Granted(SubscriptionId(SessionId(i, s.nextSession), 1))
         && a'.Active? && a'.session.id == SessionId(i, s.nextSession)
         && a'.session.subscribers == map[1 := user] && a'.session.nextSerial == 2
  }

  lemma SubscribedMoves(s: State, i: nat, user: User)
    requires i < |s.tuners| && s.tuners[i].IsActive()
    ensures Moves(s, Subscribed(s, i, user), i, user)
  {
  }

  lemma LaunchedMoves(s: State, i: nat, r: Request, act: Activation)
    requires Inv(s) && i < |s.tuners|
    ensures Moves(s, Launched(s, i, r, act), i, r.user)
  {
    assert SessionOk(s, i);
  }

  lemma GrabbedMoves(s: State, i: nat, r: Request, act: Activation)
    requires Inv(s) && i < |s.tuners| && s.tuners[i].IsActive()
    ensures Moves(s, Grabbed(s, i, r, act), i, r.user)
  {
    assert SessionOk(s, i);
  }

  lemma GrabbableIsActive(s: State, r: Request)
    requires Available(s, r).None? && Grabbable(s, r).Some?
    ensures s.tuners[Grabbable(s, r).value].IsActive()
  {
  }

  lemma ActivateMoves(s: State, r: Request, act: Activation)
    requires Inv(s)
    ensures Chosen(s, r).None? ==>
      ActivateTuner(s, r, act).state == s && !ActivateTuner(s, r, act).reply.Granted? &&
      ActivateTuner(s, r, act).events == []
    ensures Chosen(s, r).Some? ==> Moves(s, ActivateTuner(s, r, act), Chosen(s, r).value, r.user)
  {
    if r.streamId.Some? {
      if Chosen(s, r).Some? && s.tuners[Chosen(s, r).value].IsActive() {
        SubscribedMoves(s, Chosen(s, r).value, r.user);
      }
    } else if Chosen(s, r).Some? {
      var i := Chosen(s, r).value;
      LaunchedMoves(s, i, r, act);
      if s.tuners[i].IsActive() {
        SubscribedMoves(s, i, r.user);
        GrabbedMoves(s, i, r, act);
      }
      if Reserved(s, r).None? && Shareable(s, r).None? && Available(s, r).None? { GrabbableIsActive(s, r); }
    }
  }

  // The subscriptions after a request are those before it, plus the granted one,
  // minus those of the tuner that loses its session.
  ghost predicate UsersFollow(s: State, o: Outcome, user: User, id: SubscriptionId) {
    && |o.state.tuners| == |s.tuners|
    && UserOf(o.state, id) ==
       if o.reply == Granted(id) then Some(user)
       else if id.session.tunerIndex < |s.tuners| && LosesSession(s, o.state, id.session.tunerIndex) then None
       else UserOf(s, id)
  }

  lemma MovesUsers(s: State, o: Outcome, i: nat, user: User, id: SubscriptionId)
    requires Inv(s) && Moves(s, o, i, user)
    ensures UsersFollow(s, o, user, id)
  {
    assert SessionOk(s, i);
  }

  lemma ActivateUsers(s: State, r: Request, act: Activation, id: SubscriptionId)
    requires Inv(s)
    ensures UsersFollow(s, ActivateTuner(s, r, act), r.user, id)
  {
    ActivateMoves(s, r, act);
    if Chosen(s, r).Some? {
      MovesUsers(s, ActivateTuner(s, r, act), Chosen(s, r).value, r.user, id);
    }
  }

  // A user loses its stream without asking for it only to a request that outranks
  // it, or because the broadcaster of its tuner is gone, or at shutdown.
  lemma LostOnlyTo(s: State, m: Msg, id: SubscriptionId)
    requires Inv(s) && UserOf(s, id).Some? && UserOf(Step(s, m).state, id).None?
    ensures
      || m == Stop(id)
      || m.ShutDown?
      || (m.Start? && !m.answered && Chosen(s, m.request) == Some(id.session.tunerIndex))
      || (m.Start? && NothingElse(s, m.request)
          && (m.request.user.priority == GRAB || UserOf(s, id).value.priority < m.request.user.priority))
  {
    var i := id.session.tunerIndex;
    match m
    case Start(r, act, answered) =>
      StepKeepsConfig(s, m);
      ActivateMoves(s, r, act);
      ActivateUsers(s, r, act, id);
      if LosesSession(s, ActivateTuner(s, r, act).state, i) {
        GrabIsSound(s, r, act, i);
        assert id.serial in s.tuners[i].activity.session.subscribers;
      }
    case Stop(other) =>
      if other != id && !s.stopping && other.session.tunerIndex < |s.tuners| { StopEndsOne(s, other, id); }
    case ShutDown =>
  }

  lemma GainedOnlyByGrant(s: State, m: Msg, id: SubscriptionId)
    requires Inv(s) && UserOf(Step(s, m).state, id).Some?
    ensures UserOf(Step(s, m).state, id) == UserOf(s, id) ||
      (m.Start? && Step(s, m).reply == Granted(id) && UserOf(Step(s, m).state, id) == Some(m.request.user))
  {
    if m.Start? { ActivateUsers(s, m.request, m.act, id); }
  }

  // Stopping a stream ends that stream and no other, and frees the tuner exactly
  // when it was the last one.
  lemma StopEndsOne(s: State, id: SubscriptionId, other: SubscriptionId)
    requires Inv(s) && !s.stopping && id.session.tunerIndex < |s.tuners| && other != id
    ensures UserOf(StopStreaming(s, id).state, id).None?
    ensures UserOf(StopStreaming(s, id).state, other) == UserOf(s, other)
    ensures UserOf(s, id).None? ==> StopStreaming(s, id).state == s
    ensures
      var i := id.session.tunerIndex;
      UserOf(s, id).Some? ==>
        (!StopStreaming(s, id).state.tuners[i].IsActive() <==>
         s.tuners[i].activity.session.subscribers.Keys == {id.serial})
  {
    var i := id.session.tunerIndex;
    assert SessionOk(s, i);
    if s.tuners[i].IsActive() && s.tuners[i].activity.session.id == id.session {
      var users := s.tuners[i].activity.session.subscribers;
      if id.serial !in users { assert users - {id.serial} == users; }
      assert (users - {id.serial}).Keys == users.Keys - {id.serial};
      assert users - {id.serial} == map[] <==> (users - {id.serial}).Keys == {};
    }
  }

  // Wake-ups

  function Wakeups(es: seq<Event>, i: nat): nat {
    if es == [] then 0
    else (if es[0].TunerAvailable? && es[0].index == i then 1 else 0) + Wakeups(es[1..], i)
  }

  lemma {:induction false} WakeupsOfSum(a: seq<Event>, b: seq<Event>, i: nat)
    ensures Wakeups(a + b, i) == Wakeups(a, i) + Wakeups(b, i)
  {
    if a == [] {
      assert a + b == b;
    } else {
      assert (a + b)[1..] == a[1..] + b;
      WakeupsOfSum(a[1..], b, i);
    }
  }

  // The state between finding a tuner and the broadcaster's answer.
  function Midway(s: State, m: Msg): State {
    if m.Start? && !s.stopping then ActivateTuner(s, m.request, m.act).state else s
  }

  lemma WakeupsOfNews(j: nat, types: seq<ChannelType>, i: nat)
    ensures Wakeups([], i) == 0 && Wakeups([StatusChanged(j)], i) == 0
    ensures Wakeups([StatusChanged(j), TunerAvailable(j, types)], i) == if i == j then 1 else 0
  {
    assert [StatusChanged(j)][1..] == [];
    assert [StatusChanged(j), TunerAvailable(j, types)][1..] == [TunerAvailable(j, types)];
    assert [TunerAvailable(j, types)][1..] == [];
  }

  lemma MovesWake(s: State, o: Outcome, j: nat, user: User, i: nat)
    requires Moves(s, o, j, user) && i < |s.tuners|
    ensures Wakeups(o.events, i) == if s.tuners[i].IsActive() && !o.state.tuners[i].IsActive() then 1 else 0
  {
    WakeupsOfNews(j, s.tuners[j].channelTypes, i);
  }

  // Each step that leaves idle a tuner that was active at some point in it
  // announces that tuner exactly once.
  lemma WakesExactlyOnce(s: State, m: Msg, i: nat)
    requires Inv(s) && !s.stopping && !m.ShutDown? && i < |s.tuners|
    ensures SameConfig(s, Step(s, m).state) && SameConfig(s, Midway(s, m))
    ensures Wakeups(Step(s, m).events, i) ==
      if (s.tuners[i].IsActive() || Midway(s, m).tuners[i].IsActive()) && !Step(s, m).state.tuners[i].IsActive()
      then 1 else 0
  {
    match m
    case Start(r, act, answered) => StartWakes(s, r, act, answered, i);
    case Stop(id) => StopWakes(s, id, i);
  }

  lemma StartWakes(s: State, r: Request, act: Activation, answered: bool, i: nat)
    requires Inv(s) && !s.stopping && i < |s.tuners|
    ensures SameConfig(s, StartStreaming(s, r, act, answered).state) && SameConfig(s, ActivateTuner(s, r, act).state)
    ensures Wakeups(StartStreaming(s, r, act, answered).events, i) ==
      if (s.tuners[i].IsActive() || ActivateTuner(s, r, act).state.tuners[i].IsActive()) &&
         !StartStreaming(s, r, act, answered).state.tuners[i].IsActive()
      then 1 else 0
  {
    ActivateMoves(s, r, act);
    StepKeepsConfig(s, Start(r, act, answered));
    var o := ActivateTuner(s, r, act);
    if Chosen(s, r).Some? {
      var j := Chosen(s, r).value;
      MovesWake(s, o, j, r.user, i);
      WakeupsOfNews(j, s.tuners[j].channelTypes, i);
      WakeupsOfSum(o.events, [StatusChanged(j), TunerAvailable(j, s.tuners[j].channelTypes)], i);
    }
  }

  lemma StopWakes(s: State, id: SubscriptionId, i: nat)
    requires Inv(s) && i < |s.tuners|
    ensures SameConfig(s, StopStreaming(s, id).state)
    ensures Wakeups(StopStreaming(s, id).events, i) ==
      if s.tuners[i].IsActive() && !StopStreaming(s, id).state.tuners[i].IsActive() then 1 else 0
  {
    if id.session.tunerIndex < |s.tuners| {
      WakeupsOfNews(id.session.tunerIndex, s.tuners[id.session.tunerIndex].channelTypes, i);
    }
  }

  lemma GrantedIsActive(s: State, r: Request, act: Activation)
    requires Inv(s) && ActivateTuner(s, r, act).reply.Granted?
    ensures UserOf(ActivateTuner(s, r, act).state, ActivateTuner(s, r, act).reply.id) == Some(r.user)
    ensures forall j | 0 <= j < |s.tuners| && j != ActivateTuner(s, r, act).reply.id.session.tunerIndex ::
      j < |ActivateTuner(s, r, act).state.tuners| && ActivateTuner(s, r, act).state.tuners[j] == s.tuners[j]
    ensures forall e | e in ActivateTuner(s, r, act).events :: e.StatusChanged?
  {
    ActivateUsers(s, r, act, ActivateTuner(s, r, act).reply.id);
    ActivateMoves(s, r, act);
  }

  // Subscription identifiers

  // `id` can no longer be issued.
  ghost predicate Past(s: State, id: SubscriptionId) {
    && id.session.sessionNumber < s.nextSession
    && forall i | 0 <= i < |s.tuners| && s.tuners[i].IsActive() && s.tuners[i].activity.session.id == id.session ::
      id.serial < s.tuners[i].activity.session.nextSerial
  }

  lemma MovesPast(s: State, o: Outcome, i: nat, user: User, id: SubscriptionId)
    requires Inv(s) && Moves(s, o, i, user) && Past(s, id)
    ensures Past(o.state, id) && o.reply != Granted(id)
  {
    assert SessionOk(s, i);
  }

  lemma PastStays(s: State, m: Msg, id: SubscriptionId)
    requires Inv(s) && Past(s, id)
    ensures Past(Step(s, m).state, id)
    ensures Step(s, m).reply != Granted(id)
  {
    if m.Start? {
      ActivateMoves(s, m.request, m.act);
      if Chosen(s, m.request).Some? {
        MovesPast(s, ActivateTuner(s, m.request, m.act), Chosen(s, m.request).value, m.request.user, id);
      }
    }
  }

  lemma GrantedIsPast(s: State, m: Msg)
    requires Inv(s) && Step(s, m).reply.Granted?
    ensures Past(Step(s, m).state, Step(s, m).reply.id)
  {
    StepKeepsInv(s, m);
    StartTouchesChosen(s, m.request, m.act, m.answered);
    GrantedIsActive(s, m.request, m.act);
    var s' := Step(s, m).state;
    forall i | 0 <= i < |s'.tuners| ensures SessionOk(s', i) {}
  }

  // The identifiers granted in a run, in order.
  function Issued(s: State, ms: seq<Msg>): seq<SubscriptionId>
    decreases |ms|
  {
    if ms == [] then []
    else
      var o := Step(s, ms[0]);
      (if o.reply.Granted? then [o.reply.id] else []) + Issued(o.state, ms[1..])
  }

  lemma {:induction false} PastIsNotIssued(s: State, ms: seq<Msg>, id: SubscriptionId)
    requires Inv(s) && Past(s, id)
    ensures id !in Issued(s, ms)
    decreases |ms|
  {
    if ms != [] {
      StepKeepsInv(s, ms[0]);
      PastStays(s, ms[0], id);
      PastIsNotIssued(Step(s, ms[0]).state, ms[1..], id);
    }
  }

  // No identifier is granted twice in a run.
  lemma {:induction false} IssuedAreUnique(s: State, ms: seq<Msg>)
    requires Inv(s)
    ensures forall i, j | 0 <= i < j < |Issued(s, ms)| :: Issued(s, ms)[i] != Issued(s, ms)[j]
    decreases |ms|
  {
    if ms != [] {
      StepKeepsInv(s, ms[0]);
      var o := Step(s, ms[0]);
      IssuedAreUnique(o.state, ms[1..]);
      if o.reply.Granted? {
        GrantedIsPast(s, ms[0]);
        PastIsNotIssued(o.state, ms[1..], o.reply.id);
        assert Issued(s, ms) == [o.reply.id] + Issued(o.state, ms[1..]);
      } else {
        assert Issued(s, ms) == Issued(o.state, ms[1..]);
      }
    }
  }

  // `id` belongs to a session that has ended.
  ghost predicate SessionGone(s: State, id: SubscriptionId) {
    && id.session.tunerIndex < |s.tuners|
    && id.session.sessionNumber < s.nextSession
    && (s.tuners[id.session.tunerIndex].IsActive() ==>
        s.tuners[id.session.tunerIndex].activity.session.id != id.session)
  }

  lemma MovesEnded(s: State, o: Outcome, i: nat, user: User, id: SubscriptionId)
    requires Moves(s, o, i, user) && SessionGone(s, id)
    ensures SessionGone(o.state, id)
  {
  }

  lemma EndedStays(s: State, m: Msg, id: SubscriptionId)
    requires Inv(s) && SessionGone(s, id)
    ensures SessionGone(Step(s, m).state, id)
  {
    if m.Start? {
      ActivateMoves(s, m.request, m.act);
      if Chosen(s, m.request).Some? {
        MovesEnded(s, ActivateTuner(s, m.request, m.act), Chosen(s, m.request).value, m.request.user, id);
      }
    }
  }

  // Once a session has ended, however the run goes on, stopping a stream of it
  // changes nothing and is announced to nobody.
  lemma {:induction false} StaleStopsAreHarmless(s: State, ms: seq<Msg>, id: SubscriptionId)
    requires Inv(s) && SessionGone(s, id)
    ensures SessionGone(Run(s, ms), id)
    ensures StopStreaming(Run(s, ms), id) == Outcome(Run(s, ms), [], NoReply)
    decreases |ms|
  {
    if ms != [] {
      StepKeepsInv(s, ms[0]);
      EndedStays(s, ms[0], id);
      StaleStopsAreHarmless(Step(s, ms[0]).state, ms[1..], id);
    }
  }
}
