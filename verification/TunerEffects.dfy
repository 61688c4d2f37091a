// What the handlers of the tuner manager do, told by the fields of the tuners and
// of the request.
module TunerEffects {
  import opened Models
  import opened Tuners
  import opened TunerProperties

  // The tuner a request is directed to

  predicate RuledOut(t: Tuner, c: Channel) {
    exists e | e in t.exclusions ::
      (e.ByName? && e.name == c.name) || (e.ByParams? && e.channelType == c.channelType && e.channel == c.channel)
  }

  predicate IsTunedTo(t: Tuner, c: Channel) {
    && t.activity.Active?
    && t.activity.session.channel.channelType == c.channelType
    && t.activity.session.channel.channel == c.channel
  }

  predicate CanBeShared(t: Tuner, c: Channel) {
    !RuledOut(t, c) && !t.restriction.Exclusive? && IsTunedTo(t, c)
  }

  // A channel-restricted tuner is taken for idle whether it is or not.
  predicate SeemsIdle(t: Tuner, c: Channel) {
    && !RuledOut(t, c)
    && (t.restriction == OneChannel(c.channelType, c.channel) ||
        (t.restriction.Unrestricted? && t.activity.Inactive? && c.channelType in t.channelTypes))
  }

  predicate CanBeTaken(t: Tuner, c: Channel, p: Priority) {
    && !RuledOut(t, c) && t.restriction.Unrestricted? && c.channelType in t.channelTypes
    && (t.activity.Inactive? || p == 128 ||
        forall k | k in t.activity.session.subscribers :: t.activity.session.subscribers[k].priority < p)
  }

  // Some user of `b` has a priority above every user of `a`.
  predicate Outdone(a: map<nat, User>, b: map<nat, User>) {
    exists k :: k in b && forall l | l in a :: a[l].priority < b[k].priority
  }

  // Neither outdoes the other: their highest priorities are equal.
  predicate IsEven(a: map<nat, User>, b: map<nat, User>) { !Outdone(a, b) && !Outdone(b, a) }

  // Of two active tuners, `a` at `i` is taken rather than `b` at `j`.
  predicate IsTakenFirst(a: Tuner, i: nat, b: Tuner, j: nat)
    requires a.activity.Active? && b.activity.Active?
  {
    var ua, ub := a.activity.session.subscribers, b.activity.session.subscribers;
    Outdone(ua, ub) || (IsEven(ua, ub) && (|ua| < |ub| || (|ua| == |ub| && i < j)))
  }

  lemma HighestOutdone(a: map<nat, User>, b: map<nat, User>)
    requires a != map[] && b != map[]
    ensures Highest(a) < Highest(b) <==> Outdone(a, b)
  {
    var k :| k in b && b[k].priority == Highest(b);
    var l :| l in a && a[l].priority == Highest(a);
    if Highest(a) < Highest(b) { assert forall l | l in a :: a[l].priority < b[k].priority; }
  }

  lemma RanksBelowMeans(a: Tuner, i: nat, b: Tuner, j: nat)
    requires a.IsActive() && a.activity.session.subscribers != map[]
    requires b.IsActive() && b.activity.session.subscribers != map[]
    ensures IsTakenFirst(a, i, b, j) <==> RanksBelow(a, b) || (!RanksBelow(b, a) && i < j)
  {
    var ua, ub := a.activity.session.subscribers, b.activity.session.subscribers;
    HighestOutdone(ua, ub);
    HighestOutdone(ub, ua);
  }

  lemma TunersMean(t: Tuner, r: Request)
    ensures t.Excludes(r.channel) <==> RuledOut(t, r.channel)
    ensures t.IsReservedFor(r.user) <==> t.reservedFor == Some(r.user.info)
    ensures !t.Excludes(r.channel) && t.IsReuseable(r.channel) <==> CanBeShared(t, r.channel)
    ensures !t.Excludes(r.channel) && t.IsAvailableFor(r.channel) <==> SeemsIdle(t, r.channel)
    ensures Candidate(t, r.channel, r.user.priority) <==> CanBeTaken(t, r.channel, r.user.priority)
  {
    if t.Excludes(r.channel) {
      var e :| e in t.exclusions && e.Matches(r.channel);
      assert RuledOut(t, r.channel);
    }
    if RuledOut(t, r.channel) {
      var e :| e in t.exclusions &&
        ((e.ByName? && e.name == r.channel.name) ||
         (e.ByParams? && e.channelType == r.channel.channelType && e.channel == r.channel.channel));
      assert e.Matches(r.channel);
    }
  }

  // `i` is the first tuner with property `p`.
  ghost predicate IsFirst(s: State, i: nat, p: Tuner -> bool) {
    i < |s.tuners| && p(s.tuners[i]) && forall j | 0 <= j < i :: !p(s.tuners[j])
  }

  ghost predicate IsSome(s: State, p: Tuner -> bool) {
    exists j :: 0 <= j < |s.tuners| && p(s.tuners[j])
  }

  // The tuner at `i` can be taken and every other one that can is taken after it.
  ghost predicate IsTakenBeforeOthers(s: State, r: Request, i: nat) {
    && i < |s.tuners| && CanBeTaken(s.tuners[i], r.channel, r.user.priority) && s.tuners[i].activity.Active?
    && forall j | 0 <= j < |s.tuners| && j != i && CanBeTaken(s.tuners[j], r.channel, r.user.priority) ::
      s.tuners[j].activity.Active? && IsTakenFirst(s.tuners[i], i, s.tuners[j], j)
  }

  // A request without a stream identifier is directed to the first tuner reserved
  // for its user; if there is none, to the first that can be shared; then to the
  // first that seems idle; then to one that can be taken from its users.
  ghost predicate IsDirectedTo(s: State, r: Request, i: nat) {
    var reserved := (t: Tuner) => t.reservedFor == Some(r.user.info);
    var shared := (t: Tuner) => CanBeShared(t, r.channel);
    var idle := (t: Tuner) => SeemsIdle(t, r.channel);
    if IsSome(s, reserved) then IsFirst(s, i, reserved)
    else if IsSome(s, shared) then IsFirst(s, i, shared)
    else if IsSome(s, idle) then IsFirst(s, i, idle)
    else IsTakenBeforeOthers(s, r, i)
  }

  lemma FoundIsFirst(s: State, found: Option<nat>, p: Tuner -> bool, i: nat)
    requires found.Some? ==> IsFirst(s, found.value, p)
    requires found.None? ==> !IsSome(s, p)
    ensures found.Some? <==> IsSome(s, p)
    ensures found == Some(i) <==> IsFirst(s, i, p)
  {
  }

  lemma GrabbableMeans(s: State, r: Request, i: nat)
    requires Inv(s) && Available(s, r).None?
    ensures Grabbable(s, r) == Some(i) <==> IsTakenBeforeOthers(s, r, i)
  {
    LeastCandidateIsLeast(s.tuners, r.channel, r.user.priority, |s.tuners|);
    forall j | 0 <= j < |s.tuners| && CanBeTaken(s.tuners[j], r.channel, r.user.priority)
      ensures s.tuners[j].IsActive() && s.tuners[j].activity.session.subscribers != map[]
    {
      TunersMean(s.tuners[j], r);
      assert SessionOk(s, j);
    }
    if Grabbable(s, r).Some? {
      var g := Grabbable(s, r).value;
      GrabbedBeforeOthers(s, r, g);
      if IsTakenBeforeOthers(s, r, i) { TakenIsUnique(s, r, i, g); }
    } else if i < |s.tuners| {
      TunersMean(s.tuners[i], r);
    }
  }

  lemma TakenIsUnique(s: State, r: Request, i: nat, g: nat)
    requires Inv(s) && IsTakenBeforeOthers(s, r, i) && IsTakenBeforeOthers(s, r, g)
    ensures i == g
  {
    assert SessionOk(s, i) && SessionOk(s, g);
    TakenOneWay(s.tuners[i], i, s.tuners[g], g);
  }

  lemma TakenOneWay(a: Tuner, i: nat, b: Tuner, j: nat)
    requires a.IsActive() && a.activity.session.subscribers != map[]
    requires b.IsActive() && b.activity.session.subscribers != map[]
    ensures i != j ==> !IsTakenFirst(a, i, b, j) || !IsTakenFirst(b, j, a, i)
  {
    RanksBelowMeans(a, i, b, j);
    RanksBelowMeans(b, j, a, i);
  }

  lemma GrabbedBeforeOthers(s: State, r: Request, g: nat)
    requires Inv(s) && Available(s, r).None? && IsLeastCandidate(s.tuners, r.channel, r.user.priority, |s.tuners|, g)
    ensures IsTakenBeforeOthers(s, r, g)
  {
    TunersMean(s.tuners[g], r);
    assert SessionOk(s, g);
    forall j | 0 <= j < |s.tuners| && j != g && CanBeTaken(s.tuners[j], r.channel, r.user.priority)
      ensures s.tuners[j].activity.Active? && IsTakenFirst(s.tuners[g], g, s.tuners[j], j)
    {
      TunersMean(s.tuners[j], r);
      assert SessionOk(s, j);
      RanksBelowMeans(s.tuners[g], g, s.tuners[j], j);
    }
  }

  lemma ChosenMeans(s: State, r: Request, i: nat)
    requires Inv(s) && r.streamId.None?
    ensures Chosen(s, r) == Some(i) <==> IsDirectedTo(s, r, i)
  {
    forall j | 0 <= j < |s.tuners|
      ensures s.tuners[j].IsReservedFor(r.user) <==> s.tuners[j].reservedFor == Some(r.user.info)
      ensures !s.tuners[j].Excludes(r.channel) && s.tuners[j].IsReuseable(r.channel) <==> CanBeShared(s.tuners[j], r.channel)
      ensures !s.tuners[j].Excludes(r.channel) && s.tuners[j].IsAvailableFor(r.channel) <==> SeemsIdle(s.tuners[j], r.channel)
    {
      TunersMean(s.tuners[j], r);
    }
    FoundIsFirst(s, Reserved(s, r), (t: Tuner) => t.reservedFor == Some(r.user.info), i);
    FoundIsFirst(s, Shareable(s, r), (t: Tuner) => CanBeShared(t, r.channel), i);
    FoundIsFirst(s, Available(s, r), (t: Tuner) => SeemsIdle(t, r.channel), i);
    if Available(s, r).None? { GrabbableMeans(s, r, i); }
  }

  // A session is ended for a request only at the tuner that is taken before all
  // others that could be: some user of each other one has a priority above all of
  // its users, or the highest priorities are equal and it has fewer users, or as
  // many and comes first.
  lemma GrabTakesTheLeast(s: State, r: Request, act: Activation, i: nat, j: nat)
    requires Inv(s) && i < |s.tuners| && |ActivateTuner(s, r, act).state.tuners| == |s.tuners|
    requires LosesSession(s, ActivateTuner(s, r, act).state, i)
    requires j < |s.tuners| && j != i && s.tuners[j].restriction.Unrestricted?
    requires r.channel.channelType in s.tuners[j].channelTypes && !RuledOut(s.tuners[j], r.channel)
    requires r.user.priority == 128 || forall k |
      s.tuners[j].activity.Active? && k in s.tuners[j].activity.session.subscribers ::
        s.tuners[j].activity.session.subscribers[k].priority < r.user.priority
    ensures s.tuners[i].activity.Active? && s.tuners[j].activity.Active?
    ensures
      var a, b := s.tuners[i].activity.session.subscribers, s.tuners[j].activity.session.subscribers;
      Outdone(a, b) || (IsEven(a, b) && (|a| < |b| || (|a| == |b| && i < j)))
  {
    LostIsTakenBeforeOthers(s, r, act, i);
    assert CanBeTaken(s.tuners[j], r.channel, r.user.priority);
    assert IsTakenFirst(s.tuners[i], i, s.tuners[j], j);
  }

  lemma LostIsTakenBeforeOthers(s: State, r: Request, act: Activation, i: nat)
    requires Inv(s) && i < |s.tuners| && |ActivateTuner(s, r, act).state.tuners| == |s.tuners|
    requires LosesSession(s, ActivateTuner(s, r, act).state, i)
    ensures IsTakenBeforeOthers(s, r, i)
  {
    GrabIsSound(s, r, act, i);
    NothingElseIff(s, r);
    GrabbedBeforeOthers(s, r, i);
  }

  // Replies

  predicate Subscribes(s: State, id: SubscriptionId) {
    && id.session.tunerIndex < |s.tuners|
    && s.tuners[id.session.tunerIndex].activity.Active?
    && id.serial in s.tuners[id.session.tunerIndex].activity.session.subscribers
  }

  // A request that names a stream joins the session of its tuner exactly if its
  // serial number is subscribed there; the session number is not looked at.
  lemma StreamRequestMeans(s: State, r: Request, act: Activation, answered: bool)
    requires Inv(s) && !s.stopping && r.streamId.Some?
    ensures
      var o, id := StartStreaming(s, r, act, answered), r.streamId.value;
      && (o.reply.Panicked? <==> id.session.tunerIndex >= |s.tuners|)
      && (o.reply.Granted? <==> Subscribes(s, id) && answered)
      && (o.reply == Denied(SubscribeFailed) <==> Subscribes(s, id) && !answered)
      && (!Subscribes(s, id) && !o.reply.Panicked? ==> o == Outcome(s, [], Denied(TunerUnavailable)))
      && (o.reply.Granted? ==>
          var session := s.tuners[id.session.tunerIndex].activity.session;
          o.reply.id == SubscriptionId(session.id, session.nextSerial))
  {
    if id :| r.streamId == Some(id) && id.session.tunerIndex < |s.tuners| { assert SessionOk(s, id.session.tunerIndex); }
  }

  // A request that is directed to tuner `i` joins its session.
  predicate Joins(s: State, r: Request, i: nat)
    requires i < |s.tuners|
  {
    && s.tuners[i].activity.Active?
    && (s.tuners[i].reservedFor == Some(r.user.info) || CanBeShared(s.tuners[i], r.channel))
  }

  // Of a request without a stream identifier, what the reply tells: whether a
  // process had to be started, could be, and the broadcaster answered.
  lemma StartReplyMeans(s: State, r: Request, act: Activation, answered: bool, i: nat)
    requires Inv(s) && !s.stopping && r.streamId.None? && IsDirectedTo(s, r, i)
    requires !StartStreaming(s, r, act, answered).reply.Panicked?
    ensures i < |s.tuners|
    ensures
      var reply := StartStreaming(s, r, act, answered).reply;
      && (reply.Granted? <==> (Joins(s, r, i) || act.Spawned?) && answered)
      && (reply == Denied(SubscribeFailed) <==> (Joins(s, r, i) || act.Spawned?) && !answered)
      && (reply == Denied(ActivationFailed) <==> !Joins(s, r, i) && !act.Spawned?)
  {
    ChosenMeans(s, r, i);
    TunersMean(s.tuners[i], r);
    assert SessionOk(s, i);
    ActivateTouchesChosen(s, r, act);
  }

  // A new session is for the channel of the request, whose user is its only one.
  lemma OpenedSessionMeans(s: State, r: Request, act: Activation, answered: bool, i: nat)
    requires Inv(s) && r.streamId.None? && IsDirectedTo(s, r, i)
    requires StartStreaming(s, r, act, answered).reply.Granted?
    ensures i < |s.tuners| == |StartStreaming(s, r, act, answered).state.tuners|
    ensures !Joins(s, r, i) ==>
      StartStreaming(s, r, act, answered).state.tuners[i].activity ==
        Active(Session(SessionId(i, s.nextSession), r.channel, map[1 := r.user], 2))
  {
    ChosenMeans(s, r, i);
    TunersMean(s.tuners[i], r);
    assert SessionOk(s, i);
    ActivateTouchesChosen(s, r, act);
  }

  // Once the manager is stopping it refuses every request and ignores every stop.
  lemma StoppingMeans(s: State, m: Msg)
    requires s.stopping && !m.ShutDown?
    ensures Step(s, m) == Outcome(s, [], if m.Start? then Denied(TunerUnavailable) else NoReply)
  {
  }

  // A stop tells whose stream it was, unless the session has ended.
  lemma StopMeans(s: State, id: SubscriptionId)
    requires Inv(s) && !s.stopping
    ensures
      var o, i := StopStreaming(s, id), id.session.tunerIndex;
      if i >= |s.tuners| then o == Outcome(s, [], Panicked)
      else if s.tuners[i].activity.Inactive? || s.tuners[i].activity.session.id != id.session then
        o == Outcome(s, [], NoReply)
      else
        && o.reply == Stopped(UserOf(s, id))
        && |o.state.tuners| == |s.tuners|
        && o.events == [StatusChanged(i)] +
           if o.state.tuners[i].activity.Active? then [] else [TunerAvailable(i, s.tuners[i].channelTypes)]
  {
  }

  // Shutting down ends every session, announces nothing, and is permanent.
  lemma ShutdownMeans(s: State, m: Msg)
    ensures
      var o := Step(s, ShutDown);
      && o.state.stopping && o.events == [] && o.reply == NoReply
      && |o.state.tuners| == |s.tuners|
      && (forall i | 0 <= i < |s.tuners| :: o.state.tuners[i] == s.tuners[i].(activity := Inactive))
      && Step(o.state, m).state.stopping
  {
  }
}
