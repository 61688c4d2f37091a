// The tuner allocator of mirakc-core/src/tuner.rs as functions on values.
//
// `State` is what `TunerManager` keeps; each handler is a function from a state
// to an `Outcome`: the new state, the messages emitted to observers, in order,
// and the reply.  What the environment decides (template rendering, spawning a
// process, the broadcaster's answer) is a parameter.
module Tuners {
  import opened Models

  // The session number comes from a process-wide counter.
  datatype SessionId = SessionId(tunerIndex: nat, sessionNumber: nat)
  datatype SubscriptionId = SubscriptionId(session: SessionId, serial: nat)

  datatype Exclusion = ByName(name: string) | ByParams(channelType: ChannelType, channel: string) {
    predicate Matches(c: Channel) {
      match this
      case ByName(n) => c.name == n
      case ByParams(ct, ch) => c.channelType == ct && c.channel == ch
    }
  }

  datatype Restriction = Unrestricted | OneChannel(channelType: ChannelType, channel: string) | Exclusive

  datatype Session = Session(id: SessionId, channel: Channel, subscribers: map<nat, User>, nextSerial: nat)

  datatype Activity = Inactive | Active(session: Session)

  datatype Tuner = Tuner(
    index: nat,
    channelTypes: seq<ChannelType>,
    exclusions: seq<Exclusion>,
    reservedFor: Option<UserInfo>,
    restriction: Restriction,
    activity: Activity)
  {
    predicate IsActive() { activity.Active? }

    // The session number of `id` is not compared.
    predicate IsSubscribed(id: SubscriptionId) {
      activity.Active? && id.serial in activity.session.subscribers
    }

    predicate Supports(c: Channel) { c.channelType in channelTypes }

    predicate Excludes(c: Channel) { exists e | e in exclusions :: e.Matches(c) }

    predicate IsAvailableFor(c: Channel) {
      match restriction
      case OneChannel(ct, ch) => ct == c.channelType && ch == c.channel
      case Exclusive => false
      case Unrestricted => !IsActive() && Supports(c)
    }

    predicate IsReuseable(c: Channel) {
      !restriction.Exclusive? && activity.Active? && activity.session.channel.SameStation(c)
    }

    predicate IsReservedFor(user: User) { reservedFor == Some(user.info) }

    predicate CanGrab(p: Priority) {
      && restriction.Unrestricted?
      && (p == GRAB
          || activity.Inactive?
          || forall k | k in activity.session.subscribers :: activity.session.subscribers[k].priority < p)
    }
  }

  datatype State = State(tuners: seq<Tuner>, nextSession: nat, stopping: bool)

  datatype Request = Request(channel: Channel, user: User, streamId: Option<SubscriptionId>)

  // Where starting a tuner process can fail.
  datatype Activation = FilterFails | CommandFails | SpawnFails | Spawned

  datatype Event = StatusChanged(index: nat) | TunerAvailable(index: nat, channelTypes: seq<ChannelType>)

  datatype Error = TunerUnavailable | ActivationFailed | SubscribeFailed

  datatype Reply =
    | Granted(id: SubscriptionId)
    | Denied(error: Error)
    | Stopped(user: Option<User>)
    | NoReply
    | Panicked

  datatype Outcome = Outcome(state: State, events: seq<Event>, reply: Reply)

  // Selection

  predicate Candidate(t: Tuner, c: Channel, p: Priority) {
    t.Supports(c) && !t.Excludes(c) && t.CanGrab(p)
  }

  // The first tuner, from `from` on, that satisfies `p`.
  function FindFrom(ts: seq<Tuner>, p: Tuner -> bool, from: nat): (r: Option<nat>)
    requires from <= |ts|
    ensures r.None? ==> forall j | from <= j < |ts| :: !p(ts[j])
    ensures r.Some? ==> from <= r.value < |ts| && p(ts[r.value])
    ensures r.Some? ==> forall j | from <= j < r.value :: !p(ts[j])
    decreases |ts| - from
  {
    if from == |ts| then None
    else if p(ts[from]) then Some(from)
    else FindFrom(ts, p, from + 1)
  }

  function Reserved(s: State, r: Request): (i: Option<nat>)
    ensures i.Some? ==> i.value < |s.tuners|
  {
    FindFrom(s.tuners, (t: Tuner) => t.IsReservedFor(r.user), 0)
  }

  function Shareable(s: State, r: Request): (i: Option<nat>)
    ensures i.Some? ==> i.value < |s.tuners| && s.tuners[i.value].IsActive()
  {
    FindFrom(s.tuners, (t: Tuner) => !t.Excludes(r.channel) && t.IsReuseable(r.channel), 0)
  }

  function Available(s: State, r: Request): (i: Option<nat>)
    ensures i.Some? ==> i.value < |s.tuners|
  {
    FindFrom(s.tuners, (t: Tuner) => !t.Excludes(r.channel) && t.IsAvailableFor(r.channel), 0)
  }

  // The highest priority among the users of a session.
  function Highest(users: map<nat, User>): (p: Priority)
    requires users != map[]
    ensures exists k :: k in users && users[k].priority == p
    ensures forall k | k in users :: users[k].priority <= p
  {
    var ps := set k | k in users :: users[k].priority;
    HasMaximum(users, ps);
    var p :| p in ps && forall q | q in ps :: q <= p;
    assert forall k | k in users :: users[k].priority in ps;
    p
  }

  lemma HasMaximum(users: map<nat, User>, ps: set<Priority>)
    requires users != map[]
    requires ps == set k | k in users :: users[k].priority
    ensures exists p :: p in ps && forall q | q in ps :: q <= p
  {
    var k :| k in users;
    assert users[k].priority in ps;
    SetHasMaximum(ps);
  }

  lemma {:induction false} SetHasMaximum(ps: set<Priority>)
    requires ps != {}
    ensures exists p :: p in ps && forall q | q in ps :: q <= p
  {
    var x :| x in ps;
    var rest := ps - {x};
    if rest == {} {
      assert ps == {x};
    } else {
      SetHasMaximum(rest);
      var m :| m in rest && forall q | q in rest :: q <= m;
      var top := if m < x then x else m;
      assert top in ps && forall q | q in ps :: q <= top by {
        forall q | q in ps ensures q <= top { assert q == x || q in rest; }
      }
    }
  }

  // `TunerPriority` compares the highest user priority first and the number of
  // users next; a tuner without users comes first.
  predicate RanksBelow(a: Tuner, b: Tuner) {
    if !a.IsActive() || a.activity.session.subscribers == map[] then
      b.IsActive() && b.activity.session.subscribers != map[]
    else if !b.IsActive() || b.activity.session.subscribers == map[] then false
    else
      var ua, ub := a.activity.session.subscribers, b.activity.session.subscribers;
      Highest(ua) < Highest(ub) || (Highest(ua) == Highest(ub) && |ua| < |ub|)
  }

  // The first of the least ranked candidates among the first `n` tuners.
  function LeastCandidate(ts: seq<Tuner>, c: Channel, p: Priority, n: nat): (r: Option<nat>)
    requires n <= |ts|
    ensures r.Some? ==> r.value < n && Candidate(ts[r.value], c, p)
  {
    if n == 0 then None
    else
      var r := LeastCandidate(ts, c, p, n - 1);
      if !Candidate(ts[n - 1], c, p) then r
      else if r.None? || RanksBelow(ts[n - 1], ts[r.value]) then Some(n - 1)
      else r
  }

  function Grabbable(s: State, r: Request): (i: Option<nat>)
    ensures i.Some? ==> i.value < |s.tuners|
  {
    LeastCandidate(s.tuners, r.channel, r.user.priority, |s.tuners|)
  }

  // Steps on one tuner

  function Deactivated(s: State, i: nat): State
    requires i < |s.tuners|
  {
    s.(tuners := s.tuners[i := s.tuners[i].(activity := Inactive)])
  }

  function WithSession(s: State, i: nat, c: Channel): (s': State)
    requires i < |s.tuners|
    ensures i < |s'.tuners| && s'.tuners[i].IsActive()
  {
    var session := Session(SessionId(i, s.nextSession), c, map[], 1);
    s.(tuners := s.tuners[i := s.tuners[i].(activity := Active(session))], nextSession := s.nextSession + 1)
  }

  function Subscribed(s: State, i: nat, user: User): Outcome
    requires i < |s.tuners| && s.tuners[i].IsActive()
  {
    var session := s.tuners[i].activity.session;
    var session' := session.(subscribers := session.subscribers[session.nextSerial := user],
                             nextSerial := session.nextSerial + 1);
    Outcome(s.(tuners := s.tuners[i := s.tuners[i].(activity := Active(session'))]),
            [StatusChanged(i)],
            Granted(SubscriptionId(session.id, session.nextSerial)))
  }

  // Starts tuner `i`, which must not be active.
  function Launched(s: State, i: nat, r: Request, act: Activation): Outcome
    requires i < |s.tuners|
  {
    if act.FilterFails? || act.CommandFails? then Outcome(s, [], Denied(ActivationFailed))
    else if s.tuners[i].IsActive() then Outcome(s, [], Panicked)
    else if act.SpawnFails? then
      Outcome(s.(nextSession := s.nextSession + 1), [], Denied(ActivationFailed))
    else Subscribed(WithSession(s, i, r.channel), i, r.user)
  }

  function Grabbed(s: State, i: nat, r: Request, act: Activation): Outcome
    requires i < |s.tuners|
  {
    var s1 := Deactivated(s, i);
    var lost := [StatusChanged(i), TunerAvailable(i, s.tuners[i].channelTypes)];
    match act
    case FilterFails => Outcome(s, [], Denied(ActivationFailed))
    case CommandFails => Outcome(s1, lost, Denied(ActivationFailed))
    case SpawnFails => Outcome(s1.(nextSession := s1.nextSession + 1), lost, Denied(ActivationFailed))
    case Spawned => Subscribed(WithSession(s1, i, r.channel), i, r.user)
  }

  // Handlers

  function ActivateTuner(s: State, r: Request, act: Activation): Outcome {
    match r.streamId
    case Some(id) =>
      if id.session.tunerIndex >= |s.tuners| then Outcome(s, [], Panicked)
      else if s.tuners[id.session.tunerIndex].IsSubscribed(id) then
        Subscribed(s, id.session.tunerIndex, r.user)
      else Outcome(s, [], Denied(TunerUnavailable))
    case None =>
      match Reserved(s, r)
      case Some(i) =>
        if s.tuners[i].IsActive() then Subscribed(s, i, r.user) else Launched(s, i, r, act)
      case None =>
        match Shareable(s, r)
        case Some(i) => Subscribed(s, i, r.user)
        case None =>
          match Available(s, r)
          case Some(i) => Launched(s, i, r, act)
          case None =>
            match Grabbable(s, r)
            case Some(i) => Grabbed(s, i, r, act)
            case None => Outcome(s, [], Denied(TunerUnavailable))
  }

  // `answered` says whether the broadcaster of the tuner answers the subscription.
  function StartStreaming(s: State, r: Request, act: Activation, answered: bool): Outcome {
    if s.stopping then Outcome(s, [], Denied(TunerUnavailable))
    else
      var o := ActivateTuner(s, r, act);
      if !o.reply.Granted? || answered || o.reply.id.session.tunerIndex >= |o.state.tuners| then o
      else
        var i := o.reply.id.session.tunerIndex;
        Outcome(Deactivated(o.state, i),
                o.events + [StatusChanged(i), TunerAvailable(i, o.state.tuners[i].channelTypes)],
                Denied(SubscribeFailed))
  }

  function StopStreaming(s: State, id: SubscriptionId): Outcome {
    if s.stopping then Outcome(s, [], NoReply)
    else if id.session.tunerIndex >= |s.tuners| then Outcome(s, [], Panicked)
    else
      var i := id.session.tunerIndex;
      var t := s.tuners[i];
      if t.activity.Inactive? || t.activity.session.id != id.session then Outcome(s, [], NoReply)
      else
        var users := t.activity.session.subscribers - {id.serial};
        var reply := Stopped(if id.serial in t.activity.session.subscribers
                             then Some(t.activity.session.subscribers[id.serial]) else None);
        if users == map[] then
          Outcome(Deactivated(s, i), [StatusChanged(i), TunerAvailable(i, t.channelTypes)], reply)
        else
          var session := t.activity.session.(subscribers := users);
          Outcome(s.(tuners := s.tuners[i := t.(activity := Active(session))]), [StatusChanged(i)], reply)
  }

  function AllInactive(ts: seq<Tuner>): seq<Tuner> {
    seq(|ts|, i requires 0 <= i < |ts| => ts[i].(activity := Inactive))
  }

  function Shutdown(s: State): Outcome {
    Outcome(s.(tuners := AllInactive(s.tuners), stopping := true), [], NoReply)
  }

  datatype Msg =
    | Start(request: Request, act: Activation, answered: bool)
    | Stop(id: SubscriptionId)
    | ShutDown

  function Step(s: State, m: Msg): Outcome {
    match m
    case Start(r, act, answered) => StartStreaming(s, r, act, answered)
    case Stop(id) => StopStreaming(s, id)
    case ShutDown => Shutdown(s)
  }
}
