// The tuner manager as the actor it is: an object whose handlers update the
// tuners it owns and append the messages they emit to `outbox`.
module TunerManagers {
  import opened Models
  import opened Tuners

  class TunerManager {
    var tuners: seq<Tuner>
    var nextSession: nat
    var stopping: bool
    var outbox: seq<Event>

    function View(): State
      reads this
    {
      State(tuners, nextSession, stopping)
    }

    constructor (tuners: seq<Tuner>)
      ensures View() == State(tuners, 0, false) && outbox == []
    {
      this.tuners := tuners;
      nextSession, stopping, outbox := 0, false, [];
    }

    // The handler's effect is the outcome `o` of the state before it.
    twostate predicate Performs(o: Outcome)
      reads this
    {
      View() == o.state && outbox == old(outbox) + o.events
    }

    method Emit(e: Event)
      modifies this`outbox
      ensures outbox == old(outbox) + [e]
    {
      outbox := outbox + [e];
    }

    method Deactivate(i: nat)
      requires i < |tuners|
      modifies this`tuners
      ensures View() == Deactivated(old(View()), i)
    {
      tuners := tuners[i := tuners[i].(activity := Inactive)];
    }

    // Starts a process for the channel; fails without touching the tuner.
    method Activate(i: nat, channel: Channel, act: Activation) returns (ok: bool)
      requires i < |tuners| && !tuners[i].IsActive()
      modifies this`tuners, this`nextSession
      ensures ok == act.Spawned?
      ensures act.Spawned? ==> View() == WithSession(old(View()), i, channel)
      ensures act.SpawnFails? ==> View() == old(View()).(nextSession := old(nextSession) + 1)
      ensures !act.Spawned? && !act.SpawnFails? ==> View() == old(View())
    {
      if act.FilterFails? || act.CommandFails? { return false; }
      var id := SessionId(i, nextSession);
      nextSession := nextSession + 1;
      if act.SpawnFails? { return false; }
      tuners := tuners[i := tuners[i].(activity := Active(Session(id, channel, map[], 1)))];
      return true;
    }

    method Subscribe(i: nat, user: User) returns (id: SubscriptionId)
      requires i < |tuners| && tuners[i].IsActive()
      modifies this`tuners
      ensures View() == Subscribed(old(View()), i, user).state
      ensures Subscribed(old(View()), i, user).reply == Granted(id)
    {
      var session := tuners[i].activity.session;
      var serial := session.nextSerial;
      session := session.(nextSerial := serial + 1);
      id := SubscriptionId(session.id, serial);
      session := session.(subscribers := session.subscribers[serial := user]);
      tuners := tuners[i := tuners[i].(activity := Active(session))];
    }

    // Uses tuner `i`, starting it if it is idle.
    method UseTuner(i: nat, r: Request, act: Activation) returns (reply: Reply)
      requires i < |tuners|
      modifies this
      ensures Performs(Launched(old(View()), i, r, act)) && reply == Launched(old(View()), i, r, act).reply
    {
      if act.FilterFails? || act.CommandFails? { return Denied(ActivationFailed); }
      if tuners[i].IsActive() { return Panicked; }
      var ok := Activate(i, r.channel, act);
      if !ok { return Denied(ActivationFailed); }
      Emit(StatusChanged(i));
      var id := Subscribe(i, r.user);
      reply := Granted(id);
    }

    method JoinTuner(i: nat, user: User) returns (reply: Reply)
      requires i < |tuners| && tuners[i].IsActive()
      modifies this
      ensures Performs(Subscribed(old(View()), i, user)) && reply == Subscribed(old(View()), i, user).reply
    {
      Emit(StatusChanged(i));
      var id := Subscribe(i, user);
      reply := Granted(id);
    }

    method GrabTuner(i: nat, r: Request, act: Activation) returns (reply: Reply)
      requires i < |tuners|
      modifies this
      ensures Performs(Grabbed(old(View()), i, r, act)) && reply == Grabbed(old(View()), i, r, act).reply
    {
      if act.FilterFails? { return Denied(ActivationFailed); }
      Deactivate(i);
      Emit(StatusChanged(i));
      var ok := Activate(i, r.channel, act);
      if !ok {
        Emit(TunerAvailable(i, tuners[i].channelTypes));
        return Denied(ActivationFailed);
      }
      var id := Subscribe(i, r.user);
      reply := Granted(id);
    }

    // The searches of the source, from the first tuner on.

    method FindReserved(r: Request) returns (found: Option<nat>)
      ensures found == Reserved(View(), r)
    {
      for i := 0 to |tuners|
        invariant forall j | 0 <= j < i :: !tuners[j].IsReservedFor(r.user)
      {
        if tuners[i].IsReservedFor(r.user) { return Some(i); }
      }
      found := None;
    }

    method FindReuseable(r: Request) returns (found: Option<nat>)
      ensures found == Shareable(View(), r)
    {
      for i := 0 to |tuners|
        invariant forall j | 0 <= j < i :: tuners[j].Excludes(r.channel) || !tuners[j].IsReuseable(r.channel)
      {
        var excluded := IsExcluded(i, r.channel);
        if !excluded && tuners[i].IsReuseable(r.channel) { return Some(i); }
      }
      found := None;
    }

    method FindAvailable(r: Request) returns (found: Option<nat>)
      ensures found == Available(View(), r)
    {
      for i := 0 to |tuners|
        invariant forall j | 0 <= j < i :: tuners[j].Excludes(r.channel) || !tuners[j].IsAvailableFor(r.channel)
      {
        var excluded := IsExcluded(i, r.channel);
        if !excluded && tuners[i].IsAvailableFor(r.channel) { return Some(i); }
      }
      found := None;
    }

    method IsExcluded(i: nat, c: Channel) returns (excluded: bool)
      requires i < |tuners|
      ensures excluded == tuners[i].Excludes(c)
    {
      for k := 0 to |tuners[i].exclusions|
        invariant forall j | 0 <= j < k :: !tuners[i].exclusions[j].Matches(c)
      {
        if tuners[i].exclusions[k].Matches(c) { return true; }
      }
      excluded := false;
    }

    // The first of the least ranked candidates.
    method FindGrabbable(r: Request) returns (found: Option<nat>)
      ensures found == Grabbable(View(), r)
    {
      found := None;
      for i := 0 to |tuners|
        invariant found == LeastCandidate(tuners, r.channel, r.user.priority, i)
      {
        var excluded := IsExcluded(i, r.channel);
        if tuners[i].Supports(r.channel) && !excluded && tuners[i].CanGrab(r.user.priority) {
          if found.None? || RanksBelow(tuners[i], tuners[found.value]) { found := Some(i); }
        }
      }
    }

    method FindTuner(r: Request, act: Activation) returns (reply: Reply)
      modifies this
      ensures Performs(ActivateTuner(old(View()), r, act)) && reply == ActivateTuner(old(View()), r, act).reply
    {
      if r.streamId.Some? {
        var i := r.streamId.value.session.tunerIndex;
        if i >= |tuners| { return Panicked; }
        if tuners[i].IsSubscribed(r.streamId.value) {
          reply := JoinTuner(i, r.user);
          return;
        }
        return Denied(TunerUnavailable);
      }
      var found := FindReserved(r);
      if found.Some? {
        if tuners[found.value].IsActive() {
          reply := JoinTuner(found.value, r.user);
        } else {
          reply := UseTuner(found.value, r, act);
        }
        return;
      }
      found := FindReuseable(r);
      if found.Some? {
        reply := JoinTuner(found.value, r.user);
        return;
      }
      found := FindAvailable(r);
      if found.Some? {
        reply := UseTuner(found.value, r, act);
        return;
      }
      found := FindGrabbable(r);
      if found.Some? {
        reply := GrabTuner(found.value, r, act);
        return;
      }
      reply := Denied(TunerUnavailable);
    }

    method HandleStartStreaming(r: Request, act: Activation, answered: bool) returns (reply: Reply)
      modifies this
      ensures Performs(StartStreaming(old(View()), r, act, answered))
      ensures reply == StartStreaming(old(View()), r, act, answered).reply
    {
      if stopping { return Denied(TunerUnavailable); }
      reply := FindTuner(r, act);
      if reply.Granted? && !answered && reply.id.session.tunerIndex < |tuners| {
        var i := reply.id.session.tunerIndex;
        Deactivate(i);
        Emit(StatusChanged(i));
        Emit(TunerAvailable(i, tuners[i].channelTypes));
        reply := Denied(SubscribeFailed);
      }
    }

    method HandleStopStreaming(id: SubscriptionId) returns (reply: Reply)
      modifies this
      ensures Performs(StopStreaming(old(View()), id)) && reply == StopStreaming(old(View()), id).reply
    {
      if stopping { return NoReply; }
      var i := id.session.tunerIndex;
      if i >= |tuners| { return Panicked; }
      var t := tuners[i];
      if t.activity.Inactive? || t.activity.session.id != id.session { return NoReply; }
      var users := t.activity.session.subscribers;
      reply := Stopped(if id.serial in users then Some(users[id.serial]) else None);
      users := users - {id.serial};
      tuners := tuners[i := t.(activity := Active(t.activity.session.(subscribers := users)))];
      if users == map[] { Deactivate(i); }
      Emit(StatusChanged(i));
      if !tuners[i].IsActive() { Emit(TunerAvailable(i, tuners[i].channelTypes)); }
    }

    method HandleStopping()
      modifies this
      ensures Performs(Shutdown(old(View())))
    {
      var i := 0;
      while i < |tuners|
        invariant i <= |tuners| == |old(tuners)|
        invariant forall j | 0 <= j < |tuners| ::
          tuners[j] == if j < i then old(tuners)[j].(activity := Inactive) else old(tuners)[j]
        invariant nextSession == old(nextSession) && outbox == old(outbox)
      {
        Deactivate(i);
        i := i + 1;
      }
      stopping := true;
      assert tuners == AllInactive(old(tuners));
    }
  }
}
