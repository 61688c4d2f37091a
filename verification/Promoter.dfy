// The promoter, which starts the actors of a system and stops it after them,
// actlet/src/lib.rs.
//
// A step is a message handled by the promoter, or an actor finishing its
// `stopped` hook, after which it reports to the promoter's mailbox.
module Promoters {
  import opened Models

  // What the promoter keeps; `stopped` once it has stopped itself.
  datatype Promoter = Promoter(actors: set<nat>, nextId: nat, stopping: bool, stopped: bool)

  // `running` are the actors whose message loops have not yet finished, `finished`
  // those whose have; `mailbox` are the reports under way and `issued` the
  // identifiers given to actors, started or not.
  datatype System = System(
    promoter: Promoter,
    running: set<nat>,
    finished: set<nat>,
    mailbox: seq<nat>,
    issued: seq<nat>)
  {
    // The actors that were really started.
    function Started(): set<nat> { running + finished }
  }

  datatype Action = Spawn | Shutdown | Finish(id: nat) | Deliver

  predicate Enabled(y: System, a: Action) {
    match a
    case Spawn | Shutdown => true
    case Finish(id) => id in y.running
    case Deliver => y.mailbox != []
  }

  function Spawned(p: Promoter): Promoter {
    p.(nextId := p.nextId + 1, actors := if p.stopping then p.actors else p.actors + {p.nextId})
  }

  function ShutDown(p: Promoter): Promoter {
    p.(stopping := true, stopped := p.stopped || p.actors == {})
  }

  function ActorStopped(p: Promoter, id: nat): Promoter {
    var actors := p.actors - {id};
    p.(actors := actors, stopped := p.stopped || (p.stopping && actors == {}))
  }

  function Next(y: System, a: Action): System
    requires Enabled(y, a)
  {
    match a
    case Spawn =>
      y.(promoter := Spawned(y.promoter),
         running := if y.promoter.stopping then y.running else y.running + {y.promoter.nextId},
         issued := y.issued + [y.promoter.nextId])
    case Shutdown => y.(promoter := ShutDown(y.promoter))
    case Finish(id) =>
      y.(running := y.running - {id}, finished := y.finished + {id}, mailbox := y.mailbox + [id])
    case Deliver => y.(promoter := ActorStopped(y.promoter, y.mailbox[0]), mailbox := y.mailbox[1..])
  }

  function Initial(): System { System(Promoter({}, 1, false, false), {}, {}, [], []) }

  predicate Possible(y: System, acts: seq<Action>)
    decreases |acts|
  {
    acts == [] || (Enabled(y, acts[0]) && Possible(Next(y, acts[0]), acts[1..]))
  }

  function After(y: System, acts: seq<Action>): System
    requires Possible(y, acts)
    decreases |acts|
  {
    if acts == [] then y else After(Next(y, acts[0]), acts[1..])
  }

  ghost predicate Distinct(s: seq<nat>) { forall i, j | 0 <= i < j < |s| :: s[i] != s[j] }

  // The promoter knows the actors that run or whose report is under way.
  ghost predicate Inv(y: System) {
    && (forall id :: id in y.promoter.actors <==> id in y.running || id in y.mailbox)
    && Distinct(y.mailbox) && Distinct(y.issued)
    && (forall id | id in y.mailbox :: id in y.finished)
    && y.running !! y.finished
    && (forall id | id in y.issued :: 0 < id < y.promoter.nextId)
    && (forall id | id in y.running || id in y.finished :: id in y.issued)
    && y.promoter.nextId > 0
    && (y.promoter.stopped <==> y.promoter.stopping && y.promoter.actors == {})
  }

  lemma DeliverKeeps(y: System)
    requires Inv(y) && Enabled(y, Deliver)
    ensures Inv(Next(y, Deliver)) && y.mailbox[0] in y.promoter.actors
  {
    var y', rest := Next(y, Deliver), y.mailbox[1..];
    assert y.mailbox == [y.mailbox[0]] + rest;
    assert forall id | id in rest :: id in y.mailbox;
    assert y.mailbox[0] !in rest && y.mailbox[0] !in y.running;
    forall id ensures id in y'.promoter.actors <==> id in y'.running || id in y'.mailbox {
      if id in y.mailbox && id != y.mailbox[0] { assert id in rest; }
    }
  }

  lemma FinishKeeps(y: System, id: nat)
    requires Inv(y) && Enabled(y, Finish(id))
    ensures Inv(Next(y, Finish(id)))
  {
    assert id !in y.mailbox;
    assert forall i | i in y.mailbox + [id] :: i in y.mailbox || i == id;
  }

  lemma SpawnKeeps(y: System)
    requires Inv(y)
    ensures Inv(Next(y, Spawn))
  {
    assert y.promoter.nextId !in y.issued;
  }

  lemma StepKeepsInv(y: System, a: Action)
    requires Inv(y) && Enabled(y, a)
    ensures Inv(Next(y, a))
    ensures a.Deliver? ==> y.mailbox[0] in y.promoter.actors
  {
    match a
    case Deliver => DeliverKeeps(y);
    case Finish(id) => FinishKeeps(y, id);
    case Spawn => SpawnKeeps(y);
    case Shutdown =>
  }

  lemma {:induction false} AlwaysInv(y: System, acts: seq<Action>)
    requires Inv(y) && Possible(y, acts)
    ensures Inv(After(y, acts))
    decreases |acts|
  {
    if acts != [] {
      StepKeepsInv(y, acts[0]);
      AlwaysInv(Next(y, acts[0]), acts[1..]);
    }
  }

  // However spawning, shutting down and stopping interleave, the promoter has
  // stopped itself exactly if it was told to and all reports have arrived; then
  // every actor that was started has finished.
  lemma StopsAfterAllActors(acts: seq<Action>)
    requires Possible(Initial(), acts)
    ensures
      var y := After(Initial(), acts);
      && (y.promoter.stopped ==> y.running == {} && y.Started() == y.finished)
      && (y.promoter.stopped <==> y.promoter.stopping && y.running == {} && y.mailbox == [])
  {
    AlwaysInv(Initial(), acts);
    var y := After(Initial(), acts);
    if y.mailbox != [] { assert y.mailbox[0] in y.promoter.actors; }
    if y.promoter.actors != {} {
      var id :| id in y.promoter.actors;
      assert id in y.running || id in y.mailbox;
    }
  }

  // Once the promoter is stopping no actor is started any more, and a promoter
  // that has stopped itself stays so.
  lemma {:induction false} NoneStartsWhileStopping(y: System, acts: seq<Action>)
    requires Inv(y) && Possible(y, acts) && y.promoter.stopping
    ensures After(y, acts).promoter.stopping && After(y, acts).Started() == y.Started()
    ensures y.promoter.stopped ==> After(y, acts).promoter.stopped
    decreases |acts|
  {
    if acts != [] {
      StepKeepsInv(y, acts[0]);
      assert Next(y, acts[0]).Started() == y.Started();
      NoneStartsWhileStopping(Next(y, acts[0]), acts[1..]);
    }
  }

  // No identifier is given to two actors, started or not.
  lemma IdsAreNeverReused(acts: seq<Action>, i: nat, j: nat)
    requires Possible(Initial(), acts) && i < j < |After(Initial(), acts).issued|
    ensures After(Initial(), acts).issued[i] != After(Initial(), acts).issued[j]
  {
    AlwaysInv(Initial(), acts);
  }

  // Identifiers are given in turn, from 1 on.
  lemma {:induction false} IdsAreConsecutive(y: System, acts: seq<Action>)
    requires Possible(y, acts) && y.promoter.nextId == |y.issued| + 1
    requires forall i | 0 <= i < |y.issued| :: y.issued[i] == i + 1
    ensures
      var z := After(y, acts);
      z.promoter.nextId == |z.issued| + 1 && forall i | 0 <= i < |z.issued| :: z.issued[i] == i + 1
    decreases |acts|
  {
    if acts != [] { IdsAreConsecutive(Next(y, acts[0]), acts[1..]); }
  }

  // The promoter is stopping exactly if it has been told to.
  lemma {:induction false} StoppingIff(y: System, acts: seq<Action>)
    requires Possible(y, acts)
    ensures After(y, acts).promoter.stopping <==> y.promoter.stopping || Shutdown in acts
    decreases |acts|
  {
    if acts != [] { StoppingIff(Next(y, acts[0]), acts[1..]); }
  }

  // In every run the promoter has stopped itself exactly if it was told to shut
  // down, and no actor runs or has a report under way.
  lemma StoppedIff(acts: seq<Action>)
    requires Possible(Initial(), acts)
    ensures
      var y := After(Initial(), acts);
      && (y.promoter.stopped <==> Shutdown in acts && y.running == {} && y.mailbox == [])
      && forall i | 0 <= i < |y.issued| :: y.issued[i] == i + 1
  {
    StopsAfterAllActors(acts);
    StoppingIff(Initial(), acts);
    IdsAreConsecutive(Initial(), acts);
  }

  // The promoter is never told of the end of an actor it does not know.
  lemma ReportsAreKnown(acts: seq<Action>)
    requires Possible(Initial(), acts) && After(Initial(), acts).mailbox != []
    ensures After(Initial(), acts).mailbox[0] in After(Initial(), acts).promoter.actors
  {
    AlwaysInv(Initial(), acts);
  }

  class PromoterActor {
    var actors: set<nat>
    var nextActorId: nat
    var stopping: bool
    var stopped: bool

    constructor ()
      ensures View() == Initial().promoter
    {
      actors, nextActorId, stopping, stopped := {}, 1, false, false;
    }

    function View(): Promoter
      reads this
    {
      Promoter(actors, nextActorId, stopping, stopped)
    }

    method NextActorId() returns (id: nat)
      modifies this`nextActorId
      ensures id == old(nextActorId) && nextActorId == id + 1
    {
      id := nextActorId;
      nextActorId := nextActorId + 1;
    }

    // `started` unless the address is a dummy.
    method HandleSpawn() returns (id: nat, started: bool)
      modifies this
      ensures View() == Spawned(old(View())) && id == old(nextActorId) && started == !old(stopping)
    {
      id := NextActorId();
      if stopping { return id, false; }
      actors := actors + {id};
      started := true;
    }

    // `order` enumerates the known actors; each of them is told to stop once.
    method HandleShutdown(order: seq<nat>) returns (told: seq<nat>)
      requires forall i, j | 0 <= i < j < |order| :: order[i] != order[j]
      requires forall id :: id in order <==> id in actors
      modifies this
      ensures View() == ShutDown(old(View())) && multiset(told) == multiset(old(actors))
    {
      told := [];
      for i := 0 to |order|
        invariant told == order[..i] && View() == old(View())
      {
        told := told + [order[i]];
      }
      DistinctMultiset(order, actors);
      assert told == order;
      stopping := true;
      if actors == {} { stopped := true; }
    }

    method HandleActorStopped(id: nat)
      modifies this
      ensures View() == ActorStopped(old(View()), id)
    {
      actors := actors - {id};
      if stopping && actors == {} { stopped := true; }
    }
  }
}
