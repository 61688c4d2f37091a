// The registry of emitters, actlet/src/lib.rs: identifiers are taken in turn from
// 1 to the capacity, skipping those in use.
module EmitterRegistries {
  import opened Models

  // The identifiers of a registry.
  function Ids(capacity: nat): (r: set<nat>)
    ensures |r| == capacity && forall i :: i in r <==> 1 <= i <= capacity
  {
    if capacity == 0 then {}
    else
      var rest := Ids(capacity - 1);
      assert capacity !in rest;
      rest + {capacity}
  }

  lemma {:induction false} SubsetIsSmaller(a: set<nat>, b: set<nat>)
    requires a <= b
    ensures |a| <= |b|
    decreases |a|
  {
    if a != {} {
      var x :| x in a;
      SubsetIsSmaller(a - {x}, b - {x});
    }
  }

  // Fewer entries than identifiers leave one free.
  lemma SomeIdIsFree<E>(emitters: map<nat, E>, capacity: nat)
    requires |emitters.Keys| < capacity
    ensures exists f :: 1 <= f <= capacity && f !in emitters
  {
    if forall f | 1 <= f <= capacity :: f in emitters {
      assert Ids(capacity) <= emitters.Keys;
      SubsetIsSmaller(Ids(capacity), emitters.Keys);
      assert false;
    }
  }

  function Successor(id: nat, capacity: nat): nat { if id + 1 == capacity + 1 then 1 else id + 1 }

  // How many steps lead from `from` to `to` in the cycle of identifiers.
  function Distance(from: nat, to: nat, capacity: nat): nat
    requires 1 <= from <= capacity && 1 <= to <= capacity
  {
    if from <= to then to - from else to + capacity - from
  }

  // `id` is the first free identifier from `from` on.
  predicate IsFirstFree<E>(emitters: map<nat, E>, capacity: nat, from: nat, id: nat) {
    && 1 <= from <= capacity && 1 <= id <= capacity && id !in emitters
    && forall i | 1 <= i <= capacity && Distance(from, i, capacity) < Distance(from, id, capacity) :: i in emitters
  }

  lemma FirstFreeIsUnique<E>(emitters: map<nat, E>, capacity: nat, from: nat, a: nat, b: nat)
    requires IsFirstFree(emitters, capacity, from, a) && IsFirstFree(emitters, capacity, from, b)
    ensures a == b
  {
    assert Distance(from, a, capacity) == Distance(from, b, capacity);
  }

  // The identifier given is the next one that is free: all from `from` up to it are
  // in use, with 1 following the last one.
  lemma FirstFreeMeans<E>(emitters: map<nat, E>, capacity: nat, from: nat, id: nat)
    requires 1 <= from <= capacity
    ensures IsFirstFree(emitters, capacity, from, id) <==>
      && 1 <= id <= capacity && id !in emitters
      && (from <= id ==> forall i | from <= i < id :: i in emitters)
      && (id < from ==> forall i | from <= i <= capacity || 1 <= i < id :: i in emitters)
  {
  }

  datatype State<E> = State(emitters: map<nat, E>, nextId: nat)

  ghost predicate Inv<E>(s: State<E>, capacity: nat) {
    && (forall id | id in s.emitters :: 1 <= id <= capacity)
    && (if capacity > 0 then 1 <= s.nextId <= capacity else s.nextId == 1)
  }

  // Registering, from `s` to `s'`: 0 exactly if the registry is full, otherwise
  // the first free identifier, under which the emitter is kept.
  ghost predicate Registers<E>(s: State<E>, capacity: nat, e: E, id: nat, s': State<E>) {
    if |s.emitters.Keys| == capacity then id == 0 && s' == s
    else
      && IsFirstFree(s.emitters, capacity, s.nextId, id)
      && s' == State(s.emitters[id := e], Successor(id, capacity))
  }

  ghost predicate Unregisters<E>(s: State<E>, id: nat, s': State<E>) {
    id in s.emitters && s' == State(s.emitters - {id}, s.nextId)
  }

  datatype Step<E> = Register(emitter: E, id: nat) | Unregister(id: nat)

  ghost predicate Follows<E>(s: State<E>, capacity: nat, step: Step<E>, s': State<E>) {
    match step
    case Register(e, id) => Registers(s, capacity, e, id, s')
    case Unregister(id) => Unregisters(s, id, s')
  }

  // Once unregistered, an emitter is gone and its identifier is free, and no one else
  // is affected.
  lemma UnregisterMeans<E>(s: State<E>, id: nat, s': State<E>, other: nat)
    requires Unregisters(s, id, s')
    ensures id in s.emitters && id !in s'.emitters && s'.nextId == s.nextId
    ensures other != id ==> (other in s'.emitters <==> other in s.emitters)
    ensures other != id && other in s.emitters ==> s'.emitters[other] == s.emitters[other]
  {
  }

  // A run of the registry through the states `ss`.
  ghost predicate Run<E>(ss: seq<State<E>>, capacity: nat, steps: seq<Step<E>>) {
    && |ss| == |steps| + 1
    && ss[0] == State(map[], 1)
    && forall k | 0 <= k < |steps| :: Follows(ss[k], capacity, steps[k], ss[k + 1])
  }

  lemma StepKeepsInv<E>(s: State<E>, capacity: nat, step: Step<E>, s': State<E>)
    requires Inv(s, capacity) && Follows(s, capacity, step, s')
    ensures Inv(s', capacity)
  {
  }

  lemma BoundedKeys<E>(s: State<E>, capacity: nat)
    requires Inv(s, capacity)
    ensures |s.emitters.Keys| <= capacity
  {
    assert s.emitters.Keys <= Ids(capacity);
    SubsetIsSmaller(s.emitters.Keys, Ids(capacity));
  }

  lemma RunStep<E>(ss: seq<State<E>>, capacity: nat, steps: seq<Step<E>>, k: nat, next: nat)
    requires Run(ss, capacity, steps) && k < |steps| && next == k + 1
    ensures Follows(ss[k], capacity, steps[k], ss[next])
  {
  }

  lemma {:induction false} RunKeepsInv<E>(ss: seq<State<E>>, capacity: nat, steps: seq<Step<E>>, k: nat)
    requires Run(ss, capacity, steps) && k <= |steps|
    ensures Inv(ss[k], capacity)
  {
    if k > 0 {
      var i := k - 1;
      RunKeepsInv(ss, capacity, steps, i);
      RunStep(ss, capacity, steps, i, k);
      StepKeepsInv(ss[i], capacity, steps[i], ss[k]);
    }
  }

  // Between being registered and unregistered, an emitter stays under its
  // identifier, and no one else is given that identifier.
  lemma {:induction false} EntryIsKept<E>(ss: seq<State<E>>, capacity: nat, steps: seq<Step<E>>, i: nat, k: nat)
    requires Run(ss, capacity, steps) && i < k <= |steps| && steps[i].Register? && steps[i].id != 0
    requires forall j | i < j < k && steps[j].Unregister? :: steps[j].id != steps[i].id
    ensures steps[i].id in ss[k].emitters && ss[k].emitters[steps[i].id] == steps[i].emitter
    ensures forall j | i < j < k && steps[j].Register? :: steps[j].id != steps[i].id
    decreases k
  {
    var last := k - 1;
    RunStep(ss, capacity, steps, last, k);
    if i < last { EntryIsKept(ss, capacity, steps, i, last); }
  }

  // A registration fails exactly if all identifiers are in use.
  lemma FailsIffFull<E>(ss: seq<State<E>>, capacity: nat, steps: seq<Step<E>>, k: nat)
    requires Run(ss, capacity, steps) && k < |steps| && steps[k].Register?
    ensures steps[k].id == 0 <==> ss[k].emitters.Keys == Ids(capacity)
    ensures steps[k].id != 0 ==> steps[k].id !in ss[k].emitters && 1 <= steps[k].id <= capacity
  {
    RunKeepsInv(ss, capacity, steps, k);
    RunStep(ss, capacity, steps, k, k + 1);
    assert ss[k].emitters.Keys <= Ids(capacity);
    if |ss[k].emitters.Keys| == capacity { FullSet(ss[k].emitters.Keys, Ids(capacity)); }
  }

  lemma {:induction false} FullSet(a: set<nat>, b: set<nat>)
    requires a <= b && |a| == |b|
    ensures a == b
    decreases |a|
  {
    if a != {} {
      var x :| x in a;
      FullSet(a - {x}, b - {x});
      assert a == (a - {x}) + {x} && b == (b - {x}) + {x};
    }
  }

  class EmitterRegistry<E> {
    var emitters: map<nat, E>
    const capacity: nat
    var nextId: nat

    constructor (capacity: nat)
      ensures this.capacity == capacity && View() == State(map[], 1) && Valid()
    {
      this.capacity := capacity;
      emitters, nextId := map[], 1;
    }

    ghost function View(): State<E>
      reads this
    {
      State(emitters, nextId)
    }

    ghost predicate Valid()
      reads this
    {
      Inv(View(), capacity)
    }

    method Add(emitter: E) returns (id: nat)
      requires Valid()
      modifies this
      ensures Valid() && Registers(old(View()), capacity, emitter, id, View())
    {
      BoundedKeys(View(), capacity);
      if |emitters| == capacity { return 0; }
      assert emitters.Keys == old(emitters).Keys && |emitters| == |emitters.Keys|;
      id := UniqueId();
      emitters := emitters[id := emitter];
    }

    method Remove(id: nat)
      requires Valid() && id in emitters
      modifies this
      ensures Valid() && Unregisters(old(View()), id, View())
    {
      emitters := emitters - {id};
    }

    // The loop ends: there is a free identifier, and each round comes closer to it.
    method UniqueId() returns (id: nat)
      requires Valid() && |emitters.Keys| < capacity
      modifies this`nextId
      ensures Valid() && IsFirstFree(emitters, capacity, old(nextId), id) && nextId == Successor(id, capacity)
    {
      var limit := capacity + 1;
      SomeIdIsFree(emitters, capacity);
      ghost var free :| 1 <= free <= capacity && free !in emitters;
      ghost var from := nextId;
      while true
        invariant 1 <= nextId <= capacity
        invariant Distance(from, nextId, capacity) <= Distance(from, free, capacity)
        invariant forall i | 1 <= i <= capacity && Distance(from, i, capacity) < Distance(from, nextId, capacity) :: i in emitters
        decreases Distance(nextId, free, capacity)
      {
        id := nextId;
        nextId := nextId + 1;
        if nextId == limit { nextId := 1; }
        if id !in emitters { return; }
      }
    }
  }
}
