// The broadcaster and its chunk source, mirakc-core/src/broadcaster.rs.
//
// The source asks for the minimum capacity of the subscribers' queues and may
// then send that many chunks without asking again.  Subscribers come, go and
// drain their queues in between.  A step of the system is one message handled by
// the broadcaster, or something a subscriber does to its queue.
module Broadcasters {
  import opened Models
  import Tuners

  const MAX_CHUNKS: nat := 1024

  type Chunk = seq<Byte>

  // What happened to a subscriber, kept for the statements only: a capacity
  // query, or a chunk that was queued or dropped.
  datatype Entry = Asked(time: int, capacity: nat) | Given(chunk: Chunk, queued: bool)

  // `live` until the broadcaster drops the sender, `open` until the receiver is
  // dropped.
  datatype Subscriber = Subscriber(
    id: Tuners.SubscriptionId,
    live: bool,
    open: bool,
    queue: seq<Chunk>,
    maxStuck: int,
    stuckStart: Option<int>,
    droppedBytes: Option<nat>,
    received: seq<Chunk>,
    log: seq<Entry>)
  {
    function Capacity(): nat { if |queue| < MAX_CHUNKS then MAX_CHUNKS - |queue| else 0 }
  }

  datatype Feed = Off | Asking | Feeding(credits: nat)

  datatype State = State(subscribers: seq<Subscriber>, bound: bool, rebuild: bool, feed: Feed, clock: int)

  datatype Action =
    | Bind
    | Subscribe(id: Tuners.SubscriptionId, maxStuck: int)
    | Unsubscribe(id: Tuners.SubscriptionId)
    | Receive(index: nat)
    | Close(index: nat)
    | Query(now: int)
    | Send(chunk: Chunk)
    | Unbind

  // One subscriber

  function NewSubscriber(id: Tuners.SubscriptionId, maxStuck: int): Subscriber {
    Subscriber(id, true, true, [], maxStuck, None, None, [], [])
  }

  // The chunk is offered to the subscriber.
  function Offered(s: Subscriber, chunk: Chunk): Subscriber {
    if !s.live then s
    else if !s.open then s.(live := false)
    else if |s.queue| < MAX_CHUNKS then
      s.(queue := s.queue + [chunk], droppedBytes := None, log := s.log + [Given(chunk, true)])
    else
      s.(droppedBytes := Some(|chunk| + if s.droppedBytes.Some? then s.droppedBytes.value else 0),
         log := s.log + [Given(chunk, false)])
  }

  // Whether a query takes the subscriber into account.
  predicate Counts(s: Subscriber, now: int, rebuild: bool) {
    s.live && (rebuild || s.Capacity() != 0 || s.stuckStart.None? || now - s.stuckStart.value < s.maxStuck)
  }

  function Queried(s: Subscriber, now: int, rebuild: bool): Subscriber {
    if !s.live then s
    else
      var s1 := s.(log := s.log + [Asked(now, s.Capacity())]);
      if rebuild then s1
      else if s.Capacity() != 0 then s1.(stuckStart := None)
      else if s.stuckStart.None? then s1.(stuckStart := Some(now))
      else s1
  }

  // All subscribers

  function AllOffered(ss: seq<Subscriber>, chunk: Chunk): (r: seq<Subscriber>)
    ensures |r| == |ss| && forall i | 0 <= i < |r| :: r[i] == Offered(ss[i], chunk)
  {
    seq(|ss|, i requires 0 <= i < |ss| => Offered(ss[i], chunk))
  }

  function AllQueried(ss: seq<Subscriber>, now: int, rebuild: bool): (r: seq<Subscriber>)
    ensures |r| == |ss| && forall i | 0 <= i < |r| :: r[i] == Queried(ss[i], now, rebuild)
  {
    seq(|ss|, i requires 0 <= i < |ss| => Queried(ss[i], now, rebuild))
  }

  function AllUnbound(ss: seq<Subscriber>): (r: seq<Subscriber>)
    ensures |r| == |ss| && forall i | 0 <= i < |r| :: r[i] == ss[i].(live := false)
  {
    seq(|ss|, i requires 0 <= i < |ss| => ss[i].(live := false))
  }

  function Without(ss: seq<Subscriber>, id: Tuners.SubscriptionId): (r: seq<Subscriber>)
    ensures forall s :: s in r <==> s in ss && s.id != id
  {
    if ss == [] then []
    else
      assert ss == [ss[0]] + ss[1..];
      (if ss[0].id != id then [ss[0]] else []) + Without(ss[1..], id)
  }

  // The least capacity of those that count, and the size of an empty queue if
  // there are none.
  function LeastCapacity(ss: seq<Subscriber>, now: int, rebuild: bool): (c: nat)
    ensures forall s | s in ss && Counts(s, now, rebuild) :: c <= s.Capacity()
    ensures c == MAX_CHUNKS || exists s :: s in ss && Counts(s, now, rebuild) && c == s.Capacity()
    ensures c <= MAX_CHUNKS
  {
    if ss == [] then MAX_CHUNKS
    else
      var s, rest := ss[|ss| - 1], ss[..|ss| - 1];
      assert ss == rest + [s];
      var c := LeastCapacity(rest, now, rebuild);
      if Counts(s, now, rebuild) && s.Capacity() < c then s.Capacity() else c
  }

  // Steps

  predicate Enabled(y: State, a: Action) {
    match a
    case Bind => !y.bound && y.feed.Off?
    case Subscribe(_, _) => y.bound
    case Unsubscribe(_) => true
    case Receive(i) => i < |y.subscribers| && y.subscribers[i].open && y.subscribers[i].queue != []
    case Close(i) => i < |y.subscribers| && y.subscribers[i].open
    case Query(now) => y.feed.Asking? && now >= y.clock
    case Send(chunk) => y.feed.Feeding? && y.feed.credits > 0
    case Unbind => y.bound
  }

  // The source asks again while an eighth of a queue or less is free.
  function FeedFor(capacity: int): Feed {
    if capacity > MAX_CHUNKS / 8 then Feeding(capacity) else Asking
  }

  function Spent(f: Feed): Feed {
    if f.Feeding? && f.credits > 1 then Feeding(f.credits - 1) else Asking
  }

  function Next(y: State, a: Action): State
    requires Enabled(y, a)
  {
    match a
    case Bind => y.(bound := true, feed := Asking)
    case Subscribe(id, maxStuck) => y.(subscribers := y.subscribers + [NewSubscriber(id, maxStuck)])
    case Unsubscribe(id) => y.(subscribers := Without(y.subscribers, id))
    case Receive(i) =>
      var s := y.subscribers[i];
      y.(subscribers := y.subscribers[i := s.(queue := s.queue[1..], received := s.received + [s.queue[0]])])
    case Close(i) => y.(subscribers := y.subscribers[i := y.subscribers[i].(open := false, queue := [])])
    case Query(now) =>
      y.(subscribers := AllQueried(y.subscribers, now, y.rebuild),
         clock := now,
         feed := FeedFor(LeastCapacity(y.subscribers, now, y.rebuild)))
    case Send(chunk) => y.(subscribers := AllOffered(y.subscribers, chunk), feed := Spent(y.feed))
    case Unbind => y.(subscribers := AllUnbound(y.subscribers), bound := false, feed := Off)
  }

  predicate Initial(y: State) { y.subscribers == [] && !y.bound && y.feed.Off? }

  predicate Possible(y: State, acts: seq<Action>)
    decreases |acts|
  {
    acts == [] || (Enabled(y, acts[0]) && Possible(Next(y, acts[0]), acts[1..]))
  }

  function After(y: State, acts: seq<Action>): State
    requires Possible(y, acts)
    decreases |acts|
  {
    if acts == [] then y else After(Next(y, acts[0]), acts[1..])
  }

  // What a log says

  // The chunks that were queued, in order.
  function Queued(log: seq<Entry>): seq<Chunk> {
    if log == [] then []
    else
      var e := log[|log| - 1];
      Queued(log[..|log| - 1]) + if e.Given? && e.queued then [e.chunk] else []
  }

  // All chunks that were offered, in order.
  function AllGiven(log: seq<Entry>): seq<Chunk> {
    if log == [] then []
    else
      var e := log[|log| - 1];
      AllGiven(log[..|log| - 1]) + if e.Given? then [e.chunk] else []
  }

  // The number of bytes dropped since a chunk was last queued.
  function DroppedRun(log: seq<Entry>): Option<nat> {
    if log == [] then None
    else
      var e, before := log[|log| - 1], DroppedRun(log[..|log| - 1]);
      match e
      case Asked(_, _) => before
      case Given(chunk, true) => None
      case Given(chunk, false) => Some(|chunk| + if before.Some? then before.value else 0)
  }

  // The time of the first of the latest queries, without a gap, that found no room.
  function StuckSince(log: seq<Entry>): Option<int> {
    if log == [] then None
    else
      var e, before := log[|log| - 1], StuckSince(log[..|log| - 1]);
      match e
      case Given(_, _) => before
      case Asked(time, capacity) => if capacity > 0 then None else if before.Some? then before else Some(time)
  }

  function LastAsked(log: seq<Entry>): Option<int> {
    if log == [] then None
    else if log[|log| - 1].Asked? then Some(log[|log| - 1].time)
    else LastAsked(log[..|log| - 1])
  }

  // The queue has been full at the last query, and at all queries for at least
  // `maxStuck` before it.
  predicate Overdue(log: seq<Entry>, maxStuck: int) {
    && LastAsked(log).Some?
    && StuckSince(log).Some?
    && LastAsked(log).value - StuckSince(log).value >= maxStuck
  }

  predicate Dropped(log: seq<Entry>, k: nat)
    requires k < |log|
  {
    log[k].Given? && !log[k].queued
  }

  // Invariants

  ghost predicate DropsJustified(log: seq<Entry>, maxStuck: int) {
    forall k | 0 <= k < |log| && Dropped(log, k) :: Overdue(log[..k], maxStuck)
  }

  ghost predicate SubscriberOk(s: Subscriber, rebuild: bool) {
    && |s.queue| <= MAX_CHUNKS
    && (s.open ==> s.received + s.queue == Queued(s.log))
    && (!s.open ==> s.queue == [] && s.received <= Queued(s.log))
    && s.droppedBytes == DroppedRun(s.log)
    && s.stuckStart == (if rebuild then None else StuckSince(s.log))
    && LogOk(s.log, s.maxStuck, rebuild)
  }

  ghost predicate LogOk(log: seq<Entry>, maxStuck: int, rebuild: bool) {
    DropsJustified(log, maxStuck) && (rebuild ==> NoDrops(log))
  }

  ghost predicate NoDrops(log: seq<Entry>) {
    forall k | 0 <= k < |log| :: !Dropped(log, k)
  }

  // A subscriber that was taken into account, or has joined since, has room for
  // all remaining credits.
  predicate HasRoom(s: Subscriber, feed: Feed, rebuild: bool) {
    s.live && s.open && feed.Feeding? && (rebuild || !Overdue(s.log, s.maxStuck)) ==> s.Capacity() >= feed.credits
  }

  ghost predicate Ok(s: Subscriber, feed: Feed, rebuild: bool) {
    SubscriberOk(s, rebuild) && HasRoom(s, feed, rebuild)
  }

  ghost predicate AllOk(ss: seq<Subscriber>, feed: Feed, rebuild: bool) {
    forall i | 0 <= i < |ss| :: Ok(ss[i], feed, rebuild)
  }

  ghost predicate Inv(y: State) {
    && (!y.feed.Off? ==> y.bound)
    && (y.feed.Feeding? ==> 0 < y.feed.credits <= MAX_CHUNKS)
    && AllOk(y.subscribers, y.feed, y.rebuild)
  }

  lemma LogSnoc(log: seq<Entry>, e: Entry, all: seq<Entry>)
    requires all == log + [e]
    ensures Queued(all) == Queued(log) + if e.Given? && e.queued then [e.chunk] else []
    ensures LastAsked(all) == if e.Asked? then Some(e.time) else LastAsked(log)
    ensures DroppedRun(all) ==
      match e
      case Asked(_, _) => DroppedRun(log)
      case Given(chunk, true) => None
      case Given(chunk, false) => Some(|chunk| + if DroppedRun(log).Some? then DroppedRun(log).value else 0)
    ensures StuckSince(all) ==
      if e.Given? then StuckSince(log)
      else if e.capacity > 0 then None
      else if StuckSince(log).Some? then StuckSince(log)
      else Some(e.time)
  {
    assert all[..|all| - 1] == log;
  }

  lemma LogOkSnoc(log: seq<Entry>, maxStuck: int, rebuild: bool, e: Entry, all: seq<Entry>)
    requires LogOk(log, maxStuck, rebuild) && all == log + [e]
    requires e.Given? && !e.queued ==> Overdue(log, maxStuck) && !rebuild
    ensures LogOk(all, maxStuck, rebuild)
  {
    forall k | 0 <= k < |all| && Dropped(all, k) ensures Overdue(all[..k], maxStuck) {
      if k < |log| {
        assert Dropped(log, k) && all[..k] == log[..k];
      } else {
        assert all[..k] == log;
      }
    }
    if rebuild {
      forall k | 0 <= k < |all| ensures !Dropped(all, k) {
        if k < |log| { assert !Dropped(log, k); }
      }
    }
  }

  lemma QueuedKeeps(s: Subscriber, chunk: Chunk, feed: Feed, rebuild: bool)
    requires Ok(s, feed, rebuild) && feed.Feeding? && s.live && s.open && |s.queue| < MAX_CHUNKS
    ensures Ok(Offered(s, chunk), Spent(feed), rebuild)
  {
    var e, s' := Given(chunk, true), Offered(s, chunk);
    LogSnoc(s.log, e, s'.log);
    LogOkSnoc(s.log, s.maxStuck, rebuild, e, s'.log);
    AppendAssociative(s.received, s.queue, [chunk]);
    assert |s'.queue| == |s.queue| + 1;
  }

  lemma DropKeeps(s: Subscriber, chunk: Chunk, feed: Feed, rebuild: bool)
    requires Ok(s, feed, rebuild) && feed.Feeding? && feed.credits > 0
    requires s.live && s.open && |s.queue| == MAX_CHUNKS
    ensures Ok(Offered(s, chunk), Spent(feed), rebuild)
  {
    var e, s' := Given(chunk, false), Offered(s, chunk);
    assert !rebuild && Overdue(s.log, s.maxStuck);
    LogSnoc(s.log, e, s'.log);
    LogOkSnoc(s.log, s.maxStuck, rebuild, e, s'.log);
    assert Queued(s.log) + [] == Queued(s.log);
  }

  lemma OfferKeeps(s: Subscriber, chunk: Chunk, feed: Feed, rebuild: bool)
    requires Ok(s, feed, rebuild) && feed.Feeding? && feed.credits > 0
    ensures Ok(Offered(s, chunk), Spent(feed), rebuild)
  {
    if s.live && s.open {
      if |s.queue| < MAX_CHUNKS {
        QueuedKeeps(s, chunk, feed, rebuild);
      } else {
        DropKeeps(s, chunk, feed, rebuild);
      }
    }
  }

  lemma QueryKeeps(s: Subscriber, now: int, feed: Feed, rebuild: bool)
    requires SubscriberOk(s, rebuild)
    requires feed.Feeding? && Counts(s, now, rebuild) ==> feed.credits <= s.Capacity()
    ensures Ok(Queried(s, now, rebuild), feed, rebuild)
  {
    if s.live {
      var e, all := Asked(now, s.Capacity()), Queried(s, now, rebuild).log;
      LogSnoc(s.log, e, all);
      LogOkSnoc(s.log, s.maxStuck, rebuild, e, all);
    }
  }

  // A query grants no more than each subscriber that counts has room for.
  lemma GrantIsCovered(ss: seq<Subscriber>, now: int, rebuild: bool, i: nat)
    requires i < |ss| && Counts(ss[i], now, rebuild)
    ensures
      var feed := FeedFor(LeastCapacity(ss, now, rebuild));
      feed.Feeding? ==> MAX_CHUNKS / 8 < feed.credits <= ss[i].Capacity()
  {
    assert ss[i] in ss;
  }

  lemma QueriedIsOk(ss: seq<Subscriber>, now: int, feed: Feed, rebuild: bool, i: nat)
    requires i < |ss| && Ok(ss[i], feed, rebuild)
    ensures Ok(Queried(ss[i], now, rebuild), FeedFor(LeastCapacity(ss, now, rebuild)), rebuild)
  {
    if Counts(ss[i], now, rebuild) { GrantIsCovered(ss, now, rebuild, i); }
    QueryKeeps(ss[i], now, FeedFor(LeastCapacity(ss, now, rebuild)), rebuild);
  }

  lemma AllQueriedAreOk(ss: seq<Subscriber>, now: int, feed: Feed, rebuild: bool)
    requires AllOk(ss, feed, rebuild)
    ensures AllOk(AllQueried(ss, now, rebuild), FeedFor(LeastCapacity(ss, now, rebuild)), rebuild)
  {
    var all, feed' := AllQueried(ss, now, rebuild), FeedFor(LeastCapacity(ss, now, rebuild));
    forall i | 0 <= i < |ss| ensures Ok(all[i], feed', rebuild) {
      QueriedIsOk(ss, now, feed, rebuild, i);
      assert all[i] == Queried(ss[i], now, rebuild);
    }
  }

  lemma QueryStepKeeps(y: State, now: int)
    requires Inv(y) && Enabled(y, Query(now))
    ensures Inv(Next(y, Query(now)))
  {
    AllQueriedAreOk(y.subscribers, now, y.feed, y.rebuild);
  }

  lemma SendStepKeeps(y: State, chunk: Chunk)
    requires Inv(y) && Enabled(y, Send(chunk))
    ensures Inv(Next(y, Send(chunk)))
  {
    forall i | 0 <= i < |y.subscribers|
      ensures Ok(AllOffered(y.subscribers, chunk)[i], Spent(y.feed), y.rebuild)
    {
      assert Ok(y.subscribers[i], y.feed, y.rebuild);
      OfferKeeps(y.subscribers[i], chunk, y.feed, y.rebuild);
    }
  }

  lemma ReceiveKeeps(y: State, i: nat)
    requires Inv(y) && Enabled(y, Receive(i))
    ensures Inv(Next(y, Receive(i)))
  {
    var s := y.subscribers[i];
    assert Ok(s, y.feed, y.rebuild);
    assert s.received + s.queue == s.received + [s.queue[0]] + s.queue[1..];
    assert Ok(s.(queue := s.queue[1..], received := s.received + [s.queue[0]]), y.feed, y.rebuild);
  }

  lemma UnsubscribeKeeps(y: State, id: Tuners.SubscriptionId)
    requires Inv(y)
    ensures Inv(Next(y, Unsubscribe(id)))
  {
    var ss := Without(y.subscribers, id);
    forall i | 0 <= i < |ss| ensures Ok(ss[i], y.feed, y.rebuild) {
      assert ss[i] in ss;
      var j :| 0 <= j < |y.subscribers| && y.subscribers[j] == ss[i];
      assert Ok(y.subscribers[j], y.feed, y.rebuild);
    }
  }

  lemma UnbindKeeps(y: State)
    requires Inv(y) && Enabled(y, Unbind)
    ensures Inv(Next(y, Unbind))
  {
    forall i | 0 <= i < |y.subscribers| ensures Ok(AllUnbound(y.subscribers)[i], Off, y.rebuild) {
      assert Ok(y.subscribers[i], y.feed, y.rebuild);
    }
  }

  lemma StepKeepsInv(y: State, a: Action)
    requires Inv(y) && Enabled(y, a)
    ensures Inv(Next(y, a))
  {
    match a
    case Query(now) => QueryStepKeeps(y, now);
    case Send(chunk) => SendStepKeeps(y, chunk);
    case Receive(i) => ReceiveKeeps(y, i);
    case Close(i) => assert Ok(y.subscribers[i], y.feed, y.rebuild);
    case Unsubscribe(id) => UnsubscribeKeeps(y, id);
    case Unbind => UnbindKeeps(y);
    case Subscribe(id, maxStuck) => assert Ok(NewSubscriber(id, maxStuck), y.feed, y.rebuild);
    case Bind => BindKeeps(y);
  }

  lemma BindKeeps(y: State)
    requires Inv(y) && Enabled(y, Bind)
    ensures Inv(Next(y, Bind))
  {
    forall i | 0 <= i < |y.subscribers| ensures Ok(y.subscribers[i], Asking, y.rebuild) {
      assert Ok(y.subscribers[i], y.feed, y.rebuild);
    }
  }

  lemma {:induction false} AlwaysInv(y: State, acts: seq<Action>)
    requires Inv(y) && Possible(y, acts)
    ensures Inv(After(y, acts)) && After(y, acts).rebuild == y.rebuild
    decreases |acts|
  {
    if acts != [] {
      StepKeepsInv(y, acts[0]);
      AlwaysInv(Next(y, acts[0]), acts[1..]);
    }
  }

  lemma AttachedIsOk(y: State, s: Subscriber)
    requires Inv(y) && s in y.subscribers
    ensures Ok(s, y.feed, y.rebuild)
  {
    var i :| 0 <= i < |y.subscribers| && y.subscribers[i] == s;
    assert Ok(y.subscribers[i], y.feed, y.rebuild);
  }

  // Main results

  // In every reachable state each subscriber that is attached has room for all
  // the chunks that will be sent before the next query, unless that query, and
  // those for at least its maximum stuck time before, found its queue full.
  lemma CreditsAreCovered(y: State, acts: seq<Action>, s: Subscriber)
    requires Initial(y) && Possible(y, acts) && s in After(y, acts).subscribers
    requires s.live && s.open && After(y, acts).feed.Feeding?
    requires y.rebuild || !Overdue(s.log, s.maxStuck)
    ensures s.Capacity() >= After(y, acts).feed.credits
  {
    AlwaysInv(y, acts);
    AttachedIsOk(After(y, acts), s);
  }

  // A query leaves out exactly the subscribers that are overdue by it.
  lemma LeftOutIffOverdue(s: Subscriber, now: int, rebuild: bool)
    requires SubscriberOk(s, rebuild) && s.live && s.maxStuck > 0
    ensures !Counts(s, now, rebuild) <==> !rebuild && Overdue(Queried(s, now, rebuild).log, s.maxStuck)
  {
    LogSnoc(s.log, Asked(now, s.Capacity()), Queried(s, now, rebuild).log);
  }

  // What the log has to do with the run

  // The chunks sent, in order.
  function Sent(acts: seq<Action>): seq<Chunk> {
    if acts == [] then []
    else
      var a := acts[|acts| - 1];
      Sent(acts[..|acts| - 1]) + if a.Send? then [a.chunk] else []
  }

  predicate Attached(s: Subscriber) { s.live && s.open }

  // The `k`-th action is the subscription of `s`, which was offered the chunks sent
  // since, up to the one before it went away.
  predicate GivenSince(acts: seq<Action>, s: Subscriber, k: nat) {
    && k < |acts| && acts[k] == Subscribe(s.id, s.maxStuck)
    && AllGiven(s.log) <= Sent(acts[k + 1..])
    && (Attached(s) ==> AllGiven(s.log) == Sent(acts[k + 1..]))
  }

  // `s` is what the action `a` makes of `r`.
  predicate Becomes(r: Subscriber, a: Action, s: Subscriber) {
    && s.id == r.id && s.maxStuck == r.maxStuck
    && (Attached(s) ==> Attached(r))
    && AllGiven(s.log) == AllGiven(r.log) + if a.Send? && Attached(r) then [a.chunk] else []
  }

  lemma OfferedBecomes(r: Subscriber, chunk: Chunk)
    ensures Becomes(r, Send(chunk), Offered(r, chunk))
  {
    var s := Offered(r, chunk);
    if Attached(r) { assert s.log[..|s.log| - 1] == r.log; }
  }

  lemma QueriedBecomes(r: Subscriber, now: int, rebuild: bool)
    ensures Becomes(r, Query(now), Queried(r, now, rebuild))
  {
    var s := Queried(r, now, rebuild);
    if r.live { assert s.log[..|s.log| - 1] == r.log; }
  }

  lemma Origin(y: State, a: Action, s: Subscriber) returns (r: Subscriber)
    requires Enabled(y, a) && s in Next(y, a).subscribers
    requires a.Subscribe? ==> s != NewSubscriber(a.id, a.maxStuck)
    ensures r in y.subscribers && Becomes(r, a, s)
  {
    r := s;
    var j :| 0 <= j < |Next(y, a).subscribers| && Next(y, a).subscribers[j] == s;
    match a
    case Send(chunk) =>
      r := y.subscribers[j];
      OfferedBecomes(r, chunk);
    case Query(now) =>
      r := y.subscribers[j];
      QueriedBecomes(r, now, y.rebuild);
    case Receive(_) => r := y.subscribers[j];
    case Close(_) => r := y.subscribers[j];
    case Unbind => r := y.subscribers[j];
    case _ =>
  }

  lemma GivenSnoc(init: seq<Action>, a: Action, r: Subscriber, s: Subscriber, k: nat)
    requires GivenSince(init, r, k) && Becomes(r, a, s)
    ensures GivenSince(init + [a], s, k)
  {
    var before, all := init[k + 1..], (init + [a])[k + 1..];
    assert all == before + [a];
    assert all[..|all| - 1] == before;
  }

  // `AfterSnoc`, seen from the end of a longer run.
  lemma {:induction false} LastStep(y: State, acts: seq<Action>, a: Action)
    requires Possible(y, acts + [a])
    ensures Possible(y, acts) && Enabled(After(y, acts), a)
    ensures After(y, acts + [a]) == Next(After(y, acts), a)
    decreases |acts|
  {
    if acts == [] {
      assert acts + [a] == [a] && [a][1..] == [];
    } else {
      TailSnoc(acts, a);
      LastStep(Next(y, acts[0]), acts[1..], a);
    }
  }

  // What each message does to each subscriber

  // A new subscriber is attached, with an empty queue, after all others.
  lemma SubscriptionMeans(y: State, id: Tuners.SubscriptionId, maxStuck: int)
    requires Enabled(y, Subscribe(id, maxStuck))
    ensures
      var ss := Next(y, Subscribe(id, maxStuck)).subscribers;
      && |ss| == |y.subscribers| + 1 && ss[..|y.subscribers|] == y.subscribers
      && var s := ss[|y.subscribers|];
         && s.id == id && s.maxStuck == maxStuck && Attached(s) && s.queue == [] && s.received == []
         && s.stuckStart == None && s.droppedBytes == None
  {
  }

  // A chunk is queued if fewer than 1024 are, and otherwise dropped and counted; a
  // subscriber whose receiver is gone is not kept in touch with.
  lemma SendMeans(y: State, chunk: Chunk, i: nat)
    requires Enabled(y, Send(chunk)) && i < |y.subscribers|
    ensures
      var ss := Next(y, Send(chunk)).subscribers;
      && |ss| == |y.subscribers|
      && var s, s' := y.subscribers[i], ss[i];
         if !Attached(s) then s' == s.(live := false)
         else if |s.queue| < 1024 then s' == s.(queue := s.queue + [chunk], droppedBytes := None, log := s'.log)
         else s' == s.(droppedBytes := s'.droppedBytes, log := s'.log)
              && s'.droppedBytes == Some(|chunk| + match s.droppedBytes case Some(n) => n case None => 0)
  {
  }

  // Once a query grants `c` chunks, which is more than 128, exactly so many are sent
  // before the next query; with 128 or less the source asks again.
  lemma QueryMeans(y: State, now: int)
    requires Enabled(y, Query(now))
    ensures
      var c := LeastCapacity(y.subscribers, now, y.rebuild);
      Next(y, Query(now)).feed == if c > 128 then Feeding(c) else Asking
  {
  }

  // A query notes since when a queue is full, unless in the rebuild mode.
  lemma QueryNotes(y: State, now: int, i: nat)
    requires Enabled(y, Query(now)) && i < |y.subscribers|
    ensures
      var ss := Next(y, Query(now)).subscribers;
      && |ss| == |y.subscribers| && Next(y, Query(now)).clock == now
      && var s, s' := y.subscribers[i], ss[i];
         && s' == s.(stuckStart := s'.stuckStart, log := s'.log)
         && s'.stuckStart == (if !s.live || y.rebuild then s.stuckStart
                              else if |s.queue| < 1024 then None
                              else if s.stuckStart.None? then Some(now)
                              else s.stuckStart)
  {
  }

  lemma {:induction false} BurstIsExact(y: State, chunks: seq<Chunk>)
    requires y.feed.Feeding? && 0 < |chunks| <= y.feed.credits
    ensures Possible(y, Sends(chunks))
    ensures After(y, Sends(chunks)).feed ==
      if |chunks| < y.feed.credits then Feeding(y.feed.credits - |chunks|) else Asking
    decreases |chunks|
  {
    var y1, rest := Next(y, Send(chunks[0])), Sends(chunks)[1..];
    assert rest == Sends(chunks[1..]);
    if |chunks| > 1 { BurstIsExact(y1, chunks[1..]); }
  }

  function Sends(chunks: seq<Chunk>): (r: seq<Action>)
    ensures |r| == |chunks| && forall i | 0 <= i < |r| :: r[i] == Send(chunks[i])
  {
    seq(|chunks|, i requires 0 <= i < |chunks| => Send(chunks[i]))
  }

  // Nobody is attached once the stream has ended, and the source is gone; whoever
  // unsubscribes is gone; and a bound stream starts with a query.
  lemma DetachingMeans(y: State, id: Tuners.SubscriptionId)
    ensures Enabled(y, Unbind) ==>
      var z := Next(y, Unbind);
      !z.bound && z.feed == Off && forall s | s in z.subscribers :: !s.live
    ensures forall s :: s in Next(y, Unsubscribe(id)).subscribers <==> s in y.subscribers && s.id != id
    ensures Enabled(y, Bind) ==> Next(y, Bind) == y.(bound := true, feed := Asking)
  {
  }

  // A receiver takes its chunks from the head of its queue, and closes it for good.
  lemma ReceiverMeans(y: State, i: nat)
    requires i < |y.subscribers| && y.subscribers[i].open
    ensures
      var s := y.subscribers[i];
      && (s.queue != [] ==>
          Next(y, Receive(i)).subscribers[i] == s.(queue := s.queue[1..], received := s.received + [s.queue[0]]))
      && Next(y, Close(i)).subscribers[i] == s.(open := false, queue := [])
  {
  }

  predicate BoundSince(acts: seq<Action>, k: nat) {
    k < |acts| && acts[k].Bind? && forall j | k < j < |acts| :: !acts[j].Unbind?
  }

  // The broadcaster takes a subscription, instead of failing its assertion, exactly
  // if a stream has been bound and not ended since.
  lemma {:induction false} BoundIff(y: State, acts: seq<Action>)
    requires Initial(y) && Possible(y, acts)
    ensures After(y, acts).bound <==> exists k :: BoundSince(acts, k)
    decreases |acts|
  {
    if acts != [] {
      var n := |acts| - 1;
      var init, a := acts[..n], acts[n];
      SplitLast(acts);
      LastStep(y, init, a);
      BoundIff(y, init);
      if a.Bind? {
        assert BoundSince(acts, n);
      } else if !a.Unbind? && After(y, init).bound {
        var k :| BoundSince(init, k);
        assert BoundSince(acts, k);
      } else if k :| BoundSince(acts, k) {
        assert BoundSince(init, k);
      }
    }
  }

  // A stream can end while subscribers are left, so that the broadcaster goes on.
  lemma EndsWithSubscriber(id: Tuners.SubscriptionId, maxStuck: int, rebuild: bool, clock: int)
    ensures
      var y, acts := State([], false, rebuild, Off, clock), [Bind, Subscribe(id, maxStuck), Unbind];
      && Initial(y) && Possible(y, acts)
      && !After(y, acts).bound && |After(y, acts).subscribers| == 1
  {
    var y := State([], false, rebuild, Off, clock);
    AfterSnoc(y, [], Bind);
    assert [] + [Bind] == [Bind] && [Bind] + [Subscribe(id, maxStuck)] == [Bind, Subscribe(id, maxStuck)];
    AfterSnoc(y, [Bind], Subscribe(id, maxStuck));
    assert [Bind, Subscribe(id, maxStuck)] + [Unbind] == [Bind, Subscribe(id, maxStuck), Unbind];
    AfterSnoc(y, [Bind, Subscribe(id, maxStuck)], Unbind);
  }

  // In every run, a subscriber that is attached was offered exactly the chunks sent
  // since its subscription.
  lemma {:induction false} OfferedSince(y: State, acts: seq<Action>, s: Subscriber) returns (k: nat)
    requires Initial(y) && Possible(y, acts) && s in After(y, acts).subscribers
    ensures GivenSince(acts, s, k)
    decreases |acts|
  {
    k := 0;
    if acts != [] {
      var n := |acts| - 1;
      var init, a := acts[..n], acts[n];
      SplitLast(acts);
      LastStep(y, init, a);
      if a.Subscribe? && s == NewSubscriber(a.id, a.maxStuck) {
        k := n;
        assert acts[n + 1..] == [];
      } else {
        var r := Origin(After(y, init), a, s);
        k := OfferedSince(y, init, r);
        GivenSnoc(init, a, r, s, k);
      }
    }
  }

  // A subscriber gets the chunks that were queued for it, each once and in order;
  // unless one is dropped, and while it is attached, these are all that were sent
  // since it subscribed.
  lemma ReceivedInOrder(y: State, acts: seq<Action>, s: Subscriber) returns (k: nat)
    requires Initial(y) && Possible(y, acts) && s in After(y, acts).subscribers
    ensures GivenSince(acts, s, k)
    ensures s.received <= Queued(s.log)
    ensures s.open ==> s.received + s.queue == Queued(s.log)
    ensures NoDrops(s.log) ==> Queued(s.log) == AllGiven(s.log)
    ensures s.droppedBytes == DroppedRun(s.log)
  {
    AlwaysInv(y, acts);
    AttachedIsOk(After(y, acts), s);
    k := OfferedSince(y, acts, s);
    if NoDrops(s.log) { NoneDropped(s.log); }
  }

  lemma {:induction false} NoneDropped(log: seq<Entry>)
    requires NoDrops(log)
    ensures Queued(log) == AllGiven(log)
  {
    if log != [] {
      var rest := log[..|log| - 1];
      forall k | 0 <= k < |rest| ensures !Dropped(rest, k) { assert !Dropped(log, k); }
      NoneDropped(rest);
      assert !Dropped(log, |log| - 1);
    }
  }

  // In the rebuild mode nothing is ever dropped: a subscriber that is attached has
  // received, or has in its queue, all chunks sent since it subscribed.
  lemma RebuildDropsNothing(y: State, acts: seq<Action>, s: Subscriber) returns (k: nat)
    requires Initial(y) && y.rebuild && Possible(y, acts) && s in After(y, acts).subscribers
    ensures k < |acts| && acts[k] == Subscribe(s.id, s.maxStuck)
    ensures s.received <= Sent(acts[k + 1..])
    ensures s.live && s.open ==> s.received + s.queue == Sent(acts[k + 1..])
  {
    AlwaysInv(y, acts);
    AttachedIsOk(After(y, acts), s);
    NoneDropped(s.log);
    k := OfferedSince(y, acts, s);
  }

  // The query `q` opened the burst that the `k`-th entry belongs to.
  predicate Opens(log: seq<Entry>, q: nat, k: nat) {
    && q < k <= |log|
    && log[q].Asked?
    && forall j | q < j < k :: log[j].Given?
  }

  // All queries from `p` to `q` found no room.
  predicate FullFrom(log: seq<Entry>, p: nat, q: nat) {
    && p <= q < |log|
    && log[p].Asked?
    && forall j | p <= j <= q && log[j].Asked? :: log[j].capacity == 0
  }

  lemma {:induction false} LastAskedOpens(log: seq<Entry>) returns (q: nat)
    requires LastAsked(log).Some?
    ensures Opens(log, q, |log|) && log[q].time == LastAsked(log).value
  {
    q := |log| - 1;
    if !log[q].Asked? {
      var init := log[..|log| - 1];
      q := LastAskedOpens(init);
      assert log[q] == init[q];
      forall j | q < j < |log| ensures log[j].Given? {
        if j < |init| { assert log[j] == init[j]; }
      }
    }
  }

  lemma {:induction false} StuckSinceMeans(log: seq<Entry>) returns (p: nat)
    requires StuckSince(log).Some?
    ensures FullFrom(log, p, |log| - 1) && log[p].time == StuckSince(log).value
  {
    var init := log[..|log| - 1];
    if StuckSince(init).Some? {
      p := StuckSinceMeans(init);
      assert log[p] == init[p];
      forall j | p <= j < |log| && log[j].Asked? ensures log[j].capacity == 0 {
        if j < |init| { assert log[j] == init[j]; }
      }
    } else {
      p := |log| - 1;
    }
  }

  // A chunk is dropped only in a burst whose opening query found the queue full,
  // and only if all queries for at least the maximum stuck time before found it
  // full, too.
  lemma DropsAreOverdue(y: State, acts: seq<Action>, s: Subscriber, k: nat) returns (p: nat, q: nat)
    requires Initial(y) && Possible(y, acts) && s in After(y, acts).subscribers
    requires k < |s.log| && Dropped(s.log, k)
    ensures !y.rebuild
    ensures Opens(s.log, q, k) && FullFrom(s.log, p, q)
    ensures s.log[q].time - s.log[p].time >= s.maxStuck
  {
    AlwaysInv(y, acts);
    AttachedIsOk(After(y, acts), s);
    var before := s.log[..k];
    assert Overdue(before, s.maxStuck);
    q := LastAskedOpens(before);
    p := StuckSinceMeans(before);
    assert forall j | 0 <= j < k :: s.log[j] == before[j];
  }

  // The actor

  lemma {:induction false} AfterSnoc(y: State, acts: seq<Action>, a: Action)
    requires Possible(y, acts) && Enabled(After(y, acts), a)
    ensures Possible(y, acts + [a])
    ensures After(y, acts + [a]) == Next(After(y, acts), a)
    decreases |acts|
  {
    if acts == [] {
      assert [a][1..] == [];
    } else {
      assert (acts + [a])[1..] == acts[1..] + [a];
      AfterSnoc(Next(y, acts[0]), acts[1..], a);
    }
  }

  lemma WithoutSnoc(ss: seq<Subscriber>, s: Subscriber, id: Tuners.SubscriptionId)
    ensures Without(ss + [s], id) == Without(ss, id) + if s.id != id then [s] else []
    decreases |ss|
  {
    if ss == [] {
      assert [s][1..] == [];
    } else {
      assert (ss + [s])[1..] == ss[1..] + [s];
      WithoutSnoc(ss[1..], s, id);
    }
  }

  class Broadcaster {
    var subscribers: seq<Subscriber>
    var streamBound: bool
    const rebuildMode: bool

    constructor (rebuildMode: bool)
      ensures this.rebuildMode == rebuildMode && subscribers == [] && !streamBound
    {
      this.rebuildMode := rebuildMode;
      subscribers, streamBound := [], false;
    }

    ghost function View(feed: Feed, clock: int): State
      reads this
    {
      State(subscribers, streamBound, rebuildMode, feed, clock)
    }

    method BindStream()
      requires !streamBound
      modifies this`streamBound
      ensures streamBound
    {
      streamBound := true;
    }

    method UnbindStream(ghost feed: Feed, ghost clock: int)
      requires streamBound
      modifies this
      ensures View(Off, clock) == Next(old(View(feed, clock)), Unbind)
    {
      for i := 0 to |subscribers|
        invariant |subscribers| == |old(subscribers)| && streamBound
        invariant forall j | 0 <= j < i :: subscribers[j] == old(subscribers[j]).(live := false)
        invariant forall j | i <= j < |subscribers| :: subscribers[j] == old(subscribers[j])
      {
        subscribers := subscribers[i := subscribers[i].(live := false)];
      }
      streamBound := false;
      assert subscribers == AllUnbound(old(subscribers));
    }

    method SubscribeTo(id: Tuners.SubscriptionId, maxStuck: int, ghost feed: Feed, ghost clock: int)
      requires streamBound
      modifies this`subscribers
      ensures View(feed, clock) == Next(old(View(feed, clock)), Subscribe(id, maxStuck))
    {
      subscribers := subscribers + [NewSubscriber(id, maxStuck)];
    }

    method UnsubscribeFrom(id: Tuners.SubscriptionId, ghost feed: Feed, ghost clock: int)
      modifies this`subscribers
      ensures View(feed, clock) == Next(old(View(feed, clock)), Unsubscribe(id))
    {
      var kept: seq<Subscriber> := [];
      for i := 0 to |subscribers|
        invariant subscribers == old(subscribers)
        invariant kept == Without(subscribers[..i], id)
      {
        assert subscribers[..i + 1] == subscribers[..i] + [subscribers[i]];
        WithoutSnoc(subscribers[..i], subscribers[i], id);
        if subscribers[i].id != id { kept := kept + [subscribers[i]]; }
      }
      assert subscribers[..|subscribers|] == subscribers;
      subscribers := kept;
    }

    method Broadcast(chunk: Chunk)
      modifies this`subscribers
      ensures subscribers == AllOffered(old(subscribers), chunk)
    {
      for i := 0 to |subscribers|
        invariant |subscribers| == |old(subscribers)|
        invariant forall j | 0 <= j < i :: subscribers[j] == Offered(old(subscribers[j]), chunk)
        invariant forall j | i <= j < |subscribers| :: subscribers[j] == old(subscribers[j])
      {
        var s := subscribers[i];
        if s.live {
          if !s.open {
            s := s.(live := false);
          } else if |s.queue| < MAX_CHUNKS {
            s := s.(queue := s.queue + [chunk], droppedBytes := None, log := s.log + [Given(chunk, true)]);
          } else {
            var before := if s.droppedBytes.Some? then s.droppedBytes.value else 0;
            s := s.(droppedBytes := Some(before + |chunk|), log := s.log + [Given(chunk, false)]);
          }
        }
        subscribers := subscribers[i := s];
      }
    }

    method QueryOne(subscriber: Subscriber, now: int) returns (s: Subscriber, counts: bool)
      ensures s == Queried(subscriber, now, rebuildMode)
      ensures counts <==> Counts(subscriber, now, rebuildMode)
    {
      s, counts := subscriber, subscriber.live;
      if counts {
        s := s.(log := s.log + [Asked(now, s.Capacity())]);
        if rebuildMode { return; }
        if s.Capacity() > 0 {
          s := s.(stuckStart := None);
        } else if s.stuckStart.Some? {
          counts := now - s.stuckStart.value < s.maxStuck;
        } else {
          s := s.(stuckStart := Some(now));
        }
      }
    }

    // Queries the `i`-th subscriber; `least` is that of those before it.
    method QueryAt(i: nat, now: int, least: nat, ghost ss: seq<Subscriber>, ghost next: nat) returns (capacity: nat)
      requires i < |ss| && next == i + 1
      requires subscribers == QueriedUpTo(ss, i, now, rebuildMode)
      requires least == LeastCapacity(ss[..i], now, rebuildMode)
      modifies this`subscribers
      ensures subscribers == QueriedUpTo(ss, next, now, rebuildMode)
      ensures capacity == LeastCapacity(ss[..next], now, rebuildMode)
    {
      LeastNext(ss, i, next, now, rebuildMode);
      QueriedNext(ss, i, next, now, rebuildMode);
      var s, counts := QueryOne(subscribers[i], now);
      subscribers := subscribers[i := s];
      capacity := if counts && s.Capacity() < least then s.Capacity() else least;
    }

    method MinCapacity(now: int) returns (capacity: nat)
      modifies this`subscribers
      ensures subscribers == AllQueried(old(subscribers), now, rebuildMode)
      ensures capacity == LeastCapacity(old(subscribers), now, rebuildMode)
    {
      ghost var ss := subscribers;
      capacity := MAX_CHUNKS;
      for i := 0 to |subscribers|
        invariant subscribers == QueriedUpTo(ss, i, now, rebuildMode)
        invariant capacity == LeastCapacity(ss[..i], now, rebuildMode)
      {
        capacity := QueryAt(i, now, capacity, ss, i + 1);
      }
      assert ss[..|ss|] == ss;
      assert subscribers == AllQueried(ss, now, rebuildMode);
    }

    static function QueriedUpTo(ss: seq<Subscriber>, i: nat, now: int, rebuild: bool): seq<Subscriber>
      requires i <= |ss|
    {
      AllQueried(ss[..i], now, rebuild) + ss[i..]
    }

    static lemma QueriedNext(ss: seq<Subscriber>, i: nat, next: nat, now: int, rebuild: bool)
      requires i < |ss| && next == i + 1
      ensures QueriedUpTo(ss, i, now, rebuild)[i] == ss[i]
      ensures QueriedUpTo(ss, next, now, rebuild) ==
        QueriedUpTo(ss, i, now, rebuild)[i := Queried(ss[i], now, rebuild)]
    {
    }

    static lemma LeastNext(ss: seq<Subscriber>, i: nat, next: nat, now: int, rebuild: bool)
      requires i < |ss| && next == i + 1
      ensures
        var c := LeastCapacity(ss[..i], now, rebuild);
        LeastCapacity(ss[..next], now, rebuild) ==
          if Counts(ss[i], now, rebuild) && ss[i].Capacity() < c then ss[i].Capacity() else c
    {
      TakeNext(ss, i, next);
    }
  }

  // Reads chunks from the tuner and hands them to the broadcaster.
  class ChunkSource {
    const broadcaster: Broadcaster
    var capacity: nat
    var clock: int

    constructor (broadcaster: Broadcaster)
      ensures this.broadcaster == broadcaster && capacity == 0
    {
      this.broadcaster := broadcaster;
      capacity, clock := 0, 0;
    }

    ghost function View(): State
      reads this, broadcaster
    {
      broadcaster.View(if capacity > 0 then Feeding(capacity) else Asking, clock)
    }

    // Something the broadcaster handles, or a subscriber does, while the source
    // waits; nothing if it is not possible.
    method Others(a: Action, ghost y: State, ghost trace: seq<Action>) returns (ghost t: seq<Action>)
      requires a.Subscribe? || a.Unsubscribe? || a.Receive? || a.Close?
      requires Possible(y, trace) && View() == After(y, trace) && broadcaster.streamBound
      modifies broadcaster
      ensures Possible(y, t) && View() == After(y, t) && broadcaster.streamBound
    {
      t := trace;
      ghost var was := View();
      ghost var feed := if capacity > 0 then Feeding(capacity) else Asking;
      if Enabled(was, a) {
        AfterSnoc(y, t, a);
        t := t + [a];
      }
      match a {
        case Subscribe(id, maxStuck) => broadcaster.SubscribeTo(id, maxStuck, feed, clock);
        case Unsubscribe(id) => broadcaster.UnsubscribeFrom(id, feed, clock);
        case Receive(i) =>
          if i < |broadcaster.subscribers| && broadcaster.subscribers[i].open && broadcaster.subscribers[i].queue != [] {
            var s := broadcaster.subscribers[i];
            s := s.(queue := s.queue[1..], received := s.received + [s.queue[0]]);
            broadcaster.subscribers := broadcaster.subscribers[i := s];
          }
        case Close(i) =>
          if i < |broadcaster.subscribers| && broadcaster.subscribers[i].open {
            var s := broadcaster.subscribers[i].(open := false, queue := []);
            broadcaster.subscribers := broadcaster.subscribers[i := s];
          }
      }
    }

    method Ask(now: int, ghost y: State, ghost trace: seq<Action>) returns (ghost t: seq<Action>)
      requires capacity == 0 && now >= clock
      requires Possible(y, trace) && View() == After(y, trace) && broadcaster.streamBound
      modifies this, broadcaster
      ensures Possible(y, t) && View() == After(y, t) && broadcaster.streamBound
    {
      AfterSnoc(y, trace, Query(now));
      t := trace + [Query(now)];
      clock := now;
      var cap := broadcaster.MinCapacity(now);
      if cap > MAX_CHUNKS / 8 { capacity := cap; }
    }

    // Asks until more than an eighth of a queue is free.
    method CheckCapacity(others: seq<Action>, k: nat, times: nat -> nat, ghost y: State, ghost trace: seq<Action>)
      returns (n: nat, ghost t: seq<Action>)
      requires k <= |others| && capacity == 0
      requires forall a | a in others :: a.Subscribe? || a.Unsubscribe? || a.Receive? || a.Close?
      requires Possible(y, trace) && View() == After(y, trace) && broadcaster.streamBound
      modifies this, broadcaster
      ensures k <= n <= |others| && (capacity == 0 ==> n == |others|)
      ensures k < |others| ==> k < n
      ensures Possible(y, t) && View() == After(y, t) && broadcaster.streamBound
    {
      n, t := k, trace;
      while n < |others| && capacity == 0
        invariant k <= n <= |others|
        invariant k < n || capacity == 0
        invariant Possible(y, t) && View() == After(y, t) && broadcaster.streamBound
      {
        t := Others(others[n], y, t);
        t := Ask(clock + times(n), y, t);
        n := n + 1;
      }
    }

    // Spends one credit.
    method FeedChunk(chunk: Chunk, ghost y: State, ghost trace: seq<Action>) returns (ghost t: seq<Action>)
      requires capacity > 0
      requires Possible(y, trace) && View() == After(y, trace) && broadcaster.streamBound
      modifies this, broadcaster
      ensures capacity == old(capacity) - 1
      ensures Possible(y, t) && View() == After(y, t) && broadcaster.streamBound
    {
      AfterSnoc(y, trace, Action.Send(chunk));
      t := trace + [Action.Send(chunk)];
      broadcaster.Broadcast(chunk);
      capacity := capacity - 1;
    }

    method End(ghost y: State, ghost trace: seq<Action>) returns (ghost t: seq<Action>)
      requires capacity > 0
      requires Possible(y, trace) && View() == After(y, trace) && broadcaster.streamBound
      modifies broadcaster
      ensures Possible(y, t) && broadcaster.View(Off, clock) == After(y, t) && !broadcaster.streamBound
    {
      AfterSnoc(y, trace, Unbind);
      t := trace + [Unbind];
      broadcaster.UnbindStream(Feeding(capacity), clock);
    }

    // `others` says what happens in between, `times` how long each query takes.
    // The stream ends after `chunks`; it stays open when `others` is used up.
    method FeedChunks(chunks: seq<Chunk>, others: seq<Action>, times: nat -> nat)
      returns (ended: bool, ghost trace: seq<Action>)
      requires capacity == 0 && broadcaster.streamBound
      requires forall a | a in others :: a.Subscribe? || a.Unsubscribe? || a.Receive? || a.Close?
      modifies this, broadcaster
      ensures Possible(old(View()), trace)
      ensures After(old(View()), trace) == if ended then broadcaster.View(Off, clock) else View()
      ensures ended ==> !broadcaster.streamBound
    {
      var k, sent := 0, 0;
      trace := [];
      ghost var y := View();
      while k < |others|
        invariant k <= |others| && sent <= |chunks| && (k < |others| ==> capacity == 0)
        invariant Possible(y, trace) && View() == After(y, trace) && broadcaster.streamBound
      {
        ghost var start := k;
        k, trace := CheckCapacity(others, k, times, y, trace);
        while capacity > 0 && k < |others|
          invariant start < k <= |others| && sent <= |chunks|
          invariant Possible(y, trace) && View() == After(y, trace) && broadcaster.streamBound
        {
          trace := Others(others[k], y, trace);
          k := k + 1;
          if sent == |chunks| {
            trace := End(y, trace);
            return true, trace;
          }
          trace := FeedChunk(chunks[sent], y, trace);
          sent := sent + 1;
        }
      }
      ended := false;
    }
  }
}
