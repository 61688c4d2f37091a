// The recording manager as the actor it is: an object whose handlers update its
// collections in place and append the messages they emit to `outbox`.
module RecordingManagers {
  import opened Models
  import opened Recordings
  import opened RecordingProperties

  ghost function SetOf(ids: seq<ProgramId>): set<ProgramId> { set id | id in ids }

  predicate ComesFirst(it: QueueItem, q: multiset<QueueItem>) {
    it in q && forall x | x in q :: !x.Precedes(it)
  }

  lemma FirstOfMore(q: multiset<QueueItem>, x: QueueItem, m: QueueItem)
    requires x in q && ComesFirst(m, q - multiset{x})
    ensures ComesFirst(if x.Precedes(m) then x else m, q)
  {
    var rest, first := q - multiset{x}, if x.Precedes(m) then x else m;
    assert m in rest && m in q;
    forall y | y in q ensures !y.Precedes(first) {
      if y != x { assert y in rest && !y.Precedes(m); }
    }
  }

  // A nonempty queue has an item that none precedes.
  lemma {:induction false} HasFirst(q: multiset<QueueItem>)
    requires q != multiset{}
    ensures exists it :: ComesFirst(it, q)
    decreases |q|
  {
    var x :| x in q;
    var rest := q - multiset{x};
    if rest == multiset{} {
      assert q == rest + multiset{x};
      assert ComesFirst(x, q);
    } else {
      HasFirst(rest);
      var m :| ComesFirst(m, rest);
      FirstOfMore(q, x, m);
    }
  }

  ghost predicate Keyed(m: map<ProgramId, Schedule>) {
    forall id | id in m :: m[id].program.id == id
  }

  function Part(m: map<ProgramId, Schedule>, done: set<ProgramId>): map<ProgramId, Schedule> {
    map id | id in m && id in done :: m[id]
  }

  lemma PartGrows(m: map<ProgramId, Schedule>, done: set<ProgramId>, id: ProgramId)
    requires Timed(m) && Keyed(m) && id in m && id !in done
    ensures
      var it := QueueItem(m[id].program.id, m[id].program.startAt.value, m[id].priority);
      multiset(ReadyItems(Part(m, done + {id}))) ==
      multiset(ReadyItems(Part(m, done))) + if m[id].state.IsReady() then multiset{it} else multiset{}
  {
    var it := QueueItem(m[id].program.id, m[id].program.startAt.value, m[id].priority);
    var before, after := ReadyItems(Part(m, done)), ReadyItems(Part(m, done + {id}));
    assert it !in before;
    if m[id].state.IsReady() {
      assert id in Part(m, done + {id});
      assert it in after;
      assert after == before + {it};
    } else {
      assert after == before;
    }
  }

  lemma PartsAtEnds(m: map<ProgramId, Schedule>)
    requires Timed(m)
    ensures multiset(ReadyItems(Part(m, m.Keys - m.Keys))) == multiset{}
    ensures Part(m, m.Keys - {}) == m
  {
    assert ReadyItems(Part(m, m.Keys - m.Keys)) == {};
  }

  // `id` is taken from those to do.
  lemma PartGrowsBy(m: map<ProgramId, Schedule>, todo: set<ProgramId>, id: ProgramId, rest: set<ProgramId>)
    requires Timed(m) && Keyed(m) && id in todo && todo <= m.Keys && rest == todo - {id}
    ensures
      var it := QueueItem(m[id].program.id, m[id].program.startAt.value, m[id].priority);
      multiset(ReadyItems(Part(m, m.Keys - rest))) ==
      multiset(ReadyItems(Part(m, m.Keys - todo))) + if m[id].state.IsReady() then multiset{it} else multiset{}
  {
    assert m.Keys - rest == (m.Keys - todo) + {id};
    PartGrows(m, m.Keys - todo, id);
  }

  // The ended schedules `done` of `m` have been handled.
  function Settled(m: map<ProgramId, Schedule>, done: seq<ProgramId>): map<ProgramId, Schedule> {
    map id | id in m && !(id in done && m[id].state.Waiting?) :: if id in done then Postponed(m[id]) else m[id]
  }

  function IsWaiting(m: map<ProgramId, Schedule>): ProgramId -> bool {
    id => id in m && m[id].state.Waiting?
  }

  // The history entries of those among `ids` that were waiting.
  function EndedEntries(m: map<ProgramId, Schedule>, ids: seq<ProgramId>): seq<Schedule> {
    Entries(m, Select(ids, IsWaiting(m)), GivenUp)
  }

  // Items `picked` have left `q`, best first, and `rest` remain.
  ghost predicate PartlyDequeued(q: multiset<QueueItem>, rest: multiset<QueueItem>, picked: seq<QueueItem>, now: int) {
    && rest + multiset(picked) == q
    && (forall i, j | 0 <= i < j < |picked| :: !picked[j].Precedes(picked[i]))
    && (forall it | it in picked :: it.startAt - now <= PREP)
    && (forall i, it | 0 <= i < |picked| && it in rest :: !it.Precedes(picked[i]))
  }

  lemma DequeueOne(q: multiset<QueueItem>, rest: multiset<QueueItem>, picked: seq<QueueItem>, now: int, it: QueueItem)
    requires PartlyDequeued(q, rest, picked, now)
    requires it in rest && (forall x | x in rest :: !x.Precedes(it)) && it.startAt - now <= PREP
    ensures PartlyDequeued(q, rest - multiset{it}, picked + [it], now)
  {
    assert multiset(picked + [it]) == multiset(picked) + multiset{it};
    assert forall x | x in rest - multiset{it} :: x in rest;
  }

  lemma DequeuedAll(q: multiset<QueueItem>, rest: multiset<QueueItem>, picked: seq<QueueItem>, now: int)
    requires PartlyDequeued(q, rest, picked, now) && forall x | x in rest :: x.startAt - now > PREP
    ensures Dequeues(q, now, picked) && rest == q - multiset(picked)
  {
    assert q - multiset(picked) == rest;
  }

  class RecordingManager {
    var schedules: map<ProgramId, Schedule>
    var queue: multiset<QueueItem>
    var history: seq<Schedule>
    var recorders: map<ProgramId, Recorder>
    var outbox: seq<Event>

    function View(): State
      reads this
    {
      State(schedules, queue, history, recorders)
    }

    // What the handlers rely on; it is part of `RecordingProperties.Inv`, which
    // `RecordingProperties.StepKeepsInv` shows every handler keeps.
    ghost predicate Valid()
      reads this
    {
      Timed(schedules) && Keyed(schedules)
    }

    constructor ()
      ensures Valid() && View() == State(map[], multiset{}, [], map[]) && outbox == []
    {
      schedules, queue, history, recorders, outbox := map[], multiset{}, [], map[], [];
    }

    twostate predicate Performs(o: Outcome)
      reads this
    {
      View() == o.state && outbox == old(outbox) + o.events
    }

    method Emit(e: Event)
      modifies this`outbox
      ensures outbox == old(outbox) + [e]
    {
      outbox := outbox + [e];
    }

    method RebuildQueue()
      requires Timed(schedules) && Keyed(schedules)
      modifies this`queue
      ensures View() == Rebuilt(old(View()))
    {
      queue := multiset{};
      var todo := schedules.Keys;
      PartsAtEnds(schedules);
      while todo != {}
        invariant todo <= schedules.Keys
        invariant queue == multiset(ReadyItems(Part(schedules, schedules.Keys - todo)))
        decreases todo
      {
        var id :| id in todo;
        var c := schedules[id];
        var rest := todo - {id};
        PartGrowsBy(schedules, todo, id, rest);
        if c.state.IsReady() {
          queue := queue + multiset{QueueItem(c.program.id, c.program.startAt.value, c.priority)};
        }
        todo := rest;
      }
    }

    // Maintenance

    method FindExpiredAndEnded(now: int, order: seq<ProgramId>)
      returns (expired: seq<ProgramId>, ended: seq<ProgramId>)
      requires Timed(schedules) && Enumerates(order, schedules)
      ensures expired == Select(order, IsExpired(View(), now))
      ensures ended == Select(order, HasEnded(View(), now))
    {
      ghost var s := View();
      ghost var p := IsExpired(s, now);
      ghost var q := HasEnded(s, now);
      expired, ended := [], [];
      for i := 0 to |order|
        invariant expired == Select(order[..i], p)
        invariant ended == Select(order[..i], q)
      {
        SelectNext(order, i, p);
        SelectNext(order, i, q);
        assert order[i] in order;
        var c := schedules[order[i]];
        if c.state.Recording? || c.state.IsDone() {
        } else if c.program.startAt.value + MAX_DELAY <= now {
          expired := expired + [order[i]];
        } else if c.state.IsReady() || c.state.Waiting? {
          var end := c.program.EndAt();
          if end.Some? && end.value <= now { ended := ended + [order[i]]; }
        }
      }
      assert order[..|order|] == order;
    }

    method FailExpired(expired: seq<ProgramId>)
      requires Distinct(expired) && forall id | id in expired :: id in schedules
      modifies this`schedules, this`history, this`outbox
      ensures schedules == old(schedules) - SetOf(expired)
      ensures history == old(history) + Entries(old(schedules), expired, Expired)
      ensures outbox == old(outbox) + Failures(expired, ScheduleExpired)
    {
      ghost var m := schedules;
      for i := 0 to |expired|
        invariant schedules == m - SetOf(expired[..i])
        invariant history == old(history) + Entries(m, expired[..i], Expired)
        invariant outbox == old(outbox) + Failures(expired[..i], ScheduleExpired)
      {
        var id := expired[i];
        assert id in expired && id !in SetOf(expired[..i]);
        assert expired[..i + 1] == expired[..i] + [id];
        EntriesSnoc(m, expired[..i], id, Expired);
        FailuresSnoc(expired[..i], id, ScheduleExpired);
        var c := schedules[id];
        schedules := schedules - {id};
        history := history + [c.(state := Failed, failure := Some(ScheduleExpired))];
        Emit(RecordingFailed(id, ScheduleExpired));
      }
      assert expired[..|expired|] == expired;
    }

    // One ended schedule waits for another time or, if it was waiting, has failed.
    method SettleEndedOne(id: ProgramId)
      requires id in schedules
      modifies this`schedules, this`history, this`outbox
      ensures schedules == if old(schedules)[id].state.Waiting? then old(schedules) - {id}
                           else old(schedules)[id := Postponed(old(schedules)[id])]
      ensures history == old(history) + if old(schedules)[id].state.Waiting? then [GivenUp(old(schedules)[id])] else []
      ensures outbox == old(outbox) + [RecordingFailed(id, ProgramEnded)]
    {
      var c := schedules[id];
      if !c.state.Waiting? {
        schedules := schedules[id := c.(state := Rescheduling, failure := Some(ProgramEnded))];
      } else {
        schedules := schedules - {id};
        history := history + [c.(state := Failed)];
      }
      Emit(RecordingFailed(id, ProgramEnded));
    }

    method SettleEnded(ended: seq<ProgramId>)
      requires Distinct(ended) && forall id | id in ended :: id in schedules
      modifies this`schedules, this`history, this`outbox
      ensures schedules == Settled(old(schedules), ended)
      ensures history == old(history) + EndedEntries(old(schedules), ended)
      ensures outbox == old(outbox) + Failures(ended, ProgramEnded)
    {
      ghost var m := schedules;
      assert Settled(m, []) == m;
      for i := 0 to |ended|
        invariant schedules == Settled(m, ended[..i])
        invariant history == old(history) + EndedEntries(m, ended[..i])
        invariant outbox == old(outbox) + Failures(ended[..i], ProgramEnded)
      {
        var id := ended[i];
        assert id in ended && id !in ended[..i];
        assert ended[..i + 1] == ended[..i] + [id];
        SettleOne(m, ended[..i], id);
        FailuresSnoc(ended[..i], id, ProgramEnded);
        SettleEndedOne(id);
      }
      assert ended[..|ended|] == ended;
    }

    static lemma SettleOne(m: map<ProgramId, Schedule>, done: seq<ProgramId>, id: ProgramId)
      requires id in m && id !in done
      ensures id in Settled(m, done) && Settled(m, done)[id] == m[id]
      ensures Settled(m, done + [id]) ==
        if m[id].state.Waiting? then Settled(m, done) - {id} else Settled(m, done)[id := Postponed(m[id])]
      ensures EndedEntries(m, done + [id]) ==
        EndedEntries(m, done) + if m[id].state.Waiting? then [GivenUp(m[id])] else []
    {
      SelectSnoc(done, id, IsWaiting(m));
      if m[id].state.Waiting? { EntriesSnoc(m, Select(done, IsWaiting(m)), id, GivenUp); }
    }

    method MaintainSchedules(now: int, order: seq<ProgramId>) returns (changed: bool)
      requires Valid() && Enumerates(order, schedules)
      modifies this`schedules, this`history, this`outbox
      ensures
        var (s', events, c) := Maintained(old(View()), now, order);
        Valid() && View() == s' && outbox == old(outbox) + events && changed == c
    {
      ghost var s := View();
      ghost var sent := outbox;
      var expired, ended := FindExpiredAndEnded(now, order);
      SelectDistinct(order, IsExpired(s, now));
      SelectDistinct(order, HasEnded(s, now));
      EndedAreNotExpired(s, now, order);
      changed := expired != [] || ended != [];
      FailExpired(expired);
      ghost var mid := schedules;
      SettleEnded(ended);
      SettledIsSurviving(s, now, order, mid);
      SettledHistory(s, now, order, mid);
      AppendAssociative(sent, Failures(expired, ScheduleExpired), Failures(ended, ProgramEnded));
    }

    static lemma EndedAreNotExpired(s: State, now: int, order: seq<ProgramId>)
      requires Enumerates(order, s.schedules)
      ensures forall id | id in Select(order, HasEnded(s, now)) ::
        id in s.schedules - SetOf(Select(order, IsExpired(s, now)))
    {
    }

    static lemma SettledIsSurviving(s: State, now: int, order: seq<ProgramId>, mid: map<ProgramId, Schedule>)
      requires Timed(s.schedules) && Enumerates(order, s.schedules)
      requires mid == s.schedules - SetOf(Select(order, IsExpired(s, now)))
      ensures Settled(mid, Select(order, HasEnded(s, now))) == Surviving(s, now)
    {
      SettlesAll(s, now, mid, Select(order, HasEnded(s, now)));
    }

    static lemma SettlesAll(s: State, now: int, mid: map<ProgramId, Schedule>, ended: seq<ProgramId>)
      requires Timed(s.schedules) && mid.Keys <= s.schedules.Keys
      requires forall id | id in s.schedules :: id in mid <==> !IsExpired(s, now)(id)
      requires forall id | id in mid :: mid[id] == s.schedules[id]
      requires forall id | id in s.schedules :: id in ended <==> HasEnded(s, now)(id)
      ensures Settled(mid, ended) == Surviving(s, now)
    {
      forall id | id in mid ensures mid[id].state.Waiting? && id in ended <==> VerdictAt(s, id, now).GiveUp? {}
    }

    static lemma EndedWaits(s: State, now: int, mid: map<ProgramId, Schedule>, id: ProgramId)
      requires id in mid && id in s.schedules && mid[id] == s.schedules[id] && HasEnded(s, now)(id)
      ensures IsWaiting(mid)(id) <==> IsGivenUp(s, now)(id)
    {
    }

    static lemma SettledHistory(s: State, now: int, order: seq<ProgramId>, mid: map<ProgramId, Schedule>)
      requires Timed(s.schedules) && Enumerates(order, s.schedules)
      requires mid == s.schedules - SetOf(Select(order, IsExpired(s, now)))
      ensures EndedEntries(mid, Select(order, HasEnded(s, now))) ==
        Entries(s.schedules, Select(Select(order, HasEnded(s, now)), IsGivenUp(s, now)), GivenUp)
    {
      var ended := Select(order, HasEnded(s, now));
      EndedAreNotExpired(s, now, order);
      forall id | id in ended ensures IsWaiting(mid)(id) <==> IsGivenUp(s, now)(id) {
        EndedWaits(s, now, mid, id);
      }
      SelectAgrees(ended, IsWaiting(mid), IsGivenUp(s, now));
    }

    // Takes the due items, best first.
    method DequeueNextSchedules(now: int) returns (picked: seq<QueueItem>)
      modifies this`queue
      ensures View() == Dequeued(old(View()), picked)
      ensures Dequeues(old(queue), now, picked)
    {
      picked := [];
      ghost var q := queue;
      while queue != multiset{}
        invariant PartlyDequeued(q, queue, picked, now)
        decreases |queue|
      {
        HasFirst(queue);
        var it :| it in queue && ComesFirst(it, queue);
        if it.startAt - now > PREP {
          assert forall x | x in queue :: !x.Precedes(it);
          break;
        }
        DequeueOne(q, queue, picked, now, it);
        queue := queue - multiset{it};
        picked := picked + [it];
      }
      DequeuedAll(q, queue, picked, now);
    }

    method MaintainHistory(now: int)
      modifies this`history
      ensures history == Kept(old(history), now)
    {
      var kept: seq<Schedule> := [];
      var i := |history|;
      assert history[i..] == [];
      while i > 0
        invariant 0 <= i <= |history|
        invariant history == old(history) && kept == Kept(history[i..], now)
      {
        i := i - 1;
        assert history[i..][1..] == history[i + 1..];
        if Retained(history[i], now) { kept := [history[i]] + kept; }
      }
      history := kept;
    }

    method StartRecording(id: ProgramId, o: StartOutcome)
      requires Valid()
      modifies this`schedules, this`history, this`recorders, this`outbox
      ensures
        var (s', events) := ApplyStart(old(View()), id, o);
        Valid() && View() == s' && outbox == old(outbox) + events
    {
      if id !in schedules { return; }
      if id !in recorders && o.Started? {
        recorders := recorders[id := Recorder.Recorder(Some(o.stream))];
        schedules := schedules[id := schedules[id].(state := Recording)];
        if o.recorded { Emit(RecordSaved(id, RecordRecording)); }
      } else if id !in recorders && o.Refused? {
        schedules := schedules[id := schedules[id].(state := Waiting, failure := Some(StartRecordingFailed))];
        Emit(RecordingFailed(id, StartRecordingFailed));
      } else {
        var c := schedules[id];
        schedules := schedules - {id};
        history := history + [c.(state := Failed, failure := Some(StartRecordingFailed))];
        Emit(RecordingFailed(id, StartRecordingFailed));
      }
    }

    method StartPicked(picked: seq<QueueItem>, outcomes: seq<StartOutcome>)
      requires Valid() && |picked| == |outcomes|
      modifies this`schedules, this`history, this`recorders, this`outbox
      ensures
        var (s', events) := StartAll(old(View()), picked, outcomes);
        Valid() && View() == s' && outbox == old(outbox) + events
      decreases |picked|
    {
      ghost var s := View();
      ghost var sent := outbox;
      ghost var total := StartAll(s, picked, outcomes);
      for i := 0 to |picked|
        invariant Valid() && queue == old(queue)
        invariant
          var (s', events) := StartAll(View(), picked[i..], outcomes[i..]);
          total.0 == s' && sent + total.1 == outbox + events
      {
        ghost var (s1, e1) := ApplyStart(View(), picked[i].id, outcomes[i]);
        StartAllNext(View(), picked, outcomes, i, i + 1);
        AppendAssociative(outbox, e1, StartAll(s1, picked[i + 1..], outcomes[i + 1..]).1);
        StartRecording(picked[i].id, outcomes[i]);
      }
    }

    // `n` is `i + 1`.
    static lemma StartAllNext(s: State, picked: seq<QueueItem>, outcomes: seq<StartOutcome>, i: nat, n: nat)
      requires i < |picked| == |outcomes| && n == i + 1
      ensures
        var (s1, e1) := ApplyStart(s, picked[i].id, outcomes[i]);
        var (s2, e2) := StartAll(s1, picked[n..], outcomes[n..]);
        StartAll(s, picked[i..], outcomes[i..]) == (s2, e1 + e2)
    {
      assert picked[i..][1..] == picked[n..] && outcomes[i..][1..] == outcomes[n..];
    }

    // Handlers

    method HandleProcessRecording(now: int, order: seq<ProgramId>, outcomes: ProgramId -> StartOutcome)
      returns (picked: seq<QueueItem>)
      requires Valid() && Enumerates(order, schedules)
      modifies this
      ensures Valid()
      ensures WellFormed(old(View()), Process(now, order, picked, OutcomesOf(picked, outcomes)))
      ensures Performs(HandleProcess(old(View()), now, order, picked, OutcomesOf(picked, outcomes)))
    {
      ghost var s := View();
      ghost var sent := outbox;
      Prepare(now, order);
      picked := DequeueNextSchedules(now);
      StartPicked(picked, OutcomesOf(picked, outcomes));
      MaintainHistory(now);
      ghost var (s1, e1) := Prepared(s, now, order);
      ghost var os := OutcomesOf(picked, outcomes);
      ghost var (s2, e2) := StartAll(Dequeued(s1, picked), picked, os);
      AppendAssociative(sent, e1, e2);
      assert HandleProcess(s, now, order, picked, os) == Outcome(s2.(history := Kept(s2.history, now)), e1 + e2, Done);
    }

    method Prepare(now: int, order: seq<ProgramId>)
      requires Valid() && Enumerates(order, schedules)
      modifies this`schedules, this`history, this`queue, this`outbox
      ensures Valid()
      ensures View() == Prepared(old(View()), now, order).0
      ensures outbox == old(outbox) + Prepared(old(View()), now, order).1
    {
      var changed := MaintainSchedules(now, order);
      if changed { RebuildQueue(); }
    }

    static function OutcomesOf(picked: seq<QueueItem>, outcomes: ProgramId -> StartOutcome): seq<StartOutcome> {
      seq(|picked|, i requires 0 <= i < |picked| => outcomes(picked[i].id))
    }

    // Applies `p` and appends what it announces.
    method UpdateByOnair(p: Option<Program>, store: RecordStore, before: bool) returns (changed: bool)
      requires Valid()
      modifies this`schedules, this`outbox
      ensures
        var (s', events, c) := ApplyMaybeOnair(old(View()), p, store, before);
        Valid() && View() == s' && outbox == old(outbox) + events && changed == c
    {
      changed := before;
      if p.None? || p.value.startAt.None? { return; }
      changed := false;
      var id := p.value.id;
      if id !in schedules { return; }
      var c := schedules[id];
      var moved := false;
      match c.state {
        case Scheduled | Waiting | Rescheduling =>
          moved := c.program.startAt != p.value.startAt;
          schedules := schedules[id := c.(program := p.value, state := Tracking)];
        case Tracking =>
          moved := c.program.startAt != p.value.startAt;
          schedules := schedules[id := c.(program := p.value)];
        case Recording =>
          schedules := schedules[id := c.(program := p.value)];
          SaveRecord(id, store);
        case Finished | Failed =>
      }
      if moved { Emit(RecordingRescheduled(id)); }
      changed := moved;
    }

    method SaveRecord(id: ProgramId, store: RecordStore)
      requires id in schedules ==> RecordUpdatable(schedules[id])
      modifies this`outbox
      ensures outbox == old(outbox) + UpdateRecord(View(), id, store)
    {
      if id !in recorders || store.Disabled? { return; }
      if store.Loaded? {
        Emit(RecordSaved(id, if id in schedules then StatusFor(schedules[id]) else RecordCanceled));
      } else if id in schedules {
        Emit(RecordSaved(id, RecordRecording));
      } else {
        Emit(RecordBroken(id));
      }
    }

    method UpdateByOnairPair(current: Option<Program>, next: Option<Program>, store: RecordStore) returns (changed: bool)
      requires Valid()
      modifies this`schedules, this`outbox
      ensures
        var (s', events, c) := ApplyOnairPair(old(View()), current, next, store);
        Valid() && View() == s' && outbox == old(outbox) + events && changed == c
    {
      ghost var s, sent := View(), outbox;
      changed := UpdateByOnair(current, store, false);
      ghost var s1, e1 := View(), ApplyMaybeOnair(s, current, store, false).1;
      ghost var e2 := ApplyMaybeOnair(s1, next, store, changed).1;
      changed := UpdateByOnair(next, store, changed);
      AppendAssociative(sent, e1, e2);
    }

    method HandleAddSchedule(c: Schedule, current: Option<Program>, next: Option<Program>, store: RecordStore)
      returns (reply: Reply)
      requires Valid() && c.program.startAt.Some?
      modifies this
      ensures Valid()
      ensures Performs(HandleAdd(old(View()), c, current, next, store))
      ensures reply == HandleAdd(old(View()), c, current, next, store).reply
    {
      var id := c.program.id;
      if id in schedules { return AlreadyExists; }
      schedules := schedules[id := c];
      var _ := UpdateByOnairPair(current, next, store);
      RebuildQueue();
      reply := if id in schedules then Ok(schedules[id]) else ScheduleNotFound;
    }

    method HandleRemoveSchedule(id: ProgramId) returns (reply: Reply)
      requires Valid()
      modifies this
      ensures Valid()
      ensures Performs(HandleRemove(old(View()), id)) && reply == HandleRemove(old(View()), id).reply
    {
      if id !in schedules { return ScheduleNotFound; }
      var c := schedules[id];
      schedules := schedules - {id};
      if c.state.Recording? { StopRecorder(id); }
      RebuildQueue();
      reply := Ok(c);
    }

    // Dropping the trigger stops the stream; the recorder stays until then.
    method StopRecorder(id: ProgramId)
      modifies this`recorders
      ensures View() == TriggerTaken(old(View()), id)
    {
      if id in recorders { recorders := recorders[id := Recorder.Recorder(None)]; }
    }

    // `order` enumerates `taken`.
    method StopRecordersOf(taken: map<ProgramId, Schedule>, order: seq<ProgramId>)
      requires Enumerates(order, taken)
      modifies this`recorders
      ensures recorders == map id | id in old(recorders) ::
        if id in taken && taken[id].state.Recording? then Recorder.Recorder(None) else old(recorders)[id]
    {
      ghost var before := recorders;
      for i := 0 to |order|
        invariant recorders.Keys == before.Keys
        invariant forall id | id in before ::
          recorders[id] == (if id in order[..i] && id in taken && taken[id].state.Recording?
                            then Recorder.Recorder(None) else before[id])
      {
        assert order[i] in order && order[..i + 1] == order[..i] + [order[i]];
        if taken[order[i]].state.Recording? { StopRecorder(order[i]); }
      }
      assert order[..|order|] == order;
    }

    method HandleRemoveAllSchedules(order: seq<ProgramId>)
      requires Valid() && Enumerates(order, schedules)
      modifies this
      ensures Valid()
      ensures Performs(HandleRemoveAll(old(View())))
    {
      var taken := schedules;
      schedules := map[];
      StopRecordersOf(taken, order);
      assert ReadyItems(map[]) == {};
      RebuildQueue();
    }

    method HandleRemoveTaggedSchedules(tag: string, now: int, order: seq<ProgramId>)
      requires Valid() && Enumerates(order, schedules)
      modifies this
      ensures Valid()
      ensures Performs(HandleRemoveTagged(old(View()), tag, now))
    {
      RetainUntagged(tag, now, order);
      RebuildQueue();
    }

    method RetainUntagged(tag: string, now: int, order: seq<ProgramId>)
      requires Valid() && Enumerates(order, schedules)
      modifies this`schedules
      ensures View() == old(View()).(schedules :=
        map id | id in old(schedules) && RetainedByTag(old(schedules)[id], tag, now) :: old(schedules)[id])
    {
      ghost var m := schedules;
      for i := 0 to |order|
        invariant Timed(m) && schedules == UntaggedUpTo(m, tag, now, order[..i])
      {
        UntagNext(m, tag, now, order, i, i + 1);
        var keep := IsRetained(schedules[order[i]], tag, now);
        if !keep { schedules := schedules - {order[i]}; }
      }
      TakeAll(order, |order|);
    }

    method IsRetained(c: Schedule, tag: string, now: int) returns (keep: bool)
      requires c.program.startAt.Some?
      ensures keep == RetainedByTag(c, tag, now)
    {
      if tag !in c.tags { return true; }
      match c.state {
        case Scheduled => keep := c.program.startAt.value - now <= PREP;
        case Tracking | Waiting | Recording => keep := true;
        case Rescheduling | Finished | Failed => keep := false;
      }
    }

    // `n` is `i + 1`.
    static lemma UntagNext(m: map<ProgramId, Schedule>, tag: string, now: int, order: seq<ProgramId>, i: nat, n: nat)
      requires Timed(m) && Enumerates(order, m) && i < |order| && n == i + 1
      ensures order[i] in UntaggedUpTo(m, tag, now, order[..i])
      ensures UntaggedUpTo(m, tag, now, order[..i])[order[i]] == m[order[i]]
      ensures UntaggedUpTo(m, tag, now, order[..n]) ==
        UntaggedUpTo(m, tag, now, order[..i]) - if RetainedByTag(m[order[i]], tag, now) then {} else {order[i]}
    {
      assert order[i] in order && order[i] !in order[..i];
      TakeNext(order, i, n);
    }

    static function UntaggedUpTo(m: map<ProgramId, Schedule>, tag: string, now: int, done: seq<ProgramId>)
      : map<ProgramId, Schedule>
      requires Timed(m)
    {
      map id | id in m && (id in done ==> RetainedByTag(m[id], tag, now)) :: m[id]
    }

    method HandleStartRecording(c: Schedule, o: StartOutcome) returns (reply: Reply)
      requires Valid() && c.program.startAt.Some?
      modifies this
      ensures Valid()
      ensures Performs(HandleStart(old(View()), c, o)) && reply == HandleStart(old(View()), c, o).reply
    {
      if c.program.id in schedules { return AlreadyExists; }
      schedules := schedules[c.program.id := c];
      StartRecording(c.program.id, o);
      reply := Done;
    }

    method HandleStopRecording(id: ProgramId) returns (reply: Reply)
      requires Valid()
      modifies this
      ensures Valid()
      ensures Performs(HandleStop(old(View()), id)) && reply == HandleStop(old(View()), id).reply
    {
      if id !in recorders { return RecorderNotFound; }
      StopRecorder(id);
      reply := Done;
    }

    // Gives the schedule of an ended pipeline, if any, its new state.
    method MarkStopped(id: ProgramId, exit: Exit) returns (done: bool)
      modifies this`schedules, this`outbox
      ensures done <==> id in old(schedules) && !exit.Retry?
      ensures schedules == if id in old(schedules) then old(schedules)[id := StoppedSchedule(old(schedules)[id], exit)]
                           else old(schedules)
      ensures outbox == old(outbox) +
        match exit
        case Retry => if id in old(schedules) then [RecordingFailed(id, NeedRescheduling)] else []
        case Error(code) => [RecordingFailed(id, PipelineError(code))]
        case Success => []
    {
      done := false;
      match exit {
        case Retry =>
          if id in schedules {
            schedules := schedules[id := schedules[id].(state := Rescheduling, failure := Some(NeedRescheduling))];
            Emit(RecordingFailed(id, NeedRescheduling));
          }
        case Error(code) =>
          if id in schedules {
            schedules := schedules[id := schedules[id].(state := Failed, failure := Some(PipelineError(code)))];
            done := true;
          }
          Emit(RecordingFailed(id, PipelineError(code)));
        case Success =>
          if id in schedules {
            schedules := schedules[id := schedules[id].(state := Finished)];
            done := true;
          }
      }
    }

    method HandlePipelineStopped(id: ProgramId, codes: seq<Option<int>>, store: RecordStore)
      requires Valid()
      modifies this
      ensures Valid()
      ensures Performs(HandleStopped(old(View()), id, codes, store))
    {
      if id !in recorders {
        Emit(RecordingStopped(id));
        return;
      }
      ghost var sent := outbox;
      var done := MarkStopped(id, ExitOf(codes));
      ghost var news := outbox[|sent|..];
      assert outbox == sent + news;
      ghost var saved := UpdateRecord(View(), id, store);
      SaveRecord(id, store);
      recorders := recorders - {id};
      Emit(RecordingStopped(id));
      assert outbox == sent + (news + saved + [RecordingStopped(id)]);
      if done {
        var c := schedules[id];
        schedules := schedules - {id};
        history := history + [c];
      }
    }

    method WakeWaiting(types: seq<ChannelType>, order: seq<ProgramId>) returns (changed: bool)
      requires Enumerates(order, schedules)
      modifies this`schedules
      ensures schedules == Woken(old(schedules), types)
      ensures changed <==> exists id :: id in old(schedules) && IsWoken(old(schedules)[id], types)
    {
      ghost var m := schedules;
      changed := false;
      WokenEnds(m, types, order);
      for i := 0 to |order|
        invariant schedules == WokenUpTo(m, types, order[..i])
        invariant changed <==> Select(order[..i], WokenAt(m, types)) != []
      {
        WakeNext(m, types, order, i, i + 1);
        var c := schedules[order[i]];
        if c.state.Waiting? && c.service.channel.channelType in types {
          schedules := schedules[order[i] := c.(state := Scheduled)];
          changed := true;
        }
      }
      assert order[..|order|] == order;
    }

    static lemma WokenEnds(m: map<ProgramId, Schedule>, types: seq<ChannelType>, order: seq<ProgramId>)
      requires Enumerates(order, m)
      ensures WokenUpTo(m, types, []) == m && WokenUpTo(m, types, order) == Woken(m, types)
      ensures Select(order, WokenAt(m, types)) != [] <==> exists id :: id in m && IsWoken(m[id], types)
    {
      SelectedSome(order, m, WokenAt(m, types));
      AllWoken(m, types, order);
    }

    static lemma AllWoken(m: map<ProgramId, Schedule>, types: seq<ChannelType>, order: seq<ProgramId>)
      requires Enumerates(order, m)
      ensures WokenUpTo(m, types, []) == m && WokenUpTo(m, types, order) == Woken(m, types)
    {
    }

    static lemma WakeNext(m: map<ProgramId, Schedule>, types: seq<ChannelType>, order: seq<ProgramId>, i: nat, next: nat)
      requires Distinct(order) && i < |order| && next == i + 1 && order[i] in m
      ensures
        var before, id := WokenUpTo(m, types, order[..i]), order[i];
        && id in before && before[id] == m[id]
        && WokenUpTo(m, types, order[..next]) ==
           if IsWoken(m[id], types) then before[id := m[id].(state := Scheduled)] else before
      ensures Select(order[..next], WokenAt(m, types)) ==
        Select(order[..i], WokenAt(m, types)) + if IsWoken(m[order[i]], types) then [order[i]] else []
    {
      TakeNext(order, i, next);
      assert order[i] !in order[..i];
      WakeOne(m, types, order[..i], order[i]);
      SelectSnoc(order[..i], order[i], WokenAt(m, types));
    }

    static function WokenAt(m: map<ProgramId, Schedule>, types: seq<ChannelType>): ProgramId -> bool {
      id => id in m && IsWoken(m[id], types)
    }

    static function WokenUpTo(m: map<ProgramId, Schedule>, types: seq<ChannelType>, done: seq<ProgramId>)
      : map<ProgramId, Schedule>
    {
      map id | id in m :: if id in done && IsWoken(m[id], types) then m[id].(state := Scheduled) else m[id]
    }

    static lemma WakeOne(m: map<ProgramId, Schedule>, types: seq<ChannelType>, done: seq<ProgramId>, id: ProgramId)
      requires id in m && id !in done
      ensures
        var before := WokenUpTo(m, types, done);
        && before[id] == m[id]
        && WokenUpTo(m, types, done + [id]) ==
           if IsWoken(m[id], types) then before[id := m[id].(state := Scheduled)] else before
    {
    }

    static lemma SelectedSome(order: seq<ProgramId>, m: map<ProgramId, Schedule>, p: ProgramId -> bool)
      requires Enumerates(order, m) && forall id | p(id) :: id in m
      ensures Select(order, p) != [] <==> exists id :: id in m && p(id)
    {
      if Select(order, p) != [] {
        assert Select(order, p)[0] in Select(order, p);
      }
      if id :| id in m && p(id) {
        assert id in Select(order, p);
      }
    }

    method HandleTunerAvailableMsg(types: seq<ChannelType>, order: seq<ProgramId>)
      requires Valid() && Enumerates(order, schedules)
      modifies this
      ensures Valid()
      ensures Performs(HandleTunerAvailable(old(View()), types))
    {
      ghost var m := schedules;
      var changed := WakeWaiting(types, order);
      if changed {
        RebuildQueue();
      } else {
        assert schedules == m;
      }
    }

    // Drops the schedules of services that are gone and updates the services of
    // the others, except for those being recorded.
    method UpdateServices(services: map<nat, Service>, order: seq<ProgramId>)
      returns (changed: bool, removed: seq<ProgramId>)
      requires Enumerates(order, schedules)
      modifies this`schedules
      ensures removed == Select(order, IsUnserved(old(View()), services))
      ensures schedules == WithServices(old(schedules), services)
      ensures changed <==> schedules != old(schedules)
    {
      ghost var s, m := View(), schedules;
      changed, removed := false, [];
      ServedEnds(m, services, order);
      ServiceChanged(m, services, order);
      for i := 0 to |order|
        invariant removed == Select(order[..i], IsUnserved(s, services))
        invariant schedules == ServedUpTo(m, services, order[..i])
        invariant changed <==> Select(order[..i], ServiceChanges(m, services)) != []
      {
        ServeNext(s, services, order, i);
        var did, gone := UpdateService(order[i], services);
        if gone { removed := removed + [order[i]]; }
        changed := changed || did;
      }
      assert order[..|order|] == order;
    }

    static lemma ServeNext(s: State, services: map<nat, Service>, order: seq<ProgramId>, i: nat)
      requires i < |order| && Distinct(order) && order[i] in s.schedules
      ensures
        var before := ServedUpTo(s.schedules, services, order[..i]);
        && order[i] in before && before[order[i]] == s.schedules[order[i]]
        && ServedUpTo(s.schedules, services, order[..i + 1]) == Served(before, services, order[i])
      ensures Select(order[..i + 1], IsUnserved(s, services)) ==
        Select(order[..i], IsUnserved(s, services)) +
        if IsUnserved(s, services)(order[i]) then [order[i]] else []
      ensures Select(order[..i + 1], ServiceChanges(s.schedules, services)) ==
        Select(order[..i], ServiceChanges(s.schedules, services)) +
        if ServiceChanges(s.schedules, services)(order[i]) then [order[i]] else []
    {
      assert order[..i + 1] == order[..i] + [order[i]];
      ServeOne(s.schedules, services, order[..i], order[i]);
      SelectNext(order, i, IsUnserved(s, services));
      SelectNext(order, i, ServiceChanges(s.schedules, services));
    }

    static lemma ServedEnds(m: map<ProgramId, Schedule>, services: map<nat, Service>, order: seq<ProgramId>)
      requires Enumerates(order, m)
      ensures ServedUpTo(m, services, []) == m
      ensures ServedUpTo(m, services, order) == WithServices(m, services)
    {
    }

    static lemma ServiceChanged(m: map<ProgramId, Schedule>, services: map<nat, Service>, order: seq<ProgramId>)
      requires Enumerates(order, m)
      ensures Select(order, ServiceChanges(m, services)) != [] <==> WithServices(m, services) != m
    {
      SelectedSome(order, m, ServiceChanges(m, services));
      SomeServiceChanges(m, services);
    }

    method UpdateService(id: ProgramId, services: map<nat, Service>) returns (changed: bool, gone: bool)
      requires id in schedules
      modifies this`schedules
      ensures schedules == Served(old(schedules), services, id)
      ensures changed <==> ServiceChanges(old(schedules), services)(id)
      ensures gone <==> !RetainedByServices(old(schedules)[id], id, services)
    {
      changed, gone := false, false;
      var c := schedules[id];
      if c.state.Recording? { return; }
      if id.service in services {
        if c.service != services[id.service] {
          schedules := schedules[id := c.(service := services[id.service])];
          changed := true;
        }
      } else {
        schedules := schedules - {id};
        changed, gone := true, true;
      }
    }

    static function Served(m: map<ProgramId, Schedule>, services: map<nat, Service>, id: ProgramId): map<ProgramId, Schedule>
      requires id in m
    {
      if m[id].state.Recording? then m
      else if id.service in services then m[id := m[id].(service := services[id.service])]
      else m - {id}
    }

    static function ServiceChanges(m: map<ProgramId, Schedule>, services: map<nat, Service>): ProgramId -> bool {
      id => id in m && (!RetainedByServices(m[id], id, services) ||
                        (!m[id].state.Recording? && m[id].service != services[id.service]))
    }

    static function ServedUpTo(m: map<ProgramId, Schedule>, services: map<nat, Service>, done: seq<ProgramId>)
      : map<ProgramId, Schedule>
    {
      map id | id in m && (id in done ==> RetainedByServices(m[id], id, services)) ::
        if id in done && !m[id].state.Recording? then m[id].(service := services[id.service]) else m[id]
    }

    static lemma ServeOne(m: map<ProgramId, Schedule>, services: map<nat, Service>, done: seq<ProgramId>, id: ProgramId)
      requires id in m && id !in done
      ensures
        var before := ServedUpTo(m, services, done);
        && id in before && before[id] == m[id]
        && ServedUpTo(m, services, done + [id]) == Served(before, services, id)
    {
    }

    static lemma SomeServiceChanges(m: map<ProgramId, Schedule>, services: map<nat, Service>)
      ensures WithServices(m, services) != m <==> exists id :: id in m && ServiceChanges(m, services)(id)
    {
      if id :| id in m && ServiceChanges(m, services)(id) {
        assert id !in WithServices(m, services) || WithServices(m, services)[id] != m[id];
      }
    }

    method AnnounceRemoved(removed: seq<ProgramId>)
      modifies this`recorders, this`outbox
      ensures recorders == map id | id in old(recorders) ::
        if id in removed then Recorder.Recorder(None) else old(recorders)[id]
      ensures outbox == old(outbox) + Failures(removed, RemovedFromEpg)
    {
      ghost var before := recorders;
      for i := 0 to |removed|
        invariant recorders == map id | id in before ::
          if id in removed[..i] then Recorder.Recorder(None) else before[id]
        invariant outbox == old(outbox) + Failures(removed[..i], RemovedFromEpg)
      {
        assert removed[..i + 1] == removed[..i] + [removed[i]];
        FailuresSnoc(removed[..i], removed[i], RemovedFromEpg);
        StopRecorder(removed[i]);
        Emit(RecordingFailed(removed[i], RemovedFromEpg));
      }
      assert removed[..|removed|] == removed;
    }

    method HandleServicesUpdated(services: map<nat, Service>, order: seq<ProgramId>)
      requires Valid() && Enumerates(order, schedules)
      modifies this
      ensures Valid()
      ensures Performs(HandleServices(old(View()), services, order))
    {
      var changed, removed := UpdateServices(services, order);
      AnnounceRemoved(removed);
      if changed { RebuildQueue(); }
    }

    // What the programs of a service mean for the schedules, before those that
    // are gone are moved to the history.
    method UpdatePrograms(now: int, service: nat, ps: map<nat, Program>, order: seq<ProgramId>)
      returns (changed: bool, gone: seq<ProgramId>, moved: seq<ProgramId>)
      requires Enumerates(order, schedules)
      modifies this`schedules
      ensures gone == Select(order, IsGone(old(View()), now, service, ps))
      ensures moved == Select(order, IsMoved(old(View()), now, service, ps))
      ensures schedules == BeforeRemoval(old(schedules), now, service, ps)
      ensures changed <==> exists id :: id in old(schedules) && ProgramChanges(old(schedules), now, service, ps)(id)
    {
      ghost var s, m := View(), schedules;
      changed, gone, moved := false, [], [];
      UpdatedEnds(m, now, service, ps, order);
      for i := 0 to |order|
        invariant gone == Select(order[..i], IsGone(s, now, service, ps))
        invariant moved == Select(order[..i], IsMoved(s, now, service, ps))
        invariant schedules == UpdatedUpTo(m, now, service, ps, order[..i])
        invariant changed <==> Select(order[..i], ProgramChanges(m, now, service, ps)) != []
      {
        var id := order[i];
        assert id in order && id !in order[..i];
        UpdateOne(s, now, service, ps, order, i);
        var did, isGone, isMoved := UpdateProgram(id, now, service, ps);
        if isGone { gone := gone + [id]; }
        if isMoved { moved := moved + [id]; }
        changed := changed || did;
      }
      assert order[..|order|] == order;
    }

    static lemma UpdatedEnds(
      m: map<ProgramId, Schedule>, now: int, service: nat, ps: map<nat, Program>, order: seq<ProgramId>)
      requires Enumerates(order, m)
      ensures UpdatedUpTo(m, now, service, ps, []) == m
      ensures UpdatedUpTo(m, now, service, ps, order) == BeforeRemoval(m, now, service, ps)
      ensures Select(order, ProgramChanges(m, now, service, ps)) != [] <==>
        exists id :: id in m && ProgramChanges(m, now, service, ps)(id)
    {
      SelectedSome(order, m, ProgramChanges(m, now, service, ps));
    }

    static function ProgramChanges(m: map<ProgramId, Schedule>, now: int, service: nat, ps: map<nat, Program>)
      : ProgramId -> bool
    {
      id => id in m && !EpgVerdictOf(m[id], id, now, service, ps).Untouched?
    }

    static function Reported(c: Schedule, id: ProgramId, now: int, service: nat, ps: map<nat, Program>): Schedule {
      match EpgVerdictOf(c, id, now, service, ps)
      case Untouched | Gone => c
      case Updated => c.(program := ps[id.eid])
      case Moved => c.(program := ps[id.eid], state := Scheduled)
    }

    static function UpdatedUpTo(
      m: map<ProgramId, Schedule>, now: int, service: nat, ps: map<nat, Program>, done: seq<ProgramId>)
      : map<ProgramId, Schedule>
    {
      map id | id in m :: if id in done then Reported(m[id], id, now, service, ps) else m[id]
    }

    static lemma UpdateOne(s: State, now: int, service: nat, ps: map<nat, Program>, order: seq<ProgramId>, i: nat)
      requires i < |order| && Distinct(order) && order[i] in s.schedules
      ensures
        var m, id := s.schedules, order[i];
        var before := UpdatedUpTo(m, now, service, ps, order[..i]);
        && before[id] == m[id]
        && UpdatedUpTo(m, now, service, ps, order[..i + 1]) == before[id := Reported(m[id], id, now, service, ps)]
      ensures Select(order[..i + 1], IsGone(s, now, service, ps)) ==
        Select(order[..i], IsGone(s, now, service, ps)) +
        if EpgVerdictOf(s.schedules[order[i]], order[i], now, service, ps).Gone? then [order[i]] else []
      ensures Select(order[..i + 1], IsMoved(s, now, service, ps)) ==
        Select(order[..i], IsMoved(s, now, service, ps)) +
        if EpgVerdictOf(s.schedules[order[i]], order[i], now, service, ps).Moved? then [order[i]] else []
      ensures Select(order[..i + 1], ProgramChanges(s.schedules, now, service, ps)) ==
        Select(order[..i], ProgramChanges(s.schedules, now, service, ps)) +
        if EpgVerdictOf(s.schedules[order[i]], order[i], now, service, ps).Untouched? then [] else [order[i]]
    {
      SelectNext(order, i, IsGone(s, now, service, ps));
      SelectNext(order, i, IsMoved(s, now, service, ps));
      SelectNext(order, i, ProgramChanges(s.schedules, now, service, ps));
      assert order[..i + 1] == order[..i] + [order[i]];
      UpdateOneMore(s.schedules, now, service, ps, order[..i], order[i]);
    }

    static lemma UpdateOneMore(
      m: map<ProgramId, Schedule>, now: int, service: nat, ps: map<nat, Program>, done: seq<ProgramId>, id: ProgramId)
      requires id in m && id !in done
      ensures
        var before := UpdatedUpTo(m, now, service, ps, done);
        && before[id] == m[id]
        && UpdatedUpTo(m, now, service, ps, done + [id]) == before[id := Reported(m[id], id, now, service, ps)]
    {
    }

    method UpdateProgram(id: ProgramId, now: int, service: nat, ps: map<nat, Program>)
      returns (changed: bool, gone: bool, moved: bool)
      requires id in schedules
      modifies this`schedules
      ensures schedules == old(schedules)[id := Reported(old(schedules)[id], id, now, service, ps)]
      ensures changed <==> !EpgVerdictOf(old(schedules)[id], id, now, service, ps).Untouched?
      ensures gone <==> EpgVerdictOf(old(schedules)[id], id, now, service, ps).Gone?
      ensures moved <==> EpgVerdictOf(old(schedules)[id], id, now, service, ps).Moved?
    {
      changed, gone, moved := false, false, false;
      var c := schedules[id];
      if id.service != service || c.state.Recording? { return; }
      if id.eid !in ps { return true, true, false; }
      var p := ps[id.eid];
      var end := p.EndAt();
      if end.Some? && end.value > now {
        if p.startAt != c.program.startAt {
          c := c.(state := Scheduled);
          moved := true;
        }
        schedules := schedules[id := c.(program := p)];
        changed := true;
      }
    }

    static function BeforeRemoval(m: map<ProgramId, Schedule>, now: int, service: nat, ps: map<nat, Program>)
      : map<ProgramId, Schedule>
    {
      map id | id in m :: Reported(m[id], id, now, service, ps)
    }

    method FailGone(gone: seq<ProgramId>)
      requires Distinct(gone) && forall id | id in gone :: id in schedules
      modifies this`schedules, this`history, this`outbox
      ensures schedules == old(schedules) - SetOf(gone)
      ensures history == old(history) + Entries(old(schedules), gone, RemovedFromEpgFailed)
      ensures outbox == old(outbox) + Failures(gone, RemovedFromEpg)
    {
      ghost var m := schedules;
      for i := 0 to |gone|
        invariant schedules == m - SetOf(gone[..i])
        invariant history == old(history) + Entries(m, gone[..i], RemovedFromEpgFailed)
        invariant outbox == old(outbox) + Failures(gone[..i], RemovedFromEpg)
      {
        var id := gone[i];
        assert id in gone && id !in SetOf(gone[..i]);
        assert gone[..i + 1] == gone[..i] + [id];
        EntriesSnoc(m, gone[..i], id, RemovedFromEpgFailed);
        FailuresSnoc(gone[..i], id, RemovedFromEpg);
        var c := schedules[id];
        schedules := schedules - {id};
        history := history + [c.(state := Failed, failure := Some(RemovedFromEpg))];
        Emit(RecordingFailed(id, RemovedFromEpg));
      }
      assert gone[..|gone|] == gone;
    }

    method AnnounceMoved(moved: seq<ProgramId>)
      modifies this`outbox
      ensures outbox == old(outbox) + Rescheduled(moved)
    {
      for i := 0 to |moved|
        invariant outbox == old(outbox) + Rescheduled(moved[..i])
      {
        Emit(RecordingRescheduled(moved[i]));
        assert Rescheduled(moved[..i + 1]) == Rescheduled(moved[..i]) + [RecordingRescheduled(moved[i])];
      }
      assert moved[..|moved|] == moved;
    }

    static lemma RemovalLeaves(
      s: State, now: int, service: nat, ps: map<nat, Program>, order: seq<ProgramId>)
      requires Enumerates(order, s.schedules)
      ensures
        var gone := Select(order, IsGone(s, now, service, ps));
        var m := BeforeRemoval(s.schedules, now, service, ps);
        && (forall id | id in gone :: id in m)
        && m - SetOf(gone) == WithPrograms(s.schedules, now, service, ps)
        && Entries(m, gone, RemovedFromEpgFailed) == Entries(s.schedules, gone, RemovedFromEpgFailed)
    {
      var gone := Select(order, IsGone(s, now, service, ps));
      var m := BeforeRemoval(s.schedules, now, service, ps);
      assert forall id :: id in gone <==> IsGone(s, now, service, ps)(id);
      assert forall id | id in gone :: m[id] == s.schedules[id];
      RemovalIsWithPrograms(s.schedules, now, service, ps, SetOf(gone));
    }

    static lemma RemovalIsWithPrograms(
      m: map<ProgramId, Schedule>, now: int, service: nat, ps: map<nat, Program>, gone: set<ProgramId>)
      requires forall id | id in m :: id in gone <==> EpgVerdictOf(m[id], id, now, service, ps).Gone?
      ensures BeforeRemoval(m, now, service, ps) - gone == WithPrograms(m, now, service, ps)
    {
    }

    method HandleProgramsUpdated(now: int, service: nat, programs: Option<map<nat, Program>>, order: seq<ProgramId>)
      requires Valid() && WellFormed(View(), ProgramsUpdated(now, service, programs, order))
      modifies this
      ensures Valid()
      ensures Performs(HandlePrograms(old(View()), now, service, programs, order))
    {
      if programs.None? { return; }
      ghost var s := View();
      ProgramsStayValid(s.schedules, now, service, programs.value);
      var changed := RunProgramsUpdate(now, service, programs.value, order);
      if changed { RebuildQueue(); }
    }

    static lemma ProgramsStayValid(m: map<ProgramId, Schedule>, now: int, service: nat, ps: map<nat, Program>)
      requires Timed(m) && Keyed(m) && forall e | e in ps :: ps[e].id == ProgramId(service, e)
      ensures Timed(WithPrograms(m, now, service, ps)) && Keyed(WithPrograms(m, now, service, ps))
    {
    }

    method RunProgramsUpdate(now: int, service: nat, ps: map<nat, Program>, order: seq<ProgramId>)
      returns (changed: bool)
      requires Enumerates(order, schedules)
      modifies this`schedules, this`history, this`outbox
      ensures schedules == WithPrograms(old(schedules), now, service, ps)
      ensures history == old(history) +
        Entries(old(schedules), Select(order, IsGone(old(View()), now, service, ps)), RemovedFromEpgFailed)
      ensures outbox == old(outbox) +
        (Failures(Select(order, IsGone(old(View()), now, service, ps)), RemovedFromEpg) +
         Rescheduled(Select(order, IsMoved(old(View()), now, service, ps))))
      ensures changed <==> exists id :: id in old(schedules) && ProgramChanges(old(schedules), now, service, ps)(id)
    {
      ghost var s, sent := View(), outbox;
      var gone, moved;
      changed, gone, moved := UpdatePrograms(now, service, ps, order);
      SelectDistinct(order, IsGone(s, now, service, ps));
      RemovalLeaves(s, now, service, ps, order);
      FailGone(gone);
      AnnounceMoved(moved);
      AppendAssociative(sent, Failures(gone, RemovedFromEpg), Rescheduled(moved));
    }

    method HandleOnairChanged(current: Option<Program>, next: Option<Program>, store: RecordStore)
      requires Valid()
      modifies this
      ensures Valid()
      ensures Performs(HandleOnair(old(View()), current, next, store))
    {
      var changed := UpdateByOnairPair(current, next, store);
      if changed { RebuildQueue(); }
    }
  }
}
