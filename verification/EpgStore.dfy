// `EpgSchedule` as the object it is: nine units updated in place, and the
// programs last collected from them.
module EpgStores {
  import opened Models
  import opened EpgSchedules
  import opened EpgPrograms

  lemma UsableSnoc(es: seq<Event>, e: Event)
    ensures Usable(es + [e]) == Usable(es) + if e.startTime.Some? && e.duration.Some? then [e] else []
  {
    assert (es + [e])[..|es|] == es;
  }

  class EpgSchedule {
    const service: nat
    const units: array<Unit>
    var startIndex: nat
    var programs: Programs

    constructor (service: nat)
      ensures this.service == service && fresh(units) && Valid()
      ensures View() == NewSchedule() && programs == Ordered([], map[])
    {
      this.service := service;
      units := new Unit[9](i => seq(8, j => EMPTY_SEGMENT));
      startIndex := 0;
      programs := Ordered([], map[]);
      new;
      assert units[..] == NewSchedule().units;
    }

    predicate Valid()
      reads this
    {
      units.Length == MAX_DAYS && startIndex < MAX_DAYS
    }

    ghost function View(): Schedule
      requires Valid()
      reads this, units
    {
      Schedule(units[..], startIndex)
    }

    // The remainder is negative if `day` is after today.
    static method StartFrom(i: nat, day: int, today: int) returns (start: nat)
      ensures start == StartFor(i, day, today) < MAX_DAYS
    {
      var delta := Remainder(today - day, MAX_DAYS);
      RemainderWraps(today - day);
      if delta < 0 { delta := delta + MAX_DAYS; }
      start := (i + delta) % MAX_DAYS;
    }

    static lemma EarliestNext(ds: seq<Dated>, i: nat, next: nat)
      requires i < |ds| && next == i + 1
      ensures
        var r := Earliest(ds, i);
        Earliest(ds, next) == if ds[i].Date? && (r.None? || ds[i].day < ds[r.value].day) then Some(i) else r
    {
      var n := next - 1;
      assert n == i;
    }

    // The first `n` dates have been looked at.
    static ghost predicate Scanned(ds: seq<Dated>, n: nat, earliest: Option<nat>, first: int)
      requires n <= |ds|
    {
      && earliest == Earliest(ds, n)
      && (earliest.Some? ==> first == ds[earliest.value].day)
      && forall j | 0 <= j < n :: !ds[j].Panic?
    }

    // Whether `d`, the date of unit `i`, is earlier than those before.
    static method Earlier(earliest: Option<nat>, first: int, d: Dated, i: nat, ghost ds: seq<Dated>, ghost next: nat)
      returns (r: Option<nat>, day: int)
      requires i < |ds| && next == i + 1 && d == ds[i] && !d.Panic?
      requires Scanned(ds, i, earliest, first)
      ensures Scanned(ds, next, r, day)
    {
      EarliestNext(ds, i, next);
      r, day := earliest, first;
      if d.Date? && (earliest.None? || d.day < first) { r, day := Some(i), d.day; }
    }

    method EarliestUnit(ghost ds: seq<Dated>) returns (panicked: bool, earliest: Option<nat>, first: int)
      requires Valid() && |ds| == MAX_DAYS && forall i | 0 <= i < MAX_DAYS :: ds[i] == UnitDate(units[i])
      ensures panicked ==> exists i :: 0 <= i < MAX_DAYS && ds[i].Panic?
      ensures !panicked ==> Scanned(ds, |ds|, earliest, first)
    {
      panicked, earliest, first := false, None, 0;
      for i := 0 to units.Length
        invariant !panicked && Scanned(ds, i, earliest, first)
      {
        var d := UnitDate(units[i]);
        assert d == ds[i];
        if d.Panic? {
          panicked := true;
          return;
        }
        earliest, first := Earlier(earliest, first, d, i, ds, i + 1);
      }
    }

    // `panicked` if the first event of some day has no start time.
    method UpdateStartIndex(today: int) returns (panicked: bool)
      requires Valid()
      modifies this`startIndex
      ensures Valid()
      ensures panicked <==> PreparePanics(old(View()))
      ensures !panicked ==> View() == Prepared(old(View()), today)
    {
      var earliest, first;
      ghost var ds := UnitDates(View().units);
      panicked, earliest, first := EarliestUnit(ds);
      assert forall i | 0 <= i < MAX_DAYS :: ds[i] == UnitDate(View().units[i]);
      if panicked { return; }
      if earliest.Some? {
        startIndex := StartFrom(earliest.value, first, today);
      } else {
        startIndex := 0;
      }
    }

    static method UpdateSections(ss: Sections, section: EitSection) returns (r: Sections)
      ensures r == UpdatedSections(ss, section)
    {
      r := ss;
      var n := section.LastSectionIndex() + 1;
      for i := n to NUM_SECTIONS
        invariant forall k | 0 <= k < NUM_SECTIONS :: r[k] == if n <= k < i then None else ss[k]
      {
        r := r[i := None];
      }
      r := r[section.SectionIndex() := Some(Section(section.version, section.events))];
    }

    // Tables other than those of EIT[schedule] make the source panic.
    method Update(section: EitSection) returns (panicked: bool)
      requires Valid()
      modifies units
      ensures Valid()
      ensures panicked <==> section.tableId < 0x50 || section.tableId > 0x5F
      ensures !panicked ==> View() == Updated(old(View()), section)
    {
      if section.tableId < 0x50 || section.tableId > 0x5F { return true; }
      var i := (startIndex + section.UnitIndex()) % MAX_DAYS;
      var j := section.SegmentIndexInUnit();
      var g := units[i][j];
      if section.IsBasic() {
        var ss := UpdateSections(g.basic, section);
        g := g.(basic := ss);
      } else {
        var ss := UpdateSections(g.extended, section);
        g := g.(extended := ss);
      }
      ghost var before := units[..];
      units[i] := units[i][j := g];
      assert units[..] == before[i := UpdatedUnit(before[i], section)];
      panicked := false;
    }

    // Collecting.  `seen` are the events visited so far.

    static method Describe(program: EpgProgram, d: Descriptor) returns (p: EpgProgram)
      ensures p == Applied(program, d)
    {
      p := program;
      match d {
        case ShortEvent(name, text) => p := p.(name := name, description := text);
        case Component(_, _, _) => p := p.(video := Some(d));
        case AudioComponent(tag, audio) => p := p.(audios := p.audios[tag := audio]);
        case Content(genres) => p := p.(genres := Some(genres));
        case Series(_, _, _) => p := p.(series := Some(d));
        case EventGroup(_, _) => p := p.(eventGroup := Some(d));
        case ExtendedEvent(items) => p := p.(extended := Some(ItemMap(items)));
      }
    }

    method EnterEvent(e: Event, ps: Programs, ghost seen: seq<Event>) returns (r: Programs)
      requires ps == Collected(service, seen)
      ensures r == Collected(service, seen + [e])
    {
      CollectedSnoc(service, seen, e);
      var p := if e.id in ps.values then ps.values[e.id] else NewProgram(ProgramId(service, e.id));
      p := p.(startAt := e.startTime, duration := e.duration, scrambled := e.scrambled);
      ghost var p0 := p;
      for i := 0 to |e.descriptors|
        invariant p == AppliedAll(p0, e.descriptors[..i])
      {
        assert e.descriptors[..i + 1][..i] == e.descriptors[..i];
        p := Describe(p, e.descriptors[i]);
      }
      assert e.descriptors[..|e.descriptors|] == e.descriptors;
      r := ps.Put(e.id, p);
    }

    method CollectSection(s: Option<Section>, ps: Programs, ghost seen: seq<Event>) returns (r: Programs)
      requires ps == Collected(service, seen)
      ensures r == Collected(service, seen + SectionEvents(s))
    {
      r := ps;
      if s.None? {
        assert seen + [] == seen;
        return;
      }
      var es := s.value.events;
      assert seen + Usable(es[..0]) == seen;
      for i := 0 to |es|
        invariant r == Collected(service, seen + Usable(es[..i]))
      {
        assert es[..i + 1] == es[..i] + [es[i]];
        UsableSnoc(es[..i], es[i]);
        if es[i].startTime.Some? && es[i].duration.Some? {
          r := EnterEvent(es[i], r, seen + Usable(es[..i]));
          AppendAssociative(seen, Usable(es[..i]), [es[i]]);
        } else {
          assert Usable(es[..i]) + [] == Usable(es[..i]);
        }
      }
      assert es[..|es|] == es;
    }

    static lemma SectionsNext(ss: seq<Option<Section>>, i: nat, next: nat, seen: seq<Event>)
      requires i < |ss| && next == i + 1
      ensures seen + SectionsEvents(ss[..next]) == seen + SectionsEvents(ss[..i]) + SectionEvents(ss[i])
    {
      TakeNext(ss, i, next);
      AppendAssociative(seen, SectionsEvents(ss[..i]), SectionEvents(ss[i]));
    }

    method CollectSections(ss: seq<Option<Section>>, ps: Programs, ghost seen: seq<Event>) returns (r: Programs)
      requires ps == Collected(service, seen)
      ensures r == Collected(service, seen + SectionsEvents(ss))
    {
      r := ps;
      assert seen + SectionsEvents(ss[..0]) == seen;
      for i := 0 to |ss|
        invariant r == Collected(service, seen + SectionsEvents(ss[..i]))
      {
        SectionsNext(ss, i, i + 1, seen);
        r := CollectSection(ss[i], r, seen + SectionsEvents(ss[..i]));
      }
      assert ss[..|ss|] == ss;
    }

    method CollectSegment(g: Segment, ps: Programs, ghost seen: seq<Event>) returns (r: Programs)
      requires ps == Collected(service, seen)
      ensures r == Collected(service, seen + SegmentEvents(g))
    {
      r := CollectSections(g.extended, ps, seen);
      r := CollectSections(g.basic, r, seen + SectionsEvents(g.extended));
      AppendAssociative(seen, SectionsEvents(g.extended), SectionsEvents(g.basic));
    }

    static lemma SegmentsNext(gs: seq<Segment>, i: nat, next: nat, seen: seq<Event>)
      requires i < |gs| && next == i + 1
      ensures seen + SegmentsEvents(gs[..next]) == seen + SegmentsEvents(gs[..i]) + SegmentEvents(gs[i])
    {
      TakeNext(gs, i, next);
      AppendAssociative(seen, SegmentsEvents(gs[..i]), SegmentEvents(gs[i]));
    }

    method CollectUnit(u: seq<Segment>, ps: Programs, ghost seen: seq<Event>) returns (r: Programs)
      requires ps == Collected(service, seen)
      ensures r == Collected(service, seen + SegmentsEvents(u))
    {
      r := ps;
      assert seen + SegmentsEvents(u[..0]) == seen;
      for i := 0 to |u|
        invariant r == Collected(service, seen + SegmentsEvents(u[..i]))
      {
        SegmentsNext(u, i, i + 1, seen);
        r := CollectSegment(u[i], r, seen + SegmentsEvents(u[..i]));
      }
      assert u[..|u|] == u;
    }

    static lemma NextUnit(s: Schedule, n: nat, next: nat, i: nat, start: nat)
      requires s.startIndex < MAX_DAYS && start == (if s.startIndex > 0 then s.startIndex - 1 else MAX_DAYS - 1)
      requires i == (start + n) % MAX_DAYS && next == n + 1
      ensures UnitsEvents(s, next) == UnitsEvents(s, n) + SegmentsEvents(s.units[i])
    {
      var m := next - 1;
      assert m == n && UnitVisited(s, n) == i;
    }

    method CollectNth(s: Schedule, n: nat, start: nat, ps: Programs, ghost next: nat) returns (r: Programs)
      requires s.startIndex < MAX_DAYS && start == (if s.startIndex > 0 then s.startIndex - 1 else MAX_DAYS - 1)
      requires next == n + 1 && ps == Collected(service, UnitsEvents(s, n))
      ensures r == Collected(service, UnitsEvents(s, next))
    {
      var i := (start + n) % MAX_DAYS;
      NextUnit(s, n, next, i, start);
      r := CollectUnit(s.units[i], ps, UnitsEvents(s, n));
    }

    // Visits all units, that of yesterday first.
    method CollectUnits(s: Schedule, days: nat) returns (ps: Programs)
      requires s.startIndex < MAX_DAYS
      ensures ps == Collected(service, UnitsEvents(s, days))
    {
      var start := if s.startIndex > 0 then s.startIndex - 1 else MAX_DAYS - 1;
      ps := Ordered([], map[]);
      assert UnitsEvents(s, 0) == [];
      for n := 0 to days
        invariant ps == Collected(service, UnitsEvents(s, n))
      {
        ps := CollectNth(s, n, start, ps, n + 1);
      }
    }

    method CollectPrograms()
      requires Valid()
      modifies this`programs
      ensures Valid() && View() == old(View())
      ensures programs == Collected(service, AllEvents(View()))
      ensures forall eid :: eid in programs.values <==> exists p :: Holds(View(), p) && EventAt(View(), p).id == eid
    {
      programs := CollectUnits(Schedule(units[..], startIndex), units.Length);
      forall eid ensures eid in programs.values <==> exists p :: Holds(View(), p) && EventAt(View(), p).id == eid {
        ProgramsAreThoseStored(View(), service, eid);
      }
    }
  }
}
