// The programs of a schedule, collected from its sections,
// mirakc-core/src/epg/mod.rs.
module EpgPrograms {
  import opened Models
  import opened EpgSchedules

  // A map that keeps the order in which its keys were inserted.
  datatype Ordered<K, V> = Ordered(keys: seq<K>, values: map<K, V>) {
    function Put(k: K, v: V): Ordered<K, V> {
      Ordered(if k in values then keys else keys + [k], values[k := v])
    }
  }

  datatype EpgProgram = EpgProgram(
    id: ProgramId,
    startAt: Option<int>,
    duration: Option<int>,
    scrambled: bool,
    name: Option<string>,
    description: Option<string>,
    extended: Option<Ordered<string, string>>,
    video: Option<Descriptor>,
    audios: map<Octet, AudioFields>,
    genres: Option<seq<(Octet, Octet, Octet, Octet)>>,
    series: Option<Descriptor>,
    eventGroup: Option<Descriptor>)

  type Programs = Ordered<nat, EpgProgram>

  function NewProgram(id: ProgramId): EpgProgram {
    EpgProgram(id, None, None, false, None, None, None, None, map[], None, None, None)
  }

  function ItemMap(items: seq<(string, string)>): Ordered<string, string> {
    if items == [] then Ordered([], map[])
    else
      var (k, v) := items[|items| - 1];
      ItemMap(items[..|items| - 1]).Put(k, v)
  }

  function Applied(p: EpgProgram, d: Descriptor): EpgProgram {
    match d
    case ShortEvent(name, text) => p.(name := name, description := text)
    case Component(_, _, _) => p.(video := Some(d))
    case AudioComponent(tag, audio) => p.(audios := p.audios[tag := audio])
    case Content(genres) => p.(genres := Some(genres))
    case Series(_, _, _) => p.(series := Some(d))
    case EventGroup(_, _) => p.(eventGroup := Some(d))
    case ExtendedEvent(items) => p.(extended := Some(ItemMap(items)))
  }

  function AppliedAll(p: EpgProgram, ds: seq<Descriptor>): EpgProgram {
    if ds == [] then p else Applied(AppliedAll(p, ds[..|ds| - 1]), ds[|ds| - 1])
  }

  function Timed(p: EpgProgram, e: Event): EpgProgram {
    p.(startAt := e.startTime, duration := e.duration, scrambled := e.scrambled)
  }

  function UpdatedBy(p: EpgProgram, e: Event): EpgProgram { AppliedAll(Timed(p, e), e.descriptors) }

  // The program of the event, new if it is not yet known, updated by the event.
  function Entered(service: nat, m: Programs, e: Event): Programs {
    var p := if e.id in m.values then m.values[e.id] else NewProgram(ProgramId(service, e.id));
    m.Put(e.id, UpdatedBy(p, e))
  }

  // What visiting the events in this order yields.
  function Collected(service: nat, es: seq<Event>): Programs {
    if es == [] then Ordered([], map[]) else Entered(service, Collected(service, es[..|es| - 1]), es[|es| - 1])
  }

  lemma CollectedSnoc(service: nat, es: seq<Event>, e: Event)
    ensures Collected(service, es + [e]) == Entered(service, Collected(service, es), e)
  {
    assert (es + [e])[..|es|] == es;
  }

  // Visiting order

  function Usable(es: seq<Event>): seq<Event> {
    if es == [] then []
    else
      var e := es[|es| - 1];
      Usable(es[..|es| - 1]) + if e.startTime.Some? && e.duration.Some? then [e] else []
  }

  function SectionEvents(s: Option<Section>): seq<Event> {
    if s.None? then [] else Usable(s.value.events)
  }

  function SectionsEvents(ss: seq<Option<Section>>): seq<Event> {
    if ss == [] then [] else SectionsEvents(ss[..|ss| - 1]) + SectionEvents(ss[|ss| - 1])
  }

  // Extended sections come first.
  function SegmentEvents(g: Segment): seq<Event> {
    SectionsEvents(g.extended) + SectionsEvents(g.basic)
  }

  function SegmentsEvents(gs: seq<Segment>): seq<Event> {
    if gs == [] then [] else SegmentsEvents(gs[..|gs| - 1]) + SegmentEvents(gs[|gs| - 1])
  }

  // The unit visited after `n` others; the first is that of the previous day.
  function UnitVisited(s: Schedule, n: nat): nat {
    ((if s.startIndex > 0 then s.startIndex - 1 else MAX_DAYS - 1) + n) % MAX_DAYS
  }

  function UnitsEvents(s: Schedule, n: nat): seq<Event> {
    if n == 0 then [] else UnitsEvents(s, n - 1) + SegmentsEvents(s.units[UnitVisited(s, n - 1)])
  }

  function AllEvents(s: Schedule): seq<Event> { UnitsEvents(s, |s.units|) }

  // The units are visited once each, yesterday first and then from today on.
  lemma VisitsInOrder(s: Schedule, n: nat)
    requires s.startIndex < MAX_DAYS && n < MAX_DAYS
    ensures UnitVisited(s, n) ==
      if n == 0 then (s.startIndex + MAX_DAYS - 1) % MAX_DAYS else (s.startIndex + n - 1) % MAX_DAYS
    ensures forall m | 0 <= m < n :: UnitVisited(s, m) != UnitVisited(s, n)
  {
  }

  // Where an event is: how many days after yesterday its unit is, its segment, whether
  // its section is a basic one, the section, and its index in it.
  datatype Place = Place(unit: nat, segment: nat, basic: bool, section: nat, index: nat) {
    // Extended sections come before basic ones.
    predicate Precedes(other: Place) {
      unit < other.unit || (unit == other.unit &&
        (segment < other.segment || (segment == other.segment &&
          ((!basic && other.basic) || (basic == other.basic &&
            (section < other.section || (section == other.section && index < other.index)))))))
    }
  }

  // The section of a place, if it is stored.
  function SectionAt(s: Schedule, p: Place): Option<Section> {
    if p.unit < 9 && p.segment < 8 && p.section < 8 then
      var g := s.units[(s.startIndex + 8 + p.unit) % 9][p.segment];
      if p.basic then g.basic[p.section] else g.extended[p.section]
    else None
  }

  // There is an event at the place, and it has a start time and a duration.
  predicate Holds(s: Schedule, p: Place) {
    && SectionAt(s, p).Some?
    && p.index < |SectionAt(s, p).value.events|
    && SectionAt(s, p).value.events[p.index].startTime.Some?
    && SectionAt(s, p).value.events[p.index].duration.Some?
  }

  function EventAt(s: Schedule, p: Place): Event
    requires Holds(s, p)
  {
    SectionAt(s, p).value.events[p.index]
  }

  // `es` are the events at the places `ps`, which are all within `scope`, in order.
  ghost predicate Visits(s: Schedule, es: seq<Event>, ps: seq<Place>, scope: Scope) {
    && |es| == |ps|
    && (forall i | 0 <= i < |ps| :: VisitsAt(s, es, ps, scope, i))
    && (forall i, j | 0 <= i < j < |ps| :: ps[i].Precedes(ps[j]))
    && (forall p | Holds(s, p) && scope.Has(p) :: p in ps)
  }

  // A part of the schedule: the first `m` events of a section, one event if it can
  // be used, one section, the first `m` sections of a kind, one segment, the first
  // `m` segments of a unit, the first `m` units.
  datatype Scope =
    | Positions(place: Place, m: nat)
    | One(place: Place, usable: bool)
    | OneSection(n: nat, j: nat, b: bool, k: nat)
    | Kind(n: nat, j: nat, b: bool, m: nat)
    | OneSegment(n: nat, j: nat)
    | Segments(n: nat, m: nat)
    | Units(m: nat)
  {
    predicate Has(p: Place) {
      match this
      case Positions(q, m) =>
        p.unit == q.unit && p.segment == q.segment && p.basic == q.basic && p.section == q.section && p.index < m
      case One(q, usable) => p == q && usable
      case OneSection(n, j, b, k) => p.unit == n && p.segment == j && p.basic == b && p.section == k
      case Kind(n, j, b, m) => p.unit == n && p.segment == j && p.basic == b && p.section < m
      case OneSegment(n, j) => p.unit == n && p.segment == j
      case Segments(n, m) => p.unit == n && p.segment < m
      case Units(m) => p.unit < m
    }
  }

  // `c` has the stored places of `a` and of `b`, and those of `a` come first.
  ghost predicate Joins(s: Schedule, a: Scope, b: Scope, c: Scope) {
    && (forall p, q | Holds(s, p) && Holds(s, q) && a.Has(p) && b.Has(q) :: p.Precedes(q))
    && (forall p | Holds(s, p) :: c.Has(p) <==> a.Has(p) || b.Has(p))
  }

  // One part of what `Visits` says.
  ghost predicate VisitsAt(s: Schedule, es: seq<Event>, ps: seq<Place>, scope: Scope, i: nat)
    requires i < |es| == |ps|
  {
    Holds(s, ps[i]) && scope.Has(ps[i]) && es[i] == EventAt(s, ps[i])
  }

  lemma VisitsJoin(
    s: Schedule, es: seq<Event>, ps: seq<Place>, a: Scope, fs: seq<Event>, qs: seq<Place>, b: Scope, c: Scope)
    requires Visits(s, es, ps, a) && Visits(s, fs, qs, b) && Joins(s, a, b, c)
    ensures Visits(s, es + fs, ps + qs, c)
  {
    var m := |ps|;
    forall i | 0 <= i < |ps + qs| ensures VisitsAt(s, es + fs, ps + qs, c, i) {
      if i < m { assert VisitsAt(s, es, ps, a, i); } else { assert VisitsAt(s, fs, qs, b, i - m); }
    }
    forall i, j | 0 <= i < j < |ps + qs| ensures (ps + qs)[i].Precedes((ps + qs)[j]) {
      if i < m <= j { assert VisitsAt(s, es, ps, a, i) && VisitsAt(s, fs, qs, b, j - m); }
    }
    VisitsAll(s, es, ps, a, fs, qs, b, c);
  }

  lemma VisitsAll(
    s: Schedule, es: seq<Event>, ps: seq<Place>, a: Scope, fs: seq<Event>, qs: seq<Place>, b: Scope, c: Scope)
    requires Visits(s, es, ps, a) && Visits(s, fs, qs, b) && Joins(s, a, b, c)
    ensures forall p | Holds(s, p) && c.Has(p) :: p in ps + qs
  {
    forall p | Holds(s, p) && c.Has(p) ensures p in ps + qs {
      if a.Has(p) { assert p in ps; } else { assert p in qs; }
    }
  }

  lemma Rescoped(s: Schedule, es: seq<Event>, ps: seq<Place>, a: Scope, b: Scope)
    requires Visits(s, es, ps, a) && forall p | Holds(s, p) :: a.Has(p) <==> b.Has(p)
    ensures Visits(s, es, ps, b)
  {
    forall i | 0 <= i < |ps| ensures VisitsAt(s, es, ps, b, i) { assert VisitsAt(s, es, ps, a, i); }
  }

  lemma NothingVisited(s: Schedule, scope: Scope)
    requires forall p | Holds(s, p) :: !scope.Has(p)
    ensures Visits(s, [], [], scope)
  {
  }

  lemma {:induction false} SectionVisits(s: Schedule, p: Place, es: seq<Event>, m: nat) returns (ps: seq<Place>)
    requires SectionAt(s, p).Some? && es == SectionAt(s, p).value.events && m <= |es|
    ensures Visits(s, Usable(es[..m]), ps, Positions(p, m))
    decreases m
  {
    ps := [];
    if m == 0 {
      NothingVisited(s, Positions(p, m));
    } else {
      var i := m - 1;
      var before := SectionVisits(s, p, es, i);
      TakeNext(es, i, m);
      ps := PositionVisits(s, p, es[..i], es[i], es[..m], before, i, m);
    }
  }

  lemma PositionVisits(
    s: Schedule, p: Place, init: seq<Event>, e: Event, all: seq<Event>, before: seq<Place>, i: nat, m: nat)
    returns (ps: seq<Place>)
    requires SectionAt(s, p).Some? && i < |SectionAt(s, p).value.events| && m == i + 1
    requires e == SectionAt(s, p).value.events[i] && all == init + [e]
    requires Visits(s, Usable(init), before, Positions(p, i))
    ensures Visits(s, Usable(all), ps, Positions(p, m))
  {
    var q, usable := p.(index := i), e.startTime.Some? && e.duration.Some?;
    var here, event := if usable then [q] else [], if usable then [e] else [];
    UsableLast(all, init, e);
    OneVisits(s, q, e, usable, here, event);
    PositionsJoin(s, p, i, m);
    VisitsJoin(s, Usable(init), before, Positions(p, i), event, here, One(q, usable), Positions(p, m));
    ps := before + here;
  }

  lemma OneVisits(s: Schedule, q: Place, e: Event, usable: bool, here: seq<Place>, event: seq<Event>)
    requires SectionAt(s, q).Some? && q.index < |SectionAt(s, q).value.events|
    requires e == SectionAt(s, q).value.events[q.index] && usable == (e.startTime.Some? && e.duration.Some?)
    requires here == (if usable then [q] else []) && event == if usable then [e] else []
    ensures Visits(s, event, here, One(q, usable))
  {
  }

  lemma PositionsJoin(s: Schedule, p: Place, i: nat, m: nat)
    requires SectionAt(s, p).Some? && i < |SectionAt(s, p).value.events| && m == i + 1
    ensures
      var e := SectionAt(s, p).value.events[i];
      Joins(s, Positions(p, i), One(p.(index := i), e.startTime.Some? && e.duration.Some?), Positions(p, m))
  {
    forall r | Holds(s, r) && Positions(p, m).Has(r) ensures SectionAt(s, r) == SectionAt(s, p) {}
  }

  lemma UsableLast(all: seq<Event>, init: seq<Event>, e: Event)
    requires all == init + [e]
    ensures Usable(all) == Usable(init) + if e.startTime.Some? && e.duration.Some? then [e] else []
  {
    assert all[..|all| - 1] == init;
  }

  // The sections of one kind in a segment.
  function KindAt(s: Schedule, n: nat, j: nat, b: bool): Sections
    requires n < 9 && j < 8
  {
    var g := s.units[(s.startIndex + 8 + n) % 9][j];
    if b then g.basic else g.extended
  }

  lemma OneSectionVisits(s: Schedule, n: nat, j: nat, b: bool, k: nat) returns (ps: seq<Place>)
    requires n < 9 && j < 8 && k < 8
    ensures Visits(s, SectionEvents(KindAt(s, n, j, b)[k]), ps, OneSection(n, j, b, k))
  {
    var x, p := KindAt(s, n, j, b)[k], Place(n, j, b, k, 0);
    assert SectionAt(s, p) == x;
    forall q | OneSection(n, j, b, k).Has(q) ensures SectionAt(s, q) == x {}
    if x.None? {
      ps := [];
      NothingVisited(s, OneSection(n, j, b, k));
    } else {
      var es := x.value.events;
      ps := SectionVisits(s, p, es, |es|);
      TakeAll(es, |es|);
      Rescoped(s, SectionEvents(x), ps, Positions(p, |es|), OneSection(n, j, b, k));
    }
  }

  lemma {:induction false} KindVisits(s: Schedule, n: nat, j: nat, b: bool, m: nat) returns (ps: seq<Place>)
    requires n < 9 && j < 8 && m <= 8
    ensures Visits(s, SectionsEvents(KindAt(s, n, j, b)[..m]), ps, Kind(n, j, b, m))
    decreases m
  {
    var ss := KindAt(s, n, j, b);
    ps := [];
    if m == 0 {
      NothingVisited(s, Kind(n, j, b, m));
    } else {
      var k := m - 1;
      var before := KindVisits(s, n, j, b, k);
      var here := OneSectionVisits(s, n, j, b, k);
      TakeNext(ss, k, m);
      SectionsLast(ss[..m], ss[..k], ss[k]);
      VisitsJoin(s, SectionsEvents(ss[..k]), before, Kind(n, j, b, k),
                 SectionEvents(ss[k]), here, OneSection(n, j, b, k), Kind(n, j, b, m));
      ps := before + here;
    }
  }

  lemma SectionsLast(all: seq<Option<Section>>, init: seq<Option<Section>>, x: Option<Section>)
    requires all == init + [x]
    ensures SectionsEvents(all) == SectionsEvents(init) + SectionEvents(x)
  {
    assert all[..|all| - 1] == init;
  }

  lemma SegmentVisits(s: Schedule, n: nat, j: nat) returns (ps: seq<Place>)
    requires n < 9 && j < 8
    ensures Visits(s, SegmentEvents(s.units[(s.startIndex + 8 + n) % 9][j]), ps, OneSegment(n, j))
  {
    var g := s.units[(s.startIndex + 8 + n) % 9][j];
    var qs := KindVisits(s, n, j, false, 8);
    var rs := KindVisits(s, n, j, true, 8);
    TakeAll(g.extended, 8);
    TakeAll(g.basic, 8);
    VisitsJoin(s, SectionsEvents(g.extended), qs, Kind(n, j, false, 8),
               SectionsEvents(g.basic), rs, Kind(n, j, true, 8), OneSegment(n, j));
    ps := qs + rs;
  }

  lemma SegmentsLast(all: seq<Segment>, init: seq<Segment>, g: Segment)
    requires all == init + [g]
    ensures SegmentsEvents(all) == SegmentsEvents(init) + SegmentEvents(g)
  {
    assert all[..|all| - 1] == init;
  }

  lemma {:induction false} UnitVisits(s: Schedule, n: nat, m: nat) returns (ps: seq<Place>)
    requires n < 9 && m <= 8
    ensures Visits(s, SegmentsEvents(s.units[(s.startIndex + 8 + n) % 9][..m]), ps, Segments(n, m))
    decreases m
  {
    var u := s.units[(s.startIndex + 8 + n) % 9];
    ps := [];
    if m == 0 {
      NothingVisited(s, Segments(n, m));
    } else {
      var j := m - 1;
      var before := UnitVisits(s, n, j);
      var here := SegmentVisits(s, n, j);
      TakeNext(u, j, m);
      SegmentsLast(u[..m], u[..j], u[j]);
      SegmentsJoin(s, n, j, m);
      VisitsJoin(s, SegmentsEvents(u[..j]), before, Segments(n, j),
                 SegmentEvents(u[j]), here, OneSegment(n, j), Segments(n, m));
      ps := before + here;
    }
  }

  lemma SegmentsJoin(s: Schedule, n: nat, j: nat, m: nat)
    requires m == j + 1
    ensures Joins(s, Segments(n, j), OneSegment(n, j), Segments(n, m))
  {
  }

  lemma UnitsJoin(s: Schedule, n: nat, m: nat)
    requires m == n + 1
    ensures Joins(s, Units(n), Segments(n, 8), Units(m))
  {
  }

  lemma UnitVisitedIs(s: Schedule, n: nat)
    requires s.startIndex < 9 && n < 9
    ensures UnitVisited(s, n) == (s.startIndex + 8 + n) % 9
  {
  }

  lemma {:induction false} UnitsVisit(s: Schedule, m: nat) returns (ps: seq<Place>)
    requires s.startIndex < 9 && m <= 9
    ensures Visits(s, UnitsEvents(s, m), ps, Units(m))
    decreases m
  {
    ps := [];
    if m == 0 {
      NothingVisited(s, Units(m));
    } else {
      var n := m - 1;
      var before := UnitsVisit(s, n);
      var here := UnitVisits(s, n, 8);
      UnitVisitedIs(s, n);
      var u := s.units[(s.startIndex + 8 + n) % 9];
      TakeAll(u, 8);
      UnitsJoin(s, n, m);
      VisitsJoin(s, UnitsEvents(s, n), before, Units(n), SegmentsEvents(u), here, Segments(n, 8), Units(m));
      ps := before + here;
    }
  }

  // Every event with a start time and a duration that is stored in any section is
  // visited once: by day from yesterday on, by segment, extended sections before
  // basic ones, by section and by position; and nothing else is.
  lemma EveryEventIsVisited(s: Schedule) returns (ps: seq<Place>)
    requires s.startIndex < 9
    ensures |ps| == |AllEvents(s)|
    ensures forall i | 0 <= i < |ps| :: Holds(s, ps[i]) && AllEvents(s)[i] == EventAt(s, ps[i])
    ensures forall i, j | 0 <= i < j < |ps| :: ps[i].Precedes(ps[j])
    ensures forall p | Holds(s, p) :: p in ps
  {
    ps := UnitsVisit(s, 9);
    forall i | 0 <= i < |ps| ensures Holds(s, ps[i]) && AllEvents(s)[i] == EventAt(s, ps[i]) {
      assert VisitsAt(s, AllEvents(s), ps, Units(9), i);
    }
  }

  // What the collected programs are

  predicate IsShortEvent(d: Descriptor) { d.ShortEvent? }
  predicate IsComponent(d: Descriptor) { d.Component? }
  predicate IsContent(d: Descriptor) { d.Content? }
  predicate IsSeries(d: Descriptor) { d.Series? }
  predicate IsEventGroup(d: Descriptor) { d.EventGroup? }
  predicate IsExtended(d: Descriptor) { d.ExtendedEvent? }

  function IsAudio(tag: Octet): Descriptor -> bool { (d: Descriptor) => d.AudioComponent? && d.audioTag == tag }

  // The last of `xs` with property `p`.
  function Last<T>(xs: seq<T>, p: T -> bool): (r: Option<T>)
    ensures r.Some? ==> p(r.value)
  {
    if xs == [] then None
    else if p(xs[|xs| - 1]) then Some(xs[|xs| - 1])
    else Last(xs[..|xs| - 1], p)
  }

  lemma {:induction false} LastMeans<T>(xs: seq<T>, p: T -> bool)
    ensures Last(xs, p).None? <==> forall i | 0 <= i < |xs| :: !p(xs[i])
    ensures Last(xs, p).Some? ==> exists i ::
      0 <= i < |xs| && xs[i] == Last(xs, p).value && p(xs[i]) && forall j | i < j < |xs| :: !p(xs[j])
    decreases |xs|
  {
    if xs != [] && !p(xs[|xs| - 1]) {
      var init := xs[..|xs| - 1];
      LastMeans(init, p);
      if Last(init, p).Some? {
        var i :| 0 <= i < |init| && init[i] == Last(init, p).value && p(init[i]) && forall j | i < j < |init| :: !p(init[j]);
        assert xs[i] == init[i];
        forall j | i < j < |xs| ensures !p(xs[j]) { if j < |init| { assert xs[j] == init[j]; } }
      }
      forall i | 0 <= i < |init| ensures xs[i] == init[i] {}
    }
  }

  function HasId(eid: nat): Event -> bool { (e: Event) => e.id == eid }

  // The descriptors of the events of a program, in the order they are visited.
  function DescriptorsOf(es: seq<Event>, eid: nat): seq<Descriptor> {
    if es == [] then []
    else
      var e := es[|es| - 1];
      DescriptorsOf(es[..|es| - 1], eid) + if e.id == eid then e.descriptors else []
  }

  function AudioTags(ds: seq<Descriptor>): set<Octet> {
    set i | 0 <= i < |ds| && ds[i].AudioComponent? :: ds[i].audioTag
  }

  // Each field comes from the last descriptor that sets it.
  ghost predicate Describes(p: EpgProgram, ds: seq<Descriptor>) {
    && TextDescribed(p, ds)
    && p.video == Last(ds, IsComponent)
    && p.series == Last(ds, IsSeries)
    && p.eventGroup == Last(ds, IsEventGroup)
    && AudiosDescribed(p.audios, ds)
  }

  ghost predicate TextDescribed(p: EpgProgram, ds: seq<Descriptor>) {
    var short, content, extended := Last(ds, IsShortEvent), Last(ds, IsContent), Last(ds, IsExtended);
    && p.name == (if short.None? then None else short.value.name)
    && p.description == (if short.None? then None else short.value.text)
    && p.genres == (if content.None? then None else Some(content.value.genres))
    && p.extended == (if extended.None? then None else Some(ItemMap(extended.value.items)))
  }

  ghost predicate AudiosDescribed(audios: map<Octet, AudioFields>, ds: seq<Descriptor>) {
    && audios.Keys == AudioTags(ds)
    && forall tag | tag in audios :: Last(ds, IsAudio(tag)).Some? && audios[tag] == Last(ds, IsAudio(tag)).value.audio
  }

  lemma LastSnoc<T>(xs: seq<T>, x: T, p: T -> bool)
    ensures Last(xs + [x], p) == if p(x) then Some(x) else Last(xs, p)
  {
    assert (xs + [x])[..|xs|] == xs;
  }

  lemma AudioTagsSnoc(ds: seq<Descriptor>, d: Descriptor)
    ensures AudioTags(ds + [d]) == AudioTags(ds) + if d.AudioComponent? then {d.audioTag} else {}
  {
    forall tag ensures tag in AudioTags(ds + [d]) <==> tag in AudioTags(ds) || (d.AudioComponent? && tag == d.audioTag) {
      if tag in AudioTags(ds) {
        var i :| 0 <= i < |ds| && ds[i].AudioComponent? && ds[i].audioTag == tag;
        assert (ds + [d])[i] == ds[i];
      }
      assert (ds + [d])[|ds|] == d;
    }
  }

  lemma AudiosSnoc(audios: map<Octet, AudioFields>, ds: seq<Descriptor>, d: Descriptor)
    requires AudiosDescribed(audios, ds)
    ensures AudiosDescribed(if d.AudioComponent? then audios[d.audioTag := d.audio] else audios, ds + [d])
  {
    AudioTagsSnoc(ds, d);
    forall tag | tag in AudioTags(ds + [d])
      ensures Last(ds + [d], IsAudio(tag)) == if IsAudio(tag)(d) then Some(d) else Last(ds, IsAudio(tag))
    {
      LastSnoc(ds, d, IsAudio(tag));
    }
  }

  lemma TextSnoc(p: EpgProgram, ds: seq<Descriptor>, d: Descriptor)
    requires TextDescribed(p, ds)
    ensures TextDescribed(Applied(p, d), ds + [d])
  {
    LastSnoc(ds, d, IsShortEvent);
    LastSnoc(ds, d, IsContent);
    LastSnoc(ds, d, IsExtended);
  }

  lemma AppliedDescribes(p: EpgProgram, ds: seq<Descriptor>, d: Descriptor, all: seq<Descriptor>)
    requires Describes(p, ds) && all == ds + [d]
    ensures Describes(Applied(p, d), all)
  {
    TextSnoc(p, ds, d);
    LastSnoc(ds, d, IsComponent);
    LastSnoc(ds, d, IsSeries);
    LastSnoc(ds, d, IsEventGroup);
    AudiosSnoc(p.audios, ds, d);
  }

  lemma {:induction false} AppliedAllKeepsTimes(p: EpgProgram, ds: seq<Descriptor>)
    ensures
      var p' := AppliedAll(p, ds);
      p'.startAt == p.startAt && p'.duration == p.duration && p'.scrambled == p.scrambled && p'.id == p.id
    decreases |ds|
  {
    if ds != [] { AppliedAllKeepsTimes(p, ds[..|ds| - 1]); }
  }

  lemma {:induction false} AppliedAllDescribes(p: EpgProgram, before: seq<Descriptor>, ds: seq<Descriptor>)
    requires Describes(p, before)
    ensures Describes(AppliedAll(p, ds), before + ds)
    decreases |ds|
  {
    if ds == [] {
      assert before + ds == before;
    } else {
      var rest, d := ds[..|ds| - 1], ds[|ds| - 1];
      AppliedAllDescribes(p, before, rest);
      SplitLast(ds);
      AppendAssociative(before, rest, [d]);
      AppliedDescribes(AppliedAll(p, rest), before + rest, d, before + ds);
    }
  }

  // The program of events `es`: times and scrambling of the last one, all else
  // from the last descriptors.
  ghost predicate IsProgramOf(p: EpgProgram, service: nat, eid: nat, es: seq<Event>) {
    && p.id == ProgramId(service, eid)
    && Last(es, HasId(eid)).Some?
    && (var e := Last(es, HasId(eid)).value;
        p.startAt == e.startTime && p.duration == e.duration && p.scrambled == e.scrambled)
    && Describes(p, DescriptorsOf(es, eid))
  }

  // The index of the first event with this ID, or the number of events.
  function FirstIndex(es: seq<Event>, eid: nat): nat {
    if es == [] then 0
    else
      var i := FirstIndex(es[..|es| - 1], eid);
      if i < |es| - 1 || es[|es| - 1].id == eid then i else |es|
  }

  lemma {:induction false} FirstIndexMeans(es: seq<Event>, eid: nat)
    ensures FirstIndex(es, eid) <= |es|
    ensures FirstIndex(es, eid) < |es| ==> es[FirstIndex(es, eid)].id == eid
    ensures forall j | 0 <= j < FirstIndex(es, eid) :: es[j].id != eid
    decreases |es|
  {
    if es != [] { FirstIndexMeans(es[..|es| - 1], eid); }
  }

  predicate Occurs(es: seq<Event>, eid: nat) { FirstIndex(es, eid) < |es| }

  // The keys are the event IDs, each once, in the order of their first event.
  ghost predicate InFirstOrder(keys: seq<nat>, es: seq<Event>) {
    && (forall eid :: eid in keys <==> Occurs(es, eid))
    && forall i, j | 0 <= i < j < |keys| :: FirstIndex(es, keys[i]) < FirstIndex(es, keys[j])
  }

  lemma FirstIndexSnoc(es: seq<Event>, e: Event, all: seq<Event>, eid: nat)
    requires all == es + [e]
    ensures FirstIndex(es, eid) <= |es|
    ensures Occurs(all, eid) <==> Occurs(es, eid) || eid == e.id
    ensures Occurs(es, eid) ==> FirstIndex(all, eid) == FirstIndex(es, eid)
    ensures !Occurs(es, eid) && eid == e.id ==> FirstIndex(all, eid) == |es|
  {
    FirstIndexMeans(es, eid);
    assert all[..|all| - 1] == es;
  }

  lemma OrderSnoc(keys: seq<nat>, es: seq<Event>, e: Event, all: seq<Event>)
    requires InFirstOrder(keys, es) && all == es + [e]
    ensures InFirstOrder(if e.id in keys then keys else keys + [e.id], all)
  {
    var keys' := if e.id in keys then keys else keys + [e.id];
    forall eid ensures eid in keys' <==> Occurs(all, eid) { FirstIndexSnoc(es, e, all, eid); }
    forall i, j | 0 <= i < j < |keys'| ensures FirstIndex(all, keys'[i]) < FirstIndex(all, keys'[j]) {
      assert keys'[i] in keys;
      FirstIndexSnoc(es, e, all, keys'[i]);
      FirstIndexSnoc(es, e, all, keys'[j]);
    }
  }

  lemma ProgramSnoc(p: EpgProgram, service: nat, eid: nat, es: seq<Event>, e: Event)
    requires IsProgramOf(p, service, eid, es)
    ensures IsProgramOf(if e.id == eid then UpdatedBy(p, e) else p, service, eid, es + [e])
  {
    LastSnoc(es, e, HasId(eid));
    assert (es + [e])[..|es|] == es;
    var ds := DescriptorsOf(es, eid);
    if e.id == eid {
      assert Describes(Timed(p, e), ds);
      AppliedAllDescribes(Timed(p, e), ds, e.descriptors);
      AppliedAllKeepsTimes(Timed(p, e), e.descriptors);
    } else {
      assert ds + [] == ds;
    }
  }

  lemma {:induction false} NoDescriptors(es: seq<Event>, eid: nat)
    requires !Occurs(es, eid)
    ensures DescriptorsOf(es, eid) == []
    decreases |es|
  {
    if es != [] {
      FirstIndexMeans(es[..|es| - 1], eid);
      NoDescriptors(es[..|es| - 1], eid);
    }
  }

  lemma NewProgramIs(service: nat, es: seq<Event>, e: Event, all: seq<Event>)
    requires !Occurs(es, e.id) && all == es + [e]
    ensures IsProgramOf(UpdatedBy(NewProgram(ProgramId(service, e.id)), e), service, e.id, all)
  {
    LastSnoc(es, e, HasId(e.id));
    assert all[..|all| - 1] == es;
    NoDescriptors(es, e.id);
    var p := Timed(NewProgram(ProgramId(service, e.id)), e);
    assert Describes(p, []);
    AppliedAllDescribes(p, [], e.descriptors);
    AppliedAllKeepsTimes(p, e.descriptors);
  }

  ghost predicate Means(m: Programs, service: nat, es: seq<Event>) {
    && InFirstOrder(m.keys, es)
    && (forall eid :: eid in m.keys <==> eid in m.values)
    && (forall eid | eid in m.values :: IsProgramOf(m.values[eid], service, eid, es))
  }

  lemma EnteredMeans(m: Programs, service: nat, es: seq<Event>, e: Event, all: seq<Event>)
    requires Means(m, service, es) && all == es + [e]
    ensures Means(Entered(service, m, e), service, all)
  {
    OrderSnoc(m.keys, es, e, all);
    var m' := Entered(service, m, e);
    forall eid | eid in m'.values ensures IsProgramOf(m'.values[eid], service, eid, all) {
      if eid in m.values { ProgramSnoc(m.values[eid], service, eid, es, e); } else { NewProgramIs(service, es, e, all); }
    }
  }

  // Collecting yields one program for each event ID, in the order of the first
  // event, with its times from the last event and each of its other fields from
  // the last descriptor of that kind.
  lemma {:induction false} CollectedMeans(service: nat, es: seq<Event>)
    ensures Means(Collected(service, es), service, es)
    decreases |es|
  {
    if es != [] {
      var init, e := es[..|es| - 1], es[|es| - 1];
      SplitLast(es);
      CollectedMeans(service, init);
      EnteredMeans(Collected(service, init), service, init, e, es);
    }
  }

  // The programs are those of exactly the stored events that can be used.
  lemma ProgramsAreThoseStored(s: Schedule, service: nat, eid: nat)
    requires s.startIndex < 9
    ensures
      var m := Collected(service, AllEvents(s));
      && (eid in m.values <==> exists p :: Holds(s, p) && EventAt(s, p).id == eid)
      && (eid in m.keys <==> eid in m.values)
      && (eid in m.values ==> m.values[eid].id == ProgramId(service, eid))
  {
    var es := AllEvents(s);
    var ps := EveryEventIsVisited(s);
    CollectedMeans(service, es);
    FirstIndexMeans(es, eid);
    if eid in Collected(service, es).values {
      var i := FirstIndex(es, eid);
      assert Holds(s, ps[i]) && EventAt(s, ps[i]).id == eid;
    }
    if p :| Holds(s, p) && EventAt(s, p).id == eid {
      var i :| 0 <= i < |ps| && ps[i] == p;
      assert es[i].id == eid;
    }
  }
}
