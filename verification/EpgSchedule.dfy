// The schedule of a service, a ring of nine days, mirakc-core/src/epg/mod.rs.
//
// Sections are those of EIT[schedule basic] and EIT[schedule extended], section
// 5.2.4 of ETSI EN 300 468, in the layout of ARIB TR-B14: a table holds four
// days, a day eight segments of three hours, a segment eight sections.
module EpgSchedules {
  import opened Models

  const MAX_DAYS: nat := 9
  const NUM_SEGMENTS: nat := 8
  const NUM_SECTIONS: nat := 8

  const DAY: int := 24 * 60 * 60 * 1000
  const JST: int := 9 * 60 * 60 * 1000

  type Octet = n: nat | n < 256

  datatype Descriptor =
    | ShortEvent(name: Option<string>, text: Option<string>)
    | Component(tag: Octet, kind: Octet, text: Option<string>)
    | AudioComponent(audioTag: Octet, audio: AudioFields)
    | Content(genres: seq<(Octet, Octet, Octet, Octet)>)
    | Series(id: nat, episode: nat, title: Option<string>)
    | EventGroup(groupType: Octet, members: seq<nat>)
    | ExtendedEvent(items: seq<(string, string)>)

  datatype AudioFields = AudioFields(kind: Octet, main: bool, quality: Octet, rate: Octet, text: Option<string>)

  // Times are in milliseconds since the UNIX epoch.
  datatype Event = Event(
    id: nat,
    startTime: Option<int>,
    duration: Option<int>,
    scrambled: bool,
    descriptors: seq<Descriptor>)

  // The date of a time in Japan, as a number of days.
  function DateOf(time: int): int { (time + JST) / DAY }

  // A day begins at midnight in Japan, nine hours ahead.
  lemma DateMeans(time: int, day: int)
    ensures DateOf(time) == day <==>
      day * 24 * 60 * 60 * 1000 <= time + 9 * 60 * 60 * 1000 < (day + 1) * 24 * 60 * 60 * 1000
  {
  }

  datatype EitSection = EitSection(
    tableId: nat,
    sectionNumber: Octet,
    segmentLastSectionNumber: Octet,
    version: Octet,
    events: seq<Event>)
  {
    predicate IsValid() { tableId == 0x50 || tableId == 0x51 || tableId == 0x58 || tableId == 0x59 }

    predicate IsBasic() { tableId <= 0x57 }

    function SegmentIndex(): nat { sectionNumber / 8 }
    function SectionIndex(): nat { sectionNumber % 8 }
    function LastSectionIndex(): nat { segmentLastSectionNumber % 8 }
    function UnitIndex(): nat { (tableId % 8) * 4 + SegmentIndex() / NUM_SEGMENTS }
    function SegmentIndexInUnit(): nat { SegmentIndex() % NUM_SEGMENTS }
  }

  datatype Section = Section(version: Octet, events: seq<Event>)

  type Sections = s: seq<Option<Section>> | |s| == NUM_SECTIONS
    witness [None, None, None, None, None, None, None, None]

  datatype Segment = Segment(basic: Sections, extended: Sections)

  const NO_SECTIONS: Sections := [None, None, None, None, None, None, None, None]
  const EMPTY_SEGMENT: Segment := Segment(NO_SECTIONS, NO_SECTIONS)

  type Unit = u: seq<Segment> | |u| == NUM_SEGMENTS
    witness seq(8, i => Segment(NO_SECTIONS, NO_SECTIONS))

  type Units = us: seq<Unit> | |us| == MAX_DAYS
    witness seq(9, i => seq(8, j => Segment(NO_SECTIONS, NO_SECTIONS)))

  // Dates.  The date of a section is that of its first event, and the source
  // panics if that one has no start time.

  datatype Dated = NoDate | Date(day: int) | Panic

  function SectionDate(s: Option<Section>): Dated {
    if s.None? || s.value.events == [] then NoDate
    else if s.value.events[0].startTime.None? then Panic
    else Date(DateOf(s.value.events[0].startTime.value))
  }

  // The first that is not `NoDate`.
  function FirstDate(ds: seq<Dated>): (d: Dated)
    ensures d.NoDate? <==> forall i | 0 <= i < |ds| :: ds[i].NoDate?
    ensures d != NoDate ==> d in ds
  {
    if ds == [] then NoDate
    else if !ds[0].NoDate? then ds[0]
    else
      assert ds == [ds[0]] + ds[1..];
      FirstDate(ds[1..])
  }

  function SegmentDate(g: Segment): Dated {
    FirstDate(SectionDates(g))
  }

  function UnitDate(u: Unit): Dated {
    FirstDate(SegmentDates(u))
  }

  function SegmentDates(u: Unit): (r: seq<Dated>)
    ensures |r| == NUM_SEGMENTS && forall j | 0 <= j < NUM_SEGMENTS :: r[j] == SegmentDate(u[j])
  {
    seq(NUM_SEGMENTS, i requires 0 <= i < NUM_SEGMENTS => SegmentDate(u[i]))
  }

  function SectionDates(g: Segment): (r: seq<Dated>)
    ensures |r| == NUM_SECTIONS && forall k | 0 <= k < NUM_SECTIONS :: r[k] == SectionDate(g.basic[k])
  {
    seq(NUM_SECTIONS, i requires 0 <= i < NUM_SECTIONS => SectionDate(g.basic[i]))
  }

  function UnitDates(us: Units): (r: seq<Dated>)
    ensures |r| == MAX_DAYS && forall i | 0 <= i < MAX_DAYS :: r[i] == UnitDate(us[i])
  {
    seq(MAX_DAYS, i requires 0 <= i < MAX_DAYS => UnitDate(us[i]))
  }

  // The first of the earliest of the first `n` dates.
  function Earliest(ds: seq<Dated>, n: nat): (r: Option<nat>)
    requires n <= |ds|
    ensures r.Some? ==> r.value < n && ds[r.value].Date?
    ensures r.None? <==> forall i | 0 <= i < n :: !ds[i].Date?
    ensures r.Some? ==> forall i | 0 <= i < n && ds[i].Date? :: ds[r.value].day <= ds[i].day
    ensures r.Some? ==> forall i | 0 <= i < r.value && ds[i].Date? :: ds[r.value].day < ds[i].day
  {
    if n == 0 then None
    else
      var r := Earliest(ds, n - 1);
      if !ds[n - 1].Date? then r
      else if r.None? || ds[n - 1].day < ds[r.value].day then Some(n - 1)
      else r
  }

  // The unit of the earliest date.
  function EarliestUnit(us: Units): (r: Option<nat>)
    ensures r.Some? ==> r.value < MAX_DAYS && UnitDate(us[r.value]).Date?
  {
    var ds := UnitDates(us);
    Earliest(ds, |ds|)
  }

  // Rust's remainder has the sign of the dividend.
  function Remainder(a: int, b: int): int
    requires b > 0
  {
    if a >= 0 then a % b else -((-a) % b)
  }

  lemma RemainderWraps(a: int)
    ensures
      var r := Remainder(a, MAX_DAYS);
      (if r >= 0 then r else r + MAX_DAYS) == a % MAX_DAYS
    ensures
      var r := Remainder(a, MAX_DAYS);
      (a - r) % 9 == 0 && -9 < r < 9 && (a > 0 ==> r >= 0) && (a < 0 ==> r <= 0)
  {
  }

  datatype Schedule = Schedule(units: Units, startIndex: nat)

  function NewSchedule(): Schedule {
    Schedule(seq(9, i => seq(8, j => EMPTY_SEGMENT)), 0)
  }

  predicate PreparePanics(s: Schedule) {
    exists i :: 0 <= i < MAX_DAYS && UnitDate(s.units[i]).Panic?
  }

  // The unit of today, given that unit `i` is that of `day`.
  function StartFor(i: nat, day: int, today: int): nat { (i + (today - day) % MAX_DAYS) % MAX_DAYS }

  function Prepared(s: Schedule, today: int): Schedule {
    match EarliestUnit(s.units)
    case None => s.(startIndex := 0)
    case Some(i) => s.(startIndex := StartFor(i, UnitDate(s.units[i]).day, today))
  }

  // Updating.  Sections after the last one of the segment are cleared first.

  function UpdatedAt(ss: Sections, section: EitSection, i: nat): Option<Section>
    requires i < NUM_SECTIONS
  {
    if i == section.SectionIndex() then Some(Section(section.version, section.events))
    else if i > section.LastSectionIndex() then None
    else ss[i]
  }

  function UpdatedSections(ss: Sections, section: EitSection): (r: Sections)
    ensures forall i | 0 <= i < NUM_SECTIONS :: r[i] == UpdatedAt(ss, section, i)
  {
    seq(NUM_SECTIONS, i requires 0 <= i < NUM_SECTIONS => UpdatedAt(ss, section, i))
  }

  function UpdatedSegment(g: Segment, section: EitSection): Segment {
    if section.IsBasic() then g.(basic := UpdatedSections(g.basic, section))
    else g.(extended := UpdatedSections(g.extended, section))
  }

  // The unit a section goes to.
  function UnitFor(s: Schedule, section: EitSection): nat {
    (s.startIndex + section.UnitIndex()) % MAX_DAYS
  }

  function UpdatedUnit(u: Unit, section: EitSection): Unit {
    var j := section.SegmentIndexInUnit();
    u[j := UpdatedSegment(u[j], section)]
  }

  function Updated(s: Schedule, section: EitSection): Schedule {
    var i := UnitFor(s, section);
    s.(units := s.units[i := UpdatedUnit(s.units[i], section)])
  }

  // Addresses

  datatype Slot = Slot(day: nat, segment: nat, section: nat, basic: bool) {
    predicate InRange() { day < MAX_DAYS - 1 && segment < NUM_SEGMENTS && section < NUM_SECTIONS }
  }

  function SlotOf(s: EitSection): Slot {
    Slot(s.UnitIndex(), s.SegmentIndexInUnit(), s.SectionIndex(), s.IsBasic())
  }

  function TableOf(slot: Slot): nat {
    (if slot.basic then 0x50 else 0x58) + slot.day / 4
  }

  function NumberOf(slot: Slot): nat {
    (slot.day % 4) * 64 + slot.segment * 8 + slot.section
  }

  // The valid table IDs and section numbers are in one-to-one correspondence with
  // the slots of eight days.
  lemma SlotsAreAddressed(s: EitSection)
    requires s.IsValid()
    ensures SlotOf(s).InRange()
    ensures s.tableId == TableOf(SlotOf(s)) && s.sectionNumber == NumberOf(SlotOf(s))
  {
  }

  lemma Digits(a: nat, b: nat, c: nat, n: nat)
    requires a < 4 && b < 8 && c < 8 && n == a * 64 + b * 8 + c
    ensures n < 256 && n % 8 == c && n / 8 == a * 8 + b && n / 8 % 8 == b && n / 8 / 8 == a
  {
  }

  lemma EverySlotIsAddressed(slot: Slot, s: EitSection)
    requires slot.InRange()
    ensures NumberOf(slot) < 256
    ensures s.tableId == TableOf(slot) && s.sectionNumber == NumberOf(slot) ==> s.IsValid() && SlotOf(s) == slot
  {
    Digits(slot.day % 4, slot.segment, slot.section, NumberOf(slot));
    if s.tableId == TableOf(slot) && s.sectionNumber == NumberOf(slot) {
      assert s.tableId % 8 == slot.day / 4;
    }
  }

  // Calendar

  predicate Congruent(a: int, b: int) { (a - b) % MAX_DAYS == 0 }

  // With `start` being the unit of `today`, or `start'` that of `today'`, each
  // unit stands for the same days modulo nine.
  predicate SameCalendar(today: int, start: nat, today': int, start': nat) {
    Congruent(today' - start', today - start)
  }

  // The dated basic sections of unit `i` are of days `today + i - start` modulo nine.
  ghost predicate Aligned(us: Units, today: int, start: nat) {
    forall i, j, k | 0 <= i < MAX_DAYS && 0 <= j < NUM_SEGMENTS && 0 <= k < NUM_SECTIONS ::
      AlignedAt(SectionDate(us[i][j].basic[k]), today, start, i)
  }

  predicate AlignedAt(d: Dated, today: int, start: nat, i: nat) {
    !d.Panic? && (d.Date? ==> StandsFor(d.day, today, start, i))
  }

  predicate StandsFor(day: int, today: int, start: nat, i: nat) { Congruent(day, today + i - start) }

  ghost predicate AnyDated(us: Units) {
    exists i :: 0 <= i < MAX_DAYS && UnitDate(us[i]).Date?
  }

  lemma UnitDateComes(u: Unit, today: int, start: nat, i: nat)
    requires forall j, k | 0 <= j < NUM_SEGMENTS && 0 <= k < NUM_SECTIONS ::
      AlignedAt(SectionDate(u[j].basic[k]), today, start, i)
    ensures AlignedAt(UnitDate(u), today, start, i)
  {
    if UnitDate(u) != NoDate {
      var ds := SegmentDates(u);
      var j :| 0 <= j < NUM_SEGMENTS && ds[j] == UnitDate(u);
      var es := SectionDates(u[j]);
      var k :| 0 <= k < NUM_SECTIONS && es[k] == UnitDate(u);
      assert AlignedAt(SectionDate(u[j].basic[k]), today, start, i);
    }
  }

  ghost predicate UnitsAligned(us: Units, today: int, start: nat) {
    forall i | 0 <= i < MAX_DAYS :: AlignedAt(UnitDate(us[i]), today, start, i)
  }

  // The start index as computed from the day of unit `i`.
  lemma StartOfToday(today: int, start: nat, i: nat, day: int, today': int)
    requires StandsFor(day, today, start, i)
    ensures StartFor(i, day, today') < MAX_DAYS
    ensures SameCalendar(today, start, today', StartFor(i, day, today'))
  {
  }

  lemma PreparedStart(s: Schedule, today: int, start: nat, today': int)
    requires UnitsAligned(s.units, today, start) && EarliestUnit(s.units).Some?
    ensures Prepared(s, today').startIndex < MAX_DAYS
    ensures SameCalendar(today, start, today', Prepared(s, today').startIndex)
  {
    var i := EarliestUnit(s.units).value;
    assert AlignedAt(UnitDate(s.units[i]), today, start, i);
    StartOfToday(today, start, i, UnitDate(s.units[i]).day, today');
  }

  lemma AlignedNeverPanics(s: Schedule, today: int, start: nat)
    requires UnitsAligned(s.units, today, start)
    ensures !PreparePanics(s)
    ensures EarliestUnit(s.units).None? ==> forall i | 0 <= i < MAX_DAYS :: UnitDate(s.units[i]).NoDate?
  {
    forall i | 0 <= i < MAX_DAYS ensures !UnitDate(s.units[i]).Panic? {
      assert AlignedAt(UnitDate(s.units[i]), today, start, i);
    }
  }

  lemma Realigned(us: Units, today: int, start: nat, today': int, start': nat)
    requires Aligned(us, today, start) && SameCalendar(today, start, today', start')
    ensures Aligned(us, today', start')
  {
    forall i, j, k | 0 <= i < MAX_DAYS && 0 <= j < NUM_SEGMENTS && 0 <= k < NUM_SECTIONS
      ensures AlignedAt(SectionDate(us[i][j].basic[k]), today', start', i)
    {
      assert AlignedAt(SectionDate(us[i][j].basic[k]), today, start, i);
    }
  }

  lemma Undated(us: Units, today: int, start: nat)
    requires forall i | 0 <= i < MAX_DAYS :: UnitDate(us[i]).NoDate?
    ensures Aligned(us, today, start)
  {
    forall i, j, k | 0 <= i < MAX_DAYS && 0 <= j < NUM_SEGMENTS && 0 <= k < NUM_SECTIONS
      ensures AlignedAt(SectionDate(us[i][j].basic[k]), today, start, i)
    {
      assert SegmentDates(us[i])[j].NoDate? && SectionDates(us[i][j])[k].NoDate?;
    }
  }

  ghost predicate Inv(s: Schedule, today: int) {
    s.startIndex < MAX_DAYS && Aligned(s.units, today, s.startIndex)
  }

  // While the basic sections are aligned, preparing does not panic and makes
  // `startIndex` the unit of the new day: the days of the units do not shift.
  lemma PreparedIsToday(s: Schedule, today: int, today': int)
    requires Inv(s, today)
    ensures !PreparePanics(s)
    ensures Prepared(s, today').units == s.units
    ensures !AnyDated(s.units) ==> Prepared(s, today').startIndex == 0
    ensures Inv(Prepared(s, today'), today')
    ensures AnyDated(s.units) ==> SameCalendar(today, s.startIndex, today', Prepared(s, today').startIndex)
  {
    forall i | 0 <= i < MAX_DAYS ensures AlignedAt(UnitDate(s.units[i]), today, s.startIndex, i) {
      UnitDateComes(s.units[i], today, s.startIndex, i);
    }
    AlignedNeverPanics(s, today, s.startIndex);
    if EarliestUnit(s.units).Some? {
      PreparedStart(s, today, s.startIndex, today');
      Realigned(s.units, today, s.startIndex, today', Prepared(s, today').startIndex);
    } else {
      Undated(s.units, today', 0);
    }
  }

  // A section of a valid table whose first event, if it is a basic one, is on the
  // day its unit stands for, or on one a multiple of nine days from it.
  predicate WellDated(section: EitSection, today: int) {
    && section.IsValid()
    && (section.IsBasic() && section.events != [] ==>
        && section.events[0].startTime.Some?
        && Congruent(DateOf(section.events[0].startTime.value), today + section.UnitIndex()))
  }

  lemma RingOffset(start: nat, u: nat, i: nat)
    requires start < MAX_DAYS && u < MAX_DAYS - 1 && i == (start + u) % MAX_DAYS
    ensures i == (if start + u < MAX_DAYS then start + u else start + u - MAX_DAYS)
    ensures i != (start + MAX_DAYS - 1) % MAX_DAYS
  {
  }

  lemma UnitForDay(s: Schedule, section: EitSection)
    requires s.startIndex < MAX_DAYS && section.IsValid()
    ensures
      var i, u := UnitFor(s, section), section.UnitIndex();
      i == if s.startIndex + u < MAX_DAYS then s.startIndex + u else s.startIndex + u - MAX_DAYS
    ensures UnitFor(s, section) != (s.startIndex + MAX_DAYS - 1) % MAX_DAYS
  {
    SlotsAreAddressed(section);
    RingOffset(s.startIndex, section.UnitIndex(), UnitFor(s, section));
  }

  // The section is aligned in its unit.
  lemma NewSectionIsAligned(s: Schedule, section: EitSection, today: int)
    requires s.startIndex < MAX_DAYS && section.IsValid() && section.IsBasic()
    ensures
      var d := SectionDate(Some(Section(section.version, section.events)));
      AlignedAt(d, today, s.startIndex, UnitFor(s, section)) <==> WellDated(section, today)
  {
    UnitForDay(s, section);
  }

  // A section is stored in the unit of its day, and never in that of yesterday.
  lemma UpdateKeeps(s: Schedule, section: EitSection, today: int)
    requires Inv(s, today) && WellDated(section, today)
    ensures Inv(Updated(s, section), today)
    ensures
      var yesterday := (s.startIndex + MAX_DAYS - 1) % MAX_DAYS;
      Updated(s, section).units[yesterday] == s.units[yesterday]
  {
    UnitForDay(s, section);
    var s' := Updated(s, section);
    if section.IsBasic() { NewSectionIsAligned(s, section, today); }
    forall i, j, k | 0 <= i < MAX_DAYS && 0 <= j < NUM_SEGMENTS && 0 <= k < NUM_SECTIONS
      ensures AlignedAt(SectionDate(s'.units[i][j].basic[k]), today, s.startIndex, i)
    {
      assert AlignedAt(SectionDate(s.units[i][j].basic[k]), today, s.startIndex, i);
      UpdateMeans(s, section, i, j, k, true);
    }
  }

  // An update keeps the schedule aligned exactly if the section is well dated.
  lemma UpdateKeepsIff(s: Schedule, section: EitSection, today: int)
    requires Inv(s, today) && section.IsValid()
    ensures Inv(Updated(s, section), today) <==> WellDated(section, today)
  {
    if WellDated(section, today) {
      UpdateKeeps(s, section, today);
    } else {
      UnitForDay(s, section);
      SlotsAreAddressed(section);
      NewSectionIsAligned(s, section, today);
      var i, j, k := UnitFor(s, section), section.SegmentIndexInUnit(), section.SectionIndex();
      UpdateMeans(s, section, i, j, k, true);
      assert !AlignedAt(SectionDate(Updated(s, section).units[i][j].basic[k]), today, s.startIndex, i);
    }
  }

  // The schedule of a service is prepared once in a collection.  When that lasts
  // past midnight, sections dated for the new day go to the unit of the day before.
  lemma MidnightMisaligns(s: Schedule, section: EitSection, today: int)
    requires Inv(s, today) && section.IsBasic() && section.events != []
    requires WellDated(section, today + 1)
    ensures !Inv(Updated(s, section), today)
    ensures Inv(Updated(Prepared(s, today + 1), section), today + 1)
  {
    NextDayDiffers(section, today);
    UpdateKeepsIff(s, section, today);
    PreparedIsToday(s, today, today + 1);
    UpdateKeeps(Prepared(s, today + 1), section, today + 1);
  }

  lemma NextDayDiffers(section: EitSection, today: int)
    requires section.IsBasic() && section.events != [] && WellDated(section, today + 1)
    ensures !WellDated(section, today)
  {
  }

  // What an update does to each section of the schedule: the section is stored where
  // its table and number say, and the ones of its segment after the last one go.
  lemma UpdateMeans(s: Schedule, section: EitSection, i: nat, j: nat, k: nat, basic: bool)
    requires i < MAX_DAYS && j < NUM_SEGMENTS && k < NUM_SECTIONS && 0x50 <= section.tableId <= 0x5F
    ensures
      var before := if basic then s.units[i][j].basic[k] else s.units[i][j].extended[k];
      var g := Updated(s, section).units[i][j];
      var after := if basic then g.basic[k] else g.extended[k];
      after ==
        if i != (s.startIndex + section.tableId % 8 * 4 + section.sectionNumber / 64) % 9
           || j != section.sectionNumber / 8 % 8 || basic != (section.tableId < 0x58) then before
        else if k == section.sectionNumber % 8 then Some(Section(section.version, section.events))
        else if k > section.segmentLastSectionNumber % 8 then None
        else before
    ensures Updated(s, section).startIndex == s.startIndex
  {
    assert section.sectionNumber / 8 / 8 == section.sectionNumber / 64;
  }

  // Runs

  datatype Step = Prepare(today: int) | Update(section: EitSection)

  ghost predicate Possible(today: int, steps: seq<Step>)
    decreases |steps|
  {
    steps == [] ||
    ((steps[0].Update? ==> WellDated(steps[0].section, today)) && Possible(DayAfter(today, steps[0]), steps[1..]))
  }

  function Next(s: Schedule, step: Step): Schedule {
    match step
    case Prepare(day) => Prepared(s, day)
    case Update(section) => Updated(s, section)
  }

  function After(s: Schedule, steps: seq<Step>): Schedule
    decreases |steps|
  {
    if steps == [] then s else After(Next(s, steps[0]), steps[1..])
  }

  // The day of the last `Prepare`.
  function Today(today: int, steps: seq<Step>): int
    decreases |steps|
  {
    if steps == [] then today else Today(DayAfter(today, steps[0]), steps[1..])
  }

  function DayAfter(today: int, step: Step): int { if step.Prepare? then step.today else today }

  lemma StepKeepsInv(s: Schedule, today: int, step: Step)
    requires Inv(s, today) && (step.Update? ==> WellDated(step.section, today))
    ensures Inv(Next(s, step), DayAfter(today, step))
  {
    match step
    case Prepare(day) => PreparedIsToday(s, today, day);
    case Update(section) => UpdateKeeps(s, section, today);
  }

  // A schedule is created on some day; then it is prepared on any days, forward
  // or backward, and updated.  All along, the unit at `startIndex` is that of
  // today, each other unit is that of its distance from today modulo nine, and
  // preparing does not panic.
  lemma {:induction false} CalendarStaysAligned(s: Schedule, today: int, steps: seq<Step>)
    requires Inv(s, today) && Possible(today, steps)
    ensures Inv(After(s, steps), Today(today, steps))
    ensures !PreparePanics(After(s, steps))
    decreases |steps|
  {
    if steps == [] {
      PreparedIsToday(s, today, today);
    } else {
      StepKeepsInv(s, today, steps[0]);
      CalendarStaysAligned(Next(s, steps[0]), DayAfter(today, steps[0]), steps[1..]);
    }
  }

  // The sections are of valid tables and the schedule is aligned all along.
  ghost predicate AlignedThroughout(s: Schedule, today: int, steps: seq<Step>)
    decreases |steps|
  {
    && Inv(s, today)
    && (steps == [] ||
        ((steps[0].Update? ==> steps[0].section.IsValid()) &&
         AlignedThroughout(Next(s, steps[0]), DayAfter(today, steps[0]), steps[1..])))
  }

  // That is so exactly if every section fed is well dated on its day.
  lemma {:induction false} AlignedThroughoutIff(s: Schedule, today: int, steps: seq<Step>)
    requires Inv(s, today)
    ensures AlignedThroughout(s, today, steps) <==> Possible(today, steps)
    decreases |steps|
  {
    if steps != [] && (steps[0].Update? ==> steps[0].section.IsValid()) {
      if steps[0].Update? { UpdateKeepsIff(s, steps[0].section, today); }
      if steps[0].Update? ==> WellDated(steps[0].section, today) {
        StepKeepsInv(s, today, steps[0]);
        AlignedThroughoutIff(Next(s, steps[0]), DayAfter(today, steps[0]), steps[1..]);
      }
    }
  }

  lemma NewIsAligned(today: int)
    ensures Inv(NewSchedule(), today)
    ensures NewSchedule().startIndex == 0
    ensures forall i, j, k | 0 <= i < 9 && 0 <= j < 8 && 0 <= k < 8 ::
      NewSchedule().units[i][j].basic[k] == None && NewSchedule().units[i][j].extended[k] == None
  {
    forall i, j, k | 0 <= i < MAX_DAYS && 0 <= j < NUM_SEGMENTS && 0 <= k < NUM_SECTIONS
      ensures AlignedAt(SectionDate(NewSchedule().units[i][j].basic[k]), today, 0, i)
    {
      assert NewSchedule().units[i][j] == EMPTY_SEGMENT;
    }
  }

  // A basic section whose first event has no start time makes the next `Prepare`
  // panic exactly if no earlier section of its day gives the date.
  lemma UndatedFirstEventPanics(s: Schedule)
    ensures PreparePanics(s) <==> exists i, j, k ::
      && 0 <= i < MAX_DAYS && 0 <= j < NUM_SEGMENTS && 0 <= k < NUM_SECTIONS
      && SectionDate(s.units[i][j].basic[k]).Panic?
      && NothingBefore(s.units[i], j, k)
  {
    forall i | 0 <= i < MAX_DAYS
      ensures UnitDate(s.units[i]).Panic? <==> exists j, k ::
        && 0 <= j < NUM_SEGMENTS && 0 <= k < NUM_SECTIONS
        && SectionDate(s.units[i][j].basic[k]).Panic?
        && NothingBefore(s.units[i], j, k)
    {
      UnitPanicsIff(s.units[i]);
    }
  }

  predicate NothingBefore(u: Unit, j: nat, k: nat) {
    forall j', k' | 0 <= j' < NUM_SEGMENTS && 0 <= k' < NUM_SECTIONS && (j' < j || (j' == j && k' < k)) ::
      SectionDate(u[j'].basic[k']).NoDate?
  }

  // Where the first date comes from.
  lemma {:induction false} FirstDateAt(ds: seq<Dated>) returns (i: nat)
    requires !FirstDate(ds).NoDate?
    ensures i < |ds| && ds[i] == FirstDate(ds) && forall j | 0 <= j < i :: ds[j].NoDate?
    decreases |ds|
  {
    i := 0;
    if ds[0].NoDate? {
      i := FirstDateAt(ds[1..]);
      i := i + 1;
    }
  }

  lemma {:induction false} FirstDateIs(ds: seq<Dated>, i: nat)
    requires i < |ds| && !ds[i].NoDate? && forall j | 0 <= j < i :: ds[j].NoDate?
    ensures FirstDate(ds) == ds[i]
    decreases i
  {
    if i > 0 { FirstDateIs(ds[1..], i - 1); }
  }

  lemma UnitPanicsIff(u: Unit)
    ensures UnitDate(u).Panic? <==> exists j, k ::
      && 0 <= j < NUM_SEGMENTS && 0 <= k < NUM_SECTIONS
      && SectionDate(u[j].basic[k]).Panic?
      && NothingBefore(u, j, k)
  {
    if UnitDate(u).Panic? {
      var j := FirstDateAt(SegmentDates(u));
      var k := FirstDateAt(SectionDates(u[j]));
      forall j', k' | 0 <= j' < NUM_SEGMENTS && 0 <= k' < NUM_SECTIONS && (j' < j || (j' == j && k' < k))
        ensures SectionDate(u[j'].basic[k']).NoDate?
      {
        if j' < j { assert SegmentDates(u)[j'].NoDate? && SectionDates(u[j'])[k'].NoDate?; }
      }
      assert SectionDate(u[j].basic[k]).Panic? && NothingBefore(u, j, k);
    }
    if j, k :| 0 <= j < NUM_SEGMENTS && 0 <= k < NUM_SECTIONS &&
               SectionDate(u[j].basic[k]).Panic? && NothingBefore(u, j, k) {
      FirstDateIs(SectionDates(u[j]), k);
      forall j' | 0 <= j' < j ensures SegmentDates(u)[j'].NoDate? {
        forall k' | 0 <= k' < NUM_SECTIONS ensures SectionDates(u[j'])[k'].NoDate? {}
      }
      FirstDateIs(SegmentDates(u), j);
    }
  }
}
