// Rebuilding timeshift records from a ring file: finding where the ring starts,
// and splitting it into segments of continuous chunks,
// mirakc/src/rebuild_timeshift.rs.
//
// What running mirakc-arib on a chunk yields, the first and the last timestamp in
// it, is an abstract function of the chunk.
module RebuildScanners {
  import opened Models

  const MIN_CHUNKS: nat := 3
  const DISCONTINUITY_THRESHOLD: int := 10 * 1000

  datatype Range = Range(start: nat, end: nat) {
    predicate IsEmpty() { start >= end }
  }

  type Segment = seq<Range>

  datatype Scanned = Segments(segments: seq<Segment>) | Panicked

  // The first and the last timestamp of each chunk.
  datatype Clocks = Clocks(first: nat -> int, last: nat -> int)

  // Sequences of sequences

  function Flatten<T>(ss: seq<seq<T>>): seq<T> {
    if ss == [] then [] else Flatten(ss[..|ss| - 1]) + ss[|ss| - 1]
  }

  lemma FlattenSnoc<T>(ss: seq<seq<T>>, s: seq<T>)
    ensures Flatten(ss + [s]) == Flatten(ss) + s
  {
    assert (ss + [s])[..|ss|] == ss;
  }

  lemma {:induction false} FlattenCons<T>(ss: seq<seq<T>>)
    requires ss != []
    ensures Flatten(ss) == ss[0] + Flatten(ss[1..])
    decreases |ss|
  {
    var init := ss[..|ss| - 1];
    if init == [] {
      assert ss[1..] == [];
      assert Flatten(ss) == [] + ss[0];
    } else {
      FlattenCons(init);
      assert ss[1..][..|ss[1..]| - 1] == init[1..];
      AppendAssociative(ss[0], Flatten(init[1..]), ss[|ss| - 1]);
    }
  }

  // The group the `p`-th element is in.
  function GroupOf<T>(groups: seq<seq<T>>, p: nat): nat {
    if groups == [] then 0
    else
      var init := groups[..|groups| - 1];
      if p >= |Flatten(init)| then |groups| - 1 else GroupOf(init, p)
  }

  // Splits `order` between its elements `i` and `i + 1` where `cuts[i]`.
  function SplitBy<T>(order: seq<T>, cuts: seq<bool>): (r: seq<seq<T>>)
    requires |order| > 0 && |cuts| == |order| - 1
    ensures r != [] && forall g | g in r :: g != []
    decreases |order|
  {
    if |order| == 1 then [order]
    else Extended(SplitBy(order[..|order| - 1], cuts[..|cuts| - 1]), order[|order| - 1], cuts[|cuts| - 1])
  }

  function Extended<T>(groups: seq<seq<T>>, x: T, cut: bool): (r: seq<seq<T>>)
    requires groups != []
    ensures r != [] && ((forall g | g in groups :: g != []) ==> forall g | g in r :: g != [])
  {
    if cut then groups + [[x]]
    else
      var k := |groups| - 1;
      assert forall g | g in groups[..k] :: g in groups;
      groups[..k] + [groups[k] + [x]]
  }

  lemma ExtendedFlatten<T>(groups: seq<seq<T>>, x: T, cut: bool)
    requires groups != []
    ensures Flatten(Extended(groups, x, cut)) == Flatten(groups) + [x]
  {
    var k := |groups| - 1;
    if cut {
      FlattenSnoc(groups, [x]);
    } else {
      FlattenSnoc(groups[..k], groups[k] + [x]);
      AppendAssociative(Flatten(groups[..k]), groups[k], [x]);
    }
  }

  // Splitting loses nothing, and separates two neighbours exactly at a cut.
  lemma {:induction false} SplitMeans<T>(order: seq<T>, cuts: seq<bool>)
    requires |order| > 0 && |cuts| == |order| - 1
    ensures Flatten(SplitBy(order, cuts)) == order
    ensures forall p, q | 0 <= p < |cuts| && q == p + 1 ::
      cuts[p] <==> GroupOf(SplitBy(order, cuts), p) != GroupOf(SplitBy(order, cuts), q)
    decreases |order|
  {
    if |order| > 1 {
      var m := |order| - 1;
      SplitMeans(order[..m], cuts[..m - 1]);
      var groups := SplitBy(order[..m], cuts[..m - 1]);
      ExtendedFlatten(groups, order[m], cuts[m - 1]);
      assert order[..m] + [order[m]] == order;
      forall p, q | 0 <= p < |cuts| && q == p + 1
        ensures cuts[p] <==> GroupOf(SplitBy(order, cuts), p) != GroupOf(SplitBy(order, cuts), q)
      {
        ExtendedGroupOf(groups, order[m], cuts[m - 1], p);
        if q < m {
          ExtendedGroupOf(groups, order[m], cuts[m - 1], q);
          assert cuts[..m - 1][p] == cuts[p];
        } else {
          LastGroupOf(groups);
        }
      }
    } else {
      assert Flatten([order]) == Flatten([]) + order;
    }
  }

  lemma LastGroupOf<T>(groups: seq<seq<T>>)
    requires groups != [] && forall g | g in groups :: g != []
    ensures |Flatten(groups)| > 0 && GroupOf(groups, |Flatten(groups)| - 1) == |groups| - 1
  {
    assert groups[|groups| - 1] in groups;
  }

  lemma ExtendedGroupOf<T>(groups: seq<seq<T>>, x: T, cut: bool, p: nat)
    requires groups != [] && p < |Flatten(groups)|
    ensures GroupOf(Extended(groups, x, cut), p) == GroupOf(groups, p)
    ensures GroupOf(Extended(groups, x, cut), |Flatten(groups)|) == if cut then |groups| else |groups| - 1
  {
    var k := |groups| - 1;
    assert Extended(groups, x, cut)[..|Extended(groups, x, cut)| - 1] == if cut then groups else groups[..k];
  }

  // Without the first and the last element

  function WithoutFirst<T>(groups: seq<seq<T>>): seq<seq<T>>
    requires groups != [] && groups[0] != []
  {
    if |groups[0]| == 1 then groups[1..] else groups[0 := groups[0][1..]]
  }

  function WithoutLast<T>(groups: seq<seq<T>>): seq<seq<T>>
    requires groups != [] && groups[|groups| - 1] != []
  {
    var k := |groups| - 1;
    if |groups[k]| == 1 then groups[..k] else groups[k := groups[k][..|groups[k]| - 1]]
  }

  lemma ExtendedWithoutLast<T>(groups: seq<seq<T>>, x: T, cut: bool)
    requires groups != [] && groups[|groups| - 1] != []
    ensures
      var e := Extended(groups, x, cut);
      e[|e| - 1] != [] && WithoutLast(e) == groups
  {
    var k := |groups| - 1;
    if cut {
      assert (groups + [[x]])[..|groups|] == groups;
    } else {
      assert (groups[k] + [x])[..|groups[k]|] == groups[k];
      SplitLast(groups);
    }
  }

  lemma SplitWithoutLast<T>(order: seq<T>, cuts: seq<bool>)
    requires |order| > 1 && |cuts| == |order| - 1
    ensures
      var groups := SplitBy(order, cuts);
      && groups[|groups| - 1] != []
      && WithoutLast(groups) == SplitBy(order[..|order| - 1], cuts[..|cuts| - 1])
  {
    var before := SplitBy(order[..|order| - 1], cuts[..|cuts| - 1]);
    assert before[|before| - 1] in before;
    ExtendedWithoutLast(before, order[|order| - 1], cuts[|cuts| - 1]);
  }

  lemma SplitSnoc<T>(init: seq<T>, x: T, cuts: seq<bool>, cut: bool, order: seq<T>, all: seq<bool>)
    requires |init| > 0 && |cuts| == |init| - 1 && order == init + [x] && all == cuts + [cut]
    ensures SplitBy(order, all) == Extended(SplitBy(init, cuts), x, cut)
  {
    assert order[..|order| - 1] == init && all[..|all| - 1] == cuts;
  }

  lemma {:induction false} SplitWithoutFirst<T>(order: seq<T>, cuts: seq<bool>)
    requires |order| > 1 && |cuts| == |order| - 1
    ensures
      var groups := SplitBy(order, cuts);
      groups[0] != [] && WithoutFirst(groups) == SplitBy(order[1..], cuts[1..])
    decreases |order|
  {
    var init, x, before, cut := order[..|order| - 1], order[|order| - 1], cuts[..|cuts| - 1], cuts[|cuts| - 1];
    SplitLast(order);
    SplitLast(cuts);
    SplitSnoc(init, x, before, cut, order, cuts);
    if |init| > 1 {
      SplitWithoutFirst(init, before);
      ExtendedWithoutFirst(SplitBy(init, before), x, cut);
      TailSnoc(init, x);
      TailSnoc(before, cut);
      SplitSnoc(init[1..], x, before[1..], cut, order[1..], cuts[1..]);
    } else {
      TwoSplit(init, x, cut);
      assert order[1..] == [x];
    }
  }

  lemma TwoSplit<T>(init: seq<T>, x: T, cut: bool)
    requires |init| == 1
    ensures
      var e := Extended([init], x, cut);
      e[0] != [] && WithoutFirst(e) == [[x]]
  {
    if !cut { assert (init + [x])[1..] == [x]; }
  }

  lemma ExtendedWithoutFirst<T>(groups: seq<seq<T>>, x: T, cut: bool)
    requires groups != [] && groups[0] != [] && (|groups| > 1 || |groups[0]| > 1)
    ensures
      var e := Extended(groups, x, cut);
      e[0] != [] && WithoutFirst(groups) != [] && WithoutFirst(e) == Extended(WithoutFirst(groups), x, cut)
  {
    var k := |groups| - 1;
    if k == 0 && !cut { assert (groups[0] + [x])[1..] == groups[0][1..] + [x]; }
  }

  // The ring

  // The remainder, by repeated subtraction.
  function Mod(x: nat, n: nat): (r: nat)
    requires n > 0
    ensures r < n
  {
    if x < n then x else Mod(x - n, n)
  }

  lemma OnlyRemainder(x: nat, q: nat, r: nat, n: nat)
    requires n > 0 && x == q * n + r && r < n
    ensures x % n == r
  {
    var d := q - x / n;
    assert x == x / n * n + x % n;
    assert d * n == x % n - r;
    AtLeastOnce(d, n);
  }

  lemma {:induction false} ProductIsNat(a: nat, b: nat)
    ensures a * b >= 0
  {
    if a > 0 {
      ProductIsNat(a - 1, b);
      assert a * b == (a - 1) * b + b;
    }
  }

  lemma AtLeastOnce(d: int, n: nat)
    ensures (d >= 1 ==> d * n >= n) && (d <= -1 ==> d * n <= -(n as int))
  {
    if d >= 1 {
      ProductIsNat(d - 1, n);
      assert d * n == (d - 1) * n + n;
    } else if d <= -1 {
      ProductIsNat(-d - 1, n);
      assert (-d - 1) * n == -(d * n) - n;
    }
  }

  lemma {:induction false} ModIsRemainder(x: nat, n: nat)
    requires n > 0
    ensures Mod(x, n) == x % n
    decreases x
  {
    if x < n {
      OnlyRemainder(x, 0, x, n);
    } else {
      var y := x - n;
      ModIsRemainder(y, n);
      assert y == y / n * n + y % n;
      var q := y / n + 1;
      assert q * n == y / n * n + n;
      OnlyRemainder(x, q, y % n, n);
    }
  }

  // The `i`-th chunk from `start` on.
  function At(start: nat, n: nat, i: nat): nat
    requires n > 0
  {
    Mod(start + i, n)
  }

  lemma AtMeans(start: nat, n: nat, i: nat)
    requires start < n && i < n
    ensures At(start, n, i) == if start + i < n then start + i else start + i - n
  {
    if start + i >= n { ModBelow(start + i - n, n); }
  }

  function Order(start: nat, n: nat): (r: seq<nat>)
    requires n > 0
    ensures |r| == n && forall i | 0 <= i < n :: r[i] == At(start, n, i)
  {
    seq(n, i requires 0 <= i < n => At(start, n, i))
  }

  function Gap(c: Clocks, chunk: nat, next: nat): int { c.first(next) - c.last(chunk) }

  function GapAt(c: Clocks, start: nat, n: nat, i: nat): int
    requires n > 0
  {
    Gap(c, At(start, n, i), At(start, n, i + 1))
  }

  function Cuts(c: Clocks, start: nat, n: nat): (r: seq<bool>)
    requires n > 0
    ensures |r| == n - 1 && forall i | 0 <= i < n - 1 :: r[i] <==> GapAt(c, start, n, i) > DISCONTINUITY_THRESHOLD
  {
    seq(n - 1, i requires 0 <= i < n - 1 => GapAt(c, start, n, i) > DISCONTINUITY_THRESHOLD)
  }

  // Every chunk is listed once, wherever the ring starts.
  lemma OrderListsEachOnce(start: nat, n: nat)
    requires start < n
    ensures forall c | 0 <= c < n :: c in Order(start, n)
    ensures forall i, j | 0 <= i < j < n :: Order(start, n)[i] != Order(start, n)[j]
  {
    forall c | 0 <= c < n ensures c in Order(start, n) {
      var i := if c >= start then c - start else c - start + n;
      AtMeans(start, n, i);
      assert Order(start, n)[i] == c;
    }
    forall i, j | 0 <= i < j < n ensures Order(start, n)[i] != Order(start, n)[j] {
      AtMeans(start, n, i);
      AtMeans(start, n, j);
    }
  }

  // Where the ring starts

  function FindStart(first: nat -> int, left: nat, right: nat): nat
    requires left < right
    decreases right - left
  {
    if right - left < 2 then right
    else
      var mid := left + (right - left) / 2;
      if first(left) < first(mid) then FindStart(first, mid, right) else FindStart(first, left, mid)
  }

  // The search finds the boundary `k`: timestamps rise before it, and from it on
  // none is later than the first.
  lemma {:induction false} FindStartIsBoundary(first: nat -> int, left: nat, right: nat, k: nat)
    requires left < k <= right
    requires forall i, j | left <= i < j < k :: first(i) < first(j)
    requires forall i | k <= i <= right :: first(i) <= first(left)
    ensures FindStart(first, left, right) == k
    decreases right - left
  {
    if right - left >= 2 {
      var mid := left + (right - left) / 2;
      if first(left) < first(mid) {
        FindStartIsBoundary(first, mid, right, k);
      } else {
        FindStartIsBoundary(first, left, mid, k);
      }
    }
  }

  function StartChunk(first: nat -> int, n: nat): nat
    requires n >= MIN_CHUNKS
  {
    if first(0) < first(n - 1) then 0 else FindStart(first, 0, n - 1)
  }

  // The timestamps rise along the ring from chunk `k` on.
  ghost predicate RisesFrom(first: nat -> int, n: nat, k: nat)
    requires n > 0
  {
    forall i, j | 0 <= i < j < n :: first(At(k, n, i)) < first(At(k, n, j))
  }

  lemma StartIsFound(first: nat -> int, n: nat, k: nat)
    requires n >= MIN_CHUNKS && k < n && RisesFrom(first, n, k)
    ensures StartChunk(first, n) == k
  {
    forall a: nat, b: nat | a < n && b < n && a != b && (if a >= k then a - k else a - k + n) < (if b >= k then b - k else b - k + n)
      ensures first(a) < first(b)
    {
      var i, j := if a >= k then a - k else a - k + n, if b >= k then b - k else b - k + n;
      AtMeans(k, n, i);
      AtMeans(k, n, j);
      assert first(At(k, n, i)) < first(At(k, n, j));
    }
    if k > 0 { FindStartIsBoundary(first, 0, n - 1, k); }
  }

  // For any timestamps: the ring starts with the first chunk if that is earlier than
  // the last one, and otherwise with a chunk that is not later than the one before.
  lemma StartMeans(first: nat -> int, n: nat)
    requires n >= 3
    ensures
      var k := StartChunk(first, n);
      if first(0) < first(n - 1) then k == 0 else 0 < k < n && first(k) <= first(k - 1)
  {
    if first(0) >= first(n - 1) { SearchDescends(first, 0, n - 1); }
  }

  lemma {:induction false} SearchDescends(first: nat -> int, left: nat, right: nat)
    requires left < right && first(right) <= first(left)
    ensures
      var k := FindStart(first, left, right);
      left < k <= right && first(k) <= first(k - 1)
    decreases right - left
  {
    if right - left >= 2 {
      var mid := left + (right - left) / 2;
      if first(left) < first(mid) { SearchDescends(first, mid, right); } else { SearchDescends(first, left, mid); }
    }
  }

  // Segments

  function Span(start: nat, end: nat): (r: seq<nat>)
    ensures |r| == (if start <= end then end - start else 0) && forall i | 0 <= i < |r| :: r[i] == start + i
  {
    if start <= end then seq(end - start, i requires 0 <= i => start + i) else []
  }

  function Spans(s: Segment): (r: seq<seq<nat>>)
    ensures |r| == |s| && forall i | 0 <= i < |r| :: r[i] == Span(s[i].start, s[i].end)
  {
    seq(|s|, i requires 0 <= i < |s| => Span(s[i].start, s[i].end))
  }

  // The chunks of a segment, in order.
  function Chunks(s: Segment): seq<nat> { Flatten(Spans(s)) }

  function Listing(ss: seq<Segment>): (r: seq<seq<nat>>)
    ensures |r| == |ss| && forall i | 0 <= i < |r| :: r[i] == Chunks(ss[i])
  {
    seq(|ss|, i requires 0 <= i < |ss| => Chunks(ss[i]))
  }

  function Pushed(s: Segment, r: Range): Segment {
    if r.IsEmpty() then s else s + [r]
  }

  lemma ChunksSnoc(s: Segment, r: Range)
    ensures Chunks(s + [r]) == Chunks(s) + Span(r.start, r.end)
  {
    assert Spans(s + [r]) == Spans(s) + [Span(r.start, r.end)];
    FlattenSnoc(Spans(s), Span(r.start, r.end));
  }

  // Collecting

  datatype Collector = Collector(segments: seq<Segment>, segment: Segment, segStart: nat)

  function Wrapped(c: Collector, n: nat): Collector {
    c.(segment := Pushed(c.segment, Range(c.segStart, n)), segStart := 0)
  }

  function Closed(c: Collector, next: nat): Collector {
    var s := Pushed(c.segment, Range(c.segStart, next));
    Collector(if s == [] then c.segments else c.segments + [s], [], next)
  }

  function Stepped(c: Collector, chunk: nat, next: nat, n: nat, cut: bool): Collector {
    var c1 := if chunk > next then Wrapped(c, n) else c;
    if cut then Closed(c1, next) else c1
  }

  // The groups collected so far, `chunk` being the last chunk seen.
  function Collected(c: Collector, chunk: nat): seq<seq<nat>> {
    Listing(c.segments) + [Chunks(c.segment) + Span(c.segStart, chunk + 1)]
  }

  predicate Follows(chunk: nat, next: nat, n: nat) {
    chunk < n && next == (if chunk + 1 < n then chunk + 1 else 0)
  }

  lemma ListingSnoc(ss: seq<Segment>, s: Segment)
    ensures Listing(ss + [s]) == Listing(ss) + [Chunks(s)]
  {
  }

  lemma SpanSnoc(start: nat, end: nat)
    requires start <= end
    ensures Span(start, end + 1) == Span(start, end) + [end]
  {
  }

  lemma WrappedCollects(c: Collector, n: nat)
    requires c.segStart < n
    ensures Chunks(Wrapped(c, n).segment) == Chunks(c.segment) + Span(c.segStart, n)
    ensures Wrapped(c, n).segment != []
  {
    ChunksSnoc(c.segment, Range(c.segStart, n));
  }

  lemma ExtendedLast<T>(groups: seq<seq<T>>, g: seq<T>, x: T, cut: bool)
    ensures Extended(groups + [g], x, cut) == if cut then groups + [g] + [[x]] else groups + [g + [x]]
  {
    assert (groups + [g])[..|groups|] == groups;
  }

  lemma FreshCollects(ss: seq<Segment>, next: nat)
    ensures Collected(Collector(ss, [], next), next) == Listing(ss) + [[next]]
  {
    assert Span(next, next + 1) == [next];
    EmptySum(Span(next, next + 1));
  }

  // The group that is being collected when `next` comes.
  lemma StepGoesOn(c: Collector, chunk: nat, next: nat, cut: bool, g: seq<nat>)
    requires next == chunk + 1 && c.segStart <= chunk && g == Chunks(c.segment) + Span(c.segStart, next)
    ensures Collected(if cut then Closed(c, next) else c, next) ==
      if cut then Listing(c.segments) + [g] + [[next]] else Listing(c.segments) + [g + [next]]
  {
    if cut {
      var s := c.segment + [Range(c.segStart, next)];
      ChunksSnoc(c.segment, Range(c.segStart, next));
      ListingSnoc(c.segments, s);
      FreshCollects(c.segments + [s], next);
    } else {
      SpanSnoc(c.segStart, next);
      AppendAssociative(Chunks(c.segment), Span(c.segStart, next), [next]);
    }
  }

  lemma StepWraps(c: Collector, n: nat, cut: bool, g: seq<nat>)
    requires c.segStart < n && g == Chunks(c.segment) + Span(c.segStart, n)
    ensures Collected(if cut then Closed(Wrapped(c, n), 0) else Wrapped(c, n), 0) ==
      if cut then Listing(c.segments) + [g] + [[0]] else Listing(c.segments) + [g + [0]]
  {
    var s := Wrapped(c, n).segment;
    WrappedCollects(c, n);
    if cut {
      ListingSnoc(c.segments, s);
      FreshCollects(c.segments + [s], 0);
    } else {
      assert Span(0, 1) == [0];
    }
  }

  lemma StepCollects(c: Collector, chunk: nat, next: nat, n: nat, cut: bool)
    requires Follows(chunk, next, n) && n > 1 && c.segStart <= chunk
    ensures Stepped(c, chunk, next, n, cut).segStart <= next
    ensures Collected(Stepped(c, chunk, next, n, cut), next) == Extended(Collected(c, chunk), next, cut)
  {
    var g := Chunks(c.segment) + Span(c.segStart, chunk + 1);
    ExtendedLast(Listing(c.segments), g, next, cut);
    if chunk > next { StepWraps(c, n, cut, g); } else { StepGoesOn(c, chunk, next, cut, g); }
  }

  // Ranges in a row

  function Total(rs: seq<Range>): int {
    if rs == [] then 0 else Total(rs[..|rs| - 1]) + rs[|rs| - 1].end - rs[|rs| - 1].start
  }

  function EndOf(rs: seq<Range>, start: nat): nat {
    if rs == [] then start else rs[|rs| - 1].end
  }

  // Each range begins where the one before it ends, on the ring.
  predicate Chained(rs: seq<Range>, start: nat, n: nat)
    requires n > 0
  {
    rs == [] ||
    var k := |rs| - 1;
    Chained(rs[..k], start, n) && !rs[k].IsEmpty() && rs[k].start == Mod(EndOf(rs[..k], start), n)
  }

  ghost predicate Within(rs: seq<Range>, n: nat) {
    forall r | r in rs :: r.start < r.end <= n
  }

  lemma ChainSnoc(rs: seq<Range>, start: nat, n: nat, r: Range)
    requires n > 0
    ensures Chained(rs + [r], start, n) <==> Chained(rs, start, n) && !r.IsEmpty() && r.start == Mod(EndOf(rs, start), n)
    ensures EndOf(rs + [r], start) == r.end
    ensures Total(rs + [r]) == Total(rs) + r.end - r.start
  {
    assert (rs + [r])[..|rs|] == rs;
  }

  lemma {:induction false} InitChained(rs: seq<Range>, start: nat, n: nat, k: nat)
    requires n > 0 && k <= |rs| && Chained(rs, start, n)
    ensures Chained(rs[..k], start, n)
    decreases |rs|
  {
    if k < |rs| {
      var init := rs[..|rs| - 1];
      InitChained(init, start, n, k);
      assert init[..k] == rs[..k];
    } else {
      assert rs[..k] == rs;
    }
  }

  lemma ChainedAt(rs: seq<Range>, start: nat, n: nat, j: nat)
    requires n > 0 && j < |rs| && Chained(rs, start, n)
    ensures !rs[j].IsEmpty() && rs[j].start == Mod(EndOf(rs[..j], start), n)
  {
    InitChained(rs, start, n, j + 1);
    TakeNext(rs, j, j + 1);
    ChainSnoc(rs[..j], start, n, rs[j]);
  }

  function Ranges(c: Collector): seq<Range> { Flatten(c.segments) + c.segment }

  // After `seen` chunks, the last of them being `chunk`.
  ghost predicate InRow(c: Collector, start: nat, n: nat, chunk: nat, seen: nat)
    requires n > 0
  {
    && c.segStart <= chunk
    && Chained(Ranges(c), start, n)
    && Within(Ranges(c), n)
    && Mod(EndOf(Ranges(c), start), n) == c.segStart
    && Total(Ranges(c)) + chunk + 1 - c.segStart == seen
    && forall s | s in c.segments :: s != []
  }

  lemma RangesPushed(c: Collector, r: Range)
    ensures Ranges(c.(segment := c.segment + [r])) == Ranges(c) + [r]
    ensures Flatten(c.segments + [c.segment]) == Ranges(c)
  {
    AppendAssociative(Flatten(c.segments), c.segment, [r]);
    FlattenSnoc(c.segments, c.segment);
  }

  lemma WrappedInRow(c: Collector, start: nat, n: nat, seen: nat)
    requires n > 1 && start < n && InRow(c, start, n, n - 1, seen)
    ensures InRow(Wrapped(c, n), start, n, 0, seen + 1)
  {
    var r := Range(c.segStart, n);
    RangesPushed(c, r);
    ChainSnoc(Ranges(c), start, n, r);
  }

  lemma ClosedRanges(c: Collector, next: nat)
    requires c.segStart < next && forall s | s in c.segments :: s != []
    ensures Ranges(Closed(c, next)) == Ranges(c) + [Range(c.segStart, next)]
    ensures forall s | s in Closed(c, next).segments :: s != []
  {
    var r := Range(c.segStart, next);
    RangesPushed(c, r);
    RangesPushed(c.(segment := c.segment + [r]), r);
    assert Ranges(Closed(c, next)) == Flatten(c.segments + [c.segment + [r]]) + [];
  }

  // A cut before `next`, which is not yet counted.
  lemma ClosedInRow(c: Collector, start: nat, n: nat, chunk: nat, next: nat, seen: nat)
    requires n > 1 && start < n && next == chunk + 1 < n && InRow(c, start, n, chunk, seen)
    ensures InRow(Closed(c, next), start, n, next, seen + 1)
  {
    ClosedRanges(c, next);
    ChainSnoc(Ranges(c), start, n, Range(c.segStart, next));
    ModBelow(next, n);
  }

  lemma ModBelow(x: nat, n: nat)
    requires x < n
    ensures Mod(x, n) == x
  {
  }

  lemma ClosedAtWrapInRow(c: Collector, start: nat, n: nat, seen: nat)
    requires n > 1 && c.segStart == 0 && c.segment != [] && InRow(c, start, n, 0, seen)
    ensures InRow(Closed(c, 0), start, n, 0, seen)
  {
    RangesPushed(c, Range(0, 0));
    assert Flatten(Closed(c, 0).segments) + [] == Ranges(c);
  }

  lemma StepInRow(c: Collector, start: nat, n: nat, chunk: nat, next: nat, cut: bool, seen: nat)
    requires n > 1 && start < n && Follows(chunk, next, n) && InRow(c, start, n, chunk, seen)
    ensures InRow(Stepped(c, chunk, next, n, cut), start, n, next, seen + 1)
  {
    if chunk > next {
      WrappedInRow(c, start, n, seen);
      WrappedCollects(c, n);
      if cut { ClosedAtWrapInRow(Wrapped(c, n), start, n, seen + 1); }
    } else if cut {
      ClosedInRow(c, start, n, chunk, next, seen);
    }
  }

  function EndChunk(start: nat, n: nat): nat { if start == 0 then n else start }

  // The last range is pushed and the last segment is complete.
  function Finished(c: Collector, end: nat): seq<Segment> {
    var s := Pushed(c.segment, Range(c.segStart, end));
    if s == [] then c.segments else c.segments + [s]
  }

  lemma FinishedRanges(c: Collector, end: nat, r: Range)
    requires r == Range(c.segStart, end) && c.segStart < end
    ensures Flatten(Finished(c, end)) == Ranges(c) + [r]
    ensures Finished(c, end) == c.segments + [c.segment + [r]]
  {
    RangesPushed(c, r);
    RangesPushed(c.(segment := c.segment + [r]), r);
  }

  lemma FinishedListing(c: Collector, end: nat, chunk: nat)
    requires c.segStart <= chunk && end == chunk + 1
    ensures Listing(Finished(c, end)) == Collected(c, chunk)
  {
    var r := Range(c.segStart, end);
    ChunksSnoc(c.segment, r);
    ListingSnoc(c.segments, c.segment + [r]);
  }

  lemma FinishedInRow(c: Collector, start: nat, n: nat, end: nat, chunk: nat)
    requires n > 1 && start < n && end == chunk + 1 <= n && InRow(c, start, n, chunk, n)
    ensures
      var rs := Flatten(Finished(c, end));
      Chained(rs, start, n) && Within(rs, n) && EndOf(rs, start) == end && Total(rs) == n
    ensures Finished(c, end) != [] && forall s | s in Finished(c, end) :: s != []
  {
    var r := Range(c.segStart, end);
    FinishedRanges(c, end, r);
    ChainSnoc(Ranges(c), start, n, r);
    forall s | s in c.segments + [c.segment + [r]] ensures s != [] { assert s in c.segments || s == c.segment + [r]; }
  }

  // The self-check

  ghost predicate Valid(segments: seq<Segment>, start: nat, end: nat, n: nat, total: nat)
    requires n > 0
  {
    var rs := Flatten(segments);
    Chained(rs, start, n) && EndOf(rs, start) == end && Total(rs) == total
  }

  // The ranges checked so far, and where they end.
  ghost predicate Checked(done: seq<Range>, start: nat, n: nat, prev: nat, sum: int)
    requires n > 0
  {
    Chained(done, start, n) && prev == EndOf(done, start) && sum == Total(done)
  }

  method ValidateSegments(segments: seq<Segment>, start: nat, end: nat, n: nat, total: nat) returns (ok: bool)
    requires n > 0
    ensures ok <==> Valid(segments, start, end, n, total)
  {
    var prev: nat, sum: int := start, 0;
    for i := 0 to |segments|
      invariant Checked(Flatten(segments[..i]), start, n, prev, sum)
    {
      ghost var before := Flatten(segments[..i]);
      assert before + segments[i][..0] == before;
      for j := 0 to |segments[i]|
        invariant Checked(before + segments[i][..j], start, n, prev, sum)
      {
        var r := segments[i][j];
        ModIsRemainder(prev, n);
        if r.IsEmpty() || r.start != prev % n {
          NotChained(segments, i, j, start, n, before + segments[i][..j]);
          return false;
        }
        NextChecked(before, segments[i], j, j + 1, start, n, prev, sum);
        prev, sum := r.end, sum + (r.end - r.start);
      }
      assert segments[i][..|segments[i]|] == segments[i];
      NextSegmentFlatten(segments, i, i + 1);
    }
    assert segments[..|segments|] == segments;
    ok := prev == end && sum == total;
  }

  lemma NextChecked(before: seq<Range>, s: Segment, j: nat, next: nat, start: nat, n: nat, prev: nat, sum: int)
    requires n > 0 && j < |s| && next == j + 1 && Checked(before + s[..j], start, n, prev, sum)
    requires !s[j].IsEmpty() && s[j].start == Mod(prev, n)
    ensures Checked(before + s[..next], start, n, s[j].end, sum + (s[j].end - s[j].start))
  {
    TakeNext(s, j, next);
    AppendAssociative(before, s[..j], [s[j]]);
    ChainSnoc(before + s[..j], start, n, s[j]);
  }

  lemma NextSegmentFlatten(segments: seq<Segment>, i: nat, next: nat)
    requires i < |segments| && next == i + 1
    ensures Flatten(segments[..next]) == Flatten(segments[..i]) + segments[i]
  {
    TakeNext(segments, i, next);
    FlattenSnoc(segments[..i], segments[i]);
  }

  lemma {:induction false} PrefixOfFlatten(segments: seq<Segment>, i: nat, j: nat)
    requires i < |segments| && j < |segments[i]|
    ensures
      var before := Flatten(segments[..i]) + segments[i][..j];
      && |before| < |Flatten(segments)|
      && Flatten(segments)[..|before|] == before
      && Flatten(segments)[|before|] == segments[i][j]
    decreases |segments|
  {
    var m := |segments| - 1;
    if i < m {
      PrefixOfFlatten(segments[..m], i, j);
      assert segments[..m][..i] == segments[..i];
    }
  }

  lemma NotChained(segments: seq<Segment>, i: nat, j: nat, start: nat, n: nat, before: seq<Range>)
    requires n > 0 && i < |segments| && j < |segments[i]| && before == Flatten(segments[..i]) + segments[i][..j]
    requires segments[i][j].IsEmpty() || segments[i][j].start != Mod(EndOf(before, start), n)
    ensures !Chained(Flatten(segments), start, n)
  {
    PrefixOfFlatten(segments, i, j);
    if Chained(Flatten(segments), start, n) { ChainedAt(Flatten(segments), start, n, |before|); }
  }

  // Trimming

  predicate NoneEmpty(s: Segment) {
    forall i | 0 <= i < |s| :: s[i].start < s[i].end
  }

  // `Vec::retain` with the ranges, or segments, that are not empty.
  function Retained(s: Segment): Segment {
    if s == [] then []
    else (if s[0].IsEmpty() then [] else [s[0]]) + Retained(s[1..])
  }

  lemma {:induction false} RetainedSame(s: Segment)
    requires NoneEmpty(s)
    ensures Retained(s) == s
    decreases |s|
  {
    if s != [] {
      RetainedSame(s[1..]);
      assert s == [s[0]] + s[1..];
    }
  }

  function DropEmpty<T>(ss: seq<seq<T>>): seq<seq<T>> {
    if ss == [] then []
    else (if ss[0] == [] then [] else [ss[0]]) + DropEmpty(ss[1..])
  }

  lemma {:induction false} DropEmptySame<T>(ss: seq<seq<T>>)
    requires forall i | 0 <= i < |ss| :: ss[i] != []
    ensures DropEmpty(ss) == ss
    decreases |ss|
  {
    if ss != [] {
      DropEmptySame(ss[1..]);
      assert ss == [ss[0]] + ss[1..];
    }
  }

  function FirstTrimmed(s: Segment): Segment
    requires s != []
  {
    Retained(s[0 := Range(s[0].start + 1, s[0].end)])
  }

  function LastTrimmed(s: Segment): Segment
    requires s != [] && s[|s| - 1].end > 0
  {
    Retained(s[|s| - 1 := Range(s[|s| - 1].start, s[|s| - 1].end - 1)])
  }

  lemma {:induction false} RetainedSnoc(s: Segment, r: Range)
    ensures Retained(s + [r]) == Retained(s) + if r.IsEmpty() then [] else [r]
    decreases |s|
  {
    if s == [] {
      assert [r][1..] == [];
    } else {
      TailSum(s, [r]);
      RetainedSnoc(s[1..], r);
      AppendAssociative(if s[0].IsEmpty() then [] else [s[0]], Retained(s[1..]), if r.IsEmpty() then [] else [r]);
    }
  }

  lemma FirstTrimmedIs(s: Segment)
    requires s != [] && NoneEmpty(s)
    ensures FirstTrimmed(s) ==
      if s[0].start + 1 == s[0].end then s[1..] else [Range(s[0].start + 1, s[0].end)] + s[1..]
  {
    var t := s[0 := Range(s[0].start + 1, s[0].end)];
    assert t == [t[0]] + s[1..];
    assert t[1..] == s[1..];
    RetainedSame(s[1..]);
  }

  lemma LastTrimmedIs(s: Segment)
    requires s != [] && NoneEmpty(s)
    ensures
      var k := |s| - 1;
      LastTrimmed(s) ==
      s[..k] + if s[k].start + 1 == s[k].end then [] else [Range(s[k].start, s[k].end - 1)]
  {
    var k := |s| - 1;
    var r := Range(s[k].start, s[k].end - 1);
    assert s[k := r] == s[..k] + [r];
    RetainedSnoc(s[..k], r);
    RetainedSame(s[..k]);
  }

  lemma ChunksCons(s: Segment)
    requires s != []
    ensures Chunks(s) == Span(s[0].start, s[0].end) + Chunks(s[1..])
  {
    FlattenCons(Spans(s));
    assert Spans(s)[1..] == Spans(s[1..]);
  }

  lemma SpanCons(start: nat, next: nat, end: nat)
    requires next == start + 1 <= end
    ensures Span(start, end) == [start] + Span(next, end)
  {
  }

  lemma FirstTrimmedChunks(s: Segment)
    requires s != [] && NoneEmpty(s)
    ensures Chunks(s) == [s[0].start] + Chunks(FirstTrimmed(s))
  {
    FirstTrimmedIs(s);
    ChunksCons(s);
    var start, next, end, rest := s[0].start, s[0].start + 1, s[0].end, s[1..];
    SpanCons(start, next, end);
    AppendAssociative([start], Span(next, end), Chunks(rest));
    WithoutFirstChunk(FirstTrimmed(s), next, end, rest);
  }

  lemma WithoutFirstChunk(t: Segment, next: nat, end: nat, rest: Segment)
    requires next <= end && t == if next == end then rest else [Range(next, end)] + rest
    ensures Chunks(t) == Span(next, end) + Chunks(rest)
  {
    if next == end {
      EmptySum(Chunks(rest));
    } else {
      TailOfCons(Range(next, end), rest);
      ChunksCons(t);
    }
  }

  lemma LastTrimmedChunks(s: Segment)
    requires s != [] && NoneEmpty(s)
    ensures Chunks(s) == Chunks(LastTrimmed(s)) + [s[|s| - 1].end - 1]
  {
    LastTrimmedIs(s);
    var k := |s| - 1;
    var start, last, end := s[k].start, s[k].end - 1, s[k].end;
    SplitLast(s);
    ChunksSnoc(s[..k], s[k]);
    SpanSnoc(start, last);
    AppendAssociative(Chunks(s[..k]), Span(start, last), [last]);
    if start == last {
      assert s[..k] + [] == s[..k] && Chunks(s[..k]) + Span(start, last) == Chunks(s[..k]);
    } else {
      ChunksSnoc(s[..k], Range(start, last));
    }
  }

  lemma ChunksOfSome(s: Segment)
    requires NoneEmpty(s)
    ensures Chunks(s) == [] <==> s == []
  {
    if s != [] { FirstTrimmedChunks(s); }
  }

  function FirstDropped(ss: seq<Segment>): seq<Segment>
    requires ss != [] && ss[0] != []
  {
    ss[0 := FirstTrimmed(ss[0])]
  }

  function LastDropped(ss: seq<Segment>): seq<Segment>
    requires ss != [] && ss[|ss| - 1] != [] && ss[|ss| - 1][|ss[|ss| - 1]| - 1].end > 0
  {
    ss[|ss| - 1 := LastTrimmed(ss[|ss| - 1])]
  }

  // Segments without empty ranges that are not empty.
  ghost predicate Solid(ss: seq<Segment>) {
    forall i | 0 <= i < |ss| :: ss[i] != [] && NoneEmpty(ss[i])
  }

  lemma ListingCons(ss: seq<Segment>)
    requires ss != []
    ensures Listing(ss) == [Chunks(ss[0])] + Listing(ss[1..])
  {
  }

  lemma {:induction false} ListingDropEmpty(ss: seq<Segment>)
    requires forall i | 0 <= i < |ss| :: NoneEmpty(ss[i])
    ensures Listing(DropEmpty(ss)) == DropEmpty(Listing(ss))
    decreases |ss|
  {
    if ss != [] {
      ChunksOfSome(ss[0]);
      ListingDropEmpty(ss[1..]);
      ListingCons(ss);
      assert Listing(ss)[1..] == Listing(ss[1..]);
      if ss[0] != [] {
        ListingCons([ss[0]] + DropEmpty(ss[1..]));
        assert ([ss[0]] + DropEmpty(ss[1..]))[1..] == DropEmpty(ss[1..]);
      }
    }
  }

  function Kept<T>(s: seq<T>): seq<seq<T>> { if s == [] then [] else [s] }

  lemma {:induction false} DropEmptySum<T>(a: seq<seq<T>>, b: seq<seq<T>>)
    ensures DropEmpty(a + b) == DropEmpty(a) + DropEmpty(b)
    decreases |a|
  {
    if a == [] {
      assert a + b == b;
    } else {
      assert (a + b)[1..] == a[1..] + b;
      DropEmptySum(a[1..], b);
    }
  }

  lemma DropEmptyOne<T>(s: seq<T>)
    ensures DropEmpty([s]) == Kept(s)
  {
    assert [s][1..] == [];
  }

  lemma WithoutFirstIs<T>(g: seq<T>, rest: seq<seq<T>>)
    requires g != []
    ensures WithoutFirst([g] + rest) == Kept(g[1..]) + rest
  {
    assert ([g] + rest)[1..] == rest;
  }

  lemma WithoutLastIs<T>(init: seq<seq<T>>, g: seq<T>)
    requires g != []
    ensures WithoutLast(init + [g]) == init + Kept(g[..|g| - 1])
  {
    assert (init + [g])[..|init|] == init;
  }

  lemma DropEmptyEnds<T>(first: seq<T>, mid: seq<seq<T>>, last: seq<T>)
    requires forall i | 0 <= i < |mid| :: mid[i] != []
    ensures DropEmpty([first] + mid + [last]) == Kept(first) + mid + Kept(last)
  {
    DropEmptySum([first] + mid, [last]);
    DropEmptySum([first], mid);
    DropEmptyOne(first);
    DropEmptyOne(last);
    DropEmptySame(mid);
  }

  // The groups without their first and last element, dropping those left empty.
  lemma TrimmedGroups<T>(a: seq<T>, mid: seq<seq<T>>, b: seq<T>)
    requires a != [] && b != [] && forall i | 0 <= i < |mid| :: mid[i] != []
    ensures
      var groups := [a] + mid + [b];
      && WithoutFirst(groups) != [] && WithoutFirst(groups)[|WithoutFirst(groups)| - 1] != []
      && WithoutLast(WithoutFirst(groups)) == DropEmpty([a[1..]] + mid + [b[..|b| - 1]])
  {
    AppendAssociative([a], mid, [b]);
    WithoutFirstIs(a, mid + [b]);
    AppendAssociative(Kept(a[1..]), mid, [b]);
    WithoutLastIs(Kept(a[1..]) + mid, b);
    DropEmptyEnds(a[1..], mid, b[..|b| - 1]);
  }

  lemma ListingReplaced(ss: seq<Segment>, i: nat, s: Segment)
    requires i < |ss|
    ensures Listing(ss[i := s]) == Listing(ss)[i := Chunks(s)]
  {
  }

  lemma SolidListing(ss: seq<Segment>)
    requires Solid(ss)
    ensures forall i | 0 <= i < |ss| :: Listing(ss)[i] != []
  {
    forall i | 0 <= i < |ss| ensures Listing(ss)[i] != [] { ChunksOfSome(ss[i]); }
  }

  ghost predicate Trimmable(ss: seq<Segment>) {
    && ss != [] && ss[0] != []
    && var ss1 := FirstDropped(ss);
       ss1[|ss| - 1] != [] && ss1[|ss| - 1][|ss1[|ss| - 1]| - 1].end > 0
  }

  function Trimmed(ss: seq<Segment>): seq<Segment>
    requires Trimmable(ss)
  {
    DropEmpty(LastDropped(FirstDropped(ss)))
  }

  ghost predicate AllNoneEmpty(ss: seq<Segment>) {
    forall i | 0 <= i < |ss| :: NoneEmpty(ss[i])
  }

  lemma FirstDroppedListing(ss: seq<Segment>)
    requires Solid(ss) && ss != []
    ensures AllNoneEmpty(FirstDropped(ss))
    ensures Listing(ss)[0] != []
    ensures Listing(FirstDropped(ss)) == Listing(ss)[0 := Listing(ss)[0][1..]]
  {
    FirstDroppedNoneEmpty(ss);
    FirstTrimmedChunks(ss[0]);
    ListingReplaced(ss, 0, FirstTrimmed(ss[0]));
  }

  lemma FirstDroppedNoneEmpty(ss: seq<Segment>)
    requires Solid(ss) && ss != []
    ensures AllNoneEmpty(FirstDropped(ss))
  {
    FirstTrimmedIs(ss[0]);
    forall i | 0 <= i < |ss| ensures NoneEmpty(FirstDropped(ss)[i]) {
      assert ss[i] != [] && NoneEmpty(ss[i]);
    }
  }

  lemma LastDroppedListing(ss: seq<Segment>, groups: seq<seq<nat>>, k: nat)
    requires AllNoneEmpty(ss) && k < |ss| == k + 1 && ss[k] != [] && groups == Listing(ss)
    ensures AllNoneEmpty(LastDropped(ss))
    ensures groups[k] != [] && Listing(LastDropped(ss)) == groups[k := WithoutEnd(groups[k])]
  {
    LastTrimmedNoneEmpty(ss[k]);
    LastTrimmedPrefix(ss[k]);
    ListingReplaced(ss, k, LastTrimmed(ss[k]));
  }

  function WithoutEnd<T>(s: seq<T>): seq<T>
    requires s != []
  {
    s[..|s| - 1]
  }

  lemma LastTrimmedNoneEmpty(s: Segment)
    requires s != [] && NoneEmpty(s)
    ensures NoneEmpty(LastTrimmed(s))
  {
    LastTrimmedIs(s);
  }

  lemma LastTrimmedPrefix(s: Segment)
    requires s != [] && NoneEmpty(s)
    ensures Chunks(s) != [] && Chunks(LastTrimmed(s)) == WithoutEnd(Chunks(s))
  {
    LastTrimmedChunks(s);
  }

  // There is enough left to trim the last chunk.
  lemma EnoughToTrim(ss: seq<Segment>)
    requires Solid(ss) && ss != [] && (|ss| == 1 ==> |Listing(ss)[0]| > 1)
    ensures Trimmable(ss)
  {
    FirstDroppedListing(ss);
    if |ss| == 1 { assert Listing(FirstDropped(ss))[0] != []; }
  }

  predicate Long<T>(groups: seq<seq<T>>) {
    && groups != []
    && (forall i | 0 <= i < |groups| :: groups[i] != [])
    && (|groups| == 1 ==> |groups[0]| > 2)
  }

  function EndsOff<T>(groups: seq<seq<T>>): seq<seq<T>>
    requires Long(groups)
  {
    var k, first := |groups| - 1, groups[0 := groups[0][1..]];
    first[k := WithoutEnd(first[k])]
  }

  lemma DropEmptyListing(ss: seq<Segment>, groups: seq<seq<nat>>)
    requires AllNoneEmpty(ss) && groups == Listing(ss)
    ensures Solid(DropEmpty(ss)) && Listing(DropEmpty(ss)) == DropEmpty(groups)
  {
    ListingDropEmpty(ss);
    TrimmedIsSolid(ss);
  }

  // Once the first chunk is gone.
  lemma LastStepListing(ss: seq<Segment>, first: seq<seq<nat>>, groups: seq<seq<nat>>, k: nat)
    requires AllNoneEmpty(ss) && k < |ss| == k + 1 && ss[k] != [] && first == Listing(ss)
    requires Long(groups) && |groups| == k + 1 && first == groups[0 := groups[0][1..]]
    ensures Solid(DropEmpty(LastDropped(ss)))
    ensures Listing(DropEmpty(LastDropped(ss))) == DropEmpty(EndsOff(groups))
  {
    LastDroppedListing(ss, first, k);
    DropEmptyListing(LastDropped(ss), first[k := WithoutEnd(first[k])]);
  }

  lemma TrimmedListing(ss: seq<Segment>)
    requires Solid(ss) && Long(Listing(ss))
    ensures Trimmable(ss) && Solid(Trimmed(ss))
    ensures Listing(Trimmed(ss)) == DropEmpty(EndsOff(Listing(ss)))
  {
    EnoughToTrim(ss);
    FirstDroppedListing(ss);
    LastStepListing(FirstDropped(ss), Listing(FirstDropped(ss)), Listing(ss), |ss| - 1);
  }

  lemma TwiceTrimmed<T>(groups: seq<seq<T>>)
    requires Long(groups)
    ensures WithoutFirst(groups) != [] && WithoutFirst(groups)[|WithoutFirst(groups)| - 1] != []
    ensures DropEmpty(EndsOff(groups)) == WithoutLast(WithoutFirst(groups))
  {
    var k := |groups| - 1;
    if k > 0 {
      var a, mid, b := groups[0], groups[1..k], groups[k];
      assert groups == [a] + mid + [b];
      assert EndsOff(groups) == [a[1..]] + mid + [b[..|b| - 1]];
      TrimmedGroups(a, mid, b);
    } else {
      DropEmptyOne(groups[0][1..][..|groups[0]| - 2]);
    }
  }

  lemma {:induction false} TrimmedIsSolid(ss: seq<Segment>)
    requires forall i | 0 <= i < |ss| :: NoneEmpty(ss[i])
    ensures Solid(DropEmpty(ss))
    decreases |ss|
  {
    if ss != [] { TrimmedIsSolid(ss[1..]); }
  }

  // The ranges after trimming

  function RangesWithoutFirst(rs: seq<Range>): seq<Range>
    requires rs != []
  {
    if rs[0].start + 1 == rs[0].end then rs[1..] else [Range(rs[0].start + 1, rs[0].end)] + rs[1..]
  }

  function RangesWithoutLast(rs: seq<Range>): seq<Range>
    requires rs != [] && rs[|rs| - 1].end > 0
  {
    var k := |rs| - 1;
    rs[..k] + if rs[k].start + 1 == rs[k].end then [] else [Range(rs[k].start, rs[k].end - 1)]
  }

  lemma {:induction false} FlattenDropEmpty<T>(ss: seq<seq<T>>)
    ensures Flatten(DropEmpty(ss)) == Flatten(ss)
    decreases |ss|
  {
    if ss != [] {
      var k := |ss| - 1;
      assert ss == ss[..k] + [ss[k]];
      DropEmptySum(ss[..k], [ss[k]]);
      DropEmptyOne(ss[k]);
      FlattenDropEmpty(ss[..k]);
      if ss[k] != [] {
        FlattenSnoc(DropEmpty(ss[..k]), ss[k]);
      } else {
        assert DropEmpty(ss[..k]) + [] == DropEmpty(ss[..k]);
        assert Flatten(ss[..k]) + [] == Flatten(ss[..k]);
      }
    }
  }

  lemma FirstRangesTrimmed(s: Segment, rest: seq<Range>)
    requires s != [] && NoneEmpty(s)
    ensures RangesWithoutFirst(s + rest) == FirstTrimmed(s) + rest
  {
    FirstTrimmedIs(s);
    TailSum(s, rest);
    AppendAssociative([Range(s[0].start + 1, s[0].end)], s[1..], rest);
  }

  lemma FirstDroppedRanges(ss: seq<Segment>)
    requires ss != [] && ss[0] != [] && NoneEmpty(ss[0])
    ensures Flatten(ss) != [] && Flatten(FirstDropped(ss)) == RangesWithoutFirst(Flatten(ss))
  {
    FlattenCons(ss);
    FlattenCons(FirstDropped(ss));
    assert FirstDropped(ss)[1..] == ss[1..];
    FirstRangesTrimmed(ss[0], Flatten(ss[1..]));
  }

  lemma LastDroppedRanges(ss: seq<Segment>)
    requires ss != [] && ss[|ss| - 1] != [] && NoneEmpty(ss[|ss| - 1])
    ensures
      var rs := Flatten(ss);
      && rs != [] && rs[|rs| - 1].end > 0
      && Flatten(LastDropped(ss)) == RangesWithoutLast(rs)
  {
    var k := |ss| - 1;
    var s := ss[k];
    LastTrimmedIs(s);
    var before, rs := Flatten(ss[..k]), Flatten(ss);
    assert LastDropped(ss)[..k] == ss[..k];
    assert rs[|rs| - 1] == s[|s| - 1];
    assert rs[..|rs| - 1] == before + s[..|s| - 1];
    AppendAssociative(before, s[..|s| - 1], LastTrimmed(s)[|s| - 1..]);
    assert LastTrimmed(s) == s[..|s| - 1] + LastTrimmed(s)[|s| - 1..];
  }

  lemma {:induction false} ConsChained(r: Range, tail: seq<Range>, next: nat, n: nat)
    requires n > 0 && !r.IsEmpty() && r.start == Mod(next, n) && Chained(tail, r.end, n)
    ensures Chained([r] + tail, next, n)
    decreases |tail|
  {
    if tail == [] {
      assert [r] + tail == [] + [r];
      ChainSnoc([], next, n, r);
    } else {
      var k := |tail| - 1;
      ConsChained(r, tail[..k], next, n);
      SplitLast(tail);
      AppendAssociative([r], tail[..k], [tail[k]]);
      ChainSnoc([r] + tail[..k], next, n, tail[k]);
      assert EndOf([r] + tail[..k], next) == EndOf(tail[..k], r.end);
    }
  }

  lemma TailEnd(rs: seq<Range>, start: nat, n: nat, next: nat)
    requires n > 0 && rs != [] && Mod(next, n) == Mod(rs[0].end, n)
    ensures Mod(EndOf(rs[1..], next), n) == Mod(EndOf(rs, start), n)
  {
    if |rs| == 1 { assert rs[1..] == []; }
  }

  lemma {:induction false} TailChained(rs: seq<Range>, start: nat, n: nat, next: nat)
    requires n > 0 && rs != [] && Chained(rs, start, n) && Mod(next, n) == Mod(rs[0].end, n)
    ensures Chained(rs[1..], next, n)
    decreases |rs|
  {
    if |rs| > 1 {
      var init, last := rs[..|rs| - 1], rs[|rs| - 1];
      TailChained(init, start, n, next);
      TailEnd(init, start, n, next);
      SplitLast(rs);
      TailSnoc(init, last);
      ChainSnoc(init[1..], next, n, last);
    }
  }

  function Successor(chunk: nat, n: nat): nat { if chunk + 1 < n then chunk + 1 else 0 }

  lemma ChainWithoutFirst(rs: seq<Range>, start: nat, n: nat)
    requires n > 1 && start < n && rs != [] && Chained(rs, start, n) && Within(rs, n)
    ensures Chained(RangesWithoutFirst(rs), Successor(start, n), n)
  {
    var first, tail, next := rs[0], rs[1..], Successor(start, n);
    ChainedAt(rs, start, n, 0);
    assert first in rs && rs[..0] == [];
    ModBelow(start, n);
    ModBelow(next, n);
    if first.start + 1 == first.end {
      EndModulo(first.end, n);
      TailChained(rs, start, n, next);
    } else {
      TailChained(rs, start, n, first.end);
      ConsChained(Range(first.start + 1, first.end), tail, next, n);
    }
  }

  lemma WithoutFirstTotals(rs: seq<Range>, start: nat, n: nat, next: nat)
    requires rs != [] && Within(rs, n) && Total(rs) > 1
    ensures
      var rest := RangesWithoutFirst(rs);
      && rest != [] && Within(rest, n)
      && EndOf(rest, next) == EndOf(rs, start)
      && Total(rest) == Total(rs) - 1
  {
    var rest, first, tail := RangesWithoutFirst(rs), rs[0], rs[1..];
    assert first in rs;
    TotalCons(rs);
    assert forall x | x in tail :: x in rs;
    if first.start + 1 == first.end {
      assert Total([]) == 0;
    } else {
      TotalCons(rest);
      assert rest[1..] == tail;
    }
  }

  lemma {:induction false} TotalCons(rs: seq<Range>)
    requires rs != []
    ensures Total(rs) == rs[0].end - rs[0].start + Total(rs[1..])
    decreases |rs|
  {
    if |rs| > 1 {
      TotalCons(rs[..|rs| - 1]);
      assert rs[..|rs| - 1][1..] == rs[1..][..|rs| - 2];
    }
  }

  // The end of the trimmed ranges is right unless the ring starts at chunk 1.
  lemma ChainWithoutLast(rs: seq<Range>, start: nat, n: nat)
    requires n > 1 && rs != [] && Chained(rs, start, n) && Within(rs, n) && Total(rs) > 1
    ensures
      var rest, end := RangesWithoutLast(rs), EndOf(rs, start);
      && rest != [] && Chained(rest, start, n) && Total(rest) == Total(rs) - 1
      && EndOf(rest, start) == if end == 1 then n else end - 1
  {
    var rest, k := RangesWithoutLast(rs), |rs| - 1;
    var last := rs[k];
    assert last in rs && last.start == Mod(EndOf(rs[..k], start), n);
    InitChained(rs, start, n, k);
    if last.start + 1 == last.end {
      LastOut(rs, start, n);
      assert Total(rs[..k]) == Total(rs) - 1;
    } else {
      var r := Range(last.start, last.end - 1);
      ChainSnoc(rs[..k], start, n, r);
      assert RangesWithoutLast(rs) == rs[..k] + [r];
    }
  }

  lemma LastOut(rs: seq<Range>, start: nat, n: nat)
    requires n > 1 && rs != [] && Chained(rs, start, n) && Within(rs, n) && Total(rs) > 1
    requires rs[|rs| - 1].start + 1 == rs[|rs| - 1].end
    ensures
      var k := |rs| - 1;
      && RangesWithoutLast(rs) == rs[..k] && k > 0
      && EndOf(rs[..k], start) == if rs[k].end == 1 then n else rs[k].end - 1
  {
    var k := |rs| - 1;
    assert rs[k] in rs && rs[k].start == Mod(EndOf(rs[..k], start), n);
    assert RangesWithoutLast(rs) == rs[..k];
    assert rs[..0] == [] && Total([]) == 0;
    assert rs[k - 1] in rs;
    EndModulo(rs[k - 1].end, n);
  }

  lemma EndModulo(x: nat, n: nat)
    requires 0 < x <= n
    ensures Mod(x, n) == if x < n then x else 0
  {
  }

  // The whole scan

  // The collector after the `k`-th chunk from `start` on.
  function Collect(c: Clocks, start: nat, n: nat, k: nat): Collector
    requires n > 0
  {
    if k == 0 then Collector([], [], start)
    else
      var i := k - 1;
      Stepped(Collect(c, start, n, i), At(start, n, i), At(start, n, k), n, CutAt(c, start, n, i))
  }

  predicate CutAt(c: Clocks, start: nat, n: nat, i: nat)
    requires n > 0
  {
    GapAt(c, start, n, i) > DISCONTINUITY_THRESHOLD
  }

  function Untrimmed(c: Clocks, start: nat, n: nat): seq<Segment>
    requires n > 0
  {
    Finished(Collect(c, start, n, n - 1), EndChunk(start, n))
  }

  lemma NextFollows(start: nat, n: nat, k: nat)
    requires start < n && 0 < k < n
    ensures Follows(At(start, n, k - 1), At(start, n, k), n)
  {
    AtMeans(start, n, k - 1);
    AtMeans(start, n, k);
  }

  lemma {:induction false} CollectKeeps(c: Clocks, start: nat, n: nat, k: nat)
    requires 1 < n && start < n && k < n
    ensures InRow(Collect(c, start, n, k), start, n, At(start, n, k), k + 1)
    ensures Collected(Collect(c, start, n, k), At(start, n, k)) == SplitBy(Order(start, n)[..k + 1], Cuts(c, start, n)[..k])
  {
    if k == 0 {
      CollectBegins(c, start, n);
    } else {
      CollectKeeps(c, start, n, k - 1);
      CollectContinues(c, start, n, k - 1, k, k + 1);
    }
  }

  lemma CollectBegins(c: Clocks, start: nat, n: nat)
    requires 1 < n && start < n
    ensures InRow(Collect(c, start, n, 0), start, n, At(start, n, 0), 1)
    ensures Collected(Collect(c, start, n, 0), At(start, n, 0)) == SplitBy(Order(start, n)[..1], Cuts(c, start, n)[..0])
  {
    AtMeans(start, n, 0);
    ModBelow(start, n);
    assert Order(start, n)[..1] == [start];
    assert Chunks([]) + Span(start, start + 1) == [start];
    assert Ranges(Collector([], [], start)) == [];
  }

  lemma CollectContinues(c: Clocks, start: nat, n: nat, i: nat, k: nat, seen: nat)
    requires 1 < n && start < n && k < n && k == i + 1 && seen == k + 1
    requires InRow(Collect(c, start, n, i), start, n, At(start, n, i), k)
    requires Collected(Collect(c, start, n, i), At(start, n, i)) == SplitBy(Order(start, n)[..k], Cuts(c, start, n)[..i])
    ensures InRow(Collect(c, start, n, k), start, n, At(start, n, k), seen)
    ensures Collected(Collect(c, start, n, k), At(start, n, k)) == SplitBy(Order(start, n)[..seen], Cuts(c, start, n)[..k])
  {
    var before, chunk, next := Collect(c, start, n, i), At(start, n, i), At(start, n, k);
    var order, cuts := Order(start, n), Cuts(c, start, n);
    CollectNext(c, start, n, i, k);
    NextFollows(start, n, k);
    StepCollects(before, chunk, next, n, cuts[i]);
    StepInRow(before, start, n, chunk, next, cuts[i], k);
    TakeNext(order, k, seen);
    TakeNext(cuts, i, k);
    SplitSnoc(order[..k], order[k], cuts[..i], cuts[i], order[..seen], cuts[..k]);
  }

  lemma CollectNext(c: Clocks, start: nat, n: nat, i: nat, k: nat)
    requires n > 0 && k == i + 1 < n
    ensures Collect(c, start, n, k) ==
      Stepped(Collect(c, start, n, i), At(start, n, i), At(start, n, k), n, Cuts(c, start, n)[i])
  {
    var j := k - 1;
    assert j == i && Cuts(c, start, n)[i] == CutAt(c, start, n, i);
  }

  lemma EndOfRing(start: nat, n: nat)
    requires start < n && n > 1
    ensures At(start, n, n - 1) + 1 == EndChunk(start, n)
  {
    AtMeans(start, n, n - 1);
  }

  lemma UntrimmedIsWhole(c: Clocks, start: nat, n: nat)
    requires 1 < n && start < n
    ensures
      var segments := Untrimmed(c, start, n);
      && segments != [] && Solid(segments)
      && Listing(segments) == SplitBy(Order(start, n), Cuts(c, start, n))
      && Chained(Flatten(segments), start, n) && Within(Flatten(segments), n)
      && EndOf(Flatten(segments), start) == EndChunk(start, n)
      && Total(Flatten(segments)) == n
  {
    CollectKeeps(c, start, n, n - 1);
    EndOfRing(start, n);
    assert Order(start, n)[..n] == Order(start, n) && Cuts(c, start, n)[..n - 1] == Cuts(c, start, n);
    FinishedListing(Collect(c, start, n, n - 1), EndChunk(start, n), At(start, n, n - 1));
    FinishedInRow(Collect(c, start, n, n - 1), start, n, EndChunk(start, n), At(start, n, n - 1));
    ChainedIsSolid(Untrimmed(c, start, n), start, n);
  }

  lemma ChainedIsSolid(ss: seq<Segment>, start: nat, n: nat)
    requires n > 0 && Chained(Flatten(ss), start, n) && forall s | s in ss :: s != []
    ensures Solid(ss)
  {
    forall i | 0 <= i < |ss| ensures ss[i] != [] && NoneEmpty(ss[i]) {
      assert ss[i] in ss;
      forall j | 0 <= j < |ss[i]| ensures ss[i][j].start < ss[i][j].end {
        PrefixOfFlatten(ss, i, j);
        ChainedAt(Flatten(ss), start, n, |Flatten(ss[..i]) + ss[i][..j]|);
      }
    }
  }

  lemma OneGroupIsWhole<T>(groups: seq<seq<T>>, order: seq<T>)
    requires |groups| == 1 && Flatten(groups) == order
    ensures groups[0] == order
  {
    assert groups[..0] == [];
    assert Flatten(groups) == Flatten(groups[..0]) + groups[0];
  }

  // The segments partition the ring: they list each chunk once, from `start` on,
  // and separate two neighbours exactly if the gap between them is too long.  The
  // end of the file alone never separates any.
  lemma SegmentsPartitionRing(c: Clocks, start: nat, n: nat)
    requires MIN_CHUNKS <= n && start < n
    ensures
      var groups := Listing(Untrimmed(c, start, n));
      && Solid(Untrimmed(c, start, n))
      && Flatten(groups) == Order(start, n)
      && (forall i | 0 <= i < n :: Order(start, n)[i] == if start + i < n then start + i else start + i - n)
      && forall i, j | 0 <= i < n - 1 && j == i + 1 ::
           c.first(Order(start, n)[j]) - c.last(Order(start, n)[i]) > 10 * 1000 <==> GroupOf(groups, i) != GroupOf(groups, j)
  {
    UntrimmedIsWhole(c, start, n);
    SplitMeans(Order(start, n), Cuts(c, start, n));
    OrderMeans(start, n);
    CutsMean(c, start, n);
  }

  lemma OrderMeans(start: nat, n: nat)
    requires start < n
    ensures forall i | 0 <= i < n :: Order(start, n)[i] == if start + i < n then start + i else start + i - n
  {
    forall i | 0 <= i < n ensures Order(start, n)[i] == if start + i < n then start + i else start + i - n {
      AtMeans(start, n, i);
    }
  }

  lemma CutsMean(c: Clocks, start: nat, n: nat)
    requires start < n
    ensures forall i, j | 0 <= i < n - 1 && j == i + 1 ::
      Cuts(c, start, n)[i] <==> c.first(Order(start, n)[j]) - c.last(Order(start, n)[i]) > 10 * 1000
  {
    forall i, j | 0 <= i < n - 1 && j == i + 1
      ensures Cuts(c, start, n)[i] <==> c.first(Order(start, n)[j]) - c.last(Order(start, n)[i]) > 10 * 1000
    {
      GapMeans(c, start, n, i, j);
    }
  }

  lemma GapMeans(c: Clocks, start: nat, n: nat, i: nat, j: nat)
    requires j < n && j == i + 1
    ensures GapAt(c, start, n, i) == c.first(Order(start, n)[j]) - c.last(Order(start, n)[i])
  {
  }

  // Trimming takes away the first and the last chunk, keeps all others where they
  // are, and leaves no empty range or segment.
  lemma TrimmedPartitionRing(c: Clocks, start: nat, n: nat)
    requires MIN_CHUNKS <= n && start < n
    ensures Trimmable(Untrimmed(c, start, n)) && Solid(Trimmed(Untrimmed(c, start, n)))
    ensures
      var groups := Listing(Trimmed(Untrimmed(c, start, n)));
      && Flatten(groups) == Order(start, n)[1..n - 1]
      && forall i, j | 0 <= i < n - 3 && j == i + 1 ::
           c.first(Order(start, n)[j + 1]) - c.last(Order(start, n)[j]) > 10 * 1000 <==>
           GroupOf(groups, i) != GroupOf(groups, j)
  {
    TrimmedIsSplit(c, start, n);
    var groups := Listing(Trimmed(Untrimmed(c, start, n)));
    SplitMeans(Order(start, n)[1..n - 1], Cuts(c, start, n)[1..n - 2]);
    forall i, j | 0 <= i < n - 3 && j == i + 1
      ensures c.first(Order(start, n)[j + 1]) - c.last(Order(start, n)[j]) > 10 * 1000 <==>
              GroupOf(groups, i) != GroupOf(groups, j)
    {
      InnerCut(c, start, n, i, j, groups);
      GapMeans(c, start, n, j, j + 1);
    }
  }

  lemma InnerCut(c: Clocks, start: nat, n: nat, i: nat, j: nat, groups: seq<seq<nat>>)
    requires MIN_CHUNKS <= n && start < n && i < n - 3 && j == i + 1
    requires groups == SplitBy(Order(start, n)[1..n - 1], Cuts(c, start, n)[1..n - 2])
    ensures GapAt(c, start, n, j) > DISCONTINUITY_THRESHOLD <==> GroupOf(groups, i) != GroupOf(groups, j)
  {
    var within := Cuts(c, start, n)[1..n - 2];
    SplitMeans(Order(start, n)[1..n - 1], within);
    assert within[i] == Cuts(c, start, n)[j];
  }

  lemma SplitWithoutBoth<T>(order: seq<T>, cuts: seq<bool>)
    requires |order| > 2 && |cuts| == |order| - 1
    ensures
      var groups := SplitBy(order, cuts);
      && groups[0] != []
      && WithoutFirst(groups) != []
      && WithoutFirst(groups)[|WithoutFirst(groups)| - 1] != []
      && WithoutLast(WithoutFirst(groups)) == SplitBy(order[1..|order| - 1], cuts[1..|order| - 2])
  {
    SplitWithoutFirst(order, cuts);
    SplitWithoutLast(order[1..], cuts[1..]);
    InnerSlice(order, 1, |order| - 1, |order| - 2);
    InnerSlice(cuts, 1, |order| - 2, |order| - 3);
  }

  lemma TrimmedIsSplit(c: Clocks, start: nat, n: nat)
    requires MIN_CHUNKS <= n && start < n
    ensures Trimmable(Untrimmed(c, start, n)) && Solid(Trimmed(Untrimmed(c, start, n)))
    ensures Listing(Trimmed(Untrimmed(c, start, n))) == SplitBy(Order(start, n)[1..n - 1], Cuts(c, start, n)[1..n - 2])
  {
    UntrimmedIsWhole(c, start, n);
    TrimmedSplits(Untrimmed(c, start, n), Order(start, n), Cuts(c, start, n));
  }

  lemma TrimmedSplits(ss: seq<Segment>, order: seq<nat>, cuts: seq<bool>)
    requires Solid(ss) && ss != [] && |order| > 2 && |cuts| == |order| - 1
    requires Listing(ss) == SplitBy(order, cuts)
    ensures Trimmable(ss) && Solid(Trimmed(ss))
    ensures Listing(Trimmed(ss)) == SplitBy(order[1..|order| - 1], cuts[1..|order| - 2])
  {
    WideGroup(ss, order, cuts);
    SolidListing(ss);
    TrimmedListing(ss);
    TwiceTrimmed(Listing(ss));
    SplitWithoutBoth(order, cuts);
  }

  lemma WideGroup(segments: seq<Segment>, order: seq<nat>, cuts: seq<bool>)
    requires |order| > 2 && |cuts| == |order| - 1 && Listing(segments) == SplitBy(order, cuts)
    ensures |segments| == 1 ==> |Listing(segments)[0]| > 2
  {
    SplitMeans(order, cuts);
    if |segments| == 1 { OneGroupIsWhole(Listing(segments), order); }
  }

  // The self-check passes on the untrimmed segments, and on the trimmed ones
  // exactly if the ring does not start at chunk 1.
  lemma SelfChecks(c: Clocks, start: nat, n: nat)
    requires MIN_CHUNKS <= n && start < n
    ensures Valid(Untrimmed(c, start, n), start, EndChunk(start, n), n, n)
    ensures Trimmable(Untrimmed(c, start, n))
    ensures Valid(Trimmed(Untrimmed(c, start, n)), Successor(start, n), EndChunk(start, n) - 1, n, n - 2) <==> start != 1
  {
    UntrimmedIsWhole(c, start, n);
    TrimmedIsSplit(c, start, n);
    var rs := Flatten(Untrimmed(c, start, n));
    TrimmedChain(rs, start, n);
    TrimmedRanges(Untrimmed(c, start, n));
  }

  lemma TrimmedRanges(ss: seq<Segment>)
    requires Solid(ss) && Trimmable(ss)
    ensures
      var rs := Flatten(ss);
      && rs != []
      && RangesWithoutFirst(rs) != []
      && RangesWithoutFirst(rs)[|RangesWithoutFirst(rs)| - 1].end > 0
      && Flatten(Trimmed(ss)) == RangesWithoutLast(RangesWithoutFirst(rs))
  {
    FirstDroppedRanges(ss);
    FirstDroppedListing(ss);
    LastDroppedRanges(FirstDropped(ss));
    FlattenDropEmpty(LastDropped(FirstDropped(ss)));
  }

  lemma TrimmedChain(rs: seq<Range>, start: nat, n: nat)
    requires MIN_CHUNKS <= n && start < n && rs != []
    requires Chained(rs, start, n) && Within(rs, n) && Total(rs) == n && EndOf(rs, start) == EndChunk(start, n)
    ensures
      var rest, next := RangesWithoutFirst(rs), Successor(start, n);
      && rest != [] && rest[|rest| - 1].end > 0
      && var rs' := RangesWithoutLast(rest);
         && Chained(rs', next, n)
         && Total(rs') == n - 2
         && (EndOf(rs', next) == EndChunk(start, n) - 1 <==> start != 1)
  {
    ChainWithoutFirst(rs, start, n);
    WithoutFirstTotals(rs, start, n, Successor(start, n));
    var rest := RangesWithoutFirst(rs);
    assert rest[|rest| - 1] in rest;
    ChainWithoutLast(rest, Successor(start, n), n);
  }

  // Some chunk ends before, in time, the chunk before it begins.
  ghost predicate RunsBackwards(c: Clocks, start: nat, n: nat)
    requires n > 0
  {
    exists i :: 0 <= i < n - 1 && GapAt(c, start, n, i) < 0
  }

  // The scanner

  class Scanner {
    // What mirakc-arib finds in a chunk.
    const clocks: Clocks
    var timestampCache: map<nat, int>

    constructor (clocks: Clocks)
      ensures this.clocks == clocks && timestampCache == map[] && Valid()
    {
      this.clocks, timestampCache := clocks, map[];
    }

    ghost predicate Valid()
      reads this
    {
      forall chunk | chunk in timestampCache :: timestampCache[chunk] == clocks.first(chunk)
    }

    method ScanTimestamp(chunk: nat) returns (timestamp: int)
      requires Valid()
      modifies this
      ensures Valid() && timestamp == clocks.first(chunk)
      ensures timestampCache.Keys == old(timestampCache.Keys) + {chunk}
    {
      if chunk in timestampCache { return timestampCache[chunk]; }
      timestamp := clocks.first(chunk);
      timestampCache := timestampCache[chunk := timestamp];
    }

    method FindStartChunk(left: nat, right: nat) returns (start: nat)
      requires Valid() && left < right
      modifies this
      ensures Valid() && start == FindStart(clocks.first, left, right) && left < start <= right
      decreases right - left
    {
      var delta := right - left;
      if delta < 2 { return right; }
      var mid := left + delta / 2;
      var leftTimestamp := ScanTimestamp(left);
      var midTimestamp := ScanTimestamp(mid);
      if leftTimestamp < midTimestamp {
        start := FindStartChunk(mid, right);
      } else {
        start := FindStartChunk(left, mid);
      }
    }

    method CollectSegments(start: nat, n: nat) returns (r: Scanned)
      requires Valid() && MIN_CHUNKS <= n && start < n
      modifies this
      ensures Valid()
      ensures r.Panicked? <==> start == 1 || RunsBackwards(clocks, start, n)
      ensures r.Segments? ==> Trimmable(Untrimmed(clocks, start, n)) && r.segments == Trimmed(Untrimmed(clocks, start, n))
    {
      var segments: seq<Segment>, segment: Segment, segStart: nat := [], [], start;
      for i := 0 to n - 1
        invariant Valid()
        invariant Collector(segments, segment, segStart) == Collect(clocks, start, n, i)
        invariant forall j | 0 <= j < i :: GapAt(clocks, start, n, j) >= 0
      {
        var chunk, next := (start + i) % n, (start + i + 1) % n;
        NextCollected(clocks, start, n, i, i + 1, chunk, next);
        var lastTimestamp := clocks.last(chunk);
        var nextTimestamp := ScanTimestamp(next);
        var gap := nextTimestamp - lastTimestamp;
        if gap < 0 { return Panicked; }
        segments, segment, segStart := Advance(segments, segment, segStart, chunk, next, n, gap);
      }
      r := Complete(segments, segment, segStart, start, n);
    }

    // At the end of the file and at a long gap the ranges so far are closed.
    static method Advance(
      segments: seq<Segment>, segment: Segment, segStart: nat, chunk: nat, next: nat, n: nat, gap: int)
      returns (ss: seq<Segment>, s: Segment, first: nat)
      ensures Collector(ss, s, first) ==
        Stepped(Collector(segments, segment, segStart), chunk, next, n, gap > DISCONTINUITY_THRESHOLD)
    {
      ss, s, first := segments, segment, segStart;
      if chunk > next {
        s := Pushed(s, Range(first, n));
        first := 0;
      }
      if gap > DISCONTINUITY_THRESHOLD {
        s := Pushed(s, Range(first, next));
        if s != [] { ss, s := ss + [s], []; }
        first := next;
      }
    }

    method Complete(segments: seq<Segment>, segment: Segment, segStart: nat, start: nat, n: nat) returns (r: Scanned)
      requires MIN_CHUNKS <= n && start < n
      requires Collector(segments, segment, segStart) == Collect(clocks, start, n, n - 1)
      ensures r.Panicked? <==> start == 1
      ensures r.Segments? ==> Trimmable(Untrimmed(clocks, start, n)) && r.segments == Trimmed(Untrimmed(clocks, start, n))
    {
      var end := if start == 0 then n else start;
      var s, ss := Pushed(segment, Range(segStart, end)), segments;
      if s != [] { ss := ss + [s]; }
      r := Trim(ss, start, end, n);
    }

    static lemma NextCollected(c: Clocks, start: nat, n: nat, i: nat, k: nat, chunk: nat, next: nat)
      requires start < n && k == i + 1 && chunk == (start + i) % n && next == (start + i + 1) % n
      ensures chunk == At(start, n, i) && next == At(start, n, k) && GapAt(c, start, n, i) == Gap(c, chunk, next)
      ensures Collect(c, start, n, k) ==
        Stepped(Collect(c, start, n, i), chunk, next, n, Gap(c, chunk, next) > DISCONTINUITY_THRESHOLD)
    {
      ModIsRemainder(start + i, n);
      ModIsRemainder(start + k, n);
      var j := k - 1;
      assert j == i;
    }

    static method DropBothEnds(collected: seq<Segment>) returns (segments: seq<Segment>)
      requires Trimmable(collected)
      ensures segments == Trimmed(collected)
    {
      segments := collected;
      var first, k := segments[0], |segments| - 1;
      segments := segments[0 := Retained(first[0 := Range(first[0].start + 1, first[0].end)])];
      var last := segments[k];
      var m := |last| - 1;
      segments := segments[k := Retained(last[m := Range(last[m].start, last[m].end - 1)])];
      segments := DropEmpty(segments);
    }

    // The first and the last chunk may contain garbage.
    method Trim(collected: seq<Segment>, start: nat, end: nat, n: nat) returns (r: Scanned)
      requires MIN_CHUNKS <= n && start < n && end == EndChunk(start, n)
      requires collected == Untrimmed(clocks, start, n)
      ensures r.Panicked? <==> start == 1
      ensures r.Segments? ==> Trimmable(collected) && r.segments == Trimmed(collected)
    {
      SelfChecks(clocks, start, n);
      var ok := ValidateSegments(collected, start, end, n, n);
      if !ok { return Panicked; }
      var segments := DropBothEnds(collected);
      ok := ValidateSegments(segments, if start + 1 < n then start + 1 else 0, end - 1, n, n - 2);
      r := if ok then Segments(segments) else Panicked;
    }

    method Scan(fileSize: nat, chunkSize: nat) returns (r: Scanned)
      requires Valid() && chunkSize > 0
      modifies this
      ensures Valid()
      ensures
        var n := fileSize / chunkSize;
        if n < 3 then r == Segments([])
        else
          var start := StartChunk(clocks.first, n);
          && start < n
          && (r.Panicked? <==> start == 1 || RunsBackwards(clocks, start, n))
          && (r.Segments? ==>
              Trimmable(Untrimmed(clocks, start, n)) && r.segments == Trimmed(Untrimmed(clocks, start, n)))
    {
      if fileSize == 0 { return Segments([]); }
      var n := fileSize / chunkSize;
      if n < MIN_CHUNKS { return Segments([]); }
      var lastChunk := n - 1;
      var firstTimestamp := ScanTimestamp(0);
      var lastTimestamp := ScanTimestamp(lastChunk);
      var start := 0;
      if firstTimestamp >= lastTimestamp { start := FindStartChunk(0, lastChunk); }
      r := CollectSegments(start, n);
    }
  }

  // Rebuilding a ring that has been wrapped so that it starts at chunk 1 always
  // fails, although its segments partition it as for any other start.
  lemma RingFromOneIsNotRebuilt(c: Clocks, n: nat)
    requires MIN_CHUNKS <= n && RisesFrom(c.first, n, 1)
    ensures StartChunk(c.first, n) == 1 && Trimmable(Untrimmed(c, 1, n))
    ensures !Valid(Trimmed(Untrimmed(c, 1, n)), 2, 0, n, n - 2)
    ensures Flatten(Listing(Trimmed(Untrimmed(c, 1, n)))) == Order(1, n)[1..n - 1]
  {
    StartIsFound(c.first, n, 1);
    SelfChecks(c, 1, n);
    TrimmedPartitionRing(c, 1, n);
  }
}
