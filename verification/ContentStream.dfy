// Following a content file while it is being recorded,
// mirakc-core/src/recording/content_source.rs.
//
// A writer and a follower run concurrently over a file and a watch cell.  Each
// step of the system is what one of them does between two points where it can be
// suspended, and the background thread that writes to the disk has steps of its
// own.
module ContentStreams {
  import opened Models

  datatype Stage = Copying | Finished | Failed

  // The bytes on disk, those handed to the file but not yet on disk, and those
  // still in the buffer.
  datatype Writer = Writer(disk: seq<Byte>, inflight: seq<Byte>, buffered: seq<Byte>, stage: Stage) {
    function Produced(): seq<Byte> { disk + inflight + buffered }
  }

  // `version` counts the notifications; the cell is closed when its sender is dropped.
  datatype Cell = Cell(value: bool, version: nat, open: bool)

  datatype Pc = Top | Reading(done: bool) | Blocked | Ended

  // `seen` is the last version the follower has seen, if it has a receiver.
  datatype Follower = Follower(seen: Option<nat>, pc: Pc, sent: seq<Byte>)

  // A request without a range has `count` u64::MAX.
  datatype Range = Range(first: nat, count: nat) {
    function Of(d: seq<Byte>): seq<Byte> {
      if |d| <= first then [] else if |d| - first <= count then d[first..] else d[first..first + count]
    }
  }

  // `noticed` is the size of the file at the latest notification, `dropped` when
  // the sender was dropped, and `looked` when the follower last found nothing.
  datatype System = System(
    writer: Writer,
    cell: Cell,
    follower: Follower,
    range: Range,
    follows: bool,
    noticed: nat,
    dropped: nat,
    looked: nat)

  datatype Action =
    | Accept(bytes: seq<Byte>)
    | Write(n: nat)
    | Settle(n: nat)
    | Flush
    | Finish
    | Drop
    | Observe
    | Read(n: nat)
    | Wake

  // What a read could return.
  function Unread(y: System): seq<Byte>
    requires y.follower.sent <= y.range.Of(y.writer.disk)
  {
    y.range.Of(y.writer.disk)[|y.follower.sent|..]
  }

  predicate Enabled(y: System, a: Action) {
    match a
    case Accept(bytes) => y.writer.stage.Copying?
    case Write(n) => y.writer.stage.Copying? && y.writer.inflight == [] && 0 < n <= |y.writer.buffered|
    case Settle(n) => 0 < n <= |y.writer.inflight|
    case Flush => y.writer.stage.Copying? && y.writer.inflight == []
    case Finish => y.writer.stage.Copying? && y.writer.inflight == [] && y.writer.buffered == []
    case Drop => y.cell.open
    case Observe => y.follower.pc.Top?
    case Read(n) =>
      && y.follower.pc.Reading?
      && y.follower.sent <= y.range.Of(y.writer.disk)
      && n <= |Unread(y)|
      && (n == 0 ==> Unread(y) == [])
    case Wake =>
      && y.follower.pc.Blocked?
      && y.follower.seen.Some?
      && (y.follower.seen.value != y.cell.version || !y.cell.open)
  }

  function Notified(y: System, value: bool): System {
    y.(cell := y.cell.(value := value, version := y.cell.version + 1), noticed := |y.writer.disk|)
  }

  // The flag is read before the file.
  function Observed(f: Follower, c: Cell): Follower {
    if f.seen.None? then f.(pc := Reading(true)) else f.(seen := Some(c.version), pc := Reading(c.value))
  }

  function GotChunk(f: Follower, chunk: seq<Byte>): Follower
    requires f.pc.Reading?
  {
    if chunk != [] then f.(sent := f.sent + chunk, pc := Top)
    else if f.pc.done then f.(pc := Ended)
    else f.(pc := Blocked)
  }

  // A new version is reported even if the cell has been closed since.
  function Woken(f: Follower, c: Cell): Follower
    requires f.seen.Some?
  {
    f.(seen := if f.seen.value != c.version then Some(c.version) else None, pc := Top)
  }

  function Next(y: System, a: Action): System
    requires Enabled(y, a)
  {
    var w := y.writer;
    match a
    case Accept(bytes) => y.(writer := w.(buffered := w.buffered + bytes))
    case Write(n) => Notified(y.(writer := w.(inflight := w.buffered[..n], buffered := w.buffered[n..])), false)
    case Settle(n) => y.(writer := w.(disk := w.disk + w.inflight[..n], inflight := w.inflight[n..]))
    case Flush => Notified(y, false)
    case Finish => Notified(y.(writer := w.(stage := Finished)), true)
    case Drop =>
      y.(writer := w.(stage := if w.stage.Copying? then Failed else w.stage),
         cell := y.cell.(open := false),
         dropped := |w.disk|)
    case Observe => y.(follower := Observed(y.follower, y.cell))
    case Read(n) =>
      y.(follower := GotChunk(y.follower, Unread(y)[..n]), looked := if n == 0 then |w.disk| else y.looked)
    case Wake => y.(follower := Woken(y.follower, y.cell))
  }

  // A follower may come at any time: with the receiver of the recorder, or
  // without one if the content is not being recorded.
  ghost predicate Initial(y: System) {
    && WriterOk(y)
    && y.follower.pc.Top? && y.follower.sent == []
    && (y.follows <==> y.follower.seen.Some?)
    && (y.follows ==> y.follower.seen.value <= y.cell.version)
  }

  predicate Possible(y: System, acts: seq<Action>)
    decreases |acts|
  {
    acts == [] || (Enabled(y, acts[0]) && Possible(Next(y, acts[0]), acts[1..]))
  }

  function After(y: System, acts: seq<Action>): System
    requires Possible(y, acts)
    decreases |acts|
  {
    if acts == [] then y else After(Next(y, acts[0]), acts[1..])
  }

  // Invariants

  ghost predicate WriterOk(y: System) {
    && y.noticed <= |y.writer.disk|
    && (!y.cell.open ==> y.dropped <= |y.writer.disk| && !y.writer.stage.Copying?)
    && (y.cell.value <==> y.writer.stage.Finished?)
    && (y.writer.stage.Finished? ==> y.writer.inflight == [] && y.writer.buffered == [])
    && (y.writer.stage.Failed? ==> !y.cell.open)
  }

  ghost predicate Current(y: System) {
    y.follower.seen == Some(y.cell.version)
  }

  // Everything in the range that was on disk when the follower last looked is sent.
  ghost predicate SentAllSeen(y: System) {
    y.looked <= |y.writer.disk| && y.follower.sent == y.range.Of(y.writer.disk[..y.looked])
  }

  ghost predicate FollowerOk(y: System) {
    var f := y.follower;
    && f.sent <= y.range.Of(y.writer.disk)
    && (f.seen.Some? ==> y.follows && f.seen.value <= y.cell.version)
    && (f.seen.None? && y.follows ==> y.writer.stage.Failed?)
    && match f.pc
       case Top => true
       case Reading(done) =>
         && (f.seen.None? ==> done)
         && (f.seen.Some? && done ==> y.writer.stage.Finished?)
         && (Current(y) && !done ==> !y.cell.value)
       case Blocked => f.seen.Some? && SentAllSeen(y) && (Current(y) ==> !y.cell.value && y.noticed <= y.looked)
       case Ended =>
         && SentAllSeen(y)
         && (f.seen.Some? ==> y.writer.stage.Finished? && y.looked == |y.writer.disk|)
         && (f.seen.None? && y.follows ==> y.dropped <= y.looked)
  }

  ghost predicate Inv(y: System) { WriterOk(y) && FollowerOk(y) }

  // The range of a growing file only grows.
  lemma RangeGrows(r: Range, d: seq<Byte>, e: seq<Byte>)
    requires d <= e
    ensures r.Of(d) <= r.Of(e)
  {
  }

  lemma GrowthKeeps(y: System, more: seq<Byte>)
    requires FollowerOk(y) && !y.writer.stage.Finished?
    ensures
      var y' := y.(writer := y.writer.(disk := y.writer.disk + more));
      FollowerOk(y')
  {
    var d := y.writer.disk;
    RangeGrows(y.range, d, d + more);
    if y.looked <= |d| { assert (d + more)[..y.looked] == d[..y.looked]; }
  }

  lemma SettleKeeps(y: System, n: nat)
    requires Inv(y) && Enabled(y, Settle(n))
    ensures Inv(Next(y, Settle(n)))
  {
    var more := y.writer.inflight[..n];
    GrowthKeeps(y, more);
    var y1 := y.(writer := y.writer.(disk := y.writer.disk + more));
    assert FollowerOk(Next(y, Settle(n))) <==> FollowerOk(y1);
  }

  lemma ReadKeeps(y: System, n: nat)
    requires Inv(y) && Enabled(y, Read(n))
    ensures Inv(Next(y, Read(n)))
  {
    var all := y.range.Of(y.writer.disk);
    assert all[..|y.follower.sent|] == y.follower.sent;
    assert y.follower.sent + Unread(y) == all;
    assert y.follower.sent + Unread(y)[..n] <= all;
    assert y.writer.disk[..|y.writer.disk|] == y.writer.disk;
  }

  lemma StepKeepsInv(y: System, a: Action)
    requires Inv(y) && Enabled(y, a)
    ensures Inv(Next(y, a))
  {
    match a
    case Settle(n) => SettleKeeps(y, n);
    case Read(n) => ReadKeeps(y, n);
    case _ =>
  }

  lemma {:induction false} AlwaysInv(y: System, acts: seq<Action>)
    requires Inv(y) && Possible(y, acts)
    ensures Inv(After(y, acts))
    ensures After(y, acts).range == y.range && After(y, acts).follows == y.follows
    decreases |acts|
  {
    if acts != [] {
      StepKeepsInv(y, acts[0]);
      AlwaysInv(Next(y, acts[0]), acts[1..]);
    }
  }

  // Main results

  // Bytes are only added to the content and to the file, in order: nothing that
  // was accepted is lost or reordered on its way to the disk.
  lemma ContentOnlyGrows(y: System, a: Action)
    requires Enabled(y, a)
    ensures y.writer.disk <= Next(y, a).writer.disk
    ensures Next(y, a).writer.Produced() == y.writer.Produced() + if a.Accept? then a.bytes else []
  {
    var w := y.writer;
    match a
    case Accept(bytes) => AppendAssociative(w.disk + w.inflight, w.buffered, bytes);
    case Write(n) => assert w.buffered[..n] + w.buffered[n..] == w.buffered;
      assert w.disk + w.inflight == w.disk;
      AppendAssociative(w.disk, w.buffered[..n], w.buffered[n..]);
    case Settle(n) =>
      assert w.inflight[..n] + w.inflight[n..] == w.inflight;
      AppendAssociative(w.disk, w.inflight[..n], w.inflight[n..]);
    case _ =>
  }

  // `sent` are bytes of the file from `first` on, and no more than `count`.
  ghost predicate IsRequested(sent: seq<Byte>, r: Range, file: seq<Byte>) {
    && |sent| <= r.count
    && (sent != [] ==> r.first + |sent| <= |file|)
    && forall k | 0 <= k < |sent| :: r.first + k < |file| && sent[k] == file[r.first + k]
  }

  // How many bytes a file of this size has from `first` on, up to `count`.
  function Length(r: Range, size: nat): nat {
    if size <= r.first then 0 else if size - r.first < r.count then size - r.first else r.count
  }

  lemma RangeIs(r: Range, d: seq<Byte>)
    ensures |r.Of(d)| == Length(r, |d|) && IsRequested(r.Of(d), r, d)
  {
  }

  lemma PrefixIsRequested(sent: seq<Byte>, r: Range, d: seq<Byte>)
    requires sent <= r.Of(d)
    ensures IsRequested(sent, r, d)
  {
    RangeIs(r, d);
  }

  lemma InvIsRequested(y: System)
    requires Inv(y)
    ensures IsRequested(y.follower.sent, y.range, y.writer.disk)
  {
    PrefixIsRequested(y.follower.sent, y.range, y.writer.disk);
  }

  // At every interleaving the output is a prefix of the requested range of what
  // has been written.
  lemma OutputIsPrefix(y: System, acts: seq<Action>)
    requires Initial(y) && Possible(y, acts)
    ensures IsRequested(After(y, acts).follower.sent, y.range, After(y, acts).writer.disk)
    ensures IsRequested(After(y, acts).follower.sent, y.range, After(y, acts).writer.Produced())
    ensures After(y, acts).follower.sent <= y.range.Of(After(y, acts).writer.disk)
    ensures After(y, acts).follower.sent <= y.range.Of(After(y, acts).writer.Produced())
  {
    AlwaysInv(y, acts);
    var w := After(y, acts).writer;
    assert w.Produced() == w.disk + (w.inflight + w.buffered) by {
      AppendAssociative(w.disk, w.inflight, w.buffered);
    }
    RangeGrows(y.range, w.disk, w.Produced());
    PrefixIsRequested(After(y, acts).follower.sent, y.range, w.disk);
    PrefixIsRequested(After(y, acts).follower.sent, y.range, w.Produced());
  }

  // A follower that waits, and cannot be woken up yet, has sent everything that
  // was on disk at the latest notification.
  lemma WaitsWithNothingUnsent(y: System, acts: seq<Action>)
    requires Initial(y) && Possible(y, acts)
    requires After(y, acts).follower.pc.Blocked? && !Enabled(After(y, acts), Wake)
    ensures
      var z := After(y, acts);
      && z.noticed <= |z.writer.disk|
      && Length(y.range, z.noticed) <= |z.follower.sent|
      && y.range.Of(z.writer.disk[..z.noticed]) <= z.follower.sent
      && (z.noticed == |z.writer.disk| ==> |z.follower.sent| == Length(y.range, |z.writer.disk|))
      && (z.noticed == |z.writer.disk| ==> z.follower.sent == y.range.Of(z.writer.disk))
  {
    AlwaysInv(y, acts);
    var z := After(y, acts);
    assert z.writer.disk[..z.noticed] <= z.writer.disk[..z.looked];
    RangeGrows(y.range, z.writer.disk[..z.noticed], z.writer.disk[..z.looked]);
    RangeIs(y.range, z.writer.disk[..z.noticed]);
    RangeIs(y.range, z.writer.disk);
    assert z.writer.disk[..|z.writer.disk|] == z.writer.disk;
  }

  // A flush notifies of everything that was accepted.
  lemma FlushNoticesAll(y: System)
    requires Enabled(y, Flush) && y.writer.buffered == []
    ensures Next(y, Flush).noticed == |Next(y, Flush).writer.Produced()|
  {
  }

  // A stream that follows a recording ends only after the writer: with the whole
  // requested range if the writer finished, otherwise with at least what was on
  // disk when the writer was dropped.
  lemma EndsAfterTheWriter(y: System, acts: seq<Action>)
    requires Initial(y) && y.follows && Possible(y, acts)
    requires After(y, acts).follower.pc.Ended?
    ensures
      var z := After(y, acts);
      && !z.writer.stage.Copying?
      && (z.writer.stage.Finished? ==>
          z.writer.Produced() == z.writer.disk && z.follower.sent == y.range.Of(z.writer.Produced())
          && |z.follower.sent| == Length(y.range, |z.writer.Produced()|))
      && (z.writer.stage.Failed? ==>
          z.dropped <= |z.writer.disk| && y.range.Of(z.writer.disk[..z.dropped]) <= z.follower.sent
          && Length(y.range, z.dropped) <= |z.follower.sent|)
  {
    AlwaysInv(y, acts);
    var z := After(y, acts);
    if z.writer.stage.Finished? {
      assert z.writer.disk[..|z.writer.disk|] == z.writer.disk;
      RangeIs(y.range, z.writer.disk);
    } else {
      RangeIs(y.range, z.writer.disk[..z.dropped]);
      assert z.writer.disk[..z.dropped] <= z.writer.disk[..z.looked];
      RangeGrows(y.range, z.writer.disk[..z.dropped], z.writer.disk[..z.looked]);
    }
  }

  // Without a recorder the stream is what was in the file when its end was found.
  lemma UnfollowedIsWhole(y: System, acts: seq<Action>)
    requires Initial(y) && !y.follows && Possible(y, acts) && After(y, acts).follower.pc.Ended?
    ensures
      var z := After(y, acts);
      && z.looked <= |z.writer.disk|
      && z.follower.sent == y.range.Of(z.writer.disk[..z.looked])
      && |z.follower.sent| == Length(y.range, z.looked)
      && IsRequested(z.follower.sent, y.range, z.writer.disk[..z.looked])
  {
    AlwaysInv(y, acts);
    RangeIs(y.range, After(y, acts).writer.disk[..After(y, acts).looked]);
  }

  // A read continues with the bytes of the file that follow those sent, after which
  // the flag is looked at anew; if there are none, it depends on the flag whether
  // the stream ends or waits.
  lemma ReadMeans(y: System, n: nat)
    requires Inv(y) && Enabled(y, Read(n))
    ensures
      var f, f' := y.follower, Next(y, Read(n)).follower;
      if n == 0 then f' == f.(pc := if f.pc.done then Ended else Blocked)
      else f' == f.(sent := f'.sent, pc := Top) && |f'.sent| == |f.sent| + n && f.sent <= f'.sent
    ensures IsRequested(Next(y, Read(n)).follower.sent, y.range, y.writer.disk)
  {
    ReadKeeps(y, n);
    PrefixIsRequested(Next(y, Read(n)).follower.sent, y.range, y.writer.disk);
  }

  // Whatever has been accepted so far can be brought to the disk, and then the
  // recording can finish; the follower is notified of both.
  lemma CanFinish(y: System) returns (acts: seq<Action>)
    requires Inv(y) && y.writer.stage.Copying?
    ensures Possible(y, acts)
    ensures
      var z := After(y, acts);
      && z.writer == Writer(y.writer.Produced(), [], [], Finished)
      && z.cell.value && y.cell.version < z.cell.version && z.noticed == |z.writer.disk|
      && z.follower == y.follower
  {
    acts := [];
    var w := y.writer;
    var z := y;
    if w.inflight != [] { z, acts := Settled(y, acts, z); }
    if w.buffered != [] {
      AfterSnoc(y, acts, Write(|w.buffered|));
      z, acts := Next(z, Write(|w.buffered|)), acts + [Write(|w.buffered|)];
      assert z.writer.inflight == w.buffered && z.writer.buffered == [];
      z, acts := Settled(y, acts, z);
    }
    AfterSnoc(y, acts, Finish);
    acts := acts + [Finish];
    EmptySum(w.disk);
    EmptySum(w.disk + w.inflight);
  }

  lemma Settled(y: System, acts: seq<Action>, z: System) returns (z': System, acts': seq<Action>)
    requires Possible(y, acts) && z == After(y, acts) && z.writer.inflight != []
    ensures Possible(y, acts') && z' == After(y, acts')
    ensures z' == z.(writer := z.writer.(disk := z.writer.disk + z.writer.inflight, inflight := []))
  {
    var a := Settle(|z.writer.inflight|);
    AfterSnoc(y, acts, a);
    z', acts' := Next(z, a), acts + [a];
    assert z.writer.inflight[..|z.writer.inflight|] == z.writer.inflight;
  }

  // Steps of the follower left once the writer is gone, if the file does not grow.
  function Rank(y: System): nat
    requires y.follower.sent <= y.range.Of(y.writer.disk)
  {
    8 * |Unread(y)| +
    match y.follower.pc
    case Ended => 0
    case Top => if y.follower.seen.None? then 2 else 5
    case Reading(done) => if done then 1 else if y.follower.seen == Some(y.cell.version) then 4 else 7
    case Blocked => if y.follower.seen == Some(y.cell.version) then 3 else 6
  }

  // Once the sender is dropped the follower is never stuck before its end, and
  // each of its steps brings it closer to it.
  lemma EndIsReached(y: System)
    requires Inv(y) && !y.cell.open
    ensures !y.follower.pc.Ended? ==> Enabled(y, Observe) || Enabled(y, Read(|Unread(y)|)) || Enabled(y, Wake)
    ensures forall a | Enabled(y, a) && (a.Observe? || a.Read? || a.Wake?) ::
      Next(y, a).follower.sent <= y.range.Of(y.writer.disk) && Rank(Next(y, a)) < Rank(y)
  {
    forall a | Enabled(y, a) && (a.Observe? || a.Read? || a.Wake?)
      ensures Next(y, a).follower.sent <= y.range.Of(y.writer.disk) && Rank(Next(y, a)) < Rank(y)
    {
      StepKeepsInv(y, a);
      if a.Read? && a.n > 0 { assert |Unread(Next(y, a))| == |Unread(y)| - a.n; }
    }
  }

  // While the writer goes on, a follower never ends, even if its range has been
  // sent completely.
  lemma NeverEndsEarly(y: System, acts: seq<Action>)
    requires Initial(y) && y.follows && Possible(y, acts) && After(y, acts).writer.stage.Copying?
    ensures !After(y, acts).follower.pc.Ended?
  {
    AlwaysInv(y, acts);
  }

  // The actors in their own form

  lemma {:induction false} AfterSnoc(y: System, acts: seq<Action>, a: Action)
    requires Possible(y, acts) && Enabled(After(y, acts), a)
    ensures Possible(y, acts + [a])
    ensures After(y, acts + [a]) == Next(After(y, acts), a)
    decreases |acts|
  {
    if acts == [] {
      assert [a][1..] == [];
    } else {
      assert (acts + [a])[1..] == acts[1..] + [a];
      AfterSnoc(Next(y, acts[0]), acts[1..], a);
    }
  }

  // The content file, the buffers above it and the cell that reports its growth.
  class Content {
    var disk: seq<Byte>
    var inflight: seq<Byte>
    var buffered: seq<Byte>
    var stage: Stage
    var value: bool
    var version: nat
    var open: bool
    ghost var noticed: nat
    ghost var dropped: nat

    constructor ()
      ensures disk == inflight == buffered == []
      ensures stage.Copying? && !value && version == 0 && open && noticed == 0
    {
      disk, inflight, buffered, stage := [], [], [], Copying;
      value, version, open := false, 0, true;
      noticed, dropped := 0, 0;
    }

    ghost function View(f: Follower, range: Range, follows: bool, looked: nat): System
      reads this
    {
      System(Writer(disk, inflight, buffered, stage), Cell(value, version, open), f, range, follows, noticed, dropped, looked)
    }

    method SendReplace(v: bool)
      modifies this`value, this`version, this`noticed
      ensures value == v && version == old(version) + 1 && noticed == |disk|
    {
      value, version := v, version + 1;
      noticed := |disk|;
    }

    // Performs `a`, a step of the writer or of the disk, unless it is not possible.
    method Perform(a: Action, ghost f: Follower, ghost range: Range, ghost follows: bool, ghost looked: nat)
      requires !a.Observe? && !a.Read? && !a.Wake?
      modifies this
      ensures
        var y := old(View(f, range, follows, looked));
        View(f, range, follows, looked) == if Enabled(y, a) then Next(y, a) else y
    {
      match a {
        case Accept(bytes) =>
          if stage.Copying? { buffered := buffered + bytes; }
        case Write(n) =>
          if stage.Copying? && inflight == [] && 0 < n <= |buffered| {
            inflight, buffered := buffered[..n], buffered[n..];
            SendReplace(false);
          }
        case Settle(n) =>
          if 0 < n <= |inflight| { disk, inflight := disk + inflight[..n], inflight[n..]; }
        case Flush =>
          if stage.Copying? && inflight == [] { SendReplace(false); }
        case Finish =>
          if stage.Copying? && inflight == [] && buffered == [] {
            stage := Finished;
            SendReplace(true);
          }
        case Drop =>
          if open {
            if stage.Copying? { stage := Failed; }
            open := false;
            dropped := |disk|;
          }
      }
    }
  }

  datatype Polled = Chunk(bytes: seq<Byte>) | EndOfStream | Pending

  // The stream over the content: its receiver, where its code is suspended, and
  // what it has sent, which is also its position in the file.
  class Stream {
    const content: Content
    const range: Range
    const follows: bool
    var seen: Option<nat>
    var pc: Pc
    var sent: seq<Byte>
    ghost var looked: nat

    constructor (content: Content, range: Range, progress: Option<nat>)
      ensures this.content == content && this.range == range && follows == progress.Some?
      ensures seen == progress && pc.Top? && sent == []
    {
      this.content, this.range, follows := content, range, progress.Some?;
      seen, pc, sent := progress, Top, [];
      looked := 0;
    }

    ghost function View(): System
      reads this, content
    {
      content.View(Follower(seen, pc, sent), range, follows, looked)
    }

    // `others` says what the writer and the disk do whenever the stream could be
    // suspended, `sizes` how much a read returns.  The stream is pending when
    // they are used up.
    method PollNext(others: seq<Action>, sizes: nat -> nat) returns (r: Polled, ghost trace: seq<Action>)
      requires Inv(View())
      requires forall a | a in others :: !a.Observe? && !a.Read? && !a.Wake?
      modifies this, content
      ensures Possible(old(View()), trace) && View() == After(old(View()), trace) && Inv(View())
      ensures IsRequested(View().follower.sent, range, View().writer.disk)
      ensures r.Chunk? ==> r.bytes != [] && sent == old(sent) + r.bytes
      ensures r.EndOfStream? ==> pc.Ended? && sent == old(sent)
      ensures r.Pending? ==> sent == old(sent)
    {
      trace := [];
      for k := 0 to |others|
        invariant Possible(old(View()), trace) && View() == After(old(View()), trace) && Inv(View())
        invariant sent == old(sent)
      {
        InvIsRequested(View());
        if pc.Ended? { return EndOfStream, trace; }
        var chunk;
        ghost var t;
        chunk, t := StepSelf(sizes(k), old(View()), trace);
        InvIsRequested(View());
        if chunk != [] { return Chunk(chunk), t; }
        trace := StepOthers(others[k], old(View()), t);
      }
      InvIsRequested(View());
      r := if pc.Ended? then EndOfStream else Pending;
    }

    method StepSelf(size: nat, ghost y: System, ghost trace: seq<Action>)
      returns (chunk: seq<Byte>, ghost t: seq<Action>)
      requires Possible(y, trace) && View() == After(y, trace) && Inv(View())
      modifies this
      ensures Possible(y, t) && View() == After(y, t) && Inv(View())
      ensures sent == old(sent) + chunk
    {
      chunk, t := [], trace;
      ghost var was := View();
      match pc {
        case Ended =>
        case Top =>
          if seen.Some? {
            seen, pc := Some(content.version), Reading(content.value);
          } else {
            pc := Reading(true);
          }
          ghost var a := Observe;
          AfterSnoc(y, t, a);
          StepKeepsInv(was, a);
          t := t + [a];
        case Reading(done) =>
          var unread := range.Of(content.disk)[|sent|..];
          var n := if size < |unread| then size + 1 else |unread|;
          chunk := unread[..n];
          sent := sent + chunk;
          pc := if n > 0 then Top else if done then Ended else Blocked;
          if n == 0 { looked := |content.disk|; }
          ghost var a := Action.Read(n);
          AfterSnoc(y, t, a);
          StepKeepsInv(was, a);
          t := t + [a];
        case Blocked =>
          if seen.value != content.version || !content.open {
            seen, pc := if seen.value != content.version then Some(content.version) else None, Top;
            ghost var a := Wake;
            AfterSnoc(y, t, a);
            StepKeepsInv(was, a);
            t := t + [a];
          }
      }
    }

    method StepOthers(a: Action, ghost y: System, ghost trace: seq<Action>) returns (ghost t: seq<Action>)
      requires Possible(y, trace) && View() == After(y, trace) && Inv(View())
      requires !a.Observe? && !a.Read? && !a.Wake?
      modifies content
      ensures Possible(y, t) && View() == After(y, t) && Inv(View())
    {
      t := trace;
      ghost var was := View();
      content.Perform(a, Follower(seen, pc, sent), range, follows, looked);
      if Enabled(was, a) {
        AfterSnoc(y, t, a);
        StepKeepsInv(was, a);
        t := t + [a];
      }
    }
  }
}
