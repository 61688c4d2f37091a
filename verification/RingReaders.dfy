// Two readers of a timeshift ring file: the FUSE file system, which computes byte
// ranges for each read (mirakc-timeshift-fs/src/filesystem.rs), and the streaming
// reader, which seeks to the beginning at the end of the file
// (mirakc-core/src/timeshift/filereader.rs).
module RingReaders {
  import opened Models

  // The ring

  lemma SmallModulo(x: nat, n: nat)
    requires x < 2 * n
    ensures x % n == if x < n then x else x - n
  {
  }

  // The ring of `size` bytes is complete, or the record lies in what has been
  // written of it.
  predicate Stored(file: seq<Byte>, size: nat, pos: nat, count: nat) {
    pos < size && count <= size && |file| <= size && (|file| == size || pos + count <= |file|)
  }

  // The bytes of a record, unrolled.
  function Record(file: seq<Byte>, size: nat, pos: nat, count: nat): (r: seq<Byte>)
    requires Stored(file, size, pos, count)
    ensures |r| == count
  {
    if pos + count <= |file| then file[pos..pos + count] else file[pos..] + file[..pos + count - |file|]
  }

  function Min(a: nat, b: nat): nat { if a < b then a else b }

  // What a read from `offset` on should return.
  function Expected(record: seq<Byte>, offset: nat, size: nat): seq<Byte> {
    if offset >= |record| then [] else record[offset..Min(offset + size, |record|)]
  }

  // Where each byte of a record is.
  lemma RecordAt(file: seq<Byte>, size: nat, pos: nat, count: nat, k: nat)
    requires Stored(file, size, pos, count) && k < count
    ensures pos + k < |file| || |file| == size <= pos + k < 2 * size
    ensures Record(file, size, pos, count)[k] == file[if pos + k < |file| then pos + k else pos + k - size]
  {
  }

  lemma RecordFrom(file: seq<Byte>, size: nat, pos: nat, count: nat, offset: nat, readSize: nat, start: nat)
    requires Stored(file, size, pos, count) && offset + readSize <= count && offset < count
    requires start == if pos + offset < size then pos + offset else pos + offset - size
    ensures Stored(file, size, start, readSize)
    ensures Record(file, size, start, readSize) == Record(file, size, pos, count)[offset..offset + readSize]
  {
    var part, all := Record(file, size, start, readSize), Record(file, size, pos, count);
    forall k | 0 <= k < readSize ensures part[k] == all[offset + k] {
      RecordAt(file, size, start, readSize, k);
      RecordAt(file, size, pos, count, offset + k);
    }
    SliceAgrees(part, all, offset, offset + readSize);
  }

  lemma SliceAgrees(part: seq<Byte>, all: seq<Byte>, from: nat, to: nat)
    requires from <= to <= |all| && |part| == to - from
    requires forall k | 0 <= k < |part| :: part[k] == all[from + k]
    ensures part == all[from..to]
  {
  }

  // The file system

  datatype Range = Range(start: nat, end: nat)

  type Ranges = (Option<Range>, Option<Range>)

  function ReadRanges(fileSize: nat, recordSize: nat, recordPos: nat, offset: nat, size: nat): Ranges
    requires recordPos < fileSize
  {
    if recordSize == 0 || offset >= recordSize then (None, None)
    else
      var start := Further(fileSize, recordPos, offset);
      RangesFrom(fileSize, start, Further(fileSize, start, ReadSize(recordSize, offset, size)))
  }

  function Further(fileSize: nat, pos: nat, count: nat): nat
    requires fileSize > 0
  {
    (pos + count) % fileSize
  }

  function ReadSize(recordSize: nat, offset: nat, size: nat): nat
    requires offset < recordSize
  {
    Min(recordSize - offset, size)
  }

  function RangesFrom(fileSize: nat, start: nat, end: nat): Ranges {
    if end == 0 then (Some(Range(start, fileSize)), None)
    else if start < end then (Some(Range(start, end)), None)
    else (Some(Range(start, fileSize)), Some(Range(0, end)))
  }

  // Reading stops at the end of the file.
  function ReadAt(file: seq<Byte>, r: Range): seq<Byte> {
    if r.start >= |file| || r.end <= r.start then [] else file[r.start..Min(r.end, |file|)]
  }

  function Filled(file: seq<Byte>, ranges: Ranges): seq<Byte> {
    match ranges
    case (None, _) => []
    case (Some(a), None) => ReadAt(file, a)
    case (Some(a), Some(b)) => ReadAt(file, a) + ReadAt(file, b)
  }

  // The second range starts at the beginning of the file and there is none
  // without the first, as `fill` takes for granted.
  lemma RangesAreOrdered(fileSize: nat, recordSize: nat, recordPos: nat, offset: nat, size: nat)
    requires recordPos < fileSize
    ensures
      var (a, b) := ReadRanges(fileSize, recordSize, recordPos, offset, size);
      && (a.Some? ==> a.value.start < a.value.end <= fileSize)
      && (b.Some? ==> a.Some? && a.value.end == fileSize && b.value.start == 0 && 0 < b.value.end <= a.value.start)
  {
  }

  function ReadRecord(file: seq<Byte>, fileSize: nat, recordSize: nat, recordPos: nat, offset: nat, size: nat): seq<Byte>
    requires recordPos < fileSize
  {
    Filled(file, ReadRanges(fileSize, recordSize, recordPos, offset, size))
  }

  lemma RangesCover(file: seq<Byte>, fileSize: nat, start: nat, readSize: nat)
    requires Stored(file, fileSize, start, readSize) && readSize > 0
    ensures Filled(file, RangesFrom(fileSize, start, Further(fileSize, start, readSize))) == Record(file, fileSize, start, readSize)
  {
    SmallModulo(start + readSize, fileSize);
  }

  lemma EmptyReadTakesAll(file: seq<Byte>, fileSize: nat, start: nat)
    requires start < |file| <= fileSize
    ensures Filled(file, RangesFrom(fileSize, start, Further(fileSize, start, 0))) == file[start..] + file[..start]
  {
    SmallModulo(start, fileSize);
  }

  lemma StartOf(fileSize: nat, recordSize: nat, recordPos: nat, offset: nat)
    requires recordPos < fileSize && recordSize <= fileSize && offset < recordSize
    ensures Further(fileSize, recordPos, offset) ==
      if recordPos + offset < fileSize then recordPos + offset else recordPos + offset - fileSize
  {
    SmallModulo(recordPos + offset, fileSize);
  }

  lemma ExpectedIs(record: seq<Byte>, offset: nat, size: nat, readSize: nat, end: nat)
    requires offset < |record| && readSize == ReadSize(|record|, offset, size) && end == offset + readSize
    ensures end <= |record| && Expected(record, offset, size) == record[offset..end]
  {
  }

  lemma ReadIsSlice(file: seq<Byte>, fileSize: nat, recordSize: nat, recordPos: nat, offset: nat, size: nat)
    requires Stored(file, fileSize, recordPos, recordSize) && size > 0
    ensures ReadRecord(file, fileSize, recordSize, recordPos, offset, size) ==
      Expected(Record(file, fileSize, recordPos, recordSize), offset, size)
  {
    if offset < recordSize {
      var readSize, start := ReadSize(recordSize, offset, size), Further(fileSize, recordPos, offset);
      StartOf(fileSize, recordSize, recordPos, offset);
      RecordFrom(file, fileSize, recordPos, recordSize, offset, readSize, start);
      ExpectedIs(Record(file, fileSize, recordPos, recordSize), offset, size, readSize, offset + readSize);
      RangesCover(file, fileSize, start, readSize);
    }
  }

  // A read returns that part of the record, unless it asks for no bytes at all of
  // a part that exists: then it returns the whole file, once around the ring.
  lemma ReadIsSliceIff(file: seq<Byte>, fileSize: nat, recordSize: nat, recordPos: nat, offset: nat, size: nat)
    requires Stored(file, fileSize, recordPos, recordSize)
    ensures
      ReadRecord(file, fileSize, recordSize, recordPos, offset, size) ==
      Expected(Record(file, fileSize, recordPos, recordSize), offset, size)
      <==> size > 0 || offset >= recordSize
    ensures size == 0 && offset < recordSize ==>
      var start := Further(fileSize, recordPos, offset);
      && start < |file|
      && ReadRecord(file, fileSize, recordSize, recordPos, offset, size) == file[start..] + file[..start]
  {
    if size > 0 {
      ReadIsSlice(file, fileSize, recordSize, recordPos, offset, size);
    } else if offset < recordSize {
      var start := Further(fileSize, recordPos, offset);
      StartOf(fileSize, recordSize, recordPos, offset);
      EmptyReadTakesAll(file, fileSize, start);
      assert ReadRecord(file, fileSize, recordSize, recordPos, offset, size) != [];
      assert Expected(Record(file, fileSize, recordPos, recordSize), offset, size) == [];
    }
  }

  function OffsetAfter(offset: nat, bytes: seq<Byte>): nat { offset + |bytes| }

  // Consecutive reads of the given sizes.
  function ReadAll(file: seq<Byte>, fileSize: nat, recordSize: nat, recordPos: nat, offset: nat, sizes: seq<nat>): seq<Byte>
    requires recordPos < fileSize
    decreases |sizes|
  {
    if sizes == [] then []
    else
      var bytes := ReadRecord(file, fileSize, recordSize, recordPos, offset, sizes[0]);
      bytes + ReadAll(file, fileSize, recordSize, recordPos, OffsetAfter(offset, bytes), sizes[1..])
  }

  function Sum(sizes: seq<nat>): nat { if sizes == [] then 0 else sizes[0] + Sum(sizes[1..]) }

  // Consecutive reads of any sizes reassemble the record.
  lemma {:induction false} ReadsReassemble(
    file: seq<Byte>, fileSize: nat, recordSize: nat, recordPos: nat, offset: nat, sizes: seq<nat>)
    requires Stored(file, fileSize, recordPos, recordSize) && forall i | 0 <= i < |sizes| :: sizes[i] > 0
    ensures ReadAll(file, fileSize, recordSize, recordPos, offset, sizes) ==
      Expected(Record(file, fileSize, recordPos, recordSize), offset, Sum(sizes))
    decreases |sizes|
  {
    if sizes != [] {
      ReadIsSlice(file, fileSize, recordSize, recordPos, offset, sizes[0]);
      var record := Record(file, fileSize, recordPos, recordSize);
      var bytes := Expected(record, offset, sizes[0]);
      var next := OffsetAfter(offset, bytes);
      ReadsReassemble(file, fileSize, recordSize, recordPos, next, sizes[1..]);
      ExpectedSum(record, offset, sizes[0], Sum(sizes[1..]), Sum(sizes), bytes, next);
    }
  }

  lemma ExpectedSum(record: seq<Byte>, offset: nat, a: nat, b: nat, sum: nat, bytes: seq<Byte>, next: nat)
    requires a > 0 && sum == a + b && bytes == Expected(record, offset, a) && next == OffsetAfter(offset, bytes)
    ensures Expected(record, offset, sum) == bytes + Expected(record, next, b)
  {
  }

  class RecordBuffer {
    const file: seq<Byte>
    var position: nat
    var buf: seq<Byte>

    constructor (file: seq<Byte>)
      ensures this.file == file && buf == []
    {
      this.file := file;
      position, buf := 0, [];
    }

    method Read(r: Range)
      requires r.start < r.end
      modifies this
      ensures buf == old(buf) + ReadAt(file, r)
    {
      position := r.start;
      if position < |file| {
        var end := Min(r.end, |file|);
        buf := buf + file[position..end];
        position := end;
      }
    }

    method Fill(ranges: Ranges)
      requires buf == [] && (ranges.1.Some? ==> ranges.0.Some?)
      requires ranges.0.Some? ==> ranges.0.value.start < ranges.0.value.end
      requires ranges.1.Some? ==> ranges.1.value.start == 0 < ranges.1.value.end
      modifies this
      ensures buf == Filled(file, ranges)
    {
      match ranges {
        case (None, _) =>
        case (Some(a), None) => Read(a);
        case (Some(a), Some(b)) =>
          Read(a);
          Read(Range(0, b.end));
      }
    }

    // What the file system replies to a read.
    method Serve(fileSize: nat, recordSize: nat, recordPos: nat, offset: nat, size: nat) returns (data: seq<Byte>)
      requires buf == [] && recordPos < fileSize
      modifies this
      ensures data == ReadRecord(file, fileSize, recordSize, recordPos, offset, size) && buf == []
    {
      RangesAreOrdered(fileSize, recordSize, recordPos, offset, size);
      Fill(ReadRanges(fileSize, recordSize, recordPos, offset, size));
      data := buf;
      buf := [];
    }
  }

  // The streaming reader

  datatype ReaderState = Reading | Seeking | Waiting

  // `position` is that of the file, or the one it will have once the operation
  // under way is done.
  datatype Reader = Reader(state: ReaderState, position: nat, stopped: bool)

  // What an operation on the file comes to: `Ready` transfers one byte more than
  // `most` unless there are fewer, or fewer fit.
  datatype Outcome = Ready(most: nat) | NotReady | Broken

  // Whether the stop signal has come, and what the operation that follows does.
  datatype Io = Io(stop: bool, outcome: Outcome)

  // A stopped reader must not be polled again, and a seek must end at the beginning.
  datatype Polled = Read(bytes: seq<Byte>) | Pending | Error | Panicked

  function Transferred(file: seq<Byte>, position: nat, most: nat, capacity: nat): (r: seq<Byte>)
    ensures |r| <= capacity
    ensures position < |file| && capacity > 0 <==> r != []
  {
    if position >= |file| then [] else file[position..Min(position + Min(most + 1, capacity), |file|)]
  }

  // One round of the loop; `None` if it goes on.
  function Round(x: Reader, file: seq<Byte>, capacity: nat, io: Io): (Reader, Option<Polled>) {
    if x.stopped then (x, Some(Panicked))
    else if io.stop then (x.(stopped := true), Some(Read([])))
    else
      match x.state
      case Reading =>
        (match io.outcome
         case Ready(most) =>
           var bytes := Transferred(file, x.position, most, capacity);
           if bytes == [] then (x.(state := Seeking), None)
           else (x.(position := x.position + |bytes|), Some(Read(bytes)))
         case NotReady => (x, Some(Pending))
         case Broken => (x, Some(Error)))
      case Seeking =>
        if io.outcome.Broken? then (x, Some(Error)) else (x.(state := Waiting, position := 0), None)
      case Waiting =>
        (match io.outcome
         case Ready(_) => if x.position != 0 then (x, Some(Panicked)) else (x.(state := Reading), None)
         case NotReady => (x, Some(Pending))
         case Broken => (x, Some(Error)))
  }

  // The operations in `ios` are used up before the reader has a result only if
  // it goes on; then it is pending.
  function PollRead(x: Reader, file: seq<Byte>, capacity: nat, ios: seq<Io>): (Reader, Polled)
    decreases |ios|
  {
    if ios == [] then (x, Pending)
    else
      var (x', r) := Round(x, file, capacity, ios[0]);
      if r.Some? then (x', r.value) else PollRead(x', file, capacity, ios[1..])
  }

  function Successor(file: seq<Byte>, position: nat): nat {
    if position + 1 < |file| then position + 1 else 0
  }

  // The ring read byte by byte.
  function Stream(file: seq<Byte>, position: nat, count: nat): (r: seq<Byte>)
    requires position < |file|
    ensures |r| == count
    decreases count
  {
    if count == 0 then [] else [file[position]] + Stream(file, Successor(file, position), count - 1)
  }

  // The position `count` bytes further on the ring.
  function Advanced(file: seq<Byte>, position: nat, count: nat): (r: nat)
    requires position < |file|
    ensures r < |file|
    decreases count
  {
    if count == 0 then position else Advanced(file, Successor(file, position), count - 1)
  }

  lemma {:induction false} StreamSum(file: seq<Byte>, position: nat, a: nat, b: nat, sum: nat)
    requires position < |file| && sum == a + b
    ensures Stream(file, position, sum) == Stream(file, position, a) + Stream(file, Advanced(file, position, a), b)
    ensures Advanced(file, position, sum) == Advanced(file, Advanced(file, position, a), b)
    decreases a
  {
    if a > 0 {
      StreamSum(file, Successor(file, position), a - 1, b, sum - 1);
    } else {
      assert Stream(file, position, a) + Stream(file, position, b) == Stream(file, position, b);
    }
  }

  lemma {:induction false} StreamInFile(file: seq<Byte>, position: nat, count: nat)
    requires position < |file| && position + count <= |file|
    ensures Stream(file, position, count) == file[position..position + count]
    ensures Advanced(file, position, count) == if position + count < |file| then position + count else 0
    decreases count
  {
    if count > 0 {
      var next := position + 1;
      if next < |file| { StreamInFile(file, next, count - 1); }
      SliceCons(file, position, next, position + count);
    }
  }

  // A record is what the ring yields from its position on.
  lemma StreamIsRecord(file: seq<Byte>, size: nat, pos: nat, count: nat)
    requires Stored(file, size, pos, count) && pos < |file|
    ensures Stream(file, pos, count) == Record(file, size, pos, count)
  {
    if pos + count <= |file| {
      StreamInFile(file, pos, count);
    } else {
      var first, second := |file| - pos, pos + count - |file|;
      StreamInFile(file, pos, first);
      StreamInFile(file, 0, second);
      StreamSum(file, pos, first, second, count);
      assert file[pos..pos + first] == file[pos..];
    }
  }

  // The reader is where it has to be to go on after `sent` bytes from `start`.
  predicate OnTrack(x: Reader, file: seq<Byte>, start: nat, sent: nat)
    requires start < |file|
  {
    var next := Advanced(file, start, sent);
    if x.state.Reading? then x.position <= |file| && (if x.position < |file| then x.position else 0) == next
    else next == 0 && AtBeginning(x)
  }

  // A reader that waits for a seek has not been moved meanwhile.
  predicate AtBeginning(x: Reader) { x.state.Waiting? ==> x.position == 0 }

  // `x` is left on track after `r`: the bytes read are the next ones of the ring, at
  // least one unless the reader was told to stop.
  predicate GoesOn(x: Reader, r: Polled, file: seq<Byte>, capacity: nat, start: nat, sent: nat)
    requires start < |file|
  {
    if r.Read? then
      && |r.bytes| <= capacity
      && Stream(file, start, sent + |r.bytes|) == Stream(file, start, sent) + r.bytes
      && OnTrack(x, file, start, sent + |r.bytes|)
      && (r.bytes == [] ==> x.stopped)
    else OnTrack(x, file, start, sent)
  }

  lemma ReadStaysOnTrack(x: Reader, file: seq<Byte>, capacity: nat, most: nat, start: nat, sent: nat)
    requires start < |file| && OnTrack(x, file, start, sent) && capacity > 0 && x.state.Reading?
    ensures
      var bytes := Transferred(file, x.position, most, capacity);
      if bytes == [] then Advanced(file, start, sent) == 0
      else GoesOn(x.(position := x.position + |bytes|), Read(bytes), file, capacity, start, sent)
  {
    var bytes := Transferred(file, x.position, most, capacity);
    if bytes != [] {
      StreamInFile(file, x.position, |bytes|);
      StreamSum(file, start, sent, |bytes|, sent + |bytes|);
    }
  }

  lemma RoundStaysOnTrack(x: Reader, file: seq<Byte>, capacity: nat, io: Io, start: nat, sent: nat)
    requires start < |file| && OnTrack(x, file, start, sent) && capacity > 0
    ensures
      var (x', r) := Round(x, file, capacity, io);
      if r.Some? then GoesOn(x', r.value, file, capacity, start, sent) else OnTrack(x', file, start, sent)
  {
    if !x.stopped && !io.stop && x.state.Reading? && io.outcome.Ready? {
      ReadStaysOnTrack(x, file, capacity, io.outcome.most, start, sent);
    } else if io.stop {
      EmptySum(Stream(file, start, sent));
    }
  }

  // Whatever the file does, a poll with room for some bytes yields the next bytes
  // of the ring, at least one unless the reader was told to stop.
  lemma {:induction false} PollYieldsNext(x: Reader, file: seq<Byte>, capacity: nat, ios: seq<Io>, start: nat, sent: nat)
    requires start < |file| && OnTrack(x, file, start, sent) && capacity > 0
    ensures
      var (x', r) := PollRead(x, file, capacity, ios);
      GoesOn(x', r, file, capacity, start, sent)
    decreases |ios|
  {
    if ios != [] {
      RoundStaysOnTrack(x, file, capacity, ios[0], start, sent);
      var (x', r) := Round(x, file, capacity, ios[0]);
      if r.None? { PollYieldsNext(x', file, capacity, ios[1..], start, sent); }
    }
  }

  datatype Call = Call(capacity: nat, ios: seq<Io>)

  // The bytes that consecutive polls return.
  function Output(x: Reader, file: seq<Byte>, calls: seq<Call>): seq<Byte>
    decreases |calls|
  {
    if calls == [] then []
    else
      var (x', r) := PollRead(x, file, calls[0].capacity, calls[0].ios);
      (if r.Read? then r.bytes else []) + Output(x', file, calls[1..])
  }

  lemma {:induction false} OutputIsStream(x: Reader, file: seq<Byte>, calls: seq<Call>, start: nat, sent: nat, total: nat)
    requires start < |file| && OnTrack(x, file, start, sent) && total == sent + |Output(x, file, calls)|
    requires forall i | 0 <= i < |calls| :: calls[i].capacity > 0
    ensures Stream(file, start, total) == Stream(file, start, sent) + Output(x, file, calls)
    decreases |calls|
  {
    if calls == [] {
      assert Stream(file, start, sent) + [] == Stream(file, start, sent);
    } else {
      PollYieldsNext(x, file, calls[0].capacity, calls[0].ios, start, sent);
      var (x', r) := PollRead(x, file, calls[0].capacity, calls[0].ios);
      var bytes := if r.Read? then r.bytes else [];
      assert Stream(file, start, sent) + [] == Stream(file, start, sent);
      OutputIsStream(x', file, calls[1..], start, sent + |bytes|, total);
      AppendAssociative(Stream(file, start, sent), bytes, Output(x', file, calls[1..]));
    }
  }

  // The two readers agree: a read of the file system returns the bytes that the
  // streaming reader yields from the same position on, however it is polled.
  lemma ReadersAgree(
    file: seq<Byte>, fileSize: nat, recordSize: nat, recordPos: nat, offset: nat, size: nat, calls: seq<Call>)
    requires Stored(file, fileSize, recordPos, recordSize) && size > 0 && offset < recordSize
    requires forall i | 0 <= i < |calls| :: calls[i].capacity > 0
    ensures
      var data := ReadRecord(file, fileSize, recordSize, recordPos, offset, size);
      var out := Output(Reader(Reading, Further(fileSize, recordPos, offset), false), file, calls);
      if |out| <= |data| then out <= data else data <= out
  {
    var start := Further(fileSize, recordPos, offset);
    var data := ReadRecord(file, fileSize, recordSize, recordPos, offset, size);
    ReadIsStream(file, fileSize, recordSize, recordPos, offset, size);
    var out := Output(Reader(Reading, start, false), file, calls);
    OutputFrom(file, calls, start, out);
    StreamPrefix(file, start, |data|, |out|);
  }

  lemma OutputFrom(file: seq<Byte>, calls: seq<Call>, start: nat, out: seq<Byte>)
    requires start < |file| && out == Output(Reader(Reading, start, false), file, calls)
    requires forall i | 0 <= i < |calls| :: calls[i].capacity > 0
    ensures out == Stream(file, start, |out|)
  {
    OutputIsStream(Reader(Reading, start, false), file, calls, start, 0, |out|);
    assert Stream(file, start, 0) + out == out;
  }

  lemma ReadIsStream(file: seq<Byte>, fileSize: nat, recordSize: nat, recordPos: nat, offset: nat, size: nat)
    requires Stored(file, fileSize, recordPos, recordSize) && size > 0 && offset < recordSize
    ensures
      var data := ReadRecord(file, fileSize, recordSize, recordPos, offset, size);
      var start := Further(fileSize, recordPos, offset);
      start < |file| && data == Stream(file, start, |data|)
  {
    var start, readSize := Further(fileSize, recordPos, offset), ReadSize(recordSize, offset, size);
    StartOf(fileSize, recordSize, recordPos, offset);
    RecordFrom(file, fileSize, recordPos, recordSize, offset, readSize, start);
    RangesCover(file, fileSize, start, readSize);
    StreamIsRecord(file, fileSize, start, readSize);
  }

  lemma StreamPrefix(file: seq<Byte>, start: nat, a: nat, b: nat)
    requires start < |file|
    ensures if a <= b then Stream(file, start, a) <= Stream(file, start, b) else Stream(file, start, b) <= Stream(file, start, a)
  {
    if a <= b { StreamSum(file, start, a, b - a, b); } else { StreamSum(file, start, b, a - b, a); }
  }

  // The assertion on the end of a seek

  lemma {:induction false} PollKeepsAtBeginning(x: Reader, file: seq<Byte>, capacity: nat, ios: seq<Io>)
    requires AtBeginning(x)
    ensures AtBeginning(PollRead(x, file, capacity, ios).0)
    ensures PollRead(x, file, capacity, ios).1.Panicked? ==> x.stopped
    decreases |ios|
  {
    if ios != [] && Round(x, file, capacity, ios[0]).1.None? {
      PollKeepsAtBeginning(Round(x, file, capacity, ios[0]).0, file, capacity, ios[1..]);
    }
  }

  // A poll of a reader that is not stopped panics exactly if the reader waits
  // elsewhere than at the beginning and the file answers.
  lemma PollPanicsIff(x: Reader, file: seq<Byte>, capacity: nat, ios: seq<Io>)
    requires !x.stopped
    ensures PollRead(x, file, capacity, ios).1.Panicked? <==>
      !AtBeginning(x) && ios != [] && !ios[0].stop && ios[0].outcome.Ready?
  {
    if AtBeginning(x) { PollKeepsAtBeginning(x, file, capacity, ios); }
  }

  // What one round of a poll comes to.  A stopped reader panics; the stop signal ends
  // the stream; an operation that is not ready leaves the poll pending, and one that
  // fails gives an error, without any change.  At the end of the file, or without
  // room, the reader seeks; then it waits; then it reads from the beginning.
  lemma RoundMeans(x: Reader, file: seq<Byte>, capacity: nat, io: Io) returns (n: nat)
    ensures
      var (x', r) := Round(x, file, capacity, io);
      if x.stopped then x' == x && r == Some(Panicked)
      else if io.stop then x' == x.(stopped := true) && r == Some(Read([]))
      else if io.outcome.Broken? then x' == x && r == Some(Error)
      else if x.state.Seeking? then x' == Reader(Waiting, 0, false) && r == None
      else if io.outcome.NotReady? then x' == x && r == Some(Pending)
      else if x.state.Waiting? then
        if x.position == 0 then x' == Reader(Reading, 0, false) && r == None else x' == x && r == Some(Panicked)
      else if x.position >= |file| || capacity == 0 then x' == x.(state := Seeking) && r == None
      else
        && 0 < n <= capacity && n <= io.outcome.most + 1 && x.position + n <= |file|
        && (n == capacity || n == io.outcome.most + 1 || x.position + n == |file|)
        && x' == x.(position := x.position + n) && r == Some(Read(file[x.position..x.position + n]))
  {
    n := if io.outcome.Ready? then |Transferred(file, x.position, io.outcome.most, capacity)| else 0;
  }

  // A poll goes on from round to round until one has a result, and is pending if
  // none has.
  lemma {:induction false} PollMeans(x: Reader, file: seq<Byte>, capacity: nat, ios: seq<Io>) returns (xs: seq<Reader>)
    ensures 0 < |xs| <= |ios| + 1 && xs[0] == x
    ensures
      var n, (y, polled) := |xs| - 1, PollRead(x, file, capacity, ios);
      && y == xs[n]
      && (forall k | 0 <= k < n :: Round(xs[k], file, capacity, ios[k]).0 == xs[k + 1])
      && (forall k | 0 <= k < n - 1 :: Round(xs[k], file, capacity, ios[k]).1.None?)
      && (n > 0 && Round(xs[n - 1], file, capacity, ios[n - 1]).1.Some? ==>
          polled == Round(xs[n - 1], file, capacity, ios[n - 1]).1.value)
      && (n == 0 || Round(xs[n - 1], file, capacity, ios[n - 1]).1.None? ==> n == |ios| && polled == Pending)
    decreases |ios|
  {
    xs := [x];
    if ios != [] {
      var (x', r) := Round(x, file, capacity, ios[0]);
      if r.Some? {
        xs := [x, x'];
      } else {
        var rest := PollMeans(x', file, capacity, ios[1..]);
        xs := [x] + rest;
        assert forall k | 0 < k < |xs| :: xs[k] == rest[k - 1];
      }
    }
  }

  // At the end of the file a poll goes round to the beginning, if nothing fails.
  lemma PollRewinds(x: Reader, file: seq<Byte>, capacity: nat, ios: seq<Io>)
    requires x.state.Reading? && !x.stopped && x.position >= |file| > 0 && capacity > 0
    requires |ios| == 4 && forall io | io in ios :: !io.stop && io.outcome.Ready?
    ensures
      var (x', r) := PollRead(x, file, capacity, ios);
      r.Read? && r.bytes != [] && r.bytes <= file && x' == Reader(Reading, |r.bytes|, false)
  {
    var x1, x2, x3 := x.(state := Seeking), Reader(Waiting, 0, false), Reader(Reading, 0, false);
    assert ios[1..][1..] == ios[2..] && ios[2..][1..] == ios[3..];
    assert PollRead(x, file, capacity, ios) == PollRead(x1, file, capacity, ios[1..]);
    assert PollRead(x1, file, capacity, ios[1..]) == PollRead(x2, file, capacity, ios[2..]);
    assert PollRead(x2, file, capacity, ios[2..]) == PollRead(x3, file, capacity, ios[3..]);
  }

  // What is done to a reader; a move whose seek fails has no effect.
  datatype Use = Poll(call: Call) | Move(pos: nat, found: bool)

  function Used(x: Reader, file: seq<Byte>, u: Use): Reader {
    match u
    case Poll(c) => PollRead(x, file, c.capacity, c.ios).0
    case Move(pos, found) => if found then x.(position := pos) else x
  }

  function AllUsed(x: Reader, file: seq<Byte>, uses: seq<Use>): Reader
    decreases |uses|
  {
    if uses == [] then x else AllUsed(Used(x, file, uses[0]), file, uses[1..])
  }

  predicate MovesAway(x: Reader, u: Use) {
    u.Move? && u.found && x.state.Waiting? && u.pos != 0
  }

  // No move away from the beginning while the reader waits.
  predicate MovedInTime(x: Reader, file: seq<Byte>, uses: seq<Use>)
    decreases |uses|
  {
    uses == [] || (!MovesAway(x, uses[0]) && MovedInTime(Used(x, file, uses[0]), file, uses[1..]))
  }

  // Whether a poll of a reader that has not been stopped panics.
  predicate Asserts(x: Reader, file: seq<Byte>, uses: seq<Use>)
    decreases |uses|
  {
    uses != [] &&
    ((uses[0].Poll? && !x.stopped && PollRead(x, file, uses[0].call.capacity, uses[0].call.ios).1.Panicked?) ||
     Asserts(Used(x, file, uses[0]), file, uses[1..]))
  }

  // However a reader is polled and moved, the assertion holds unless the reader is
  // moved away from the beginning while it waits.
  lemma {:induction false} NeverAsserts(x: Reader, file: seq<Byte>, uses: seq<Use>)
    requires AtBeginning(x) && MovedInTime(x, file, uses)
    ensures AtBeginning(AllUsed(x, file, uses)) && !Asserts(x, file, uses)
    decreases |uses|
  {
    if uses != [] {
      if uses[0].Poll? { PollKeepsAtBeginning(x, file, uses[0].call.capacity, uses[0].call.ios); }
      NeverAsserts(Used(x, file, uses[0]), file, uses[1..]);
    }
  }

  // What the polls after a rewind or a move return: the ring from the beginning if
  // the reader is about to seek, and from its position otherwise.
  lemma OutputStartsAt(x: Reader, file: seq<Byte>, calls: seq<Call>, start: nat)
    requires AtBeginning(x)
    requires start == (if x.state.Reading? then x.position else 0) && start < |file| && !x.stopped
    requires forall i | 0 <= i < |calls| :: calls[i].capacity > 0
    ensures Output(x, file, calls) == Stream(file, start, |Output(x, file, calls)|)
  {
    OutputIsStream(x, file, calls, start, 0, |Output(x, file, calls)|);
    assert Stream(file, start, 0) + Output(x, file, calls) == Output(x, file, calls);
  }

  // A reader that has been moved away while it waits yields nothing any more.
  lemma {:induction false} MovedAwayYieldsNothing(x: Reader, file: seq<Byte>, calls: seq<Call>)
    requires !AtBeginning(x)
    ensures Output(x, file, calls) == []
    decreases |calls|
  {
    if calls != [] {
      var (x', r) := PollRead(x, file, calls[0].capacity, calls[0].ios);
      assert !AtBeginning(x') && (r.Read? ==> r.bytes == []);
      MovedAwayYieldsNothing(x', file, calls[1..]);
    }
  }

  // A poll without room, if the file answers it, makes the reader seek: the polls
  // that follow return the ring from the beginning, wherever the reader was.
  lemma EmptyBufferRewinds(x: Reader, file: seq<Byte>, io: Io, start: nat, sent: nat, calls: seq<Call>)
    requires start < |file| && OnTrack(x, file, start, sent) && !x.stopped && !io.stop
    requires x.state.Reading? && io.outcome.Ready?
    requires forall i | 0 <= i < |calls| :: calls[i].capacity > 0
    ensures OnTrack(Round(x, file, 0, io).0, file, start, sent) <==> Advanced(file, start, sent) == 0
    ensures
      var out := Output(Round(x, file, 0, io).0, file, calls);
      out == Stream(file, 0, |out|)
  {
    OutputStartsAt(Round(x, file, 0, io).0, file, calls, 0);
  }

  // Moving a reader has the intended effect exactly if it reads, or is moved to the
  // beginning.  If it is about to seek, the polls that follow return the ring from
  // the beginning; if it waits for a seek, the first one that the file answers panics.
  lemma SetPositionWorksIff(x: Reader, file: seq<Byte>, pos: nat, calls: seq<Call>)
    requires pos < |file| && !x.stopped
    requires forall i | 0 <= i < |calls| :: calls[i].capacity > 0
    ensures OnTrack(x.(position := pos), file, pos, 0) <==> x.state.Reading? || pos == 0
    ensures
      var y := x.(position := pos);
      var out := Output(y, file, calls);
      if x.state.Waiting? && pos != 0 then
        out == [] &&
        forall capacity: nat, ios: seq<Io> | ios != [] && !ios[0].stop && ios[0].outcome.Ready? ::
          PollRead(y, file, capacity, ios) == (y, Panicked)
      else out == Stream(file, if x.state.Reading? then pos else 0, |out|)
  {
    var y := x.(position := pos);
    if x.state.Waiting? && pos != 0 {
      MovedAwayYieldsNothing(y, file, calls);
    } else {
      OutputStartsAt(y, file, calls, if x.state.Reading? then pos else 0);
    }
  }

  class TimeshiftFileReader {
    const file: seq<Byte>
    var state: ReaderState
    var position: nat
    var stopped: bool

    constructor (file: seq<Byte>)
      ensures this.file == file && View() == Reader(Reading, 0, false)
    {
      this.file := file;
      state, position, stopped := Reading, 0, false;
    }

    function View(): Reader
      reads this
    {
      Reader(state, position, stopped)
    }

    // `found` if the seek succeeds; a failure is ignored.
    method SetPosition(pos: nat, found: bool)
      modifies this`position
      ensures View() == if found then old(View()).(position := pos) else old(View())
    {
      if found { position := pos; }
    }

    method Poll(capacity: nat, ios: seq<Io>) returns (r: Polled)
      modifies this
      ensures (View(), r) == PollRead(old(View()), file, capacity, ios)
    {
      ghost var x := View();
      for k := 0 to |ios|
        invariant PollRead(View(), file, capacity, ios[k..]) == PollRead(x, file, capacity, ios)
      {
        assert ios[k..][0] == ios[k] && ios[k..][1..] == ios[k + 1..];
        if stopped { return Panicked; }
        if ios[k].stop {
          stopped := true;
          return Read([]);
        }
        match state {
          case Reading =>
            match ios[k].outcome {
              case Ready(most) =>
                var bytes := Transferred(file, position, most, capacity);
                if bytes != [] {
                  position := position + |bytes|;
                  return Read(bytes);
                }
                state := Seeking;
              case NotReady => return Pending;
              case Broken => return Error;
            }
          case Seeking =>
            if ios[k].outcome.Broken? { return Error; }
            state, position := Waiting, 0;
          case Waiting =>
            match ios[k].outcome {
              case Ready(_) =>
                if position != 0 { return Panicked; }
                state := Reading;
              case NotReady => return Pending;
              case Broken => return Error;
            }
        }
      }
      r := Pending;
    }
  }
}
