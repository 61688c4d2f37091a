// Values shared by the components: identifiers, channels, tuner users and the
// optional values the sources express with Rust's `Option`.
module Models {

  datatype Option<+T> = None | Some(value: T)

  // mirakc-core/src/models.rs
  datatype ChannelType = GR | BS | CS | SKY | BS4K

  // `EpgChannel` reduced to the fields that decide which tuner can serve it.
  datatype Channel = Channel(name: string, channelType: ChannelType, channel: string) {
    // Two channels are the same station if a tuner tuned to one serves the other.
    predicate SameStation(other: Channel) {
      channelType == other.channelType && channel == other.channel
    }
  }

  // A program is identified by its service and its event ID.
  datatype ProgramId = ProgramId(service: nat, eid: nat)

  datatype UserInfo =
    | Job(name: string)
    | OnairProgramTracker(name: string)
    | Recorder(program: ProgramId)
    | TimeshiftRecorder(name: string)
    | Web(id: string, agent: Option<string>)

  const MIN_PRIORITY := -128
  const MAX_PRIORITY := 128

  type Priority = p: int | MIN_PRIORITY <= p <= MAX_PRIORITY witness 0

  // The highest priority takes a tuner from any user.
  const GRAB: Priority := MAX_PRIORITY

  function Clamped(value: int): Priority {
    if value < MIN_PRIORITY then MIN_PRIORITY
    else if value > MAX_PRIORITY then MAX_PRIORITY
    else value
  }

  datatype User = User(info: UserInfo, priority: Priority)

  newtype Byte = b: int | 0 <= b < 256

  // A sequence without repetitions that lists a set holds each element once.
  lemma {:induction false} DistinctMultiset<T>(a: seq<T>, elements: set<T>)
    requires forall i, j | 0 <= i < j < |a| :: a[i] != a[j]
    requires forall x :: x in a <==> x in elements
    ensures multiset(a) == multiset(elements)
  {
    if a == [] {
      assert elements == {};
    } else {
      assert a == [a[0]] + a[1..];
      assert a[0] in elements;
      DistinctMultiset(a[1..], elements - {a[0]});
      assert multiset(elements) == multiset(elements - {a[0]}) + multiset{a[0]};
    }
  }

  lemma SetSplit<T>(a: set<T>, b: set<T>)
    requires b <= a
    ensures multiset(a) == multiset(b) + multiset(a - b)
  {
  }

  lemma SetPlus<T>(a: set<T>, x: T, b: set<T>)
    requires x !in a && b == a + {x}
    ensures multiset(b) == multiset(a) + multiset{x}
  {
  }

  lemma AppendAssociative<T>(a: seq<T>, b: seq<T>, c: seq<T>)
    ensures (a + b) + c == a + (b + c)
  {
  }

  lemma SplitLast<T>(s: seq<T>)
    requires s != []
    ensures s == s[..|s| - 1] + [s[|s| - 1]]
  {
  }

  // `n` is `i + 1`.
  lemma TakeNext<T>(s: seq<T>, i: nat, n: nat)
    requires i < |s| && n == i + 1
    ensures s[..n] == s[..i] + [s[i]] && s[..n][..i] == s[..i]
  {
  }

  lemma TailSnoc<T>(s: seq<T>, x: T)
    requires s != []
    ensures (s + [x])[1..] == s[1..] + [x]
  {
  }

  lemma TakeOfSnoc<T>(s: seq<T>, x: T, n: nat)
    requires n <= |s|
    ensures (s + [x])[..n] == s[..n]
  {
  }

  lemma TakeAll<T>(s: seq<T>, n: nat)
    requires n == |s|
    ensures s[..n] == s
  {
  }

  lemma InnerSlice<T>(s: seq<T>, a: nat, b: nat, n: nat)
    requires a <= b <= |s| && n == b - a
    ensures s[a..][..n] == s[a..b]
  {
  }

  // `n` is `i + 1`.
  lemma SliceCons<T>(s: seq<T>, i: nat, n: nat, end: nat)
    requires i < end <= |s| && n == i + 1
    ensures s[i..end] == [s[i]] + s[n..end]
  {
  }

  lemma EmptySum<T>(s: seq<T>)
    ensures [] + s == s && s + [] == s
  {
  }

  lemma TailOfCons<T>(x: T, s: seq<T>)
    ensures ([x] + s)[1..] == s && ([x] + s)[0] == x
  {
  }

  lemma TailSum<T>(a: seq<T>, b: seq<T>)
    requires a != []
    ensures (a + b)[1..] == a[1..] + b && (a + b)[0] == a[0]
  {
  }

  lemma TakeTail<T>(s: seq<T>, k: nat, n: nat)
    requires 0 < k <= |s| && n == k - 1
    ensures s[..k][1..] == s[1..][..n] && s[..k][0] == s[0]
  {
  }
}
