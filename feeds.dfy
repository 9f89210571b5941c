/**
 * The dashboard's component state and the pure updaters that its setState
 * calls apply (src/components/layout/Dashboard.tsx): a stream push keeps the
 * new record and at most nine of the old ones, a load replaces one feed.
 */
module Feeds {
  import opened Kinesis

  /** The two entity kinds the dashboard shows (`enum Entity`). */
  datatype Entity = Ledgers | Transactions

  function Other(e: Entity): (o: Entity)
    ensures o != e
  {
    match e
    case Ledgers => Transactions
    case Transactions => Ledgers
  }

  /** The component state: two feeds, newest first, and the loading flag. */
  datatype DashboardState = DashboardState(ledgers: seq<Record>, transactions: seq<Record>, isLoading: bool)

  const InitialState: DashboardState := DashboardState([], [], false)

  /** `state[dataType]` */
  function Feed(s: DashboardState, e: Entity): seq<Record>
  {
    match e
    case Ledgers => s.ledgers
    case Transactions => s.transactions
  }

  function Min(a: int, b: int): int
  {
    if a <= b then a else b
  }

  /** Array.prototype.slice(start, end) for non-negative arguments: both ends
      are clamped to the length, and a range that is empty or reversed gives []. */
  function Slice<T>(s: seq<T>, start: nat, end: nat): (r: seq<T>)
    ensures |r| == if start <= end then Min(end, |s|) - Min(start, |s|) else 0
    ensures forall i :: 0 <= i < |r| ==> start + i < |s| && r[i] == s[start + i]
  {
    if |s| <= start || end <= start then [] else s[start..Min(end, |s|)]
  }

  /** How many old records a stream push keeps (`slice(0, 9)`). */
  const Retained: nat := 9

  /** The longest a feed can be after a push. */
  const Capacity: nat := Retained + 1

  /** `[nextData, ...feed.slice(0, 9)]`: the new record first, then the first
      nine old records in their order; older records drop off the end. */
  function Push<T>(feed: seq<T>, x: T): (r: seq<T>)
    ensures |r| == 1 + Min(|feed|, Retained) && |r| <= Capacity
    ensures r[0] == x
    ensures r[1..] == feed[..Min(|feed|, Retained)]
  {
    var kept := Slice(feed, 0, Retained);
    assert kept == feed[..Min(|feed|, Retained)];
    [x] + kept
  }

  /** The updater of handleLoadData(dataType)(initialData). */
  function LoadData(s: DashboardState, e: Entity, data: seq<Record>): (r: DashboardState)
    ensures Feed(r, e) == data
    ensures Feed(r, Other(e)) == Feed(s, Other(e))
    ensures r.isLoading == s.isLoading
  {
    match e
    case Ledgers => s.(ledgers := data)
    case Transactions => s.(transactions := data)
  }

  /** The updater of handleStreamData(dataType)(nextData). */
  function StreamData(s: DashboardState, e: Entity, x: Record): (r: DashboardState)
    ensures Feed(r, e) == Push(Feed(s, e), x)
    ensures Feed(r, Other(e)) == Feed(s, Other(e))
    ensures r.isLoading == s.isLoading
  {
    match e
    case Ledgers => s.(ledgers := Push(s.ledgers, x))
    case Transactions => s.(transactions := Push(s.transactions, x))
  }

  /** The stream events xs applied one after another, xs[0] first. */
  function StreamAll(s: DashboardState, e: Entity, xs: seq<Record>): DashboardState
    decreases |xs|
  {
    if xs == [] then s else StreamData(StreamAll(s, e, xs[..|xs| - 1]), e, xs[|xs| - 1])
  }

  /** The feed after pushing xs[0], xs[1], ... in that order. */
  function PushAll<T>(feed: seq<T>, xs: seq<T>): seq<T>
    decreases |xs|
  {
    if xs == [] then feed else Push(PushAll(feed, xs[..|xs| - 1]), xs[|xs| - 1])
  }

  /** The reference order of a feed: the last record pushed comes first. */
  function Reverse<T>(s: seq<T>): (r: seq<T>)
    ensures |r| == |s|
    ensures forall i :: 0 <= i < |s| ==> r[i] == s[|s| - 1 - i]
    decreases |s|
  {
    if s == [] then [] else [s[|s| - 1]] + Reverse(s[..|s| - 1])
  }

  /** The first n elements, or all of them when there are fewer. */
  function Take<T>(s: seq<T>, n: nat): (r: seq<T>)
    ensures |r| == Min(n, |s|)
  {
    s[..Min(n, |s|)]
  }

  /** The events of one entity leave the other feed and the loading flag
      alone, and act on their own feed as the pushes do, in order. */
  lemma {:induction false} StreamAllIsPushAll(s: DashboardState, e: Entity, xs: seq<Record>)
    ensures Feed(StreamAll(s, e, xs), e) == PushAll(Feed(s, e), xs)
    ensures Feed(StreamAll(s, e, xs), Other(e)) == Feed(s, Other(e))
    ensures StreamAll(s, e, xs).isLoading == s.isLoading
    decreases |xs|
  {
    if xs != [] {
      StreamAllIsPushAll(s, e, xs[..|xs| - 1]);
    }
  }

  /** Pushing x onto the first ten records of s gives the first ten records
      of x followed by s. */
  lemma PushTake<T>(x: T, s: seq<T>)
    ensures Push(Take(s, Capacity), x) == Take([x] + s, Capacity)
  {
  }

  /** After at least one push, a feed holds the first ten records of
      "pushed records newest first, then the feed it started from". */
  lemma {:induction false} PushAllIsNewestFirst<T>(feed: seq<T>, xs: seq<T>)
    requires |xs| > 0
    ensures PushAll(feed, xs) == Take(Reverse(xs) + feed, Capacity)
    decreases |xs|
  {
    var ys, x := xs[..|xs| - 1], xs[|xs| - 1];
    assert Reverse(xs) == [x] + Reverse(ys);
    if ys == [] {
      assert Reverse(ys) == [];
      assert feed == Take(feed, |feed|);
      calc {
        PushAll(feed, xs);
        Push(feed, x);
        { PushTake(x, feed); assert Take(feed, Capacity)[..Min(|feed|, Retained)] == feed[..Min(|feed|, Retained)]; }
        Take([x] + feed, Capacity);
      }
    } else {
      PushAllIsNewestFirst(feed, ys);
      PushTake(x, Reverse(ys) + feed);
      assert [x] + (Reverse(ys) + feed) == Reverse(xs) + feed;
    }
  }

  /** A feed never grows past ten records through pushes. */
  lemma PushAllBounded<T>(feed: seq<T>, xs: seq<T>)
    requires |xs| > 0
    ensures |PushAll(feed, xs)| <= Capacity
  {
  }

  /** After ten or more pushes the feed is exactly the last ten pushed
      records, newest first, whatever it held before. */
  lemma LastTenPushes<T>(feed: seq<T>, xs: seq<T>)
    requires |xs| >= Capacity
    ensures PushAll(feed, xs) == Reverse(xs[|xs| - Capacity..])
  {
    PushAllIsNewestFirst(feed, xs);
    var lhs := Take(Reverse(xs) + feed, Capacity);
    var rhs := Reverse(xs[|xs| - Capacity..]);
    assert |lhs| == |rhs|;
    forall i | 0 <= i < Capacity ensures lhs[i] == rhs[i] {
      assert lhs[i] == Reverse(xs)[i];
    }
  }
}
