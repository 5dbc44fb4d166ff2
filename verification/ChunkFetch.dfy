/** Fetching one chunk of the sharded export (src/telegram_sharded_client.py): backward pagination into
    a buffer, and the split of a slow chunk into four, with the buffer discarded and fetched again. */
module ChunkFetch {
  import opened History

  const PAGE_LIMIT: nat := 100
  const SPLIT_SPAN := 1000

  /** Whether the clock calls a fetch slow, and likewise for its four sub-fetches. */
  datatype Timing = Timing(slow: bool, parts: seq<Timing>)

  function Part(t: Timing, i: nat): Timing {
    if i < |t.parts| then t.parts[i] else Timing(false, [])
  }

  predicate Splits(start: int, end: int, retries: nat, t: Timing) {
    t.slow && end - start > SPLIT_SPAN && retries > 0
  }

  function Cut(start: int, end: int, i: nat): int {
    if i < 4 then start + i * ((end - start) / 4) else end
  }

  /** The messages one chunk fetch puts on its queue, in order. */
  function Emitted(h: seq<int>, start: int, end: int, retries: nat, t: Timing): seq<int>
    decreases retries, 5
  {
    if Splits(start, end, retries, t) then EmittedParts(h, start, end, retries, t, 4)
    else Reverse(Between(h, start, end))
  }

  /** What the first `n` of the four sub-fetches put there. */
  function EmittedParts(h: seq<int>, start: int, end: int, retries: nat, t: Timing, n: nat): seq<int>
    requires retries > 0 && n <= 4
    decreases retries, n
  {
    if n == 0 then []
    else
      EmittedParts(h, start, end, retries, t, n - 1)
      + Emitted(h, Cut(start, end, n - 1), Cut(start, end, n), retries - 1, Part(t, n - 1))
  }

  /** How many chunk fetches that takes. */
  function Fetches(start: int, end: int, retries: nat, t: Timing): nat
    decreases retries, 5
  {
    if Splits(start, end, retries, t) then 1 + FetchesOfParts(start, end, retries, t, 4) else 1
  }

  function FetchesOfParts(start: int, end: int, retries: nat, t: Timing, n: nat): nat
    requires retries > 0 && n <= 4
    decreases retries, n
  {
    if n == 0 then 0
    else
      FetchesOfParts(start, end, retries, t, n - 1)
      + Fetches(Cut(start, end, n - 1), Cut(start, end, n), retries - 1, Part(t, n - 1))
  }

  function PowerOfFour(n: nat): nat { if n == 0 then 1 else 4 * PowerOfFour(n - 1) }

  /** Whatever the clock says, a chunk fetch emits every message of `(start, end]` exactly once. */
  lemma {:induction false} EmitsExactly(h: seq<int>, start: int, end: int, retries: nat, t: Timing)
    requires Ascending(h)
    ensures multiset(Emitted(h, start, end, retries, t)) == multiset(Between(h, start, end))
    decreases retries, 5
  {
    if Splits(start, end, retries, t) {
      PartsEmitExactly(h, start, end, retries, t, 4);
    } else {
      ReverseLength(Between(h, start, end));
    }
  }

  /** The first sub-ranges cover exactly the discarded range up to their last cut. */
  lemma {:induction false} PartsEmitExactly(h: seq<int>, start: int, end: int, retries: nat, t: Timing, n: nat)
    requires Ascending(h) && retries > 0 && end - start > SPLIT_SPAN && n <= 4
    ensures multiset(EmittedParts(h, start, end, retries, t, n)) == multiset(Between(h, start, Cut(start, end, n)))
    decreases retries, n
  {
    if n == 0 {
      BetweenEmpty(h, start, start);
    } else {
      var done := EmittedParts(h, start, end, retries, t, n - 1);
      var part := Emitted(h, Cut(start, end, n - 1), Cut(start, end, n), retries - 1, Part(t, n - 1));
      PartsEmitExactly(h, start, end, retries, t, n - 1);
      EmitsExactly(h, Cut(start, end, n - 1), Cut(start, end, n), retries - 1, Part(t, n - 1));
      CutsAscend(start, end, n);
      JoinContents(h, start, Cut(start, end, n - 1), Cut(start, end, n));
      assert EmittedParts(h, start, end, retries, t, n) == done + part;
      assert multiset(done + part) == multiset(done) + multiset(part);
    }
  }

  lemma JoinContents(h: seq<int>, lo: int, mid: int, hi: int)
    requires Ascending(h) && lo <= mid <= hi
    ensures multiset(Between(h, lo, hi)) == multiset(Between(h, lo, mid)) + multiset(Between(h, mid, hi))
  {
    BetweenJoin(h, lo, mid, hi);
    assert multiset(Between(h, lo, mid) + Between(h, mid, hi))
        == multiset(Between(h, lo, mid)) + multiset(Between(h, mid, hi));
  }

  lemma CutsAscend(start: int, end: int, n: nat)
    requires end - start > SPLIT_SPAN && 1 <= n <= 4
    ensures start <= Cut(start, end, n - 1) < Cut(start, end, n) <= end
  {
    var quarter := (end - start) / 4;
    assert quarter > 0 && 3 * quarter < end - start;
  }

  /** With r retries at most (4^(r+1) - 1) / 3 chunk fetches happen. */
  lemma {:induction false} FetchesBounded(start: int, end: int, retries: nat, t: Timing)
    ensures 3 * Fetches(start, end, retries, t) <= PowerOfFour(retries + 1) - 1
    decreases retries, 5
  {
    PowerPositive(retries);
    if Splits(start, end, retries, t) {
      PartsBounded(start, end, retries, t, 4);
    }
  }

  lemma {:induction false} PartsBounded(start: int, end: int, retries: nat, t: Timing, n: nat)
    requires retries > 0 && n <= 4
    ensures 3 * FetchesOfParts(start, end, retries, t, n) <= n * (PowerOfFour(retries) - 1)
    decreases retries, n
  {
    if n > 0 {
      PartsBounded(start, end, retries, t, n - 1);
      FetchesBounded(Cut(start, end, n - 1), Cut(start, end, n), retries - 1, Part(t, n - 1));
      PowerPositive(retries);
    }
  }

  lemma {:induction false} PowerPositive(n: nat)
    ensures PowerOfFour(n) >= 1
  {
    if n > 0 {
      PowerPositive(n - 1);
    }
  }

  /** A chunk is fetched in parts exactly if the clock calls its fetch slow, it spans more than a thousand
      ids and retries are left; otherwise its one fetch emits the window, newest first. */
  lemma SplitsIff(h: seq<int>, start: int, end: int, retries: nat, t: Timing)
    ensures Fetches(start, end, retries, t) > 1 <==> t.slow && end - start > 1000 && retries > 0
    ensures !(t.slow && end - start > 1000 && retries > 0) ==>
              Fetches(start, end, retries, t) == 1
              && Emitted(h, start, end, retries, t) == Reverse(Between(h, start, end))
  {
    if Splits(start, end, retries, t) {
      assert FetchesOfParts(start, end, retries, t, 4)
          == FetchesOfParts(start, end, retries, t, 3)
             + Fetches(Cut(start, end, 3), Cut(start, end, 4), retries - 1, Part(t, 3));
      AtLeastOneFetch(Cut(start, end, 3), Cut(start, end, 4), retries - 1, Part(t, 3));
    }
  }

  lemma AtLeastOneFetch(start: int, end: int, retries: nat, t: Timing)
    ensures Fetches(start, end, retries, t) >= 1
  {
  }

  /** What a split emits: its four quarters in order, the last one with the rest, each fetched with one
      retry less and under its own verdict. */
  lemma SplitEmitsQuarters(h: seq<int>, start: int, end: int, retries: nat, t: Timing)
    requires t.slow && end - start > 1000 && retries > 0
    ensures var q := (end - start) / 4;
            Emitted(h, start, end, retries, t)
            == Emitted(h, start, start + q, retries - 1, Part(t, 0))
               + Emitted(h, start + q, start + 2 * q, retries - 1, Part(t, 1))
               + Emitted(h, start + 2 * q, start + 3 * q, retries - 1, Part(t, 2))
               + Emitted(h, start + 3 * q, end, retries - 1, Part(t, 3))
  {
    var q := (end - start) / 4;
    var none := EmittedParts(h, start, end, retries, t, 0);
    var first := Emitted(h, start, start + q, retries - 1, Part(t, 0));
    assert Cut(start, end, 0) == start && Cut(start, end, 4) == end;
    assert none + first == first;
    assert EmittedParts(h, start, end, retries, t, 1) == first;
    assert EmittedParts(h, start, end, retries, t, 2)
        == first + Emitted(h, start + q, start + 2 * q, retries - 1, Part(t, 1));
    assert EmittedParts(h, start, end, retries, t, 3)
        == EmittedParts(h, start, end, retries, t, 2)
           + Emitted(h, start + 2 * q, start + 3 * q, retries - 1, Part(t, 2));
  }

  /** A page is the newest part of what is left of the window, in reverse. */
  lemma PageShape(h: seq<int>, start: int, offset: int)
    requires Page(h, start, offset, PAGE_LIMIT) != []
    ensures var window := Between(h, start, offset - 1);
            var page := Page(h, start, offset, PAGE_LIMIT);
            var j := |window| - |page|;
            && 0 <= j < |window| && |page| <= PAGE_LIMIT && (|page| < PAGE_LIMIT ==> j == 0)
            && page == Reverse(window[j..]) && page[|page| - 1] == window[j]
  {
    var window := Between(h, start, offset - 1);
    var newest := Newest(window, PAGE_LIMIT);
    ReverseLength(newest);
    assert newest == window[|window| - |newest|..];
  }

  /** A window ending before `offset`, and the one ending at `end`, cut at one of the former's messages. */
  lemma WindowsFrom(h: seq<int>, start: int, offset: int, end: int, j: nat)
    requires Ascending(h) && start < offset <= end + 1 && j < |Between(h, start, offset - 1)|
    ensures var window := Between(h, start, offset - 1);
            && start < window[j] < offset
            && Between(h, start, window[j] - 1) == window[..j]
            && Between(h, window[j] - 1, end) == window[j..] + Between(h, offset - 1, end)
  {
    var window := Between(h, start, offset - 1);
    BetweenMembers(h, start, offset - 1);
    assert window[j] in window;
    BetweenSplit(h, start, offset - 1, j);
    BetweenJoin(h, window[j] - 1, offset - 1, end);
  }

  /** Going one page back from `offset`: the page and what is older than it make up the window. */
  lemma PageBack(h: seq<int>, start: int, offset: int, end: int)
    requires Ascending(h) && start < offset <= end + 1
    requires Page(h, start, offset, PAGE_LIMIT) != []
    ensures var page := Page(h, start, offset, PAGE_LIMIT);
            var next := page[|page| - 1];
            && start < next < offset
            && Reverse(Between(h, offset - 1, end)) + page == Reverse(Between(h, next - 1, end))
            && (|page| < PAGE_LIMIT ==> Between(h, start, next - 1) == [])
            && |page| <= PAGE_LIMIT
  {
    var window, page := Between(h, start, offset - 1), Page(h, start, offset, PAGE_LIMIT);
    PageShape(h, start, offset);
    WindowsFrom(h, start, offset, end, |window| - |page|);
    ReverseConcat(window[|window| - |page|..], Between(h, offset - 1, end));
  }

  lemma NothingOlder(h: seq<int>, start: int, offset: int, end: int)
    requires Ascending(h) && start < offset <= end + 1 && Between(h, start, offset - 1) == []
    ensures Between(h, offset - 1, end) == Between(h, start, end)
  {
    BetweenJoin(h, start, offset - 1, end);
    assert [] + Between(h, offset - 1, end) == Between(h, offset - 1, end);
  }

  /** A window of so many full pages and one shorter. */
  lemma CountPages(buffer: seq<int>, h: seq<int>, start: int, end: int, full: nat, rest: nat)
    requires buffer == Reverse(Between(h, start, end)) && |buffer| == 100 * full + rest && rest < 100
    ensures |Between(h, start, end)| / 100 == full
  {
    ReverseLength(Between(h, start, end));
  }

  /** A worker's queue history and statistics. */
  class Worker {
    var sent: seq<int>
    var messageCount: nat
    var messages: nat
    var chunkFetches: nat
    var requests: nat
    var splits: nat

    constructor ()
      ensures sent == [] && messageCount == 0 && messages == 0 && chunkFetches == 0 && requests == 0 && splits == 0
    {
      sent, messageCount, messages, chunkFetches, requests, splits := [], 0, 0, 0, 0, 0;
    }

    /** `MessageQueue.put`: the queue delivers in the order of these calls. */
    method Put(id: int)
      modifies this`sent, this`messageCount
      ensures sent == old(sent) + [id] && messageCount == old(messageCount) + 1
    {
      sent := sent + [id];
      messageCount := messageCount + 1;
    }

    /** Backward pagination from `end` down to `start`. */
    method CollectBuffer(h: seq<int>, start: int, end: int) returns (buffer: seq<int>)
      requires Ascending(h)
      modifies this`requests
      ensures buffer == Reverse(Between(h, start, end))
      ensures requests == old(requests) + (if end < start then 0 else |Between(h, start, end)| / 100 + 1)
    {
      buffer := [];
      var offset := end + 1;
      BetweenEmpty(h, end, end);
      while offset > start
        invariant offset <= end + 1 && (start <= end ==> start < offset)
        invariant end < start ==> offset == end + 1 && requests == old(requests)
        invariant buffer == Reverse(Between(h, offset - 1, end))
        invariant |buffer| == 100 * (requests - old(requests))
        decreases offset - start
      {
        requests := requests + 1;
        var page := Page(h, start, offset, PAGE_LIMIT);
        if page == [] {
          EmptyPage(h, start, offset, end);
          CountPages(buffer, h, start, end, requests - old(requests) - 1, 0);
          return;
        }
        PageBack(h, start, offset, end);
        buffer := buffer + page;
        offset := page[|page| - 1];
        if |page| < PAGE_LIMIT {
          NothingOlder(h, start, offset, end);
          CountPages(buffer, h, start, end, requests - old(requests) - 1, |page|);
          return;
        }
      }
      BetweenEmpty(h, start, end);
    }

    method StreamBuffer(buffer: seq<int>)
      modifies this
      ensures sent == old(sent) + buffer
      ensures messageCount == old(messageCount) + |buffer| && messages == old(messages) + |buffer|
      ensures chunkFetches == old(chunkFetches) && splits == old(splits)
    {
      var k := 0;
      while k < |buffer|
        invariant 0 <= k <= |buffer|
        invariant sent == old(sent) + buffer[..k]
        invariant messageCount == old(messageCount) + k
        invariant messages == old(messages) && chunkFetches == old(chunkFetches) && splits == old(splits)
      {
        Put(buffer[k]);
        k := k + 1;
      }
      assert buffer[..k] == buffer;
      messages := messages + |buffer|;
    }

    /** One chunk: everything it emits is put on the queue, in order, and counted once in each of the two
        counters, and nothing that was collected and then discarded is. */
    method FetchChunkStreaming(h: seq<int>, start: int, end: int, retries: nat, t: Timing)
      requires Ascending(h)
      modifies this
      ensures sent == old(sent) + Emitted(h, start, end, retries, t)
      ensures messageCount == old(messageCount) + |Emitted(h, start, end, retries, t)|
      ensures messages == old(messages) + |Emitted(h, start, end, retries, t)|
      ensures chunkFetches == old(chunkFetches) + Fetches(start, end, retries, t)
      ensures chunkFetches - old(chunkFetches) == 1 + 4 * (splits - old(splits))
      decreases retries
    {
      chunkFetches := chunkFetches + 1;
      var buffer := CollectBuffer(h, start, end);
      if t.slow && end - start > SPLIT_SPAN && retries > 0 {
        splits := splits + 1;
        var size := (end - start) / 4;
        var i := 0;
        while i < 4
          invariant 0 <= i <= 4
          invariant sent == old(sent) + EmittedParts(h, start, end, retries, t, i)
          invariant messageCount == old(messageCount) + |EmittedParts(h, start, end, retries, t, i)|
          invariant messages == old(messages) + |EmittedParts(h, start, end, retries, t, i)|
          invariant chunkFetches == old(chunkFetches) + 1 + FetchesOfParts(start, end, retries, t, i)
          invariant chunkFetches - old(chunkFetches) == 1 + i + 4 * (splits - old(splits) - 1)
        {
          var partStart := start + i * size;
          var partEnd := if i < 3 then start + (i + 1) * size else end;
          FetchChunkStreaming(h, partStart, partEnd, retries - 1, Part(t, i));
          i := i + 1;
        }
      } else {
        StreamBuffer(buffer);
      }
    }
  }

  lemma EmptyPage(h: seq<int>, start: int, offset: int, end: int)
    requires Ascending(h) && start < offset <= end + 1
    requires Page(h, start, offset, PAGE_LIMIT) == []
    ensures Between(h, offset - 1, end) == Between(h, start, end)
  {
    var window := Between(h, start, offset - 1);
    ReverseLength(Newest(window, PAGE_LIMIT));
    BetweenJoin(h, start, offset - 1, end);
  }
}
