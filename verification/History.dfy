/** A fixed message history, seen as the strictly increasing sequence of its message ids, and the
    windows of it that the Telegram queries return. */
module History {

  ghost predicate Ascending(h: seq<int>) {
    forall i, j :: 0 <= i < j < |h| ==> h[i] < h[j]
  }

  /** The ids in `(lo, hi]`, oldest first. */
  function Between(h: seq<int>, lo: int, hi: int): (ids: seq<int>)
    ensures |ids| <= |h|
  {
    if h == [] then []
    else if lo < h[0] <= hi then [h[0]] + Between(h[1..], lo, hi)
    else Between(h[1..], lo, hi)
  }

  function Reverse(s: seq<int>): (r: seq<int>) {
    if s == [] then [] else Reverse(s[1..]) + [s[0]]
  }

  function Newest(s: seq<int>, limit: nat): seq<int> {
    if |s| <= limit then s else s[|s| - limit..]
  }

  /** What a history request answers: newest first, at most `limit` messages with
      `minId < id < offsetId`. */
  function Page(h: seq<int>, minId: int, offsetId: int, limit: nat): seq<int> {
    Reverse(Newest(Between(h, minId, offsetId - 1), limit))
  }

  function Occurs(s: seq<int>, id: int): nat { multiset(s)[id] }

  lemma {:induction false} BetweenMembers(h: seq<int>, lo: int, hi: int)
    ensures forall id :: id in Between(h, lo, hi) <==> id in h && lo < id <= hi
  {
    if h != [] {
      BetweenMembers(h[1..], lo, hi);
    }
  }

  lemma {:induction false} BetweenAscending(h: seq<int>, lo: int, hi: int)
    requires Ascending(h)
    ensures Ascending(Between(h, lo, hi))
  {
    if h != [] {
      BetweenAscending(h[1..], lo, hi);
      BetweenMembers(h[1..], lo, hi);
      var rest := Between(h[1..], lo, hi);
      forall j | 0 <= j < |rest|
        ensures h[0] < rest[j]
      {
        assert rest[j] in rest;
      }
    }
  }

  lemma {:induction false} BetweenEmpty(h: seq<int>, lo: int, hi: int)
    requires forall i :: 0 <= i < |h| ==> !(lo < h[i] <= hi)
    ensures Between(h, lo, hi) == []
  {
    if h != [] {
      BetweenEmpty(h[1..], lo, hi);
    }
  }

  lemma {:induction false} BetweenAll(h: seq<int>, lo: int, hi: int)
    requires forall i :: 0 <= i < |h| ==> lo < h[i] <= hi
    ensures Between(h, lo, hi) == h
  {
    if h != [] {
      BetweenAll(h[1..], lo, hi);
    }
  }

  /** Adjacent windows join. */
  lemma {:induction false} BetweenJoin(h: seq<int>, lo: int, mid: int, hi: int)
    requires Ascending(h) && lo <= mid <= hi
    ensures Between(h, lo, mid) + Between(h, mid, hi) == Between(h, lo, hi)
  {
    if h != [] {
      BetweenJoin(h[1..], lo, mid, hi);
      if mid < h[0] <= hi {
        BetweenEmpty(h, lo, mid);
      }
    }
  }

  /** A window splits at any of its own members. */
  lemma {:induction false} BetweenSplit(h: seq<int>, lo: int, hi: int, j: nat)
    requires Ascending(h) && j < |Between(h, lo, hi)|
    ensures Between(h, lo, Between(h, lo, hi)[j] - 1) == Between(h, lo, hi)[..j]
    ensures Between(h, Between(h, lo, hi)[j] - 1, hi) == Between(h, lo, hi)[j..]
  {
    var window, rest := Between(h, lo, hi), Between(h[1..], lo, hi);
    if lo < h[0] <= hi {
      assert window == [h[0]] + rest;
      if j == 0 {
        BetweenEmpty(h, lo, h[0] - 1);
        BetweenWiden(h, h[0] - 1, lo, hi);
      } else {
        RestAbove(h, lo, hi, j - 1);
        BetweenSplit(h[1..], lo, hi, j - 1);
        assert window[..j] == [h[0]] + rest[..j - 1] && window[j..] == rest[j - 1..];
      }
    } else {
      RestAbove(h, lo, hi, j);
      BetweenSplit(h[1..], lo, hi, j);
    }
  }

  lemma RestAbove(h: seq<int>, lo: int, hi: int, j: nat)
    requires Ascending(h) && h != [] && j < |Between(h[1..], lo, hi)|
    ensures h[0] < Between(h[1..], lo, hi)[j] && lo < Between(h[1..], lo, hi)[j] <= hi
  {
    var x := Between(h[1..], lo, hi)[j];
    BetweenMembers(h[1..], lo, hi);
    assert x in Between(h[1..], lo, hi);
    assert x in h[1..];
  }

  lemma {:induction false} BetweenWiden(h: seq<int>, lo: int, wider: int, hi: int)
    requires wider <= lo
    requires forall i :: 0 <= i < |h| ==> lo < h[i]
    ensures Between(h, lo, hi) == Between(h, wider, hi)
    decreases |h|
  {
    if h != [] {
      assert forall i :: 0 <= i < |h[1..]| ==> h[1..][i] == h[i + 1];
      BetweenWiden(h[1..], lo, wider, hi);
    }
  }

  lemma {:induction false} ReverseLength(s: seq<int>)
    ensures |Reverse(s)| == |s|
    ensures s != [] ==> Reverse(s)[|s| - 1] == s[0]
    ensures multiset(Reverse(s)) == multiset(s)
  {
    if s != [] {
      ReverseLength(s[1..]);
      assert s == [s[0]] + s[1..];
    }
  }

  lemma {:induction false} ReverseConcat(a: seq<int>, b: seq<int>)
    ensures Reverse(a + b) == Reverse(b) + Reverse(a)
  {
    if a == [] {
      assert a + b == b;
    } else {
      assert (a + b)[1..] == a[1..] + b;
      ReverseConcat(a[1..], b);
    }
  }

  // ----- Sorting by id

  function Insert(id: int, s: seq<int>): seq<int> {
    if s == [] || id <= s[0] then [id] + s else [s[0]] + Insert(id, s[1..])
  }

  /** The final sort by message id; ids are distinct, so any stable sort gives this result. */
  function SortById(s: seq<int>): seq<int> {
    if s == [] then [] else Insert(s[0], SortById(s[1..]))
  }

  ghost predicate Sorted(s: seq<int>) {
    forall i, j :: 0 <= i < j < |s| ==> s[i] <= s[j]
  }

  lemma {:induction false} InsertMembers(id: int, s: seq<int>)
    ensures multiset(Insert(id, s)) == multiset(s) + multiset{id}
  {
    if s != [] && s[0] < id {
      InsertMembers(id, s[1..]);
      assert s == [s[0]] + s[1..];
    }
  }

  lemma {:induction false} InsertSorted(id: int, s: seq<int>)
    requires Sorted(s)
    ensures Sorted(Insert(id, s))
  {
    if s != [] && s[0] < id {
      var rest := Insert(id, s[1..]);
      InsertSorted(id, s[1..]);
      InsertMembers(id, s[1..]);
      forall j | 0 <= j < |rest|
        ensures s[0] <= rest[j]
      {
        assert rest[j] in multiset(rest);
        assert rest[j] == id || rest[j] in s[1..];
      }
    }
  }

  lemma {:induction false} SortByIdSorts(s: seq<int>)
    ensures Sorted(SortById(s)) && multiset(SortById(s)) == multiset(s)
  {
    if s != [] {
      SortByIdSorts(s[1..]);
      InsertSorted(s[0], SortById(s[1..]));
      InsertMembers(s[0], SortById(s[1..]));
      assert s == [s[0]] + s[1..];
    }
  }

  /** Sorting part of an ascending list gives a strictly ascending list of its members. */
  lemma SortedPart(s: seq<int>, whole: seq<int>)
    requires Sorted(s) && Ascending(whole)
    requires multiset(s) <= multiset(whole)
    ensures Ascending(s) && forall id :: id in s ==> id in whole
  {
    forall id
      ensures multiset(s)[id] <= 1 && (id in s ==> id in whole)
    {
      AscendingOnce(whole, id);
      assert multiset(s)[id] <= multiset(whole)[id];
      if id in s {
        assert id in multiset(s);
        assert id in multiset(whole);
      }
    }
    forall i, j | 0 <= i < j < |s|
      ensures s[i] < s[j]
    {
      if s[i] == s[j] {
        TwicePresent(s, i, j);
      }
    }
  }

  lemma {:induction false} AscendingOnce(s: seq<int>, id: int)
    requires Ascending(s)
    ensures multiset(s)[id] <= 1
  {
    if s != [] {
      assert s == [s[0]] + s[1..];
      AscendingOnce(s[1..], id);
      if id == s[0] {
        assert id !in s[1..];
      }
    }
  }

  lemma TwicePresent(s: seq<int>, i: nat, j: nat)
    requires i < j < |s| && s[i] == s[j]
    ensures multiset(s)[s[i]] >= 2
  {
    assert s == s[..j] + [s[j]] + s[j + 1..];
    assert s[i] in s[..j];
  }

  lemma TailMembers(s: seq<int>)
    requires s != []
    ensures multiset(s[1..]) == multiset(s) - multiset{s[0]}
    ensures s[0] in multiset(s)
    ensures forall id :: id in multiset(s) ==> id in s
  {
    assert s == [s[0]] + s[1..];
  }

  lemma SortedHead(s: seq<int>, id: int)
    requires Sorted(s) && id in s
    ensures s[0] <= id
  {
  }

  lemma SameHead(s: seq<int>, whole: seq<int>)
    requires Sorted(s) && Sorted(whole) && s != [] && whole != []
    requires multiset(s) == multiset(whole)
    ensures s[0] == whole[0]
    ensures multiset(s[1..]) == multiset(whole[1..])
  {
    TailMembers(s);
    TailMembers(whole);
    SortedHead(s, whole[0]);
    SortedHead(whole, s[0]);
  }

  /** A sorted rearrangement of an ascending list is that list. */
  lemma {:induction false} SortedUnique(s: seq<int>, whole: seq<int>)
    requires Sorted(s) && Ascending(whole)
    requires multiset(s) == multiset(whole)
    ensures s == whole
  {
    assert |multiset(s)| == |s| && |multiset(whole)| == |whole|;
    if s != [] {
      SameHead(s, whole);
      SortedUnique(s[1..], whole[1..]);
    }
  }
}
