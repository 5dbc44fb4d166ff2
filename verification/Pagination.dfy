/** Forward pagination of `TelegramManager.fetch_messages` (src/telegram_client.py). */
module Pagination {

  datatype Message = Message(id: int, service: bool)

  datatype Option<T> = None | Some(value: T)

  const MAX_RETRIES: nat := 3

  ghost predicate Ascending(h: seq<Message>) {
    forall i, j :: 0 <= i < j < |h| ==> h[i].id < h[j].id
  }

  /** The history from the first message with an id above `id` on. */
  function After(h: seq<Message>, id: int): (rest: seq<Message>)
    ensures |rest| <= |h|
  {
    if h == [] || h[0].id > id then h else After(h[1..], id)
  }

  function Max(a: int, b: int): int { if a < b then b else a }
  function Min(a: int, b: int): int { if a < b then a else b }

  /** The oracle for `get_messages(reverse=True)`: oldest first, above both the offset and `min_id`. */
  function GetMessages(h: seq<Message>, limit: nat, offsetId: int, minId: int): seq<Message> {
    var rest := After(h, Max(offsetId, minId));
    rest[..Min(limit, |rest|)]
  }

  function Ordinary(h: seq<Message>): seq<Message> {
    if h == [] then [] else (if h[0].service then [] else [h[0]]) + Ordinary(h[1..])
  }

  function Take(s: seq<Message>, limit: Option<int>): seq<Message> {
    if limit.Some? then s[..Max(0, Min(limit.value, |s|))] else s
  }

  /** What a caller asked for: the first `limit` ordinary messages above `minId` (ids are positive, and an
      absent `minId` is zero), or all of them. */
  function Wanted(h: seq<Message>, limit: Option<int>, minId: int): seq<Message> {
    Take(Ordinary(After(h, Max(0, minId))), limit)
  }

  /** The ordinary messages are those without an action, in their order. */
  lemma {:induction false} OrdinaryIff(h: seq<Message>)
    requires Ascending(h)
    ensures forall x :: x in Ordinary(h) <==> x in h && !x.service
    ensures Ascending(Ordinary(h))
  {
    if h != [] {
      var rest := Ordinary(h[1..]);
      OrdinaryIff(h[1..]);
      forall j | 0 <= j < |rest|
        ensures h[0].id < rest[j].id
      {
        assert rest[j] in h[1..];
      }
    }
  }

  lemma {:induction false} AfterIff(h: seq<Message>, id: int)
    requires Ascending(h)
    ensures forall x :: x in After(h, id) <==> x in h && x.id > id
    ensures Ascending(After(h, id))
  {
    if h != [] && h[0].id <= id {
      AfterIff(h[1..], id);
    } else {
      assert forall i :: 0 < i < |h| ==> h[0].id < h[i].id;
    }
  }

  /** What a caller without a limit wants are exactly the messages above `minId` without an action. */
  lemma WantedIff(h: seq<Message>, minId: int)
    requires Ascending(h)
    ensures forall x :: x in Wanted(h, None, minId) <==> x in h && !x.service && x.id > 0 && x.id > minId
    ensures Ascending(Wanted(h, None, minId))
    ensures forall n: nat :: Wanted(h, Some(n), minId) <= Wanted(h, None, minId)
                             && |Wanted(h, Some(n), minId)| == Min(n, |Wanted(h, None, minId)|)
  {
    AfterIff(h, Max(0, minId));
    OrdinaryIff(After(h, Max(0, minId)));
  }

  lemma {:induction false} OrdinaryConcat(a: seq<Message>, b: seq<Message>)
    ensures Ordinary(a + b) == Ordinary(a) + Ordinary(b)
  {
    if a == [] {
      assert a + b == b;
    } else {
      assert (a + b)[1..] == a[1..] + b;
      OrdinaryConcat(a[1..], b);
    }
  }

  /** Moving the offset to the k-th remaining message leaves what follows it. */
  lemma {:induction false} AfterMember(h: seq<Message>, id: int, k: nat)
    requires Ascending(h) && k < |After(h, id)|
    ensures After(h, id)[k].id > id
    ensures After(h, After(h, id)[k].id) == After(h, id)[k + 1..]
  {
    if h[0].id > id {
      SkipTo(h, k);
    } else {
      AfterMember(h[1..], id, k);
    }
  }

  lemma {:induction false} SkipTo(h: seq<Message>, k: nat)
    requires Ascending(h) && k < |h|
    ensures After(h, h[k].id) == h[k + 1..]
    ensures h[k].id >= h[0].id
  {
    if k > 0 {
      SkipTo(h[1..], k - 1);
    } else if |h| > 1 {
      assert h[1..][0].id > h[0].id;
    }
  }

  function Left(limit: Option<int>, taken: nat): Option<int> {
    if limit.Some? then Some(limit.value - taken) else None
  }

  /** What the caller has been given, and will be given if nothing fails any more. */
  function Promise(h: seq<Message>, limit: Option<int>, minId: int, offset: int, yielded: seq<Message>): seq<Message> {
    yielded + Take(Ordinary(After(h, Max(offset, minId))), Left(limit, |yielded|))
  }

  /** Where the loop stands between two requests; `more` is false once a request brought nothing. */
  datatype Progress = Progress(offset: int, yielded: seq<Message>, more: bool)

  /** Another request is due: the last one brought something, and the limit is not reached. */
  predicate Due(limit: Option<int>, p: Progress) {
    p.more && (limit.Some? ==> |p.yielded| < limit.value)
  }

  function Current(limit: Option<int>, batchSize: nat, p: Progress): nat
    requires Due(limit, p)
  {
    if limit.Some? then Min(batchSize, limit.value - |p.yielded|) else batchSize
  }

  function Onward(h: seq<Message>, limit: Option<int>, minId: int, batchSize: nat, p: Progress): Progress
    requires Due(limit, p)
  {
    var messages := GetMessages(h, Current(limit, batchSize, p), p.offset, minId);
    if messages == [] then p.(more := false)
    else
      Progress(messages[|messages| - 1].id, p.yielded + Take(Ordinary(messages), Left(limit, |p.yielded|)), true)
  }

  /** The progress after `k` successful requests, or as many as are due. */
  function Pages(h: seq<Message>, limit: Option<int>, minId: int, batchSize: nat, k: nat): Progress {
    if k == 0 then Progress(0, [], true)
    else
      var p := Pages(h, limit, minId, batchSize, k - 1);
      if Due(limit, p) then Onward(h, limit, minId, batchSize, p) else p
  }

  /** Each of the first `n` requests failed less than three times. */
  predicate Succeed(failures: nat -> nat, n: nat) {
    n == 0 || (failures(n - 1) < 3 && Succeed(failures, n - 1))
  }

  /** How many of the messages above `minId` the first `k` requests bring: each asks for a batch, but for
      no more than is still wanted, and gets what there is. */
  function Fetched(rest: seq<Message>, limit: Option<int>, batchSize: nat, k: nat): (n: nat)
    ensures n <= |rest|
  {
    if k == 0 then 0
    else
      var before := Fetched(rest, limit, batchSize, k - 1);
      var wanted := if limit.Some? then Max(0, limit.value - |Ordinary(rest[..before])|) else batchSize;
      Min(before + Min(batchSize, wanted), |rest|)
  }

  lemma OnwardPromise(h: seq<Message>, limit: Option<int>, minId: int, batchSize: nat, p: Progress)
    requires Ascending(h) && batchSize >= 1 && Due(limit, p)
    requires GetMessages(h, Current(limit, batchSize, p), p.offset, minId) != []
    ensures var n := Onward(h, limit, minId, batchSize, p);
            && n.offset > p.offset
            && Promise(h, limit, minId, n.offset, n.yielded) == Promise(h, limit, minId, p.offset, p.yielded)
  {
    OffsetRises(h, minId, Current(limit, batchSize, p), p.offset);
    PromiseKept(h, limit, minId, Current(limit, batchSize, p), p.offset, p.yielded);
  }

  lemma {:induction false} PagesPromise(h: seq<Message>, limit: Option<int>, minId: int, batchSize: nat, k: nat)
    requires Ascending(h) && batchSize >= 1
    ensures var p := Pages(h, limit, minId, batchSize, k);
            && p.offset >= 0 && Promise(h, limit, minId, p.offset, p.yielded) == Wanted(h, limit, minId)
            && (!p.more ==> After(h, Max(p.offset, minId)) == [])
  {
    if k == 0 {
      PromiseAtStart(h, limit, minId);
    } else {
      var p := Pages(h, limit, minId, batchSize, k - 1);
      PagesPromise(h, limit, minId, batchSize, k - 1);
      if Due(limit, p) {
        if GetMessages(h, Current(limit, batchSize, p), p.offset, minId) != [] {
          OnwardPromise(h, limit, minId, batchSize, p);
        }
      }
    }
  }

  /** At every request the caller has been given a prefix of what it wanted, and all of it once no request
      is due any more. */
  lemma PagesGiveWanted(h: seq<Message>, limit: Option<int>, minId: int, batchSize: nat, k: nat)
    requires Ascending(h) && batchSize >= 1
    ensures var p := Pages(h, limit, minId, batchSize, k);
            p.yielded <= Wanted(h, limit, minId) && (!Due(limit, p) ==> p.yielded == Wanted(h, limit, minId))
  {
    var p := Pages(h, limit, minId, batchSize, k);
    PagesPromise(h, limit, minId, batchSize, k);
    var left := Take(Ordinary(After(h, Max(p.offset, minId))), Left(limit, |p.yielded|));
    assert Wanted(h, limit, minId) == p.yielded + left;
    assert !Due(limit, p) ==> left == [];
  }

  /** `failures(k)` is how often the k-th batch request fails before it succeeds.  Every request made failed
      less than three times.  The third failure of a request is raised exactly when that request is due,
      and then the caller has been given what the requests before it brought; otherwise it has been given
      all it wanted. */
  method FetchMessages(h: seq<Message>, limit: Option<int>, minId: int, batchSize: nat, failures: nat -> nat)
      returns (yielded: seq<Message>, raised: bool, requests: nat)
    requires Ascending(h) && batchSize >= 1
    ensures Succeed(failures, requests)
    ensures yielded == Pages(h, limit, minId, batchSize, requests).yielded
    ensures raised <==> Due(limit, Pages(h, limit, minId, batchSize, requests)) && failures(requests) >= 3
    ensures raised || !Due(limit, Pages(h, limit, minId, batchSize, requests))
    ensures yielded <= Wanted(h, limit, minId)
    ensures !raised ==> yielded == Wanted(h, limit, minId)
  {
    yielded, raised, requests := [], false, 0;
    var offset, more := 0, true;
    while more
      invariant !raised && Succeed(failures, requests)
      invariant Pages(h, limit, minId, batchSize, requests) == Progress(offset, yielded, more)
      decreases more, |After(h, Max(offset, minId))|
    {
      if limit.Some? && |yielded| >= limit.value {
        break;
      }
      raised := Request(failures(requests));
      if raised {
        break;
      }
      OnwardShrinks(h, limit, minId, batchSize, Progress(offset, yielded, more));
      offset, yielded, more := FetchBatch(h, limit, minId, batchSize, offset, yielded);
      requests := requests + 1;
    }
    PagesGiveWanted(h, limit, minId, batchSize, requests);
  }

  /** One batch, once its request has succeeded; there is no more if it is empty. */
  method FetchBatch(
      h: seq<Message>, limit: Option<int>, minId: int, batchSize: nat, offset: int, before: seq<Message>)
      returns (next: int, yielded: seq<Message>, more: bool)
    requires limit.Some? ==> |before| < limit.value
    ensures Progress(next, yielded, more) == Onward(h, limit, minId, batchSize, Progress(offset, before, true))
  {
    var current := if limit.Some? then Min(batchSize, limit.value - |before|) else batchSize;
    var messages := GetMessages(h, current, offset, minId);
    if messages == [] {
      return offset, before, false;
    }
    yielded := YieldBatch(messages, limit, before);
    return messages[|messages| - 1].id, yielded, true;
  }

  lemma OnwardShrinks(h: seq<Message>, limit: Option<int>, minId: int, batchSize: nat, p: Progress)
    requires Ascending(h) && batchSize >= 1 && Due(limit, p)
    ensures var n := Onward(h, limit, minId, batchSize, p);
            n.more ==> |After(h, Max(n.offset, minId))| < |After(h, Max(p.offset, minId))|
  {
    var current := Current(limit, batchSize, p);
    if GetMessages(h, current, p.offset, minId) != [] {
      OffsetRises(h, minId, current, p.offset);
    }
  }

  /** The retry loop of one request that fails so often before it succeeds. */
  method Request(failing: nat) returns (raised: bool)
    ensures raised <==> failing >= 3
  {
    var retries := 0;
    while retries < MAX_RETRIES
      invariant 0 <= retries <= failing && retries <= 3
    {
      if retries == failing {
        return false;
      }
      retries := retries + 1;
      if retries >= MAX_RETRIES {
        return true;
      }
    }
    return true;
  }

  /** One more request fetches the batch asked for, if it is due, and nothing otherwise. */
  lemma FetchedNext(rest: seq<Message>, limit: Option<int>, batchSize: nat, k: nat, p: Progress)
    requires var n := Fetched(rest, limit, batchSize, k);
             p.yielded == Ordinary(rest[..n]) && (!p.more ==> n == |rest|)
    ensures var n := Fetched(rest, limit, batchSize, k);
            Fetched(rest, limit, batchSize, k + 1)
            == if Due(limit, p) then Min(n + Current(limit, batchSize, p), |rest|) else n
  {
  }

  lemma StandsOn(
      h: seq<Message>, limit: Option<int>, minId: int, batchSize: nat, rest: seq<Message>, k: nat, p: Progress)
    requires Ascending(h) && batchSize >= 1 && Stands(h, minId, rest, Fetched(rest, limit, batchSize, k), p)
    ensures Stands(h, minId, rest, Fetched(rest, limit, batchSize, k + 1),
                   if Due(limit, p) then Onward(h, limit, minId, batchSize, p) else p)
  {
    FetchedNext(rest, limit, batchSize, k, p);
    if Due(limit, p) {
      OnwardStands(h, limit, minId, batchSize, rest, Fetched(rest, limit, batchSize, k), p);
    }
  }

  lemma StandsAtStart(h: seq<Message>, minId: int)
    ensures Stands(h, minId, After(h, Max(0, minId)), 0, Progress(0, [], true))
  {
    var rest := After(h, Max(0, minId));
    assert rest[..0] == [] && rest[0..] == rest;
  }

  /** What `k` requests bring, in terms of the history alone: the caller has been given exactly the ordinary
      ones among the first messages fetched, and the offset leaves the messages after these. */
  lemma {:induction false} PagesBring(
      h: seq<Message>, limit: Option<int>, minId: int, batchSize: nat, rest: seq<Message>, k: nat)
    requires Ascending(h) && batchSize >= 1 && rest == After(h, Max(0, minId))
    ensures Stands(h, minId, rest, Fetched(rest, limit, batchSize, k), Pages(h, limit, minId, batchSize, k))
  {
    if k == 0 {
      StandsAtStart(h, minId);
    } else {
      PagesBring(h, limit, minId, batchSize, rest, k - 1);
      StandsOn(h, limit, minId, batchSize, rest, k - 1, Pages(h, limit, minId, batchSize, k - 1));
    }
  }

  /** What has been yielded and what is left, after `n` messages of `rest`. */
  ghost predicate Stands(h: seq<Message>, minId: int, rest: seq<Message>, n: nat, p: Progress) {
    && n <= |rest|
    && p.yielded == Ordinary(rest[..n])
    && After(h, Max(p.offset, minId)) == rest[n..]
    && (!p.more ==> n == |rest|)
  }

  lemma OnwardStands(
      h: seq<Message>, limit: Option<int>, minId: int, batchSize: nat, rest: seq<Message>, n: nat, p: Progress)
    requires Ascending(h) && batchSize >= 1 && Due(limit, p) && Stands(h, minId, rest, n, p)
    ensures Stands(h, minId, rest, Min(n + Current(limit, batchSize, p), |rest|), Onward(h, limit, minId, batchSize, p))
  {
    var current := Current(limit, batchSize, p);
    var messages := GetMessages(h, current, p.offset, minId);
    assert |messages| == Min(current, |rest| - n);
    if messages != [] {
      OffsetRises(h, minId, current, p.offset);
      WholeBatch(messages, limit, |p.yielded|);
      OrdinaryExtends(rest, n, |messages|);
      assert rest[n..][|messages|..] == rest[n + |messages|..];
    }
  }

  lemma OrdinaryExtends(rest: seq<Message>, n: nat, m: nat)
    requires n + m <= |rest|
    ensures Ordinary(rest[..n + m]) == Ordinary(rest[..n]) + Ordinary(rest[n..][..m])
  {
    OrdinaryConcat(rest[..n], rest[n..][..m]);
    assert rest[..n + m] == rest[..n] + rest[n..][..m];
  }

  /** No request asks for more than is wanted, so a batch is yielded whole. */
  lemma WholeBatch(messages: seq<Message>, limit: Option<int>, taken: nat)
    requires limit.Some? ==> |messages| <= limit.value - taken
    ensures Take(Ordinary(messages), Left(limit, taken)) == Ordinary(messages)
  {
    OrdinaryShorter(messages);
  }

  lemma {:induction false} OrdinaryShorter(h: seq<Message>)
    ensures |Ordinary(h)| <= |h|
  {
    if h != [] {
      OrdinaryShorter(h[1..]);
    }
  }

  lemma PromiseAtStart(h: seq<Message>, limit: Option<int>, minId: int)
    ensures Promise(h, limit, minId, 0, []) == Wanted(h, limit, minId)
  {
    assert Left(limit, 0) == limit;
  }

  lemma PromiseKept(h: seq<Message>, limit: Option<int>, minId: int, current: nat, offset: int, before: seq<Message>)
    requires Ascending(h)
    requires limit.Some? ==> |before| < limit.value
    requires GetMessages(h, current, offset, minId) != []
    ensures var messages := GetMessages(h, current, offset, minId);
            Promise(h, limit, minId, messages[|messages| - 1].id,
                    before + Take(Ordinary(messages), Left(limit, |before|)))
            == Promise(h, limit, minId, offset, before)
  {
    var messages := GetMessages(h, current, offset, minId);
    OffsetStep(h, minId, current, offset);
    BatchStep(messages, After(h, Max(messages[|messages| - 1].id, minId)), limit, before);
  }

  /** The last id of a batch, used as the next offset, rises and leaves exactly what follows the batch. */
  lemma OffsetStep(h: seq<Message>, minId: int, current: nat, offset: int)
    requires Ascending(h)
    requires GetMessages(h, current, offset, minId) != []
    ensures var messages := GetMessages(h, current, offset, minId);
            var next := messages[|messages| - 1].id;
            next > offset && After(h, Max(offset, minId)) == messages + After(h, Max(next, minId))
  {
    var messages := GetMessages(h, current, offset, minId);
    AfterMember(h, Max(offset, minId), |messages| - 1);
  }

  /** So the offset rises, and as many messages are left fewer as the batch has. */
  lemma OffsetRises(h: seq<Message>, minId: int, current: nat, offset: int)
    requires Ascending(h)
    requires GetMessages(h, current, offset, minId) != []
    ensures var messages := GetMessages(h, current, offset, minId);
            var next := messages[|messages| - 1].id;
            && next > offset
            && After(h, Max(next, minId)) == After(h, Max(offset, minId))[|messages|..]
  {
    var messages := GetMessages(h, current, offset, minId);
    OffsetStep(h, minId, current, offset);
    var later := After(h, Max(messages[|messages| - 1].id, minId));
    assert (messages + later)[|messages|..] == later;
  }

  /** One batch moves its ordinary messages from what is left to what has been yielded. */
  lemma BatchStep(messages: seq<Message>, later: seq<Message>, limit: Option<int>, before: seq<Message>)
    requires limit.Some? ==> |before| < limit.value
    ensures var after := before + Take(Ordinary(messages), Left(limit, |before|));
            before + Take(Ordinary(messages + later), Left(limit, |before|))
            == after + Take(Ordinary(later), Left(limit, |after|))
  {
    OrdinaryConcat(messages, later);
    TakeStep(Ordinary(messages), Ordinary(later), limit, before);
  }

  lemma TakeStep(a: seq<Message>, b: seq<Message>, limit: Option<int>, before: seq<Message>)
    requires limit.Some? ==> |before| < limit.value
    ensures var after := before + Take(a, Left(limit, |before|));
            before + Take(a + b, Left(limit, |before|)) == after + Take(b, Left(limit, |after|))
  {
    var taken := Take(a, Left(limit, |before|));
    TakeConcat(a, b, Left(limit, |before|));
    assert Left(Left(limit, |before|), |taken|) == Left(limit, |before + taken|);
    var rest := Take(b, Left(limit, |before + taken|));
    assert before + (taken + rest) == (before + taken) + rest;
  }

  /** Taking from a concatenation. */
  lemma TakeConcat(a: seq<Message>, b: seq<Message>, limit: Option<int>)
    requires limit.Some? ==> limit.value >= 0
    ensures Take(a + b, limit) == Take(a, limit) + Take(b, Left(limit, |Take(a, limit)|))
  {
  }

  /** The inner loop: service messages are passed over, and it stops as soon as the limit is reached. */
  method YieldBatch(messages: seq<Message>, limit: Option<int>, before: seq<Message>) returns (yielded: seq<Message>)
    requires limit.Some? ==> |before| < limit.value
    ensures yielded == before + Take(Ordinary(messages), Left(limit, |before|))
  {
    yielded := before;
    var i := 0;
    while i < |messages|
      invariant 0 <= i <= |messages|
      invariant yielded == before + Ordinary(messages[..i])
      invariant limit.Some? ==> |yielded| < limit.value
    {
      var message := messages[i];
      assert messages[..i + 1] == messages[..i] + [message];
      OrdinaryConcat(messages[..i], [message]);
      assert Ordinary([message]) == if message.service then [] else [message];
      i := i + 1;
      if !message.service {
        yielded := yielded + [message];
        if limit.Some? && |yielded| >= limit.value {
          assert messages == messages[..i] + messages[i..];
          OrdinaryConcat(messages[..i], messages[i..]);
          return;
        }
      }
    }
    assert messages[..i] == messages;
  }
}
