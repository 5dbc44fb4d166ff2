/** The cache manager of src/core/cache.py: two eviction implementations that realise one policy, and
    values that come back as they were set. */
module Cache {
  import opened CacheCodec

  type Key = string

  datatype Strategy = Simple | Lru | Ttl

  datatype Entry = Entry(stored: Stored, createdAt: int, lastAccessed: int, accessCount: nat, ttl: Option<int>)

  /** One item of the dictionary, which keeps insertion order. */
  datatype Slot = Slot(key: Key, entry: Entry)

  datatype Config = Config(
    codec: Codec,
    compression: Compression,
    threshold: int,
    maxSize: nat,
    defaultTtl: Option<int>)

  function IsExpired(e: Entry, now: int): bool {
    e.ttl.Some? && now - e.createdAt > e.ttl.value
  }

  // ----- The ordered dictionary

  function Find(slots: seq<Slot>, key: Key): Option<Entry> {
    if slots == [] then None else if slots[0].key == key then Some(slots[0].entry) else Find(slots[1..], key)
  }

  function Remove(slots: seq<Slot>, key: Key): (r: seq<Slot>)
    ensures |r| <= |slots|
  {
    if slots == [] then [] else if slots[0].key == key then slots[1..] else [slots[0]] + Remove(slots[1..], key)
  }

  /** Assigning to a key keeps its place; a new key goes to the end. */
  function Assign(slots: seq<Slot>, key: Key, entry: Entry): seq<Slot> {
    if slots == [] then [Slot(key, entry)]
    else if slots[0].key == key then [Slot(key, entry)] + slots[1..]
    else [slots[0]] + Assign(slots[1..], key, entry)
  }

  function MoveToEnd(slots: seq<Slot>, key: Key): seq<Slot> {
    match Find(slots, key)
    case None => slots
    case Some(e) => Remove(slots, key) + [Slot(key, e)]
  }

  // ----- The two evictions

  function InsertByAccess(x: Slot, slots: seq<Slot>): seq<Slot> {
    if slots == [] || x.entry.lastAccessed <= slots[0].entry.lastAccessed then [x] + slots
    else [slots[0]] + InsertByAccess(x, slots[1..])
  }

  /** The stable sort by time of last access. */
  function ByAccess(slots: seq<Slot>): (sorted: seq<Slot>)
    ensures |sorted| == |slots|
  {
    if slots == [] then [] else
      InsertByAccessLength(slots[0], ByAccess(slots[1..]));
      InsertByAccess(slots[0], ByAccess(slots[1..]))
  }

  lemma {:induction false} InsertByAccessLength(x: Slot, slots: seq<Slot>)
    ensures |InsertByAccess(x, slots)| == |slots| + 1
  {
    if slots != [] {
      InsertByAccessLength(x, slots[1..]);
    }
  }

  function RemoveAll(slots: seq<Slot>, victims: seq<Slot>): seq<Slot>
    decreases |victims|
  {
    if victims == [] then slots else RemoveAll(Remove(slots, victims[0].key), victims[1..])
  }

  function Min(a: int, b: int): int { if a < b then a else b }

  /** Going over the limit evicts one more than the excess. */
  function EvictCount(size: nat, maxSize: nat): nat {
    if size <= maxSize then 0 else Min(size - maxSize + 1, size)
  }

  function Evict(strategy: Strategy, slots: seq<Slot>, maxSize: nat): seq<Slot> {
    var n := EvictCount(|slots|, maxSize);
    if strategy.Lru? then slots[n..] else RemoveAll(slots, ByAccess(slots)[..n])
  }

  // ----- The operations

  datatype Operation =
    | Get(key: Key, now: int)
    | Set(key: Key, value: Data, ttl: Option<int>, now: int)
    | Delete(key: Key, now: int)
    | CleanUp(now: int)

  function Unexpired(slots: seq<Slot>, now: int): seq<Slot> {
    if slots == [] then []
    else (if IsExpired(slots[0].entry, now) then [] else [slots[0]]) + Unexpired(slots[1..], now)
  }

  function Touched(e: Entry, now: int): Entry {
    e.(lastAccessed := now, accessCount := e.accessCount + 1)
  }

  /** A time to live of zero counts as none given. */
  function EntryTtl(c: Config, ttl: Option<int>): Option<int> {
    if ttl.Some? && ttl.value != 0 then ttl else c.defaultTtl
  }

  function NewEntry(c: Config, value: Data, ttl: Option<int>, now: int): Entry {
    Entry(Compress(c.codec, c.compression, c.threshold, value), now, now, 1, EntryTtl(c, ttl))
  }

  function Place(strategy: Strategy, slots: seq<Slot>, key: Key, entry: Entry): seq<Slot> {
    var placed := Assign(slots, key, entry);
    if strategy.Lru? then MoveToEnd(placed, key) else placed
  }

  function Step(c: Config, strategy: Strategy, slots: seq<Slot>, op: Operation): seq<Slot> {
    match op
    case Get(key, now) =>
      var found := Find(slots, key);
      if found.None? then slots
      else if IsExpired(found.value, now) then Remove(slots, key)
      else Place(strategy, slots, key, Touched(found.value, now))
    case Set(key, value, ttl, now) =>
      Evict(strategy, Place(strategy, slots, key, NewEntry(c, value, ttl, now)), c.maxSize)
    case Delete(key, _) => Remove(slots, key)
    case CleanUp(now) =>
      if strategy.Ttl? || c.defaultTtl.Some? then Unexpired(slots, now) else slots
  }

  /** What `get` answers; None is the caller's default. */
  function Answer(c: Config, slots: seq<Slot>, key: Key, now: int): Option<Data> {
    match Find(slots, key)
    case None => None
    case Some(e) => if IsExpired(e, now) then None else Some(Decompress(c.codec, e.stored))
  }

  function Run(c: Config, strategy: Strategy, slots: seq<Slot>, ops: seq<Operation>): seq<Slot> {
    if ops == [] then slots
    else Step(c, strategy, Run(c, strategy, slots, ops[..|ops| - 1]), ops[|ops| - 1])
  }

  // ----- Dictionaries with distinct keys

  ghost predicate DistinctKeys(slots: seq<Slot>) {
    forall i, j :: 0 <= i < j < |slots| ==> slots[i].key != slots[j].key
  }

  /** Least recently used first: strictly ascending by time of last access. */
  ghost predicate Ordered(slots: seq<Slot>) {
    forall i, j :: 0 <= i < j < |slots| ==> slots[i].entry.lastAccessed < slots[j].entry.lastAccessed
  }

  ghost predicate AccessedBefore(slots: seq<Slot>, now: int) {
    forall i :: 0 <= i < |slots| ==> slots[i].entry.lastAccessed < now
  }

  lemma {:induction false} FindMember(slots: seq<Slot>, key: Key)
    ensures Find(slots, key).Some? ==> Slot(key, Find(slots, key).value) in slots
    ensures Find(slots, key).None? <==> forall i :: 0 <= i < |slots| ==> slots[i].key != key
  {
    if slots != [] && slots[0].key != key {
      var rest := slots[1..];
      FindMember(rest, key);
      assert forall i :: 1 <= i < |slots| ==> slots[i] == rest[i - 1];
      if Find(rest, key).None? {
        assert forall i :: 0 <= i < |rest| ==> rest[i].key != key;
      } else {
        var i :| 0 <= i < |rest| && rest[i].key == key;
        assert slots[i + 1].key == key;
      }
    }
  }

  lemma MemberFound(slots: seq<Slot>, x: Slot)
    requires DistinctKeys(slots) && x in slots
    ensures Find(slots, x.key) == Some(x.entry)
  {
    FindMember(slots, x.key);
    var i :| 0 <= i < |slots| && slots[i] == x;
    var y := Slot(x.key, Find(slots, x.key).value);
    var j :| 0 <= j < |slots| && slots[j] == y;
    assert i == j;
  }

  /** The slots without the one of a key, as a multiset. */
  function Without(slots: seq<Slot>, key: Key): multiset<Slot> {
    match Find(slots, key)
    case None => multiset(slots)
    case Some(e) => multiset(slots) - multiset{Slot(key, e)}
  }

  lemma {:induction false} RemoveContents(slots: seq<Slot>, key: Key)
    ensures multiset(Remove(slots, key)) == Without(slots, key)
  {
    if slots != [] {
      assert slots == [slots[0]] + slots[1..];
      if slots[0].key != key {
        RemoveContents(slots[1..], key);
        FindMember(slots[1..], key);
      }
    }
  }

  /** Removing a key takes its slot away and keeps the order of the others. */
  lemma {:induction false} RemoveShape(slots: seq<Slot>, key: Key)
    requires DistinctKeys(slots)
    ensures forall x :: x in Remove(slots, key) <==> x in slots && x.key != key
    ensures DistinctKeys(Remove(slots, key))
  {
    if slots != [] {
      RemoveShape(slots[1..], key);
      var rest := Remove(slots[1..], key);
      if slots[0].key != key {
        forall j | 0 <= j < |rest|
          ensures rest[j].key != slots[0].key
        {
          assert rest[j] in rest;
        }
      } else {
        assert forall j :: 1 <= j < |slots| ==> slots[j].key != key;
      }
    }
  }

  lemma {:induction false} RemoveOrdered(slots: seq<Slot>, key: Key)
    requires DistinctKeys(slots) && Ordered(slots)
    ensures Ordered(Remove(slots, key))
  {
    if slots != [] && slots[0].key != key {
      RemoveOrdered(slots[1..], key);
      RemoveShape(slots[1..], key);
      var rest := Remove(slots[1..], key);
      forall j | 0 <= j < |rest|
        ensures slots[0].entry.lastAccessed < rest[j].entry.lastAccessed
      {
        assert rest[j] in slots[1..];
      }
    }
  }

  lemma {:induction false} AssignFound(slots: seq<Slot>, key: Key, entry: Entry)
    ensures Find(Assign(slots, key, entry), key) == Some(entry)
    ensures Remove(Assign(slots, key, entry), key) == Remove(slots, key)
  {
    if slots != [] && slots[0].key != key {
      AssignFound(slots[1..], key, entry);
    }
  }

  lemma {:induction false} AssignContents(slots: seq<Slot>, key: Key, entry: Entry)
    ensures multiset(Assign(slots, key, entry)) == Without(slots, key) + multiset{Slot(key, entry)}
  {
    if slots != [] {
      assert slots == [slots[0]] + slots[1..];
      if slots[0].key != key {
        AssignContents(slots[1..], key, entry);
        FindMember(slots[1..], key);
      }
    }
  }

  lemma {:induction false} AssignDistinct(slots: seq<Slot>, key: Key, entry: Entry)
    requires DistinctKeys(slots)
    ensures DistinctKeys(Assign(slots, key, entry))
    ensures forall x :: x in Assign(slots, key, entry) <==> x == Slot(key, entry) || (x in slots && x.key != key)
  {
    if slots != [] {
      var rest := Assign(slots[1..], key, entry);
      if slots[0].key == key {
        assert forall j :: 1 <= j < |slots| ==> slots[j].key != key;
      } else {
        AssignDistinct(slots[1..], key, entry);
        forall j | 0 <= j < |rest|
          ensures rest[j].key != slots[0].key
        {
          assert rest[j] in rest;
        }
      }
    }
  }

  lemma PlaceIsAssign(strategy: Strategy, slots: seq<Slot>, key: Key, entry: Entry)
    ensures Place(strategy, slots, key, entry)
         == if strategy.Lru? then Remove(slots, key) + [Slot(key, entry)] else Assign(slots, key, entry)
  {
    AssignFound(slots, key, entry);
  }

  lemma AtEndDistinct(slots: seq<Slot>, key: Key, entry: Entry)
    requires DistinctKeys(slots)
    ensures DistinctKeys(Remove(slots, key) + [Slot(key, entry)])
    ensures forall x :: x in Remove(slots, key) + [Slot(key, entry)]
                   <==> x == Slot(key, entry) || (x in slots && x.key != key)
  {
    RemoveShape(slots, key);
    var kept := Remove(slots, key);
    forall j | 0 <= j < |kept|
      ensures kept[j].key != key
    {
      assert kept[j] in kept;
    }
  }

  /** Under either strategy a key's slot is replaced; under LRU it also becomes the last. */
  lemma PlaceContents(strategy: Strategy, slots: seq<Slot>, key: Key, entry: Entry)
    requires DistinctKeys(slots)
    ensures var placed := Place(strategy, slots, key, entry);
            && multiset(placed) == Without(slots, key) + multiset{Slot(key, entry)}
            && DistinctKeys(placed)
            && (forall x :: x in placed <==> x == Slot(key, entry) || (x in slots && x.key != key))
            && (strategy.Lru? ==> placed == Remove(slots, key) + [Slot(key, entry)])
  {
    PlaceIsAssign(strategy, slots, key, entry);
    if strategy.Lru? {
      AtEndDistinct(slots, key, entry);
      RemoveContents(slots, key);
    } else {
      AssignContents(slots, key, entry);
      AssignDistinct(slots, key, entry);
    }
  }

  /** Where a key goes: under LRU to the end; otherwise a known key keeps its place and a new one follows. */
  lemma PlaceOrder(strategy: Strategy, slots: seq<Slot>, key: Key, entry: Entry)
    requires DistinctKeys(slots)
    ensures var placed := Place(strategy, slots, key, entry);
            if strategy.Lru? then
              placed == Remove(slots, key) + [Slot(key, entry)]
            else
              && |placed| == |slots| + (if Find(slots, key).None? then 1 else 0)
              && (forall i :: 0 <= i < |slots| ==> placed[i].key == slots[i].key)
  {
    PlaceIsAssign(strategy, slots, key, entry);
    AssignPlaces(slots, key, entry);
  }

  lemma {:induction false} AssignPlaces(slots: seq<Slot>, key: Key, entry: Entry)
    ensures |Assign(slots, key, entry)| == |slots| + (if Find(slots, key).None? then 1 else 0)
    ensures forall i :: 0 <= i < |slots| ==> Assign(slots, key, entry)[i].key == slots[i].key
  {
    if slots != [] && slots[0].key != key {
      AssignPlaces(slots[1..], key, entry);
    }
  }

  /** LRU keeps the dictionary ordered by last access, as long as the clock rises. */
  lemma PlaceOrdered(slots: seq<Slot>, key: Key, entry: Entry)
    requires DistinctKeys(slots) && Ordered(slots) && AccessedBefore(slots, entry.lastAccessed)
    ensures Ordered(Place(Lru, slots, key, entry))
  {
    PlaceContents(Lru, slots, key, entry);
    RemoveOrdered(slots, key);
    RemoveShape(slots, key);
    var kept := Remove(slots, key);
    forall j | 0 <= j < |kept|
      ensures kept[j].entry.lastAccessed < entry.lastAccessed
    {
      assert kept[j] in slots;
    }
  }

  // ----- Both evictions remove the least recently used entries

  lemma {:induction false} InsertBack(slots: seq<Slot>, i: nat)
    requires Ordered(slots) && i < |slots|
    ensures InsertByAccess(slots[i], slots[..i] + slots[i + 1..]) == slots
  {
    var others := slots[..i] + slots[i + 1..];
    if i == 0 {
      assert others == slots[1..];
      assert others != [] ==> others[0] == slots[1];
    } else {
      assert others[0] == slots[0];
      assert others[1..] == slots[1..][..i - 1] + slots[1..][i..];
      InsertBack(slots[1..], i - 1);
    }
  }

  lemma TakeOut(slots: seq<Slot>, x: Slot) returns (i: nat)
    requires x in multiset(slots)
    ensures i < |slots| && slots[i] == x
    ensures multiset(slots[..i] + slots[i + 1..]) == multiset(slots) - multiset{x}
  {
    i :| 0 <= i < |slots| && slots[i] == x;
    assert slots == slots[..i] + [x] + slots[i + 1..];
  }

  lemma OrderedWithout(slots: seq<Slot>, i: nat)
    requires Ordered(slots) && i < |slots|
    ensures Ordered(slots[..i] + slots[i + 1..])
  {
  }

  lemma TailContents(slots: seq<Slot>)
    requires slots != []
    ensures slots[0] in multiset(slots)
    ensures multiset(slots[1..]) == multiset(slots) - multiset{slots[0]}
  {
    assert slots == [slots[0]] + slots[1..];
  }

  /** Sorting by last access restores the LRU order, however the slots are arranged. */
  lemma {:induction false} ByAccessIsLruOrder(slots: seq<Slot>, lru: seq<Slot>)
    requires multiset(slots) == multiset(lru) && Ordered(lru)
    ensures ByAccess(slots) == lru
    decreases |slots|
  {
    if slots == [] {
      assert |multiset(lru)| == |lru|;
    } else {
      TailContents(slots);
      var i := TakeOut(lru, slots[0]);
      OrderedWithout(lru, i);
      ByAccessIsLruOrder(slots[1..], lru[..i] + lru[i + 1..]);
      InsertBack(lru, i);
    }
  }

  lemma {:induction false} InsertByAccessContents(x: Slot, slots: seq<Slot>)
    ensures multiset(InsertByAccess(x, slots)) == multiset(slots) + multiset{x}
  {
    if slots != [] && slots[0].entry.lastAccessed < x.entry.lastAccessed {
      InsertByAccessContents(x, slots[1..]);
      assert slots == [slots[0]] + slots[1..];
    }
  }

  lemma {:induction false} ByAccessContents(slots: seq<Slot>)
    ensures multiset(ByAccess(slots)) == multiset(slots)
  {
    if slots != [] {
      ByAccessContents(slots[1..]);
      InsertByAccessContents(slots[0], ByAccess(slots[1..]));
      assert slots == [slots[0]] + slots[1..];
    }
  }

  lemma {:induction false} RemoveAllContents(slots: seq<Slot>, victims: seq<Slot>)
    requires DistinctKeys(slots) && multiset(victims) <= multiset(slots)
    ensures multiset(RemoveAll(slots, victims)) == multiset(slots) - multiset(victims)
    ensures DistinctKeys(RemoveAll(slots, victims))
    decreases |victims|
  {
    if victims != [] {
      var x := victims[0];
      assert victims == [x] + victims[1..];
      assert x in multiset(slots);
      MemberFound(slots, x);
      RemoveContents(slots, x.key);
      RemoveShape(slots, x.key);
      RemoveAllContents(Remove(slots, x.key), victims[1..]);
    }
  }

  /** Two dictionaries with the same entries, the second in LRU order. */
  ghost predicate SameEntries(slots: seq<Slot>, lru: seq<Slot>) {
    DistinctKeys(slots) && DistinctKeys(lru) && Ordered(lru) && multiset(slots) == multiset(lru)
  }

  lemma LruSuffix(lru: seq<Slot>, n: nat)
    requires DistinctKeys(lru) && Ordered(lru) && n <= |lru|
    ensures DistinctKeys(lru[n..]) && Ordered(lru[n..])
    ensures multiset(lru[n..]) == multiset(lru) - multiset(lru[..n])
    ensures multiset(lru[..n]) <= multiset(lru)
  {
    assert lru == lru[..n] + lru[n..];
  }

  /** The two eviction codes remove the same entries. */
  lemma EvictionsAgree(strategy: Strategy, slots: seq<Slot>, lru: seq<Slot>, maxSize: nat)
    requires SameEntries(slots, lru) && (strategy.Lru? ==> slots == lru)
    ensures SameEntries(Evict(strategy, slots, maxSize), Evict(Lru, lru, maxSize))
  {
    SameLength(slots, lru);
    var n := EvictCount(|slots|, maxSize);
    LruSuffix(lru, n);
    if !strategy.Lru? {
      ByAccessIsLruOrder(slots, lru);
      RemoveAllContents(slots, lru[..n]);
    }
  }

  lemma SameLength(a: seq<Slot>, b: seq<Slot>)
    requires multiset(a) == multiset(b)
    ensures |a| == |b|
  {
    assert |multiset(a)| == |a| && |multiset(b)| == |b|;
  }

  // ----- Runs of the two strategies side by side

  function Time(op: Operation): int {
    match op
    case Get(_, now) => now
    case Set(_, _, _, now) => now
    case Delete(_, now) => now
    case CleanUp(now) => now
  }

  ghost predicate ClockRises(ops: seq<Operation>, start: int) {
    && (forall i :: 0 <= i < |ops| ==> start < Time(ops[i]))
    && (forall i, j :: 0 <= i < j < |ops| ==> Time(ops[i]) < Time(ops[j]))
  }

  lemma FoundAlso(a: seq<Slot>, b: seq<Slot>, key: Key)
    requires DistinctKeys(b) && multiset(a) == multiset(b)
    requires Find(a, key).Some?
    ensures Find(b, key) == Find(a, key)
  {
    FindMember(a, key);
    assert Slot(key, Find(a, key).value) in multiset(b);
    MemberFound(b, Slot(key, Find(a, key).value));
  }

  lemma FindSame(a: seq<Slot>, b: seq<Slot>, key: Key)
    requires DistinctKeys(a) && DistinctKeys(b) && multiset(a) == multiset(b)
    ensures Find(a, key) == Find(b, key)
  {
    if Find(a, key).Some? {
      FoundAlso(a, b, key);
    }
    if Find(b, key).Some? {
      FoundAlso(b, a, key);
    }
  }

  lemma PlacedAccessed(lru: seq<Slot>, key: Key, entry: Entry)
    requires DistinctKeys(lru) && AccessedBefore(lru, entry.lastAccessed)
    ensures forall i :: 0 <= i < |Place(Lru, lru, key, entry)| ==>
              Place(Lru, lru, key, entry)[i].entry.lastAccessed <= entry.lastAccessed
  {
    PlaceContents(Lru, lru, key, entry);
    var placed := Place(Lru, lru, key, entry);
    forall i | 0 <= i < |placed|
      ensures placed[i].entry.lastAccessed <= entry.lastAccessed
    {
      assert placed[i] in placed;
    }
  }

  lemma PlacedAlike(strategy: Strategy, slots: seq<Slot>, lru: seq<Slot>, key: Key, entry: Entry)
    requires SameEntries(slots, lru) && AccessedBefore(lru, entry.lastAccessed)
    requires strategy.Lru? ==> slots == lru
    ensures SameEntries(Place(strategy, slots, key, entry), Place(Lru, lru, key, entry))
    ensures forall i :: 0 <= i < |Place(Lru, lru, key, entry)| ==>
              Place(Lru, lru, key, entry)[i].entry.lastAccessed <= entry.lastAccessed
  {
    FindSame(slots, lru, key);
    assert Without(slots, key) == Without(lru, key);
    PlaceContents(strategy, slots, key, entry);
    PlaceContents(Lru, lru, key, entry);
    PlaceOrdered(lru, key, entry);
    PlacedAccessed(lru, key, entry);
  }

  lemma {:induction false} UnexpiredContents(slots: seq<Slot>, now: int, id: Slot)
    ensures multiset(Unexpired(slots, now))[id] == if IsExpired(id.entry, now) then 0 else multiset(slots)[id]
  {
    if slots != [] {
      assert slots == [slots[0]] + slots[1..];
      UnexpiredContents(slots[1..], now, id);
    }
  }

  lemma {:induction false} UnexpiredMembers(slots: seq<Slot>, now: int)
    ensures forall x :: x in Unexpired(slots, now) <==> x in slots && !IsExpired(x.entry, now)
  {
    if slots != [] {
      UnexpiredMembers(slots[1..], now);
    }
  }

  lemma {:induction false} UnexpiredDistinct(slots: seq<Slot>, now: int)
    requires DistinctKeys(slots)
    ensures DistinctKeys(Unexpired(slots, now))
  {
    if slots != [] {
      var rest := Unexpired(slots[1..], now);
      UnexpiredDistinct(slots[1..], now);
      UnexpiredMembers(slots[1..], now);
      forall j | 0 <= j < |rest|
        ensures rest[j].key != slots[0].key
      {
        assert rest[j] in slots[1..];
      }
    }
  }

  lemma {:induction false} UnexpiredOrdered(slots: seq<Slot>, now: int)
    requires Ordered(slots)
    ensures Ordered(Unexpired(slots, now))
  {
    if slots != [] {
      var rest := Unexpired(slots[1..], now);
      UnexpiredOrdered(slots[1..], now);
      UnexpiredMembers(slots[1..], now);
      forall j | 0 <= j < |rest|
        ensures slots[0].entry.lastAccessed < rest[j].entry.lastAccessed
      {
        assert rest[j] in slots[1..];
      }
    }
  }

  lemma UnexpiredKeeps(slots: seq<Slot>, now: int)
    requires DistinctKeys(slots)
    ensures DistinctKeys(Unexpired(slots, now))
    ensures forall x :: x in Unexpired(slots, now) <==> x in slots && !IsExpired(x.entry, now)
    ensures Ordered(slots) ==> Ordered(Unexpired(slots, now))
  {
    UnexpiredDistinct(slots, now);
    UnexpiredMembers(slots, now);
    if Ordered(slots) {
      UnexpiredOrdered(slots, now);
    }
  }

  lemma CleanedAlike(slots: seq<Slot>, lru: seq<Slot>, now: int)
    requires SameEntries(slots, lru)
    ensures SameEntries(Unexpired(slots, now), Unexpired(lru, now))
  {
    UnexpiredKeeps(slots, now);
    UnexpiredKeeps(lru, now);
    forall id
      ensures multiset(Unexpired(slots, now))[id] == multiset(Unexpired(lru, now))[id]
    {
      UnexpiredContents(slots, now, id);
      UnexpiredContents(lru, now, id);
    }
  }

  lemma RemovedAlike(slots: seq<Slot>, lru: seq<Slot>, key: Key)
    requires SameEntries(slots, lru)
    ensures SameEntries(Remove(slots, key), Remove(lru, key))
  {
    FindSame(slots, lru, key);
    RemoveContents(slots, key);
    RemoveContents(lru, key);
    RemoveShape(slots, key);
    RemoveShape(lru, key);
    RemoveOrdered(lru, key);
  }

  lemma GetAlike(c: Config, strategy: Strategy, slots: seq<Slot>, lru: seq<Slot>, key: Key, now: int)
    requires SameEntries(slots, lru) && AccessedBefore(lru, now)
    requires strategy.Lru? ==> slots == lru
    ensures SameEntries(Step(c, strategy, slots, Get(key, now)), Step(c, Lru, lru, Get(key, now)))
  {
    FindSame(slots, lru, key);
    RemovedAlike(slots, lru, key);
    if Find(lru, key).Some? {
      PlacedAlike(strategy, slots, lru, key, Touched(Find(lru, key).value, now));
    }
  }

  /** Both caches take the same operation at a time later than every access recorded so far. */
  lemma StepAlike(c: Config, strategy: Strategy, slots: seq<Slot>, lru: seq<Slot>, op: Operation)
    requires SameEntries(slots, lru) && AccessedBefore(lru, Time(op))
    requires strategy.Lru? ==> slots == lru
    requires op.CleanUp? ==> !(strategy.Ttl? && c.defaultTtl.None?)
    ensures SameEntries(Step(c, strategy, slots, op), Step(c, Lru, lru, op))
  {
    match op
    case Get(key, now) => GetAlike(c, strategy, slots, lru, key, now);
    case Set(key, value, ttl, now) =>
      var entry := NewEntry(c, value, ttl, now);
      PlacedAlike(strategy, slots, lru, key, entry);
      EvictionsAgree(strategy, Place(strategy, slots, key, entry), Place(Lru, lru, key, entry), c.maxSize);
    case Delete(key, _) => RemovedAlike(slots, lru, key);
    case CleanUp(now) => CleanedAlike(slots, lru, now);
  }

  lemma GetDates(c: Config, lru: seq<Slot>, key: Key, now: int)
    requires DistinctKeys(lru)
    ensures forall x :: x in Step(c, Lru, lru, Get(key, now)) ==> x in lru || x.entry.lastAccessed == now
  {
    RemoveShape(lru, key);
    if Find(lru, key).Some? {
      PlaceContents(Lru, lru, key, Touched(Find(lru, key).value, now));
    }
  }

  lemma SetDates(c: Config, lru: seq<Slot>, key: Key, entry: Entry)
    requires DistinctKeys(lru)
    ensures forall x :: x in Evict(Lru, Place(Lru, lru, key, entry), c.maxSize) ==>
              x in lru || x.entry.lastAccessed == entry.lastAccessed
  {
    var placed := Place(Lru, lru, key, entry);
    PlaceContents(Lru, lru, key, entry);
    forall x | x in placed[EvictCount(|placed|, c.maxSize)..]
      ensures x in lru || x.entry.lastAccessed == entry.lastAccessed
    {
      assert x in placed;
    }
  }

  /** An operation leaves old dates or its own. */
  lemma StepDates(c: Config, lru: seq<Slot>, op: Operation)
    requires DistinctKeys(lru)
    ensures forall x :: x in Step(c, Lru, lru, op) ==> x in lru || x.entry.lastAccessed == Time(op)
  {
    match op
    case Get(key, now) => GetDates(c, lru, key, now);
    case Set(key, value, ttl, now) => SetDates(c, lru, key, NewEntry(c, value, ttl, now));
    case Delete(key, _) => RemoveShape(lru, key);
    case CleanUp(now) => UnexpiredKeeps(lru, now);
  }

  lemma StepAccessed(c: Config, lru: seq<Slot>, op: Operation)
    requires DistinctKeys(lru) && Ordered(lru) && AccessedBefore(lru, Time(op))
    ensures AccessedBefore(Step(c, Lru, lru, op), Time(op) + 1)
  {
    var after := Step(c, Lru, lru, op);
    StepDates(c, lru, op);
    forall i | 0 <= i < |after|
      ensures after[i].entry.lastAccessed < Time(op) + 1
    {
      assert after[i] in after;
    }
  }

  /** From any cache loaded in order, under a strictly rising clock: the LRU dictionary stays in order of
      last access, and a cache that evicts by sorting holds the same entries at every moment. */
  lemma {:induction false} StrategiesAgree(
      c: Config, strategy: Strategy, loaded: seq<Slot>, start: int, ops: seq<Operation>)
    requires DistinctKeys(loaded) && Ordered(loaded) && AccessedBefore(loaded, start + 1)
    requires ClockRises(ops, start)
    requires strategy.Ttl? && c.defaultTtl.None? ==> forall i :: 0 <= i < |ops| ==> !ops[i].CleanUp?
    ensures Ordered(Run(c, Lru, loaded, ops))
    ensures SameEntries(Run(c, strategy, loaded, ops), Run(c, Lru, loaded, ops))
    ensures AccessedBefore(Run(c, Lru, loaded, ops), (if ops == [] then start else Time(ops[|ops| - 1])) + 1)
    decreases |ops|
  {
    if ops != [] {
      var before := ops[..|ops| - 1];
      var op := ops[|ops| - 1];
      assert forall i :: 0 <= i < |before| ==> before[i] == ops[i];
      StrategiesAgree(c, strategy, loaded, start, before);
      var lru := Run(c, Lru, loaded, before);
      StepAlike(c, strategy, Run(c, strategy, loaded, before), lru, op);
      StepAccessed(c, lru, op);
    }
  }

  /** So the two caches answer every lookup alike. */
  lemma AnswersAgree(
      c: Config, strategy: Strategy, loaded: seq<Slot>, start: int, ops: seq<Operation>, key: Key, now: int)
    requires DistinctKeys(loaded) && Ordered(loaded) && AccessedBefore(loaded, start + 1)
    requires ClockRises(ops, start)
    requires strategy.Ttl? && c.defaultTtl.None? ==> forall i :: 0 <= i < |ops| ==> !ops[i].CleanUp?
    ensures Answer(c, Run(c, strategy, loaded, ops), key, now) == Answer(c, Run(c, Lru, loaded, ops), key, now)
  {
    StrategiesAgree(c, strategy, loaded, start, ops);
    FindSame(Run(c, strategy, loaded, ops), Run(c, Lru, loaded, ops), key);
  }

  // ----- The size limit

  /** What is left has as many members as the whole has beyond a part. */
  lemma RestLength(kept: seq<Slot>, part: seq<Slot>, whole: seq<Slot>)
    requires multiset(part) <= multiset(whole) && multiset(kept) == multiset(whole) - multiset(part)
    ensures multiset(kept) <= multiset(whole) && |kept| == |whole| - |part|
  {
    assert |multiset(kept)| == |kept| && |multiset(part)| == |part| && |multiset(whole)| == |whole|;
    assert multiset(whole) == multiset(kept) + multiset(part);
  }

  lemma SortedEvictShape(slots: seq<Slot>, n: nat)
    requires DistinctKeys(slots) && n <= |slots|
    ensures var kept := RemoveAll(slots, ByAccess(slots)[..n]);
            DistinctKeys(kept) && multiset(kept) <= multiset(slots) && |kept| == |slots| - n
  {
    var sorted := ByAccess(slots);
    var victims := sorted[..n];
    ByAccessContents(slots);
    assert sorted == victims + sorted[n..];
    RemoveAllContents(slots, victims);
    RestLength(RemoveAll(slots, victims), victims, slots);
  }

  /** Eviction under either policy keeps only entries it was given, at most `maxSize` of them; an
      overfull cache is cut to one below the limit. */
  lemma EvictShape(strategy: Strategy, slots: seq<Slot>, maxSize: nat)
    requires DistinctKeys(slots)
    ensures var kept := Evict(strategy, slots, maxSize);
            && DistinctKeys(kept)
            && multiset(kept) <= multiset(slots)
            && |kept| == (if |slots| <= maxSize then |slots| else if maxSize == 0 then 0 else maxSize - 1)
  {
    var n := EvictCount(|slots|, maxSize);
    if strategy.Lru? {
      assert slots == slots[..n] + slots[n..];
    } else {
      SortedEvictShape(slots, n);
    }
  }

  lemma SetRespectsLimit(
      c: Config, strategy: Strategy, slots: seq<Slot>, key: Key, value: Data, ttl: Option<int>, now: int)
    requires DistinctKeys(slots)
    ensures |Step(c, strategy, slots, Set(key, value, ttl, now))| <= c.maxSize
  {
    PlaceContents(strategy, slots, key, NewEntry(c, value, ttl, now));
    EvictShape(strategy, Place(strategy, slots, key, NewEntry(c, value, ttl, now)), c.maxSize);
  }

  lemma LastSlotSurvivesIff(placed: seq<Slot>, maxSize: nat)
    requires DistinctKeys(placed) && placed != []
    ensures var last := placed[|placed| - 1];
            Find(Evict(Lru, placed, maxSize), last.key)
            == if |placed| <= maxSize || maxSize >= 2 then Some(last.entry) else None
  {
    var kept := placed[EvictCount(|placed|, maxSize)..];
    if kept != [] {
      assert kept[|kept| - 1] == placed[|placed| - 1];
      MemberFound(kept, placed[|placed| - 1]);
    }
  }

  /** The key just set survives its own `set` exactly when nothing had to be evicted or the limit is at
      least two: a full cache of size one throws away what it was just given. */
  lemma KeyJustSetSurvivesIff(
      c: Config, strategy: Strategy, slots: seq<Slot>, lru: seq<Slot>, key: Key, value: Data,
      ttl: Option<int>, now: int)
    requires SameEntries(slots, lru) && AccessedBefore(lru, now)
    requires strategy.Lru? ==> slots == lru
    ensures var entry := NewEntry(c, value, ttl, now);
            Find(Step(c, strategy, slots, Set(key, value, ttl, now)), key)
            == if |Place(strategy, slots, key, entry)| <= c.maxSize || c.maxSize >= 2 then Some(entry) else None
  {
    var op := Set(key, value, ttl, now);
    var entry := NewEntry(c, value, ttl, now);
    var placed := Place(Lru, lru, key, entry);
    PlacedAlike(strategy, slots, lru, key, entry);
    SameLength(Place(strategy, slots, key, entry), placed);
    StepAlike(c, strategy, slots, lru, op);
    FindSame(Step(c, strategy, slots, op), Step(c, Lru, lru, op), key);
    PlaceContents(Lru, lru, key, entry);
    LastSlotSurvivesIff(placed, c.maxSize);
  }

  // ----- What a hit returns

  function LastSet(ops: seq<Operation>, key: Key): Option<Data> {
    if ops == [] then None
    else
      var op := ops[|ops| - 1];
      if op.Set? && op.key == key then Some(op.value) else LastSet(ops[..|ops| - 1], key)
  }

  /** Every slot holds what was stored for the last value set for its key, or what was loaded for it. */
  ghost predicate HoldsLast(c: Config, loaded: seq<Slot>, slots: seq<Slot>, ops: seq<Operation>) {
    && DistinctKeys(slots)
    && forall x :: x in slots ==>
         match LastSet(ops, x.key)
         case Some(value) => x.entry.stored == Compress(c.codec, c.compression, c.threshold, value)
         case None => Find(loaded, x.key).Some? && x.entry.stored == Find(loaded, x.key).value.stored
  }

  /** `after` keeps or re-dates entries of `slots`, apart from those of the key `op` sets. */
  ghost predicate Derived(c: Config, slots: seq<Slot>, after: seq<Slot>, op: Operation) {
    && DistinctKeys(after)
    && forall x :: x in after ==>
         if op.Set? && op.key == x.key then x.entry.stored == Compress(c.codec, c.compression, c.threshold, op.value)
         else Find(slots, x.key).Some? && Find(slots, x.key).value.stored == x.entry.stored
  }

  lemma RemoveDerives(c: Config, slots: seq<Slot>, key: Key, op: Operation)
    requires DistinctKeys(slots) && !op.Set?
    ensures Derived(c, slots, Remove(slots, key), op)
  {
    RemoveShape(slots, key);
    AllFound(slots);
  }

  lemma TouchDerives(c: Config, strategy: Strategy, slots: seq<Slot>, key: Key, now: int, op: Operation)
    requires DistinctKeys(slots) && Find(slots, key).Some? && !op.Set?
    ensures Derived(c, slots, Place(strategy, slots, key, Touched(Find(slots, key).value, now)), op)
  {
    var entry := Touched(Find(slots, key).value, now);
    var placed := Place(strategy, slots, key, entry);
    PlaceContents(strategy, slots, key, entry);
    forall x | x in placed
      ensures Find(slots, x.key).Some? && Find(slots, x.key).value.stored == x.entry.stored
    {
      if x != Slot(key, entry) {
        MemberFound(slots, x);
      }
    }
  }

  lemma GetDerives(c: Config, strategy: Strategy, slots: seq<Slot>, key: Key, now: int)
    requires DistinctKeys(slots)
    ensures Derived(c, slots, Step(c, strategy, slots, Get(key, now)), Get(key, now))
  {
    match Find(slots, key)
    case None => AllFound(slots);
    case Some(entry) =>
      if IsExpired(entry, now) {
        RemoveDerives(c, slots, key, Get(key, now));
      } else {
        TouchDerives(c, strategy, slots, key, now, Get(key, now));
      }
  }

  lemma SetDerives(c: Config, strategy: Strategy, slots: seq<Slot>, op: Operation)
    requires DistinctKeys(slots) && op.Set?
    ensures Derived(c, slots, Step(c, strategy, slots, op), op)
  {
    var entry := NewEntry(c, op.value, op.ttl, op.now);
    var placed := Place(strategy, slots, op.key, entry);
    PlaceContents(strategy, slots, op.key, entry);
    EvictShape(strategy, placed, c.maxSize);
    KeptAreMembers(Evict(strategy, placed, c.maxSize), placed);
    AllFound(slots);
  }

  lemma AllFound(slots: seq<Slot>)
    requires DistinctKeys(slots)
    ensures forall x :: x in slots ==> Find(slots, x.key) == Some(x.entry)
  {
    forall x | x in slots
      ensures Find(slots, x.key) == Some(x.entry)
    {
      MemberFound(slots, x);
    }
  }

  lemma StepDerives(c: Config, strategy: Strategy, slots: seq<Slot>, op: Operation)
    requires DistinctKeys(slots)
    ensures Derived(c, slots, Step(c, strategy, slots, op), op)
  {
    match op
    case Get(key, now) => GetDerives(c, strategy, slots, key, now);
    case Set(_, _, _, _) => SetDerives(c, strategy, slots, op);
    case Delete(key, _) => RemoveDerives(c, slots, key, op);
    case CleanUp(now) =>
      UnexpiredKeeps(slots, now);
      AllFound(slots);
  }

  lemma StepHoldsLast(
      c: Config, strategy: Strategy, loaded: seq<Slot>, slots: seq<Slot>, ops: seq<Operation>, op: Operation)
    requires HoldsLast(c, loaded, slots, ops)
    ensures HoldsLast(c, loaded, Step(c, strategy, slots, op), ops + [op])
  {
    assert (ops + [op])[..|ops + [op]| - 1] == ops;
    StepDerives(c, strategy, slots, op);
    forall key | Find(slots, key).Some?
      ensures Slot(key, Find(slots, key).value) in slots
    {
      FindMember(slots, key);
    }
  }

  lemma KeptAreMembers(kept: seq<Slot>, slots: seq<Slot>)
    requires multiset(kept) <= multiset(slots)
    ensures forall x :: x in kept ==> x in slots
  {
    forall x | x in kept
      ensures x in slots
    {
      assert x in multiset(kept);
      assert x in multiset(slots);
    }
  }

  lemma {:induction false} RunHoldsLast(c: Config, strategy: Strategy, loaded: seq<Slot>, ops: seq<Operation>)
    requires DistinctKeys(loaded)
    ensures HoldsLast(c, loaded, Run(c, strategy, loaded, ops), ops)
  {
    if ops == [] {
      AllFound(loaded);
    } else {
      var before := ops[..|ops| - 1];
      RunHoldsLast(c, strategy, loaded, before);
      StepHoldsLast(c, strategy, loaded, Run(c, strategy, loaded, before), before, ops[|ops| - 1]);
      assert before + [ops[|ops| - 1]] == ops;
    }
  }

  /** A hit after any operations on any loaded cache.  If the key was set meanwhile, it returns the last
      value set exactly when the codec brings that value back; otherwise it returns what the load brought
      for the key. */
  lemma HitReturnsLastSetIff(c: Config, strategy: Strategy, loaded: seq<Slot>, ops: seq<Operation>, key: Key, now: int)
    requires Inverse(c.codec) && DistinctKeys(loaded)
    requires Answer(c, Run(c, strategy, loaded, ops), key, now).Some?
    ensures var answer := Answer(c, Run(c, strategy, loaded, ops), key, now);
            match LastSet(ops, key)
            case Some(value) => answer == Some(value) <==> Survives(c.codec, c.compression, c.threshold, value)
            case None =>
              && Find(loaded, key).Some?
              && answer == Some(Decompress(c.codec, Find(loaded, key).value.stored))
  {
    var slots := Run(c, strategy, loaded, ops);
    RunHoldsLast(c, strategy, loaded, ops);
    FindMember(slots, key);
    assert Slot(key, Find(slots, key).value) in slots;
    if LastSet(ops, key).Some? {
      RoundTripIff(c.codec, c.compression, c.threshold, LastSet(ops, key).value);
    }
  }

  lemma {:induction false} LastSetConcat(first: seq<Operation>, second: seq<Operation>, key: Key)
    ensures LastSet(first + second, key)
         == if LastSet(second, key).Some? then LastSet(second, key) else LastSet(first, key)
  {
    if second == [] {
      assert first + second == first;
    } else {
      assert (first + second)[..|first + second| - 1] == first + second[..|second| - 1];
      LastSetConcat(first, second[..|second| - 1], key);
    }
  }

  // ----- How long an entry lives

  lemma RemoveRecord(slots: seq<Slot>, key: Key, other: Key)
    requires DistinctKeys(slots)
    ensures Find(Remove(slots, key), other) == if other == key then None else Find(slots, other)
  {
    var kept := Remove(slots, key);
    RemoveShape(slots, key);
    FindMember(kept, other);
    FindMember(slots, other);
    if Find(kept, other).Some? {
      MemberFound(slots, Slot(other, Find(kept, other).value));
    } else if Find(slots, other).Some? && other != key {
      assert Slot(other, Find(slots, other).value) in kept;
      MemberFound(kept, Slot(other, Find(slots, other).value));
    }
  }

  lemma PlaceRecord(strategy: Strategy, slots: seq<Slot>, key: Key, entry: Entry, other: Key)
    requires DistinctKeys(slots)
    ensures Find(Place(strategy, slots, key, entry), other)
         == if other == key then Some(entry) else Find(slots, other)
  {
    var placed := Place(strategy, slots, key, entry);
    PlaceContents(strategy, slots, key, entry);
    MemberFound(placed, Slot(key, entry));
    if other != key {
      FindMember(slots, other);
      FindMember(placed, other);
      if Find(slots, other).Some? {
        MemberFound(placed, Slot(other, Find(slots, other).value));
      }
    }
  }

  lemma EvictRecord(strategy: Strategy, slots: seq<Slot>, maxSize: nat, key: Key)
    requires DistinctKeys(slots)
    ensures Find(Evict(strategy, slots, maxSize), key).Some? ==>
              Find(Evict(strategy, slots, maxSize), key) == Find(slots, key)
  {
    var kept := Evict(strategy, slots, maxSize);
    EvictShape(strategy, slots, maxSize);
    KeptAreMembers(kept, slots);
    FindMember(kept, key);
    if Find(kept, key).Some? {
      MemberFound(slots, Slot(key, Find(kept, key).value));
    }
  }

  lemma CleanRecord(slots: seq<Slot>, now: int, key: Key)
    requires DistinctKeys(slots)
    ensures Find(Unexpired(slots, now), key)
         == if Find(slots, key).Some? && !IsExpired(Find(slots, key).value, now) then Find(slots, key) else None
  {
    var alive := Unexpired(slots, now);
    UnexpiredKeeps(slots, now);
    FindMember(slots, key);
    FindMember(alive, key);
    if Find(alive, key).Some? {
      MemberFound(slots, Slot(key, Find(alive, key).value));
    }
    if Find(slots, key).Some? && !IsExpired(Find(slots, key).value, now) {
      MemberFound(alive, Slot(key, Find(slots, key).value));
    }
  }

  /** An operation that takes a key's entry away although it has not run out: a deletion of the key, or a
      `set` of another key whose eviction strikes it. */
  predicate Drops(c: Config, strategy: Strategy, slots: seq<Slot>, op: Operation, key: Key) {
    && Find(slots, key).Some? && Find(Step(c, strategy, slots, op), key).None?
    && (op.Set? || op.Delete?)
  }

  predicate OutOfTime(e: Entry, now: int) { e.ttl.Some? && now > e.createdAt + e.ttl.value }

  /** What an operation other than a `set` of the key does to its entry: nothing but a hit's new date and
      count, unless it goes. */
  lemma StepRecord(c: Config, strategy: Strategy, slots: seq<Slot>, op: Operation, key: Key)
    requires DistinctKeys(slots) && !(op.Set? && op.key == key)
    ensures DistinctKeys(Step(c, strategy, slots, op))
    ensures var before, after := Find(slots, key), Find(Step(c, strategy, slots, op), key);
            && (after.Some? ==>
                  && before.Some?
                  && after.value == if op.Get? && op.key == key
                                    then Touched(before.value, op.now) else before.value)
            && (before.Some? && after.None? ==>
                  Drops(c, strategy, slots, op, key) || OutOfTime(before.value, Time(op)))
            && (op.Get? && op.key == key && after.Some? ==> !OutOfTime(before.value, op.now))
  {
    StepDerives(c, strategy, slots, op);
    match op
    case Get(k, now) =>
      if Find(slots, k).Some? {
        RemoveRecord(slots, k, key);
        PlaceRecord(strategy, slots, k, Touched(Find(slots, k).value, now), key);
      }
    case Set(k, value, ttl, now) =>
      var placed := Place(strategy, slots, k, NewEntry(c, value, ttl, now));
      PlaceContents(strategy, slots, k, NewEntry(c, value, ttl, now));
      PlaceRecord(strategy, slots, k, NewEntry(c, value, ttl, now), key);
      EvictRecord(strategy, placed, c.maxSize, key);
    case Delete(k, _) => RemoveRecord(slots, k, key);
    case CleanUp(now) => CleanRecord(slots, now, key);
  }

  /** What takes an entry away for sure: a deletion of its key; and once its time has run out, a lookup of
      its key, and the clean-up where that is on, which touches nothing else. */
  lemma GoneIff(c: Config, strategy: Strategy, slots: seq<Slot>, op: Operation, key: Key)
    requires DistinctKeys(slots) && Find(slots, key).Some? && !op.Set?
    ensures var e := Find(slots, key).value;
            var late := e.ttl.Some? && Time(op) > e.createdAt + e.ttl.value;
            Find(Step(c, strategy, slots, op), key).None? <==>
              match op
              case Get(k, _) => k == key && late
              case Delete(k, _) => k == key
              case CleanUp(_) => late && (strategy == Ttl || c.defaultTtl.Some?)
              case Set(_, _, _, _) => false
  {
    match op
    case Get(k, now) =>
      RemoveRecord(slots, k, key);
      if Find(slots, k).Some? {
        PlaceRecord(strategy, slots, k, Touched(Find(slots, k).value, now), key);
      }
    case Delete(k, _) => RemoveRecord(slots, k, key);
    case CleanUp(now) => CleanRecord(slots, now, key);
    case Set(_, _, _, _) =>
  }

  predicate NoSet(ops: seq<Operation>, key: Key) {
    forall i :: 0 <= i < |ops| ==> !(ops[i].Set? && ops[i].key == key)
  }

  /** The gets of a key, and the time of the last of them. */
  function Gets(ops: seq<Operation>, key: Key): nat {
    if ops == [] then 0
    else Gets(ops[..|ops| - 1], key) + (if ops[|ops| - 1].Get? && ops[|ops| - 1].key == key then 1 else 0)
  }

  function LastGet(ops: seq<Operation>, key: Key, otherwise: int): int {
    if ops == [] then otherwise
    else if ops[|ops| - 1].Get? && ops[|ops| - 1].key == key then ops[|ops| - 1].now
    else LastGet(ops[..|ops| - 1], key, otherwise)
  }

  /** Some operation of the run dropped the key's entry. */
  predicate Dropped(c: Config, strategy: Strategy, slots: seq<Slot>, ops: seq<Operation>, key: Key) {
    ops != []
    && (Dropped(c, strategy, slots, ops[..|ops| - 1], key)
        || Drops(c, strategy, Run(c, strategy, slots, ops[..|ops| - 1]), ops[|ops| - 1], key))
  }

  /** As long as a key is not set again, its entry keeps value, birth and time to live; hits only date and
      count it.  It is there at the end if it was not dropped and has not run out by the latest time. */
  lemma {:induction false} RecordKept(
      c: Config, strategy: Strategy, slots: seq<Slot>, ops: seq<Operation>, key: Key, now: int)
    requires DistinctKeys(slots) && NoSet(ops, key) && Find(slots, key).Some?
    requires forall i :: 0 <= i < |ops| ==> Time(ops[i]) <= now
    ensures DistinctKeys(Run(c, strategy, slots, ops))
    ensures var e, after := Find(slots, key).value, Find(Run(c, strategy, slots, ops), key);
            && (after.Some? ==>
                  after.value == e.(lastAccessed := LastGet(ops, key, e.lastAccessed),
                                    accessCount := e.accessCount + Gets(ops, key)))
            && (after.Some? ==> !Dropped(c, strategy, slots, ops, key))
            && (after.None? ==> Dropped(c, strategy, slots, ops, key) || OutOfTime(e, now))
    decreases |ops|
  {
    if ops != [] {
      var before, op := ops[..|ops| - 1], ops[|ops| - 1];
      assert forall i :: 0 <= i < |before| ==> before[i] == ops[i];
      RecordKept(c, strategy, slots, before, key, now);
      StepRecord(c, strategy, Run(c, strategy, slots, before), op, key);
    }
  }

  lemma {:induction false} RunConcat(
      c: Config, strategy: Strategy, slots: seq<Slot>, first: seq<Operation>, second: seq<Operation>)
    ensures Run(c, strategy, slots, first + second) == Run(c, strategy, Run(c, strategy, slots, first), second)
  {
    if second == [] {
      assert first + second == first;
    } else {
      assert (first + second)[..|first + second| - 1] == first + second[..|second| - 1];
      RunConcat(c, strategy, slots, first, second[..|second| - 1]);
    }
  }

  lemma {:induction false} RunDistinct(c: Config, strategy: Strategy, slots: seq<Slot>, ops: seq<Operation>)
    requires DistinctKeys(slots)
    ensures DistinctKeys(Run(c, strategy, slots, ops))
  {
    if ops != [] {
      RunDistinct(c, strategy, slots, ops[..|ops| - 1]);
      StepDerives(c, strategy, Run(c, strategy, slots, ops[..|ops| - 1]), ops[|ops| - 1]);
    }
  }

  /** The entry a `set` makes, if its own eviction spares it. */
  lemma SetRecord(
      c: Config, strategy: Strategy, slots: seq<Slot>, key: Key, value: Data, ttl: Option<int>, now: int)
    requires DistinctKeys(slots)
    ensures var after := Find(Step(c, strategy, slots, Set(key, value, ttl, now)), key);
            after.Some? ==>
              && after.value.createdAt == after.value.lastAccessed == now && after.value.accessCount == 1
              && after.value.ttl == (if ttl.Some? && ttl.value != 0 then ttl else c.defaultTtl)
              && after.value.stored == Compress(c.codec, c.compression, c.threshold, value)
  {
    var entry := NewEntry(c, value, ttl, now);
    var placed := Place(strategy, slots, key, entry);
    PlaceContents(strategy, slots, key, entry);
    PlaceRecord(strategy, slots, key, entry, key);
    EvictRecord(strategy, placed, c.maxSize, key);
  }

  /** How long a value can be had.  After a `set` of a key and no later one of it, under a clock that does
      not pass `now`: with a time to live, its own or else the default, no lookup answers once more than
      that has passed since the `set`, however often the entry was hit.  Up to then, and for ever without
      a time to live, a lookup answers exactly if the entry survived its own `set` and nothing deleted or
      evicted it since; and a hit has only dated and counted it. */
  lemma LifetimeIff(
      c: Config, strategy: Strategy, loaded: seq<Slot>, before: seq<Operation>, key: Key, value: Data,
      ttl: Option<int>, setAt: int, after: seq<Operation>, now: int)
    requires DistinctKeys(loaded) && NoSet(after, key)
    requires forall i :: 0 <= i < |after| ==> Time(after[i]) <= now
    ensures var life := if ttl.Some? && ttl.value != 0 then ttl else c.defaultTtl;
            var placed := Run(c, strategy, loaded, before + [Set(key, value, ttl, setAt)]);
            var slots := Run(c, strategy, loaded, before + [Set(key, value, ttl, setAt)] + after);
            && (life.Some? && now > setAt + life.value ==> Answer(c, slots, key, now) == None)
            && (life.None? || now <= setAt + life.value ==>
                  (Answer(c, slots, key, now).Some? <==>
                     Find(placed, key).Some? && !Dropped(c, strategy, placed, after, key)))
            && (Find(slots, key).Some? ==>
                  && Find(slots, key).value.createdAt == setAt
                  && Find(slots, key).value.lastAccessed == LastGet(after, key, setAt)
                  && Find(slots, key).value.accessCount == 1 + Gets(after, key))
  {
    var op := Set(key, value, ttl, setAt);
    var first := Run(c, strategy, loaded, before);
    var placed := Run(c, strategy, loaded, before + [op]);
    RunDistinct(c, strategy, loaded, before);
    RunDistinct(c, strategy, loaded, before + [op]);
    assert (before + [op])[..|before|] == before;
    SetRecord(c, strategy, first, key, value, ttl, setAt);
    RunConcat(c, strategy, loaded, before + [op], after);
    if Find(placed, key).Some? {
      RecordKept(c, strategy, placed, after, key, now);
    } else {
      AbsentStays(c, strategy, placed, after, key);
    }
  }

  lemma {:induction false} AbsentStays(
      c: Config, strategy: Strategy, slots: seq<Slot>, ops: seq<Operation>, key: Key)
    requires DistinctKeys(slots) && NoSet(ops, key) && Find(slots, key).None?
    ensures DistinctKeys(Run(c, strategy, slots, ops)) && Find(Run(c, strategy, slots, ops), key).None?
  {
    if ops != [] {
      var before := ops[..|ops| - 1];
      assert forall i :: 0 <= i < |before| ==> before[i] == ops[i];
      AbsentStays(c, strategy, slots, before, key);
      StepRecord(c, strategy, Run(c, strategy, slots, before), ops[|ops| - 1], key);
    }
  }

  lemma {:induction false} RemoveAbsent(slots: seq<Slot>, key: Key)
    requires Find(slots, key).None?
    ensures Remove(slots, key) == slots
  {
    if slots != [] {
      RemoveAbsent(slots[1..], key);
    }
  }

  lemma {:induction false} FindRemoveShorter(slots: seq<Slot>, key: Key)
    requires Find(slots, key).Some?
    ensures |Remove(slots, key)| == |slots| - 1
  {
    if slots[0].key != key {
      FindRemoveShorter(slots[1..], key);
    }
  }
}
