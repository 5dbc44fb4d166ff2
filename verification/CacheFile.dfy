/** The cache file of src/core/cache.py: what a save writes and when it writes at all, what a load brings
    back, and the cache object over both. */
module CacheFile {
  import opened CacheCodec
  import opened Cache

  // ----- What a save writes and a load reads

  /** One entry of the cache file; `base64` is the `data_encoding` marker. */
  datatype FileSlot = FileSlot(key: Key, entry: Entry, base64: bool)

  function SaveEntry(k: Codec, x: Slot): FileSlot {
    match x.entry.stored.data
    case Bytes(b) => FileSlot(x.key, x.entry.(stored := x.entry.stored.(data := Text(k.base64(b)))), true)
    case _ => FileSlot(x.key, x.entry, false)
  }

  /** What the JSON layer of the file makes of an entry; None when it cannot be written. */
  function ThroughJson(k: Codec, f: FileSlot): Option<FileSlot> {
    var data := f.entry.stored.data;
    if k.dumps(data).None? || k.loads(k.dumps(data).value).None? then None
    else Some(f.(entry := f.entry.(stored := f.entry.stored.(data := k.loads(k.dumps(data).value).value))))
  }

  predicate Writable(k: Codec, x: Slot) { ThroughJson(k, SaveEntry(k, x)).Some? }

  /** What `_save_cache` writes: the unexpired entries, in order; one that cannot be written fails it. */
  function Snapshot(k: Codec, slots: seq<Slot>, now: int): Option<seq<FileSlot>> {
    if slots == [] then Some([])
    else
      var rest := Snapshot(k, slots[1..], now);
      if IsExpired(slots[0].entry, now) then rest
      else
        var first := ThroughJson(k, SaveEntry(k, slots[0]));
        if first.None? || rest.None? then None else Some([first.value] + rest.value)
  }

  function LoadEntry(k: Codec, f: FileSlot): Slot {
    if f.base64 && f.entry.stored.data.Text? && k.unbase64(f.entry.stored.data.text).Some? then
      Slot(f.key, f.entry.(stored := f.entry.stored.(data := Bytes(k.unbase64(f.entry.stored.data.text).value))))
    else Slot(f.key, f.entry)
  }

  /** The entries a file stands for, expired or not. */
  function Content(k: Codec, file: seq<FileSlot>): (slots: seq<Slot>)
    ensures |slots| == |file|
  {
    if file == [] then [] else [LoadEntry(k, file[0])] + Content(k, file[1..])
  }

  /** `_load_cache` into an empty cache. */
  function Load(k: Codec, file: seq<FileSlot>, now: int): seq<Slot> {
    Unexpired(Content(k, file), now)
  }

  /** An entry that a trip through the file brings back unchanged. */
  predicate Storable(k: Codec, x: Slot) {
    x.entry.stored.data.Bytes? || JsonNormal(k, x.entry.stored.data)
  }

  /** An entry after a trip through the file. */
  function Reloaded(k: Codec, x: Slot): Slot {
    match ThroughJson(k, SaveEntry(k, x))
    case None => x
    case Some(f) => LoadEntry(k, f)
  }

  function Reload(k: Codec, slots: seq<Slot>): (r: seq<Slot>)
    ensures |r| == |slots|
  {
    if slots == [] then [] else [Reloaded(k, slots[0])] + Reload(k, slots[1..])
  }

  /** The trip touches nothing but the data, and leaves that alone exactly if it is bytes or JSON-normal. */
  lemma ReloadedShape(k: Codec, x: Slot)
    requires Inverse(k)
    ensures var y := Reloaded(k, x);
            y == Slot(x.key, x.entry.(stored := x.entry.stored.(data := y.entry.stored.data)))
    ensures Writable(k, x) ==> (Reloaded(k, x) == x <==> Storable(k, x))
    ensures Storable(k, x) ==> Writable(k, x)
  {
    match x.entry.stored.data
    case Bytes(b) =>
      assert JsonNormal(k, Text(k.base64(b)));
      assert k.unbase64(k.base64(b)) == Some(b);
    case Text(s) =>
    case Object(_) =>
  }

  lemma UnexpiredCons(x: Slot, rest: seq<Slot>, now: int)
    ensures Unexpired([x] + rest, now)
         == if IsExpired(x.entry, now) then Unexpired(rest, now) else [x] + Unexpired(rest, now)
  {
    assert ([x] + rest)[1..] == rest;
    assert [] + Unexpired(rest, now) == Unexpired(rest, now);
  }

  lemma {:induction false} UnexpiredTwice(slots: seq<Slot>, early: int, now: int)
    requires early <= now
    ensures Unexpired(Unexpired(slots, early), now) == Unexpired(slots, now)
  {
    if slots != [] {
      var x, rest := slots[0], slots[1..];
      assert slots == [x] + rest;
      UnexpiredTwice(rest, early, now);
      UnexpiredCons(x, rest, early);
      UnexpiredCons(x, rest, now);
      UnexpiredCons(x, Unexpired(rest, early), now);
    }
  }

  lemma ReloadCons(k: Codec, x: Slot, rest: seq<Slot>)
    ensures Reload(k, [x] + rest) == [Reloaded(k, x)] + Reload(k, rest)
  {
    assert ([x] + rest)[1..] == rest;
  }

  lemma {:induction false} UnexpiredReload(k: Codec, slots: seq<Slot>, now: int)
    requires Inverse(k)
    ensures Unexpired(Reload(k, slots), now) == Reload(k, Unexpired(slots, now))
  {
    if slots != [] {
      var x, rest := slots[0], slots[1..];
      assert slots == [x] + rest;
      UnexpiredReload(k, rest, now);
      ReloadedShape(k, x);
      UnexpiredCons(x, rest, now);
      UnexpiredCons(Reloaded(k, x), Reload(k, rest), now);
      ReloadCons(k, x, Unexpired(rest, now));
    }
  }

  /** A save writes exactly if every unexpired entry can be written, and then stands for those entries
      after their trip. */
  lemma {:induction false} SnapshotContent(k: Codec, slots: seq<Slot>, saved: int)
    ensures Snapshot(k, slots, saved).Some? <==> forall x :: x in Unexpired(slots, saved) ==> Writable(k, x)
    ensures Snapshot(k, slots, saved).Some? ==>
              Content(k, Snapshot(k, slots, saved).value) == Reload(k, Unexpired(slots, saved))
  {
    if slots != [] {
      var x, rest := slots[0], slots[1..];
      assert slots == [x] + rest;
      SnapshotContent(k, rest, saved);
      UnexpiredCons(x, rest, saved);
      if !IsExpired(x.entry, saved) {
        ConsContent(k, x, rest, saved);
      }
    }
  }

  lemma ConsContent(k: Codec, x: Slot, rest: seq<Slot>, saved: int)
    requires !IsExpired(x.entry, saved)
    ensures var whole, tail := Snapshot(k, [x] + rest, saved), Snapshot(k, rest, saved);
            && (whole.Some? <==> Writable(k, x) && tail.Some?)
            && (whole.Some? ==> Content(k, whole.value) == [Reloaded(k, x)] + Content(k, tail.value))
    ensures Reload(k, [x] + Unexpired(rest, saved)) == [Reloaded(k, x)] + Reload(k, Unexpired(rest, saved))
    ensures (forall y :: y in [x] + Unexpired(rest, saved) ==> Writable(k, y))
       <==> Writable(k, x) && forall y :: y in Unexpired(rest, saved) ==> Writable(k, y)
  {
    assert ([x] + rest)[1..] == rest;
    var first, tail := ThroughJson(k, SaveEntry(k, x)), Snapshot(k, rest, saved);
    if first.Some? && tail.Some? {
      assert ([first.value] + tail.value)[1..] == tail.value;
    }
    ReloadCons(k, x, Unexpired(rest, saved));
    assert x in [x] + Unexpired(rest, saved);
  }

  lemma {:induction false} ReloadIdentityIff(k: Codec, slots: seq<Slot>)
    requires Inverse(k) && forall x :: x in slots ==> Writable(k, x)
    ensures Reload(k, slots) == slots <==> forall x :: x in slots ==> Storable(k, x)
  {
    if slots != [] {
      ReloadedShape(k, slots[0]);
      ReloadIdentityIff(k, slots[1..]);
      assert slots == [slots[0]] + slots[1..];
      assert Reload(k, slots)[0] == Reloaded(k, slots[0]) && Reload(k, slots)[1..] == Reload(k, slots[1..]);
    }
  }

  /** A snapshot that is written and loaded into an empty cache restores exactly the entries that are
      still unexpired, in order, if and only if every entry alive at the save can be written and every one
      alive at the load is bytes or JSON-normal. */
  lemma SnapshotRestoresIff(k: Codec, slots: seq<Slot>, saved: int, now: int)
    requires Inverse(k) && saved <= now
    ensures Snapshot(k, slots, saved).Some? && Load(k, Snapshot(k, slots, saved).value, now) == Unexpired(slots, now)
       <==> (forall x :: x in slots && !IsExpired(x.entry, saved) ==> Writable(k, x))
            && (forall x :: x in slots && !IsExpired(x.entry, now) ==> Storable(k, x))
  {
    SnapshotContent(k, slots, saved);
    UnexpiredMembers(slots, saved);
    UnexpiredMembers(slots, now);
    if Snapshot(k, slots, saved).Some? {
      UnexpiredReload(k, Unexpired(slots, saved), now);
      UnexpiredTwice(slots, saved, now);
      ReloadIdentityIff(k, Unexpired(slots, now));
    }
  }

  // ----- When a save writes

  /** `hit` is the history of the keys hit since the file was last written or read. */
  datatype State = State(slots: seq<Slot>, dirty: bool, file: Option<seq<FileSlot>>, hit: set<Key>)

  datatype Action = Do(op: Operation) | Save(now: int)

  predicate Hits(slots: seq<Slot>, op: Operation) {
    op.Get? && Find(slots, op.key).Some? && !IsExpired(Find(slots, op.key).value, op.now)
  }

  /** The operations that mark the cache as changed.  A hit, though it re-dates its entry, is none. */
  predicate Dirties(c: Config, strategy: Strategy, slots: seq<Slot>, op: Operation) {
    match op
    case Get(key, now) => Find(slots, key).Some? && IsExpired(Find(slots, key).value, now)
    case Set(_, _, _, _) => true
    case Delete(key, _) => Find(slots, key).Some?
    case CleanUp(_) => Step(c, strategy, slots, op) != slots
  }

  /** A save of an unchanged cache is skipped; one that fails leaves file and mark alone. */
  function Act(c: Config, strategy: Strategy, s: State, a: Action): State {
    match a
    case Do(op) =>
      s.(slots := Step(c, strategy, s.slots, op),
         dirty := s.dirty || Dirties(c, strategy, s.slots, op),
         hit := if Hits(s.slots, op) then s.hit + {op.key} else s.hit)
    case Save(now) =>
      var snapshot := Snapshot(c.codec, s.slots, now);
      if !s.dirty || snapshot.None? then s else State(s.slots, false, snapshot, {})
  }

  function Acts(c: Config, strategy: Strategy, s: State, actions: seq<Action>): State {
    if actions == [] then s
    else Act(c, strategy, Acts(c, strategy, s, actions[..|actions| - 1]), actions[|actions| - 1])
  }

  /** How a manager starts: without a file, or by loading one. */
  datatype Start = NoFile | FileAt(file: seq<FileSlot>, now: int)

  function Begin(k: Codec, start: Start): State {
    match start
    case NoFile => State([], false, None, {})
    case FileAt(file, now) => State(Load(k, file, now), false, Some(file), {})
  }

  /** A file holds parsed JSON under distinct keys. */
  ghost predicate Parsed(k: Codec, start: Start) {
    start.FileAt? ==>
      && DistinctKeys(Content(k, start.file))
      && forall i :: 0 <= i < |start.file| ==> JsonNormal(k, start.file[i].entry.stored.data)
  }

  /** The clock: nothing was read or written after `now`. */
  ghost predicate FileUseUntil(start: Start, actions: seq<Action>, now: int) {
    && (start.FileAt? ==> start.now <= now)
    && forall i :: 0 <= i < |actions| && actions[i].Save? ==> actions[i].now <= now
  }

  /** What the next start brings back. */
  function Restart(k: Codec, s: State, now: int): seq<Slot> {
    if s.file.None? then [] else Load(k, s.file.value, now)
  }

  // ----- How far the cache can be from its file

  /** The slots of all keys but some. */
  function Others(slots: seq<Slot>, hit: set<Key>): seq<Slot> {
    if slots == [] then []
    else (if slots[0].key in hit then [] else [slots[0]]) + Others(slots[1..], hit)
  }

  predicate Redated(e: Entry, f: Entry) {
    && f == e.(lastAccessed := f.lastAccessed, accessCount := f.accessCount)
    && e.accessCount < f.accessCount
  }

  /** `slots` is `base` after hits on the keys in `hit`: those are re-dated, and possibly moved, and the
      others keep entry and order. */
  ghost predicate Behind(base: seq<Slot>, slots: seq<Slot>, hit: set<Key>) {
    && DistinctKeys(base) && DistinctKeys(slots)
    && Others(slots, hit) == Others(base, hit)
    && forall key :: key in hit ==>
         Find(base, key).Some? && Find(slots, key).Some? && Redated(Find(base, key).value, Find(slots, key).value)
  }

  lemma {:induction false} OthersMembers(slots: seq<Slot>, hit: set<Key>)
    ensures forall x :: x in Others(slots, hit) <==> x in slots && x.key !in hit
  {
    if slots != [] {
      OthersMembers(slots[1..], hit);
    }
  }

  lemma {:induction false} OthersNone(slots: seq<Slot>)
    ensures Others(slots, {}) == slots
  {
    if slots != [] {
      OthersNone(slots[1..]);
    }
  }

  lemma OthersCons(x: Slot, rest: seq<Slot>, hit: set<Key>)
    ensures Others([x] + rest, hit) == if x.key in hit then Others(rest, hit) else [x] + Others(rest, hit)
  {
    assert ([x] + rest)[1..] == rest;
    assert [] + Others(rest, hit) == Others(rest, hit);
  }

  lemma {:induction false} OthersTwice(slots: seq<Slot>, hit: set<Key>, key: Key)
    ensures Others(slots, hit + {key}) == Others(Others(slots, hit), {key})
  {
    if slots != [] {
      var x, rest := slots[0], slots[1..];
      assert slots == [x] + rest;
      OthersTwice(rest, hit, key);
      OthersCons(x, rest, hit);
      OthersCons(x, rest, hit + {key});
      OthersCons(x, Others(rest, hit), {key});
    }
  }

  lemma {:induction false} OthersConcat(a: seq<Slot>, b: seq<Slot>, hit: set<Key>)
    ensures Others(a + b, hit) == Others(a, hit) + Others(b, hit)
  {
    if a == [] {
      assert a + b == b;
    } else {
      assert (a + b)[1..] == a[1..] + b;
      OthersConcat(a[1..], b, hit);
    }
  }

  lemma {:induction false} OthersPlace(slots: seq<Slot>, key: Key, entry: Entry, hit: set<Key>)
    requires key in hit
    ensures Others(Remove(slots, key), hit) == Others(slots, hit)
    ensures Others(Assign(slots, key, entry), hit) == Others(slots, hit)
  {
    if slots != [] {
      OthersPlace(slots[1..], key, entry, hit);
      if slots[0].key != key {
        assert Remove(slots, key)[1..] == Remove(slots[1..], key);
        assert Assign(slots, key, entry)[1..] == Assign(slots[1..], key, entry);
      }
    }
  }

  lemma PlacedOthers(strategy: Strategy, slots: seq<Slot>, key: Key, entry: Entry, hit: set<Key>)
    requires key in hit
    ensures Others(Place(strategy, slots, key, entry), hit) == Others(slots, hit)
  {
    PlaceIsAssign(strategy, slots, key, entry);
    OthersPlace(slots, key, entry, hit);
    OthersConcat(Remove(slots, key), [Slot(key, entry)], hit);
  }

  lemma {:induction false} UnexpiredOthers(slots: seq<Slot>, hit: set<Key>, now: int)
    requires forall x :: x in slots && x.key in hit ==> IsExpired(x.entry, now)
    ensures Unexpired(Others(slots, hit), now) == Unexpired(slots, now)
  {
    if slots != [] {
      var x, rest := slots[0], slots[1..];
      assert slots == [x] + rest;
      UnexpiredOthers(rest, hit, now);
      OthersCons(x, rest, hit);
      UnexpiredCons(x, rest, now);
      UnexpiredCons(x, Others(rest, hit), now);
    }
  }

  lemma BehindItself(slots: seq<Slot>)
    requires DistinctKeys(slots)
    ensures Behind(slots, slots, {})
  {
    OthersNone(slots);
  }

  /** One more hit. */
  lemma HitBehind(strategy: Strategy, base: seq<Slot>, slots: seq<Slot>, hit: set<Key>, key: Key, now: int)
    requires Behind(base, slots, hit) && Find(slots, key).Some?
    ensures Behind(base, Place(strategy, slots, key, Touched(Find(slots, key).value, now)), hit + {key})
  {
    var found := Find(slots, key).value;
    var placed := Place(strategy, slots, key, Touched(found, now));
    PlaceContents(strategy, slots, key, Touched(found, now));
    PlacedOthers(strategy, slots, key, Touched(found, now), hit + {key});
    OthersTwice(slots, hit, key);
    OthersTwice(base, hit, key);
    if key !in hit {
      FoundInBase(base, slots, hit, key);
    }
    forall other | other in hit + {key}
      ensures Find(base, other).Some? && Find(placed, other).Some?
      ensures Redated(Find(base, other).value, Find(placed, other).value)
    {
      PlaceRecord(strategy, slots, key, Touched(found, now), other);
    }
  }

  lemma FoundInBase(base: seq<Slot>, slots: seq<Slot>, hit: set<Key>, key: Key)
    requires Behind(base, slots, hit) && Find(slots, key).Some? && key !in hit
    ensures Find(base, key) == Find(slots, key)
  {
    var x := Slot(key, Find(slots, key).value);
    FindMember(slots, key);
    OthersMembers(slots, hit);
    OthersMembers(base, hit);
    assert x in Others(base, hit);
    MemberFound(base, x);
  }

  // ----- What a restart of an unchanged cache restores

  lemma {:induction false} ActsDistinct(c: Config, strategy: Strategy, s: State, actions: seq<Action>)
    requires DistinctKeys(s.slots)
    ensures DistinctKeys(Acts(c, strategy, s, actions).slots)
  {
    if actions != [] {
      var before, a := actions[..|actions| - 1], actions[|actions| - 1];
      ActsDistinct(c, strategy, s, before);
      if a.Do? {
        StepDerives(c, strategy, Acts(c, strategy, s, before).slots, a.op);
      }
    }
  }

  /** An operation that does not mark the cache as changed is a hit or changes nothing. */
  lemma QuietStep(c: Config, strategy: Strategy, slots: seq<Slot>, op: Operation)
    requires !Dirties(c, strategy, slots, op)
    ensures if Hits(slots, op)
            then Step(c, strategy, slots, op)
              == Place(strategy, slots, op.key, Touched(Find(slots, op.key).value, op.now))
            else Step(c, strategy, slots, op) == slots
  {
    if op.Delete? {
      RemoveAbsent(slots, op.key);
    }
  }

  /** What the file of an unchanged cache is worth at `now`: the trip of some `base` that the cache is
      only hits away from. */
  ghost predicate Kept(k: Codec, s: State, base: seq<Slot>, now: int) {
    && Behind(base, s.slots, s.hit)
    && Restart(k, s, now) == Reload(k, Unexpired(base, now))
    && forall x :: x in Unexpired(base, now) ==> Writable(k, x)
  }

  lemma {:induction false} ParsedStorable(k: Codec, file: seq<FileSlot>)
    requires forall i :: 0 <= i < |file| ==> JsonNormal(k, file[i].entry.stored.data)
    ensures forall x :: x in Content(k, file) ==> Storable(k, x)
  {
    if file != [] {
      assert forall i :: 0 <= i < |file[1..]| ==> file[1..][i] == file[i + 1];
      ParsedStorable(k, file[1..]);
    }
  }

  lemma BeginKept(k: Codec, start: Start, now: int)
    requires Inverse(k) && Parsed(k, start) && (start.FileAt? ==> start.now <= now)
    ensures Kept(k, Begin(k, start), Begin(k, start).slots, now)
  {
    var s := Begin(k, start);
    if start.FileAt? {
      ParsedStorable(k, start.file);
      UnexpiredKeeps(Content(k, start.file), start.now);
      UnexpiredTwice(Content(k, start.file), start.now, now);
      UnexpiredMembers(s.slots, now);
      forall x | x in s.slots
        ensures Storable(k, x) && Writable(k, x)
      {
        ReloadedShape(k, x);
      }
      ReloadIdentityIff(k, Unexpired(s.slots, now));
    }
    BehindItself(s.slots);
  }

  lemma SaveKept(c: Config, strategy: Strategy, s: State, saved: int, now: int)
    requires Inverse(c.codec) && saved <= now && DistinctKeys(s.slots)
    requires s.dirty && Snapshot(c.codec, s.slots, saved).Some?
    ensures Kept(c.codec, Act(c, strategy, s, Save(saved)), s.slots, now)
  {
    SnapshotContent(c.codec, s.slots, saved);
    UnexpiredReload(c.codec, Unexpired(s.slots, saved), now);
    UnexpiredTwice(s.slots, saved, now);
    UnexpiredMembers(s.slots, saved);
    UnexpiredMembers(s.slots, now);
    BehindItself(s.slots);
  }

  lemma DoKept(c: Config, strategy: Strategy, s: State, op: Operation, base: seq<Slot>, now: int)
    requires Kept(c.codec, s, base, now) && !Dirties(c, strategy, s.slots, op)
    ensures Kept(c.codec, Act(c, strategy, s, Do(op)), base, now)
  {
    QuietStep(c, strategy, s.slots, op);
    if Hits(s.slots, op) {
      HitBehind(strategy, base, s.slots, s.hit, op.key, op.now);
    }
  }

  lemma {:induction false} CleanIsKept(c: Config, strategy: Strategy, start: Start, actions: seq<Action>, now: int)
      returns (base: seq<Slot>)
    requires Inverse(c.codec) && Parsed(c.codec, start) && FileUseUntil(start, actions, now)
    ensures var s := Acts(c, strategy, Begin(c.codec, start), actions);
            !s.dirty ==> Kept(c.codec, s, base, now)
  {
    base := Begin(c.codec, start).slots;
    BeginKept(c.codec, start, now);
    if actions != [] {
      var before, a := actions[..|actions| - 1], actions[|actions| - 1];
      var s := Acts(c, strategy, Begin(c.codec, start), before);
      base := CleanIsKept(c, strategy, start, before, now);
      BeginDistinct(c.codec, start);
      ActsDistinct(c, strategy, Begin(c.codec, start), before);
      if a.Do? && !s.dirty && !Dirties(c, strategy, s.slots, a.op) {
        DoKept(c, strategy, s, a.op, base, now);
      } else if a.Save? && s.dirty && Snapshot(c.codec, s.slots, a.now).Some? {
        SaveKept(c, strategy, s, a.now, now);
        base := s.slots;
      }
    }
  }

  lemma BeginDistinct(k: Codec, start: Start)
    requires Parsed(k, start)
    ensures DistinctKeys(Begin(k, start).slots)
  {
    if start.FileAt? {
      UnexpiredKeeps(Content(k, start.file), start.now);
    }
  }

  lemma {:induction false} ReloadMembers(k: Codec, slots: seq<Slot>)
    ensures forall x :: x in slots ==> Reloaded(k, x) in Reload(k, slots)
    ensures forall y :: y in Reload(k, slots) ==> exists x :: x in slots && y == Reloaded(k, x)
  {
    if slots != [] {
      ReloadMembers(k, slots[1..]);
      assert slots == [slots[0]] + slots[1..];
    }
  }

  /** What an entry of the cache was when the file was last written or read. */
  lemma BaseOf(base: seq<Slot>, slots: seq<Slot>, hit: set<Key>, x: Slot) returns (y: Slot)
    requires Behind(base, slots, hit) && x in slots
    ensures y in base && y.key == x.key
    ensures if x.key in hit then Redated(y.entry, x.entry) else y == x
  {
    MemberFound(slots, x);
    FindMember(base, x.key);
    if x.key in hit {
      y := Slot(x.key, Find(base, x.key).value);
    } else {
      FoundInBase(base, slots, hit, x.key);
      y := x;
    }
  }

  /** An entry that comes back as it is was not hit, and is bytes or JSON-normal. */
  lemma RestoredEntry(k: Codec, s: State, base: seq<Slot>, now: int, x: Slot)
    requires Inverse(k) && Kept(k, s, base, now)
    requires Restart(k, s, now) == Unexpired(s.slots, now)
    requires x in s.slots && !IsExpired(x.entry, now)
    ensures Storable(k, x) && x.key !in s.hit
  {
    var y := BaseOf(base, s.slots, s.hit, x);
    UnexpiredMembers(base, now);
    UnexpiredMembers(s.slots, now);
    assert y in Unexpired(base, now);
    ReloadMembers(k, Unexpired(base, now));
    ReloadedShape(k, y);
    assert Reloaded(k, y) in s.slots;
    MemberFound(s.slots, Reloaded(k, y));
    MemberFound(s.slots, x);
  }

  lemma NothingHitAlive(base: seq<Slot>, slots: seq<Slot>, hit: set<Key>, now: int)
    requires Behind(base, slots, hit)
    requires forall x :: x in slots && x.key in hit ==> IsExpired(x.entry, now)
    ensures Unexpired(base, now) == Unexpired(slots, now)
  {
    forall y | y in base && y.key in hit
      ensures IsExpired(y.entry, now)
    {
      MemberFound(base, y);
      FindMember(slots, y.key);
      assert Slot(y.key, Find(slots, y.key).value) in slots;
    }
    UnexpiredOthers(base, hit, now);
    UnexpiredOthers(slots, hit, now);
  }

  /** From any start, after any operations and saves, a cache that is not marked as changed comes back
      whole, in order, if and only if no key hit since the file was last written or read is still alive
      then, and every entry still alive is bytes or JSON-normal: a save after nothing but hits is skipped,
      so that the file keeps the old dates, counts and order. */
  lemma RestartIff(c: Config, strategy: Strategy, start: Start, actions: seq<Action>, now: int)
    requires Inverse(c.codec) && Parsed(c.codec, start) && FileUseUntil(start, actions, now)
    requires !Acts(c, strategy, Begin(c.codec, start), actions).dirty
    ensures var s := Acts(c, strategy, Begin(c.codec, start), actions);
            Restart(c.codec, s, now) == Unexpired(s.slots, now)
            <==> forall x :: x in s.slots && !IsExpired(x.entry, now) ==>
                   Storable(c.codec, x) && x.key !in s.hit
  {
    var k, s := c.codec, Acts(c, strategy, Begin(c.codec, start), actions);
    var base := CleanIsKept(c, strategy, start, actions, now);
    if Restart(k, s, now) == Unexpired(s.slots, now) {
      forall x | x in s.slots && !IsExpired(x.entry, now)
        ensures Storable(k, x) && x.key !in s.hit
      {
        RestoredEntry(k, s, base, now, x);
      }
    }
    if forall x :: x in s.slots && !IsExpired(x.entry, now) ==> Storable(k, x) && x.key !in s.hit {
      NothingHitAlive(base, s.slots, s.hit, now);
      UnexpiredMembers(s.slots, now);
      ReloadIdentityIff(k, Unexpired(base, now));
    }
  }

  /** Only dates and counts of hit keys are at stake: in any case the same keys come back, with the same
      time of creation and time to live, and with the same stored value where that is storable. */
  lemma RestartKeepsValues(c: Config, strategy: Strategy, start: Start, actions: seq<Action>, now: int)
    requires Inverse(c.codec) && Parsed(c.codec, start) && FileUseUntil(start, actions, now)
    requires !Acts(c, strategy, Begin(c.codec, start), actions).dirty
    ensures var s := Acts(c, strategy, Begin(c.codec, start), actions);
            && DistinctKeys(Restart(c.codec, s, now))
            && (forall x :: x in Unexpired(s.slots, now) ==>
                  exists y :: y in Restart(c.codec, s, now) && SameValue(c.codec, x, y))
            && (forall y :: y in Restart(c.codec, s, now) ==>
                  exists x :: x in Unexpired(s.slots, now) && SameValue(c.codec, x, y))
  {
    var k, s := c.codec, Acts(c, strategy, Begin(c.codec, start), actions);
    var base := CleanIsKept(c, strategy, start, actions, now);
    UnexpiredMembers(s.slots, now);
    UnexpiredMembers(base, now);
    ReloadMembers(k, Unexpired(base, now));
    UnexpiredKeeps(base, now);
    ReloadDistinct(k, Unexpired(base, now));
    forall x | x in Unexpired(s.slots, now)
      ensures exists y :: y in Restart(k, s, now) && SameValue(k, x, y)
    {
      var z := BaseOf(base, s.slots, s.hit, x);
      ReloadedShape(k, z);
      assert z in Unexpired(base, now);
      assert SameValue(k, x, Reloaded(k, z));
    }
    forall y | y in Restart(k, s, now)
      ensures exists x :: x in Unexpired(s.slots, now) && SameValue(k, x, y)
    {
      var z :| z in Unexpired(base, now) && y == Reloaded(k, z);
      var x := NowOf(base, s.slots, s.hit, z);
      ReloadedShape(k, z);
      assert SameValue(k, x, y);
    }
  }

  predicate SameValue(k: Codec, x: Slot, y: Slot) {
    && y.key == x.key && y.entry.createdAt == x.entry.createdAt && y.entry.ttl == x.entry.ttl
    && y.entry.stored.kind == x.entry.stored.kind
    && (Storable(k, x) ==> y.entry.stored == x.entry.stored)
  }

  /** What has become of an entry since the file was last written or read. */
  lemma NowOf(base: seq<Slot>, slots: seq<Slot>, hit: set<Key>, z: Slot) returns (x: Slot)
    requires Behind(base, slots, hit) && z in base
    ensures x in slots && x.key == z.key
    ensures if z.key in hit then Redated(z.entry, x.entry) else x == z
  {
    MemberFound(base, z);
    if z.key in hit {
      FindMember(slots, z.key);
      x := Slot(z.key, Find(slots, z.key).value);
    } else {
      OthersMembers(slots, hit);
      OthersMembers(base, hit);
      assert z in Others(slots, hit);
      x := z;
    }
  }

  lemma ReloadDistinct(k: Codec, slots: seq<Slot>)
    requires Inverse(k) && DistinctKeys(slots)
    ensures DistinctKeys(Reload(k, slots))
  {
    forall i, j | 0 <= i < j < |slots|
      ensures Reload(k, slots)[i].key != Reload(k, slots)[j].key
    {
      ReloadAt(k, slots, i);
      ReloadAt(k, slots, j);
      ReloadedShape(k, slots[i]);
      ReloadedShape(k, slots[j]);
    }
  }

  lemma {:induction false} ReloadAt(k: Codec, slots: seq<Slot>, i: nat)
    requires i < |slots|
    ensures Reload(k, slots)[i] == Reloaded(k, slots[i])
  {
    if i > 0 {
      ReloadAt(k, slots[1..], i - 1);
    }
  }

  // ----- Values across a restart

  function OpsOf(actions: seq<Action>): seq<Operation> {
    if actions == [] then []
    else OpsOf(actions[..|actions| - 1])
         + (if actions[|actions| - 1].Do? then [actions[|actions| - 1].op] else [])
  }

  /** Saving never disturbs the cache itself. */
  lemma {:induction false} ActsRun(c: Config, strategy: Strategy, s: State, actions: seq<Action>)
    ensures Acts(c, strategy, s, actions).slots == Run(c, strategy, s.slots, OpsOf(actions))
  {
    if actions != [] {
      var before, a := actions[..|actions| - 1], actions[|actions| - 1];
      ActsRun(c, strategy, s, before);
      if a.Do? {
        var ops := OpsOf(before) + [a.op];
        assert ops[..|ops| - 1] == OpsOf(before);
      } else {
        assert OpsOf(before) + [] == OpsOf(before);
      }
    }
  }

  /** What a restart brings back for a key is what the cache last stored for it. */
  lemma RestartStored(
      c: Config, strategy: Strategy, start: Start, actions: seq<Action>, now: int, key: Key)
    requires Inverse(c.codec) && Parsed(c.codec, start) && FileUseUntil(start, actions, now)
    requires !Acts(c, strategy, Begin(c.codec, start), actions).dirty
    requires Find(Restart(c.codec, Acts(c, strategy, Begin(c.codec, start), actions), now), key).Some?
    ensures var s := Acts(c, strategy, Begin(c.codec, start), actions);
            var found := Find(Unexpired(s.slots, now), key);
            && found.Some? && Slot(key, found.value) in s.slots
            && (Storable(c.codec, Slot(key, found.value)) ==>
                  Find(Restart(c.codec, s, now), key).value.stored == found.value.stored)
  {
    var s := Acts(c, strategy, Begin(c.codec, start), actions);
    var alive, restarted := Unexpired(s.slots, now), Restart(c.codec, s, now);
    BeginDistinct(c.codec, start);
    ActsDistinct(c, strategy, Begin(c.codec, start), actions);
    UnexpiredKeeps(s.slots, now);
    RestartKeepsValues(c, strategy, start, actions, now);
    FindMember(restarted, key);
    var y := Slot(key, Find(restarted, key).value);
    var x :| x in alive && SameValue(c.codec, x, y);
    MemberFound(alive, x);
  }

  /** A restart in between changes nothing for values: a hit after it returns the last value set for the
      key before or after, exactly when the codec brings that value back, if what the file had to keep for
      the key was storable; a key that was never set returns what the very first load brought. */
  lemma HitAcrossRestartIff(
      c: Config, strategy: Strategy, start: Start, actions: seq<Action>, loadedAt: int, after: seq<Operation>,
      key: Key, now: int)
    requires Inverse(c.codec) && Parsed(c.codec, start) && FileUseUntil(start, actions, loadedAt)
    requires !Acts(c, strategy, Begin(c.codec, start), actions).dirty
    requires var s := Acts(c, strategy, Begin(c.codec, start), actions);
             && (forall x :: x in s.slots && x.key == key ==> Storable(c.codec, x))
             && Answer(c, Run(c, strategy, Restart(c.codec, s, loadedAt), after), key, now).Some?
    ensures var restarted := Restart(c.codec, Acts(c, strategy, Begin(c.codec, start), actions), loadedAt);
            var answer := Answer(c, Run(c, strategy, restarted, after), key, now);
            match LastSet(OpsOf(actions) + after, key)
            case Some(value) => answer == Some(value) <==> Survives(c.codec, c.compression, c.threshold, value)
            case None =>
              && Find(Begin(c.codec, start).slots, key).Some?
              && answer == Some(Decompress(c.codec, Find(Begin(c.codec, start).slots, key).value.stored))
  {
    var first := Begin(c.codec, start);
    var s := Acts(c, strategy, first, actions);
    var restarted := Restart(c.codec, s, loadedAt);
    RestartKeepsValues(c, strategy, start, actions, loadedAt);
    HitReturnsLastSetIff(c, strategy, restarted, after, key, now);
    LastSetConcat(OpsOf(actions), after, key);
    if LastSet(after, key).None? {
      RestartStored(c, strategy, start, actions, loadedAt, key);
      BeginDistinct(c.codec, start);
      ActsRun(c, strategy, first, actions);
      RunHoldsLast(c, strategy, first.slots, OpsOf(actions));
      var x := Slot(key, Find(Unexpired(s.slots, loadedAt), key).value);
      assert x in s.slots;
      if LastSet(OpsOf(actions), key).Some? {
        RoundTripIff(c.codec, c.compression, c.threshold, LastSet(OpsOf(actions), key).value);
      }
    }
  }

  // ----- Where saving falls short

  lemma ActsExtend(c: Config, strategy: Strategy, s: State, actions: seq<Action>, a: Action)
    ensures Acts(c, strategy, s, actions + [a]) == Act(c, strategy, Acts(c, strategy, s, actions), a)
  {
    assert (actions + [a])[..|actions|] == actions;
  }

  lemma HitMarks(c: Config, strategy: Strategy, s: State, key: Key, now: int, later: int)
    requires !s.dirty && DistinctKeys(s.slots) && now <= later
    requires Find(s.slots, key).Some? && !IsExpired(Find(s.slots, key).value, later)
    ensures var n := Act(c, strategy, Act(c, strategy, s, Do(Get(key, now))), Save(later));
            && !n.dirty && key in n.hit
            && exists x :: x in n.slots && x.key == key && !IsExpired(x.entry, later)
  {
    var entry := Touched(Find(s.slots, key).value, now);
    PlaceContents(strategy, s.slots, key, entry);
    assert Slot(key, entry) in Place(strategy, s.slots, key, entry);
    assert !IsExpired(entry, later) && !IsExpired(Find(s.slots, key).value, now);
  }

  lemma FileUseExtends(start: Start, actions: seq<Action>, now: int, op: Operation, later: int)
    requires FileUseUntil(start, actions, now) && now <= later
    ensures FileUseUntil(start, actions + [Do(op), Save(later)], later)
  {
    var longer := actions + [Do(op), Save(later)];
    forall i | 0 <= i < |longer| && longer[i].Save?
      ensures longer[i].now <= later
    {
      if i < |actions| {
        assert longer[i] == actions[i];
      }
    }
  }

  lemma TwoMore(actions: seq<Action>, a: Action, b: Action)
    ensures actions + [a, b] == actions + [a] + [b]
  {
  }

  lemma HitAndSave(c: Config, strategy: Strategy, s: State, actions: seq<Action>, op: Operation, later: int)
    ensures Acts(c, strategy, s, actions + [Do(op), Save(later)])
         == Act(c, strategy, Act(c, strategy, Acts(c, strategy, s, actions), Do(op)), Save(later))
  {
    TwoMore(actions, Do(op), Save(later));
    ActsExtend(c, strategy, s, actions + [Do(op)], Save(later));
    ActsExtend(c, strategy, s, actions, Do(op));
  }

  /** A hit is forgotten although a save follows it: after any start and any actions that leave the cache
      unmarked, hit a key that is alive and save.  The restart does not give the cache back. */
  lemma HitIsForgotten(
      c: Config, strategy: Strategy, start: Start, actions: seq<Action>, key: Key, now: int, later: int)
    requires Inverse(c.codec) && Parsed(c.codec, start) && FileUseUntil(start, actions, now) && now <= later
    requires !Acts(c, strategy, Begin(c.codec, start), actions).dirty
    requires var found := Find(Acts(c, strategy, Begin(c.codec, start), actions).slots, key);
             found.Some? && !IsExpired(found.value, later)
    ensures var s := Acts(c, strategy, Begin(c.codec, start), actions + [Do(Get(key, now)), Save(later)]);
            !s.dirty && Restart(c.codec, s, later) != Unexpired(s.slots, later)
  {
    var first := Begin(c.codec, start);
    HitAndSave(c, strategy, first, actions, Get(key, now), later);
    FileUseExtends(start, actions, now, Get(key, now), later);
    BeginDistinct(c.codec, start);
    ActsDistinct(c, strategy, first, actions);
    HitMarks(c, strategy, Acts(c, strategy, first, actions), key, now, later);
    RestartIff(c, strategy, start, actions + [Do(Get(key, now)), Save(later)], later);
  }

  /** A save while other operations run: the snapshot is taken first, the mark cleared when the file has
      been written. */
  function SaveDuring(c: Config, strategy: Strategy, s: State, now: int, meanwhile: seq<Action>): State {
    var snapshot := Snapshot(c.codec, s.slots, now);
    if !s.dirty || snapshot.None? then Acts(c, strategy, s, meanwhile)
    else Acts(c, strategy, State(s.slots, false, snapshot, {}), meanwhile).(dirty := false)
  }

  /** Such a save is as good as one before these operations exactly if it fails or has nothing to do, or
      none of them marks the cache as changed. */
  lemma SaveDuringIff(c: Config, strategy: Strategy, s: State, now: int, meanwhile: seq<Action>)
    requires forall i :: 0 <= i < |meanwhile| ==> meanwhile[i].Do?
    ensures var atOnce := Acts(c, strategy, Act(c, strategy, s, Save(now)), meanwhile);
            SaveDuring(c, strategy, s, now, meanwhile) == atOnce
            <==> !s.dirty || Snapshot(c.codec, s.slots, now).None? || !atOnce.dirty
  {
  }

  lemma SnapshotAges(k: Codec, slots: seq<Slot>, saved: int, loadedAt: int, now: int)
    requires Inverse(k) && Snapshot(k, slots, saved).Some?
    requires forall x :: x in slots ==> x.entry.createdAt < now
    ensures forall y :: y in Load(k, Snapshot(k, slots, saved).value, loadedAt) ==> y.entry.createdAt < now
  {
    var alive := Unexpired(slots, saved);
    SnapshotContent(k, slots, saved);
    UnexpiredMembers(slots, saved);
    UnexpiredMembers(Reload(k, alive), loadedAt);
    ReloadMembers(k, alive);
    forall y | y in Reload(k, alive)
      ensures y.entry.createdAt < now
    {
      var x :| x in alive && y == Reloaded(k, x);
      ReloadedShape(k, x);
    }
  }

  /** A write during a save is lost: the cache counts as saved, and no restart brings the value back. */
  lemma WriteDuringSaveIsLost(
      c: Config, strategy: Strategy, s: State, saved: int, key: Key, value: Data, ttl: Option<int>, now: int,
      loadedAt: int)
    requires Inverse(c.codec) && s.dirty && Snapshot(c.codec, s.slots, saved).Some?
    requires forall x :: x in s.slots ==> x.entry.createdAt < now
    ensures var n := SaveDuring(c, strategy, s, saved, [Do(Set(key, value, ttl, now))]);
            !n.dirty && forall y :: y in Restart(c.codec, n, loadedAt) ==> y.entry.createdAt < now
  {
    var written := State(s.slots, false, Snapshot(c.codec, s.slots, saved), {});
    ActsExtend(c, strategy, written, [], Do(Set(key, value, ttl, now)));
    assert [] + [Do(Set(key, value, ttl, now))] == [Do(Set(key, value, ttl, now))];
    SnapshotAges(c.codec, s.slots, saved, loadedAt, now);
  }

  // ----- The cache object

  lemma OthersOne(slots: seq<Slot>, key: Key)
    requires DistinctKeys(slots)
    ensures Others(slots, {key}) == Remove(slots, key)
  {
    if slots != [] {
      var x, rest := slots[0], slots[1..];
      assert slots == [x] + rest;
      OthersCons(x, rest, {key});
      if x.key == key {
        OthersOfAbsent(rest, {key});
      } else {
        OthersOne(rest, key);
      }
    }
  }

  lemma {:induction false} OthersOfAbsent(slots: seq<Slot>, keys: set<Key>)
    requires forall i :: 0 <= i < |slots| ==> slots[i].key !in keys
    ensures Others(slots, keys) == slots
  {
    if slots != [] {
      assert forall i :: 0 <= i < |slots[1..]| ==> slots[1..][i] == slots[i + 1];
      OthersOfAbsent(slots[1..], keys);
    }
  }

  lemma {:induction false} OthersDistinct(slots: seq<Slot>, keys: set<Key>)
    requires DistinctKeys(slots)
    ensures DistinctKeys(Others(slots, keys))
  {
    if slots != [] {
      var rest := Others(slots[1..], keys);
      OthersDistinct(slots[1..], keys);
      OthersMembers(slots[1..], keys);
      forall j | 0 <= j < |rest|
        ensures rest[j].key != slots[0].key
      {
        assert rest[j] in slots[1..];
      }
    }
  }

  lemma {:induction false} OthersUnexpired(slots: seq<Slot>, expired: set<Key>, now: int)
    requires forall x :: x in slots ==> (x.key in expired <==> IsExpired(x.entry, now))
    ensures Others(slots, expired) == Unexpired(slots, now)
  {
    if slots != [] {
      OthersUnexpired(slots[1..], expired, now);
    }
  }

  /** The keys of the expired entries, in order. */
  function ExpiredKeys(slots: seq<Slot>, now: int): seq<Key> {
    if slots == [] then []
    else ExpiredKeys(slots[..|slots| - 1], now)
         + (if IsExpired(slots[|slots| - 1].entry, now) then [slots[|slots| - 1].key] else [])
  }

  function KeySet(keys: seq<Key>): set<Key> { set key | key in keys }

  lemma {:induction false} ExpiredKeysMembers(slots: seq<Slot>, now: int)
    requires DistinctKeys(slots)
    ensures forall x :: x in slots ==> (x.key in ExpiredKeys(slots, now) <==> IsExpired(x.entry, now))
    ensures forall key :: key in ExpiredKeys(slots, now) ==> exists x :: x in slots && x.key == key
  {
    if slots != [] {
      var before, last := slots[..|slots| - 1], slots[|slots| - 1];
      assert slots == before + [last];
      ExpiredKeysMembers(before, now);
      forall x | x in before
        ensures x.key != last.key
      {
        var i :| 0 <= i < |before| && before[i] == x;
        assert slots[i] == x;
      }
    }
  }

  lemma AllUnexpired(slots: seq<Slot>, now: int)
    requires DistinctKeys(slots) && ExpiredKeys(slots, now) == []
    ensures Unexpired(slots, now) == slots
  {
    ExpiredKeysMembers(slots, now);
    OthersUnexpired(slots, {}, now);
    OthersNone(slots);
  }

  lemma SomeExpired(slots: seq<Slot>, now: int)
    requires DistinctKeys(slots) && ExpiredKeys(slots, now) != []
    ensures Unexpired(slots, now) != slots
  {
    ExpiredKeysMembers(slots, now);
    UnexpiredMembers(slots, now);
    var key := ExpiredKeys(slots, now)[0];
    assert key in ExpiredKeys(slots, now);
    var x :| x in slots && x.key == key;
    assert x !in Unexpired(slots, now);
  }

  lemma {:induction false} ContentExtends(k: Codec, file: seq<FileSlot>, f: FileSlot)
    ensures Content(k, file + [f]) == Content(k, file) + [LoadEntry(k, f)]
  {
    if file == [] {
      assert [] + [f] == [f];
    } else {
      assert (file + [f])[1..] == file[1..] + [f];
      ContentExtends(k, file[1..], f);
    }
  }

  lemma {:induction false} UnexpiredExtends(slots: seq<Slot>, x: Slot, now: int)
    ensures Unexpired(slots + [x], now) == Unexpired(slots, now) + (if IsExpired(x.entry, now) then [] else [x])
  {
    if slots == [] {
      assert [] + [x] == [x];
    } else {
      assert (slots + [x])[1..] == slots[1..] + [x];
      UnexpiredExtends(slots[1..], x, now);
    }
  }

  lemma {:induction false} AssignNew(slots: seq<Slot>, x: Slot)
    requires forall i :: 0 <= i < |slots| ==> slots[i].key != x.key
    ensures Assign(slots, x.key, x.entry) == slots + [x]
  {
    if slots != [] {
      assert forall i :: 0 <= i < |slots[1..]| ==> slots[1..][i] == slots[i + 1];
      AssignNew(slots[1..], x);
    }
  }

  /** Reading one more entry of a file: it goes to the end of what has been loaded. */
  lemma LoadNext(k: Codec, file: seq<FileSlot>, i: nat, now: int)
    requires i < |file| && DistinctKeys(Content(k, file))
    ensures var x := LoadEntry(k, file[i]);
            Load(k, file[..i + 1], now)
            == if IsExpired(x.entry, now) then Load(k, file[..i], now)
               else Assign(Load(k, file[..i], now), x.key, x.entry)
  {
    var x, part := LoadEntry(k, file[i]), Content(k, file[..i]);
    assert file[..i + 1] == file[..i] + [file[i]];
    ContentExtends(k, file[..i], file[i]);
    UnexpiredExtends(part, x, now);
    ContentPrefix(k, file, i);
    UnexpiredMembers(part, now);
    forall j | 0 <= j < |Unexpired(part, now)|
      ensures Unexpired(part, now)[j].key != x.key
    {
      assert Unexpired(part, now)[j] in part;
    }
    AssignNew(Unexpired(part, now), x);
  }

  lemma {:induction false} ContentPrefix(k: Codec, file: seq<FileSlot>, i: nat)
    requires i < |file| && DistinctKeys(Content(k, file))
    ensures forall x :: x in Content(k, file[..i]) ==> x.key != LoadEntry(k, file[i]).key
  {
    forall x | x in Content(k, file[..i])
      ensures x.key != LoadEntry(k, file[i]).key
    {
      var j :| 0 <= j < i && Content(k, file[..i])[j] == x;
      ContentAt(k, file[..i], j);
      ContentAt(k, file, j);
      ContentAt(k, file, i);
    }
  }

  lemma {:induction false} ContentAt(k: Codec, file: seq<FileSlot>, i: nat)
    requires i < |file|
    ensures Content(k, file)[i] == LoadEntry(k, file[i])
  {
    if i > 0 {
      ContentAt(k, file[1..], i - 1);
    }
  }

  class CacheManager {
    const config: Config
    const strategy: Strategy
    var slots: seq<Slot>
    var hits: nat
    var misses: nat
    var sets: nat
    var evictions: nat
    var deletes: nat
    var dirty: bool

    var file: Option<seq<FileSlot>>
    ghost var hit: set<Key>

    ghost function View(): State
      reads this
    {
      State(slots, dirty, file, hit)
    }

    constructor (c: Config, s: Strategy, existing: Option<seq<FileSlot>>)
      ensures config == c && strategy == s && View() == State([], false, existing, {})
      ensures hits == misses == sets == evictions == deletes == 0
    {
      config, strategy, slots, dirty, file, hit := c, s, [], false, existing, {};
      hits, misses, sets, evictions, deletes := 0, 0, 0, 0, 0;
    }

    method GetValue(key: Key, now: int) returns (answer: Option<Data>)
      modifies this
      ensures View() == Act(config, strategy, old(View()), Do(Get(key, now)))
      ensures answer == Answer(config, old(slots), key, now)
      ensures answer.Some? ==> dirty == old(dirty)
      ensures hits + misses == old(hits + misses) + 1 && (answer.Some? <==> hits == old(hits) + 1)
      ensures sets == old(sets) && deletes == old(deletes)
      ensures evictions - old(evictions) == if slots != old(slots) && answer.None? then 1 else 0
    {
      var found := Find(slots, key);
      if found.None? {
        misses := misses + 1;
        return None;
      }
      if IsExpired(found.value, now) {
        FindRemoveShorter(slots, key);
        slots := Remove(slots, key);
        misses := misses + 1;
        evictions := evictions + 1;
        dirty := true;
        return None;
      }
      slots := Assign(slots, key, Touched(found.value, now));
      hit := hit + {key};
      hits := hits + 1;
      if strategy.Lru? {
        slots := MoveToEnd(slots, key);
      }
      answer := Some(Decompress(config.codec, found.value.stored));
    }

    method SetValue(key: Key, value: Data, ttl: Option<int>, now: int)
      modifies this
      ensures View() == Act(config, strategy, old(View()), Do(Set(key, value, ttl, now)))
      ensures sets == old(sets) + 1
      ensures var placed := Place(strategy, old(slots), key, NewEntry(config, value, ttl, now));
              evictions == old(evictions)
                           + (if |placed| <= config.maxSize then 0
                              else if config.maxSize == 0 then |placed| else |placed| - config.maxSize + 1)
      ensures hits == old(hits) && misses == old(misses) && deletes == old(deletes)
    {
      slots := Assign(slots, key, NewEntry(config, value, ttl, now));
      sets := sets + 1;
      dirty := true;
      if strategy.Lru? {
        slots := MoveToEnd(slots, key);
      }
      EvictIfNeeded();
    }

    method EvictIfNeeded()
      modifies this`slots, this`evictions
      ensures slots == Evict(strategy, old(slots), config.maxSize)
      ensures evictions == old(evictions) + EvictCount(|old(slots)|, config.maxSize)
    {
      if |slots| <= config.maxSize {
        return;
      }
      var count := |slots| - config.maxSize + 1;
      var i := 0;
      if strategy.Lru? {
        ghost var before := slots;
        while i < count
          invariant 0 <= i <= count
          invariant slots == before[Min(i, |before|)..]
          invariant evictions == old(evictions) + Min(i, |before|)
        {
          if slots != [] {
            slots := slots[1..];
            evictions := evictions + 1;
          }
          i := i + 1;
        }
      } else {
        var items := ByAccess(slots);
        while i < Min(count, |items|)
          invariant 0 <= i <= Min(count, |items|)
          invariant RemoveAll(slots, items[i..Min(count, |items|)])
                 == RemoveAll(old(slots), items[..Min(count, |items|)])
          invariant evictions == old(evictions) + i
        {
          assert items[i..Min(count, |items|)][1..] == items[i + 1..Min(count, |items|)];
          slots := Remove(slots, items[i].key);
          evictions := evictions + 1;
          i := i + 1;
        }
      }
    }

    method DeleteKey(key: Key, now: int) returns (removed: bool)
      modifies this
      ensures View() == Act(config, strategy, old(View()), Do(Delete(key, now)))
      ensures removed <==> Find(old(slots), key).Some?
      ensures deletes == old(deletes) + (if removed then 1 else 0)
    {
      removed := Find(slots, key).Some?;
      if removed {
        slots := Remove(slots, key);
        deletes := deletes + 1;
        dirty := true;
      } else {
        RemoveAbsent(slots, key);
      }
    }

    /** The periodic clean-up, which collects the expired keys first and then deletes them. */
    method CleanUpExpired(now: int)
      requires DistinctKeys(slots)
      modifies this
      ensures View() == Act(config, strategy, old(View()), Do(CleanUp(now)))
      ensures evictions == old(evictions) + (if strategy.Ttl? || config.defaultTtl.Some?
                                             then |ExpiredKeys(old(slots), now)| else 0)
    {
      if !strategy.Ttl? && config.defaultTtl.None? {
        return;
      }
      var expired := CollectExpired(now);
      ExpiredKeysMembers(slots, now);
      OthersUnexpired(slots, KeySet(expired), now);
      DeleteAll(expired);
      if expired != [] {
        SomeExpired(old(slots), now);
        dirty := true;
      } else {
        AllUnexpired(old(slots), now);
      }
    }

    method CollectExpired(now: int) returns (expired: seq<Key>)
      ensures expired == ExpiredKeys(slots, now)
    {
      expired := [];
      var i := 0;
      while i < |slots|
        invariant 0 <= i <= |slots| && expired == ExpiredKeys(slots[..i], now)
      {
        assert slots[..i + 1][..i] == slots[..i];
        if IsExpired(slots[i].entry, now) {
          expired := expired + [slots[i].key];
        }
        i := i + 1;
      }
      assert slots[..i] == slots;
    }

    method DeleteAll(keys: seq<Key>)
      requires DistinctKeys(slots)
      modifies this`slots, this`evictions
      ensures slots == Others(old(slots), KeySet(keys)) && evictions == old(evictions) + |keys|
    {
      var i := 0;
      OthersNone(slots);
      assert KeySet(keys[..0]) == {};
      while i < |keys|
        invariant 0 <= i <= |keys| && evictions == old(evictions) + i
        invariant slots == Others(old(slots), KeySet(keys[..i]))
      {
        OthersTwice(old(slots), KeySet(keys[..i]), keys[i]);
        OthersDistinct(old(slots), KeySet(keys[..i]));
        OthersOne(slots, keys[i]);
        assert KeySet(keys[..i + 1]) == KeySet(keys[..i]) + {keys[i]};
        slots := Remove(slots, keys[i]);
        evictions := evictions + 1;
        i := i + 1;
      }
      assert keys[..i] == keys;
    }

    /** `_save_cache`; false stands for the exception of an entry that cannot be written. */
    method SaveCache(now: int) returns (ok: bool)
      modifies this
      ensures View() == Act(config, strategy, old(View()), Save(now))
      ensures ok <==> !old(dirty) || Snapshot(config.codec, old(slots), now).Some?
    {
      if !dirty {
        return true;
      }
      var entries := [];
      var i := 0;
      ghost var whole := Snapshot(config.codec, slots, now);
      while i < |slots|
        invariant 0 <= i <= |slots|
        invariant whole.Some? <==> Snapshot(config.codec, slots[i..], now).Some?
        invariant whole.Some? ==> whole.value == entries + Snapshot(config.codec, slots[i..], now).value
      {
        assert slots[i..][0] == slots[i] && slots[i..][1..] == slots[i + 1..];
        if !IsExpired(slots[i].entry, now) {
          var written := ThroughJson(config.codec, SaveEntry(config.codec, slots[i]));
          if written.None? {
            return false;
          }
          entries := entries + [written.value];
        }
        i := i + 1;
      }
      assert slots[i..] == [] && entries + [] == entries;
      file, dirty, hit := Some(entries), false, {};
      ok := true;
    }

    /** `_load_cache`, into the empty cache of a new manager. */
    method LoadCache(now: int)
      requires slots == []
      requires file.Some? ==> DistinctKeys(Content(config.codec, file.value))
      modifies this
      ensures View() == old(View()).(slots := Restart(config.codec, old(View()), now))
    {
      if file.None? {
        return;
      }
      var entries := file.value;
      var i := 0;
      while i < |entries|
        invariant 0 <= i <= |entries|
        invariant View() == old(View()).(slots := Load(config.codec, entries[..i], now))
      {
        LoadNext(config.codec, entries, i, now);
        var x := LoadEntry(config.codec, entries[i]);
        if !IsExpired(x.entry, now) {
          slots := Assign(slots, x.key, x.entry);
        }
        i := i + 1;
      }
      assert entries[..i] == entries;
    }
  }
}
