/** Hot zones and the adaptive chunk plan of the sharded export: src/hot_zones_manager.py and the
    planning loop of src/telegram_sharded_client.py. */
module HotZones {
  import opened Counting
  import opened History

  datatype HotZone = HotZone(
    idStart: int,
    idEnd: int,
    datacenter: string,
    chunkSize: int,
    avgLatency: real,
    density: real,
    severity: string,
    observations: nat)

  datatype Config = Config(
    enableHotZones: bool,
    shardChunkSize: int,
    veryHighThreshold: real,
    highThreshold: real,
    mediumThreshold: real,
    veryHighSize: int,
    highSize: int,
    mediumSize: int,
    lowSize: int)

  /** A chunk asks for the ids in `(start, end]`. */
  datatype Chunk = Chunk(start: int, end: int)

  datatype Option<T> = None | Some(value: T)

  predicate Overlaps(z: HotZone, idStart: int, idEnd: int) {
    !(idEnd < z.idStart || idStart > z.idEnd)
  }

  function ZonesForRange(zones: seq<HotZone>, idStart: int, idEnd: int, datacenter: string): seq<HotZone> {
    if zones == [] then []
    else
      (if zones[0].datacenter == datacenter && Overlaps(zones[0], idStart, idEnd) then [zones[0]] else [])
      + ZonesForRange(zones[1..], idStart, idEnd, datacenter)
  }

  /** The smallest recommended size among zones. */
  function SmallestSize(zones: seq<HotZone>): int
    requires zones != []
  {
    if |zones| == 1 then zones[0].chunkSize
    else
      var rest := SmallestSize(zones[1..]);
      if zones[0].chunkSize <= rest then zones[0].chunkSize else rest
  }

  function OptimalChunkSize(c: Config, zones: seq<HotZone>, idStart: int, idEnd: int, datacenter: string): int {
    if !c.enableHotZones then c.shardChunkSize
    else
      var overlapping := ZonesForRange(zones, idStart, idEnd, datacenter);
      if overlapping != [] then SmallestSize(overlapping) else c.shardChunkSize
  }

  function SizeForDensity(c: Config, density: real): int {
    if density > c.veryHighThreshold then c.veryHighSize
    else if density > c.highThreshold then c.highSize
    else if density > c.mediumThreshold then c.mediumSize
    else c.lowSize
  }

  /** The planner's size at a position: a size equal to the default counts as "no zone matched". */
  function SizeAt(c: Config, zones: seq<HotZone>, datacenter: string, density: real, current: int, maxId: int): int {
    var optimal := OptimalChunkSize(c, zones, current, maxId, datacenter);
    if optimal == c.shardChunkSize then SizeForDensity(c, density) else optimal
  }

  function Min(a: int, b: int): int { if a < b then a else b }

  function NextId(c: Config, zones: seq<HotZone>, datacenter: string, density: real, current: int, maxId: int): int {
    Min(current + Min(SizeAt(c, zones, datacenter, density, current, maxId), maxId - current), maxId)
  }

  ghost predicate PositiveSizes(c: Config, zones: seq<HotZone>) {
    && c.shardChunkSize > 0 && c.veryHighSize > 0 && c.highSize > 0 && c.mediumSize > 0 && c.lowSize > 0
    && forall k :: 0 <= k < |zones| ==> zones[k].chunkSize > 0
  }

  lemma {:induction false} ZonesForRangeMembers(zones: seq<HotZone>, idStart: int, idEnd: int, datacenter: string)
    ensures forall z :: z in ZonesForRange(zones, idStart, idEnd, datacenter) <==>
                          z in zones && z.datacenter == datacenter && Overlaps(z, idStart, idEnd)
  {
    if zones != [] {
      ZonesForRangeMembers(zones[1..], idStart, idEnd, datacenter);
    }
  }

  lemma {:induction false} SmallestSizeIsLeast(zones: seq<HotZone>)
    requires zones != []
    ensures forall z :: z in zones ==> SmallestSize(zones) <= z.chunkSize
    ensures exists z :: z in zones && SmallestSize(zones) == z.chunkSize
  {
    if |zones| == 1 {
      assert zones[0] in zones;
    } else {
      SmallestSizeIsLeast(zones[1..]);
      assert zones[0] in zones;
    }
  }

  lemma SizeAtPositive(c: Config, zones: seq<HotZone>, datacenter: string, density: real, current: int, maxId: int)
    requires PositiveSizes(c, zones)
    ensures SizeAt(c, zones, datacenter, density, current, maxId) > 0
  {
    var overlapping := ZonesForRange(zones, current, maxId, datacenter);
    ZonesForRangeMembers(zones, current, maxId, datacenter);
    if overlapping != [] {
      SmallestSizeIsLeast(overlapping);
    }
  }

  /** The chunks from `current` on. */
  function Plan(c: Config, zones: seq<HotZone>, datacenter: string, density: real, current: int, maxId: int): seq<Chunk>
    requires PositiveSizes(c, zones)
    decreases maxId - current
  {
    if current >= maxId then []
    else
      var next := NextId(c, zones, datacenter, density, current, maxId);
      SizeAtPositive(c, zones, datacenter, density, current, maxId);
      [Chunk(current, next)] + Plan(c, zones, datacenter, density, next, maxId)
  }

  /** Each chunk is nonempty and starts where the one before it ends. */
  ghost predicate Partition(chunks: seq<Chunk>, lo: int, hi: int)
    decreases |chunks|
  {
    if chunks == [] then lo == hi
    else chunks[0].start == lo && lo < chunks[0].end && Partition(chunks[1..], chunks[0].end, hi)
  }

  lemma {:induction false} PlanPartitions(
      c: Config, zones: seq<HotZone>, datacenter: string, density: real, current: int, maxId: int)
    requires PositiveSizes(c, zones) && current <= maxId
    ensures Partition(Plan(c, zones, datacenter, density, current, maxId), current, maxId)
    decreases maxId - current
  {
    if current < maxId {
      SizeAtPositive(c, zones, datacenter, density, current, maxId);
      var next := NextId(c, zones, datacenter, density, current, maxId);
      PlanPartitions(c, zones, datacenter, density, next, maxId);
      var rest := Plan(c, zones, datacenter, density, next, maxId);
      assert ([Chunk(current, next)] + rest)[1..] == rest;
    }
  }

  function Contents(h: seq<int>, id: int): Chunk -> nat {
    (x: Chunk) => Occurs(Between(h, x.start, x.end), id)
  }

  lemma {:induction false} PartitionOrdered(chunks: seq<Chunk>, lo: int, hi: int)
    requires Partition(chunks, lo, hi)
    ensures lo <= hi
    ensures forall k :: 0 <= k < |chunks| ==> lo <= chunks[k].start < chunks[k].end <= hi
    ensures forall k :: 1 <= k < |chunks| ==> chunks[k].start == chunks[k - 1].end
    decreases |chunks|
  {
    if chunks != [] {
      var rest := chunks[1..];
      PartitionOrdered(rest, chunks[0].end, hi);
      assert forall k :: 1 <= k < |chunks| ==> chunks[k] == rest[k - 1];
    }
  }

  /** The chunks of a partition hold every message of the range, each once. */
  lemma {:induction false} PartitionContents(h: seq<int>, chunks: seq<Chunk>, lo: int, hi: int, id: int)
    requires Ascending(h) && Partition(chunks, lo, hi)
    ensures Sum(Contents(h, id), chunks) == Occurs(Between(h, lo, hi), id)
    decreases |chunks|
  {
    if chunks == [] {
      BetweenEmpty(h, lo, hi);
    } else {
      PartitionOrdered(chunks, lo, hi);
      PartitionContents(h, chunks[1..], chunks[0].end, hi, id);
      BetweenJoin(h, lo, chunks[0].end, hi);
      assert multiset(Between(h, lo, chunks[0].end)) + multiset(Between(h, chunks[0].end, hi))
          == multiset(Between(h, lo, hi));
    }
  }

  // ----- Hot zones bound the chunks

  /** The size a hot zone dictates at a position, if one does. */
  function HotSize(c: Config, zones: seq<HotZone>, datacenter: string, current: int, maxId: int): Option<int> {
    var overlapping := ZonesForRange(zones, current, maxId, datacenter);
    if c.enableHotZones && overlapping != [] then Some(SmallestSize(overlapping)) else None
  }

  /** How long every planned chunk is: what remains of the range, or, if that is less, the smallest size
      of the zones that overlap the range from its start, unless there is none or it equals the default;
      then the size of the density's band. */
  lemma {:induction false} ChunkLength(
      c: Config, zones: seq<HotZone>, datacenter: string, density: real, current: int, maxId: int, k: nat)
    requires PositiveSizes(c, zones)
    requires k < |Plan(c, zones, datacenter, density, current, maxId)|
    ensures var chunk := Plan(c, zones, datacenter, density, current, maxId)[k];
            var hot := HotSize(c, zones, datacenter, chunk.start, maxId);
            var size := if hot.Some? && hot.value != c.shardChunkSize then hot.value
                        else if density > c.veryHighThreshold then c.veryHighSize
                        else if density > c.highThreshold then c.highSize
                        else if density > c.mediumThreshold then c.mediumSize
                        else c.lowSize;
            chunk.end - chunk.start == if size <= maxId - chunk.start then size else maxId - chunk.start
    decreases maxId - current
  {
    SizeAtPositive(c, zones, datacenter, density, current, maxId);
    if k > 0 {
      var next := NextId(c, zones, datacenter, density, current, maxId);
      assert Plan(c, zones, datacenter, density, current, maxId)[k]
          == Plan(c, zones, datacenter, density, next, maxId)[k - 1];
      ChunkLength(c, zones, datacenter, density, next, maxId, k - 1);
    }
  }

  /** A size dictated at a position is one of a zone of the datacenter that reaches into the rest of the
      range, and none of these asks for less; none is dictated exactly without such a zone. */
  lemma HotSizeIsLeast(c: Config, zones: seq<HotZone>, datacenter: string, current: int, maxId: int)
    ensures var hot := HotSize(c, zones, datacenter, current, maxId);
            if hot.Some? then
              && (forall z :: z in zones && z.datacenter == datacenter && Overlaps(z, current, maxId) ==>
                    hot.value <= z.chunkSize)
              && (exists z :: z in zones && z.datacenter == datacenter && Overlaps(z, current, maxId)
                              && hot.value == z.chunkSize)
            else
              c.enableHotZones ==>
                forall z :: z in zones && z.datacenter == datacenter ==> !Overlaps(z, current, maxId)
  {
    var overlapping := ZonesForRange(zones, current, maxId, datacenter);
    ZonesForRangeMembers(zones, current, maxId, datacenter);
    if overlapping != [] {
      SmallestSizeIsLeast(overlapping);
    } else {
      forall z | z in zones && z.datacenter == datacenter
        ensures !Overlaps(z, current, maxId)
      {
        assert z !in overlapping;
      }
    }
  }

  predicate Within(id: int, first: int, last: int) { first <= id <= last }

  /** Overlapping is having an id in common, both ends of both ranges included. */
  lemma OverlapsIff(z: HotZone, idStart: int, idEnd: int)
    requires z.idStart <= z.idEnd && idStart <= idEnd
    ensures Overlaps(z, idStart, idEnd) <==> exists id :: Within(id, z.idStart, z.idEnd) && Within(id, idStart, idEnd)
  {
    var id := if z.idStart <= idStart then idStart else z.idStart;
    if Overlaps(z, idStart, idEnd) {
      assert Within(id, z.idStart, z.idEnd) && Within(id, idStart, idEnd);
    }
  }

  /** The coincidence does lengthen chunks: a zone that asks for 5000 ids at a time gets 50000. */
  lemma CoincidenceLengthensChunks()
    ensures var z := HotZone(1, 100000, "DC2", 5000, 91.4, 181.0, "CRITICAL", 1);
            var c := Config(true, 5000, 150.0, 100.0, 50.0, 5000, 10000, 15000, 50000);
            PositiveSizes(c, [z]) && Overlaps(z, 0, 50000)
            && Chunk(0, 50000) in Plan(c, [z], "DC2", 10.0, 0, 100000)
  {
    var z := HotZone(1, 100000, "DC2", 5000, 91.4, 181.0, "CRITICAL", 1);
    var c := Config(true, 5000, 150.0, 100.0, 50.0, 5000, 10000, 15000, 50000);
    assert ZonesForRange([z], 0, 100000, "DC2") == [z];
    assert NextId(c, [z], "DC2", 10.0, 0, 100000) == 50000;
    assert Plan(c, [z], "DC2", 10.0, 0, 100000)[0] == Chunk(0, 50000);
  }

  /** A planned chunk that overlaps a zone of its datacenter keeps to that zone's size exactly when the
      smallest size dictated at its start is not mistaken for the default, or the density-based size used
      instead is no larger, or what remains of the range is no longer than the zone's size anyway. */
  lemma {:induction false} ChunkRespectsZoneIff(
      c: Config, zones: seq<HotZone>, datacenter: string, density: real, current: int, maxId: int,
      k: nat, z: HotZone)
    requires PositiveSizes(c, zones) && c.enableHotZones
    requires k < |Plan(c, zones, datacenter, density, current, maxId)|
    requires z in zones && z.datacenter == datacenter
    requires var chunk := Plan(c, zones, datacenter, density, current, maxId)[k];
             Overlaps(z, chunk.start, chunk.end)
    ensures var chunk := Plan(c, zones, datacenter, density, current, maxId)[k];
            var hot := HotSize(c, zones, datacenter, chunk.start, maxId);
            && hot.Some? && hot.value <= z.chunkSize
            && (chunk.end - chunk.start <= z.chunkSize <==>
                  || hot.value != c.shardChunkSize
                  || SizeForDensity(c, density) <= z.chunkSize
                  || maxId - chunk.start <= z.chunkSize)
    decreases maxId - current
  {
    SizeAtPositive(c, zones, datacenter, density, current, maxId);
    var next := NextId(c, zones, datacenter, density, current, maxId);
    if k == 0 {
      var overlapping := ZonesForRange(zones, current, maxId, datacenter);
      ZonesForRangeMembers(zones, current, maxId, datacenter);
      assert z in overlapping;
      SmallestSizeIsLeast(overlapping);
    } else {
      assert Plan(c, zones, datacenter, density, current, maxId)[k]
          == Plan(c, zones, datacenter, density, next, maxId)[k - 1];
      ChunkRespectsZoneIff(c, zones, datacenter, density, next, maxId, k - 1, z);
    }
  }

  /** If no zone of the datacenter has the default size, no planned chunk is longer than the size of any
      zone of its datacenter that it overlaps. */
  lemma ChunksRespectZones(
      c: Config, zones: seq<HotZone>, datacenter: string, density: real, minId: int, maxId: int,
      k: nat, z: HotZone)
    requires PositiveSizes(c, zones) && c.enableHotZones
    requires forall x :: x in zones && x.datacenter == datacenter ==> x.chunkSize != c.shardChunkSize
    requires k < |Plan(c, zones, datacenter, density, minId, maxId)|
    requires z in zones && z.datacenter == datacenter
    requires var chunk := Plan(c, zones, datacenter, density, minId, maxId)[k];
             Overlaps(z, chunk.start, chunk.end)
    ensures var chunk := Plan(c, zones, datacenter, density, minId, maxId)[k];
            chunk.end - chunk.start <= z.chunkSize
  {
    var chunk := Plan(c, zones, datacenter, density, minId, maxId)[k];
    var overlapping := ZonesForRange(zones, chunk.start, maxId, datacenter);
    ChunkRespectsZoneIff(c, zones, datacenter, density, minId, maxId, k, z);
    SmallestSizeIsLeast(overlapping);
    ZonesForRangeMembers(zones, chunk.start, maxId, datacenter);
  }

  lemma HotSizeGrows(c: Config, zones: seq<HotZone>, datacenter: string, current: int, later: int, maxId: int)
    requires current <= later && HotSize(c, zones, datacenter, later, maxId).Some?
    ensures HotSize(c, zones, datacenter, current, maxId).Some?
    ensures HotSize(c, zones, datacenter, current, maxId).value <= HotSize(c, zones, datacenter, later, maxId).value
  {
    var early := ZonesForRange(zones, current, maxId, datacenter);
    var late := ZonesForRange(zones, later, maxId, datacenter);
    ZonesForRangeMembers(zones, current, maxId, datacenter);
    ZonesForRangeMembers(zones, later, maxId, datacenter);
    SmallestSizeIsLeast(late);
    var z :| z in late && SmallestSize(late) == z.chunkSize;
    assert z in early;
    SmallestSizeIsLeast(early);
  }

  /** Along the plan the sizes that hot zones dictate never decrease, and once none does, none does
      again: the zones looked at are those of the whole remaining range. */
  lemma HotSizesAscendAlongPlan(
      c: Config, zones: seq<HotZone>, datacenter: string, density: real, minId: int, maxId: int, i: nat, j: nat)
    requires PositiveSizes(c, zones) && minId <= maxId
    requires i < j < |Plan(c, zones, datacenter, density, minId, maxId)|
    ensures var plan := Plan(c, zones, datacenter, density, minId, maxId);
            HotSize(c, zones, datacenter, plan[j].start, maxId).Some? ==>
              HotSize(c, zones, datacenter, plan[i].start, maxId).Some?
              && HotSize(c, zones, datacenter, plan[i].start, maxId).value
                 <= HotSize(c, zones, datacenter, plan[j].start, maxId).value
  {
    var plan := Plan(c, zones, datacenter, density, minId, maxId);
    PlanPartitions(c, zones, datacenter, density, minId, maxId);
    StartsAscend(plan, minId, maxId, i, j);
    if HotSize(c, zones, datacenter, plan[j].start, maxId).Some? {
      HotSizeGrows(c, zones, datacenter, plan[i].start, plan[j].start, maxId);
    }
  }

  lemma {:induction false} StartsAscend(chunks: seq<Chunk>, lo: int, hi: int, i: nat, j: nat)
    requires Partition(chunks, lo, hi) && i < j < |chunks|
    ensures chunks[i].start < chunks[j].start
    decreases j
  {
    PartitionOrdered(chunks, lo, hi);
    if i < j - 1 {
      StartsAscend(chunks, lo, hi, i, j - 1);
    }
  }

  // ----- Learning a zone from a slow chunk

  datatype SlowChunk = SlowChunk(start: int, end: int, duration: real, messages: nat, datacenter: string)

  function DensityOf(s: SlowChunk): real {
    if s.end - s.start > 0 then s.messages as real / (s.end - s.start) as real * 1000.0 else 0.0
  }

  function Severity(duration: real, density: real): (string, int) {
    if duration > 60.0 || density > 180.0 then ("CRITICAL", 5000)
    else if duration > 20.0 || density > 150.0 then ("HIGH", 10000)
    else if duration > 10.0 || density > 100.0 then ("MEDIUM", 15000)
    else ("LOW", 25000)
  }

  /** A zone after one more observation. */
  function Observed(z: HotZone, duration: real, density: real): HotZone {
    var n := z.observations + 1;
    z.(avgLatency := (z.avgLatency * z.observations as real + duration) / n as real,
       density := (z.density * z.observations as real + density) / n as real,
       observations := n)
  }

  function ObserveAll(zones: seq<HotZone>, s: SlowChunk): seq<HotZone> {
    if zones == [] then []
    else
      [if zones[0].datacenter == s.datacenter && Overlaps(zones[0], s.start, s.end)
         then Observed(zones[0], s.duration, DensityOf(s)) else zones[0]]
      + ObserveAll(zones[1..], s)
  }

  function Learn(zones: seq<HotZone>, s: SlowChunk): seq<HotZone> {
    if ZonesForRange(zones, s.start, s.end, s.datacenter) != [] then ObserveAll(zones, s)
    else if s.duration > 10.0 || DensityOf(s) > 150.0 then
      var (severity, size) := Severity(s.duration, DensityOf(s));
      zones + [HotZone(s.start, s.end, s.datacenter, size, s.duration, DensityOf(s), severity, 1)]
    else zones
  }

  /** The density of a chunk is its messages per thousand ids. */
  lemma DensityPerThousand(s: SlowChunk)
    ensures if s.start < s.end then DensityOf(s) * (s.end - s.start) as real == 1000.0 * s.messages as real
            else DensityOf(s) == 0.0
  {
    if s.start < s.end {
      var span, rate := (s.end - s.start) as real, s.messages as real / (s.end - s.start) as real;
      assert rate * span == s.messages as real;
      assert rate * 1000.0 * span == 1000.0 * (rate * span);
    }
  }

  /** What a slow chunk teaches.  A zone is added, behind the others, exactly if no zone of the datacenter
      overlaps the chunk and it took more than ten seconds or is denser than 150.  The zone covers the
      chunk, with its time and density as the first observation.  Above 60 seconds or a density of 180 it
      is CRITICAL with chunks of 5000 ids, else above 20 or 150 HIGH with 10000, else MEDIUM with 15000. */
  lemma LearnedZone(zones: seq<HotZone>, s: SlowChunk)
    ensures var learned, density := Learn(zones, s), DensityOf(s);
            var unknown := forall z :: z in zones && z.datacenter == s.datacenter ==> !Overlaps(z, s.start, s.end);
            if unknown && (s.duration > 10.0 || density > 150.0) then
              && |learned| == |zones| + 1 && learned[..|zones|] == zones
              && var z := learned[|zones|];
                 && z.idStart == s.start && z.idEnd == s.end && z.datacenter == s.datacenter
                 && z.avgLatency == s.duration && z.density == density && z.observations == 1
                 && (z.severity == "CRITICAL" <==> s.duration > 60.0 || density > 180.0)
                 && (z.severity == "HIGH" <==>
                       s.duration <= 60.0 && density <= 180.0 && (s.duration > 20.0 || density > 150.0))
                 && (z.severity == "MEDIUM" <==> s.duration <= 20.0 && density <= 150.0)
                 && (z.chunkSize == 5000 <==> z.severity == "CRITICAL")
                 && (z.chunkSize == 10000 <==> z.severity == "HIGH")
                 && (z.chunkSize == 15000 <==> z.severity == "MEDIUM")
            else
              |learned| == |zones|
  {
    var overlapping := ZonesForRange(zones, s.start, s.end, s.datacenter);
    ZonesForRangeMembers(zones, s.start, s.end, s.datacenter);
    ObserveAllShape(zones, s);
    if overlapping != [] {
      assert overlapping[0] in overlapping;
    } else {
      forall z | z in zones && z.datacenter == s.datacenter
        ensures !Overlaps(z, s.start, s.end)
      {
        assert z !in overlapping;
      }
    }
  }

  /** A slower and denser chunk never teaches longer chunks. */
  lemma SlowerNeverLonger(zones: seq<HotZone>, fast: SlowChunk, slow: SlowChunk)
    requires fast.duration <= slow.duration && DensityOf(fast) <= DensityOf(slow)
    requires |Learn(zones, fast)| == |Learn(zones, slow)| == |zones| + 1
    ensures Learn(zones, slow)[|zones|].chunkSize <= Learn(zones, fast)[|zones|].chunkSize
  {
    LearnedZone(zones, fast);
    LearnedZone(zones, slow);
  }

  lemma {:induction false} ObserveAllShape(zones: seq<HotZone>, s: SlowChunk)
    ensures |ObserveAll(zones, s)| == |zones|
    ensures forall k :: 0 <= k < |zones| ==>
              && ObserveAll(zones, s)[k].idStart == zones[k].idStart
              && ObserveAll(zones, s)[k].idEnd == zones[k].idEnd
              && ObserveAll(zones, s)[k].datacenter == zones[k].datacenter
              && ObserveAll(zones, s)[k].chunkSize == zones[k].chunkSize
  {
    if zones != [] {
      ObserveAllShape(zones[1..], s);
      assert forall k :: 1 <= k < |zones| ==> zones[k] == zones[1..][k - 1];
    }
  }

  lemma {:induction false} ObserveAllAt(zones: seq<HotZone>, s: SlowChunk, k: nat)
    requires k < |zones|
    ensures |ObserveAll(zones, s)| == |zones|
    ensures ObserveAll(zones, s)[k] == if zones[k].datacenter == s.datacenter && Overlaps(zones[k], s.start, s.end)
                                       then Observed(zones[k], s.duration, DensityOf(s)) else zones[k]
  {
    ObserveAllShape(zones, s);
    if k > 0 {
      ObserveAllAt(zones[1..], s, k - 1);
    }
  }

  function TotalLatency(z: HotZone): real { z.avgLatency * z.observations as real }
  function TotalDensity(z: HotZone): real { z.density * z.observations as real }

  lemma ObservedTotals(z: HotZone, duration: real, density: real)
    ensures TotalLatency(Observed(z, duration, density)) == TotalLatency(z) + duration
    ensures TotalDensity(Observed(z, duration, density)) == TotalDensity(z) + density
  {
    var n := (z.observations + 1) as real;
    var latencies := TotalLatency(z) + duration;
    assert latencies / n * n == latencies;
    var densities := TotalDensity(z) + density;
    assert densities / n * n == densities;
  }

  predicate Concerns(z: HotZone, s: SlowChunk) {
    z.datacenter == s.datacenter && Overlaps(z, s.start, s.end)
  }

  function LearnAll(zones: seq<HotZone>, chunks: seq<SlowChunk>): seq<HotZone>
    decreases |chunks|
  {
    if chunks == [] then zones else LearnAll(Learn(zones, chunks[0]), chunks[1..])
  }

  function Hits(z: HotZone, chunks: seq<SlowChunk>): nat {
    if chunks == [] then 0 else (if Concerns(z, chunks[0]) then 1 else 0) + Hits(z, chunks[1..])
  }

  function Durations(z: HotZone, chunks: seq<SlowChunk>): real {
    if chunks == [] then 0.0
    else (if Concerns(z, chunks[0]) then chunks[0].duration else 0.0) + Durations(z, chunks[1..])
  }

  function Densities(z: HotZone, chunks: seq<SlowChunk>): real {
    if chunks == [] then 0.0
    else (if Concerns(z, chunks[0]) then DensityOf(chunks[0]) else 0.0) + Densities(z, chunks[1..])
  }

  /** A known zone keeps its place and range, and is updated exactly by the chunks that overlap it. */
  lemma LearnAt(zones: seq<HotZone>, s: SlowChunk, k: nat)
    requires k < |zones|
    ensures k < |Learn(zones, s)|
    ensures Learn(zones, s)[k]
         == if Concerns(zones[k], s) then Observed(zones[k], s.duration, DensityOf(s)) else zones[k]
  {
    ZonesForRangeMembers(zones, s.start, s.end, s.datacenter);
    if Concerns(zones[k], s) {
      assert zones[k] in ZonesForRange(zones, s.start, s.end, s.datacenter);
    }
    ObserveAllAt(zones, s, k);
  }

  /** `x` is `z` after some observations: only the two means and their count differ. */
  predicate Updated(z: HotZone, x: HotZone) {
    x == z.(avgLatency := x.avgLatency, density := x.density, observations := x.observations)
  }

  lemma {:induction false} UpdatedSums(z: HotZone, x: HotZone, chunks: seq<SlowChunk>)
    requires Updated(z, x)
    ensures Hits(x, chunks) == Hits(z, chunks)
    ensures Durations(x, chunks) == Durations(z, chunks)
    ensures Densities(x, chunks) == Densities(z, chunks)
  {
    if chunks != [] {
      UpdatedSums(z, x, chunks[1..]);
    }
  }

  lemma LearnTotals(zones: seq<HotZone>, s: SlowChunk, k: nat)
    requires k < |zones|
    ensures k < |Learn(zones, s)| && Updated(zones[k], Learn(zones, s)[k])
    ensures var z, n := zones[k], Learn(zones, s)[k];
            && n.observations == z.observations + Hits(z, [s])
            && TotalLatency(n) == TotalLatency(z) + Durations(z, [s])
            && TotalDensity(n) == TotalDensity(z) + Densities(z, [s])
  {
    LearnAt(zones, s, k);
    ObservedTotals(zones[k], s.duration, DensityOf(s));
  }

  lemma HeadSums(z: HotZone, chunks: seq<SlowChunk>)
    requires chunks != []
    ensures Hits(z, chunks) == Hits(z, [chunks[0]]) + Hits(z, chunks[1..])
    ensures Durations(z, chunks) == Durations(z, [chunks[0]]) + Durations(z, chunks[1..])
    ensures Densities(z, chunks) == Densities(z, [chunks[0]]) + Densities(z, chunks[1..])
  {
  }

  /** However many slow chunks are analysed, a zone's latency and density are the means over all its
      observations: mean times count is what the zone started with plus the sum over exactly the chunks
      that overlapped it in its datacenter. */
  lemma {:induction false} LearnedMeans(zones: seq<HotZone>, chunks: seq<SlowChunk>, k: nat)
    requires k < |zones|
    ensures k < |LearnAll(zones, chunks)| && Updated(zones[k], LearnAll(zones, chunks)[k])
    ensures var z, n := zones[k], LearnAll(zones, chunks)[k];
            && n.observations == z.observations + Hits(z, chunks)
            && TotalLatency(n) == TotalLatency(z) + Durations(z, chunks)
            && TotalDensity(n) == TotalDensity(z) + Densities(z, chunks)
    decreases |chunks|
  {
    if chunks != [] {
      var next := Learn(zones, chunks[0]);
      LearnTotals(zones, chunks[0], k);
      LearnedMeans(next, chunks[1..], k);
      UpdatedSums(zones[k], next[k], chunks[1..]);
      HeadSums(zones[k], chunks);
    }
  }

  predicate Serious(z: HotZone) {
    z.severity != "LOW" && z.chunkSize in {5000, 10000, 15000}
  }

  lemma {:induction false} ObserveAllSerious(zones: seq<HotZone>, s: SlowChunk)
    requires forall k :: 0 <= k < |zones| ==> Serious(zones[k])
    ensures forall k :: 0 <= k < |ObserveAll(zones, s)| ==> Serious(ObserveAll(zones, s)[k])
  {
    if zones != [] {
      ObserveAllSerious(zones[1..], s);
    }
  }

  /** The lowest severity and its size of 25000 are never assigned: zones learned from slow chunks ask for
      at most 15000 ids at a time. */
  lemma {:induction false} LowestSeverityNeverLearned(zones: seq<HotZone>, chunks: seq<SlowChunk>)
    requires forall k :: 0 <= k < |zones| ==> Serious(zones[k])
    ensures forall k :: 0 <= k < |LearnAll(zones, chunks)| ==> Serious(LearnAll(zones, chunks)[k])
    decreases |chunks|
  {
    if chunks != [] {
      ObserveAllSerious(zones, chunks[0]);
      LowestSeverityNeverLearned(Learn(zones, chunks[0]), chunks[1..]);
    }
  }

  /** Learning feeds back into planning: once a chunk slow enough to be recorded has been analysed in
      unknown territory, a zone of at most 15000 ids at a time is known there, and a planned chunk that
      overlaps it keeps to that size unless the smallest size dictated at its start is mistaken for the
      default and both the density-based size and the rest of the range are longer. */
  lemma LearnedChunksArePlannedShort(
      c: Config, zones: seq<HotZone>, s: SlowChunk, density: real, minId: int, maxId: int, k: nat)
    requires PositiveSizes(c, zones) && c.enableHotZones
    requires s.duration > 10.0 || DensityOf(s) > 150.0
    requires ZonesForRange(zones, s.start, s.end, s.datacenter) == []
    requires k < |Plan(c, Learn(zones, s), s.datacenter, density, minId, maxId)|
    ensures var learned := Learn(zones, s);
            var chunk := Plan(c, learned, s.datacenter, density, minId, maxId)[k];
            var hot := HotSize(c, learned, s.datacenter, chunk.start, maxId);
            var size := Severity(s.duration, DensityOf(s)).1;
            !(chunk.end < s.start || chunk.start > s.end) ==>
              && hot.Some? && hot.value <= size <= 15000
              && (chunk.end - chunk.start <= size <==>
                    || hot.value != c.shardChunkSize
                    || SizeForDensity(c, density) <= size
                    || maxId - chunk.start <= size)
  {
    var learned := Learn(zones, s);
    var z := learned[|learned| - 1];
    var chunk := Plan(c, learned, s.datacenter, density, minId, maxId)[k];
    if Overlaps(z, chunk.start, chunk.end) {
      ChunkRespectsZoneIff(c, learned, s.datacenter, density, minId, maxId, k, z);
    }
  }

  class HotZonesManager {
    const config: Config
    var hotZones: seq<HotZone>

    constructor (c: Config, zones: seq<HotZone>)
      ensures config == c && hotZones == zones
    {
      config := c;
      hotZones := zones;
    }

    method AnalyzeAndUpdate(s: SlowChunk)
      modifies this
      ensures hotZones == Learn(old(hotZones), s)
    {
      var density := if s.end - s.start > 0 then s.messages as real / (s.end - s.start) as real * 1000.0 else 0.0;
      var overlapping := ZonesForRange(hotZones, s.start, s.end, s.datacenter);
      if overlapping != [] {
        var k := 0;
        ghost var before := hotZones;
        ObserveAllShape(before, s);
        while k < |hotZones|
          invariant 0 <= k <= |hotZones| == |before|
          invariant forall i :: 0 <= i < k ==> hotZones[i] == ObserveAll(before, s)[i]
          invariant forall i :: k <= i < |before| ==> hotZones[i] == before[i]
        {
          var z := hotZones[k];
          ObserveAllAt(before, s, k);
          if z.datacenter == s.datacenter && Overlaps(z, s.start, s.end) {
            hotZones := hotZones[k := Observed(z, s.duration, density)];
          }
          k := k + 1;
        }
      } else if s.duration > 10.0 || density > 150.0 {
        var (severity, size) := Severity(s.duration, density);
        hotZones := hotZones + [HotZone(s.start, s.end, s.datacenter, size, s.duration, density, severity, 1)];
      }
    }

    /** The planning loop: the task queue it fills is the plan. */
    method PlanChunks(effectiveMin: int, maxId: int, datacenter: string, density: real) returns (tasks: seq<Chunk>)
      requires PositiveSizes(config, hotZones)
      ensures tasks == Plan(config, hotZones, datacenter, density, effectiveMin, maxId)
      ensures effectiveMin <= maxId ==> Partition(tasks, effectiveMin, maxId)
    {
      tasks := [];
      var current := effectiveMin;
      while current < maxId
        invariant tasks + Plan(config, hotZones, datacenter, density, current, maxId)
               == Plan(config, hotZones, datacenter, density, effectiveMin, maxId)
        decreases maxId - current
      {
        var optimal := OptimalChunkSize(config, hotZones, current, maxId, datacenter);
        if optimal == config.shardChunkSize {
          optimal := SizeForDensity(config, density);
        }
        SizeAtPositive(config, hotZones, datacenter, density, current, maxId);
        var size := Min(optimal, maxId - current);
        var chunkEnd := Min(current + size, maxId);
        if current < chunkEnd {
          tasks := tasks + [Chunk(current, chunkEnd)];
        }
        current := chunkEnd;
      }
      if effectiveMin <= maxId {
        PlanPartitions(config, hotZones, datacenter, density, effectiveMin, maxId);
      }
    }
  }
}
