/**
 The stable DNS records and the exact Route 53 batches that move them. A batch is
 atomic; DELETE needs an exact record and CREATE needs the name and type to be free.
 */
module Routing {
  import opened Base
  import opened Journal

  datatype AliasTarget = AliasTarget(dnsName: string, hostedZoneId: string)

  datatype IngressCell = IngressCell(region: Region, stableApi: AliasTarget, stableUi: AliasTarget)

  /** The ingress of both Regions; the two cells never share an alias target. */
  datatype Cells = Cells(primary: IngressCell, recovery: IngressCell) {
    function Of(region: Region): IngressCell {
      if region.Primary? then primary else recovery
    }

    predicate Distinct() {
      && primary.region == Primary
      && recovery.region == Recovery
      && primary.stableApi != recovery.stableApi
      && primary.stableUi != recovery.stableUi
    }
  }

  datatype Name = StableApi | StableUi | RoutingMarker | Unrelated(text: string)

  datatype RecordType = A | TXT | OtherType(text: string)

  datatype Value =
    | Alias(target: AliasTarget)
    | Witness(generation: nat, activeRegion: Region, transition: string)
    | Other(text: string)

  datatype Record = Record(name: Name, kind: RecordType, value: Value) {
    function Key(): (Name, RecordType) { (name, kind) }
  }

  type Zone = map<(Name, RecordType), Value>

  const API := (StableApi, A)
  const UI := (StableUi, A)
  const MARKER := (RoutingMarker, TXT)
  const MAX_MARKER_GENERATION: nat := 1_000_000_001

  /** The bounded TXT generation witness. */
  function MarkerRecord(generation: nat, activeRegion: Region, transitionId: string): Result<Record> {
    if generation > MAX_MARKER_GENERATION then Refused
    else Ok(Record(RoutingMarker, TXT, Marked(generation, activeRegion, transitionId)))
  }

  function Marked(generation: nat, activeRegion: Region, transitionId: string): Value {
    Witness(generation, activeRegion, if transitionId == "" then "none" else transitionId)
  }

  function ApiRecord(cell: IngressCell): Record { Record(StableApi, A, Alias(cell.stableApi)) }

  function UiRecord(cell: IngressCell): Record { Record(StableUi, A, Alias(cell.stableUi)) }

  /** The records of one acceptable route, in the order the code lists them. */
  function ExpectedRouteState(cell: IngressCell, generation: nat, transitionId: string, markerRequired: bool)
    : Result<seq<Record>>
  {
    var aliases := [ApiRecord(cell), UiRecord(cell)];
    if !markerRequired then Ok(aliases)
    else match MarkerRecord(generation, cell.region, transitionId)
      case Refused => Refused
      case Ok(marker) => Ok(aliases + [marker])
  }

  function ToZone(records: seq<Record>): Zone {
    if |records| == 0 then map[]
    else ToZone(records[..|records| - 1])[records[|records| - 1].Key() := records[|records| - 1].value]
  }

  // ----- Batches -----

  datatype Change = Delete(record: Record) | Create(record: Record)

  /** The whole change batch in order, or nothing. */
  function ApplyBatch(changes: seq<Change>, zone: Zone): Option<Zone> {
    if |changes| == 0 then Some(zone)
    else
      var key := changes[0].record.Key();
      match changes[0]
      case Delete(r) =>
        if key in zone && zone[key] == r.value then ApplyBatch(changes[1..], zone - {key}) else None
      case Create(r) =>
        if key !in zone then ApplyBatch(changes[1..], zone[key := r.value]) else None
  }

  function Deletes(records: seq<Record>): seq<Change> {
    seq(|records|, i requires 0 <= i < |records| => Delete(records[i]))
  }

  function Creates(records: seq<Record>): seq<Change> {
    seq(|records|, i requires 0 <= i < |records| => Create(records[i]))
  }

  function Batch(from: seq<Record>, to: seq<Record>): seq<Change> {
    Deletes(from) + Creates(to)
  }

  // ----- Route states -----

  /** Which cell the stable names point at, under which generation and transition. */
  datatype Point = Point(region: Region, generation: nat, transitionId: string)

  /** Generation zero predates the marker. */
  function RouteState(cells: Cells, p: Point): Zone {
    var aliases: Zone := map[API := Alias(cells.Of(p.region).stableApi), UI := Alias(cells.Of(p.region).stableUi)];
    if p.generation == 0 then aliases
    else aliases[MARKER := Marked(p.generation, p.region, p.transitionId)]
  }

  /** The marker generation of a zone, zero when there is no marker. */
  function GenerationOf(zone: Zone): nat {
    if MARKER in zone && zone[MARKER].Witness? then zone[MARKER].generation else 0
  }

  function RecordsOf(cells: Cells, p: Point): Result<seq<Record>> {
    ExpectedRouteState(cells.Of(p.region), p.generation, p.transitionId, p.generation > 0)
  }

  /** One move of the stable names: to the other cell, one generation on. */
  datatype Move = Move(from: Point, to: Point) {
    predicate Valid() {
      && to.region == from.region.Other()
      && to.generation == from.generation + 1
      && to.generation <= MAX_MARKER_GENERATION
    }
  }

  function BatchFor(cells: Cells, move: Move): seq<Change>
    requires cells.Distinct() && move.Valid()
  {
    Batch(RecordsOf(cells, move.from).value, RecordsOf(cells, move.to).value)
  }

  /** The records the code lists for a point are exactly its route state, while the marker is in bounds. */
  lemma RecordsAreTheRouteState(cells: Cells, p: Point)
    requires cells.Distinct()
    ensures RecordsOf(cells, p).Ok? <==> p.generation <= MAX_MARKER_GENERATION
    ensures RecordsOf(cells, p).Ok? ==> ToZone(RecordsOf(cells, p).value) == RouteState(cells, p)
  {
    if p.generation <= MAX_MARKER_GENERATION {
      var records := RecordsOf(cells, p).value;
      var two := [ApiRecord(cells.Of(p.region)), UiRecord(cells.Of(p.region))];
      assert two[..1] == [two[0]] && two[..1][..0] == [];
      assert ToZone(two[..1]) == map[API := two[0].value];
      assert ToZone(two) == map[API := two[0].value][UI := two[1].value];
      if p.generation > 0 { assert records[..2] == two; }
    }
  }

  /** A route state determines its generation and cell, and its transition once there is a marker. */
  lemma RouteStateDetermines(cells: Cells, p: Point, q: Point)
    requires cells.Distinct()
    ensures GenerationOf(RouteState(cells, p)) == p.generation
    ensures RouteState(cells, p) == RouteState(cells, q) ==> p.region == q.region && p.generation == q.generation
  {
    assert API in RouteState(cells, p) && API in RouteState(cells, q);
    if p.generation == 0 && q.generation > 0 { assert MARKER in RouteState(cells, q) && MARKER !in RouteState(cells, p); }
    if q.generation == 0 && p.generation > 0 { assert MARKER in RouteState(cells, p) && MARKER !in RouteState(cells, q); }
  }

  /**
   A batch lands on a route state exactly when that is the state it was built from, and
   then leaves exactly the state it was built for. At generation zero nothing is deleted
   but the aliases, and it is the marker CREATE that refuses a second application.
   */
  lemma BatchLandsOnlyWhereBuilt(cells: Cells, move: Move, at: Point)
    requires cells.Distinct() && move.Valid()
    ensures var landed := ApplyBatch(BatchFor(cells, move), RouteState(cells, at));
            && (landed.Some? <==> RouteState(cells, at) == RouteState(cells, move.from))
            && (landed.Some? ==> landed == Some(RouteState(cells, move.to)))
  {
    var zone := RouteState(cells, at);
    var from, to := RecordsOf(cells, move.from).value, RecordsOf(cells, move.to).value;
    var batch := BatchFor(cells, move);
    var n := |from|;
    assert |to| == 3 && |batch| == n + 3;
    assert batch[0] == Delete(from[0]) && batch[1] == Delete(from[1]);
    assert batch[1..][0] == batch[1] && batch[2..][0] == batch[2];
    assert batch[1..][1..] == batch[2..] && batch[2..][1..] == batch[3..];
    var tail := [Create(to[0]), Create(to[1]), Create(to[2])];
    assert batch[n..] == tail;
    RouteStateDetermines(cells, move.from, at);
    if zone[API] == from[0].value && zone[UI] == from[1].value {
      var bare := zone - {API} - {UI};
      assert ApplyBatch(batch, zone) == ApplyBatch(batch[2..], bare);
      if n == 3 {
        assert batch[2] == Delete(from[2]);
        if MARKER in zone && zone[MARKER] == from[2].value {
          assert bare - {MARKER} == map[];
          CreatesOnEmpty(cells, move.to, tail);
        }
      } else if at.generation == 0 {
        assert bare == map[];
        CreatesOnEmpty(cells, move.to, tail);
      } else {
        MarkerBlocks(tail, bare);
      }
    }
  }

  lemma CreatesOnEmpty(cells: Cells, p: Point, tail: seq<Change>)
    requires cells.Distinct() && 0 < p.generation <= MAX_MARKER_GENERATION
    requires var to := RecordsOf(cells, p).value; tail == [Create(to[0]), Create(to[1]), Create(to[2])]
    ensures ApplyBatch(tail, map[]) == Some(RouteState(cells, p))
  {
    var z1: Zone := map[API := tail[0].record.value];
    var z2 := z1[UI := tail[1].record.value];
    ThreeCreates(tail, map[], z1, z2);
  }

  lemma ThreeCreates(tail: seq<Change>, zone: Zone, z1: Zone, z2: Zone)
    requires |tail| == 3 && tail[0].Create? && tail[1].Create? && tail[2].Create?
    requires tail[0].record.Key() !in zone && z1 == zone[tail[0].record.Key() := tail[0].record.value]
    requires tail[1].record.Key() !in z1 && z2 == z1[tail[1].record.Key() := tail[1].record.value]
    ensures ApplyBatch(tail, zone) ==
            if tail[2].record.Key() in z2 then None else Some(z2[tail[2].record.Key() := tail[2].record.value])
  {
    assert ApplyBatch(tail, zone) == ApplyBatch(tail[1..], z1);
    assert tail[1..][0] == tail[1] && tail[1..][1..] == [tail[2]];
    assert ApplyBatch(tail[1..], z1) == ApplyBatch([tail[2]], z2);
    assert [tail[2]][1..] == [];
  }

  lemma MarkerBlocks(tail: seq<Change>, zone: Zone)
    requires |tail| == 3 && MARKER in zone
    requires tail[0].Create? && tail[1].Create? && tail[2].Create? && tail[2].record.Key() == MARKER
    ensures ApplyBatch(tail, zone).None?
  {
    if tail[0].record.Key() !in zone {
      var z1 := zone[tail[0].record.Key() := tail[0].record.value];
      assert ApplyBatch(tail, zone) == ApplyBatch(tail[1..], z1);
      if tail[1].record.Key() !in z1 {
        ThreeCreates(tail, zone, z1, z1[tail[1].record.Key() := tail[1].record.value]);
      }
    }
  }

  // ----- Late batches -----

  /** Where the zone is after some batches have landed in this order, and how many applied. */
  function Deliver(cells: Cells, at: Point, moves: seq<Move>): (Point, nat)
    requires cells.Distinct() && forall m :: m in moves ==> m.Valid()
  {
    if |moves| == 0 then (at, 0)
    else
      var (p, n) := Deliver(cells, at, moves[..|moves| - 1]);
      var last := moves[|moves| - 1];
      if ApplyBatch(BatchFor(cells, last), RouteState(cells, p)).Some? then (last.to, n + 1) else (p, n)
  }

  /**
   However many batches are in flight, however late and in whatever order they land, each
   one that applies raises the generation by exactly one.
   */
  lemma {:induction false} LateBatchesOnlyCountUp(cells: Cells, at: Point, moves: seq<Move>)
    requires cells.Distinct() && forall m :: m in moves ==> m.Valid()
    ensures var (p, n) := Deliver(cells, at, moves);
            p.generation == at.generation + n && GenerationOf(RouteState(cells, p)) == at.generation + n
  {
    var (p, n) := Deliver(cells, at, moves);
    if |moves| > 0 {
      var before := moves[..|moves| - 1];
      LateBatchesOnlyCountUp(cells, at, before);
      BatchLandsOnlyWhereBuilt(cells, moves[|moves| - 1], Deliver(cells, at, before).0);
      RouteStateDetermines(cells, Deliver(cells, at, before).0, moves[|moves| - 1].from);
    }
    RouteStateDetermines(cells, p, p);
  }

  /** A batch that has applied once never applies again, whatever lands in between. */
  lemma AppliedBatchIsSpent(cells: Cells, at: Point, move: Move, between: seq<Move>)
    requires cells.Distinct() && move.Valid() && forall m :: m in between ==> m.Valid()
    requires ApplyBatch(BatchFor(cells, move), RouteState(cells, at)).Some?
    ensures ApplyBatch(BatchFor(cells, move), RouteState(cells, Deliver(cells, move.to, between).0)).None?
  {
    var p := Deliver(cells, move.to, between).0;
    LateBatchesOnlyCountUp(cells, move.to, between);
    BatchLandsOnlyWhereBuilt(cells, move, p);
    RouteStateDetermines(cells, p, move.from);
  }
}
