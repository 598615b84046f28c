/** The ARES7 region-file encoder of ARES7.cs: the four name tables (the
    class's indexers) and `Write`.  Numbers are not rendered as text: each
    record keeps the real values its C# format string prints, and the file
    is the sequence of its records in output order. */
module Ares7 {
  import opened Outcomes
  import opened Units
  import opened PcbValues
  import opened Diagnostics
  import opened Pcb

  /** The first line of every region file. */
  const Signature := "ARES REGION FILE"
  /** The fixed line of the `*HEADER` block before the unit line. */
  const Version := "VERSION 710 600"
  /** The flags of a pad whose `Flags` is null. */
  const StandardPadFlags := "0 1"
  /** Added to the first size of a Drill pad: a 10 thou ring, since ARES7
      does not accept a pad whose two sizes are equal. */
  const DrillRing: real := 10.0

  // ---------------------------------------------------------------------
  // Name tables

  /** The style template of a pad shape: `{0}` is the outer size, `{1}` the
      hole or the second side.  Every shape of the enum has one. */
  function ShapeTemplate(s: PcbPadShape): string
  {
    match s
    case CircularTH => "C-{0:F0}-{1:F0}"
    case RectangularSMT => "{0:F0}X{1:F0}"
    case RectangularTH => "S-{0:F0}-{1:F0}"
    case CircularSMT => "CSMT-{0:F0}"
  }

  /** The name of a copper layer; an unnamed enum value throws
      `ArgumentException` (None). */
  function LayerName(l: PcbLayer): (n: Option<string>)
    ensures n.Some? <==> !l.Extended?
  {
    match l
    case Drill => Some("DRL")
    case Bottom => Some("BOT")
    case Top => Some("TOP")
    case InternalTop => Some("I1")
    case InternalBottom => Some("I2")
    case All => Some("ALL")
    case Extended(_) => None
  }

  /** The name of a unit; the two units without one throw `ArgumentException`. */
  function UnitsName(u: PcbUnits): (n: Option<string>)
    ensures n.Some? <==> u != TwoThirdsOfNanometer && u != Arbitrary
  {
    match u
    case Thou => Some("1th")
    case Millimeter => Some("1mm")
    case TenNanometers => Some("10nm")
    case Inch => Some("1in")
    case TwoThirdsOfNanometer => None
    case Arbitrary => None
  }

  /** The name of a silk layer; Boundary and Other throw
      `NotImplementedException`, the one exception `Write` catches. */
  function GraphicsLayerName(l: PcbGraphicsLayer): (n: Option<string>)
    ensures n.Some? <==> l == BottomSilk || l == TopSilk
  {
    match l
    case BottomSilk => Some("BS")
    case TopSilk => Some("TS")
    case Boundary => None
    case Other => None
  }

  /** No two entries of a table share a name, so a reader of the file can
      tell every shape, layer and unit apart. */
  lemma NamesDistinct()
    ensures forall a, b :: ShapeTemplate(a) == ShapeTemplate(b) ==> a == b
    ensures forall a, b :: LayerName(a).Some? && LayerName(a) == LayerName(b) ==> a == b
    ensures forall a, b :: UnitsName(a).Some? && UnitsName(a) == UnitsName(b) ==> a == b
    ensures forall a, b :: GraphicsLayerName(a).Some? && GraphicsLayerName(a) == GraphicsLayerName(b) ==> a == b
  {
    forall a, b | ShapeTemplate(a) == ShapeTemplate(b) ensures a == b {
      match a
      case CircularTH => assert ShapeTemplate(b)[0] == 'C' && ShapeTemplate(b)[1] == '-';
      case RectangularSMT => assert ShapeTemplate(b)[0] == '{';
      case RectangularTH => assert ShapeTemplate(b)[0] == 'S';
      case CircularSMT => assert ShapeTemplate(b)[1] == 'S';
    }
  }

  // ---------------------------------------------------------------------
  // Records

  /** A `PAD "{0}" "{1}" {2} {3} {4} {5}` line: designator, the style text
      (`template` filled with `size1` and `size2`), layer name, X, Y, flags. */
  datatype PadRecord = PadRecord(number: string, template: string, size1: real, size2: real,
                                 layer: string, x: real, y: real, flags: string)

  /** A `GRAPHIC {0} LINE 4 {1} {2} {3} {4}` line. */
  datatype GraphicRecord = GraphicRecord(layer: string, start: Point, end: Point)

  /** A line of the `*OBJECTS` block. */
  datatype ObjectRecord = PadLine(pad: PadRecord) | GraphicLine(graphic: GraphicRecord)

  /** A `"T{0:F0}" S {1} {2}` line: thickness, the point count (the
      `Segments` property), then X and Y of every point in order. */
  datatype TraceRecord = TraceRecord(thickness: real, segments: nat, coordinates: seq<real>)

  /** A `*LAYER {0}` block and the trace lines it holds. */
  datatype LayerBlock = LayerBlock(name: string, traces: seq<TraceRecord>)

  /** The file after the signature: the unit named in the header, the
      objects block, the (always empty) vias block and the layer blocks. */
  datatype RegionFile = RegionFile(units: string, objects: seq<ObjectRecord>, layers: seq<LayerBlock>)

  /** What `Write` gives back: the file, or the fault that escapes it, and
      the warnings it added on the way. */
  datatype Written = Written(file: Result<RegionFile, Fault>, warnings: seq<Warning>)

  /** Records and warnings of the objects block. */
  datatype ObjectsOut = ObjectsOut(records: seq<ObjectRecord>, warnings: seq<Warning>)

  // ---------------------------------------------------------------------
  // Pads

  /** The record of one pad, or the fault of its unnamed layer. */
  function PadRecordOf(p: PadValue): Result<PadRecord, Fault>
  {
    match LayerName(p.layer)
    case None => Failure(LayerNotNamed(p.layer))
    case Some(name) =>
      var s := p.style;
      Success(PadRecord(p.number, ShapeTemplate(s.shape),
                        s.dimension1 + (if p.layer == Drill then DrillRing else 0.0),
                        if s.drill > 0.0 then s.drill else s.dimension2,
                        name, p.x, p.y,
                        if p.flags.Some? then p.flags.value else StandardPadFlags))
  }

  /** The pad loop of `Write`: the records of `ps` in order, stopped by the
      first pad whose layer has no name. */
  function PadRecords(ps: seq<PadValue>): Result<seq<ObjectRecord>, Fault>
    decreases |ps|
  {
    if ps == [] then Success([])
    else
      match PadRecords(ps[..|ps| - 1])
      case Failure(f) => Failure(f)
      case Success(recs) =>
        match PadRecordOf(ps[|ps| - 1])
        case Failure(f) => Failure(f)
        case Success(rec) => Success(recs + [PadLine(rec)])
  }

  /** The pad loop succeeds exactly when every pad's layer has a name. */
  lemma {:induction false} PadRecordsFacts(ps: seq<PadValue>)
    ensures PadRecords(ps).Success? <==> forall k :: 0 <= k < |ps| ==> LayerName(ps[k].layer).Some?
    decreases |ps|
  {
    if ps != [] {
      var p := ps[..|ps| - 1];
      PadRecordsFacts(p);
      assert forall k :: 0 <= k < |p| ==> p[k] == ps[k];
    }
  }

  /** A successful pad loop writes one record per pad, in list order. */
  lemma {:induction false} PadRecordsContents(ps: seq<PadValue>)
    requires PadRecords(ps).Success?
    ensures |PadRecords(ps).value| == |ps|
    ensures forall k :: 0 <= k < |ps| ==>
      PadRecordOf(ps[k]).Success? && PadRecords(ps).value[k] == PadLine(PadRecordOf(ps[k]).value)
    decreases |ps|
  {
    if ps != [] {
      var p := ps[..|ps| - 1];
      PadRecordsContents(p);
      assert forall k :: 0 <= k < |p| ==> p[k] == ps[k];
    }
  }

  /** A failing pad loop names the layer of the first pad whose layer has
      no name. */
  lemma {:induction false} PadRecordsFault(ps: seq<PadValue>)
    requires PadRecords(ps).Failure?
    ensures exists k :: (0 <= k < |ps| && LayerName(ps[k].layer).None? &&
                         PadRecords(ps).error == LayerNotNamed(ps[k].layer) &&
                         forall j :: 0 <= j < k ==> LayerName(ps[j].layer).Some?)
    decreases |ps|
  {
    var p := ps[..|ps| - 1];
    if PadRecords(p).Failure? {
      PadRecordsFault(p);
      var k :| 0 <= k < |p| && LayerName(p[k].layer).None? &&
        PadRecords(p).error == LayerNotNamed(p[k].layer) &&
        forall j :: 0 <= j < k ==> LayerName(p[j].layer).Some?;
      assert ps[k] == p[k];
      assert forall j :: 0 <= j < k ==> ps[j] == p[j];
    } else {
      PadRecordsFacts(p);
      assert forall j :: 0 <= j < |p| ==> ps[j] == p[j];
    }
  }

  /** Once a prefix of the pads has failed, the whole list fails the same way. */
  lemma {:induction false} PadRecordsStop(ps: seq<PadValue>, i: nat)
    requires i <= |ps| && PadRecords(ps[..i]).Failure?
    ensures PadRecords(ps) == PadRecords(ps[..i])
    decreases |ps| - i
  {
    if i < |ps| {
      assert ps[..i + 1][..i] == ps[..i];
      PadRecordsStop(ps, i + 1);
    } else {
      assert ps[..i] == ps;
    }
  }

  // ---------------------------------------------------------------------
  // Silk lines

  /** The lines of one graphics object on `layer`, in order: a record each
      where the layer has a name, otherwise a warning each (the exception is
      caught per line). */
  function LinesOutput(layer: PcbGraphicsLayer, lines: seq<SilkLineValue>): ObjectsOut
    decreases |lines|
  {
    if lines == [] then ObjectsOut([], [])
    else
      var o := LinesOutput(layer, lines[..|lines| - 1]);
      var line := lines[|lines| - 1];
      match GraphicsLayerName(layer)
      case Some(name) => o.(records := o.records + [GraphicLine(GraphicRecord(name, line.start, line.end))])
      case None => o.(warnings := o.warnings + [GraphicsLayerSkipped(layer)])
  }

  /** On BottomSilk and TopSilk every line is written and nothing is
      warned; on Boundary and Other every line is skipped with one warning. */
  lemma {:induction false} LinesOutputFacts(layer: PcbGraphicsLayer, lines: seq<SilkLineValue>)
    ensures var o := LinesOutput(layer, lines);
      if GraphicsLayerName(layer).Some? then
        o.warnings == [] && |o.records| == |lines| &&
        forall j :: 0 <= j < |lines| ==>
          o.records[j] == GraphicLine(GraphicRecord(GraphicsLayerName(layer).value, lines[j].start, lines[j].end))
      else
        o.records == [] && |o.warnings| == |lines| &&
        forall j :: 0 <= j < |lines| ==> o.warnings[j] == GraphicsLayerSkipped(layer)
    decreases |lines|
  {
    if lines != [] {
      var p := lines[..|lines| - 1];
      LinesOutputFacts(layer, p);
      assert forall j :: 0 <= j < |p| ==> p[j] == lines[j];
    }
  }

  /** The graphics loop of `Write`: the lines of every graphics object in
      list order. */
  function GraphicsOutput(gs: seq<GraphicsValue>): ObjectsOut
    decreases |gs|
  {
    if gs == [] then ObjectsOut([], [])
    else
      var o := GraphicsOutput(gs[..|gs| - 1]);
      var g := gs[|gs| - 1];
      var l := LinesOutput(g.layer, g.lines);
      ObjectsOut(o.records + l.records, o.warnings + l.warnings)
  }

  /** The number of silk lines held by `gs`. */
  function TotalLines(gs: seq<GraphicsValue>): nat
    decreases |gs|
  {
    if gs == [] then 0 else TotalLines(gs[..|gs| - 1]) + |gs[|gs| - 1].lines|
  }

  /** Every silk line is either written or warned about, exactly once, and
      every warning names a layer without a name. */
  lemma {:induction false} GraphicsOutputCount(gs: seq<GraphicsValue>)
    ensures var o := GraphicsOutput(gs);
      |o.records| + |o.warnings| == TotalLines(gs) &&
      forall w :: w in o.warnings ==> w.GraphicsLayerSkipped? && GraphicsLayerName(w.layer).None?
    decreases |gs|
  {
    if gs != [] {
      var g := gs[|gs| - 1];
      GraphicsOutputCount(gs[..|gs| - 1]);
      LinesOutputFacts(g.layer, g.lines);
    }
  }

  // ---------------------------------------------------------------------
  // Traces and layer blocks

  /** The X Y list of a trace, `string.Join(" ", ...)` of its points. */
  function Coordinates(xy: seq<Point>): (c: seq<real>)
    ensures |c| == 2 * |xy|
    ensures forall k :: 0 <= k < |xy| ==> c[2 * k] == xy[k].x && c[2 * k + 1] == xy[k].y
    decreases |xy|
  {
    if xy == [] then []
    else Coordinates(xy[..|xy| - 1]) + [xy[|xy| - 1].x, xy[|xy| - 1].y]
  }

  function TraceRecordOf(t: TraceValue): TraceRecord
  {
    TraceRecord(t.thickness, |t.xy|, Coordinates(t.xy))
  }

  function TraceRecords(ts: seq<TraceValue>): (r: seq<TraceRecord>)
    ensures |r| == |ts| && forall k :: 0 <= k < |ts| ==> r[k] == TraceRecordOf(ts[k])
  {
    seq(|ts|, k requires 0 <= k < |ts| => TraceRecordOf(ts[k]))
  }

  /** The trace records in the buffer `temp` once the layer loop has passed
      the first `n` layers of `ls`: the buffer is cleared only before that
      loop, so it keeps the records of every layer seen so far. */
  function Buffer(ls: seq<PcbLayer>, n: nat, ts: seq<TraceValue>): seq<TraceRecord>
    requires n <= |ls|
  {
    if n == 0 then [] else Buffer(ls, n - 1, ts) + TraceRecords(TracesOnLayer(ts, ls[n - 1]))
  }

  /** Every layer of `ls` has a name. */
  predicate AllNamed(ls: seq<PcbLayer>)
  {
    forall k :: 0 <= k < |ls| ==> LayerName(ls[k]).Some?
  }

  /** The position of the first layer of `ls` without a name. */
  function FirstUnnamed(ls: seq<PcbLayer>): (i: nat)
    requires !AllNamed(ls)
    ensures i < |ls| && LayerName(ls[i]).None?
    ensures forall k :: 0 <= k < i ==> LayerName(ls[k]).Some?
  {
    if LayerName(ls[0]).None? then 0
    else
      var i := FirstUnnamed(ls[1..]) + 1;
      assert forall k :: 1 <= k < i ==> ls[k] == ls[1..][k - 1];
      i
  }

  /** Block `k` as the layer loop writes it: named after `ls[k]`, holding
      the whole buffer after that layer. */
  function BlockAt(ls: seq<PcbLayer>, k: nat, ts: seq<TraceValue>): LayerBlock
    requires k < |ls| && LayerName(ls[k]).Some?
  {
    LayerBlock(LayerName(ls[k]).value, Buffer(ls, k + 1, ts))
  }

  /** The layer loop of `Write` as written: one block per layer, and the
      first layer without a name throws. */
  function LayerBlocks(ls: seq<PcbLayer>, ts: seq<TraceValue>): Result<seq<LayerBlock>, Fault>
  {
    if AllNamed(ls) then Success(seq(|ls|, k requires 0 <= k < |ls| && AllNamed(ls) => BlockAt(ls, k, ts)))
    else Failure(LayerNotNamed(ls[FirstUnnamed(ls)]))
  }

  /** The first `n` layers of `ls` have names, counted as the layer loop
      of `Write` meets them. */
  predicate NamedUpTo(ls: seq<PcbLayer>, n: nat)
    requires n <= |ls|
  {
    n == 0 || (NamedUpTo(ls, n - 1) && LayerName(ls[n - 1]).Some?)
  }

  lemma {:induction false} NamedUpToAll(ls: seq<PcbLayer>, n: nat)
    requires n <= |ls|
    ensures NamedUpTo(ls, n) <==> forall k :: 0 <= k < n ==> LayerName(ls[k]).Some?
  {
    if n > 0 {
      NamedUpToAll(ls, n - 1);
    }
  }

  /** The blocks the layer loop has written after `n` layers. */
  function BlocksUpTo(ls: seq<PcbLayer>, n: nat, ts: seq<TraceValue>): seq<LayerBlock>
    requires n <= |ls| && NamedUpTo(ls, n)
  {
    if n == 0 then [] else BlocksUpTo(ls, n - 1, ts) + [BlockAt(ls, n - 1, ts)]
  }

  /** Once the loop has passed every layer, its blocks are `LayerBlocks`. */
  lemma LayerBlocksUpTo(ls: seq<PcbLayer>, ts: seq<TraceValue>)
    requires NamedUpTo(ls, |ls|)
    ensures LayerBlocks(ls, ts) == Success(BlocksUpTo(ls, |ls|, ts))
  {
    NamedUpToAll(ls, |ls|);
    BlocksUpToAt(ls, |ls|, ts);
    assert LayerBlocks(ls, ts).value == BlocksUpTo(ls, |ls|, ts);
  }

  lemma {:induction false} BlocksUpToAt(ls: seq<PcbLayer>, n: nat, ts: seq<TraceValue>)
    requires n <= |ls| && NamedUpTo(ls, n)
    ensures |BlocksUpTo(ls, n, ts)| == n
    ensures forall k :: 0 <= k < n ==> LayerName(ls[k]).Some? && BlocksUpTo(ls, n, ts)[k] == BlockAt(ls, k, ts)
  {
    NamedUpToAll(ls, n);
    if n > 0 {
      BlocksUpToAt(ls, n - 1, ts);
    }
  }

  /** The loop stops at its first layer without a name, `i`. */
  lemma FirstUnnamedAt(ls: seq<PcbLayer>, i: nat, ts: seq<TraceValue>)
    requires i < |ls| && NamedUpTo(ls, i) && LayerName(ls[i]).None?
    ensures !AllNamed(ls) && LayerBlocks(ls, ts) == Failure(LayerNotNamed(ls[i]))
  {
    NamedUpToAll(ls, i);
    var j := FirstUnnamed(ls);
    assert !(j < i) && !(i < j);
  }

  /** A trace on Top followed by one on Bottom: the layer loop visits Top
      then Bottom, one trace on each. */
  lemma TopBottomTraces(t1: TraceValue, t2: TraceValue)
    requires t1.layer == Top && t2.layer == Bottom
    ensures Dedup(TraceLayers([t1, t2])) == [Top, Bottom]
    ensures TracesOnLayer([t1, t2], Top) == [t1] && TracesOnLayer([t1, t2], Bottom) == [t2]
  {
    var ts := [t1, t2];
    assert TraceLayers(ts) == [Top, Bottom];
    assert [Top, Bottom][..1] == [Top] && [Top][..0] == [];
    assert ts[..1] == [t1] && [t1][..0] == [];
  }

  /** The same two traces: the Bottom block of the file as written repeats
      the Top trace. */
  lemma LayerBlocksAccumulate(t1: TraceValue, t2: TraceValue)
    requires t1.layer == Top && t2.layer == Bottom
    ensures var ls, ts := Dedup(TraceLayers([t1, t2])), [t1, t2];
      ls == [Top, Bottom] &&
      LayerBlocks(ls, ts) == Success([LayerBlock("TOP", [TraceRecordOf(t1)]),
                                      LayerBlock("BOT", [TraceRecordOf(t1), TraceRecordOf(t2)])])
  {
    var ts := [t1, t2];
    var ls := [Top, Bottom];
    TopBottomTraces(t1, t2);
    assert Buffer(ls, 1, ts) == [TraceRecordOf(t1)];
    assert Buffer(ls, 2, ts) == [TraceRecordOf(t1), TraceRecordOf(t2)];
    assert AllNamed(ls);
    var bs := LayerBlocks(ls, ts).value;
    assert bs[0] == BlockAt(ls, 0, ts) && bs[1] == BlockAt(ls, 1, ts);
    assert bs == [LayerBlock("TOP", [TraceRecordOf(t1)]), LayerBlock("BOT", [TraceRecordOf(t1), TraceRecordOf(t2)])];
  }

  /** Block `k` as evidently intended: only the traces on its own layer. */
  function OwnBlockAt(ls: seq<PcbLayer>, k: nat, ts: seq<TraceValue>): LayerBlock
    requires k < |ls| && LayerName(ls[k]).Some?
  {
    LayerBlock(LayerName(ls[k]).value, TraceRecords(TracesOnLayer(ts, ls[k])))
  }

  /** The layer blocks with the buffer cleared for every layer. */
  function IntendedLayerBlocks(ls: seq<PcbLayer>, ts: seq<TraceValue>): Result<seq<LayerBlock>, Fault>
  {
    if AllNamed(ls) then Success(seq(|ls|, k requires 0 <= k < |ls| && AllNamed(ls) => OwnBlockAt(ls, k, ts)))
    else Failure(LayerNotNamed(ls[FirstUnnamed(ls)]))
  }

  /** With the buffer cleared per layer, a block holds only records of
      traces on its own layer. */
  lemma IntendedBlocksOwnLayer(ts: seq<TraceValue>, k: nat, r: TraceRecord)
    requires IntendedLayerBlocks(Dedup(TraceLayers(ts)), ts).Success?
    requires k < |Dedup(TraceLayers(ts))| && r in IntendedLayerBlocks(Dedup(TraceLayers(ts)), ts).value[k].traces
    ensures exists t :: t in ts && t.layer == Dedup(TraceLayers(ts))[k] && r == TraceRecordOf(t)
  {
    var ls := Dedup(TraceLayers(ts));
    var on := TracesOnLayer(ts, ls[k]);
    assert IntendedLayerBlocks(ls, ts).value[k] == OwnBlockAt(ls, k, ts);
    var m :| 0 <= m < |on| && TraceRecords(on)[m] == r;
    assert on[m] in on;
  }

  /** With the buffer cleared per layer, every trace of the design lands in
      the block of its own layer, and there is one block per distinct
      trace layer. */
  lemma IntendedBlocksCover(ts: seq<TraceValue>, t: TraceValue)
    requires IntendedLayerBlocks(Dedup(TraceLayers(ts)), ts).Success? && t in ts
    ensures var ls := Dedup(TraceLayers(ts));
      var bs := IntendedLayerBlocks(ls, ts).value;
      |bs| == |ls| &&
      exists k :: 0 <= k < |ls| && ls[k] == t.layer && TraceRecordOf(t) in bs[k].traces
  {
    var ls := Dedup(TraceLayers(ts));
    var bs := IntendedLayerBlocks(ls, ts).value;
    DedupDistinct(TraceLayers(ts));
    var i :| 0 <= i < |ts| && ts[i] == t;
    assert TraceLayers(ts)[i] == t.layer;
    assert t.layer in ls;
    var k :| 0 <= k < |ls| && ls[k] == t.layer;
    var on := TracesOnLayer(ts, ls[k]);
    var m :| 0 <= m < |on| && on[m] == t;
    assert bs[k] == OwnBlockAt(ls, k, ts);
    assert bs[k].traces[m] == TraceRecordOf(t);
  }

  // ---------------------------------------------------------------------
  // The whole file

  /** The design `Write` encodes: dimensions in thou and coordinates in
      units of 10 nm, or None where a synchronization throws. */
  function Prepared(d: DesignValue): (r: Option<DesignValue>)
  {
    if !UnitsSyncable(d, Thou) then None
    else
      var e := SyncUnits(d, Thou);
      if !CoordinatesSyncable(e, TenNanometers) then None
      else Some(SyncCoordinates(e, TenNanometers))
  }

  /** The records of an already synchronized design, in output order. */
  function RegionOf(d: DesignValue): Written
  {
    match UnitsName(d.coordinateUnits)
    case None => Written(Failure(UnitsNotNamed(d.coordinateUnits)), [])
    case Some(units) =>
      match PadRecords(d.pads)
      case Failure(f) => Written(Failure(f), [])
      case Success(padLines) =>
        var lines := GraphicsOutput(d.graphics);
        match LayerBlocks(Dedup(TraceLayers(d.traces)), d.traces)
        case Failure(f) => Written(Failure(f), lines.warnings)
        case Success(blocks) => Written(Success(RegionFile(units, padLines + lines.records, blocks)), lines.warnings)
  }

  /** `Write` on a design whose value is `d`. */
  function WriteOf(d: DesignValue): Written
  {
    match Prepared(d)
    case None => Written(Failure(UnitsNotConvertible), [])
    case Some(e) => RegionOf(e)
  }

  /** The synchronized design has every dimension in thou and every
      coordinate in units of 10 nm, and otherwise the shape of `d`. */
  lemma PreparedFacts(d: DesignValue)
    requires Prepared(d).Some?
    ensures var e := Prepared(d).value;
      InUnits(e, Thou) && InCoordinateUnits(e, TenNanometers) && SameShape(d, e)
  {
    var e1 := SyncUnits(d, Thou);
    SyncCoordinatesKeepsUnits(e1, TenNanometers);
  }

  /** A second `Write` of the same design gives the same result: both
      synchronizations are then no-ops. */
  lemma WriteIdempotent(d: DesignValue)
    requires Prepared(d).Some?
    ensures Prepared(Prepared(d).value) == Prepared(d)
    ensures WriteOf(Prepared(d).value) == WriteOf(d)
  {
    var e := Prepared(d).value;
    PreparedFacts(d);
    SyncUnitsIdentity(e, Thou);
    SyncCoordinatesIdentity(e, TenNanometers);
  }

  /** Whatever the design, the header of a written file names 10 nm, and
      `Write` fails only where a unit has no multiplier or a pad or trace
      layer has no name. */
  lemma WriteHeader(d: DesignValue)
    ensures WriteOf(d).file.Success? ==> WriteOf(d).file.value.units == "10nm"
    ensures WriteOf(d).file.Failure? ==>
      WriteOf(d).file.error == UnitsNotConvertible || WriteOf(d).file.error.LayerNotNamed?
  {
    if Prepared(d).Some? {
      PreparedFacts(d);
      var e := Prepared(d).value;
      if PadRecords(e.pads).Failure? {
        PadRecordsFault(e.pads);
      }
    }
  }

  /** One pad as `Write` finds it after both synchronizations. */
  function PreparedPad(p: PadValue): PadValue
    requires CanSync(p.style.units, Thou) && CanSync(p.coordinateUnits, TenNanometers)
  {
    PadCoordinatesSynced(PadUnitsSynced(p, Thou), TenNanometers)
  }

  /** The pads of the synchronized design are the original pads, each
      synchronized on its own. */
  lemma PreparedPads(d: DesignValue, k: nat)
    requires Prepared(d).Some? && k < |d.pads|
    ensures CanSync(d.pads[k].style.units, Thou) && CanSync(d.pads[k].coordinateUnits, TenNanometers)
    ensures k < |Prepared(d).value.pads| && Prepared(d).value.pads[k] == PreparedPad(d.pads[k])
  {
    var e1 := SyncUnits(d, Thou);
    assert e1.pads[k] == PadUnitsSynced(d.pads[k], Thou);
  }

  /** The record of pad `p` computed straight from its own units:
      dimensions converted to thou (plus the ring on a Drill pad),
      position converted to units of 10 nm. */
  function ConvertedPadRecord(p: PadValue): PadRecord
    requires Convertible(p.style.units) && Convertible(p.coordinateUnits) && LayerName(p.layer).Some?
  {
    var s := p.style;
    var drill := Convert(s.drill, s.units, Thou);
    PadRecord(p.number, ShapeTemplate(s.shape),
              Convert(s.dimension1, s.units, Thou) + (if p.layer == Drill then DrillRing else 0.0),
              if drill > 0.0 then drill else Convert(s.dimension2, s.units, Thou),
              LayerName(p.layer).value,
              Convert(p.x, p.coordinateUnits, TenNanometers),
              Convert(p.y, p.coordinateUnits, TenNanometers),
              if p.flags.Some? then p.flags.value else StandardPadFlags)
  }

  /** Synchronizing a pad and then encoding it gives the record computed
      straight from its own units, whether or not the loops skipped it. */
  lemma PadRecordConverted(p: PadValue)
    requires CanSync(p.style.units, Thou) && CanSync(p.coordinateUnits, TenNanometers) && LayerName(p.layer).Some?
    ensures Convertible(p.style.units) && Convertible(p.coordinateUnits)
    ensures PadRecordOf(PreparedPad(p)) == Success(ConvertedPadRecord(p))
  {
    var s := p.style;
    if s.units == Thou {
      ConvertSame(s.dimension1, Thou);
      ConvertSame(s.dimension2, Thou);
      ConvertSame(s.drill, Thou);
    }
    if p.coordinateUnits == TenNanometers {
      ConvertSame(p.x, TenNanometers);
      ConvertSame(p.y, TenNanometers);
    }
  }

  /** The `k`-th object line of a written file is the record of the `k`-th
      pad of the original design, computed straight from its own units. */
  lemma WritePadRecord(d: DesignValue, k: nat)
    requires WriteOf(d).file.Success? && k < |d.pads|
    ensures var p := d.pads[k];
      Convertible(p.style.units) && Convertible(p.coordinateUnits) && LayerName(p.layer).Some? &&
      k < |WriteOf(d).file.value.objects| &&
      WriteOf(d).file.value.objects[k] == PadLine(ConvertedPadRecord(p))
  {
    var e := Prepared(d).value;
    PreparedPads(d, k);
    PadRecordsContents(e.pads);
    PadRecordConverted(d.pads[k]);
  }

  /** Every silk line of the design is either written, after the pads, or
      warned about once; the warnings are exactly `Write`'s. */
  lemma WriteObjectsCount(d: DesignValue)
    requires WriteOf(d).file.Success?
    ensures |WriteOf(d).file.value.objects| + |WriteOf(d).warnings| == |d.pads| + TotalLines(d.graphics)
    ensures forall w :: w in WriteOf(d).warnings ==> w.GraphicsLayerSkipped? && GraphicsLayerName(w.layer).None?
  {
    var e := Prepared(d).value;
    PreparedFacts(d);
    PadRecordsContents(e.pads);
    GraphicsOutputCount(e.graphics);
    SameShapeTotalLines(d.graphics, e.graphics);
  }

  /** Synchronization keeps the number of silk lines. */
  lemma {:induction false} SameShapeTotalLines(gs: seq<GraphicsValue>, hs: seq<GraphicsValue>)
    requires |gs| == |hs| && forall k :: 0 <= k < |gs| ==> |gs[k].lines| == |hs[k].lines|
    ensures TotalLines(gs) == TotalLines(hs)
    decreases |gs|
  {
    if gs != [] {
      SameShapeTotalLines(gs[..|gs| - 1], hs[..|hs| - 1]);
    }
  }

  /** The layer blocks of a written file follow the distinct trace layers
      of the original design in order of first mention, block `k` holding
      the trace records of the first `k + 1` of those layers. */
  lemma WriteLayerBlocks(d: DesignValue)
    requires WriteOf(d).file.Success?
    ensures var ls := Dedup(TraceLayers(d.traces));
      var e := Prepared(d).value;
      var bs := WriteOf(d).file.value.layers;
      |bs| == |ls| && AllNamed(ls) &&
      forall k :: 0 <= k < |ls| ==> bs[k] == BlockAt(ls, k, e.traces)
  {
    var e := Prepared(d).value;
    PreparedFacts(d);
    assert TraceLayers(e.traces) == TraceLayers(d.traces);
  }

  // ---------------------------------------------------------------------
  // The encoder

  /** `ARES7.Write`: synchronizes the design's units (changing it in
      place), then emits the signature, the header, the objects, the vias
      and the layer blocks. */
  method Write(design: PcbDesign) returns (file: Result<RegionFile, Fault>, warnings: seq<Warning>)
    modifies design`coordinateUnits, design.pads, StylesOf(design.pads), design.traces, design.graphics
    ensures Written(file, warnings) == WriteOf(old(design.Value()))
    ensures Prepared(old(design.Value())).Some? ==> design.Value() == Prepared(old(design.Value())).value
  {
    ghost var d := design.Value();
    var ok := design.SynchronizeUnits(Thou);
    if ok {
      ok := design.SynchronizeCoordinateUnits(TenNanometers);
    }
    if !ok {
      assert Prepared(d).None?;
      return Failure(UnitsNotConvertible), [];
    }
    ghost var e := design.Value();
    assert Prepared(d) == Some(e);
    file, warnings := Encode(design, e);
  }

  /** The output part of `Write`, on a design already synchronized, whose
      value is `e`. */
  method Encode(design: PcbDesign, ghost e: DesignValue) returns (file: Result<RegionFile, Fault>, warnings: seq<Warning>)
    requires e == design.Value()
    ensures Written(file, warnings) == RegionOf(e)
  {
    warnings := [];
    var units := UnitsName(design.coordinateUnits);
    if units.None? {
      return Failure(UnitsNotNamed(design.coordinateUnits)), [];
    }
    var padLines := WritePads(design, e.pads);
    if padLines.Failure? {
      return Failure(padLines.error), [];
    }
    var lines;
    lines, warnings := WriteGraphics(design, e.graphics);
    var blocks := WriteLayers(design, e.traces);
    if blocks.Failure? {
      return Failure(blocks.error), warnings;
    }
    file := Success(RegionFile(units.value, padLines.value + lines, blocks.value));
  }

  /** The pad loop of `Write`. */
  method WritePads(design: PcbDesign, ghost ps: seq<PadValue>) returns (r: Result<seq<ObjectRecord>, Fault>)
    requires ps == PadValues(design.pads)
    ensures r == PadRecords(ps)
  {
    var temp: seq<ObjectRecord> := [];
    for i := 0 to |design.pads|
      invariant PadRecords(ps[..i]) == Success(temp)
    {
      var item := design.pads[i];
      assert ps[..i + 1][..i] == ps[..i];
      assert item.Value() == ps[i];
      var style := item.style;
      var template := ShapeTemplate(style.shape);
      var size1 := style.dimension1 + (if item.layer == Drill then DrillRing else 0.0);
      var size2 := if style.drill > 0.0 then style.drill else style.dimension2;
      var name := LayerName(item.layer);
      if name.None? {
        PadRecordsStop(ps, i + 1);
        return Failure(LayerNotNamed(item.layer));
      }
      var flags := if item.flags.Some? then item.flags.value else StandardPadFlags;
      temp := temp + [PadLine(PadRecord(item.number, template, size1, size2, name.value, item.x, item.y, flags))];
    }
    assert ps[..|design.pads|] == ps;
    r := Success(temp);
  }

  /** The graphics loop of `Write`. */
  method WriteGraphics(design: PcbDesign, ghost gs: seq<GraphicsValue>) returns (records: seq<ObjectRecord>, warnings: seq<Warning>)
    requires gs == GraphicsValues(design.graphics)
    ensures ObjectsOut(records, warnings) == GraphicsOutput(gs)
  {
    records, warnings := [], [];
    for i := 0 to |design.graphics|
      invariant ObjectsOut(records, warnings) == GraphicsOutput(gs[..i])
    {
      var item := design.graphics[i];
      assert gs[..i + 1][..i] == gs[..i];
      assert item.Value() == gs[i];
      records, warnings := WriteLines(item, records, warnings);
    }
    assert gs[..|design.graphics|] == gs;
  }

  /** The line loop of one graphics object, appending to the objects block
      and to the warnings. */
  method WriteLines(item: PcbGraphics, records0: seq<ObjectRecord>, warnings0: seq<Warning>)
      returns (records: seq<ObjectRecord>, warnings: seq<Warning>)
    ensures records == records0 + LinesOutput(item.layer, item.lines).records
    ensures warnings == warnings0 + LinesOutput(item.layer, item.lines).warnings
  {
    records, warnings := records0, warnings0;
    for j := 0 to |item.lines|
      invariant records == records0 + LinesOutput(item.layer, item.lines[..j]).records
      invariant warnings == warnings0 + LinesOutput(item.layer, item.lines[..j]).warnings
    {
      var line := item.lines[j];
      assert item.lines[..j + 1][..j] == item.lines[..j];
      var name := GraphicsLayerName(item.layer);
      if name.Some? {
        records := records + [GraphicLine(GraphicRecord(name.value, line.start, line.end))];
      } else {
        warnings := warnings + [GraphicsLayerSkipped(item.layer)];
      }
    }
    assert item.lines[..|item.lines|] == item.lines;
  }

  /** The layer loop of `Write`. */
  method WriteLayers(design: PcbDesign, ghost ts: seq<TraceValue>) returns (r: Result<seq<LayerBlock>, Fault>)
    requires ts == TraceValues(design.traces)
    ensures r == LayerBlocks(Dedup(TraceLayers(ts)), ts)
  {
    var layers := design.GetLayers(true);
    design.WalkedTraceLayers();
    r := WriteBlocks(design, layers, ts);
  }

  /** The loop of `Write` over the trace layers `layers`, with the one
      buffer `temp` for all of them. */
  method WriteBlocks(design: PcbDesign, layers: seq<PcbLayer>, ghost ts: seq<TraceValue>)
      returns (r: Result<seq<LayerBlock>, Fault>)
    requires ts == TraceValues(design.traces)
    ensures r == LayerBlocks(layers, ts)
  {
    var blocks: seq<LayerBlock> := [];
    var temp: seq<TraceRecord> := [];
    for i := 0 to |layers|
      invariant NamedUpTo(layers, i) && blocks == BlocksUpTo(layers, i, ts)
      invariant temp == Buffer(layers, i, ts)
    {
      var item := layers[i];
      temp := AppendLayerTraces(design, item, ts, temp);
      var name := LayerName(item);
      if name.None? {
        FirstUnnamedAt(layers, i, ts);
        return Failure(LayerNotNamed(item));
      }
      blocks := blocks + [LayerBlock(name.value, temp)];
    }
    LayerBlocksUpTo(layers, ts);
    r := Success(blocks);
  }

  /** The traces of one layer, fetched from the design and appended to
      the buffer. */
  method AppendLayerTraces(design: PcbDesign, item: PcbLayer, ghost ts: seq<TraceValue>, temp0: seq<TraceRecord>)
      returns (temp: seq<TraceRecord>)
    requires ts == TraceValues(design.traces)
    ensures temp == temp0 + TraceRecords(TracesOnLayer(ts, item))
  {
    ghost var on := TracesOn(design.traces, item);
    ghost var vs := TraceValues(on);
    TracesOnValues(design.traces, item);
    var objects := design.GetObjectsFromLayer(item, true);
    temp := AppendTraceRecords(objects, on, vs, temp0);
  }

  /** The trace loop of one layer block: `objects` are the traces `ts` on
      the layer, whose values are `vs`, and each adds its record to the
      buffer. */
  method AppendTraceRecords(objects: seq<PcbObject>, ghost ts: seq<PcbTrace>, ghost vs: seq<TraceValue>,
                            temp0: seq<TraceRecord>) returns (temp: seq<TraceRecord>)
    requires objects == TraceObjects(ts) && vs == TraceValues(ts)
    ensures temp == temp0 + TraceRecords(vs)
  {
    temp := temp0;
    for j := 0 to |objects|
      invariant temp == temp0 + TraceRecords(vs[..j])
    {
      var trace := objects[j].trace;
      assert trace.Value() == vs[j];
      assert TraceRecords(vs[..j + 1]) == TraceRecords(vs[..j]) + [TraceRecordOf(vs[j])];
      temp := temp + [TraceRecord(trace.thickness, trace.Segments(), Coordinates(trace.xy))];
    }
    assert vs[..|objects|] == vs;
  }
}
