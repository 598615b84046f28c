/** The enumerations of Pcb.cs and a value view of every geometric entity.
    The classes in pcb.dfy are what the converter mutates; each has a
    `Value()` of the type declared here, and the value-level functions below
    (unit synchronization, layer lists) are what their methods are proved
    against. */
module PcbValues {
  import opened Outcomes
  import opened Units

  /** `PcbLayer`.  The C# enum is an `int` (Drill = -1 ... Top = 4) and the
      decoder casts arbitrary integers to it; a code outside -1..4 is an
      unnamed value, here `Extended(code)`. */
  datatype PcbLayer = Drill | All | Bottom | InternalBottom | InternalTop | Top | Extended(code: int)

  function LayerCode(l: PcbLayer): int
  {
    match l
    case Drill => -1
    case All => 0
    case Bottom => 1
    case InternalBottom => 2
    case InternalTop => 3
    case Top => 4
    case Extended(c) => c
  }

  /** Layers that a cast can produce: a named member is never spelled Extended. */
  predicate Canonical(l: PcbLayer)
  {
    l.Extended? ==> l.code < -1 || 4 < l.code
  }

  /** `(PcbLayer)c`, the C# enum cast. */
  function LayerOfCode(c: int): (l: PcbLayer)
    ensures Canonical(l) && LayerCode(l) == c
  {
    if c == -1 then Drill
    else if c == 0 then All
    else if c == 1 then Bottom
    else if c == 2 then InternalBottom
    else if c == 3 then InternalTop
    else if c == 4 then Top
    else Extended(c)
  }

  /** The cast and the underlying code are inverse on canonical layers, so
      equality of canonical layers is equality of their codes, as in C#. */
  lemma LayerCodeRoundTrip(l: PcbLayer)
    requires Canonical(l)
    ensures LayerOfCode(LayerCode(l)) == l
  {
  }

  datatype PcbGraphicsLayer = BottomSilk | TopSilk | Boundary | Other
  datatype PcbPadShape = CircularTH | RectangularTH | RectangularSMT | CircularSMT
  datatype PcbLineType = Solid | Dashed | Dotted

  datatype Point = Point(x: real, y: real)

  datatype PadStyleValue = PadStyleValue(shape: PcbPadShape, units: PcbUnits,
                                         dimension1: real, dimension2: real, drill: real)
  /** `flags == None` is the C# null, which the encoder replaces by "0 1". */
  datatype PadValue = PadValue(number: string, coordinateUnits: PcbUnits, x: real, y: real,
                               layer: PcbLayer, style: PadStyleValue, flags: Option<string>)
  datatype SilkLineValue = SilkLineValue(start: Point, end: Point, units: PcbUnits,
                                         coordinateUnits: PcbUnits, thickness: real, lineType: PcbLineType)
  datatype GraphicsValue = GraphicsValue(lines: seq<SilkLineValue>, units: PcbUnits,
                                         coordinateUnits: PcbUnits, layer: PcbGraphicsLayer)
  datatype TraceValue = TraceValue(xy: seq<Point>, layer: PcbLayer, thickness: real,
                                   units: PcbUnits, coordinateUnits: PcbUnits)
  datatype DesignValue = DesignValue(graphics: seq<GraphicsValue>, pads: seq<PadValue>,
                                     traces: seq<TraceValue>, coordinateUnits: PcbUnits)

  /** `new PcbDesign()`: empty lists; the unset enum property is its zero, Thou. */
  const EmptyDesign := DesignValue([], [], [], Thou)

  // ---------------------------------------------------------------------
  // One entity re-expressed in another unit (the SetUnits methods).

  function ConvertPoint(p: Point, from: PcbUnits, to: PcbUnits): Point
    requires Convertible(from) && Convertible(to)
  {
    Point(Convert(p.x, from, to), Convert(p.y, from, to))
  }

  /** An entity tagged `from` can be synchronized to `to`: the loops skip it
      when the tags agree, and otherwise its SetUnits needs both multipliers. */
  predicate CanSync(from: PcbUnits, to: PcbUnits)
  {
    from == to || (Convertible(from) && Convertible(to))
  }

  /** `PcbPadStyle.SetUnits`: every dimension scaled, the tag replaced. */
  function StyleConverted(s: PadStyleValue, u: PcbUnits): PadStyleValue
    requires Convertible(s.units) && Convertible(u)
  {
    PadStyleValue(s.shape, u, Convert(s.dimension1, s.units, u),
                  Convert(s.dimension2, s.units, u), Convert(s.drill, s.units, u))
  }

  /** What the synchronization loops do to one entity: leave it alone when
      its tag is already `u`, otherwise call its SetUnits. */
  function StyleSynced(s: PadStyleValue, u: PcbUnits): PadStyleValue
    requires CanSync(s.units, u)
  {
    if s.units == u then s else StyleConverted(s, u)
  }

  function PadUnitsSynced(p: PadValue, u: PcbUnits): PadValue
    requires CanSync(p.style.units, u)
  {
    p.(style := StyleSynced(p.style, u))
  }

  /** `PcbPad.SetCoordinateUnits`. */
  function PadCoordinatesConverted(p: PadValue, u: PcbUnits): PadValue
    requires Convertible(p.coordinateUnits) && Convertible(u)
  {
    p.(coordinateUnits := u, x := Convert(p.x, p.coordinateUnits, u), y := Convert(p.y, p.coordinateUnits, u))
  }

  function PadCoordinatesSynced(p: PadValue, u: PcbUnits): PadValue
    requires CanSync(p.coordinateUnits, u)
  {
    if p.coordinateUnits == u then p else PadCoordinatesConverted(p, u)
  }

  /** `PcbTrace.SetUnits`. */
  function TraceUnitsConverted(t: TraceValue, u: PcbUnits): TraceValue
    requires Convertible(t.units) && Convertible(u)
  {
    t.(units := u, thickness := Convert(t.thickness, t.units, u))
  }

  function TraceUnitsSynced(t: TraceValue, u: PcbUnits): TraceValue
    requires CanSync(t.units, u)
  {
    if t.units == u then t else TraceUnitsConverted(t, u)
  }

  function PointsConverted(xy: seq<Point>, from: PcbUnits, to: PcbUnits): (r: seq<Point>)
    requires Convertible(from) && Convertible(to)
    ensures |r| == |xy|
    ensures forall k :: 0 <= k < |xy| ==> r[k] == ConvertPoint(xy[k], from, to)
  {
    seq(|xy|, k requires 0 <= k < |xy| => ConvertPoint(xy[k], from, to))
  }

  /** `PcbTrace.SetCoordinateUnits`. */
  function TraceCoordinatesConverted(t: TraceValue, u: PcbUnits): TraceValue
    requires Convertible(t.coordinateUnits) && Convertible(u)
  {
    t.(coordinateUnits := u, xy := PointsConverted(t.xy, t.coordinateUnits, u))
  }

  function TraceCoordinatesSynced(t: TraceValue, u: PcbUnits): TraceValue
    requires CanSync(t.coordinateUnits, u)
  {
    if t.coordinateUnits == u then t else TraceCoordinatesConverted(t, u)
  }

  /** `PcbSilkLine.SetUnits`. */
  function LineUnitsConverted(l: SilkLineValue, u: PcbUnits): SilkLineValue
    requires Convertible(l.units) && Convertible(u)
  {
    l.(units := u, thickness := Convert(l.thickness, l.units, u))
  }

  function LineUnitsSynced(l: SilkLineValue, u: PcbUnits): SilkLineValue
    requires CanSync(l.units, u)
  {
    if l.units == u then l else LineUnitsConverted(l, u)
  }

  /** `PcbSilkLine.SetCoordinateUnits`. */
  function LineCoordinatesConverted(l: SilkLineValue, u: PcbUnits): SilkLineValue
    requires Convertible(l.coordinateUnits) && Convertible(u)
  {
    l.(coordinateUnits := u, start := ConvertPoint(l.start, l.coordinateUnits, u),
       end := ConvertPoint(l.end, l.coordinateUnits, u))
  }

  function LineCoordinatesSynced(l: SilkLineValue, u: PcbUnits): SilkLineValue
    requires CanSync(l.coordinateUnits, u)
  {
    if l.coordinateUnits == u then l else LineCoordinatesConverted(l, u)
  }

  // ---------------------------------------------------------------------
  // Graphics-level and design-level synchronization.

  predicate GraphicsUnitsSyncable(g: GraphicsValue, u: PcbUnits)
  {
    forall j :: 0 <= j < |g.lines| ==> CanSync(g.lines[j].units, u)
  }

  predicate GraphicsCoordinatesSyncable(g: GraphicsValue, u: PcbUnits)
  {
    forall j :: 0 <= j < |g.lines| ==> CanSync(g.lines[j].coordinateUnits, u)
  }

  /** `PcbGraphics.SynchronizeUnits`. */
  function GraphicsUnitsSynced(g: GraphicsValue, u: PcbUnits): GraphicsValue
    requires GraphicsUnitsSyncable(g, u)
  {
    g.(units := u, lines := seq(|g.lines|, j requires 0 <= j < |g.lines| => LineUnitsSynced(g.lines[j], u)))
  }

  /** `PcbGraphics.SynchronizeCoordinateUnits`. */
  function GraphicsCoordinatesSynced(g: GraphicsValue, u: PcbUnits): GraphicsValue
    requires GraphicsCoordinatesSyncable(g, u)
  {
    g.(coordinateUnits := u,
       lines := seq(|g.lines|, j requires 0 <= j < |g.lines| => LineCoordinatesSynced(g.lines[j], u)))
  }

  /** Synchronizing a graphics a second time to the same unit changes
      nothing; the design loops rely on this when one graphics object
      appears twice in the list. */
  lemma GraphicsUnitsSyncedAgain(g: GraphicsValue, u: PcbUnits)
    requires GraphicsUnitsSyncable(g, u)
    ensures GraphicsUnitsSyncable(GraphicsUnitsSynced(g, u), u)
    ensures GraphicsUnitsSynced(GraphicsUnitsSynced(g, u), u) == GraphicsUnitsSynced(g, u)
  {
    var h := GraphicsUnitsSynced(g, u);
    assert GraphicsUnitsSynced(h, u).lines == h.lines;
  }

  lemma GraphicsCoordinatesSyncedAgain(g: GraphicsValue, u: PcbUnits)
    requires GraphicsCoordinatesSyncable(g, u)
    ensures GraphicsCoordinatesSyncable(GraphicsCoordinatesSynced(g, u), u)
    ensures GraphicsCoordinatesSynced(GraphicsCoordinatesSynced(g, u), u) == GraphicsCoordinatesSynced(g, u)
  {
    var h := GraphicsCoordinatesSynced(g, u);
    assert GraphicsCoordinatesSynced(h, u).lines == h.lines;
  }

  predicate PadsUnitsSyncable(ps: seq<PadValue>, u: PcbUnits)
  {
    forall k :: 0 <= k < |ps| ==> CanSync(ps[k].style.units, u)
  }

  predicate TracesUnitsSyncable(ts: seq<TraceValue>, u: PcbUnits)
  {
    forall k :: 0 <= k < |ts| ==> CanSync(ts[k].units, u)
  }

  predicate GraphicsListUnitsSyncable(gs: seq<GraphicsValue>, u: PcbUnits)
  {
    forall k :: 0 <= k < |gs| ==> GraphicsUnitsSyncable(gs[k], u)
  }

  /** `PcbDesign.SynchronizeUnits(u)` throws exactly when some pad style,
      trace or silk line is tagged differently from `u` and one of the two
      units has no multiplier. */
  predicate UnitsSyncable(d: DesignValue, u: PcbUnits)
  {
    PadsUnitsSyncable(d.pads, u) && TracesUnitsSyncable(d.traces, u) && GraphicsListUnitsSyncable(d.graphics, u)
  }

  predicate PadsCoordinatesSyncable(ps: seq<PadValue>, u: PcbUnits)
  {
    forall k :: 0 <= k < |ps| ==> CanSync(ps[k].coordinateUnits, u)
  }

  predicate TracesCoordinatesSyncable(ts: seq<TraceValue>, u: PcbUnits)
  {
    forall k :: 0 <= k < |ts| ==> CanSync(ts[k].coordinateUnits, u)
  }

  predicate GraphicsListCoordinatesSyncable(gs: seq<GraphicsValue>, u: PcbUnits)
  {
    forall k :: 0 <= k < |gs| ==> GraphicsCoordinatesSyncable(gs[k], u)
  }

  predicate CoordinatesSyncable(d: DesignValue, u: PcbUnits)
  {
    && PadsCoordinatesSyncable(d.pads, u) && TracesCoordinatesSyncable(d.traces, u)
    && GraphicsListCoordinatesSyncable(d.graphics, u)
  }

  /** The three loops of `PcbDesign.SynchronizeUnits`, one list each. */
  function PadsUnitsSynced(ps: seq<PadValue>, u: PcbUnits): seq<PadValue>
    requires PadsUnitsSyncable(ps, u)
  {
    seq(|ps|, k requires 0 <= k < |ps| => PadUnitsSynced(ps[k], u))
  }

  function TracesUnitsSynced(ts: seq<TraceValue>, u: PcbUnits): seq<TraceValue>
    requires TracesUnitsSyncable(ts, u)
  {
    seq(|ts|, k requires 0 <= k < |ts| => TraceUnitsSynced(ts[k], u))
  }

  function GraphicsListUnitsSynced(gs: seq<GraphicsValue>, u: PcbUnits): seq<GraphicsValue>
    requires GraphicsListUnitsSyncable(gs, u)
  {
    seq(|gs|, k requires 0 <= k < |gs| => GraphicsUnitsSynced(gs[k], u))
  }

  /** The three loops of `PcbDesign.SynchronizeCoordinateUnits`. */
  function PadsCoordinatesSynced(ps: seq<PadValue>, u: PcbUnits): seq<PadValue>
    requires PadsCoordinatesSyncable(ps, u)
  {
    seq(|ps|, k requires 0 <= k < |ps| => PadCoordinatesSynced(ps[k], u))
  }

  function TracesCoordinatesSynced(ts: seq<TraceValue>, u: PcbUnits): seq<TraceValue>
    requires TracesCoordinatesSyncable(ts, u)
  {
    seq(|ts|, k requires 0 <= k < |ts| => TraceCoordinatesSynced(ts[k], u))
  }

  function GraphicsListCoordinatesSynced(gs: seq<GraphicsValue>, u: PcbUnits): seq<GraphicsValue>
    requires GraphicsListCoordinatesSyncable(gs, u)
  {
    seq(|gs|, k requires 0 <= k < |gs| => GraphicsCoordinatesSynced(gs[k], u))
  }

  /** Every dimensional tag of the design is `u`. */
  predicate InUnits(d: DesignValue, u: PcbUnits)
  {
    && (forall k :: 0 <= k < |d.pads| ==> d.pads[k].style.units == u)
    && (forall k :: 0 <= k < |d.traces| ==> d.traces[k].units == u)
    && (forall k :: 0 <= k < |d.graphics| ==>
          (d.graphics[k].units == u &&
           forall j :: 0 <= j < |d.graphics[k].lines| ==> d.graphics[k].lines[j].units == u))
  }

  /** Every coordinate tag of the design, the design's own included, is `u`. */
  predicate InCoordinateUnits(d: DesignValue, u: PcbUnits)
  {
    && d.coordinateUnits == u
    && (forall k :: 0 <= k < |d.pads| ==> d.pads[k].coordinateUnits == u)
    && (forall k :: 0 <= k < |d.traces| ==> d.traces[k].coordinateUnits == u)
    && (forall k :: 0 <= k < |d.graphics| ==>
          (d.graphics[k].coordinateUnits == u &&
           forall j :: 0 <= j < |d.graphics[k].lines| ==> d.graphics[k].lines[j].coordinateUnits == u))
  }

  /** The two designs differ at most in magnitudes and unit tags: same list
      lengths and order, same layers, designators, flags, shapes, line
      types and trace point counts. */
  predicate SameShape(d: DesignValue, e: DesignValue)
  {
    && |d.pads| == |e.pads| && |d.traces| == |e.traces| && |d.graphics| == |e.graphics|
    && (forall k :: 0 <= k < |d.pads| ==>
          var p, q := d.pads[k], e.pads[k];
          p.number == q.number && p.layer == q.layer && p.flags == q.flags && p.style.shape == q.style.shape)
    && (forall k :: 0 <= k < |d.traces| ==>
          d.traces[k].layer == e.traces[k].layer && |d.traces[k].xy| == |e.traces[k].xy|)
    && (forall k :: 0 <= k < |d.graphics| ==>
          d.graphics[k].layer == e.graphics[k].layer && |d.graphics[k].lines| == |e.graphics[k].lines| &&
          forall j :: 0 <= j < |d.graphics[k].lines| ==>
            d.graphics[k].lines[j].lineType == e.graphics[k].lines[j].lineType)
  }

  /** The design after `PcbDesign.SynchronizeUnits(u)` succeeds. */
  function SyncUnits(d: DesignValue, u: PcbUnits): (r: DesignValue)
    requires UnitsSyncable(d, u)
    ensures InUnits(r, u)
    ensures SameShape(d, r)
    ensures r.coordinateUnits == d.coordinateUnits
  {
    DesignValue(GraphicsListUnitsSynced(d.graphics, u), PadsUnitsSynced(d.pads, u),
                TracesUnitsSynced(d.traces, u), d.coordinateUnits)
  }

  /** The design after `PcbDesign.SynchronizeCoordinateUnits(u)` succeeds. */
  function SyncCoordinates(d: DesignValue, u: PcbUnits): (r: DesignValue)
    requires CoordinatesSyncable(d, u)
    ensures InCoordinateUnits(r, u)
    ensures SameShape(d, r)
  {
    DesignValue(GraphicsListCoordinatesSynced(d.graphics, u), PadsCoordinatesSynced(d.pads, u),
                TracesCoordinatesSynced(d.traces, u), u)
  }

  /** Synchronizing dimensions leaves every coordinate untouched. */
  lemma SyncUnitsKeepsCoordinates(d: DesignValue, u: PcbUnits)
    requires UnitsSyncable(d, u)
    ensures var r := SyncUnits(d, u);
      && (forall k :: 0 <= k < |d.pads| ==>
            r.pads[k].x == d.pads[k].x && r.pads[k].y == d.pads[k].y &&
            r.pads[k].coordinateUnits == d.pads[k].coordinateUnits)
      && (forall k :: 0 <= k < |d.traces| ==>
            r.traces[k].xy == d.traces[k].xy && r.traces[k].coordinateUnits == d.traces[k].coordinateUnits)
      && (forall k :: 0 <= k < |d.graphics| ==> forall j :: 0 <= j < |d.graphics[k].lines| ==>
            r.graphics[k].lines[j].start == d.graphics[k].lines[j].start &&
            r.graphics[k].lines[j].end == d.graphics[k].lines[j].end)
  {
  }

  /** Synchronizing coordinates leaves every dimension and unit tag untouched. */
  lemma SyncCoordinatesKeepsUnits(d: DesignValue, u: PcbUnits)
    requires CoordinatesSyncable(d, u)
    ensures var r := SyncCoordinates(d, u);
      && (forall k :: 0 <= k < |d.pads| ==> r.pads[k].style == d.pads[k].style)
      && (forall k :: 0 <= k < |d.traces| ==>
            r.traces[k].thickness == d.traces[k].thickness && r.traces[k].units == d.traces[k].units)
      && (forall k :: 0 <= k < |d.graphics| ==>
            (r.graphics[k].units == d.graphics[k].units &&
             forall j :: 0 <= j < |d.graphics[k].lines| ==>
               r.graphics[k].lines[j].thickness == d.graphics[k].lines[j].thickness &&
               r.graphics[k].lines[j].units == d.graphics[k].lines[j].units))
  {
  }

  /** Synchronizing to the unit every entity already has changes nothing. */
  lemma SyncUnitsIdentity(d: DesignValue, u: PcbUnits)
    requires InUnits(d, u)
    ensures UnitsSyncable(d, u) && SyncUnits(d, u) == d
  {
    var r := SyncUnits(d, u);
    forall k | 0 <= k < |d.graphics| ensures r.graphics[k] == d.graphics[k] {
      assert r.graphics[k].lines == d.graphics[k].lines;
    }
    assert r.graphics == d.graphics;
    assert r.pads == d.pads;
    assert r.traces == d.traces;
  }

  lemma SyncCoordinatesIdentity(d: DesignValue, u: PcbUnits)
    requires InCoordinateUnits(d, u)
    ensures CoordinatesSyncable(d, u) && SyncCoordinates(d, u) == d
  {
    var r := SyncCoordinates(d, u);
    forall k | 0 <= k < |d.graphics| ensures r.graphics[k] == d.graphics[k] {
      assert r.graphics[k].lines == d.graphics[k].lines;
    }
    assert r.graphics == d.graphics;
    assert r.pads == d.pads;
    assert r.traces == d.traces;
  }

  /** A second synchronization to the same unit is a no-op. */
  lemma SyncUnitsIdempotent(d: DesignValue, u: PcbUnits)
    requires UnitsSyncable(d, u)
    ensures UnitsSyncable(SyncUnits(d, u), u) && SyncUnits(SyncUnits(d, u), u) == SyncUnits(d, u)
  {
    SyncUnitsIdentity(SyncUnits(d, u), u);
  }

  lemma SyncCoordinatesIdempotent(d: DesignValue, u: PcbUnits)
    requires CoordinatesSyncable(d, u)
    ensures CoordinatesSyncable(SyncCoordinates(d, u), u)
    ensures SyncCoordinates(SyncCoordinates(d, u), u) == SyncCoordinates(d, u)
  {
    SyncCoordinatesIdentity(SyncCoordinates(d, u), u);
  }

  /** Converting every dimension u -> v -> u restores the design. */
  lemma SyncUnitsRoundTrip(d: DesignValue, u: PcbUnits, v: PcbUnits)
    requires InUnits(d, u) && Convertible(u) && Convertible(v)
    ensures UnitsSyncable(d, v) && UnitsSyncable(SyncUnits(d, v), u)
    ensures SyncUnits(SyncUnits(d, v), u) == d
  {
    PadsUnitsRoundTrip(d.pads, u, v);
    TracesUnitsRoundTrip(d.traces, u, v);
    GraphicsListUnitsRoundTrip(d.graphics, u, v);
  }

  lemma PadsUnitsRoundTrip(ps: seq<PadValue>, u: PcbUnits, v: PcbUnits)
    requires (forall k :: 0 <= k < |ps| ==> ps[k].style.units == u) && Convertible(u) && Convertible(v)
    ensures PadsUnitsSyncable(ps, v) && PadsUnitsSyncable(PadsUnitsSynced(ps, v), u)
    ensures PadsUnitsSynced(PadsUnitsSynced(ps, v), u) == ps
  {
    var r := PadsUnitsSynced(PadsUnitsSynced(ps, v), u);
    forall k | 0 <= k < |ps| ensures r[k] == ps[k] {
      var s := ps[k].style;
      if u != v {
        ConvertRoundTrip(s.dimension1, u, v);
        ConvertRoundTrip(s.dimension2, u, v);
        ConvertRoundTrip(s.drill, u, v);
      }
    }
  }

  lemma TracesUnitsRoundTrip(ts: seq<TraceValue>, u: PcbUnits, v: PcbUnits)
    requires (forall k :: 0 <= k < |ts| ==> ts[k].units == u) && Convertible(u) && Convertible(v)
    ensures TracesUnitsSyncable(ts, v) && TracesUnitsSyncable(TracesUnitsSynced(ts, v), u)
    ensures TracesUnitsSynced(TracesUnitsSynced(ts, v), u) == ts
  {
    var r := TracesUnitsSynced(TracesUnitsSynced(ts, v), u);
    forall k | 0 <= k < |ts| ensures r[k] == ts[k] {
      if u != v { ConvertRoundTrip(ts[k].thickness, u, v); }
    }
  }

  lemma GraphicsListUnitsRoundTrip(gs: seq<GraphicsValue>, u: PcbUnits, v: PcbUnits)
    requires forall k :: 0 <= k < |gs| ==>
      (gs[k].units == u && forall j :: 0 <= j < |gs[k].lines| ==> gs[k].lines[j].units == u)
    requires Convertible(u) && Convertible(v)
    ensures GraphicsListUnitsSyncable(gs, v) && GraphicsListUnitsSyncable(GraphicsListUnitsSynced(gs, v), u)
    ensures GraphicsListUnitsSynced(GraphicsListUnitsSynced(gs, v), u) == gs
  {
    var r := GraphicsListUnitsSynced(GraphicsListUnitsSynced(gs, v), u);
    forall k | 0 <= k < |gs| ensures r[k] == gs[k] {
      var g := gs[k];
      forall j | 0 <= j < |g.lines| ensures r[k].lines[j] == g.lines[j] {
        if u != v { ConvertRoundTrip(g.lines[j].thickness, u, v); }
      }
      assert r[k].lines == g.lines;
    }
  }

  lemma PointRoundTrip(p: Point, u: PcbUnits, v: PcbUnits)
    requires Convertible(u) && Convertible(v)
    ensures ConvertPoint(ConvertPoint(p, u, v), v, u) == p
  {
    ConvertRoundTrip(p.x, u, v);
    ConvertRoundTrip(p.y, u, v);
  }

  /** Converting every coordinate u -> v -> u restores the design. */
  lemma SyncCoordinatesRoundTrip(d: DesignValue, u: PcbUnits, v: PcbUnits)
    requires InCoordinateUnits(d, u) && Convertible(u) && Convertible(v)
    ensures CoordinatesSyncable(d, v) && CoordinatesSyncable(SyncCoordinates(d, v), u)
    ensures SyncCoordinates(SyncCoordinates(d, v), u) == d
  {
    var e := SyncCoordinates(d, v);
    var r := SyncCoordinates(e, u);
    forall k | 0 <= k < |d.pads| ensures r.pads[k] == d.pads[k] {
      if u != v {
        ConvertRoundTrip(d.pads[k].x, u, v);
        ConvertRoundTrip(d.pads[k].y, u, v);
      }
    }
    forall k | 0 <= k < |d.traces| ensures r.traces[k] == d.traces[k] {
      var t := d.traces[k];
      if u != v {
        forall j | 0 <= j < |t.xy| ensures r.traces[k].xy[j] == t.xy[j] {
          PointRoundTrip(t.xy[j], u, v);
        }
        assert r.traces[k].xy == t.xy;
      }
    }
    forall k | 0 <= k < |d.graphics| ensures r.graphics[k] == d.graphics[k] {
      var g := d.graphics[k];
      forall j | 0 <= j < |g.lines| ensures r.graphics[k].lines[j] == g.lines[j] {
        if u != v {
          PointRoundTrip(g.lines[j].start, u, v);
          PointRoundTrip(g.lines[j].end, u, v);
        }
      }
      assert r.graphics[k].lines == g.lines;
    }
    assert r.graphics == d.graphics;
    assert r.pads == d.pads;
    assert r.traces == d.traces;
  }

  // ---------------------------------------------------------------------
  // Layer lists (GetLayers / GetObjectsFromLayer).

  /** The distinct elements of `s`, each once, in first-occurrence order:
      what `if (!res.Contains(x)) res.Add(x)` builds. */
  function Dedup(s: seq<PcbLayer>): seq<PcbLayer>
    decreases |s|
  {
    if s == [] then []
    else
      var d := Dedup(s[..|s| - 1]);
      if s[|s| - 1] in d then d else d + [s[|s| - 1]]
  }

  /** `Dedup` keeps exactly the elements of `s`, each once. */
  lemma {:induction false} DedupDistinct(s: seq<PcbLayer>)
    ensures forall x :: x in Dedup(s) <==> x in s
    ensures forall i, j :: 0 <= i < j < |Dedup(s)| ==> Dedup(s)[i] != Dedup(s)[j]
    decreases |s|
  {
    if s != [] {
      var p := s[..|s| - 1];
      DedupDistinct(p);
      assert s == p + [s[|s| - 1]];
      assert forall x :: x in s <==> x in p || x == s[|s| - 1];
    }
  }

  /** One more element: what the `Contains` check followed by `Add` does. */
  lemma DedupSnoc(s: seq<PcbLayer>, x: PcbLayer)
    ensures Dedup(s + [x]) == if x in Dedup(s) then Dedup(s) else Dedup(s) + [x]
  {
    assert (s + [x])[..|s|] == s;
  }

  /** `Dedup` of the first `n` elements of `s`, taken one element at a
      time: the shape of a loop that walks `s` by index. */
  function DedupUpTo(s: seq<PcbLayer>, n: nat): seq<PcbLayer>
    requires n <= |s|
  {
    if n == 0 then []
    else
      var d := DedupUpTo(s, n - 1);
      if s[n - 1] in d then d else d + [s[n - 1]]
  }

  lemma {:induction false} DedupUpToPrefix(s: seq<PcbLayer>, n: nat)
    requires n <= |s|
    ensures DedupUpTo(s, n) == Dedup(s[..n])
  {
    if n > 0 {
      DedupUpToPrefix(s, n - 1);
      assert s[..n][..n - 1] == s[..n - 1];
    }
  }

  /** The position of the first occurrence of `x` in `s`. */
  function FirstIndex(s: seq<PcbLayer>, x: PcbLayer): (k: nat)
    requires x in s
    ensures k < |s| && s[k] == x && x !in s[..k]
  {
    if s[0] == x then 0
    else
      assert s == [s[0]] + s[1..];
      var k := FirstIndex(s[1..], x);
      assert s[..k + 1] == [s[0]] + s[1..][..k];
      k + 1
  }

  lemma FirstIndexPrefix(s: seq<PcbLayer>, n: nat, x: PcbLayer)
    requires n <= |s| && x in s[..n]
    ensures x in s && FirstIndex(s, x) == FirstIndex(s[..n], x)
  {
    var k := FirstIndex(s[..n], x);
    assert s[..n][..k] == s[..k];
  }

  /** `Dedup` keeps the order in which elements first occur. */
  lemma {:induction false} DedupOrder(s: seq<PcbLayer>)
    ensures forall x :: x in Dedup(s) ==> x in s
    ensures forall i, j :: 0 <= i < j < |Dedup(s)| ==>
      FirstIndex(s, Dedup(s)[i]) < FirstIndex(s, Dedup(s)[j])
    decreases |s|
  {
    DedupDistinct(s);
    if s != [] {
      var p := s[..|s| - 1];
      var x := s[|s| - 1];
      DedupOrder(p);
      DedupDistinct(p);
      var d := Dedup(p);
      forall i | 0 <= i < |d| ensures d[i] in s && FirstIndex(s, d[i]) == FirstIndex(p, d[i]) {
        FirstIndexPrefix(s, |s| - 1, d[i]);
      }
      if x !in d {
        assert x !in p;
        assert s[..|s| - 1] == p;
      }
    }
  }

  function TraceLayers(ts: seq<TraceValue>): (ls: seq<PcbLayer>)
    ensures |ls| == |ts| && forall k :: 0 <= k < |ts| ==> ls[k] == ts[k].layer
  {
    seq(|ts|, k requires 0 <= k < |ts| => ts[k].layer)
  }

  function PadLayers(ps: seq<PadValue>): (ls: seq<PcbLayer>)
    ensures |ls| == |ps| && forall k :: 0 <= k < |ps| ==> ls[k] == ps[k].layer
  {
    seq(|ps|, k requires 0 <= k < |ps| => ps[k].layer)
  }

  /** The traces of `ts` on layer `l`, in list order. */
  function TracesOnLayer(ts: seq<TraceValue>, l: PcbLayer): (r: seq<TraceValue>)
    ensures |r| <= |ts|
    ensures forall t :: t in r <==> t in ts && t.layer == l
    decreases |ts|
  {
    if ts == [] then []
    else
      var rest := TracesOnLayer(ts[..|ts| - 1], l);
      assert forall t :: t in ts <==> t in ts[..|ts| - 1] || t == ts[|ts| - 1];
      if ts[|ts| - 1].layer == l then rest + [ts[|ts| - 1]] else rest
  }

  /** The layers `GetLayers` walks through, before duplicates are dropped. */
  function MentionedLayers(d: DesignValue, tracesOnly: bool): seq<PcbLayer>
  {
    (if tracesOnly then [] else PadLayers(d.pads)) + TraceLayers(d.traces)
  }
}
