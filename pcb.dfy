/** The mutable entities of Pcb.cs.  Each class keeps the fields the C#
    properties hold, exposes a `Value()` in the value types of PcbValues, and
    its methods are proved against the value-level functions there.  A C#
    `ArgumentException` from `GetUnitConversionMultiplier` is `ok == false`. */
module Pcb {
  import opened Outcomes
  import opened Units
  import opened PcbValues

  class PcbPadStyle {
    var shape: PcbPadShape
    var units: PcbUnits
    var dimension1: real
    var dimension2: real
    var drill: real

    constructor (shape: PcbPadShape, units: PcbUnits, dim1: real, dim2: real, drill: real)
      ensures Value() == PadStyleValue(shape, units, dim1, dim2, drill)
    {
      this.shape := shape;
      this.units := units;
      dimension1 := dim1;
      dimension2 := dim2;
      this.drill := drill;
    }

    function Value(): PadStyleValue
      reads this
    {
      PadStyleValue(shape, units, dimension1, dimension2, drill)
    }

    /** Rescales the three dimensions; throws, before changing anything, when
        either unit has no multiplier. */
    method SetUnits(u: PcbUnits) returns (ok: bool)
      modifies this
      ensures ok <==> Convertible(old(units)) && Convertible(u)
      ensures ok ==> Value() == StyleConverted(old(Value()), u)
      ensures !ok ==> Value() == old(Value())
    {
      if !Convertible(units) || !Convertible(u) {
        return false;
      }
      var from := units;
      dimension1 := Convert(dimension1, from, u);
      dimension2 := Convert(dimension2, from, u);
      drill := Convert(drill, from, u);
      units := u;
      ok := true;
    }
  }

  /** `PcbGraphics`.  Its silk lines are held as values: each `PcbSilkLine`
      the converter creates belongs to exactly one graphics object and is
      reached only through it, so `PcbSilkLine.SetUnits` and
      `SetCoordinateUnits` are the value functions `LineUnitsConverted` and
      `LineCoordinatesConverted`, applied to the element in place. */
  class PcbGraphics {
    var lines: seq<SilkLineValue>
    var units: PcbUnits
    var coordinateUnits: PcbUnits
    var layer: PcbGraphicsLayer

    constructor (units: PcbUnits, coordinateUnits: PcbUnits, layer: PcbGraphicsLayer)
      ensures Value() == GraphicsValue([], units, coordinateUnits, layer)
    {
      lines := [];
      this.units := units;
      this.coordinateUnits := coordinateUnits;
      this.layer := layer;
    }

    function Value(): GraphicsValue
      reads this
    {
      GraphicsValue(lines, units, coordinateUnits, layer)
    }

    /** `Lines.Add`. */
    method AddLine(l: SilkLineValue)
      modifies this
      ensures Value() == old(Value()).(lines := old(lines) + [l])
    {
      lines := lines + [l];
    }

    /** Converts the thickness of every line tagged differently from `u`,
        then tags the graphics itself; `ok` is false where the source throws
        (a line's units or `u` without a multiplier). */
    method SynchronizeUnits(u: PcbUnits) returns (ok: bool)
      modifies this
      ensures ok <==> GraphicsUnitsSyncable(old(Value()), u)
      ensures ok ==> Value() == GraphicsUnitsSynced(old(Value()), u)
    {
      for i := 0 to |lines|
        invariant |lines| == |old(lines)|
        invariant units == old(units) && coordinateUnits == old(coordinateUnits) && layer == old(layer)
        invariant forall j :: 0 <= j < i ==>
          CanSync(old(lines[j]).units, u) && lines[j] == LineUnitsSynced(old(lines[j]), u)
        invariant forall j :: i <= j < |lines| ==> lines[j] == old(lines[j])
      {
        if lines[i].units != u {
          if !Convertible(lines[i].units) || !Convertible(u) {
            assert !CanSync(old(Value()).lines[i].units, u);
            return false;
          }
          lines := lines[i := LineUnitsConverted(lines[i], u)];
        }
      }
      units := u;
      ok := true;
    }

    /** Converts the end points of every line whose coordinate units differ
        from `u`, then tags the graphics itself. */
    method SynchronizeCoordinateUnits(u: PcbUnits) returns (ok: bool)
      modifies this
      ensures ok <==> GraphicsCoordinatesSyncable(old(Value()), u)
      ensures ok ==> Value() == GraphicsCoordinatesSynced(old(Value()), u)
    {
      for i := 0 to |lines|
        invariant |lines| == |old(lines)|
        invariant units == old(units) && coordinateUnits == old(coordinateUnits) && layer == old(layer)
        invariant forall j :: 0 <= j < i ==>
          CanSync(old(lines[j]).coordinateUnits, u) && lines[j] == LineCoordinatesSynced(old(lines[j]), u)
        invariant forall j :: i <= j < |lines| ==> lines[j] == old(lines[j])
      {
        if lines[i].coordinateUnits != u {
          if !Convertible(lines[i].coordinateUnits) || !Convertible(u) {
            assert !CanSync(old(Value()).lines[i].coordinateUnits, u);
            return false;
          }
          lines := lines[i := LineCoordinatesConverted(lines[i], u)];
        }
      }
      coordinateUnits := u;
      ok := true;
    }
  }

  /** The elements of `ls` already visited by a loop that has passed `ls[..i]`. */
  predicate Visited<T(==)>(ls: seq<T>, i: nat, x: T)
  {
    i <= |ls| && x in ls[..i]
  }

  class PcbTrace {
    var xy: seq<Point>
    var layer: PcbLayer
    var thickness: real
    var units: PcbUnits
    var coordinateUnits: PcbUnits

    constructor (layer: PcbLayer, thickness: real, units: PcbUnits, coordinateUnits: PcbUnits, points: seq<Point>)
      ensures Value() == TraceValue(points, layer, thickness, units, coordinateUnits)
    {
      xy := points;
      this.layer := layer;
      this.thickness := thickness;
      this.units := units;
      this.coordinateUnits := coordinateUnits;
    }

    function Value(): TraceValue
      reads this
    {
      TraceValue(xy, layer, thickness, units, coordinateUnits)
    }

    /** The `Segments` property: the number of points. */
    function Segments(): nat
      reads this
    {
      |xy|
    }

    /** Replaces the point list by a rescaled copy. */
    method SetCoordinateUnits(u: PcbUnits) returns (ok: bool)
      modifies this
      ensures ok <==> Convertible(old(coordinateUnits)) && Convertible(u)
      ensures ok ==> Value() == TraceCoordinatesConverted(old(Value()), u)
      ensures !ok ==> Value() == old(Value())
    {
      if !Convertible(coordinateUnits) || !Convertible(u) {
        return false;
      }
      xy := PointsConverted(xy, coordinateUnits, u);
      coordinateUnits := u;
      ok := true;
    }

    method SetUnits(u: PcbUnits) returns (ok: bool)
      modifies this
      ensures ok <==> Convertible(old(units)) && Convertible(u)
      ensures ok ==> Value() == TraceUnitsConverted(old(Value()), u)
      ensures !ok ==> Value() == old(Value())
    {
      if !Convertible(units) || !Convertible(u) {
        return false;
      }
      thickness := Convert(thickness, units, u);
      units := u;
      ok := true;
    }
  }

  class PcbPad {
    var number: string
    var coordinateUnits: PcbUnits
    var x: real
    var y: real
    var layer: PcbLayer
    var style: PcbPadStyle
    var flags: Option<string>

    constructor (number: string, coordinateUnits: PcbUnits, x: real, y: real, layer: PcbLayer,
                 style: PcbPadStyle, flags: Option<string>)
      ensures this.style == style
      ensures Value() == PadValue(number, coordinateUnits, x, y, layer, style.Value(), flags)
    {
      this.number := number;
      this.coordinateUnits := coordinateUnits;
      this.x := x;
      this.y := y;
      this.layer := layer;
      this.style := style;
      this.flags := flags;
    }

    function Value(): PadValue
      reads this, style
    {
      PadValue(number, coordinateUnits, x, y, layer, style.Value(), flags)
    }

    /** The `Units` property: the units of the pad's style. */
    function Units(): PcbUnits
      reads this, style
    {
      style.units
    }

    method SetCoordinateUnits(u: PcbUnits) returns (ok: bool)
      modifies this
      ensures style == old(style)
      ensures ok <==> Convertible(old(coordinateUnits)) && Convertible(u)
      ensures ok ==> Value() == PadCoordinatesConverted(old(Value()), u)
      ensures !ok ==> Value() == old(Value())
    {
      if !Convertible(coordinateUnits) || !Convertible(u) {
        return false;
      }
      var from := coordinateUnits;
      x := Convert(x, from, u);
      y := Convert(y, from, u);
      coordinateUnits := u;
      ok := true;
    }

    /** Delegates to the style, which twin pads share. */
    method SetUnits(u: PcbUnits) returns (ok: bool)
      modifies style
      ensures ok <==> Convertible(old(style.units)) && Convertible(u)
      ensures ok ==> style.Value() == StyleConverted(old(style.Value()), u)
      ensures !ok ==> style.Value() == old(style.Value())
    {
      ok := style.SetUnits(u);
    }
  }

  function PadValues(ps: seq<PcbPad>): (r: seq<PadValue>)
    reads ps, StylesOf(ps)
    ensures |r| == |ps| && forall k :: 0 <= k < |ps| ==> r[k] == ps[k].Value()
  {
    seq(|ps|, k requires 0 <= k < |ps| reads ps, StylesOf(ps) => ps[k].Value())
  }

  function TraceValues(ts: seq<PcbTrace>): (r: seq<TraceValue>)
    reads ts
    ensures |r| == |ts| && forall k :: 0 <= k < |ts| ==> r[k] == ts[k].Value()
  {
    seq(|ts|, k requires 0 <= k < |ts| reads ts => ts[k].Value())
  }

  function GraphicsValues(gs: seq<PcbGraphics>): (r: seq<GraphicsValue>)
    reads gs
    ensures |r| == |gs| && forall k :: 0 <= k < |gs| ==> r[k] == gs[k].Value()
  {
    seq(|gs|, k requires 0 <= k < |gs| reads gs => gs[k].Value())
  }

  ghost function StylesOf(ps: seq<PcbPad>): set<PcbPadStyle>
    reads ps
  {
    set p | p in ps :: p.style
  }

  /** The `IPcbObject`s `GetObjectsFromLayer` returns. */
  datatype PcbObject = PadObject(pad: PcbPad) | TraceObject(trace: PcbTrace)

  /** The pads of `ps` on layer `l`, in list order. */
  function PadsOn(ps: seq<PcbPad>, l: PcbLayer): (r: seq<PcbPad>)
    reads ps
    ensures |r| <= |ps|
    decreases |ps|
  {
    if ps == [] then []
    else
      var rest := PadsOn(ps[..|ps| - 1], l);
      if ps[|ps| - 1].layer == l then rest + [ps[|ps| - 1]] else rest
  }
  /** `PadsOn` keeps exactly the elements on layer `l`. */
  lemma {:induction false} PadsOnMembers(ps: seq<PcbPad>, l: PcbLayer)
    ensures forall k :: 0 <= k < |PadsOn(ps, l)| ==> PadsOn(ps, l)[k] in ps && PadsOn(ps, l)[k].layer == l
    ensures forall k :: 0 <= k < |ps| && ps[k].layer == l ==> ps[k] in PadsOn(ps, l)
    decreases |ps|
  {
    if ps != [] {
      var p := ps[..|ps| - 1];
      PadsOnMembers(p, l);
      assert forall k :: 0 <= k < |p| ==> p[k] == ps[k];
    }
  }


  /** The traces of `ts` on layer `l`, in list order. */
  function TracesOn(ts: seq<PcbTrace>, l: PcbLayer): (r: seq<PcbTrace>)
    reads ts
    ensures |r| <= |ts|
    decreases |ts|
  {
    if ts == [] then []
    else
      var rest := TracesOn(ts[..|ts| - 1], l);
      if ts[|ts| - 1].layer == l then rest + [ts[|ts| - 1]] else rest
  }
  /** `TracesOn` keeps exactly the elements on layer `l`. */
  lemma {:induction false} TracesOnMembers(ts: seq<PcbTrace>, l: PcbLayer)
    ensures forall k :: 0 <= k < |TracesOn(ts, l)| ==> TracesOn(ts, l)[k] in ts && TracesOn(ts, l)[k].layer == l
    ensures forall k :: 0 <= k < |ts| && ts[k].layer == l ==> ts[k] in TracesOn(ts, l)
    decreases |ts|
  {
    if ts != [] {
      var p := ts[..|ts| - 1];
      TracesOnMembers(p, l);
      assert forall k :: 0 <= k < |p| ==> p[k] == ts[k];
    }
  }


  function PadObjects(ps: seq<PcbPad>): (r: seq<PcbObject>)
    ensures |r| == |ps| && forall k :: 0 <= k < |ps| ==> r[k] == PadObject(ps[k])
  {
    seq(|ps|, k requires 0 <= k < |ps| => PadObject(ps[k]))
  }

  function TraceObjects(ts: seq<PcbTrace>): (r: seq<PcbObject>)
    ensures |r| == |ts| && forall k :: 0 <= k < |ts| ==> r[k] == TraceObject(ts[k])
  {
    seq(|ts|, k requires 0 <= k < |ts| => TraceObject(ts[k]))
  }

  /** Selecting traces by layer and then reading their values is the
      value-level selection `TracesOnLayer`. */
  lemma {:induction false} TracesOnValues(ts: seq<PcbTrace>, l: PcbLayer)
    ensures TraceValues(TracesOn(ts, l)) == TracesOnLayer(TraceValues(ts), l)
    decreases |ts|
  {
    if ts != [] {
      var p, t := ts[..|ts| - 1], ts[|ts| - 1];
      var vs := TraceValues(ts);
      TracesOnValues(p, l);
      assert vs[..|ts| - 1] == TraceValues(p);
      assert vs[|ts| - 1] == t.Value();
      if t.layer == l {
        calc {
          TraceValues(TracesOn(ts, l));
          TraceValues(TracesOn(p, l) + [t]);
          { TraceValuesSnoc(TracesOn(p, l), t); }
          TraceValues(TracesOn(p, l)) + [t.Value()];
          TracesOnLayer(vs, l);
        }
      }
    }
  }

  lemma AppendAssoc<T>(a: seq<T>, b: seq<T>, c: seq<T>)
    ensures (a + b) + c == a + (b + c)
  {
  }

  /** One more pad considered by the first loop of `GetObjectsFromLayer`. */
  lemma PadsOnStep(ps: seq<PcbPad>, i: nat, l: PcbLayer)
    requires i < |ps|
    ensures PadObjects(PadsOn(ps[..i + 1], l)) ==
      PadObjects(PadsOn(ps[..i], l)) + (if ps[i].layer == l then [PadObject(ps[i])] else [])
  {
    assert ps[..i + 1][..i] == ps[..i];
    if ps[i].layer == l {
      assert PadObjects(PadsOn(ps[..i], l) + [ps[i]]) == PadObjects(PadsOn(ps[..i], l)) + [PadObject(ps[i])];
    }
  }

  /** One more trace considered by the second loop of `GetObjectsFromLayer`. */
  lemma TracesOnStep(ts: seq<PcbTrace>, i: nat, l: PcbLayer)
    requires i < |ts|
    ensures TraceObjects(TracesOn(ts[..i + 1], l)) ==
      TraceObjects(TracesOn(ts[..i], l)) + (if ts[i].layer == l then [TraceObject(ts[i])] else [])
  {
    assert ts[..i + 1][..i] == ts[..i];
    if ts[i].layer == l {
      assert TraceObjects(TracesOn(ts[..i], l) + [ts[i]]) == TraceObjects(TracesOn(ts[..i], l)) + [TraceObject(ts[i])];
    }
  }

  lemma TraceValuesSnoc(ts: seq<PcbTrace>, t: PcbTrace)
    ensures TraceValues(ts + [t]) == TraceValues(ts) + [t.Value()]
  {
  }

  lemma GraphicsValuesSnoc(gs: seq<PcbGraphics>, g: PcbGraphics)
    ensures GraphicsValues(gs + [g]) == GraphicsValues(gs) + [g.Value()]
  {
  }

  lemma PadValuesSnoc(ps: seq<PcbPad>, p: PcbPad)
    ensures PadValues(ps + [p]) == PadValues(ps) + [p.Value()]
  {
  }

  /** From per-style facts to the pad list of `SyncUnits`. */
  lemma LiftPadUnits(before: seq<PadValue>, after: seq<PadValue>, u: PcbUnits)
    requires |before| == |after|
    requires forall k :: 0 <= k < |before| ==>
      CanSync(before[k].style.units, u) && after[k] == PadUnitsSynced(before[k], u)
    ensures PadsUnitsSyncable(before, u) && after == PadsUnitsSynced(before, u)
  {
  }

  /** From per-trace facts to the trace list of `SyncUnits`. */
  lemma LiftTraceUnits(before: seq<TraceValue>, after: seq<TraceValue>, u: PcbUnits)
    requires |before| == |after|
    requires forall k :: 0 <= k < |before| ==>
      CanSync(before[k].units, u) && after[k] == TraceUnitsSynced(before[k], u)
    ensures TracesUnitsSyncable(before, u) && after == TracesUnitsSynced(before, u)
  {
  }

  /** From per-graphics facts to the graphics list of `SyncUnits`. */
  lemma LiftGraphicsUnits(before: seq<GraphicsValue>, after: seq<GraphicsValue>, u: PcbUnits)
    requires |before| == |after|
    requires forall k :: 0 <= k < |before| ==>
      GraphicsUnitsSyncable(before[k], u) && after[k] == GraphicsUnitsSynced(before[k], u)
    ensures GraphicsListUnitsSyncable(before, u) && after == GraphicsListUnitsSynced(before, u)
  {
  }

  /** From per-pad facts to the pad list of `SyncCoordinates`. */
  lemma LiftPadCoordinates(before: seq<PadValue>, after: seq<PadValue>, u: PcbUnits)
    requires |before| == |after|
    requires forall k :: 0 <= k < |before| ==>
      CanSync(before[k].coordinateUnits, u) && after[k] == PadCoordinatesSynced(before[k], u)
    ensures PadsCoordinatesSyncable(before, u) && after == PadsCoordinatesSynced(before, u)
  {
  }

  /** From per-trace facts to the trace list of `SyncCoordinates`. */
  lemma LiftTraceCoordinates(before: seq<TraceValue>, after: seq<TraceValue>, u: PcbUnits)
    requires |before| == |after|
    requires forall k :: 0 <= k < |before| ==>
      CanSync(before[k].coordinateUnits, u) && after[k] == TraceCoordinatesSynced(before[k], u)
    ensures TracesCoordinatesSyncable(before, u) && after == TracesCoordinatesSynced(before, u)
  {
  }

  /** From per-graphics facts to the graphics list of `SyncCoordinates`. */
  lemma LiftGraphicsCoordinates(before: seq<GraphicsValue>, after: seq<GraphicsValue>, u: PcbUnits)
    requires |before| == |after|
    requires forall k :: 0 <= k < |before| ==>
      GraphicsCoordinatesSyncable(before[k], u) && after[k] == GraphicsCoordinatesSynced(before[k], u)
    ensures GraphicsListCoordinatesSyncable(before, u) && after == GraphicsListCoordinatesSynced(before, u)
  {
  }

  class PcbDesign {
    var graphics: seq<PcbGraphics>
    var pads: seq<PcbPad>
    var traces: seq<PcbTrace>
    var coordinateUnits: PcbUnits

    constructor ()
      ensures graphics == [] && pads == [] && traces == []
      ensures Value() == EmptyDesign
    {
      graphics := [];
      pads := [];
      traces := [];
      coordinateUnits := Thou;
    }

    function Value(): DesignValue
      reads this, pads, StylesOf(pads), traces, graphics
    {
      DesignValue(GraphicsValues(graphics), PadValues(pads), TraceValues(traces), coordinateUnits)
    }

    /** The layers `GetLayers` walks through, read straight off the pads
        (unless `tracesOnly`) and the traces. */
    function WalkedLayers(tracesOnly: bool): (ls: seq<PcbLayer>)
      reads this, pads, traces
    {
      var ps, ts := pads, traces;
      (if tracesOnly then [] else seq(|ps|, k reads ps requires 0 <= k < |ps| => ps[k].layer))
        + seq(|ts|, k reads ts requires 0 <= k < |ts| => ts[k].layer)
    }

    /** They are the layers `MentionedLayers` reads off the design's value. */
    lemma WalkedLayersMentioned(tracesOnly: bool)
      ensures WalkedLayers(tracesOnly) == MentionedLayers(Value(), tracesOnly)
    {
    }

    /** With `tracesOnly`, they are the layers of the traces' values. */
    lemma WalkedTraceLayers()
      ensures WalkedLayers(true) == TraceLayers(TraceValues(traces))
    {
    }

    /** Every layer mentioned by a pad (unless `tracesOnly`) or a trace, once
        each, in order of first mention. */
    method GetLayers(tracesOnly: bool) returns (res: seq<PcbLayer>)
      ensures res == Dedup(WalkedLayers(tracesOnly))
    {
      ghost var all := WalkedLayers(tracesOnly);
      ghost var np := if tracesOnly then 0 else |pads|;
      res := [];
      if !tracesOnly {
        for i := 0 to |pads|
          invariant res == DedupUpTo(all, i)
        {
          var x := pads[i].layer;
          if x !in res {
            res := res + [x];
          }
        }
      }
      for i := 0 to |traces|
        invariant res == DedupUpTo(all, np + i)
      {
        var x := traces[i].layer;
        if x !in res {
          res := res + [x];
        }
      }
      DedupUpToPrefix(all, |all|);
      assert all[..|all|] == all;
    }

    /** The pads (unless `tracesOnly`) and then the traces on `layer`, each
        in list order. */
    method GetObjectsFromLayer(layer: PcbLayer, tracesOnly: bool) returns (res: seq<PcbObject>)
      ensures res == (if tracesOnly then [] else PadObjects(PadsOn(pads, layer))) + TraceObjects(TracesOn(traces, layer))
    {
      res := [];
      if !tracesOnly {
        res := AddPadObjects(res, layer);
      }
      res := AddTraceObjects(res, layer);
    }

    /** The pad loop of `GetObjectsFromLayer`, appending to `res0`. */
    method AddPadObjects(res0: seq<PcbObject>, layer: PcbLayer) returns (res: seq<PcbObject>)
      ensures res == res0 + PadObjects(PadsOn(pads, layer))
    {
      res := res0;
      for i := 0 to |pads|
        invariant res == res0 + PadObjects(PadsOn(pads[..i], layer))
      {
        PadsOnStep(pads, i, layer);
        if pads[i].layer == layer {
          AppendAssoc(res0, PadObjects(PadsOn(pads[..i], layer)), [PadObject(pads[i])]);
          res := res + [PadObject(pads[i])];
        }
      }
      assert pads[..|pads|] == pads;
    }

    /** The trace loop of `GetObjectsFromLayer`, appending to `res0`. */
    method AddTraceObjects(res0: seq<PcbObject>, layer: PcbLayer) returns (res: seq<PcbObject>)
      ensures res == res0 + TraceObjects(TracesOn(traces, layer))
    {
      res := res0;
      for i := 0 to |traces|
        invariant res == res0 + TraceObjects(TracesOn(traces[..i], layer))
      {
        TracesOnStep(traces, i, layer);
        if traces[i].layer == layer {
          AppendAssoc(res0, TraceObjects(TracesOn(traces[..i], layer)), [TraceObject(traces[i])]);
          res := res + [TraceObject(traces[i])];
        }
      }
      assert traces[..|traces|] == traces;
    }

    /** Every pad style, trace and silk line ends up tagged `u`, its
        dimensions rescaled; the source throws from `GetUnitConversionMultiplier`
        (here `ok` is false) exactly when some tag differs from `u` and one
        of the two units has no multiplier. */
    method SynchronizeUnits(u: PcbUnits) returns (ok: bool)
      modifies StylesOf(pads), traces, graphics
      ensures ok <==> UnitsSyncable(old(Value()), u)
      ensures ok ==> Value() == SyncUnits(old(Value()), u)
    {
      ok := SynchronizePadUnits(u);
      if !ok {
        return;
      }
      ghost var ps := PadValues(pads);
      ok := SynchronizeTraceUnits(u);
      if !ok {
        return;
      }
      ghost var ts := TraceValues(traces);
      ok := SynchronizeGraphicsUnits(u);
      if ok {
        assert Value() == DesignValue(GraphicsValues(graphics), ps, ts, coordinateUnits);
      }
    }

    /** Every pad, trace, silk line and graphics block, and the design
        itself, ends up with coordinate units `u`, positions rescaled; `ok`
        is false where the source throws. */
    method SynchronizeCoordinateUnits(u: PcbUnits) returns (ok: bool)
      modifies this`coordinateUnits, pads, traces, graphics
      ensures ok <==> CoordinatesSyncable(old(Value()), u)
      ensures ok ==> Value() == SyncCoordinates(old(Value()), u)
    {
      ok := SynchronizePadCoordinates(u);
      if !ok {
        return;
      }
      ghost var ps := PadValues(pads);
      ok := SynchronizeTraceCoordinates(u);
      if !ok {
        return;
      }
      ghost var ts := TraceValues(traces);
      ok := SynchronizeGraphicsCoordinates(u);
      if ok {
        RetagCoordinates(u);
      }
    }

    /** `CoordinateUnits = units`, the last step of `SynchronizeCoordinateUnits`. */
    method RetagCoordinates(u: PcbUnits)
      modifies this`coordinateUnits
      ensures Value() == old(Value()).(coordinateUnits := u)
    {
      coordinateUnits := u;
    }

    /** The first loop of `SynchronizeUnits`: every pad style tagged
        differently from `u` is rescaled, a shared style only once. */
    method SynchronizePadUnits(u: PcbUnits) returns (ok: bool)
      modifies StylesOf(pads)
      ensures TraceValues(traces) == old(TraceValues(traces)) && GraphicsValues(graphics) == old(GraphicsValues(graphics))
      ensures ok <==> PadsUnitsSyncable(old(PadValues(pads)), u)
      ensures ok ==> PadValues(pads) == PadsUnitsSynced(old(PadValues(pads)), u)
    {
      ghost var before := PadValues(pads);
      ok := RescalePadStyles(u);
      if ok {
        LiftPadUnits(before, PadValues(pads), u);
      }
    }

    /** The loop itself, stated pad by pad. */
    method RescalePadStyles(u: PcbUnits) returns (ok: bool)
      modifies StylesOf(pads)
      ensures ok <==> forall k :: 0 <= k < |pads| ==> CanSync(old(pads[k].style.units), u)
      ensures ok ==> forall k :: 0 <= k < |pads| ==>
        CanSync(old(pads[k].style.units), u) &&
        pads[k].style.Value() == StyleSynced(old(pads[k].style.Value()), u)
    {
      ghost var done: set<PcbPadStyle> := {};
      var i := 0;
      while i < |pads|
        invariant 0 <= i <= |pads|
        invariant forall k :: 0 <= k < i ==> pads[k].style in done
        invariant forall k :: 0 <= k < |pads| ==>
          if pads[k].style in done
          then CanSync(old(pads[k].style.units), u) &&
               pads[k].style.Value() == StyleSynced(old(pads[k].style.Value()), u)
          else pads[k].style.Value() == old(pads[k].style.Value())
      {
        var item := pads[i];
        if item.Units() != u {
          assert item.style in StylesOf(pads);
          ok := item.SetUnits(u);
          if !ok {
            return;
          }
        }
        done := done + {item.style};
        i := i + 1;
      }
      ok := true;
    }

    /** The second loop of `SynchronizeUnits`. */
    method SynchronizeTraceUnits(u: PcbUnits) returns (ok: bool)
      modifies traces
      ensures PadValues(pads) == old(PadValues(pads)) && GraphicsValues(graphics) == old(GraphicsValues(graphics))
      ensures ok <==> TracesUnitsSyncable(old(TraceValues(traces)), u)
      ensures ok ==> TraceValues(traces) == TracesUnitsSynced(old(TraceValues(traces)), u)
    {
      var i := 0;
      while i < |traces|
        invariant 0 <= i <= |traces|
        invariant forall k :: 0 <= k < |traces| ==>
          if Visited(traces, i, traces[k])
          then CanSync(old(traces[k].units), u) && traces[k].Value() == TraceUnitsSynced(old(traces[k].Value()), u)
          else traces[k].Value() == old(traces[k].Value())
      {
        var item := traces[i];
        assert traces[..i + 1] == traces[..i] + [item];
        if item.units != u {
          assert !Visited(traces, i, item);
          ok := item.SetUnits(u);
          if !ok {
            assert old(TraceValues(traces))[i].units == old(traces[i].units);
            return;
          }
        }
        i := i + 1;
      }
      assert traces[..|traces|] == traces;
      ok := true;
      LiftTraceUnits(old(TraceValues(traces)), TraceValues(traces), u);
    }

    /** The third loop of `SynchronizeUnits`: each graphics synchronizes its
        own lines and then carries the tag `u`. */
    method SynchronizeGraphicsUnits(u: PcbUnits) returns (ok: bool)
      modifies graphics
      ensures ok <==> GraphicsListUnitsSyncable(old(GraphicsValues(graphics)), u)
      ensures ok ==> GraphicsValues(graphics) == GraphicsListUnitsSynced(old(GraphicsValues(graphics)), u)
    {
      var i := 0;
      while i < |graphics|
        invariant 0 <= i <= |graphics|
        invariant forall k :: 0 <= k < |graphics| ==>
          if Visited(graphics, i, graphics[k])
          then GraphicsUnitsSyncable(old(graphics[k].Value()), u) &&
               graphics[k].Value() == GraphicsUnitsSynced(old(graphics[k].Value()), u)
          else graphics[k].Value() == old(graphics[k].Value())
      {
        var item := graphics[i];
        assert graphics[..i + 1] == graphics[..i] + [item];
        ghost var before := item.Value();
        if Visited(graphics, i, item) {
          GraphicsUnitsSyncedAgain(old(item.Value()), u);
        }
        ok := item.SynchronizeUnits(u);
        if !ok {
          assert !GraphicsUnitsSyncable(old(GraphicsValues(graphics))[i], u);
          return;
        }
        i := i + 1;
      }
      ok := true;
      assert graphics[..|graphics|] == graphics;
      LiftGraphicsUnits(old(GraphicsValues(graphics)), GraphicsValues(graphics), u);
    }

    /** The first loop of `SynchronizeCoordinateUnits`. */
    method SynchronizePadCoordinates(u: PcbUnits) returns (ok: bool)
      modifies pads
      ensures TraceValues(traces) == old(TraceValues(traces)) && GraphicsValues(graphics) == old(GraphicsValues(graphics))
      ensures forall k :: 0 <= k < |pads| ==> pads[k].style == old(pads[k].style)
      ensures ok <==> PadsCoordinatesSyncable(old(PadValues(pads)), u)
      ensures ok ==> PadValues(pads) == PadsCoordinatesSynced(old(PadValues(pads)), u)
    {
      var i := 0;
      while i < |pads|
        invariant 0 <= i <= |pads|
        invariant forall k :: 0 <= k < |pads| ==> pads[k].style == old(pads[k].style)
        invariant forall k :: 0 <= k < |pads| ==>
          if Visited(pads, i, pads[k])
          then CanSync(old(pads[k].coordinateUnits), u) &&
               pads[k].Value() == PadCoordinatesSynced(old(pads[k].Value()), u)
          else pads[k].Value() == old(pads[k].Value())
      {
        var item := pads[i];
        assert pads[..i + 1] == pads[..i] + [item];
        if item.coordinateUnits != u {
          assert !Visited(pads, i, item);
          ok := item.SetCoordinateUnits(u);
          if !ok {
            assert old(PadValues(pads))[i].coordinateUnits == old(pads[i].coordinateUnits);
            return;
          }
        }
        i := i + 1;
      }
      assert pads[..|pads|] == pads;
      ok := true;
      LiftPadCoordinates(old(PadValues(pads)), PadValues(pads), u);
    }

    /** The second loop of `SynchronizeCoordinateUnits`. */
    method SynchronizeTraceCoordinates(u: PcbUnits) returns (ok: bool)
      modifies traces
      ensures PadValues(pads) == old(PadValues(pads)) && GraphicsValues(graphics) == old(GraphicsValues(graphics))
      ensures ok <==> TracesCoordinatesSyncable(old(TraceValues(traces)), u)
      ensures ok ==> TraceValues(traces) == TracesCoordinatesSynced(old(TraceValues(traces)), u)
    {
      var i := 0;
      while i < |traces|
        invariant 0 <= i <= |traces|
        invariant forall k :: 0 <= k < |traces| ==>
          if Visited(traces, i, traces[k])
          then CanSync(old(traces[k].coordinateUnits), u) && traces[k].Value() == TraceCoordinatesSynced(old(traces[k].Value()), u)
          else traces[k].Value() == old(traces[k].Value())
      {
        var item := traces[i];
        assert traces[..i + 1] == traces[..i] + [item];
        if item.coordinateUnits != u {
          assert !Visited(traces, i, item);
          ok := item.SetCoordinateUnits(u);
          if !ok {
            assert old(TraceValues(traces))[i].coordinateUnits == old(traces[i].coordinateUnits);
            return;
          }
        }
        i := i + 1;
      }
      assert traces[..|traces|] == traces;
      ok := true;
      LiftTraceCoordinates(old(TraceValues(traces)), TraceValues(traces), u);
    }

    /** The third loop of `SynchronizeCoordinateUnits`: each graphics synchronizes the
        coordinates of its own lines and then carries the tag `u`. */
    method SynchronizeGraphicsCoordinates(u: PcbUnits) returns (ok: bool)
      modifies graphics
      ensures PadValues(pads) == old(PadValues(pads)) && TraceValues(traces) == old(TraceValues(traces))
      ensures ok <==> GraphicsListCoordinatesSyncable(old(GraphicsValues(graphics)), u)
      ensures ok ==> GraphicsValues(graphics) == GraphicsListCoordinatesSynced(old(GraphicsValues(graphics)), u)
    {
      var i := 0;
      while i < |graphics|
        invariant 0 <= i <= |graphics|
        invariant forall k :: 0 <= k < |graphics| ==>
          if Visited(graphics, i, graphics[k])
          then GraphicsCoordinatesSyncable(old(graphics[k].Value()), u) &&
               graphics[k].Value() == GraphicsCoordinatesSynced(old(graphics[k].Value()), u)
          else graphics[k].Value() == old(graphics[k].Value())
      {
        var item := graphics[i];
        assert graphics[..i + 1] == graphics[..i] + [item];
        ghost var before := item.Value();
        if Visited(graphics, i, item) {
          GraphicsCoordinatesSyncedAgain(old(item.Value()), u);
        }
        ok := item.SynchronizeCoordinateUnits(u);
        if !ok {
          assert !GraphicsCoordinatesSyncable(old(GraphicsValues(graphics))[i], u);
          return;
        }
        i := i + 1;
      }
      ok := true;
      assert graphics[..|graphics|] == graphics;
      LiftGraphicsCoordinates(old(GraphicsValues(graphics)), GraphicsValues(graphics), u);
    }
  }
}
