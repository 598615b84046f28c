/** The second half of PADS.cs: `PADSToPcbDesign` and its helpers turn a
    parsed PARTDECAL into the pads, traces and graphics of a `PcbDesign`,
    and `Parse` ties the two halves together.  The value-level functions
    here say what the C# methods build; the methods build it in place and
    are proved to build exactly that. */
module PadsConvert {
  import opened Outcomes
  import opened Text
  import opened Units
  import opened PcbValues
  import opened Pcb
  import opened PadsTables
  import opened Diagnostics
  import opened PadsDecal
  import opened PadsSections

  /** What converting a decal has produced so far: objects appended to the
      design's lists, warnings reported, and the exception that ended the
      conversion, if any (the objects added before it stay). */
  datatype Emitted = Emitted(graphics: seq<GraphicsValue>, traces: seq<TraceValue>, pads: seq<PadValue>,
                             warnings: seq<Warning>, abort: Option<AbortCause>)

  const Nothing := Emitted([], [], [], [], None)

  // ---------------------------------------------------------------------
  // Pieces: ProcessDecalPieces and PolylineHelper

  /** The first `n` silk lines of a polyline: segment `i` joins points `i`
      and `i + 1`. */
  function PolylineLines(xy: seq<Point>, n: nat, u: PcbUnits, width: real, t: PcbLineType): seq<SilkLineValue>
    requires n < |xy|
  {
    seq(n, i requires 0 <= i < n => SilkLineValue(xy[i], xy[i + 1], u, u, width, t))
  }

  /** `PolylineHelper(coordinateUnits, item)`: the warning for an unknown
      layer, then for an unknown line type; then the graphics, or `None`
      where a piece without points makes the list capacity negative and the
      constructor throws. */
  function PolylineOf(p: Piece, u: PcbUnits): (Option<GraphicsValue>, seq<Warning>)
  {
    var (layer, layerWarned) := PolylineLayer(p.layer);
    var (t, typeWarned) := PolylineLineType(p.lineType);
    var ws := (if layerWarned then [DefaultGraphicsLayer(p.layer)] else []) +
              (if typeWarned then [DefaultLineType(p.lineType)] else []);
    if |p.xy| == 0 then (None, ws)
    else (Some(GraphicsValue(PolylineLines(p.xy, |p.xy| - 1, u, p.width, t), u, u, layer)), ws)
  }

  /** A polyline of n points becomes n - 1 connected silk lines from the
      first point to the last, all of the piece's width, on the mapped layer
      in the header units. */
  lemma PolylineConnected(p: Piece, u: PcbUnits)
    requires p.kind != Copper && |p.xy| > 0
    ensures var g := PolylineOf(p, u).0;
      g.Some? && |g.value.lines| == |p.xy| - 1 &&
      g.value.units == u && g.value.coordinateUnits == u && g.value.layer == PolylineLayer(p.layer).0 &&
      (|p.xy| > 1 ==> g.value.lines[0].start == p.xy[0] && g.value.lines[|p.xy| - 2].end == p.xy[|p.xy| - 1]) &&
      (forall i :: 0 <= i < |p.xy| - 2 ==> g.value.lines[i].end == g.value.lines[i + 1].start) &&
      (forall i :: 0 <= i < |p.xy| - 1 ==> g.value.lines[i].start == p.xy[i] && g.value.lines[i].end == p.xy[i + 1]) &&
      (forall i :: 0 <= i < |p.xy| - 1 ==>
        g.value.lines[i].thickness == p.width && g.value.lines[i].units == u && g.value.lines[i].coordinateUnits == u &&
        g.value.lines[i].lineType == PolylineLineType(p.lineType).0)
  {
  }

  /** One turn of the `foreach` of `ProcessDecalPieces`: a copper piece
      becomes a trace (layer 0 is All, any other code is cast), an open or
      closed piece becomes graphics. */
  function PieceStep(e: Emitted, p: Piece, u: PcbUnits): Emitted
  {
    match p.kind
    case Copper => e.(traces := e.traces + [TraceValue(p.xy, CopperLayer(p.layer), p.width, u, u)])
    case _ =>
      var (g, ws) := PolylineOf(p, u);
      if g.None? then e.(warnings := e.warnings + ws, abort := Some(EmptyPolyline))
      else e.(graphics := e.graphics + [g.value], warnings := e.warnings + ws)
  }

  /** `ProcessDecalPieces` over the pieces, in order, until one throws. */
  function PiecesOf(ps: seq<Piece>, u: PcbUnits): Emitted
  {
    if |ps| == 0 then Nothing
    else
      var e := PiecesOf(ps[..|ps| - 1], u);
      if e.abort.Some? then e else PieceStep(e, ps[|ps| - 1], u)
  }

  function CopperCount(ps: seq<Piece>): nat
  {
    if |ps| == 0 then 0 else CopperCount(ps[..|ps| - 1]) + (if ps[|ps| - 1].kind == Copper then 1 else 0)
  }

  /** Every piece yields exactly one object, a trace exactly for copper;
      an aborted run has yielded fewer. No pads come from pieces. */
  lemma {:induction false} PiecesCounts(ps: seq<Piece>, u: PcbUnits)
    ensures var e := PiecesOf(ps, u);
      e.pads == [] && |e.graphics| + |e.traces| <= |ps| && |e.traces| <= CopperCount(ps) &&
      (e.abort.None? ==> |e.graphics| + |e.traces| == |ps| && |e.traces| == CopperCount(ps))
  {
    if |ps| > 0 {
      PiecesCounts(ps[..|ps| - 1], u);
    }
  }

  /** Every object made from pieces is in the header units. */
  lemma {:induction false} PiecesInUnits(ps: seq<Piece>, u: PcbUnits)
    ensures EmittedInUnits(PiecesOf(ps, u), u)
  {
    if |ps| > 0 {
      PiecesInUnits(ps[..|ps| - 1], u);
      var e := PiecesOf(ps[..|ps| - 1], u);
      var p := ps[|ps| - 1];
      if e.abort.None? && p.kind != Copper && |p.xy| > 0 {
        PolylineConnected(p, u);
      }
    }
  }

  /** Every object emitted so far is tagged `u`, dimensions and
      coordinates alike. */
  predicate EmittedInUnits(e: Emitted, u: PcbUnits)
  {
    && (forall k :: 0 <= k < |e.traces| ==> e.traces[k].units == u && e.traces[k].coordinateUnits == u)
    && (forall k :: 0 <= k < |e.graphics| ==> GraphicsInUnits(e.graphics[k], u))
    && (forall k :: 0 <= k < |e.pads| ==> e.pads[k].style.units == u && e.pads[k].coordinateUnits == u)
  }

  predicate GraphicsInUnits(g: GraphicsValue, u: PcbUnits)
  {
    g.units == u && g.coordinateUnits == u &&
    forall j :: 0 <= j < |g.lines| ==> g.lines[j].units == u && g.lines[j].coordinateUnits == u
  }

  // ---------------------------------------------------------------------
  // Pads: FindSuitablePadstack

  /** The position of the first stack named `d`, or -1. */
  function StackIndex(stacks: seq<PadStack>, d: string): (r: int)
    ensures -1 <= r < |stacks|
    ensures r >= 0 ==> stacks[r].designator == d && forall i :: 0 <= i < r ==> stacks[i].designator != d
    ensures r == -1 ==> forall i :: 0 <= i < |stacks| ==> stacks[i].designator != d
  {
    if |stacks| == 0 then -1
    else if stacks[0].designator == d then 0
    else
      var k := StackIndex(stacks[1..], d);
      if k < 0 then -1 else k + 1
  }

  /** `PadStacks.FirstOrDefault(x => x.PinDesignator == d)`. */
  function StackNamed(stacks: seq<PadStack>, d: string): Option<PadStack>
  {
    var k := StackIndex(stacks, d);
    if k < 0 then None else Some(stacks[k])
  }

  /** `FindSuitablePadstack`: the first stack named like the terminal, then
      the first named with its 1-based position, then the default stack;
      the switch swaps the first two. */
  function SuitableStack(stacks: seq<PadStack>, t: Terminal, default: Option<PadStack>, byIndex: bool): Option<PadStack>
  {
    var byName := StackNamed(stacks, t.designator);
    var byNumber := StackNamed(stacks, NatToString(t.index));
    var first := if byIndex then byNumber else byName;
    var second := if byIndex then byName else byNumber;
    if first.Some? then first else if second.Some? then second else default
  }

  /** The binding rules, one by one. */
  lemma SuitableStackRules(stacks: seq<PadStack>, t: Terminal, default: Option<PadStack>, byIndex: bool)
    ensures var r := SuitableStack(stacks, t, default, byIndex);
      var named := StackIndex(stacks, t.designator);
      var numbered := StackIndex(stacks, NatToString(t.index));
      (!byIndex && named >= 0 ==> r == Some(stacks[named])) &&
      (byIndex && numbered >= 0 ==> r == Some(stacks[numbered])) &&
      (!byIndex && named < 0 && numbered >= 0 ==> r == Some(stacks[numbered])) &&
      (byIndex && numbered < 0 && named >= 0 ==> r == Some(stacks[named])) &&
      (r.None? <==> (default.None? &&
        (forall i :: 0 <= i < |stacks| ==> stacks[i].designator != t.designator) &&
        (forall i :: 0 <= i < |stacks| ==> stacks[i].designator != NatToString(t.index))))
  {
  }

  /** The stack for "all terminals". */
  function DefaultStack(stacks: seq<PadStack>): Option<PadStack>
  {
    StackNamed(stacks, AllTerminalsDesignator)
  }

  // ---------------------------------------------------------------------
  // Pads: stacklines

  /** A dependent argument of a stackline; parsed stacklines carry all six,
      so the fallback is never used for them. */
  function Arg(line: StackLine, a: ArgumentKind): Argument
  {
    if ArgumentSlot(a) < |line.arguments| then line.arguments[ArgumentSlot(a)] else Absent
  }

  predicate Drilled(line: StackLine)
  {
    Arg(line, DrillSize).Present?
  }

  /** `Arguments.Count(x => x.Present)`. */
  function PresentCount(args: seq<Argument>): nat
  {
    if |args| == 0 then 0 else PresentCount(args[..|args| - 1]) + (if args[|args| - 1].Present? then 1 else 0)
  }

  lemma {:induction false} PresentCountZero(args: seq<Argument>)
    ensures PresentCount(args) == 0 <==> forall k :: 0 <= k < |args| ==> args[k].Absent?
  {
    if |args| > 0 {
      PresentCountZero(args[..|args| - 1]);
      assert forall k :: 0 <= k < |args| - 1 ==> args[..|args| - 1][k] == args[k];
    }
  }

  /** A line worth a pad: nonzero size or some argument present. */
  predicate Useful(line: StackLine)
  {
    line.size != 0.0 || PresentCount(line.arguments) > 0
  }

  /** `StackLines.Where(...)`: the useful lines, in order. */
  function UsefulLines(ls: seq<StackLine>): (r: seq<StackLine>)
    ensures |r| <= |ls|
    ensures forall k :: 0 <= k < |r| ==> Useful(r[k]) && r[k] in ls
    ensures forall k :: 0 <= k < |ls| && Useful(ls[k]) ==> ls[k] in r
  {
    if |ls| == 0 then []
    else
      assert forall k :: 0 <= k < |ls| - 1 ==> ls[..|ls| - 1][k] == ls[k];
      UsefulLines(ls[..|ls| - 1]) + (if Useful(ls[|ls| - 1]) then [ls[|ls| - 1]] else [])
  }

  /** Filtering keeps the order: the useful lines of a concatenation are
      those of the first part followed by those of the second. */
  lemma {:induction false} UsefulLinesAppend(a: seq<StackLine>, b: seq<StackLine>)
    ensures UsefulLines(a + b) == UsefulLines(a) + UsefulLines(b)
    decreases |b|
  {
    if |b| == 0 {
      assert a + b == a;
    } else {
      var b' := b[..|b| - 1];
      assert (a + b)[..|a + b| - 1] == a + b';
      UsefulLinesAppend(a, b');
    }
  }

  /** A single line is kept exactly when it is useful. */
  lemma UsefulLinesSingle(line: StackLine)
    ensures UsefulLines([line]) == if Useful(line) then [line] else []
  {
    assert [line][..0] == [];
  }

  /** `StackLines.FirstOrDefault(x => x.Arguments[DrillSize].Present)`. */
  function FirstDrillLine(ls: seq<StackLine>): (r: Option<StackLine>)
    ensures r.Some? ==> Drilled(r.value) && r.value in ls
    ensures r.None? <==> forall k :: 0 <= k < |ls| ==> !Drilled(ls[k])
    ensures r.Some? ==> exists k :: 0 <= k < |ls| && ls[k] == r.value && forall i :: 0 <= i < k ==> !Drilled(ls[i])
  {
    if |ls| == 0 then None
    else if Drilled(ls[0]) then Some(ls[0])
    else
      var r := FirstDrillLine(ls[1..]);
      assert forall k :: 1 <= k < |ls| ==> ls[k] == ls[1..][k - 1];
      r
  }

  /** The `maxArgs` loop: the first line holding the most present arguments. */
  function MaxArgs(ls: seq<StackLine>): (m: nat)
    requires |ls| > 0
    ensures m < |ls|
    ensures forall k :: 0 <= k < |ls| ==> PresentCount(ls[k].arguments) <= PresentCount(ls[m].arguments)
    ensures forall k :: 0 <= k < m ==> PresentCount(ls[k].arguments) < PresentCount(ls[m].arguments)
  {
    if |ls| == 1 then 0
    else
      var m := MaxArgs(ls[..|ls| - 1]);
      assert forall k :: 0 <= k < |ls| - 1 ==> ls[..|ls| - 1][k] == ls[k];
      if PresentCount(ls[m].arguments) < PresentCount(ls[|ls| - 1].arguments) then |ls| - 1 else m
  }

  /** The `maxArgs` loop of `ProcessDecalPads`. */
  method MaxArgsIndex(ls: seq<StackLine>) returns (m: nat)
    requires |ls| > 0
    ensures m == MaxArgs(ls)
  {
    m := 0;
    for i := 1 to |ls|
      invariant m == MaxArgs(ls[..i])
    {
      assert ls[..i + 1][..i] == ls[..i];
      if PresentCount(ls[m].arguments) < PresentCount(ls[i].arguments) {
        m := i;
      }
    }
    assert ls[..|ls|] == ls;
  }

  // ---------------------------------------------------------------------
  // Pads: DeterminePadStyle and DeterminePcbLayer

  /** `DeterminePadStyle(line, units)` and whether it reported the finger
      arguments it ignores.  Round, square and annular pads are through-hole
      exactly when a drill is given; a rectangular finger is a surface
      rectangle of size by finger length.  A missing inner diameter or
      finger length throws (the null cast), and so do the odd and oval
      finger shapes. */
  function PadStyleOf(line: StackLine, u: PcbUnits): (r: Result<(PadStyleValue, bool), AbortCause>)
    ensures r.Failure? <==>
      line.shape in {Odd, OvalFinger} ||
      (line.shape == Annular && Arg(line, InternalDiameter).Absent?) ||
      (line.shape == RectangularFinger && Arg(line, FingerLength).Absent?)
    ensures r.Failure? ==> r.error == if line.shape in {Odd, OvalFinger} then ShapeNotImplemented else MissingArgument
    ensures r.Success? ==> r.value.0.units == u && r.value.0.dimension1 == line.size
    ensures r.Success? ==> (r.value.1 <==> line.shape == RectangularFinger)
    ensures r.Success? ==> (r.value.0.shape in {CircularTH, RectangularTH} <==> Drilled(line) && line.shape != RectangularFinger)
    ensures r.Success? ==> (r.value.0.shape in {CircularTH, CircularSMT} <==> line.shape in {Round, Annular})
    ensures r.Success? ==> r.value.0.drill == if Drilled(line) && line.shape != RectangularFinger then Arg(line, DrillSize).value else 0.0
    ensures r.Success? && line.shape == Round ==> r.value.0.dimension2 == 0.0
    ensures r.Success? && line.shape == Square ==> r.value.0.dimension2 == line.size
    ensures r.Success? && line.shape == Annular ==> r.value.0.dimension2 == Arg(line, InternalDiameter).value
    ensures r.Success? && line.shape == RectangularFinger ==> r.value.0.dimension2 == Arg(line, FingerLength).value
  {
    var drilled := Drilled(line);
    var drill := if drilled then Arg(line, DrillSize).value else 0.0;
    match line.shape
    case Round => Success((PadStyleValue(if drilled then CircularTH else CircularSMT, u, line.size, 0.0, drill), false))
    case Square => Success((PadStyleValue(if drilled then RectangularTH else RectangularSMT, u, line.size, line.size, drill), false))
    case Annular =>
      if Arg(line, InternalDiameter).Absent? then Failure(MissingArgument)
      else Success((PadStyleValue(if drilled then CircularTH else CircularSMT, u, line.size,
                                  Arg(line, InternalDiameter).value, drill), false))
    case RectangularFinger =>
      if Arg(line, FingerLength).Absent? then Failure(MissingArgument)
      else Success((PadStyleValue(RectangularSMT, u, line.size, Arg(line, FingerLength).value, 0.0), true))
    case _ => Failure(ShapeNotImplemented)
  }

  /** The pads of one stackline: the pad on the line's layer, and for the
      inner layers a twin on InternalTop sharing its style. */
  function LinePads(line: StackLine, t: Terminal, u: PcbUnits): Result<(seq<PadValue>, seq<Warning>), AbortCause>
  {
    match PadStyleOf(line, u)
    case Failure(c) => Failure(c)
    case Success((style, fingerWarned)) =>
      var (layer, layerWarned) := StackLayer(line.layer);
      var pad := PadValue(t.designator, u, t.x, t.y, layer, style, None);
      Success(([pad] + (if layer == InternalBottom then [pad.(layer := InternalTop)] else []),
               (if fingerWarned then [FingerArgumentsIgnored] else []) +
               (if layerWarned then [PartialLayerRecognition(line.layer)] else [])))
  }

  function LineStep(e: Emitted, line: StackLine, t: Terminal, u: PcbUnits): Emitted
  {
    match LinePads(line, t, u)
    case Failure(c) => e.(abort := Some(c))
    case Success((ps, ws)) => e.(pads := e.pads + ps, warnings := e.warnings + ws)
  }

  /** The `foreach (var line in usefulLines)` loop, until a style throws. */
  function LinesPads(ls: seq<StackLine>, t: Terminal, u: PcbUnits, e0: Emitted): Emitted
  {
    if |ls| == 0 then e0
    else
      var e := LinesPads(ls[..|ls| - 1], t, u, e0);
      if e.abort.Some? then e else LineStep(e, ls[|ls| - 1], t, u)
  }

  /** The set of layer codes of the lines. */
  function LayerCodes(ls: seq<StackLine>): set<int>
  {
    set k | 0 <= k < |ls| :: ls[k].layer
  }

  /** `usefulLines.Select(x => x.Layer).Union(AllLayerPattern).Count() == 3`. */
  predicate CoversAllPattern(ls: seq<StackLine>, pattern: seq<int>)
  {
    |LayerCodes(ls) + (set c | c in pattern)| == 3
  }

  /** One terminal bound to `stack`: a drill-only hole when the first
      drilled line's drill is at least its size; one pad on All when the
      three useful lines cover the layer pattern; otherwise the pads of the
      useful lines one by one. */
  function StackPads(e: Emitted, stack: PadStack, t: Terminal, u: PcbUnits, cfg: Config): Emitted
  {
    var drillLine := FirstDrillLine(stack.lines);
    if drillLine.Some? && Arg(drillLine.value, DrillSize).value >= drillLine.value.size then
      var d := Arg(drillLine.value, DrillSize).value;
      e.(pads := e.pads + [PadValue(t.designator, u, t.x, t.y, Drill, PadStyleValue(CircularTH, u, d, 0.0, d), None)])
    else UsefulPads(e, UsefulLines(stack.lines), t, u, cfg)
  }

  /** The pads of a stack that is not a bare hole, from its useful lines:
      one pad on All when three lines cover the all-layer pattern, one pad
      per line otherwise. */
  function UsefulPads(e: Emitted, useful: seq<StackLine>, t: Terminal, u: PcbUnits, cfg: Config): Emitted
  {
    if |useful| != 3 then LinesPads(useful, t, u, e)
    else
      match AllLayerPattern(cfg)
      case None => e.(abort := Some(CustomLayerModelMissing))
      case Some(pattern) =>
        if !CoversAllPattern(useful, pattern) then LinesPads(useful, t, u, e)
        else AllPad(e, useful[MaxArgs(useful)], t, u)
  }

  /** The single pad on All, styled by `line`. */
  function AllPad(e: Emitted, line: StackLine, t: Terminal, u: PcbUnits): Emitted
  {
    match PadStyleOf(line, u)
    case Failure(c) => e.(abort := Some(c))
    case Success((style, fingerWarned)) =>
      e.(pads := e.pads + [PadValue(t.designator, u, t.x, t.y, All, style, None)],
         warnings := e.warnings + (if fingerWarned then [FingerArgumentsIgnored] else []))
  }

  /** One turn of the `foreach` of `ProcessDecalPads`. */
  function TerminalStep(e: Emitted, d: Partdecal, t: Terminal, u: PcbUnits, cfg: Config): Emitted
  {
    match SuitableStack(d.stacks, t, DefaultStack(d.stacks), cfg.prioritizePadstackBindingByIndex)
    case None => e.(warnings := e.warnings + [NoPadstack(t.designator)])
    case Some(stack) => StackPads(e, stack, t, u, cfg)
  }

  /** `ProcessDecalPads` over the terminals, in order, until one throws. */
  function TerminalsPads(ts: seq<Terminal>, d: Partdecal, u: PcbUnits, cfg: Config): Emitted
  {
    if |ts| == 0 then Nothing
    else
      var e := TerminalsPads(ts[..|ts| - 1], d, u, cfg);
      if e.abort.Some? then e else TerminalStep(e, d, ts[|ts| - 1], u, cfg)
  }

  /** `ProcessDecalPieces` then `ProcessDecalPads`, inside one `try`. */
  function DecalEmission(d: Partdecal, u: PcbUnits, cfg: Config): Emitted
  {
    var e := PiecesOf(d.pieces, u);
    if e.abort.Some? then e
    else
      var p := TerminalsPads(d.terminals, d, u, cfg);
      Emitted(e.graphics, e.traces, p.pads, e.warnings + p.warnings, p.abort)
  }

  // ---------------------------------------------------------------------
  // What the pads of a terminal look like

  /** The pads from position `from` on stand at terminal `t`, carry its
      designator and no flags, and are tagged `u`. */
  predicate PadsAt(ps: seq<PadValue>, from: nat, t: Terminal, u: PcbUnits)
  {
    forall k :: from <= k < |ps| ==>
      ps[k].number == t.designator && ps[k].x == t.x && ps[k].y == t.y &&
      ps[k].coordinateUnits == u && ps[k].style.units == u && ps[k].flags.None?
  }

  /** From position `from` on, every InternalTop pad is the twin of the pad
      just before it, which is the same pad on InternalBottom. */
  predicate Twinned(ps: seq<PadValue>, from: nat)
  {
    forall k :: from <= k < |ps| && ps[k].layer == InternalTop ==>
      from < k && ps[k - 1] == ps[k].(layer := InternalBottom)
  }

  /** One stackline yields its pad, plus the InternalTop twin exactly when
      the pad lies on InternalBottom; a stackline never lands on InternalTop
      by itself. */
  lemma LinePadsShape(line: StackLine, t: Terminal, u: PcbUnits)
    ensures LinePads(line, t, u).Success? ==>
      var ps := LinePads(line, t, u).value.0;
      1 <= |ps| <= 2 && PadsAt(ps, 0, t, u) && ps[0].layer != InternalTop &&
      (|ps| == 2 <==> ps[0].layer == InternalBottom) &&
      (|ps| == 2 ==> ps[1] == ps[0].(layer := InternalTop))
  {
  }

  /** The loop over useful lines only appends pads and warnings, all pads
      at the terminal, twins right after their InternalBottom pad. */
  lemma {:induction false} LinesPadsFacts(ls: seq<StackLine>, t: Terminal, u: PcbUnits, e0: Emitted)
    ensures LinesPads(ls, t, u, e0).graphics == e0.graphics && LinesPads(ls, t, u, e0).traces == e0.traces
    ensures e0.pads <= LinesPads(ls, t, u, e0).pads && e0.warnings <= LinesPads(ls, t, u, e0).warnings
    ensures PadsAt(LinesPads(ls, t, u, e0).pads, |e0.pads|, t, u)
    ensures Twinned(LinesPads(ls, t, u, e0).pads, |e0.pads|)
    ensures e0.abort.Some? ==> LinesPads(ls, t, u, e0) == e0
  {
    if |ls| > 0 {
      var line := ls[|ls| - 1];
      LinesPadsFacts(ls[..|ls| - 1], t, u, e0);
      LinePadsShape(line, t, u);
      var e := LinesPads(ls[..|ls| - 1], t, u, e0);
      if e.abort.None? && LinePads(line, t, u).Success? {
        var ps := LinePads(line, t, u).value.0;
        var r := e.pads + ps;
        assert LinesPads(ls, t, u, e0).pads == r;
        forall k | |e0.pads| <= k < |r| && r[k].layer == InternalTop
          ensures |e0.pads| < k && r[k - 1] == r[k].(layer := InternalBottom)
        {
          if k >= |e.pads| {
            assert k == |e.pads| + 1 && r[k] == ps[1] && r[k - 1] == ps[0];
          }
        }
      }
    }
  }

  /** The pads of one terminal bound to a stack, whichever rule made them. */
  lemma StackPadsFacts(e: Emitted, stack: PadStack, t: Terminal, u: PcbUnits, cfg: Config)
    requires e.abort.None?
    ensures var r := StackPads(e, stack, t, u, cfg);
      r.graphics == e.graphics && r.traces == e.traces && e.pads <= r.pads && e.warnings <= r.warnings &&
      PadsAt(r.pads, |e.pads|, t, u) && Twinned(r.pads, |e.pads|)
  {
    UsefulPadsFacts(e, UsefulLines(stack.lines), t, u, cfg);
  }

  lemma UsefulPadsFacts(e: Emitted, useful: seq<StackLine>, t: Terminal, u: PcbUnits, cfg: Config)
    requires e.abort.None?
    ensures var r := UsefulPads(e, useful, t, u, cfg);
      r.graphics == e.graphics && r.traces == e.traces && e.pads <= r.pads && e.warnings <= r.warnings &&
      PadsAt(r.pads, |e.pads|, t, u) && Twinned(r.pads, |e.pads|)
  {
    if |useful| == 3 && AllLayerPattern(cfg).Some? && CoversAllPattern(useful, AllLayerPattern(cfg).value) {
      AllPadFacts(e, useful[MaxArgs(useful)], t, u);
    } else {
      LinesPadsFacts(useful, t, u, e);
    }
  }

  lemma AllPadFacts(e: Emitted, line: StackLine, t: Terminal, u: PcbUnits)
    requires e.abort.None?
    ensures var r := AllPad(e, line, t, u);
      r.graphics == e.graphics && r.traces == e.traces && e.pads <= r.pads && e.warnings <= r.warnings &&
      PadsAt(r.pads, |e.pads|, t, u) && Twinned(r.pads, |e.pads|)
  {
  }

  /** A drilled line whose drill is at least its size makes the terminal a
      drill-only hole: one round through-hole pad on the Drill layer whose
      outer size and drill are both the drill, whatever else the stack says. */
  lemma DrillOnlyHole(e: Emitted, stack: PadStack, t: Terminal, u: PcbUnits, cfg: Config, k: nat)
    requires k < |stack.lines| && Drilled(stack.lines[k])
    requires forall i :: 0 <= i < k ==> !Drilled(stack.lines[i])
    requires Arg(stack.lines[k], DrillSize).value >= stack.lines[k].size
    ensures var d := Arg(stack.lines[k], DrillSize).value;
      StackPads(e, stack, t, u, cfg).pads == e.pads + [PadValue(t.designator, u, t.x, t.y, Drill, PadStyleValue(CircularTH, u, d, 0.0, d), None)]
    ensures StackPads(e, stack, t, u, cfg).warnings == e.warnings
  {
    var r := FirstDrillLine(stack.lines);
    var j :| 0 <= j < |stack.lines| && stack.lines[j] == r.value && forall i :: 0 <= i < j ==> !Drilled(stack.lines[i]);
    assert j == k;
  }

  /** A stack that is not a bare hole, whose three useful lines together
      with the all-layer pattern make three layers, collapses into a single
      pad on All, styled by the line with the most arguments, unless that
      style throws. */
  lemma AllLayerCollapse(e: Emitted, stack: PadStack, t: Terminal, u: PcbUnits, cfg: Config)
    requires AllLayerPattern(cfg).Some?
    requires var dl := FirstDrillLine(stack.lines); dl.None? || Arg(dl.value, DrillSize).value < dl.value.size
    requires |UsefulLines(stack.lines)| == 3 && CoversAllPattern(UsefulLines(stack.lines), AllLayerPattern(cfg).value)
    ensures var useful := UsefulLines(stack.lines);
      var r := StackPads(e, stack, t, u, cfg);
      match PadStyleOf(useful[MaxArgs(useful)], u)
      case Failure(c) => r.abort == Some(c) && r.pads == e.pads
      case Success(sw) => r.abort == e.abort && r.pads == e.pads + [PadValue(t.designator, u, t.x, t.y, All, sw.0, None)]
  {
  }

  /** Under the four-layer model (or the override) the pattern is
      {-2, -1, 0}, so lines cover it exactly when every one of them lies on
      Top, InternalBottom or Bottom. */
  lemma FourLayerCovers(ls: seq<StackLine>, cfg: Config)
    requires cfg.fourLayerModel || cfg.layerModelOverrideForAll
    ensures AllLayerPattern(cfg).Some?
    ensures CoversAllPattern(ls, AllLayerPattern(cfg).value) <==> LayerCodes(ls) <= {-2, -1, 0}
  {
    var pattern := [-2, -1, 0];
    assert (set c | c in pattern) == {-2, -1, 0} by {
      assert -2 in pattern && -1 in pattern && 0 in pattern;
    }
    var all := LayerCodes(ls) + {-2, -1, 0};
    assert |{-2, -1, 0}| == 3;
    if !(LayerCodes(ls) <= {-2, -1, 0}) {
      var c :| c in LayerCodes(ls) && c !in {-2, -1, 0};
      assert {-2, -1, 0} + {c} <= all;
      assert |{-2, -1, 0} + {c}| == 4;
      SubsetCard({-2, -1, 0} + {c}, all);
    } else {
      assert all == {-2, -1, 0};
    }
  }

  lemma SubsetCard(a: set<int>, b: set<int>)
    requires a <= b
    ensures |a| <= |b|
  {
    assert b == a + (b - a);
  }

  /** A terminal gets the no-padstack warning exactly when no stack binds
      to it, and then no pad. */
  lemma NoPadstackWarned(e: Emitted, d: Partdecal, t: Terminal, u: PcbUnits, cfg: Config)
    requires e.abort.None? && NoPadstack(t.designator) !in e.warnings
    ensures var r := TerminalStep(e, d, t, u, cfg);
      var bound := SuitableStack(d.stacks, t, DefaultStack(d.stacks), cfg.prioritizePadstackBindingByIndex);
      (NoPadstack(t.designator) in r.warnings <==> bound.None?) &&
      (bound.None? ==> r.pads == e.pads)
  {
    var bound := SuitableStack(d.stacks, t, DefaultStack(d.stacks), cfg.prioritizePadstackBindingByIndex);
    if bound.Some? {
      var r := StackPads(e, bound.value, t, u, cfg);
      var useful := UsefulLines(bound.value.lines);
      LinesPadsFacts(useful, t, u, e);
      NoPadstackNotAdded(useful, t, u, e);
    }
  }

  /** The stackline loop reports only styles and layers. */
  lemma {:induction false} NoPadstackNotAdded(ls: seq<StackLine>, t: Terminal, u: PcbUnits, e0: Emitted)
    requires NoPadstack(t.designator) !in e0.warnings
    ensures NoPadstack(t.designator) !in LinesPads(ls, t, u, e0).warnings
  {
    if |ls| > 0 {
      NoPadstackNotAdded(ls[..|ls| - 1], t, u, e0);
    }
  }

  /** The terminal loop appends only pads, each at its terminal, with twins
      after their InternalBottom pad; it makes no graphics or traces. */
  lemma {:induction false} TerminalsPadsFacts(ts: seq<Terminal>, d: Partdecal, u: PcbUnits, cfg: Config)
    ensures TerminalsPads(ts, d, u, cfg).graphics == [] && TerminalsPads(ts, d, u, cfg).traces == []
    ensures EmittedInUnits(TerminalsPads(ts, d, u, cfg), u)
    ensures Twinned(TerminalsPads(ts, d, u, cfg).pads, 0)
  {
    if |ts| > 0 {
      TerminalsPadsFacts(ts[..|ts| - 1], d, u, cfg);
      var e := TerminalsPads(ts[..|ts| - 1], d, u, cfg);
      var t := ts[|ts| - 1];
      var bound := SuitableStack(d.stacks, t, DefaultStack(d.stacks), cfg.prioritizePadstackBindingByIndex);
      if e.abort.None? && bound.Some? {
        StackPadsFacts(e, bound.value, t, u, cfg);
        var r := StackPads(e, bound.value, t, u, cfg);
        assert forall k :: 0 <= k < |e.pads| ==> r.pads[k] == e.pads[k];
      }
    }
  }

  /** Once a terminal has thrown, the remaining terminals are not processed. */
  lemma {:induction false} TerminalsStopAtAbort(ts: seq<Terminal>, i: nat, d: Partdecal, u: PcbUnits, cfg: Config)
    requires i <= |ts| && TerminalsPads(ts[..i], d, u, cfg).abort.Some?
    ensures TerminalsPads(ts, d, u, cfg) == TerminalsPads(ts[..i], d, u, cfg)
    decreases |ts| - i
  {
    if i < |ts| {
      assert ts[..i + 1][..i] == ts[..i];
      TerminalsStopAtAbort(ts, i + 1, d, u, cfg);
    } else {
      assert ts[..i] == ts;
    }
  }

  /** Only the stacks of the decal steer the terminal loop. */
  lemma {:induction false} TerminalsPadsStacksOnly(ts: seq<Terminal>, d: Partdecal, d': Partdecal, u: PcbUnits, cfg: Config)
    requires d.stacks == d'.stacks
    ensures TerminalsPads(ts, d, u, cfg) == TerminalsPads(ts, d', u, cfg)
  {
    if |ts| > 0 {
      TerminalsPadsStacksOnly(ts[..|ts| - 1], d, d', u, cfg);
    }
  }

  /** The decal's own unit letter and name are read but never used: every
      object is made in the header units. */
  lemma DecalUnitsUnused(d: Partdecal, u: PcbUnits, cfg: Config, v: PcbUnits, name: string)
    ensures DecalEmission(d, u, cfg) == DecalEmission(d.(units := v, name := name), u, cfg)
  {
    TerminalsPadsStacksOnly(d.terminals, d, d.(units := v, name := name), u, cfg);
  }

  /** Everything a decal yields is in the header units; twins follow
      their InternalBottom pads. */
  lemma DecalEmissionFacts(d: Partdecal, u: PcbUnits, cfg: Config)
    ensures EmittedInUnits(DecalEmission(d, u, cfg), u)
    ensures Twinned(DecalEmission(d, u, cfg).pads, 0)
  {
    PiecesInUnits(d.pieces, u);
    PiecesCounts(d.pieces, u);
    TerminalsPadsFacts(d.terminals, d, u, cfg);
  }

  // ---------------------------------------------------------------------
  // PADSToPcbDesign and Parse

  /** The design as built, before its coordinate units are synchronized:
      the lists of a fresh `PcbDesign`, whose own tag is still Thou. */
  function Built(u: PcbUnits, decal: Option<Partdecal>, cfg: Config): (Emitted, DesignValue)
  {
    match decal
    case None => (Nothing, EmptyDesign)
    case Some(d) =>
      var e := DecalEmission(d, u, cfg);
      (e, DesignValue(e.graphics, e.pads, e.traces, EmptyDesign.coordinateUnits))
  }

  /** The warnings of a conversion, then the exception that ended it, if any. */
  function Reported(e: Emitted): seq<Warning>
  {
    e.warnings + (if e.abort.Some? then [DecalAborted(e.abort.value)] else [])
  }

  /** `PADSToPcbDesign(coordinateUnits, decal)`: the objects of the decal,
      then `SynchronizeCoordinateUnits` with the header units; the exception
      that ended the conversion is reported after the warnings before it. */
  function DesignOf(u: PcbUnits, decal: Option<Partdecal>, cfg: Config): (DesignValue, seq<Warning>)
  {
    var b := Built(u, decal, cfg);
    BuiltSyncable(u, decal, cfg);
    (SyncCoordinates(b.1, u), Reported(b.0))
  }

  /** Every object of the built design already carries the header units,
      so the closing synchronization cannot throw. */
  lemma BuiltSyncable(u: PcbUnits, decal: Option<Partdecal>, cfg: Config)
    ensures CoordinatesSyncable(Built(u, decal, cfg).1, u)
    ensures InCoordinateUnits(Built(u, decal, cfg).1.(coordinateUnits := u), u)
    ensures InUnits(Built(u, decal, cfg).1, u)
  {
    if decal.Some? {
      DecalEmissionFacts(decal.value, u, cfg);
    }
  }

  /** The synchronization at the end of `PADSToPcbDesign` only retags the
      design: every object is kept as built. */
  lemma DesignOfKeepsObjects(u: PcbUnits, decal: Option<Partdecal>, cfg: Config)
    ensures var built := Built(u, decal, cfg).1;
      DesignOf(u, decal, cfg).0 == built.(coordinateUnits := u)
  {
    var built := Built(u, decal, cfg).1;
    BuiltSyncable(u, decal, cfg);
    SyncCoordinatesIdentity(built.(coordinateUnits := u), u);
  }

  /** The converted design is entirely in the header units, dimensions and
      coordinates alike. */
  lemma DesignInHeaderUnits(u: PcbUnits, decal: Option<Partdecal>, cfg: Config)
    ensures InCoordinateUnits(DesignOf(u, decal, cfg).0, u) && InUnits(DesignOf(u, decal, cfg).0, u)
  {
    DesignOfKeepsObjects(u, decal, cfg);
    BuiltSyncable(u, decal, cfg);
  }

  /** The outcome of `Partdecal.Parse` as `Parse` sees it: the decal, or
      null with the warnings so far (a thrown exception is reported last). */
  function DecalOfCut(cut: Cut, cfg: Config, num: NumberParser): (Option<Partdecal>, seq<Warning>)
  {
    match cut.section
    case None => (None, [SectionUnreadable])
    case Some(s) =>
      var (o, ws) := DecalOf(s, cfg, num);
      match o
      case NoSection => (None, ws)
      case Unreadable => (None, ws + [SectionUnreadable])
      case Decoded(d) => (Some(d), ws)
  }

  /** `PADS.Parse(contents)`: a design and the warnings reported on the
      way, or the exception that escapes it. */
  function ParseSpec(contents: string, cfg: Config, num: NumberParser): (Result<DesignValue, Fault>, seq<Warning>)
  {
    match PartdecalCut(contents)
    case Failure(f) => (Failure(f), [])
    case Success(cut) => ConvertCut(cut, cfg, num)
  }

  /** What `Parse` does once the header and the PARTDECAL section are cut. */
  function ConvertCut(cut: Cut, cfg: Config, num: NumberParser): (Result<DesignValue, Fault>, seq<Warning>)
  {
    var decal := DecalOfCut(cut, cfg, num);
    var design := DesignOf(cut.units, decal.0, cfg);
    (Success(design.0), decal.1 + design.1)
  }

  /** A parsed design is entirely in the units of the file header. */
  lemma ParsedInHeaderUnits(contents: string, cfg: Config, num: NumberParser)
    requires ParseSpec(contents, cfg, num).0.Success?
    ensures HeaderOf(contents).Success?
    ensures var u := HeaderOf(contents).value.units;
      InCoordinateUnits(ParseSpec(contents, cfg, num).0.value, u) && InUnits(ParseSpec(contents, cfg, num).0.value, u)
  {
    var cut := PartdecalCut(contents).value;
    DesignInHeaderUnits(cut.units, DecalOfCut(cut, cfg, num).0, cfg);
  }

  /** A PARTDECAL section that cannot be cut out yields an empty design and
      one warning; the parse itself goes on. */
  lemma UncutSectionGivesEmptyDesign(cut: Cut, cfg: Config, num: NumberParser)
    requires cut.section.None?
    ensures ConvertCut(cut, cfg, num) == (Success(DesignValue([], [], [], cut.units)), [SectionUnreadable])
  {
    DesignOfKeepsObjects(cut.units, None, cfg);
    assert DecalOfCut(cut, cfg, num) == (None, [SectionUnreadable]);
    assert Built(cut.units, None, cfg) == (Nothing, EmptyDesign);
    assert DesignOf(cut.units, None, cfg).0 == DesignValue([], [], [], cut.units);
    assert DesignOf(cut.units, None, cfg).1 == [];
    assert [SectionUnreadable] + [] == [SectionUnreadable];
  }

  /** Without a `*PARTDECAL*` marker after the header, parsing fails. */
  lemma ParseNeedsPartdecal(contents: string, cfg: Config, num: NumberParser)
    requires HeaderOf(contents).Success?
    requires var from := SectionsFrom(contents, HeaderOf(contents).value);
      SectionTable(contents, from).Success? &&
      IndexOf(contents, ControlStatements[PartdecalStatement], from) < 0
    ensures ParseSpec(contents, cfg, num) == (Failure(PartdecalMissing), [])
  {
    PartdecalMissingFails(contents);
  }

  // ---------------------------------------------------------------------
  // The conversion, in place

  lemma PolylineLinesSnoc(xy: seq<Point>, n: nat, u: PcbUnits, width: real, t: PcbLineType)
    requires n + 1 < |xy|
    ensures PolylineLines(xy, n + 1, u, width, t) ==
      PolylineLines(xy, n, u, width, t) + [SilkLineValue(xy[n], xy[n + 1], u, u, width, t)]
  {
  }

  /** `PolylineHelper(coordinateUnits, item)`: a fresh graphics object with
      one silk line per pair of consecutive points; `null` where the source
      throws because the piece has no point. */
  method PolylineHelper(u: PcbUnits, p: Piece) returns (g: PcbGraphics?, warnings: seq<Warning>)
    ensures warnings == PolylineOf(p, u).1
    ensures g == null <==> PolylineOf(p, u).0.None?
    ensures g != null ==> fresh(g) && g.Value() == PolylineOf(p, u).0.value
  {
    var (layer, layerWarned) := PolylineLayer(p.layer);
    var (t, typeWarned) := PolylineLineType(p.lineType);
    warnings := [];
    if layerWarned {
      warnings := warnings + [DefaultGraphicsLayer(p.layer)];
    }
    if typeWarned {
      warnings := warnings + [DefaultLineType(p.lineType)];
    }
    if |p.xy| == 0 {
      return null, warnings;
    }
    g := new PcbGraphics(u, u, layer);
    for i := 1 to |p.xy|
      invariant fresh(g)
      invariant g.Value() == GraphicsValue(PolylineLines(p.xy, i - 1, u, p.width, t), u, u, layer)
    {
      PolylineLinesSnoc(p.xy, i - 1, u, p.width, t);
      g.AddLine(SilkLineValue(p.xy[i - 1], p.xy[i], u, u, p.width, t));
    }
  }

  /** `res.Traces.Add(trace)`. */
  method AddTrace(res: PcbDesign, trace: PcbTrace)
    modifies res`traces
    ensures res.traces == old(res.traces) + [trace]
    ensures TraceValues(res.traces) == old(TraceValues(res.traces)) + [trace.Value()]
  {
    TraceValuesSnoc(res.traces, trace);
    res.traces := res.traces + [trace];
  }

  /** `res.Graphics.Add(g)`. */
  method AddGraphics(res: PcbDesign, g: PcbGraphics)
    modifies res`graphics
    ensures res.graphics == old(res.graphics) + [g]
    ensures GraphicsValues(res.graphics) == old(GraphicsValues(res.graphics)) + [g.Value()]
  {
    GraphicsValuesSnoc(res.graphics, g);
    res.graphics := res.graphics + [g];
  }

  /** Once a piece has thrown, the remaining pieces are not processed. */
  lemma {:induction false} PiecesStopAtAbort(ps: seq<Piece>, i: nat, u: PcbUnits)
    requires i <= |ps| && PiecesOf(ps[..i], u).abort.Some?
    ensures PiecesOf(ps, u) == PiecesOf(ps[..i], u)
    decreases |ps| - i
  {
    if i < |ps| {
      assert ps[..i + 1][..i] == ps[..i];
      PiecesStopAtAbort(ps, i + 1, u);
    } else {
      assert ps[..i] == ps;
    }
  }

  /** The `switch` on one piece: a trace for copper, graphics otherwise. */
  method ProcessPiece(res: PcbDesign, u: PcbUnits, p: Piece,
                      ghost gs0: seq<GraphicsValue>, ghost ts0: seq<TraceValue>, ghost e: Emitted)
      returns (warnings: seq<Warning>, abort: Option<AbortCause>)
    modifies res`traces, res`graphics
    requires e.abort.None?
    requires GraphicsValues(res.graphics) == gs0 + e.graphics && TraceValues(res.traces) == ts0 + e.traces
    ensures forall t :: t in res.traces ==> t in old(res.traces) || fresh(t)
    ensures forall g :: g in res.graphics ==> g in old(res.graphics) || fresh(g)
    ensures GraphicsValues(res.graphics) == gs0 + PieceStep(e, p, u).graphics
    ensures TraceValues(res.traces) == ts0 + PieceStep(e, p, u).traces
    ensures e.warnings + warnings == PieceStep(e, p, u).warnings && abort == PieceStep(e, p, u).abort
  {
    warnings, abort := [], None;
    if p.kind == Copper {
      var trace := new PcbTrace(CopperLayer(p.layer), p.width, u, u, p.xy);
      AddTrace(res, trace);
    } else {
      var g;
      g, warnings := PolylineHelper(u, p);
      if g == null {
        abort := Some(EmptyPolyline);
        return;
      }
      AddGraphics(res, g);
    }
  }

  /** `ProcessDecalPieces(res, coordinateUnits, decal)`: appends a trace
      per copper piece and a graphics object per other piece, in order;
      stops where a piece throws, with the objects before it kept. */
  method ProcessDecalPieces(res: PcbDesign, u: PcbUnits, d: Partdecal)
      returns (warnings: seq<Warning>, abort: Option<AbortCause>)
    modifies res`traces, res`graphics
    ensures GraphicsValues(res.graphics) == old(GraphicsValues(res.graphics)) + PiecesOf(d.pieces, u).graphics
    ensures TraceValues(res.traces) == old(TraceValues(res.traces)) + PiecesOf(d.pieces, u).traces
    ensures warnings == PiecesOf(d.pieces, u).warnings && abort == PiecesOf(d.pieces, u).abort
    ensures forall t :: t in res.traces ==> t in old(res.traces) || fresh(t)
    ensures forall g :: g in res.graphics ==> g in old(res.graphics) || fresh(g)
  {
    ghost var gs0, ts0 := GraphicsValues(res.graphics), TraceValues(res.traces);
    warnings, abort := [], None;
    for i := 0 to |d.pieces|
      invariant GraphicsValues(res.graphics) == gs0 + PiecesOf(d.pieces[..i], u).graphics
      invariant TraceValues(res.traces) == ts0 + PiecesOf(d.pieces[..i], u).traces
      invariant warnings == PiecesOf(d.pieces[..i], u).warnings && PiecesOf(d.pieces[..i], u).abort.None? && abort.None?
      invariant forall t :: t in res.traces ==> t in old(res.traces) || fresh(t)
      invariant forall g :: g in res.graphics ==> g in old(res.graphics) || fresh(g)
    {
      ghost var e := PiecesOf(d.pieces[..i], u);
      assert d.pieces[..i + 1][..i] == d.pieces[..i];
      assert PiecesOf(d.pieces[..i + 1], u) == PieceStep(e, d.pieces[i], u);
      var ws;
      ws, abort := ProcessPiece(res, u, d.pieces[i], gs0, ts0, e);
      warnings := warnings + ws;
      if abort.Some? {
        PiecesStopAtAbort(d.pieces, i + 1, u);
        return;
      }
    }
    assert d.pieces[..|d.pieces|] == d.pieces;
  }

  /** Appends one pad for terminal `t`, and its InternalTop twin sharing
      the same style object when the pad is on InternalBottom. */
  method AddPad(res: PcbDesign, t: Terminal, u: PcbUnits, layer: PcbLayer, style: PcbPadStyle)
    modifies res`pads
    requires layer != InternalTop
    ensures var pad := PadValue(t.designator, u, t.x, t.y, layer, style.Value(), None);
      PadValues(res.pads) == old(PadValues(res.pads)) + [pad] + (if layer == InternalBottom then [pad.(layer := InternalTop)] else [])
    ensures forall k :: |old(res.pads)| <= k < |res.pads| ==> res.pads[k].style == style
    ensures |old(res.pads)| <= |res.pads| && res.pads[..|old(res.pads)|] == old(res.pads)
    ensures forall k :: |old(res.pads)| <= k < |res.pads| ==> fresh(res.pads[k])
  {
    var pad := new PcbPad(t.designator, u, t.x, t.y, layer, style, None);
    PadValuesSnoc(res.pads, pad);
    res.pads := res.pads + [pad];
    if layer == InternalBottom {
      var twin := new PcbPad(t.designator, u, t.x, t.y, InternalTop, style, None);
      PadValuesSnoc(res.pads, twin);
      res.pads := res.pads + [twin];
    }
  }

  /** One turn of the `foreach (var line in usefulLines)` loop: the
      line's style, its layer, its pad (and twin). */
  method AddLinePad(res: PcbDesign, line: StackLine, t: Terminal, u: PcbUnits,
                    ghost pre: seq<PadValue>, ghost e: Emitted)
      returns (warnings: seq<Warning>, abort: Option<AbortCause>)
    modifies res`pads
    requires e.abort.None? && PadValues(res.pads) == pre + e.pads
    ensures PadValues(res.pads) == pre + LineStep(e, line, t, u).pads
    ensures e.warnings + warnings == LineStep(e, line, t, u).warnings && abort == LineStep(e, line, t, u).abort
    ensures |old(res.pads)| <= |res.pads| && res.pads[..|old(res.pads)|] == old(res.pads)
    ensures forall k :: |old(res.pads)| <= k < |res.pads| ==> fresh(res.pads[k])
  {
    warnings, abort := [], None;
    var st := PadStyleOf(line, u);
    if st.Failure? {
      abort := Some(st.error);
      return;
    }
    var v := st.value.0;
    var style := new PcbPadStyle(v.shape, v.units, v.dimension1, v.dimension2, v.drill);
    if st.value.1 {
      warnings := warnings + [FingerArgumentsIgnored];
    }
    var (layer, layerWarned) := StackLayer(line.layer);
    if layerWarned {
      warnings := warnings + [PartialLayerRecognition(line.layer)];
    }
    AddPad(res, t, u, layer, style);
  }

  /** The `foreach (var line in usefulLines)` loop, until a style throws. */
  method AddLinePads(res: PcbDesign, useful: seq<StackLine>, t: Terminal, u: PcbUnits,
                     ghost pre: seq<PadValue>, ghost e: Emitted)
      returns (warnings: seq<Warning>, abort: Option<AbortCause>)
    modifies res`pads
    requires e.abort.None? && PadValues(res.pads) == pre + e.pads
    ensures PadValues(res.pads) == pre + LinesPads(useful, t, u, e).pads
    ensures e.warnings + warnings == LinesPads(useful, t, u, e).warnings && abort == LinesPads(useful, t, u, e).abort
    ensures |old(res.pads)| <= |res.pads| && res.pads[..|old(res.pads)|] == old(res.pads)
    ensures forall p :: p in res.pads ==> p in old(res.pads) || fresh(p)
  {
    warnings, abort := [], None;
    for i := 0 to |useful|
      invariant PadValues(res.pads) == pre + LinesPads(useful[..i], t, u, e).pads
      invariant e.warnings + warnings == LinesPads(useful[..i], t, u, e).warnings
      invariant LinesPads(useful[..i], t, u, e).abort.None? && abort.None?
      invariant |old(res.pads)| <= |res.pads| && res.pads[..|old(res.pads)|] == old(res.pads)
      invariant forall p :: p in res.pads ==> p in old(res.pads) || fresh(p)
    {
      var ws;
      ws, abort := AddLineAt(res, useful, i, t, u, pre, e);
      warnings := warnings + ws;
      if abort.Some? {
        LinesStopAtAbort(useful, i + 1, t, u, e);
        return;
      }
    }
    assert useful[..|useful|] == useful;
  }

  /** The turn of that loop for line `i`, given the pads of the lines
      before it. */
  method AddLineAt(res: PcbDesign, useful: seq<StackLine>, i: nat, t: Terminal, u: PcbUnits,
                   ghost pre: seq<PadValue>, ghost e: Emitted)
      returns (warnings: seq<Warning>, abort: Option<AbortCause>)
    modifies res`pads
    requires i < |useful| && LinesPads(useful[..i], t, u, e).abort.None?
    requires PadValues(res.pads) == pre + LinesPads(useful[..i], t, u, e).pads
    ensures PadValues(res.pads) == pre + LinesPads(useful[..i + 1], t, u, e).pads
    ensures LinesPads(useful[..i], t, u, e).warnings + warnings == LinesPads(useful[..i + 1], t, u, e).warnings
    ensures abort == LinesPads(useful[..i + 1], t, u, e).abort
    ensures |old(res.pads)| <= |res.pads| && res.pads[..|old(res.pads)|] == old(res.pads)
    ensures forall p :: p in res.pads ==> p in old(res.pads) || fresh(p)
  {
    ghost var ei := LinesPads(useful[..i], t, u, e);
    assert useful[..i + 1][..i] == useful[..i];
    assert LinesPads(useful[..i + 1], t, u, e) == LineStep(ei, useful[i], t, u);
    warnings, abort := AddLinePad(res, useful[i], t, u, pre, ei);
  }

  /** Once a style has thrown, the remaining lines are not processed. */
  lemma {:induction false} LinesStopAtAbort(ls: seq<StackLine>, i: nat, t: Terminal, u: PcbUnits, e0: Emitted)
    requires i <= |ls| && LinesPads(ls[..i], t, u, e0).abort.Some?
    ensures LinesPads(ls, t, u, e0) == LinesPads(ls[..i], t, u, e0)
    decreases |ls| - i
  {
    if i < |ls| {
      assert ls[..i + 1][..i] == ls[..i];
      LinesStopAtAbort(ls, i + 1, t, u, e0);
    } else {
      assert ls[..i] == ls;
    }
  }

  /** The body of the `foreach` of `ProcessDecalPads` once a stack is bound:
      a drill-only hole, one pad on All, or the pads line by line. */
  method AddStackPads(res: PcbDesign, stack: PadStack, t: Terminal, u: PcbUnits, cfg: Config,
                      ghost pre: seq<PadValue>, ghost e: Emitted)
      returns (warnings: seq<Warning>, abort: Option<AbortCause>)
    modifies res`pads
    requires e.abort.None? && PadValues(res.pads) == pre + e.pads
    ensures PadValues(res.pads) == pre + StackPads(e, stack, t, u, cfg).pads
    ensures e.warnings + warnings == StackPads(e, stack, t, u, cfg).warnings && abort == StackPads(e, stack, t, u, cfg).abort
    ensures forall p :: p in res.pads ==> p in old(res.pads) || fresh(p)
  {
    var drillLine := FirstDrillLine(stack.lines);
    if drillLine.Some? {
      var d := Arg(drillLine.value, DrillSize).value;
      if d >= drillLine.value.size {
        var style := new PcbPadStyle(CircularTH, u, d, 0.0, d);
        AddPad(res, t, u, Drill, style);
        return [], None;
      }
    }
    warnings, abort := AddUsefulPads(res, UsefulLines(stack.lines), t, u, cfg, pre, e);
  }

  /** The stack's useful lines as pads: the all-layer collapse, or the
      pads line by line. */
  method AddUsefulPads(res: PcbDesign, useful: seq<StackLine>, t: Terminal, u: PcbUnits, cfg: Config,
                       ghost pre: seq<PadValue>, ghost e: Emitted)
      returns (warnings: seq<Warning>, abort: Option<AbortCause>)
    modifies res`pads
    requires e.abort.None? && PadValues(res.pads) == pre + e.pads
    ensures PadValues(res.pads) == pre + UsefulPads(e, useful, t, u, cfg).pads
    ensures e.warnings + warnings == UsefulPads(e, useful, t, u, cfg).warnings && abort == UsefulPads(e, useful, t, u, cfg).abort
    ensures forall p :: p in res.pads ==> p in old(res.pads) || fresh(p)
  {
    if |useful| == 3 {
      var pattern := AllLayerPattern(cfg);
      if pattern.None? {
        return [], Some(CustomLayerModelMissing);
      }
      if CoversAllPattern(useful, pattern.value) {
        var m := MaxArgsIndex(useful);
        warnings, abort := AddAllPad(res, useful[m], t, u, pre, e);
        return;
      }
    }
    warnings, abort := AddLinePads(res, useful, t, u, pre, e);
  }

  /** The single pad on All of a three-layer stack, styled by `line`. */
  method AddAllPad(res: PcbDesign, line: StackLine, t: Terminal, u: PcbUnits,
                   ghost pre: seq<PadValue>, ghost e: Emitted)
      returns (warnings: seq<Warning>, abort: Option<AbortCause>)
    modifies res`pads
    requires e.abort.None? && PadValues(res.pads) == pre + e.pads
    ensures PadValues(res.pads) == pre + AllPad(e, line, t, u).pads
    ensures e.warnings + warnings == AllPad(e, line, t, u).warnings && abort == AllPad(e, line, t, u).abort
    ensures forall p :: p in res.pads ==> p in old(res.pads) || fresh(p)
  {
    warnings, abort := [], None;
    var st := PadStyleOf(line, u);
    if st.Failure? {
      abort := Some(st.error);
      return;
    }
    var v := st.value.0;
    var style := new PcbPadStyle(v.shape, v.units, v.dimension1, v.dimension2, v.drill);
    if st.value.1 {
      warnings := warnings + [FingerArgumentsIgnored];
    }
    AddPad(res, t, u, All, style);
  }

  /** One turn of the `foreach` of `ProcessDecalPads`: the stack bound to
      the terminal and its pads, or the warning that none is bound. */
  method AddTerminalPads(res: PcbDesign, d: Partdecal, t: Terminal, u: PcbUnits, cfg: Config,
                         defaultStack: Option<PadStack>, ghost pre: seq<PadValue>, ghost e: Emitted)
      returns (warnings: seq<Warning>, abort: Option<AbortCause>)
    modifies res`pads
    requires defaultStack == DefaultStack(d.stacks)
    requires e.abort.None? && PadValues(res.pads) == pre + e.pads
    ensures PadValues(res.pads) == pre + TerminalStep(e, d, t, u, cfg).pads
    ensures e.warnings + warnings == TerminalStep(e, d, t, u, cfg).warnings && abort == TerminalStep(e, d, t, u, cfg).abort
    ensures forall p :: p in res.pads ==> p in old(res.pads) || fresh(p)
  {
    var stack := SuitableStack(d.stacks, t, defaultStack, cfg.prioritizePadstackBindingByIndex);
    if stack.None? {
      return [NoPadstack(t.designator)], None;
    }
    warnings, abort := AddStackPads(res, stack.value, t, u, cfg, pre, e);
  }

  /** `ProcessDecalPads(res, coordinateUnits, decal)`: for each terminal in
      order, the pads of the stack bound to it, or a warning when none is;
      stops where a pad style throws, with the pads before it kept. */
  method ProcessDecalPads(res: PcbDesign, u: PcbUnits, d: Partdecal, cfg: Config)
      returns (warnings: seq<Warning>, abort: Option<AbortCause>)
    modifies res`pads
    ensures PadValues(res.pads) == old(PadValues(res.pads)) + TerminalsPads(d.terminals, d, u, cfg).pads
    ensures warnings == TerminalsPads(d.terminals, d, u, cfg).warnings && abort == TerminalsPads(d.terminals, d, u, cfg).abort
    ensures forall p :: p in res.pads ==> p in old(res.pads) || fresh(p)
  {
    ghost var pre := PadValues(res.pads);
    var defaultStack := DefaultStack(d.stacks);
    warnings, abort := [], None;
    for i := 0 to |d.terminals|
      invariant PadValues(res.pads) == pre + TerminalsPads(d.terminals[..i], d, u, cfg).pads
      invariant warnings == TerminalsPads(d.terminals[..i], d, u, cfg).warnings
      invariant TerminalsPads(d.terminals[..i], d, u, cfg).abort.None? && abort.None?
      invariant forall p :: p in res.pads ==> p in old(res.pads) || fresh(p)
    {
      assert d.terminals[..i + 1][..i] == d.terminals[..i];
      ghost var e := TerminalsPads(d.terminals[..i], d, u, cfg);
      assert TerminalsPads(d.terminals[..i + 1], d, u, cfg) == TerminalStep(e, d, d.terminals[i], u, cfg);
      var ws;
      ws, abort := AddTerminalPads(res, d, d.terminals[i], u, cfg, defaultStack, pre, e);
      warnings := warnings + ws;
      if abort.Some? {
        TerminalsStopAtAbort(d.terminals, i + 1, d, u, cfg);
        return;
      }
    }
    assert d.terminals[..|d.terminals|] == d.terminals;
  }

  /** `PADSToPcbDesign(coordinateUnits, decal)`: a fresh design holding the
      decal's objects, retagged to the header units; an exception from the
      pieces or pads is reported and the conversion goes on. */
  method PADSToPcbDesign(u: PcbUnits, decal: Option<Partdecal>, cfg: Config) returns (res: PcbDesign, warnings: seq<Warning>)
    ensures fresh(res)
    ensures (res.Value(), warnings) == DesignOf(u, decal, cfg)
  {
    ghost var b := Built(u, decal, cfg);
    res := new PcbDesign();
    warnings := [];
    if decal.Some? {
      warnings := ConvertDecal(res, u, decal.value, cfg);
    }
    assert res.Value() == b.1 && warnings == Reported(b.0);
    BuiltSyncable(u, decal, cfg);
    var ok := res.SynchronizeCoordinateUnits(u);
  }


  /** The `try` block of `PADSToPcbDesign`: the pieces, then the pads
      unless the pieces threw; an exception ends the block and is reported
      after the warnings before it. */
  method ConvertDecal(res: PcbDesign, u: PcbUnits, d: Partdecal, cfg: Config) returns (warnings: seq<Warning>)
    modifies res`pads, res`traces, res`graphics
    requires res.pads == [] && res.traces == [] && res.graphics == []
    ensures GraphicsValues(res.graphics) == DecalEmission(d, u, cfg).graphics
    ensures TraceValues(res.traces) == DecalEmission(d, u, cfg).traces
    ensures PadValues(res.pads) == DecalEmission(d, u, cfg).pads
    ensures warnings == Reported(DecalEmission(d, u, cfg))
    ensures fresh(res.pads) && fresh(res.traces) && fresh(res.graphics)
  {
    var abort;
    warnings, abort := ProcessDecalPieces(res, u, d);
    PiecesCounts(d.pieces, u);
    if abort.None? {
      var ws;
      ws, abort := ProcessDecalPads(res, u, d, cfg);
      warnings := warnings + ws;
    }
    if abort.Some? {
      warnings := warnings + [DecalAborted(abort.value)];
    }
    assert forall k :: 0 <= k < |res.pads| ==> res.pads[k] in res.pads;
    assert forall k :: 0 <= k < |res.traces| ==> res.traces[k] in res.traces;
    assert forall k :: 0 <= k < |res.graphics| ==> res.graphics[k] in res.graphics;
  }



  /** `PADS.Parse(contents)`: the header units, the section table, the
      PARTDECAL section cut out and parsed, then the conversion. */
  method Parse(contents: string, cfg: Config, num: NumberParser) returns (r: Result<PcbDesign, Fault>, warnings: seq<Warning>)
    ensures r.Success? <==> ParseSpec(contents, cfg, num).0.Success?
    ensures r.Failure? ==> r.error == ParseSpec(contents, cfg, num).0.error
    ensures r.Success? ==> fresh(r.value) && r.value.Value() == ParseSpec(contents, cfg, num).0.value
    ensures warnings == ParseSpec(contents, cfg, num).1
  {
    var header := HeaderOf(contents);
    if header.Failure? {
      return Failure(header.error), [];
    }
    var h := header.value;
    var from := SectionsFrom(contents, h);
    var table := IndexSections(contents, from);
    if table.Failure? {
      return Failure(table.error), [];
    }
    var partdecal := table.value[PartdecalStatement];
    if partdecal.None? {
      return Failure(PartdecalMissing), [];
    }
    var start := partdecal.value;
    var end := FindSectionEnd(table.value, start);
    var decal: Option<Partdecal> := None;
    warnings := [];
    if start <= end <= |contents| {
      var outcome;
      outcome, warnings := ParseDecal(contents[start..end], cfg, num);
      match outcome
      case NoSection =>
      case Unreadable =>
        warnings := warnings + [SectionUnreadable];
      case Decoded(d) =>
        decal := Some(d);
    } else {
      warnings := [SectionUnreadable];
    }
    ghost var cut := PartdecalCut(contents).value;
    assert (decal, warnings) == DecalOfCut(cut, cfg, num);
    var design, ws := PADSToPcbDesign(h.units, decal, cfg);
    r := Success(design);
    warnings := warnings + ws;
  }
}
