/** The constant tables of PADS.cs and the static settings that steer the
    decoder.  The C# dictionaries are looked up both ways: by key with the
    indexer, and by value with `First(x => x.Value == s)`, which throws when
    no entry matches; here both are partial functions, `None` standing for
    the exception. */
module PadsTables {
  import opened Outcomes
  import opened Units
  import opened PcbValues

  /** The process-wide switches of the `PADS` class, passed explicitly. */
  datatype Config = Config(
    pieceHeaderCompatibilityMode: bool,
    fourLayerModel: bool,
    layerModelOverrideForAll: bool,
    largeCustomLayerModel: Option<seq<int>>,   // None is the null array
    prioritizePadstackBindingByIndex: bool)

  /** The defaults the source initializes the switches with. */
  const DefaultConfig := Config(false, true, false, None, false)

  /** `ControlStatements`, indexed by `ControlStatement`. */
  const ControlStatements: seq<string> := [
    "*CLUSTER*", "*CONN*", "*END*", "*GET*", "*JUMPER*", "*LINES*", "*MISC*",
    "*NET*", "*PART*", "*PARTDECAL*", "*PARTTYPE*", "*PCB*", "*POUR*", "*REMARK*",
    "*REUSE*", "*ROUTE*", "*SIGNAL*", "*STANDARD*", "*TESTPOINT*", "*TEXT*", "*VIA*"]

  /** `ControlStatement.PARTDECAL`. */
  const PartdecalStatement: nat := 9

  const FileHeaderDesignator: char := '!'
  const FileHeaderSeparator: char := '-'
  const LineSeparator: char := '\n'
  const CaretReset: char := '\r'

  /** `int.MaxValue`. */
  const IntMax: int := 0x7FFF_FFFF

  // ---------------------------------------------------------------------
  // Units

  /** `HeaderUnits`: the unit word of the file header. */
  function HeaderUnitsName(u: PcbUnits): Option<string>
  {
    match u
    case Thou => Some("MILS")
    case Millimeter => Some("METRIC")
    case TwoThirdsOfNanometer => Some("BASIC")
    case Inch => Some("INCHES")
    case _ => None
  }

  /** `HeaderUnits.First(x => x.Value == name).Key`; `None` where it throws. */
  function HeaderUnitsOf(name: string): (r: Option<PcbUnits>)
    ensures r.Some? ==> Convertible(r.value) && r.value != TenNanometers
  {
    if name == "MILS" then Some(Thou)
    else if name == "METRIC" then Some(Millimeter)
    else if name == "BASIC" then Some(TwoThirdsOfNanometer)
    else if name == "INCHES" then Some(Inch)
    else None
  }

  /** The reverse lookup finds exactly the entries of the table. */
  lemma HeaderUnitsInverse(u: PcbUnits, name: string)
    ensures HeaderUnitsOf(name) == Some(u) <==> HeaderUnitsName(u) == Some(name)
  {
  }

  /** `Partdecal.PartdecalUnits`. */
  function PartdecalUnitsName(u: PcbUnits): Option<string>
  {
    match u
    case Thou => Some("I")
    case Millimeter => Some("M")
    case _ => None
  }

  function PartdecalUnitsOf(name: string): (r: Option<PcbUnits>)
  {
    if name == "I" then Some(Thou)
    else if name == "M" then Some(Millimeter)
    else None
  }

  lemma PartdecalUnitsInverse(u: PcbUnits, name: string)
    ensures PartdecalUnitsOf(name) == Some(u) <==> PartdecalUnitsName(u) == Some(name)
  {
  }

  // ---------------------------------------------------------------------
  // Pieces

  datatype PieceType = Open | Closed | Copper

  /** `Piece.TypeString`. */
  function PieceTypeName(t: PieceType): string
  {
    match t
    case Closed => "CLOSED"
    case Open => "OPEN"
    case Copper => "COPPER"
  }

  /** The order in which `TypeString` is enumerated: the insertion order. */
  const PieceScanOrder: seq<PieceType> := [Closed, Open, Copper]

  function PieceTypeOf(name: string): Option<PieceType>
  {
    if name == "CLOSED" then Some(Closed)
    else if name == "OPEN" then Some(Open)
    else if name == "COPPER" then Some(Copper)
    else None
  }

  lemma PieceTypeInverse(t: PieceType, name: string)
    ensures PieceTypeOf(name) == Some(t) <==> PieceTypeName(t) == name
  {
  }

  /** `Piece.LayerAllNumber`. */
  const LayerAllNumber: int := 0

  /** `Piece.GraphicsLayerMapping`. */
  function GraphicsLayerOf(code: int): Option<PcbGraphicsLayer>
  {
    if code == 27 then Some(BottomSilk)
    else if code == 26 then Some(TopSilk)
    else if code == 20 then Some(Other)
    else None
  }

  /** `Piece.LineTypeMapping`, keyed by the code of `Piece.LineType`
      (Solid 0, Dashed 1, Dotted 2, DashDotted 3, DashDoubleDotted 4). */
  function LineTypeOf(code: int): Option<PcbLineType>
  {
    if code == 0 then Some(Solid)
    else if code == 1 then Some(Dashed)
    else if code == 2 then Some(Dotted)
    else None
  }

  /** The graphics layer and line type `PolylineHelper` settles on, and
      whether each fell back to its default. */
  function PolylineLayer(code: int): (r: (PcbGraphicsLayer, bool))
    ensures r.1 <==> code !in {20, 26, 27}
    ensures r.0 == (if code == 27 then BottomSilk else if code == 20 then Other else TopSilk)
  {
    match GraphicsLayerOf(code)
    case Some(l) => (l, false)
    case None => (TopSilk, true)
  }

  function PolylineLineType(code: int): (r: (PcbLineType, bool))
    ensures r.1 <==> !(0 <= code <= 2)
    ensures r.0 == (if code == 1 then Dashed else if code == 2 then Dotted else Solid)
  {
    match LineTypeOf(code)
    case Some(t) => (t, false)
    case None => (Solid, true)
  }

  /** The layer of a COPPER piece's trace: code 0 is `All`, anything else
      the enum cast. */
  function CopperLayer(code: int): (l: PcbLayer)
    ensures Canonical(l) && LayerCode(l) == code
  {
    if code == LayerAllNumber then All else LayerOfCode(code)
  }

  // ---------------------------------------------------------------------
  // Padstacks

  datatype PadShape = Round | Square | Annular | Odd | OvalFinger | RectangularFinger

  /** `PadStack.ShapeString`. */
  function ShapeName(s: PadShape): string
  {
    match s
    case Annular => "A"
    case Odd => "O"
    case OvalFinger => "OF"
    case RectangularFinger => "RF"
    case Round => "R"
    case Square => "S"
  }

  function ShapeOf(name: string): (r: Option<PadShape>)
  {
    if name == "A" then Some(Annular)
    else if name == "O" then Some(Odd)
    else if name == "OF" then Some(OvalFinger)
    else if name == "RF" then Some(RectangularFinger)
    else if name == "R" then Some(Round)
    else if name == "S" then Some(Square)
    else None
  }

  lemma ShapeInverse(s: PadShape, name: string)
    ensures ShapeOf(name) == Some(s) <==> ShapeName(s) == name
  {
  }

  /** `StackLine.DependentArguments`, in array order. */
  datatype ArgumentKind = InternalDiameter | FingerRotation | FingerLength | FingerOffset | CornerRadius | DrillSize

  const ArgumentKinds: seq<ArgumentKind> :=
    [InternalDiameter, FingerRotation, FingerLength, FingerOffset, CornerRadius, DrillSize]

  /** The position of a kind in the `Arguments` array. */
  function ArgumentSlot(a: ArgumentKind): (k: nat)
    ensures k < |ArgumentKinds| && ArgumentKinds[k] == a
  {
    match a
    case InternalDiameter => 0
    case FingerRotation => 1
    case FingerLength => 2
    case FingerOffset => 3
    case CornerRadius => 4
    case DrillSize => 5
  }

  /** The `Indexes` dictionary of each dependent argument: which token of a
      stackline holds it, for the shapes that have it at all. */
  function ArgumentIndex(a: ArgumentKind, s: PadShape): Option<nat>
  {
    match a
    case InternalDiameter => if s == Annular then Some(3) else None
    case FingerRotation => if s == OvalFinger || s == RectangularFinger then Some(3) else None
    case FingerLength => if s == OvalFinger || s == RectangularFinger then Some(4) else None
    case FingerOffset => if s == OvalFinger || s == RectangularFinger then Some(5) else None
    case CornerRadius =>
      if s == Square then Some(3) else if s == RectangularFinger then Some(6) else None
    case DrillSize =>
      if s == Round then Some(3) else if s == Annular || s == Square then Some(4)
      else if s == RectangularFinger then Some(7) else None
  }

  /** Only the finger shapes carry rotation, length and offset; every
      argument a shape has sits after the three common tokens. */
  lemma ArgumentIndexFacts(a: ArgumentKind, s: PadShape)
    ensures ArgumentIndex(a, s).Some? ==> ArgumentIndex(a, s).value >= 3
    ensures a in {FingerRotation, FingerLength, FingerOffset} ==>
      (ArgumentIndex(a, s).Some? <==> s in {OvalFinger, RectangularFinger})
    ensures s == Odd ==> ArgumentIndex(a, s).None?
  {
  }

  /** `PadStack.AllTerminalsDesignator`. */
  const AllTerminalsDesignator: string := "0"
  /** `PadStack.PadstackPrefix`. */
  const PadstackPrefix: string := "PAD "
  /** `Terminal.TerminalPrefix`. */
  const TerminalPrefix: string := "\nT"

  /** `PadStack.AllLayerPattern`; `None` is the null array the getter hands
      back when the custom model is selected but not provided. */
  function AllLayerPattern(cfg: Config): (r: Option<seq<int>>)
    ensures cfg.fourLayerModel || cfg.layerModelOverrideForAll ==> r == Some([-2, -1, 0])
    ensures !(cfg.fourLayerModel || cfg.layerModelOverrideForAll) ==> r == cfg.largeCustomLayerModel
  {
    if cfg.fourLayerModel || cfg.layerModelOverrideForAll then Some([-2, -1, 0])
    else cfg.largeCustomLayerModel
  }

  /** `DeterminePcbLayer`: the special layers -2, -1 and 0 are Top,
      InternalBottom and Bottom; any other code k is cast from 5 + k (the
      six members of `PcbLayer`, minus one) and reported. */
  function StackLayer(code: int): (r: (PcbLayer, bool))
    ensures r.1 <==> code !in {-2, -1, 0}
    ensures code == -2 ==> r.0 == Top
    ensures code == -1 ==> r.0 == InternalBottom
    ensures code == 0 ==> r.0 == Bottom
    ensures r.1 ==> LayerCode(r.0) == 5 + code && Canonical(r.0)
  {
    if code == -2 then (Top, false)
    else if code == -1 then (InternalBottom, false)
    else if code == 0 then (Bottom, false)
    else (LayerOfCode(6 + code - 1), true)
  }

  /** The fall-through cast can land on a named layer too: code -3 gives
      InternalBottom, so such a stackline also gets an InternalTop twin. */
  lemma StackLayerMinusThree()
    ensures StackLayer(-3) == (InternalBottom, true)
  {
  }
}
