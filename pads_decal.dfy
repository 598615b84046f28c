/** The PARTDECAL section of a PADS ASCII file and its parts, as PADS.cs
    reads them: `Partdecal`, `Piece`, `Terminal`, `PadStack`, `StackLine`
    and the dependent arguments of a stackline.  Every `XxxOf` function
    states what the matching `Parse` method yields; `None` stands for an
    exception of that parse.  Text is read the way `StringReader.ReadLine`
    and `Split(' ')` cut it (see module Text); numbers through the
    `NumberParser`. */
module PadsDecal {
  import opened Outcomes
  import opened Text
  import opened Units
  import opened PcbValues
  import opened PadsTables
  import opened Diagnostics

  /** `int.Parse` and `double.Parse(…, InvariantCulture)`, which this model
      does not open up: each either yields a number or throws (`None`). */
  datatype NumberParser = NumberParser(parseInt: string -> Option<int>, parseDouble: string -> Option<real>)

  datatype Piece = Piece(kind: PieceType, width: real, layer: int, lineType: int, pinCount: int, xy: seq<Point>)

  /** `index` is `InternalIndex`, the 1-based turn of the terminal loop. */
  datatype Terminal = Terminal(x: real, y: real, numberX: real, numberY: real, designator: string, index: nat)

  /** A `DependentArgument`: `Present` with its value, or not present. */
  datatype Argument = Absent | Present(value: real)

  /** `arguments` is the `Arguments` array, indexed by `ArgumentSlot`. */
  datatype StackLine = StackLine(layer: int, size: real, shape: PadShape, arguments: seq<Argument>)

  datatype PadStack = PadStack(designator: string, lines: seq<StackLine>)

  datatype Partdecal = Partdecal(name: string, units: PcbUnits, pieces: seq<Piece>,
                                 terminals: seq<Terminal>, stacks: seq<PadStack>)

  // ---------------------------------------------------------------------
  // Tokens and lines

  /** `split[k]`; `None` is the IndexOutOfRangeException. */
  function Token(ts: seq<string>, k: nat): (r: Option<string>)
    ensures r.Some? <==> k < |ts|
    ensures r.Some? ==> r.value == ts[k]
  {
    if k < |ts| then Some(ts[k]) else None
  }

  function IntAt(ts: seq<string>, k: nat, num: NumberParser): Option<int>
  {
    match Token(ts, k)
    case None => None
    case Some(t) => num.parseInt(t)
  }

  function RealAt(ts: seq<string>, k: nat, num: NumberParser): Option<real>
  {
    match Token(ts, k)
    case None => None
    case Some(t) => num.parseDouble(t)
  }

  /** The (k+1)-th `ReadLine`; `None` is the null it returns past the end. */
  function ReadLine(lines: seq<string>, k: nat): (r: Option<string>)
    ensures r.Some? <==> k < |lines|
  {
    if k < |lines| then Some(lines[k]) else None
  }

  /** The space-separated tokens of a line that must be there. */
  function Tokens(line: Option<string>): Option<seq<string>>
  {
    match line
    case None => None
    case Some(l) => Some(Split(l, ' '))
  }

  // ---------------------------------------------------------------------
  // Piece.Parse

  datatype PieceHeader = PieceHeader(count: nat, kind: PieceType, layer: int, pinCount: int,
                                     width: real, lineType: int)

  /** The header line of a piece.  In compatibility mode the fields are laid
      out as in a LINES piece (type, count, width, line type, layer);
      otherwise as in a PARTDECAL piece (type, count, width, layer, pin
      count), with the line type left Solid.  A negative count throws when
      it becomes the capacity of the point list. */
  function PieceHeaderOf(ts: seq<string>, compat: bool, num: NumberParser): (r: Option<PieceHeader>)
    ensures r.Some? <==>
      |ts| > 0 && PieceTypeOf(ts[0]).Some? && IntAt(ts, 1, num).Some? && IntAt(ts, 1, num).value >= 0 &&
      RealAt(ts, 2, num).Some? && IntAt(ts, 3, num).Some? && IntAt(ts, 4, num).Some?
    ensures r.Some? ==> Token(ts, 0).Some? && PieceTypeOf(ts[0]) == Some(r.value.kind)
    ensures r.Some? ==> IntAt(ts, 1, num) == Some(r.value.count as int)
    ensures r.Some? ==> RealAt(ts, 2, num) == Some(r.value.width)
    ensures r.Some? && compat ==> IntAt(ts, 4, num) == Some(r.value.layer) && IntAt(ts, 3, num) == Some(r.value.lineType)
    ensures r.Some? && !compat ==> IntAt(ts, 3, num) == Some(r.value.layer) && IntAt(ts, 4, num) == Some(r.value.pinCount)
    ensures r.Some? && !compat ==> r.value.lineType == 0
    ensures r.Some? && compat ==> r.value.pinCount == 0
  {
    var count := IntAt(ts, 1, num);
    var kind := if |ts| > 0 then PieceTypeOf(ts[0]) else None;
    var width := RealAt(ts, 2, num);
    if count.None? || count.value < 0 || kind.None? || width.None? then None
    else if compat then
      var layer := IntAt(ts, 4, num);
      var lineType := IntAt(ts, 3, num);
      if layer.None? || lineType.None? then None
      else Some(PieceHeader(count.value, kind.value, layer.value, 0, width.value, lineType.value))
    else
      var layer := IntAt(ts, 3, num);
      var pinCount := IntAt(ts, 4, num);
      if layer.None? || pinCount.None? then None
      else Some(PieceHeader(count.value, kind.value, layer.value, pinCount.value, width.value, 0))
  }

  /** One coordinate line: X and Y are its first two tokens. */
  function PointOf(line: Option<string>, num: NumberParser): (r: Option<Point>)
    ensures r.Some? <==> line.Some? && RealAt(Split(line.value, ' '), 0, num).Some? && RealAt(Split(line.value, ' '), 1, num).Some?
    ensures r.Some? ==> Some(r.value.x) == RealAt(Split(line.value, ' '), 0, num) && Some(r.value.y) == RealAt(Split(line.value, ' '), 1, num)
  {
    match Tokens(line)
    case None => None
    case Some(ts) =>
      var x := RealAt(ts, 0, num);
      var y := RealAt(ts, 1, num);
      if x.None? || y.None? then None else Some(Point(x.value, y.value))
  }

  /** The i-th point of a piece, read from the line after the header. */
  function PointLine(lines: seq<string>, i: nat, num: NumberParser): Option<Point>
  {
    PointOf(ReadLine(lines, i + 1), num)
  }

  /** `Piece.Parse(definition, typeof(PartdecalHeader))`. */
  function PieceOf(def: string, compat: bool, num: NumberParser): (r: Option<Piece>)
    ensures r.Some? <==>
      |Lines(def)| > 0 &&
      var h := PieceHeaderOf(Split(Lines(def)[0], ' '), compat, num);
      h.Some? && forall i :: 0 <= i < h.value.count ==> PointLine(Lines(def), i, num).Some?
    ensures r.Some? ==> |Lines(def)| > 0
    ensures r.Some? ==> PieceHeaderOf(Split(Lines(def)[0], ' '), compat, num).Some?
    ensures r.Some? ==>
      var h := PieceHeaderOf(Split(Lines(def)[0], ' '), compat, num).value;
      r.value.kind == h.kind && r.value.width == h.width && r.value.layer == h.layer &&
      r.value.lineType == h.lineType && r.value.pinCount == h.pinCount && |r.value.xy| == h.count &&
      forall i :: 0 <= i < h.count ==> PointLine(Lines(def), i, num) == Some(r.value.xy[i])
  {
    var lines := Lines(def);
    match Tokens(ReadLine(lines, 0))
    case None => None
    case Some(ts) =>
      match PieceHeaderOf(ts, compat, num)
      case None => None
      case Some(h) =>
        if forall i :: 0 <= i < h.count ==> PointLine(lines, i, num).Some?
        then Some(Piece(h.kind, h.width, h.layer, h.lineType, h.pinCount,
                        seq(h.count, i requires 0 <= i < h.count => PointLine(lines, i, num).value)))
        else None
  }

  /** `Piece.Parse`: the header, then one point per declared coordinate line. */
  method ParsePiece(def: string, compat: bool, num: NumberParser) returns (r: Option<Piece>)
    ensures r == PieceOf(def, compat, num)
  {
    var lines := Lines(def);
    var ts := Tokens(ReadLine(lines, 0));
    if ts.None? {
      return None;
    }
    var h := PieceHeaderOf(ts.value, compat, num);
    if h.None? {
      return None;
    }
    var c := h.value.count;
    var xy: seq<Point> := [];
    for i := 0 to c
      invariant |xy| == i
      invariant forall k :: 0 <= k < i ==> PointLine(lines, k, num) == Some(xy[k])
    {
      var p := PointLine(lines, i, num);
      if p.None? {
        assert !(forall k :: 0 <= k < c ==> PointLine(lines, k, num).Some?);
        return None;
      }
      xy := xy + [p.value];
    }
    assert forall i :: 0 <= i < c ==> PointLine(lines, i, num).Some?;
    assert xy == seq(h.value.count, i requires 0 <= i < h.value.count => PointLine(lines, i, num).value);
    r := Some(Piece(h.value.kind, h.value.width, h.value.layer, h.value.lineType, h.value.pinCount, xy));
  }

  // ---------------------------------------------------------------------
  // Terminal.Parse

  /** `Terminal.Parse(definition, index)`: drop the "\nT" prefix, then X, Y,
      the number's X and Y and the designator are the first five tokens of
      the first line. */
  function TerminalOf(def: string, index: nat, num: NumberParser): (r: Option<Terminal>)
    ensures r.Some? <==>
      |def| >= |TerminalPrefix| && |Lines(def[|TerminalPrefix|..])| > 0 &&
      var ts := Split(Lines(def[|TerminalPrefix|..])[0], ' ');
      |ts| >= 5 && forall k :: 0 <= k < 4 ==> RealAt(ts, k, num).Some?
    ensures r.Some? ==> r.value.index == index
    ensures r.Some? ==> |def| >= |TerminalPrefix| && |Lines(def[|TerminalPrefix|..])| > 0
    ensures r.Some? ==>
      var ts := Split(Lines(def[|TerminalPrefix|..])[0], ' ');
      |ts| >= 5 && r.value.designator == ts[4] &&
      RealAt(ts, 0, num) == Some(r.value.x) && RealAt(ts, 1, num) == Some(r.value.y) &&
      RealAt(ts, 2, num) == Some(r.value.numberX) && RealAt(ts, 3, num) == Some(r.value.numberY)
  {
    if |def| < |TerminalPrefix| then None
    else
      match Tokens(ReadLine(Lines(def[|TerminalPrefix|..]), 0))
      case None => None
      case Some(ts) =>
        var x := RealAt(ts, 0, num);
        var y := RealAt(ts, 1, num);
        var nx := RealAt(ts, 2, num);
        var ny := RealAt(ts, 3, num);
        var d := Token(ts, 4);
        if x.None? || y.None? || nx.None? || ny.None? || d.None? then None
        else Some(Terminal(x.value, y.value, nx.value, ny.value, d.value, index))
  }

  // ---------------------------------------------------------------------
  // StackLine.Parse and DependentArgument.Parse

  /** `DependentArgument.Parse(shape, line)`: the argument is read from the
      token its table assigns to `shape`.  A shape missing from the table
      (KeyNotFoundException) or a line too short (IndexOutOfRangeException)
      leaves it absent; a token that is not a number throws on (`None`). */
  function ArgumentOf(a: ArgumentKind, shape: PadShape, line: string, num: NumberParser): (r: Option<Argument>)
    ensures r == Some(Absent) <==>
      ArgumentIndex(a, shape).None? || ArgumentIndex(a, shape).value >= |Split(line, ' ')|
    ensures (r.Some? && r.value.Present?) <==>
      ArgumentIndex(a, shape).Some? && ArgumentIndex(a, shape).value < |Split(line, ' ')| &&
      num.parseDouble(Split(line, ' ')[ArgumentIndex(a, shape).value]).Some?
    ensures r.Some? && r.value.Present? ==>
      Some(r.value.value) == num.parseDouble(Split(line, ' ')[ArgumentIndex(a, shape).value])
  {
    match ArgumentIndex(a, shape)
    case None => Some(Absent)
    case Some(k) =>
      var ts := Split(line, ' ');
      if k >= |ts| then Some(Absent)
      else
        match num.parseDouble(ts[k])
        case None => None
        case Some(v) => Some(Present(v))
  }

  /** The argument in slot `k` of a stackline. */
  function ArgumentAt(k: nat, shape: PadShape, line: string, num: NumberParser): Option<Argument>
    requires k < |ArgumentKinds|
  {
    ArgumentOf(ArgumentKinds[k], shape, line, num)
  }

  /** `StackLine.Parse(line)`: layer, size and shape are the first three
      tokens, then every dependent argument is parsed.  A null line throws. */
  function StackLineOf(line: Option<string>, num: NumberParser): (r: Option<StackLine>)
    ensures r.Some? <==>
      line.Some? &&
      var ts := Split(line.value, ' ');
      IntAt(ts, 0, num).Some? && RealAt(ts, 1, num).Some? && |ts| > 2 && ShapeOf(ts[2]).Some? &&
      forall a :: ArgumentOf(a, ShapeOf(ts[2]).value, line.value, num).Some?
    ensures r.Some? ==> line.Some? && |r.value.arguments| == |ArgumentKinds|
    ensures r.Some? ==>
      var ts := Split(line.value, ' ');
      IntAt(ts, 0, num) == Some(r.value.layer) && RealAt(ts, 1, num) == Some(r.value.size) &&
      |ts| > 2 && ShapeOf(ts[2]) == Some(r.value.shape)
    ensures r.Some? ==> forall a :: Some(r.value.arguments[ArgumentSlot(a)]) == ArgumentOf(a, r.value.shape, line.value, num)
  {
    match line
    case None => None
    case Some(l) =>
      var ts := Split(l, ' ');
      var layer := IntAt(ts, 0, num);
      var size := RealAt(ts, 1, num);
      var shape := if |ts| > 2 then ShapeOf(ts[2]) else None;
      if layer.None? || size.None? || shape.None? then None
      else if forall k :: 0 <= k < |ArgumentKinds| ==> ArgumentAt(k, shape.value, l, num).Some?
      then
        var args := seq(|ArgumentKinds|, k requires 0 <= k < |ArgumentKinds| => ArgumentAt(k, shape.value, l, num).value);
        assert forall a :: ArgumentAt(ArgumentSlot(a), shape.value, l, num) == ArgumentOf(a, shape.value, l, num);
        Some(StackLine(layer.value, size.value, shape.value, args))
      else None
  }

  /** `StackLine.Parse`: the common part, then each element of the
      `Arguments` array parses itself in place. */
  method ParseStackLine(line: Option<string>, num: NumberParser) returns (r: Option<StackLine>)
    ensures r == StackLineOf(line, num)
  {
    if line.None? {
      return None;
    }
    var l := line.value;
    var ts := Split(l, ' ');
    var layer := IntAt(ts, 0, num);
    var size := RealAt(ts, 1, num);
    var shape := if |ts| > 2 then ShapeOf(ts[2]) else None;
    if layer.None? || size.None? || shape.None? {
      return None;
    }
    var arguments := new Argument[|ArgumentKinds|](_ => Absent);
    for i := 0 to arguments.Length
      invariant forall k :: 0 <= k < i ==> ArgumentAt(k, shape.value, l, num) == Some(arguments[k])
    {
      var a := ArgumentAt(i, shape.value, l, num);
      if a.None? {
        return None;
      }
      arguments[i] := a.value;
    }
    assert arguments[..] == seq(|ArgumentKinds|, k requires 0 <= k < |ArgumentKinds| => ArgumentAt(k, shape.value, l, num).value);
    r := Some(StackLine(layer.value, size.value, shape.value, arguments[..]));
  }

  // ---------------------------------------------------------------------
  // PadStack.Parse

  /** The i-th stackline of a padstack, read from the line after the header. */
  function StackLineAt(lines: seq<string>, i: nat, num: NumberParser): Option<StackLine>
  {
    StackLineOf(ReadLine(lines, i + 1), num)
  }

  /** `PadStack.Parse(definition)`: the designator and the stackline count
      are the second and third tokens of "PAD <designator> <count> …"; a
      negative count throws when added to the list capacity. */
  function PadStackOf(def: string, num: NumberParser): (r: Option<PadStack>)
    ensures r.Some? <==>
      |Lines(def)| > 0 &&
      var ts := Split(Lines(def)[0], ' ');
      |ts| > 1 && IntAt(ts, 2, num).Some? && IntAt(ts, 2, num).value >= 0 &&
      forall i :: 0 <= i < IntAt(ts, 2, num).value ==> StackLineAt(Lines(def), i, num).Some?
    ensures r.Some? ==> |Lines(def)| > 0
    ensures r.Some? ==>
      var ts := Split(Lines(def)[0], ' ');
      |ts| > 1 && r.value.designator == ts[1] && IntAt(ts, 2, num) == Some(|r.value.lines|) &&
      forall i :: 0 <= i < |r.value.lines| ==> StackLineAt(Lines(def), i, num) == Some(r.value.lines[i])
  {
    var lines := Lines(def);
    match Tokens(ReadLine(lines, 0))
    case None => None
    case Some(ts) =>
      var d := Token(ts, 1);
      var count := IntAt(ts, 2, num);
      if d.None? || count.None? || count.value < 0 then None
      else if forall i :: 0 <= i < count.value ==> StackLineAt(lines, i, num).Some?
      then Some(PadStack(d.value, seq(count.value, i requires 0 <= i < count.value => StackLineAt(lines, i, num).value)))
      else None
  }

  method ParsePadStack(def: string, num: NumberParser) returns (r: Option<PadStack>)
    ensures r == PadStackOf(def, num)
  {
    var lines := Lines(def);
    var ts := Tokens(ReadLine(lines, 0));
    if ts.None? {
      return None;
    }
    var d := Token(ts.value, 1);
    var count := IntAt(ts.value, 2, num);
    if d.None? || count.None? || count.value < 0 {
      return None;
    }
    var stackLines: seq<StackLine> := [];
    for i := 0 to count.value
      invariant |stackLines| == i
      invariant forall k :: 0 <= k < i ==> StackLineAt(lines, k, num) == Some(stackLines[k])
    {
      var s := ParseStackLine(ReadLine(lines, i + 1), num);
      if s.None? {
        assert StackLineAt(lines, i, num).None?;
        return None;
      }
      stackLines := stackLines + [s.value];
    }
    assert stackLines == seq(count.value, i requires 0 <= i < count.value => StackLineAt(lines, i, num).value);
    r := Some(PadStack(d.value, stackLines));
  }

  // ---------------------------------------------------------------------
  // Partdecal.Parse

  /** What one scan loop has gathered: parsed items, warnings for the
      definitions that threw, and whether the loop itself threw. */
  datatype Scan<T> = Scan(items: seq<T>, warnings: seq<Warning>, failed: bool)

  function PieceParser(compat: bool, num: NumberParser): (string, nat) -> Option<Piece>
  {
    (d: string, k: nat) => PieceOf(d, compat, num)
  }

  function PadStackParser(num: NumberParser): (string, nat) -> Option<PadStack>
  {
    (d: string, k: nat) => PadStackOf(d, num)
  }

  function TerminalParser(num: NumberParser): (string, nat) -> Option<Terminal>
  {
    (d: string, k: nat) => TerminalOf(d, k, num)
  }

  /** A scan loop of `Partdecal.Parse` from turn `i` with the cursor at `j`:
      at most `n` turns; each finds the next `marker` at or after the cursor,
      parses the text from there (a throw becomes warning `w`) and moves the
      cursor `advance` characters past the match.  The loop stops early when
      no match is left; a cursor beyond the end makes `IndexOf` throw out of
      the loop. */
  function ScanFrom<T>(s: string, marker: string, advance: nat, parse: (string, nat) -> Option<T>, w: Warning,
                       j: nat, i: nat, n: nat, acc: Scan<T>): Scan<T>
    decreases n - i
  {
    if i >= n then acc
    else if j > |s| then acc.(failed := true)
    else
      var p := IndexOf(s, marker, j);
      if p < 0 then acc
      else
        var next := match parse(s[p..], i + 1)
                    case Some(x) => acc.(items := acc.items + [x])
                    case None => acc.(warnings := acc.warnings + [w]);
        ScanFrom(s, marker, advance, parse, w, p + advance, i + 1, n, next)
  }

  /** One turn of a scan that finds its marker at `p` and parses `x` there. */
  lemma ScanStep<T>(s: string, marker: string, advance: nat, parse: (string, nat) -> Option<T>, w: Warning,
                    j: nat, i: nat, n: nat, acc: Scan<T>, p: nat, x: Option<T>)
    requires i < n && j <= |s| && p == IndexOf(s, marker, j) && x == parse(s[p..], i + 1)
    ensures ScanFrom(s, marker, advance, parse, w, j, i, n, acc) ==
            ScanFrom(s, marker, advance, parse, w, p + advance, i + 1, n,
                     if x.Some? then acc.(items := acc.items + [x.value]) else acc.(warnings := acc.warnings + [w]))
  {
  }

  /** One of the three piece loops: `advance` is the marker's length plus
      one. */
  method ScanPieces(section: string, marker: string, advance: nat, start: nat, n: nat, compat: bool, num: NumberParser,
                    acc: Scan<Piece>) returns (r: Scan<Piece>)
    ensures r == ScanFrom(section, marker, advance, PieceParser(compat, num), PieceUnreadable, start, 0, n, acc)
  {
    r := acc;
    var j: nat := start;
    var i := 0;
    while i < n
      invariant ScanFrom(section, marker, advance, PieceParser(compat, num), PieceUnreadable, j, i, n, r) ==
                ScanFrom(section, marker, advance, PieceParser(compat, num), PieceUnreadable, start, 0, n, acc)
      decreases n - i
    {
      if j > |section| {
        r := r.(failed := true);
        return;
      }
      var p := IndexOf(section, marker, j);
      if p < 0 {
        return;
      }
      var piece := ParsePiece(section[p..], compat, num);
      ScanStep(section, marker, advance, PieceParser(compat, num), PieceUnreadable, j, i, n, r, p, piece);
      if piece.Some? {
        r := r.(items := r.items + [piece.value]);
      } else {
        r := r.(warnings := r.warnings + [PieceUnreadable]);
      }
      j := p + advance;
      i := i + 1;
    }
  }

  /** The padstack loop. */
  method ScanPadStacks(section: string, start: nat, n: nat, num: NumberParser, acc: Scan<PadStack>)
    returns (r: Scan<PadStack>)
    ensures r == ScanFrom(section, PadstackPrefix, |PadstackPrefix| + 1, PadStackParser(num), PadStackUnreadable, start, 0, n, acc)
  {
    r := acc;
    var j: nat := start;
    var i := 0;
    while i < n
      invariant ScanFrom(section, PadstackPrefix, |PadstackPrefix| + 1, PadStackParser(num), PadStackUnreadable, j, i, n, r) ==
                ScanFrom(section, PadstackPrefix, |PadstackPrefix| + 1, PadStackParser(num), PadStackUnreadable, start, 0, n, acc)
      decreases n - i
    {
      if j > |section| {
        r := r.(failed := true);
        return;
      }
      var p := IndexOf(section, PadstackPrefix, j);
      if p < 0 {
        return;
      }
      var stack := ParsePadStack(section[p..], num);
      if stack.Some? {
        r := r.(items := r.items + [stack.value]);
      } else {
        r := r.(warnings := r.warnings + [PadStackUnreadable]);
      }
      j := p + |PadstackPrefix| + 1;
      i := i + 1;
    }
  }

  /** The terminal loop: the turn number, from 1, becomes `InternalIndex`. */
  method ScanTerminals(section: string, start: nat, n: nat, num: NumberParser, acc: Scan<Terminal>)
    returns (r: Scan<Terminal>)
    ensures r == ScanFrom(section, TerminalPrefix, |TerminalPrefix|, TerminalParser(num), TerminalUnreadable, start, 0, n, acc)
  {
    r := acc;
    var j: nat := start;
    var i := 0;
    while i < n
      invariant ScanFrom(section, TerminalPrefix, |TerminalPrefix|, TerminalParser(num), TerminalUnreadable, j, i, n, r) ==
                ScanFrom(section, TerminalPrefix, |TerminalPrefix|, TerminalParser(num), TerminalUnreadable, start, 0, n, acc)
      decreases n - i
    {
      if j > |section| {
        r := r.(failed := true);
        return;
      }
      var p := IndexOf(section, TerminalPrefix, j);
      if p < 0 {
        return;
      }
      var t := TerminalOf(section[p..], i + 1, num);
      if t.Some? {
        r := r.(items := r.items + [t.value]);
      } else {
        r := r.(warnings := r.warnings + [TerminalUnreadable]);
      }
      j := p + |TerminalPrefix|;
      i := i + 1;
    }
  }

  /** A scan only appends, and makes at most one entry per turn. */
  lemma {:induction false} ScanBound<T>(s: string, marker: string, advance: nat, parse: (string, nat) -> Option<T>,
                                        w: Warning, j: nat, i: nat, n: nat, acc: Scan<T>)
    ensures acc.items <= ScanFrom(s, marker, advance, parse, w, j, i, n, acc).items
    ensures acc.warnings <= ScanFrom(s, marker, advance, parse, w, j, i, n, acc).warnings
    ensures |ScanFrom(s, marker, advance, parse, w, j, i, n, acc).items| +
            |ScanFrom(s, marker, advance, parse, w, j, i, n, acc).warnings| <=
            |acc.items| + |acc.warnings| + (if i < n then n - i else 0)
    decreases n - i
  {
    if i < n && j <= |s| {
      var p := IndexOf(s, marker, j);
      if p >= 0 {
        var x := parse(s[p..], i + 1);
        var next := if x.Some? then acc.(items := acc.items + [x.value]) else acc.(warnings := acc.warnings + [w]);
        ScanStep(s, marker, advance, parse, w, j, i, n, acc, p, x);
        ScanBound(s, marker, advance, parse, w, p + advance, i + 1, n, next);
      }
    }
  }

  /** A cursor that advances no further than the end of the match stays
      within the text, so such a scan never throws: the terminal loop. */
  lemma {:induction false} ScanWithinText<T>(s: string, marker: string, advance: nat, parse: (string, nat) -> Option<T>,
                                             w: Warning, j: nat, i: nat, n: nat, acc: Scan<T>)
    requires advance <= |marker| && j <= |s|
    ensures ScanFrom(s, marker, advance, parse, w, j, i, n, acc).failed == acc.failed
    decreases n - i
  {
    if i < n {
      var p := IndexOf(s, marker, j);
      if p >= 0 {
        var next := match parse(s[p..], i + 1)
                    case Some(x) => acc.(items := acc.items + [x])
                    case None => acc.(warnings := acc.warnings + [w]);
        ScanWithinText(s, marker, advance, parse, w, p + advance, i + 1, n, next);
      }
    }
  }

  predicate IncreasingIndexes(ts: seq<Terminal>)
  {
    forall a, b :: 0 <= a < b < |ts| ==> ts[a].index < ts[b].index
  }

  /** The terminals from position `from` on have indexes in `(lo, hi]`. */
  predicate IndexesIn(ts: seq<Terminal>, from: nat, lo: int, hi: int)
  {
    forall a :: from <= a < |ts| ==> lo < ts[a].index <= hi
  }

  /** The terminals a scan yields carry strictly increasing indexes above
      the turn it starts at and at most the declared count: `InternalIndex`
      counts the turns, including those whose line threw. */
  lemma {:induction false} TerminalIndexes(s: string, parse: (string, nat) -> Option<Terminal>, j: nat, i: nat, n: nat,
                                            acc: Scan<Terminal>, r: Scan<Terminal>)
    requires i <= n
    requires forall d, k :: parse(d, k).Some? ==> parse(d, k).value.index == k
    requires IncreasingIndexes(acc.items) && IndexesIn(acc.items, 0, -1, i)
    requires r == ScanFrom(s, TerminalPrefix, |TerminalPrefix|, parse, TerminalUnreadable, j, i, n, acc)
    ensures IncreasingIndexes(r.items) && IndexesIn(r.items, 0, -1, n) && IndexesIn(r.items, |acc.items|, i, n)
    decreases n - i
  {
    NewIndexes(s, parse, j, i, n, acc, r);
    assert acc.items <= r.items by {
      ScanBound(s, TerminalPrefix, |TerminalPrefix|, parse, TerminalUnreadable, j, i, n, acc);
    }
    JoinIndexes(acc.items, r.items, i, n);
    if i < n && j <= |s| {
      var p := IndexOf(s, TerminalPrefix, j);
      if p >= 0 {
        var t := parse(s[p..], i + 1);
        var next := if t.Some? then acc.(items := acc.items + [t.value])
                    else acc.(warnings := acc.warnings + [TerminalUnreadable]);
        assert r == ScanFrom(s, TerminalPrefix, |TerminalPrefix|, parse, TerminalUnreadable, p + |TerminalPrefix|, i + 1, n, next) by {
          ScanStep(s, TerminalPrefix, |TerminalPrefix|, parse, TerminalUnreadable, j, i, n, acc, p, t);
        }
        AppendIndex(acc.items, t, next.items, i);
        TerminalIndexes(s, parse, p + |TerminalPrefix|, i + 1, n, next, r);
      }
    }
  }

  /** The terminals a scan adds from turn `i` on have indexes in `(i, n]`. */
  lemma {:induction false} NewIndexes(s: string, parse: (string, nat) -> Option<Terminal>, j: nat, i: nat, n: nat,
                                       acc: Scan<Terminal>, r: Scan<Terminal>)
    requires forall d, k :: parse(d, k).Some? ==> parse(d, k).value.index == k
    requires r == ScanFrom(s, TerminalPrefix, |TerminalPrefix|, parse, TerminalUnreadable, j, i, n, acc)
    ensures IndexesIn(r.items, |acc.items|, i, n)
    decreases n - i
  {
    if i < n && j <= |s| {
      var p := IndexOf(s, TerminalPrefix, j);
      if p >= 0 {
        var t := parse(s[p..], i + 1);
        var next := if t.Some? then acc.(items := acc.items + [t.value])
                    else acc.(warnings := acc.warnings + [TerminalUnreadable]);
        assert r == ScanFrom(s, TerminalPrefix, |TerminalPrefix|, parse, TerminalUnreadable, p + |TerminalPrefix|, i + 1, n, next) by {
          ScanStep(s, TerminalPrefix, |TerminalPrefix|, parse, TerminalUnreadable, j, i, n, acc, p, t);
        }
        assert next.items <= r.items by {
          ScanBound(s, TerminalPrefix, |TerminalPrefix|, parse, TerminalUnreadable, p + |TerminalPrefix|, i + 1, n, next);
        }
        NewIndexes(s, parse, p + |TerminalPrefix|, i + 1, n, next, r);
        AppendedIndex(acc.items, t, next.items, i);
        IndexesWiden(acc.items, next.items, r.items, i, n);
      }
    }
  }

  /** Old terminals with indexes at most `i` followed by new ones in `(i, n]`
      all lie in `(-1, n]`. */
  lemma JoinIndexes(acc: seq<Terminal>, r: seq<Terminal>, i: int, n: int)
    requires acc <= r && i <= n
    requires IndexesIn(acc, 0, -1, i) && IndexesIn(r, |acc|, i, n)
    ensures IndexesIn(r, 0, -1, n)
  {
    forall a | 0 <= a < |r|
      ensures -1 < r[a].index <= n
    {
      if a < |acc| {
        assert r[a] == acc[a];
      }
    }
  }

  /** The terminal of turn `i + 1`, if any, has its index in `(i, i + 1]`. */
  lemma AppendedIndex(acc: seq<Terminal>, t: Option<Terminal>, next: seq<Terminal>, i: int)
    requires t.Some? ==> t.value.index == i + 1
    requires next == if t.Some? then acc + [t.value] else acc
    ensures IndexesIn(next, |acc|, i, i + 1)
  {
  }

  /** Appending the terminal of turn `i + 1`, if any, keeps the indexes
      increasing and within `(-1, i + 1]`. */
  lemma AppendIndex(acc: seq<Terminal>, t: Option<Terminal>, next: seq<Terminal>, i: int)
    requires IncreasingIndexes(acc) && IndexesIn(acc, 0, -1, i)
    requires t.Some? ==> t.value.index == i + 1
    requires next == if t.Some? then acc + [t.value] else acc
    ensures IncreasingIndexes(next) && IndexesIn(next, 0, -1, i + 1) && IndexesIn(next, |acc|, i, i + 1)
  {
  }

  /** Indexes in `(i, i + 1]` on the new part of a prefix and in `(i + 1, n]`
      beyond it lie in `(i, n]`. */
  lemma IndexesWiden(acc: seq<Terminal>, next: seq<Terminal>, r: seq<Terminal>, i: int, n: int)
    requires |acc| <= |next| && next <= r && i + 1 <= n
    requires IndexesIn(next, |acc|, i, i + 1) && IndexesIn(r, |next|, i + 1, n)
    ensures IndexesIn(r, |acc|, i, n)
  {
    forall a | |acc| <= a < |r|
      ensures i < r[a].index <= n
    {
      if a < |next| {
        assert r[a] == next[a];
      }
    }
  }

  datatype DecalHeader = DecalHeader(name: string, units: PcbUnits, pieces: nat, terminals: nat, stacks: nat)

  /** The first line of the section: name, unit letter, origin, then the
      numbers of pieces, terminals and stacks (tokens 4, 5 and 6).  An
      unknown unit letter throws, and so does a negative count when it
      becomes a list capacity. */
  function DecalHeaderOf(section: string, num: NumberParser): (r: Option<DecalHeader>)
    ensures r.Some? <==>
      |Lines(section)| > 0 &&
      var ts := Split(Lines(section)[0], ' ');
      |ts| > 1 && PartdecalUnitsOf(ts[1]).Some? &&
      forall k :: 4 <= k <= 6 ==> IntAt(ts, k, num).Some? && IntAt(ts, k, num).value >= 0
    ensures r.Some? ==> |Lines(section)| > 0
    ensures r.Some? ==>
      var ts := Split(Lines(section)[0], ' ');
      |ts| > 6 && r.value.name == ts[0] && PartdecalUnitsOf(ts[1]) == Some(r.value.units) &&
      IntAt(ts, 4, num) == Some(r.value.pieces) && IntAt(ts, 5, num) == Some(r.value.terminals) &&
      IntAt(ts, 6, num) == Some(r.value.stacks)
  {
    match Tokens(ReadLine(Lines(section), 0))
    case None => None
    case Some(ts) =>
      var pieces := IntAt(ts, 4, num);
      var stacks := IntAt(ts, 6, num);
      var terminals := IntAt(ts, 5, num);
      var name := Token(ts, 0);
      var units := if |ts| > 1 then PartdecalUnitsOf(ts[1]) else None;
      if pieces.None? || stacks.None? || terminals.None? || name.None? || units.None? then None
      else if pieces.value < 0 || terminals.value < 0 || stacks.value < 0 then None
      else Some(DecalHeader(name.value, units.value, pieces.value, terminals.value, stacks.value))
  }

  /** `headerEnded`: just past the first line feed, or 0 without one. */
  function HeaderEnd(section: string): (k: nat)
    ensures k <= |section|
  {
    IndexOf(section, [LineSeparator], 0) + 1
  }

  /** The piece loops for the first `m` types of `PieceScanOrder`, each
      restarting at `start`; the first loop that throws ends them all. */
  function PieceScans(section: string, start: nat, n: nat, compat: bool, num: NumberParser, m: nat): Scan<Piece>
    requires m <= |PieceScanOrder|
  {
    if m == 0 then Scan([], [], false)
    else
      var prev := PieceScans(section, start, n, compat, num, m - 1);
      var marker := PieceTypeName(PieceScanOrder[m - 1]);
      if prev.failed then prev
      else ScanFrom(section, marker, |marker| + 1, PieceParser(compat, num), PieceUnreadable, start, 0, n, prev)
  }

  /** The outcome of `Partdecal.Parse`: null for an empty section, an
      exception (`Unreadable`), or the decal; with the warnings its loops
      added on the way. */
  datatype DecalOutcome = NoSection | Unreadable | Decoded(decal: Partdecal)

  function DecalOf(section: string, cfg: Config, num: NumberParser): (DecalOutcome, seq<Warning>)
  {
    if |section| == 0 then (NoSection, [])
    else
      match DecalHeaderOf(section, num)
      case None => (Unreadable, [])
      case Some(h) =>
        var start := HeaderEnd(section);
        var ps := PieceScans(section, start, h.pieces, cfg.pieceHeaderCompatibilityMode, num, |PieceScanOrder|);
        if ps.failed then (Unreadable, ps.warnings)
        else
          var ss := ScanFrom(section, PadstackPrefix, |PadstackPrefix| + 1, PadStackParser(num), PadStackUnreadable,
                             start, 0, h.stacks, Scan([], ps.warnings, false));
          if ss.failed then (Unreadable, ss.warnings)
          else
            var ts := ScanFrom(section, TerminalPrefix, |TerminalPrefix|, TerminalParser(num), TerminalUnreadable,
                               start, 0, h.terminals, Scan([], ss.warnings, false));
            if ts.failed then (Unreadable, ts.warnings)
            else (Decoded(Partdecal(h.name, h.units, ps.items, ts.items, ss.items)), ts.warnings)
  }

  /** `Partdecal.Parse(section)`. */
  method ParseDecal(section: string, cfg: Config, num: NumberParser) returns (r: DecalOutcome, warnings: seq<Warning>)
    ensures (r, warnings) == DecalOf(section, cfg, num)
  {
    if |section| == 0 {
      return NoSection, [];
    }
    var header := DecalHeaderOf(section, num);
    if header.None? {
      return Unreadable, [];
    }
    var h := header.value;
    var start := HeaderEnd(section);
    var pieces := ScanAllPieces(section, start, h.pieces, cfg.pieceHeaderCompatibilityMode, num);
    if pieces.failed {
      return Unreadable, pieces.warnings;
    }
    var stacks := ScanPadStacks(section, start, h.stacks, num, Scan([], pieces.warnings, false));
    if stacks.failed {
      return Unreadable, stacks.warnings;
    }
    var terminals := ScanTerminals(section, start, h.terminals, num, Scan([], stacks.warnings, false));
    ScanWithinText(section, TerminalPrefix, |TerminalPrefix|, TerminalParser(num), TerminalUnreadable,
                   start, 0, h.terminals, Scan([], stacks.warnings, false));
    r := Decoded(Partdecal(h.name, h.units, pieces.items, terminals.items, stacks.items));
    warnings := terminals.warnings;
  }

  /** The piece loops of `Partdecal.Parse` in turn, stopping at the first
      one that throws. */
  method ScanAllPieces(section: string, start: nat, n: nat, compat: bool, num: NumberParser) returns (pieces: Scan<Piece>)
    ensures pieces == PieceScans(section, start, n, compat, num, |PieceScanOrder|)
  {
    pieces := Scan([], [], false);
    for m := 0 to |PieceScanOrder|
      invariant pieces == PieceScans(section, start, n, compat, num, m)
      invariant !pieces.failed
    {
      pieces := ScanPieceKind(section, start, n, compat, num, m, pieces);
      if pieces.failed {
        PieceScansStayFailed(section, start, n, compat, num, m + 1);
        return;
      }
    }
  }

  /** The piece loop for the `m`-th marker of the scan order. */
  method ScanPieceKind(section: string, start: nat, n: nat, compat: bool, num: NumberParser, m: nat, prev: Scan<Piece>)
    returns (next: Scan<Piece>)
    requires m < |PieceScanOrder| && !prev.failed && prev == PieceScans(section, start, n, compat, num, m)
    ensures next == PieceScans(section, start, n, compat, num, m + 1)
  {
    var marker := PieceTypeName(PieceScanOrder[m]);
    next := ScanPieces(section, marker, |marker| + 1, start, n, compat, num, prev);
  }

  /** Once a piece loop has thrown, the remaining ones do not run. */
  lemma {:induction false} PieceScansStayFailed(section: string, start: nat, n: nat, compat: bool, num: NumberParser, m: nat)
    requires m <= |PieceScanOrder|
    requires PieceScans(section, start, n, compat, num, m).failed
    ensures PieceScans(section, start, n, compat, num, |PieceScanOrder|) == PieceScans(section, start, n, compat, num, m)
    decreases |PieceScanOrder| - m
  {
    if m < |PieceScanOrder| {
      PieceScansStayFailed(section, start, n, compat, num, m + 1);
    }
  }

  /** The first `m` piece loops yield at most `n` pieces each. */
  lemma {:induction false} PieceScansBound(section: string, start: nat, n: nat, compat: bool, num: NumberParser, m: nat)
    requires m <= |PieceScanOrder|
    ensures |PieceScans(section, start, n, compat, num, m).items| <= m * n
  {
    if m > 0 {
      var prev := PieceScans(section, start, n, compat, num, m - 1);
      var marker := PieceTypeName(PieceScanOrder[m - 1]);
      PieceScansBound(section, start, n, compat, num, m - 1);
      if !prev.failed {
        ScanBound(section, marker, |marker| + 1, PieceParser(compat, num), PieceUnreadable, start, 0, n, prev);
      }
      BoundStep(|prev.items|, |PieceScans(section, start, n, compat, num, m).items|, m, n);
    }
  }

  /** One more scan of at most `n` turns raises a bound of `(m - 1) * n` to `m * n`. */
  lemma BoundStep(before: nat, after: nat, m: nat, n: nat)
    requires m >= 1 && before <= (m - 1) * n && after <= before + n
    ensures after <= m * n
  {
    assert (m - 1) * n + n == m * n;
  }

  /** The decal holds no more stacks and terminals than its header
      declares, and no more pieces than three scans of that many turns. */
  lemma DecalCounts(section: string, cfg: Config, num: NumberParser)
    requires DecalOf(section, cfg, num).0.Decoded?
    ensures DecalHeaderOf(section, num).Some?
    ensures var h := DecalHeaderOf(section, num).value;
      var d := DecalOf(section, cfg, num).0.decal;
      |d.stacks| <= h.stacks && |d.terminals| <= h.terminals &&
      |d.pieces| <= |PieceScanOrder| * h.pieces
  {
    var h := DecalHeaderOf(section, num).value;
    var start := HeaderEnd(section);
    var ps := PieceScans(section, start, h.pieces, cfg.pieceHeaderCompatibilityMode, num, |PieceScanOrder|);
    var ss := ScanFrom(section, PadstackPrefix, |PadstackPrefix| + 1, PadStackParser(num), PadStackUnreadable,
                       start, 0, h.stacks, Scan([], ps.warnings, false));
    var ts := ScanFrom(section, TerminalPrefix, |TerminalPrefix|, TerminalParser(num), TerminalUnreadable,
                       start, 0, h.terminals, Scan([], ss.warnings, false));
    assert DecalOf(section, cfg, num).0.decal == Partdecal(h.name, h.units, ps.items, ts.items, ss.items);
    PieceScansBound(section, start, h.pieces, cfg.pieceHeaderCompatibilityMode, num, |PieceScanOrder|);
    ScanBound(section, PadstackPrefix, |PadstackPrefix| + 1, PadStackParser(num), PadStackUnreadable,
              start, 0, h.stacks, Scan([], ps.warnings, false));
    ScanBound(section, TerminalPrefix, |TerminalPrefix|, TerminalParser(num), TerminalUnreadable,
              start, 0, h.terminals, Scan([], ss.warnings, false));
  }

  /** Each terminal of a decal carries its 1-based turn of the terminal
      loop: the indexes increase strictly and never exceed the declared
      number of terminals. */
  lemma DecalTerminalIndexes(section: string, cfg: Config, num: NumberParser)
    requires DecalOf(section, cfg, num).0.Decoded?
    ensures DecalHeaderOf(section, num).Some?
    ensures var ts := DecalOf(section, cfg, num).0.decal.terminals;
      (forall a, b :: 0 <= a < b < |ts| ==> ts[a].index < ts[b].index) &&
      (forall a :: 0 <= a < |ts| ==> 1 <= ts[a].index <= DecalHeaderOf(section, num).value.terminals)
  {
    var h := DecalHeaderOf(section, num).value;
    var start := HeaderEnd(section);
    var ps := PieceScans(section, start, h.pieces, cfg.pieceHeaderCompatibilityMode, num, |PieceScanOrder|);
    var ss := ScanFrom(section, PadstackPrefix, |PadstackPrefix| + 1, PadStackParser(num), PadStackUnreadable,
                       start, 0, h.stacks, Scan([], ps.warnings, false));
    var ts := ScanFrom(section, TerminalPrefix, |TerminalPrefix|, TerminalParser(num), TerminalUnreadable,
                       start, 0, h.terminals, Scan([], ss.warnings, false));
    assert DecalOf(section, cfg, num).0.decal.terminals == ts.items;
    TerminalIndexes(section, TerminalParser(num), start, 0, h.terminals, Scan([], ss.warnings, false), ts);
  }
}
