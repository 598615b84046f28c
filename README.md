# PADS to ARES7 footprint converter, modelled in Dafny

The converter takes a PADS ASCII file, such as a PADS Layout export. It decodes the file's `*PARTDECAL*` section into a `PcbDesign`. That design holds:

- pads, each with a shared pad style;
- copper traces;
- silk-screen graphics blocks made of silk lines.

It then writes the design out as an ARES7 region file.

The model follows that pipeline:

| file | module | what it models |
|---|---|---|
| `outcomes.dfy` | `Outcomes` | `Option` and `Result` |
| `diagnostics.dfy` | `Diagnostics` | The tags for the exceptions the converter raises, catches or reports. |
| `text.dfy` | `Text` | `IndexOf` and `LastIndexOf`, `Split(' ')`, `ReadLine` over a string, and decimal printing of an `int`. These are the string operations the decoder relies on. |
| `units.dfy` | `Units` | `PcbUnits` and `GetUnitConversionMultiplier`. |
| `pcb_values.dfy` | `PcbValues` | The value view of every entity of `Pcb.cs`, the design-wide unit synchronization as functions, and the layer lists. |
| `pcb.dfy` | `Pcb` | The mutable classes `PcbPadStyle`, `PcbGraphics`, `PcbTrace`, `PcbPad` and `PcbDesign`. Their `SetUnits`/`SetCoordinateUnits`/`Synchronize*` methods update fields in place. `GetLayers` and `GetObjectsFromLayer` are loops. Each method is proved against the value functions. |
| `pads_tables.dfy` | `PadsTables` | The decoder's static tables, its configuration flags, and `AllLayerPattern`. |
| `pads_sections.dfy` | `PadsSections` | The file header, the section index built by `PADS.Parse`, `FindSectionEnd`, and the cut of the PARTDECAL section. |
| `pads_decal.dfy` | `PadsDecal` | `Partdecal.Parse` with its three count-bounded scans, plus `Piece.Parse`, `Terminal.Parse`, `PadStack.Parse`, `StackLine.Parse` and `DependentArgument.Parse`. |
| `pads_convert.dfy` | `PadsConvert` | `ProcessDecalPieces`, `PolylineHelper`, `FindSuitablePadstack`, `ProcessDecalPads`, `DeterminePadStyle`, `DeterminePcbLayer`, `PADSToPcbDesign` and `PADS.Parse`. |
| `ares7.dfy` | `Ares7` | The four name tables of the `ARES7` class and `ARES7.Write`. |

Modelling choices:

- **Outcomes.**
  - An exception becomes a `Failure`, a `None`, or an `abort` field. The model keeps track of which catch site absorbs it.
  - Every `WarningListener.Add` becomes an element appended to a returned `seq<Warning>`, in the order the converter meets them.
- **Configuration.** The decoder's static configuration properties are a `Config` value passed in: `PieceHeaderCompatibilityMode`, `FourLayerModel`, `LayerModelOverrideForALL`, `LargeCustomLayerModel` and `PrioritizePadstackBindingByIndex`.
- **Number parsing.** `int.Parse` and `double.Parse` are a `NumberParser` parameter: two partial functions from a token to a number.
- **Magnitudes.** Magnitudes are `real`.
  - The multiplier of `TwoThirdsOfNanometer` stays the C# integer quotient `20 / 3`, which is 6.
- **Output records.**
  - The encoder emits records (pad, graphic line, trace and layer block) that carry the numbers its format strings print. It does not emit formatted text.
  - A trace record carries the trace's `Segments` property. The code returns the point count (`ARESFileConverter/Pcb.cs:177-180`). The doc comment of the trace template (`ARESFileConverter/ARES7.cs:71`) says "XY pair number - 1". The model follows the code.

## Model

| member | source | states |
|---|---|---|
| Units.Multiplier | ARESFileConverter/Pcb.cs:378-395 | The multiplier exists exactly for the units other than Arbitrary (Arbitrary throws) and is positive. |
| Units.Factor | ARESFileConverter/Pcb.cs:90 | The factor `SetUnits` multiplies by is positive, so conversion never flips or zeroes a magnitude. |
| Units.FactorSame | ARESFileConverter/Pcb.cs:88-95 | The factor from a unit to itself is 1. |
| Units.ConvertSame | ARESFileConverter/Pcb.cs:88-95 | Converting a magnitude to the unit it is already in leaves it unchanged. |
| Units.ConvertRoundTrip | ARESFileConverter/Pcb.cs:88-95 | Converting from u to v and back to u restores the magnitude. |
| PcbValues.LayerOfCode | ARESFileConverter/PADS.cs:197-199 | The `(PcbLayer)` cast yields a layer whose underlying code is the integer cast. A code from -1 to 4 always gives the named member. |
| PcbValues.LayerCodeRoundTrip | ARESFileConverter/Pcb.cs:20-28 | The cast inverts the enum's code on every layer a cast can produce. |
| PcbValues.PointsConverted | ARESFileConverter/Pcb.cs:200-205 | A trace's point list keeps its length. Each point is the old point re-expressed in the new unit. |
| PcbValues.GraphicsUnitsSyncedAgain | ARESFileConverter/Pcb.cs:146-153 | Synchronizing a graphics block's units a second time changes nothing. |
| PcbValues.GraphicsCoordinatesSyncedAgain | ARESFileConverter/Pcb.cs:154-161 | Synchronizing a graphics block's coordinates a second time changes nothing. |
| PcbValues.SyncUnits | ARESFileConverter/Pcb.cs:357-371 | After unit synchronization, every pad style, trace, graphics block and silk line is tagged with the target unit. Lists, order, layers, designators, flags, line types and point counts are unchanged. The design's coordinate unit is unchanged. |
| PcbValues.SyncCoordinates | ARESFileConverter/Pcb.cs:340-355 | After coordinate synchronization, the design and every pad, trace, graphics block and silk line carry the target coordinate unit. The non-geometric content is unchanged. |
| PcbValues.SyncUnitsKeepsCoordinates | ARESFileConverter/Pcb.cs:357-371 | Unit synchronization leaves every pad position, trace point, silk-line endpoint and coordinate tag unchanged. |
| PcbValues.SyncCoordinatesKeepsUnits | ARESFileConverter/Pcb.cs:340-355 | Coordinate synchronization leaves every pad style, trace thickness, silk-line thickness and unit tag unchanged. |
| PcbValues.SyncUnitsIdentity | ARESFileConverter/Pcb.cs:357-371 | Synchronizing a design to the unit it is already in is the identity. |
| PcbValues.SyncCoordinatesIdentity | ARESFileConverter/Pcb.cs:340-355 | Synchronizing coordinates to the coordinate unit already in use is the identity. |
| PcbValues.SyncUnitsIdempotent | ARESFileConverter/Pcb.cs:357-371 | Unit synchronization twice is the same as once. |
| PcbValues.SyncCoordinatesIdempotent | ARESFileConverter/Pcb.cs:340-355 | Coordinate synchronization twice is the same as once. |
| PcbValues.SyncUnitsRoundTrip | ARESFileConverter/Pcb.cs:357-371 | For a design in unit u, synchronizing to v and then back to u restores the design. |
| PcbValues.PadsUnitsRoundTrip | ARESFileConverter/Pcb.cs:359-362 | Round trip u→v→u of the pad loop restores every pad. |
| PcbValues.TracesUnitsRoundTrip | ARESFileConverter/Pcb.cs:363-366 | Round trip u→v→u of the trace loop restores every trace. |
| PcbValues.GraphicsListUnitsRoundTrip | ARESFileConverter/Pcb.cs:367-370 | Round trip u→v→u of the graphics loop restores every graphics block. |
| PcbValues.PointRoundTrip | ARESFileConverter/Pcb.cs:123-129 | A point re-expressed u→v→u is the original point. |
| PcbValues.SyncCoordinatesRoundTrip | ARESFileConverter/Pcb.cs:340-355 | For a design with coordinates in u, synchronizing to v and back to u restores the design. |
| PcbValues.DedupDistinct | ARESFileConverter/Pcb.cs:298-313 | The layer list with the contains-checks holds every layer met, and holds each exactly once. |
| PcbValues.DedupSnoc | ARESFileConverter/Pcb.cs:305 | Adding one more object's layer appends it exactly when the list does not already contain it. |
| PcbValues.DedupOrder | ARESFileConverter/Pcb.cs:298-313 | The layers are listed in the order of their first occurrence. |
| PcbValues.TracesOnLayer | ARESFileConverter/Pcb.cs:330-333 | A trace is selected if and only if it is in the list and lies on the layer. |
| Pcb.PcbPadStyle.constructor | ARESFileConverter/Pcb.cs:64-71 | A new style holds the given shape, unit, dimensions and drill. |
| Pcb.PcbPadStyle.SetUnits | ARESFileConverter/Pcb.cs:88-95 | The conversion succeeds if and only if both units have multipliers. It then scales both dimensions and the drill, and retags the style. Otherwise (the source throws) the style is unchanged. |
| Pcb.PcbGraphics.constructor | ARESFileConverter/Pcb.cs:133-139 | A new graphics block has no lines and the given unit, coordinate unit and layer. |
| Pcb.PcbGraphics.AddLine | ARESFileConverter/PADS.cs:231-234 | Appends one silk line at the end and changes nothing else. |
| Pcb.PcbGraphics.SynchronizeUnits | ARESFileConverter/Pcb.cs:146-153 | Succeeds exactly when every line can be converted. Every silk line and the block are then in the target unit, with thicknesses rescaled. |
| Pcb.PcbGraphics.SynchronizeCoordinateUnits | ARESFileConverter/Pcb.cs:154-161 | Succeeds exactly when every line can be converted. Every silk line's endpoints are then rescaled, and the lines and the block carry the target coordinate unit. |
| Pcb.PcbTrace.constructor | ARESFileConverter/Pcb.cs:165-172 | A new trace holds the given layer, thickness, units and points. |
| Pcb.PcbTrace.SetCoordinateUnits | ARESFileConverter/Pcb.cs:200-205 | Succeeds if and only if both units have multipliers. Every point is then rescaled and the tag replaced. Otherwise the trace is unchanged. |
| Pcb.PcbTrace.SetUnits | ARESFileConverter/Pcb.cs:211-215 | Succeeds if and only if both units have multipliers. The thickness is then rescaled and the tag replaced. Otherwise the trace is unchanged. |
| Pcb.PcbPad.constructor | ARESFileConverter/Pcb.cs:219-229 | A new pad holds the given designator, position, layer and flags, and shares the given style object. |
| Pcb.PcbPad.SetCoordinateUnits | ARESFileConverter/Pcb.cs:256-262 | Succeeds if and only if both units have multipliers. X and Y are then rescaled and retagged. The style object stays the same. |
| Pcb.PcbPad.SetUnits | ARESFileConverter/Pcb.cs:268-271 | A pad's unit change is its style's `SetUnits`, with the same success condition and effect. |
| Pcb.PadsOnMembers | ARESFileConverter/Pcb.cs:323-329 | The pad part of `GetObjectsFromLayer` selects exactly the pads on the layer. |
| Pcb.TracesOnMembers | ARESFileConverter/Pcb.cs:330-333 | The trace part selects exactly the traces on the layer. |
| Pcb.TracesOnValues | ARESFileConverter/Pcb.cs:330-333 | Selecting trace objects and then taking their values is the same as selecting trace values by layer. |
| Pcb.PcbDesign.constructor | ARESFileConverter/Pcb.cs:278-283 | A new design is empty, with the default coordinate unit, Thou. |
| Pcb.PcbDesign.WalkedLayersMentioned | ARESFileConverter/Pcb.cs:298-313 | The layers walked are those of the pads (unless traces only), then those of the traces. |
| Pcb.PcbDesign.WalkedTraceLayers | ARESFileConverter/Pcb.cs:308-311 | With `tracesOnly`, only trace layers are walked, in list order. |
| Pcb.PcbDesign.GetLayers | ARESFileConverter/Pcb.cs:298-313 | Returns each layer of the walked objects once, in first-occurrence order (see `DedupDistinct` and `DedupOrder`). |
| Pcb.PcbDesign.GetObjectsFromLayer | ARESFileConverter/Pcb.cs:320-335 | Returns the pads on the layer (unless traces only), then the traces on it, each in list order. |
| Pcb.PcbDesign.AddPadObjects | ARESFileConverter/Pcb.cs:323-329 | The pad loop appends exactly the pads on the layer, in order. |
| Pcb.PcbDesign.AddTraceObjects | ARESFileConverter/Pcb.cs:330-333 | The trace loop appends exactly the traces on the layer, in order. |
| Pcb.PcbDesign.SynchronizeUnits | ARESFileConverter/Pcb.cs:357-371 | Succeeds exactly when every entity is either already in the unit or convertible. The new design is then the unit-synchronized value, so every style, trace and silk line is tagged u. A style shared by several pads is rescaled once. |
| Pcb.PcbDesign.SynchronizeCoordinateUnits | ARESFileConverter/Pcb.cs:340-355 | Succeeds exactly when every entity can be brought to u. The new design is then the coordinate-synchronized value, and the design's own tag is u. |
| Pcb.PcbDesign.RetagCoordinates | ARESFileConverter/Pcb.cs:354 | Only the design's coordinate unit changes. |
| Pcb.PcbDesign.SynchronizePadUnits | ARESFileConverter/Pcb.cs:359-362 | The pad loop rescales each differently-tagged style and leaves traces and graphics alone. |
| Pcb.PcbDesign.RescalePadStyles | ARESFileConverter/Pcb.cs:359-362 | After the loop, every pad's style is its old style synchronized to u, even when several pads share one style. |
| Pcb.PcbDesign.SynchronizeTraceUnits | ARESFileConverter/Pcb.cs:363-366 | The trace loop synchronizes every trace and leaves pads and graphics alone. |
| Pcb.PcbDesign.SynchronizeGraphicsUnits | ARESFileConverter/Pcb.cs:367-370 | The graphics loop synchronizes every graphics block. |
| Pcb.PcbDesign.SynchronizePadCoordinates | ARESFileConverter/Pcb.cs:342-345 | The pad loop brings every pad's position to u, keeps each pad's style object, and leaves traces and graphics alone. |
| Pcb.PcbDesign.SynchronizeTraceCoordinates | ARESFileConverter/Pcb.cs:346-349 | The trace loop brings every trace to u and leaves pads and graphics alone. |
| Pcb.PcbDesign.SynchronizeGraphicsCoordinates | ARESFileConverter/Pcb.cs:350-353 | The graphics loop brings every block to u and leaves pads and traces alone. |
| Text.IndexOf | ARESFileConverter/PADS.cs:115 | Returns -1 or a position at or after the start where the pattern occurs. |
| Text.IndexOfFirst | ARESFileConverter/PADS.cs:115 | The position found is the first occurrence at or after the start, and -1 means there is none. |
| Text.LastIndexOfChar | ARESFileConverter/PADS.cs:107 | Returns the last occurrence of the character at or before the start, or -1. |
| Text.Split | ARESFileConverter/PADS.cs:432 | `Split(' ')` gives at least one part, and no part contains the separator. |
| Text.JoinSplit | ARESFileConverter/PADS.cs:432 | Joining the parts with the separator gives back the line. |
| Text.SplitJoin | ARESFileConverter/PADS.cs:432 | Splitting a join of separator-free parts gives back the parts. |
| Text.LineEnd | ARESFileConverter/PADS.cs:432 | `ReadLine` stops at the first line break or at the end of the text. |
| Text.LinesFrom | ARESFileConverter/PADS.cs:600-602 | No line returned by successive `ReadLine` calls contains a line-break character. |
| Text.NatToString | ARESFileConverter/PADS.cs:243 | `int.ToString` of a non-negative index is a non-empty digit string without a leading zero. |
| Text.NatToStringValue | ARESFileConverter/PADS.cs:243 | The digit string denotes the index. |
| Text.NatToStringInjective | ARESFileConverter/PADS.cs:258 | Distinct indexes give distinct strings, so binding by index names one terminal. |
| PadsTables.HeaderUnitsOf | ARESFileConverter/PADS.cs:18-24 | A header unit name found in the table is a convertible unit other than 10 nm. |
| PadsTables.HeaderUnitsInverse | ARESFileConverter/PADS.cs:109 | The reverse lookup `HeaderUnits.First(x => x.Value == name)` finds u if and only if u's entry is that name. |
| PadsTables.PartdecalUnitsInverse | ARESFileConverter/PADS.cs:437 | The same holds for the PARTDECAL unit table. |
| PadsTables.PieceTypeInverse | ARESFileConverter/PADS.cs:588 | The reverse lookup of a piece type finds t if and only if t's name is the token. |
| PadsTables.PolylineLayer | ARESFileConverter/PADS.cs:210-220 | Layer 27 gives BottomSilk, 26 gives TopSilk and 20 gives Other. Any other code gives TopSilk with a warning, and the warning flag is set exactly then. |
| PadsTables.PolylineLineType | ARESFileConverter/PADS.cs:221-229 | Codes 0, 1 and 2 give Solid, Dashed and Dotted. Any other code gives Solid with a warning, and the flag is set exactly then. |
| PadsTables.CopperLayer | ARESFileConverter/PADS.cs:197-199 | A copper piece's layer is the enum cast of its layer code. |
| PadsTables.ShapeInverse | ARESFileConverter/PADS.cs:847 | The reverse lookup of a stackline shape finds s if and only if s's name is the token. |
| PadsTables.ArgumentSlot | ARESFileConverter/PADS.cs:789-797 | Every argument kind has its own position in a stackline's argument array. |
| PadsTables.ArgumentIndexFacts | ARESFileConverter/PADS.cs:799-838 | Every argument lies after the three common tokens. The finger arguments exist exactly for the two finger shapes. Odd has no arguments. |
| PadsTables.AllLayerPattern | ARESFileConverter/PADS.cs:663-680 | The ALL pattern is {-2, -1, 0} under the four-layer model or the override. Otherwise it is the custom model, possibly missing. |
| PadsTables.StackLayer | ARESFileConverter/PADS.cs:358-379 | -2 gives Top, -1 gives InternalBottom and 0 gives Bottom, with no warning. Any other k gives the layer numbered 5+k, with a warning. |
| PadsTables.StackLayerMinusThree | ARESFileConverter/PADS.cs:373 | Code -3 lands on InternalBottom (5-3 = 2), with a warning. |
| PadsSections.HeaderOf | ARESFileConverter/PADS.cs:105-109 | On success, the unit name is the text between the last '-' and the second '!', and it names the header unit. A file with no second '!' fails. |
| PadsSections.HeaderRoundTrip | ARESFileConverter/PADS.cs:105-109 | A header written as `!text-NAME!` is read back as the unit NAME names. |
| PadsSections.SectionOffset | ARESFileConverter/PADS.cs:115-124 | A marker that does not occur gives no entry. A found section starts after the marker's line and within the text, or it fails where the source's index check throws. |
| PadsSections.SectionOffsetNextLine | ARESFileConverter/PADS.cs:115-124 | When the marker's line is followed by an ordinary line, the section starts at that next line. |
| PadsSections.SectionTable | ARESFileConverter/PADS.cs:111-126 | The table holds each control statement's offset in statement order, or fails exactly when one offset fails. |
| PadsSections.IndexSections | ARESFileConverter/PADS.cs:111-126 | The indexing loop computes that table. |
| PadsSections.SectionStart | ARESFileConverter/PADS.cs:115-124 | One pass of the loop computes one statement's offset. |
| PadsSections.SectionEnd | ARESFileConverter/PADS.cs:144-154 | The end is the least recorded start strictly after the current one, or `int.MaxValue` when there is none. |
| PadsSections.FindSectionEnd | ARESFileConverter/PADS.cs:144-154 | The loop computes that minimum. |
| PadsSections.PartdecalCut | ARESFileConverter/PADS.cs:103-134 | A successful cut carries the header's unit. |
| PadsSections.PartdecalMissingFails | ARESFileConverter/PADS.cs:128 | Without a `*PARTDECAL*` marker, parsing fails outside any catch. |
| PadsSections.CutHoldsOneSection | ARESFileConverter/PADS.cs:128-134 | The cut text starts at the PARTDECAL start, and no other section starts inside it. |
| PadsDecal.Token | ARESFileConverter/PADS.cs:432 | A token exists exactly when its index is within the split line. |
| PadsDecal.ReadLine | ARESFileConverter/PADS.cs:602 | A line exists exactly when the reader has not run out (otherwise it is null). |
| PadsDecal.PieceHeaderOf | ARESFileConverter/PADS.cs:574-596 | A header parses exactly when token 0 names a piece type, token 1 is a non-negative integer, token 2 a number and tokens 3 and 4 integers. Type, count, width, layer and line type or pin count then come from the header positions of the selected layout. Without compatibility mode the line type is 0 (Solid); with it the pin count stays 0. |
| PadsDecal.PointOf | ARESFileConverter/PADS.cs:598-606 | A coordinate line gives a point exactly when it exists and its first two tokens are numbers, which become X and Y. |
| PadsDecal.PieceOf | ARESFileConverter/PADS.cs:569-607 | A piece parses exactly when its first line is a good header and each of the declared number of following lines is a good coordinate line. It then has the header's fields and exactly those points, in order. |
| PadsDecal.ParsePiece | ARESFileConverter/PADS.cs:569-607 | The point-reading loop computes that piece. |
| PadsDecal.TerminalOf | ARESFileConverter/PADS.cs:643-651 | A terminal parses exactly when the text is at least as long as the prefix, the line after it has at least five tokens, and the first four are numbers. It then has the scan index, X and Y from tokens 0 and 1, the number's X and Y from tokens 2 and 3, and the designator from token 4. |
| PadsDecal.ArgumentOf | ARESFileConverter/PADS.cs:739-764 | An argument is absent exactly when its shape has no entry or the line is too short. It is present exactly when that token parses, and then holds the parsed value. Otherwise it throws. |
| PadsDecal.StackLineOf | ARESFileConverter/PADS.cs:840-856 | A stackline parses exactly when the line exists, token 0 is an integer, token 1 a number, token 2 a shape name, and no dependent argument throws for that shape. Layer, size and shape then come from the first three tokens, and every argument is parsed against the shape. |
| PadsDecal.ParseStackLine | ARESFileConverter/PADS.cs:840-856 | The argument loop computes that stackline. |
| PadsDecal.PadStackOf | ARESFileConverter/PADS.cs:858-874 | A padstack parses exactly when its first line has a designator at token 1, a non-negative integer count at token 2, and each of that many following lines is a good stackline. The stack then holds exactly those stacklines, in order. |
| PadsDecal.ParsePadStack | ARESFileConverter/PADS.cs:858-874 | The stackline loop computes that padstack. |
| PadsDecal.ScanStep | ARESFileConverter/PADS.cs:444-460 | One scan step finds the next marker, then appends the parsed item, or a warning when the parse throws. |
| PadsDecal.ScanPieces | ARESFileConverter/PADS.cs:443-460 | The piece loop for one piece type computes the scan. |
| PadsDecal.ScanPadStacks | ARESFileConverter/PADS.cs:463-480 | The padstack loop computes the scan. |
| PadsDecal.ScanTerminals | ARESFileConverter/PADS.cs:482-499 | The terminal loop computes the scan. |
| PadsDecal.ScanBound | ARESFileConverter/PADS.cs:441-499 | A scan only appends, and it adds at most one item or warning per counted iteration. |
| PadsDecal.ScanWithinText | ARESFileConverter/PADS.cs:497 | A scan that advances its cursor by at most the marker length never fails on the cursor. The terminal scan is such a scan; the piece and padstack scans advance one character further and can fail. |
| PadsDecal.TerminalIndexes | ARESFileConverter/PADS.cs:489 | Scanned terminals have strictly increasing indexes, between 1 and the declared count. |
| PadsDecal.DecalHeaderOf | ARESFileConverter/PADS.cs:432-437 | The header parses exactly when token 1 is a PARTDECAL unit letter and tokens 4, 5 and 6 are non-negative integers. Name, unit and the three counts then come from tokens 0, 1, 4, 5 and 6 of the first line. |
| PadsDecal.HeaderEnd | ARESFileConverter/PADS.cs:438 | The scans start within the section. |
| PadsDecal.ParseDecal | ARESFileConverter/PADS.cs:426-502 | The method computes the decal outcome and warnings. |
| PadsDecal.ScanAllPieces | ARESFileConverter/PADS.cs:441-461 | The loop over piece types, each restarting at the header end, computes the piece scan. |
| PadsDecal.ScanPieceKind | ARESFileConverter/PADS.cs:443-460 | One piece type's scan extends the previous ones. |
| PadsDecal.PieceScansStayFailed | ARESFileConverter/PADS.cs:441-461 | Once a piece scan fails, later piece types add nothing. |
| PadsDecal.PieceScansBound | ARESFileConverter/PADS.cs:441-461 | m piece-type scans give at most m times the declared count. |
| PadsDecal.DecalCounts | ARESFileConverter/PADS.cs:426-502 | A decoded decal has at most the declared number of padstacks and terminals, and at most three times the declared number of pieces. |
| PadsDecal.DecalTerminalIndexes | ARESFileConverter/PADS.cs:482-499 | A decoded decal's terminals are numbered in strictly increasing order, from 1 up to the declared count. |
| PadsConvert.PolylineConnected | ARESFileConverter/PADS.cs:208-236 | A polyline of n points becomes n-1 silk lines. Line i runs from point i to point i+1, with no closing segment. Their thickness is the piece width, their line type comes from the line-type table and their units are the header's. The block's layer comes from the layer table. |
| PadsConvert.PiecesCounts | ARESFileConverter/PADS.cs:180-207 | Pieces never produce pads. Without an abort, each piece gives exactly one graphics block or trace, and copper pieces give the traces. |
| PadsConvert.PiecesInUnits | ARESFileConverter/PADS.cs:180-207 | Everything the pieces produce is in the header's units. |
| PadsConvert.StackIndex | ARESFileConverter/PADS.cs:244 | `FirstOrDefault` by designator finds the first matching padstack, or reports that none matches. |
| PadsConvert.SuitableStackRules | ARESFileConverter/PADS.cs:238-263 | The binding tries the designator, then the index string, in that order or reversed by the flag. It then tries the stack named "0". It fails exactly when all three fail. |
| PadsConvert.PresentCountZero | ARESFileConverter/PADS.cs:291 | No argument is present if and only if the present count is 0. |
| PadsConvert.UsefulLines | ARESFileConverter/PADS.cs:290-291 | Every kept stackline has a size or a present argument, and every such stackline is kept. |
| PadsConvert.UsefulLinesAppend | ARESFileConverter/PADS.cs:290-291 | The filter keeps the order: filtering a concatenation gives the filtered parts, concatenated. |
| PadsConvert.UsefulLinesSingle | ARESFileConverter/PADS.cs:290-291 | A single stackline is kept exactly when it is useful. |
| PadsConvert.FirstDrillLine | ARESFileConverter/PADS.cs:278 | Returns the first stackline with a drill size, or none exactly when no line has one. |
| PadsConvert.MaxArgs | ARESFileConverter/PADS.cs:299-304 | Returns the line with the most present arguments. The earliest such line wins ties. |
| PadsConvert.MaxArgsIndex | ARESFileConverter/PADS.cs:299-304 | The `maxArgs` loop computes that line. |
| PadsConvert.PadStyleOf | ARESFileConverter/PADS.cs:325-357 | Odd and OvalFinger throw. An Annular or RectangularFinger line missing its argument throws. Round and Annular give circular styles. A style is through-hole exactly when the line is drilled and not a finger. Size is dimension 1. Dimension 2 is 0 for Round, the size for Square, the inner diameter for Annular and the finger length for RectangularFinger. The drill is the drill argument or 0. A finger gives a warning. |
| PadsConvert.LinePadsShape | ARESFileConverter/PADS.cs:313-321 | A stackline gives one pad at the terminal, or an InternalBottom pad followed by its InternalTop twin sharing the style. |
| PadsConvert.LinesPadsFacts | ARESFileConverter/PADS.cs:311-322 | The line loop only appends pads at the terminal, each InternalBottom pad twinned. Nothing is added after an abort. |
| PadsConvert.StackPadsFacts | ARESFileConverter/PADS.cs:278-322 | One terminal only appends pads at its own position, twinned. |
| PadsConvert.UsefulPadsFacts | ARESFileConverter/PADS.cs:290-322 | The same holds for the ALL-collapse and line-by-line branches. |
| PadsConvert.AllPadFacts | ARESFileConverter/PADS.cs:305-307 | The ALL pad is appended at the terminal's position. |
| PadsConvert.DrillOnlyHole | ARESFileConverter/PADS.cs:278-289 | When the first drilled line's drill is at least its size, the terminal gets exactly one Drill pad: CircularTH, (d, 0, d). No warning is raised. |
| PadsConvert.AllLayerCollapse | ARESFileConverter/PADS.cs:290-308 | For any configuration with a pattern, a stack that is not a bare hole and whose three useful lines' layers, united with the ALL pattern, make three layers gives one All pad, styled from the line with the most arguments, or the abort of that style. |
| PadsConvert.FourLayerCovers | ARESFileConverter/PADS.cs:292-297 | Under the four-layer model or the override, lines cover the ALL pattern exactly when they all lie on layers -2, -1 and 0. |
| PadsConvert.NoPadstackWarned | ARESFileConverter/PADS.cs:272-277 | A terminal gets the no-padstack warning exactly when binding fails. It then gets no pads. |
| PadsConvert.NoPadstackNotAdded | ARESFileConverter/PADS.cs:311-322 | Emitting stacklines never raises the no-padstack warning. |
| PadsConvert.TerminalsPadsFacts | ARESFileConverter/PADS.cs:265-324 | Terminals give only pads, all in the header's units, each InternalBottom pad twinned. |
| PadsConvert.TerminalsStopAtAbort | ARESFileConverter/PADS.cs:160-171 | After an unsupported shape aborts, no later terminal gets pads. |
| PadsConvert.TerminalsPadsStacksOnly | ARESFileConverter/PADS.cs:265-324 | Pad output depends on the decal only through its padstacks. |
| PadsConvert.DecalUnitsUnused | ARESFileConverter/PADS.cs:156-171 | The decal's own unit and name never affect the output. |
| PadsConvert.DecalEmissionFacts | ARESFileConverter/PADS.cs:160-171 | All decal output is in the header's units, each InternalBottom pad twinned. |
| PadsConvert.BuiltSyncable | ARESFileConverter/PADS.cs:156-177 | The built design can be synchronized to the header unit, and is already in it. |
| PadsConvert.DesignOfKeepsObjects | ARESFileConverter/PADS.cs:176 | The final synchronization only retags the design. |
| PadsConvert.DesignInHeaderUnits | ARESFileConverter/PADS.cs:156-177 | The converted design is wholly in the file header's units. |
| PadsConvert.ParsedInHeaderUnits | ARESFileConverter/PADS.cs:103-142 | A parsed design is wholly in the unit named by the file header. |
| PadsConvert.UncutSectionGivesEmptyDesign | ARESFileConverter/PADS.cs:129-142 | When the section cannot be cut (end `int.MaxValue`), one warning is raised and the design is empty. |
| PadsConvert.ParseNeedsPartdecal | ARESFileConverter/PADS.cs:128 | A file without a PARTDECAL section fails, with no warnings. |
| PadsConvert.PolylineHelper | ARESFileConverter/PADS.cs:208-236 | Builds the graphics block of the polyline and raises its layer and line-type warnings. |
| PadsConvert.AddTrace | ARESFileConverter/PADS.cs:197-199 | Appends one trace. |
| PadsConvert.AddGraphics | ARESFileConverter/PADS.cs:189-193 | Appends one graphics block. |
| PadsConvert.PiecesStopAtAbort | ARESFileConverter/PADS.cs:160-171 | After an abort, no later piece adds anything. |
| PadsConvert.ProcessPiece | ARESFileConverter/PADS.cs:185-200 | A copper piece appends its trace. An open or closed piece appends its graphics block with the polyline's warnings, or aborts when it has no points. |
| PadsConvert.ProcessDecalPieces | ARESFileConverter/PADS.cs:180-207 | The piece loop appends the pieces' traces and graphics, in order, to the design's lists. |
| PadsConvert.AddPad | ARESFileConverter/PADS.cs:315-321 | Appends a pad at the terminal, plus its InternalTop twin for an InternalBottom pad, sharing one style object. |
| PadsConvert.AddLinePad | ARESFileConverter/PADS.cs:313-321 | One stackline's pads are appended. |
| PadsConvert.AddLinePads | ARESFileConverter/PADS.cs:311-322 | The stackline loop appends each useful line's pads, in order. |
| PadsConvert.AddLineAt | ARESFileConverter/PADS.cs:311-322 | One iteration of that loop. |
| PadsConvert.LinesStopAtAbort | ARESFileConverter/PADS.cs:311-322 | After an abort, no later stackline adds pads. |
| PadsConvert.AddStackPads | ARESFileConverter/PADS.cs:278-322 | Appends one bound padstack's pads: a drill-only hole, an All pad, or one pad per useful line. |
| PadsConvert.AddUsefulPads | ARESFileConverter/PADS.cs:290-322 | Appends the ALL-collapse pad or the per-line pads. |
| PadsConvert.AddAllPad | ARESFileConverter/PADS.cs:305-307 | Appends the All pad. |
| PadsConvert.AddTerminalPads | ARESFileConverter/PADS.cs:272-322 | One terminal: it binds a padstack, or warns and appends nothing. |
| PadsConvert.ProcessDecalPads | ARESFileConverter/PADS.cs:265-324 | The terminal loop appends every terminal's pads, in terminal order, and stops at the first abort. |
| PadsConvert.PADSToPcbDesign | ARESFileConverter/PADS.cs:156-178 | Builds a fresh design whose value and warnings are the specified conversion. |
| PadsConvert.ConvertDecal | ARESFileConverter/PADS.cs:159-171 | Pieces then pads fill an empty design. The one catch records an abort as a warning after the others. |
| PadsConvert.Parse | ARESFileConverter/PADS.cs:103-143 | Parsing succeeds or fails exactly as specified, and returns a fresh design with that value. |
| Ares7.LayerName | ARESFileConverter/ARES7.cs:105-127 | Every named layer has a name (DRL, BOT, TOP, I1, I2, ALL). Any other layer throws. |
| Ares7.UnitsName | ARESFileConverter/ARES7.cs:134-152 | Thou, mm, 10 nm and inch have names. The other units throw. |
| Ares7.GraphicsLayerName | ARESFileConverter/ARES7.cs:154-169 | Only BottomSilk and TopSilk have names. Boundary and Other throw. |
| Ares7.NamesDistinct | ARESFileConverter/ARES7.cs:80-169 | Each of the four tables gives distinct names to distinct values. |
| Ares7.PadRecordsFacts | ARESFileConverter/ARES7.cs:190-204 | The pad loop succeeds if and only if every pad's layer has a name. |
| Ares7.PadRecordsContents | ARESFileConverter/ARES7.cs:194-198 | On success there is one record per pad, in order, each that pad's record. |
| Ares7.PadRecordsFault | ARESFileConverter/ARES7.cs:196-202 | A failure is the `ArgumentException` of the first pad whose layer has no name. The catch for `NotImplementedException` does not absorb it. |
| Ares7.PadRecordsStop | ARESFileConverter/ARES7.cs:190-204 | Once a pad fails, later pads do not matter. |
| Ares7.LinesOutputFacts | ARESFileConverter/ARES7.cs:207-217 | A named graphics layer gives one record per line, with no warnings. An unnamed layer gives one warning per line and no records. |
| Ares7.GraphicsOutputCount | ARESFileConverter/ARES7.cs:205-218 | Records plus warnings equal the number of lines, and every warning is a skipped unnamed layer. |
| Ares7.Coordinates | ARESFileConverter/ARES7.cs:231 | The XY list of a trace record is X then Y of every point, in point order. |
| Ares7.TraceRecords | ARESFileConverter/ARES7.cs:228-232 | One record per trace, in order. |
| Ares7.NamedUpToAll | ARESFileConverter/ARES7.cs:225-234 | The layers met so far all have names. |
| Ares7.LayerBlocksUpTo | ARESFileConverter/ARES7.cs:225-234 | The layer loop's result is the blocks built so far, once every layer has a name. |
| Ares7.BlocksUpToAt | ARESFileConverter/ARES7.cs:225-234 | Block k is named after layer k and holds the buffer as it stands after layer k. |
| Ares7.FirstUnnamedAt | ARESFileConverter/ARES7.cs:233 | The first layer without a name makes the loop throw. |
| Ares7.LayerBlocksAccumulate | ARESFileConverter/ARES7.cs:220-234 | As written, a Top trace then a Bottom trace give a BOT block that holds both traces. |
| Ares7.IntendedBlocksOwnLayer | ARESFileConverter/ARES7.cs:224-234 | With the buffer cleared per layer, a block holds only traces on its own layer. |
| Ares7.IntendedBlocksCover | ARESFileConverter/ARES7.cs:224-234 | With the buffer cleared per layer, there is one block per distinct trace layer, and every trace is in its own layer's block. |
| Ares7.PreparedFacts | ARESFileConverter/ARES7.cs:184-185 | Before encoding, dimensions are in thou and coordinates in 10 nm. The design is otherwise unchanged in shape. |
| Ares7.WriteIdempotent | ARESFileConverter/ARES7.cs:184-185 | A second `Write` on the same design gives the same output, because both synchronizations are then no-ops. |
| Ares7.WriteHeader | ARESFileConverter/ARES7.cs:187 | The header always names 10 nm. `Write` fails only on an unconvertible unit or an unnamed layer. |
| Ares7.PreparedPads | ARESFileConverter/ARES7.cs:184-185 | Pad k of the synchronized design is pad k with its style in thou and its position in 10 nm. |
| Ares7.PadRecordConverted | ARESFileConverter/ARES7.cs:194-198 | The record of a synchronized pad is its converted record. |
| Ares7.WritePadRecord | ARESFileConverter/ARES7.cs:194-198 | Record k of a written file is pad k's record. Size 1 is Dimension1 (plus 10 on Drill). Size 2 is the drill when positive, else Dimension2. Flags default to "0 1". |
| Ares7.WriteObjectsCount | ARESFileConverter/ARES7.cs:190-218 | Objects plus warnings equal pads plus graphics lines. |
| Ares7.SameShapeTotalLines | ARESFileConverter/ARES7.cs:205-218 | Synchronization keeps the number of graphics lines. |
| Ares7.WriteLayerBlocks | ARESFileConverter/ARES7.cs:224-234 | There is one block per distinct trace layer, in first-occurrence order. Each block holds the accumulated buffer. |
| Ares7.Write | ARESFileConverter/ARES7.cs:181-237 | The output is the specified file of the synchronized design, and the design is left synchronized. |
| Ares7.Encode | ARESFileConverter/ARES7.cs:186-234 | Encoding a synchronized design gives the specified records. |
| Ares7.WritePads | ARESFileConverter/ARES7.cs:190-204 | The pad loop computes the pad records. |
| Ares7.WriteGraphics | ARESFileConverter/ARES7.cs:205-218 | The graphics loop computes the line records and warnings. |
| Ares7.WriteLines | ARESFileConverter/ARES7.cs:207-217 | One block's lines are appended. |
| Ares7.WriteLayers | ARESFileConverter/ARES7.cs:223-234 | The layer loop computes the layer blocks. |
| Ares7.WriteBlocks | ARESFileConverter/ARES7.cs:224-234 | The layer loop over a given layer list computes those layer blocks. |
| Ares7.AppendLayerTraces | ARESFileConverter/ARES7.cs:226-232 | Appends one layer's trace records to the buffer. |
| Ares7.AppendTraceRecords | ARESFileConverter/ARES7.cs:228-232 | Appends the records of the given traces, in order. |

## Left out

- **`ARESFileConverter/Program.cs`.**
  - `Main` is file and console I/O.
  - `Convert` is a two-case dispatcher.
  - `WarningListener` is a process-wide exception list, and its `ToString` formats .NET type names.
  - Warnings are instead returned as sequences of tags, in the order they are met.
- **Numeric text.**
  - `double.Parse`/`int.Parse` with the invariant culture are the `NumberParser` parameter.
  - `{0:F0}` rounding, default `double` printing and the thread-culture switch in `Write` are not modelled.
  - Records carry the numbers those formats print. This includes the `CSMT-{0:F0}` template printing only the first size.
- **Fixed text of the output.** The signature, `*HEADER`, `*OBJECTS` and `*VIAS` are not rendered. This includes the `TrimEnd` of line breaks.
- **Floating point.** Magnitudes are reals, so `double` rounding in the unit multipliers is not modelled.
- **Exception types and messages.** They are collapsed into the tags of `Diagnostics`.
- **Partial output.** A `Write` that throws half-way returns a `Failure`, not the partly built string.
- **Other PADS sections.** The decoder only indexes them and never decodes them.
- **List capacities** (`Capacity +=`). They do not change the lists' contents.
- **`PcbSilkLine` as an object.** A silk line is a value inside its graphics block. Its own `SetUnits`/`SetCoordinateUnits` (`ARESFileConverter/Pcb.cs:117-129`) are applied through the block's synchronization. Aliasing a silk line between blocks is not modelled; the decoder never does it.
- **`PcbTrace.Segments`.** It has no separate contract. The point count it returns is the `segments` field of a trace record.
- **The null-model catch in `AllLayerPattern`.** It never fires, because returning null does not throw. A missing custom model becomes a `CustomLayerModelMissing` abort where the pattern is used.
- **Failed synchronization.** `Pcb.PcbDesign.SynchronizeUnits`, `Pcb.PcbDesign.SynchronizeCoordinateUnits` and the `Pcb.PcbGraphics` synchronizations state their new state only on success. When a multiplier throws part-way, the entities converted before it are not described.
- **`Ares7.Write` on failure.** Likewise, the design's state is stated only when both synchronizations succeed.
- **`PadsSections.PartdecalCut`.** It states only the unit of a successful cut. The cut's text is stated by `CutHoldsOneSection` and its failures by `PartdecalMissingFails`.
- **`PadsDecal.HeaderEnd`.** It states only that the scans start inside the section.
- **`Text.IndexOf`: culture-sensitive matching is modelled as ordinal.** The source calls `string.IndexOf(string[, int])` without a `StringComparison`, which matches with the current culture's rules. Under those rules ignorable characters are skipped, and `"\r\n"` may not match a search for `"\n"`. The model matches character by character, so files with CRLF line breaks or ignorable characters may be indexed differently.
- **The `default:` branch of `ProcessDecalPieces`** (`ARESFileConverter/PADS.cs:201-204`). Its "Decal type ignored" warning is unreachable: a piece's type always comes from the three-entry type table, and the `PieceType` enum (`ARESFileConverter/PADS.cs:528-533`) has only Open, Closed and Copper.

## Findings

| source | as written | input that shows it | evidently intended | confidence | as-written member | corrected member |
|---|---|---|---|---|---|---|
| ARESFileConverter/ARES7.cs:220-234 | `temp` is cleared once, before the layer loop. Each `*LAYER` block therefore repeats the trace records of every earlier layer. | A design with trace t1 on Top, then trace t2 on Bottom. The BOT block holds t1 and t2. | Each block holds only the traces of its own layer. | not executed | Ares7.LayerBlocksAccumulate | Ares7.IntendedBlocksOwnLayer, Ares7.IntendedBlocksCover |
