/** What the converter reports besides its result.  A `Warning` is one entry
    the converter adds to its warning list, kept in the order the entries are
    added; a `Fault` is an exception that no catch of the converter absorbs,
    so the operation that raised it has no result. */
module Diagnostics {
  import opened Units
  import opened PcbValues

  /** Why the catch around the decal processing fired. */
  datatype AbortCause =
    | ShapeNotImplemented      // an Odd or OvalFinger stackline
    | MissingArgument          // Annular without InternalDiameter, RectangularFinger without FingerLength
    | EmptyPolyline            // an OPEN or CLOSED piece without points
    | CustomLayerModelMissing  // the custom layer model is null when the layer-ALL check needs it

  datatype Warning =
    | SectionUnreadable           // the PARTDECAL substring or its header could not be read
    | PieceUnreadable             // one piece definition threw
    | PadStackUnreadable          // one padstack definition threw
    | TerminalUnreadable          // one terminal line threw
    | DecalAborted(cause: AbortCause)
    | DefaultGraphicsLayer(code: int)
    | DefaultLineType(code: int)
    | NoPadstack(designator: string)
    | PartialLayerRecognition(code: int)
    | FingerArgumentsIgnored
    | GraphicsLayerSkipped(layer: PcbGraphicsLayer)

  datatype Fault =
    | HeaderUnreadable            // no '!' after the first character, or an unknown header unit
    | SectionOffsetOutOfRange     // a section start adjusted past the end of the text
    | PartdecalMissing            // no *PARTDECAL* marker
    | UnitsNotConvertible         // a unit synchronization met a unit without multiplier
    | LayerNotNamed(layer: PcbLayer)
    | UnitsNotNamed(units: PcbUnits)
}
