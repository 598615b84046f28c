/** The linear units of Pcb.cs and `PcbDesign.GetUnitConversionMultiplier`,
    which gives each unit's size in the common reference unit of 0.1 nm. */
module Units {
  import opened Outcomes

  datatype PcbUnits = Thou | Millimeter | TenNanometers | Inch | TwoThirdsOfNanometer | Arbitrary

  /** The multiplier to 0.1 nm, a `double`, or None where the source throws
      `ArgumentException("Bad coordinate units.")`.  The entry for two thirds of
      a nanometre is the C# integer expression `20 / 3`, which is 6. */
  function Multiplier(u: PcbUnits): (m: Option<real>)
    ensures m.Some? <==> u != Arbitrary
    ensures m.Some? ==> m.value > 0.0
  {
    match u
    case Thou => Some(254000.0)
    case Millimeter => Some(10000000.0)
    case TenNanometers => Some(100.0)
    case Inch => Some(254000000.0)
    case TwoThirdsOfNanometer => Some((20 / 3) as real)
    case Arbitrary => None
  }

  predicate Convertible(u: PcbUnits)
  {
    Multiplier(u).Some?
  }

  /** `mult` of every `SetUnits`: multiplier(from) / multiplier(to), computed
      over the reals. */
  function Factor(from: PcbUnits, to: PcbUnits): (f: real)
    requires Convertible(from) && Convertible(to)
    ensures f > 0.0
  {
    Multiplier(from).value / Multiplier(to).value
  }

  /** A magnitude in `from` re-expressed in `to`. */
  function Convert(x: real, from: PcbUnits, to: PcbUnits): real
    requires Convertible(from) && Convertible(to)
  {
    x * Factor(from, to)
  }

  lemma FactorSame(u: PcbUnits)
    requires Convertible(u)
    ensures Factor(u, u) == 1.0
  {
  }

  /** Converting to the unit a value is already in changes nothing. */
  lemma ConvertSame(x: real, u: PcbUnits)
    requires Convertible(u)
    ensures Convert(x, u, u) == x
  {
    FactorSame(u);
  }

  /** Converting u -> v -> u gives back the original magnitude.  The proof
      goes unit by unit, where both factors are constants. */
  lemma ConvertRoundTrip(x: real, u: PcbUnits, v: PcbUnits)
    requires Convertible(u) && Convertible(v)
    ensures Convert(Convert(x, u, v), v, u) == x
  {
    match u
    case Thou =>
      match v {
        case Thou =>
        case Millimeter =>
        case TenNanometers =>
        case Inch =>
        case TwoThirdsOfNanometer =>
      }
    case Millimeter =>
      match v {
        case Thou =>
        case Millimeter =>
        case TenNanometers =>
        case Inch =>
        case TwoThirdsOfNanometer =>
      }
    case TenNanometers =>
      match v {
        case Thou =>
        case Millimeter =>
        case TenNanometers =>
        case Inch =>
        case TwoThirdsOfNanometer =>
      }
    case Inch =>
      match v {
        case Thou =>
        case Millimeter =>
        case TenNanometers =>
        case Inch =>
        case TwoThirdsOfNanometer =>
      }
    case TwoThirdsOfNanometer =>
      match v {
        case Thou =>
        case Millimeter =>
        case TenNanometers =>
        case Inch =>
        case TwoThirdsOfNanometer =>
      }
  }
}
