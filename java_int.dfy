/** Java's 32-bit int and the conversions into it that the source relies on. */
module JavaInt {
  /** Java's int. */
  newtype Int32 = x: int | -0x8000_0000 <= x < 0x8000_0000

  const MinInt: int := -0x8000_0000
  const MaxInt: int := 0x7FFF_FFFF

  /** The int with the same low 32 bits: a narrowing cast from long or BigInteger. */
  function Wrap(x: int): (r: Int32)
    ensures MinInt <= x <= MaxInt ==> r as int == x
    ensures (r as int - x) % 0x1_0000_0000 == 0
  {
    ((x + 0x8000_0000) % 0x1_0000_0000 - 0x8000_0000) as Int32
  }

  /** Java int addition, which wraps around on overflow. */
  function AddInt32(a: Int32, b: Int32): (r: Int32)
    ensures MinInt <= a as int + b as int <= MaxInt ==> r as int == a as int + b as int
    ensures (r as int - (a as int + b as int)) % 0x1_0000_0000 == 0
  {
    Wrap(a as int + b as int)
  }

  /** Rounding toward zero, as a cast from double to an integer does. */
  function Truncate(x: real): (r: int)
    ensures x >= 0.0 ==> 0 <= r && r as real <= x < r as real + 1.0
    ensures x < 0.0 ==> r <= 0 && r as real - 1.0 < x <= r as real
  {
    if x >= 0.0 then x.Floor else -((-x).Floor)
  }

  /** Double.intValue: rounds toward zero and saturates at the ends of the int range. */
  function DoubleIntValue(x: real): (r: Int32)
    ensures MinInt <= Truncate(x) <= MaxInt ==> r as int == Truncate(x)
    ensures Truncate(x) > MaxInt ==> r as int == MaxInt
    ensures Truncate(x) < MinInt ==> r as int == MinInt
  {
    var t := Truncate(x);
    if t > MaxInt then MaxInt as Int32 else if t < MinInt then MinInt as Int32 else t as Int32
  }

  /** A JSON number literal without a fraction or an exponent. */
  predicate IsIntegerLiteral(text: string) {
    forall i :: 0 <= i < |text| ==> text[i] != '.' && text[i] != 'e' && text[i] != 'E'
  }

  /** Number.intValue of a JSON number Jackson binds into a java.util.Map: a literal
      without a fraction or an exponent becomes an Integer, Long or BigInteger, whose
      intValue keeps the low 32 bits; any other literal ("5.0", "1e10") becomes a
      Double, whose intValue truncates and saturates. */
  function NumberIntValue(x: real, text: string): (r: Int32)
    ensures IsIntegerLiteral(text) && x == x.Floor as real ==> (r as int - x.Floor) % 0x1_0000_0000 == 0
    ensures IsIntegerLiteral(text) && x == x.Floor as real && MinInt <= x.Floor <= MaxInt ==> r as int == x.Floor
    ensures !IsIntegerLiteral(text) ==> r == DoubleIntValue(x)
  {
    if IsIntegerLiteral(text) && x == x.Floor as real then Wrap(x.Floor) else DoubleIntValue(x)
  }
}
