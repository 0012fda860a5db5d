/**
 Decoding of the inspector's literal `gridValues` string into the noise values
 that the debug noise kernel uploads when `useSetNoise` is on.
 */
module LiteralGrid {
  import opened Vectors
  import opened UnityMath
  import Sizing

  datatype Option<T> = None | Some(value: T)

  /** The value used for every grid point past the end of the literal string. */
  const Fallback: real := 1.0

  /** A UTF-16 code unit: what a C# `char` holds. */
  type CodeUnit = c: int | 0 <= c < 0x1_0000

  /**
   A C# string, as `string.Length` and `s[i]` see it: a sequence of UTF-16 code
   units. A character outside the Basic Multilingual Plane takes two of them.
   */
  type Utf16String = seq<CodeUnit>

  /** Every character of `s` lies in the Basic Multilingual Plane, so fits one code unit. */
  predicate InBasicPlane(s: string)
  {
    forall i :: 0 <= i < |s| ==> s[i] as int < 0x1_0000
  }

  /**
   The UTF-16 encoding of a string of Unicode characters, as C# stores it. A
   string within the Basic Multilingual Plane takes one unit per character,
   unit `i` being character `i`.
   */
  function Utf16(s: string): (units: Utf16String)
    ensures |units| >= |s|
    ensures InBasicPlane(s) ==> |units| == |s| && forall i :: 0 <= i < |s| ==> units[i] == s[i] as int
  {
    if s == [] then []
    else
      var v := s[0] as int;
      (if v < 0x1_0000 then [v as CodeUnit]
       else [(0xD800 + (v - 0x1_0000) / 0x400) as CodeUnit, (0xDC00 + (v - 0x1_0000) % 0x400) as CodeUnit])
      + Utf16(s[1..])
  }

  predicate IsDigit(c: CodeUnit)
  {
    '0' as int <= c <= '9' as int
  }

  /** One half of a surrogate pair. */
  predicate IsSurrogate(c: CodeUnit)
  {
    0xD800 <= c <= 0xDFFF
  }

  /**
   `char.GetNumericValue` of one code unit: a decimal digit gives its value,
   and every other ASCII unit and every surrogate half gives -1. Other units
   take their value from the Unicode character database, which is the
   parameter `unicodeNumeric`.
   */
  function NumericValue(c: CodeUnit, unicodeNumeric: CodeUnit -> real): (v: real)
    ensures c < 128 ==> (v >= 0.0 <==> IsDigit(c))
    ensures IsDigit(c) ==> 0.0 <= v <= 9.0
    ensures IsSurrogate(c) ==> v == -1.0
  {
    if IsDigit(c) then (c - '0' as int) as real
    else if c < 128 || IsSurrogate(c) then -1.0
    else unicodeNumeric(c)
  }

  /**
   A character outside the Basic Multilingual Plane occupies two positions of
   the string, and each of them decodes to -1, whatever the character.
   */
  lemma AstralCharacterDecodesTwice(c: char, unicodeNumeric: CodeUnit -> real)
    requires c as int >= 0x1_0000
    ensures |Utf16([c])| == 2
    ensures NumericValue(Utf16([c])[0], unicodeNumeric) == -1.0
    ensures NumericValue(Utf16([c])[1], unicodeNumeric) == -1.0
  {
    assert [c][1..] == [];
  }

  /**
   The number of values `StringArrayToFloat` produces:
   `Mathf.RoundToInt((gridSize.x + 1) * (gridSize.y + 1) * (gridSize.z + 1))`.
   */
  function LiteralPointCount(gridSize: Vector3): (count: int)
    ensures count > 0 <==> Product(Plus(gridSize, One)) > 0.5
  {
    RoundToInt(Product(Plus(gridSize, One)))
  }

  /** On a grid of whole sizes this is one more than each size, multiplied out. */
  lemma LiteralPointCountOfIntegral(nx: int, ny: int, nz: int)
    ensures LiteralPointCount(Sizing.Grid(nx, ny, nz)) == (nx + 1) * (ny + 1) * (nz + 1)
  {
    var points := Plus(Sizing.Grid(nx, ny, nz), One);
    Sizing.ProductOfWhole(points, nx + 1, ny + 1, nz + 1);
    ConversionsOfWhole(Product(points), (nx + 1) * (ny + 1) * (nz + 1));
  }

  /** Value of grid point `i`: the digit at position `i` if the string reaches it, else the fallback. */
  function PointValue(gridValues: Utf16String, i: nat, unicodeNumeric: CodeUnit -> real): real
  {
    if i < |gridValues| then NumericValue(gridValues[i], unicodeNumeric) else Fallback
  }

  /**
   `StringArrayToFloat`. Allocating `new float[n]` with a negative `n` throws;
   that is the `None` outcome. Otherwise the result has one value per grid point,
   read from the string where it is long enough and the fallback past its end.
   */
  method StringArrayToFloat(gridSize: Vector3, gridValues: Utf16String, unicodeNumeric: CodeUnit -> real)
    returns (vals: Option<array<real>>)
    ensures vals.None? <==> LiteralPointCount(gridSize) < 0
    ensures vals.Some? ==> vals.value[..] == LiteralValues(gridValues, LiteralPointCount(gridSize), unicodeNumeric)
  {
    var gridPointsNumber := LiteralPointCount(gridSize);
    if gridPointsNumber < 0 {
      return None;
    }
    var a := new real[gridPointsNumber];
    var i := 0;
    while i < a.Length
      invariant 0 <= i <= a.Length
      invariant forall k :: 0 <= k < i ==> a[k] == PointValue(gridValues, k, unicodeNumeric)
    {
      a[i] := if |gridValues| > i then NumericValue(gridValues[i], unicodeNumeric) else 1.0;
      i := i + 1;
    }
    return Some(a);
  }

  /** The literal values as a sequence: what the decoded array holds. */
  function LiteralValues(gridValues: Utf16String, count: nat, unicodeNumeric: CodeUnit -> real): (vals: seq<real>)
    ensures |vals| == count
    ensures forall i :: 0 <= i < count ==> vals[i] == PointValue(gridValues, i, unicodeNumeric)
  {
    seq(count, i requires 0 <= i < count => PointValue(gridValues, i, unicodeNumeric))
  }

  /**
   A string of decimal digits decodes to values between 0 and 9, each point
   within the string taking the value of its own digit.
   */
  lemma {:induction false} DigitStringValues(gridValues: Utf16String, count: nat, unicodeNumeric: CodeUnit -> real)
    requires forall j :: 0 <= j < |gridValues| ==> IsDigit(gridValues[j])
    ensures forall i :: 0 <= i < count ==>
              0.0 <= LiteralValues(gridValues, count, unicodeNumeric)[i] <= 9.0
    ensures forall i :: 0 <= i < count && i < |gridValues| ==>
              LiteralValues(gridValues, count, unicodeNumeric)[i] == (gridValues[i] - '0' as int) as real
  {
  }

  /**
   A literal of decimal digits, as typed into the inspector, decodes to values
   between 0 and 9, each point within the literal taking its own digit.
   */
  lemma DigitLiteralValues(literal: string, count: nat, unicodeNumeric: CodeUnit -> real)
    requires forall j :: 0 <= j < |literal| ==> '0' <= literal[j] <= '9'
    ensures forall i :: 0 <= i < count ==>
              0.0 <= LiteralValues(Utf16(literal), count, unicodeNumeric)[i] <= 9.0
    ensures forall i :: 0 <= i < count && i < |literal| ==>
              LiteralValues(Utf16(literal), count, unicodeNumeric)[i] == (literal[i] as int - '0' as int) as real
  {
    var units := Utf16(literal);
    assert InBasicPlane(literal);
    DigitStringValues(units, count, unicodeNumeric);
  }

  /**
   The short-source example: "11" with `gridSize` (1, 1, 1), for which the
   decoder's count `(1+1)^3` is eight, gives eight ones: two from the digits
   and six from the fallback. (Such a grid has no cells; see `OneCellGridFallsBack`.)
   */
  lemma ShortSourceFallsBack(unicodeNumeric: CodeUnit -> real)
    ensures LiteralPointCount(Vector3(1.0, 1.0, 1.0)) == 8
    ensures LiteralValues(Utf16("11"), 8, unicodeNumeric) == [1.0, 1.0, 1.0, 1.0, 1.0, 1.0, 1.0, 1.0]
  {
    var source := Utf16("11");
    assert InBasicPlane("11");
    var vs := LiteralValues(source, 8, unicodeNumeric);
    LiteralPointCountOfIntegral(1, 1, 1);
    assert vs[0] == NumericValue('1' as int, unicodeNumeric) == 1.0;
    assert vs[1] == NumericValue('1' as int, unicodeNumeric) == 1.0;
  }

  /**
   The same source on a grid of one cell, `gridSize` (2, 2, 2): the decoder
   asks for 27 values, so two come from the digits and 25 from the fallback,
   all of them one.
   */
  lemma OneCellGridFallsBack(unicodeNumeric: CodeUnit -> real)
    ensures LiteralPointCount(Vector3(2.0, 2.0, 2.0)) == 27
    ensures LiteralValues(Utf16("11"), 27, unicodeNumeric) == seq(27, i => 1.0)
  {
    var source := Utf16("11");
    assert InBasicPlane("11");
    assert source == ['1' as int, '1' as int];
    LiteralPointCountOfIntegral(2, 2, 2);
    var vs := LiteralValues(source, 27, unicodeNumeric);
    forall i | 0 <= i < 27
      ensures vs[i] == 1.0
    {
      if i < 2 {
        assert vs[i] == NumericValue('1' as int, unicodeNumeric);
      }
    }
  }
}
