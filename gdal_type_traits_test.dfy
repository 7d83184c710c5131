/** The compile-time tests of namespace `gdaltypetraits::test`, as lemmas over the
    descriptions of the types they name. Sizes that depend on the platform are those
    the tests assume (`float_t` of 4 bytes, `double_t` of 8) or are parameters.
 */
module GdalTypeTraitsTest {
  import opened Gdal
  import opened TypeDescription
  import opened GdalTypeTraits

  function Integral(size: nat, isSigned: bool): Type {
    Type(true, false, false, isSigned, size, None)
  }

  function Floating(size: nat): Type {
    Type(false, true, false, true, size, None)
  }

  function Enumeration(underlying: Type): Type {
    Type(false, false, true, underlying.isSigned, underlying.size, Some(underlying))
  }

  const Int8T := Integral(1, true)
  const Int16T := Integral(2, true)
  const Int32T := Integral(4, true)
  const UInt8T := Integral(1, false)
  const UInt16T := Integral(2, false)
  const UInt32T := Integral(4, false)
  const FloatT := Floating(4)
  const DoubleT := Floating(8)

  /** `void*`: in none of the three categories, whatever a pointer's size. */
  function VoidPointer(pointerSize: nat): Type {
    Type(false, false, false, false, pointerSize, None)
  }

  /** `enum EnumInt8 : int8_t` and `enum EnumUInt32 : uint32_t`. */
  const EnumInt8 := Enumeration(Int8T)
  const EnumUInt32 := Enumeration(UInt32T)

  lemma BasicTypes()
    ensures Convert(Int8T).value == Byte
    ensures Convert(Int16T).value == Int16
    ensures Convert(Int32T).value == Int32
    ensures Convert(UInt8T).value == Byte
    ensures Convert(UInt16T).value == UInt16
    ensures Convert(UInt32T).value == UInt32
    ensures Convert(FloatT).value == Float32
    ensures Convert(DoubleT).value == Float64
  {
  }

  lemma BadType(pointerSize: nat)
    ensures Convert(VoidPointer(pointerSize)).value == Unknown
    ensures !Convert(VoidPointer(pointerSize)).isRecognized
    ensures Convert(Int8T).isRecognized
  {
  }

  lemma EnumerationLogic()
    ensures Convert(EnumInt8).value == Byte
    ensures Convert(EnumUInt32).value == UInt32
  {
  }

  /** `bool` is integral and unsigned; on the usual platforms where it occupies one
      byte it maps to `Byte`, and `int64_t` has no GDAL code. */
  lemma BooleanAndInt64()
    ensures Convert(Integral(1, false)).value == Byte
    ensures !Convert(Integral(8, true)).isRecognized
    ensures !Convert(Integral(8, false)).isRecognized
  {
  }
}
