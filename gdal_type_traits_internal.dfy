/** The template hierarchy of namespace `gdaltypetraits::internal`: the float and
    integral tables, the dispatch on the three primary type categories, and the
    internal `Convert` that starts it. Each class template is its table of
    specialisations plus the constant of its primary template.
 */
module GdalTypeTraitsInternal {
  import opened Gdal
  import opened TypeDescription
  import Specialisation

  /** The explicit specialisations of `FloatToGDAL<FloatSize>`. */
  const FloatSpecialisations: seq<(nat, GDALDataType)> := [(4, Float32), (8, Float64)]

  /** The GDAL code of a floating point type of `floatSize` bytes. */
  function FloatToGDAL(floatSize: nat): (r: GDALDataType)
    ensures r == Float32 <==> floatSize == 4
    ensures r == Float64 <==> floatSize == 8
    ensures r == Unknown <==> floatSize != 4 && floatSize != 8
    ensures IsFloatCode(r) || r == Unknown
  {
    Specialisation.Instantiate(FloatSpecialisations, Unknown, floatSize)
  }

  /** The explicit specialisations of `IntegralToGDAL<IntegralSize, IsSigned>`. */
  const IntegralSpecialisations: seq<((nat, bool), GDALDataType)> := [
    ((1, false), Byte),
    ((1, true), Byte),
    ((2, false), UInt16),
    ((2, true), Int16),
    ((4, false), UInt32),
    ((4, true), Int32)
  ]

  /** The GDAL code of an integral type of `integralSize` bytes and the given
      signedness. One-byte integers share `Byte`; there is no 64-bit code. */
  function IntegralToGDAL(integralSize: nat, isSigned: bool): (r: GDALDataType)
    ensures r == Byte <==> integralSize == 1
    ensures r == UInt16 <==> integralSize == 2 && !isSigned
    ensures r == Int16 <==> integralSize == 2 && isSigned
    ensures r == UInt32 <==> integralSize == 4 && !isSigned
    ensures r == Int32 <==> integralSize == 4 && isSigned
    ensures r == Unknown <==> integralSize != 1 && integralSize != 2 && integralSize != 4
    ensures IsIntegerCode(r) || r == Unknown
  {
    Specialisation.Instantiate(IntegralSpecialisations, Unknown, (integralSize, isSigned))
  }

  /** The class templates that `BuiltInToGDAL<IsIntegral, IsFloat, IsEnum, T>`
      can resolve to: its primary template or one of its three partial
      specialisations. */
  datatype BuiltInSpecialisation =
    | PrimaryTemplate
    | IntegralSpecialisation
    | FloatSpecialisation
    | EnumSpecialisation

  /** The partial specialisations of `BuiltInToGDAL`, keyed by the three flags. */
  const BuiltInSpecialisations: seq<((bool, bool, bool), BuiltInSpecialisation)> := [
    ((true, false, false), IntegralSpecialisation),
    ((false, true, false), FloatSpecialisation),
    ((false, false, true), EnumSpecialisation)
  ]

  /** Which definition of `BuiltInToGDAL` the flags select: a partial
      specialisation when exactly one flag is set, the primary template otherwise. */
  function SelectBuiltIn(isIntegral: bool, isFloat: bool, isEnum: bool): (s: BuiltInSpecialisation)
    ensures s == IntegralSpecialisation <==> isIntegral && !isFloat && !isEnum
    ensures s == FloatSpecialisation <==> !isIntegral && isFloat && !isEnum
    ensures s == EnumSpecialisation <==> !isIntegral && !isFloat && isEnum
    ensures s == PrimaryTemplate <==> !ExactlyOne(isIntegral, isFloat, isEnum)
  {
    Specialisation.Instantiate(BuiltInSpecialisations, PrimaryTemplate, (isIntegral, isFloat, isEnum))
  }

  /** The compiler accepts `BuiltInToGDAL<IsIntegral, IsFloat, IsEnum, T>`: when the
      enumeration specialisation is selected, `T` has an underlying type and the
      static assertion that it is integral holds. */
  predicate Instantiable(isIntegral: bool, isFloat: bool, isEnum: bool, t: Type) {
    !isIntegral && !isFloat && isEnum ==> t.underlying.Some? && t.underlying.value.isIntegral
  }

  /** `BuiltInToGDAL<IsIntegral, IsFloat, IsEnum, T>::value`. An enumeration is
      classified as its underlying type with the flags of an integral type. */
  function BuiltInToGDAL(isIntegral: bool, isFloat: bool, isEnum: bool, t: Type): (r: GDALDataType)
    requires Instantiable(isIntegral, isFloat, isEnum, t)
    decreases t
    ensures !ExactlyOne(isIntegral, isFloat, isEnum) ==> r == Unknown
    ensures isIntegral && !isFloat && !isEnum ==> r == IntegralToGDAL(t.size, t.isSigned)
    ensures !isIntegral && isFloat && !isEnum ==> r == FloatToGDAL(t.size)
    ensures !isIntegral && !isFloat && isEnum ==>
              r == IntegralToGDAL(t.underlying.value.size, t.underlying.value.isSigned)
  {
    match SelectBuiltIn(isIntegral, isFloat, isEnum)
    case PrimaryTemplate => Unknown
    case IntegralSpecialisation => IntegralToGDAL(t.size, t.isSigned)
    case FloatSpecialisation => FloatToGDAL(t.size)
    case EnumSpecialisation => BuiltInToGDAL(true, false, false, t.underlying.value)
  }

  /** The compiler refuses two specialisations for the same arguments; none of the
      three tables declares one twice, and so no specialisation is shadowed: each is
      selected by exactly its own arguments. */
  lemma SpecialisationsSelected()
    ensures Specialisation.DistinctKeys(FloatSpecialisations)
    ensures Specialisation.DistinctKeys(IntegralSpecialisations)
    ensures Specialisation.DistinctKeys(BuiltInSpecialisations)
    ensures forall i :: 0 <= i < |FloatSpecialisations| ==>
              FloatToGDAL(FloatSpecialisations[i].0) == FloatSpecialisations[i].1
    ensures forall i :: 0 <= i < |IntegralSpecialisations| ==>
              IntegralToGDAL(IntegralSpecialisations[i].0.0, IntegralSpecialisations[i].0.1)
                == IntegralSpecialisations[i].1
  {
  }

  /** The compiler accepts `internal::Convert<T>`. */
  predicate Convertible(t: Type) {
    Instantiable(t.isIntegral, t.isFloatingPoint, t.isEnum, t)
  }

  /** `internal::Convert<T>::value`: `BuiltInToGDAL` instantiated with the type's own
      category flags. Float codes come only from floating point types, integer codes
      only from integral types and enumerations. */
  function Convert(t: Type): (r: GDALDataType)
    requires Convertible(t)
    ensures IsFloatCode(r) ==> IsFloatingPointOnly(t) && (t.size == 4 || t.size == 8)
    ensures IsIntegerCode(r) ==> IsIntegralOnly(t) || IsEnumOnly(t)
    ensures !ExactlyOne(t.isIntegral, t.isFloatingPoint, t.isEnum) ==> r == Unknown
  {
    BuiltInToGDAL(t.isIntegral, t.isFloatingPoint, t.isEnum, t)
  }
}
