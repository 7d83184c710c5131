/** The public face of namespace `gdaltypetraits`: `Convert<T>` with its `value`
    and `is_recognized` constants, and what the classification promises its users,
    who pass the code to GDAL as the pixel type of a buffer of `T`.
 */
module GdalTypeTraits {
  import opened Gdal
  import opened TypeDescription
  import Internal = GdalTypeTraitsInternal

  /** The two constants of `Convert<T>`. */
  datatype Conversion = Conversion(value: GDALDataType, isRecognized: bool)

  /** The types GDAL has a pixel type for, read off the specialisations directly:
      1-, 2- and 4-byte integers, 4- and 8-byte floating point numbers, and
      enumerations whose underlying type is a 1-, 2- or 4-byte integer. */
  predicate HasGDALCounterpart(t: Type) {
    || (IsIntegralOnly(t) && t.size in {1, 2, 4})
    || (IsFloatingPointOnly(t) && t.size in {4, 8})
    || (IsEnumOnly(t) && t.underlying.Some? && t.underlying.value.size in {1, 2, 4})
  }

  /** `Convert<T>`: the internal classification, and whether it found a GDAL type. */
  function Convert(t: Type): (c: Conversion)
    requires Internal.Convertible(t)
    ensures c.value == Internal.Convert(t)
    ensures c.isRecognized <==> c.value != Unknown
    ensures c.isRecognized <==> HasGDALCounterpart(t)
  {
    var value := Internal.Convert(t);
    Conversion(value, value != Unknown)
  }

  /** A floating point type is `Float32` at 4 bytes, `Float64` at 8 bytes and
      unknown at any other size, such as a 16-byte `long double`. */
  lemma FloatingPointBySize(t: Type)
    requires IsFloatingPointOnly(t)
    ensures Convert(t).value == (if t.size == 4 then Float32 else if t.size == 8 then Float64 else Unknown)
  {
  }

  /** Two integral types of the same size get the same code exactly when they agree
      in signedness, are one byte wide (both `Byte`) or have no code at all. */
  lemma IntegralSignedness(t1: Type, t2: Type)
    requires IsIntegralOnly(t1) && IsIntegralOnly(t2)
    requires t1.size == t2.size
    ensures Convert(t1).value == Convert(t2).value <==>
              t1.isSigned == t2.isSigned || t1.size == 1 || !Convert(t1).isRecognized
  {
  }

  /** An enumeration gets the code of its underlying integral type. */
  lemma EnumAsUnderlying(t: Type)
    requires IsEnumOnly(t)
    requires t.underlying.Some? && IsIntegralOnly(t.underlying.value)
    ensures Convert(t) == Convert(t.underlying.value)
  {
  }

  /** A type that is not in exactly one of the three categories, a pointer or a
      class for instance, is not recognized. */
  lemma UncategorisedIsUnknown(t: Type)
    requires !ExactlyOne(t.isIntegral, t.isFloatingPoint, t.isEnum)
    ensures Convert(t) == Conversion(Unknown, false)
  {
  }

  /** A recognized code describes pixels exactly as wide as the type (for an
      enumeration, as its underlying type), so a buffer of the type can be handed to
      GDAL with that code. */
  lemma RecognizedWidthMatches(t: Type)
    requires Internal.Convertible(t)
    requires Convert(t).isRecognized
    ensures SizeInBytes(Convert(t).value) == if IsEnumOnly(t) then t.underlying.value.size else t.size
  {
  }

  /** A recognized integer code wider than a byte is signed exactly when the type
      (for an enumeration, its underlying type) is signed. */
  lemma RecognizedSignednessMatches(t: Type)
    requires Internal.Convertible(t)
    requires IsIntegerCode(Convert(t).value) && Convert(t).value != Byte
    ensures IsSignedIntegerCode(Convert(t).value) <==>
              if IsEnumOnly(t) then t.underlying.value.isSigned else t.isSigned
  {
  }
}
