# gdal-type-traits in Dafny

A model of `gdaltypetraits`, a header-only C++ library. It maps a primitive C++ type to
the constant of GDAL's `GDALDataType` enumeration that describes rasters of that type.
The result is a compile-time constant, so generic raster code can pass its element type
to GDAL. The C++ version picks the constant through nested class template
specialisations. The model describes a type by what the standard type traits report
about it: the three category flags (`is_integral`, `is_floating_point`, `is_enum`), its
signedness, its size in bytes and, for an enumeration, its underlying type. The model
then classifies that description with pure functions:

- `Specialisation` models how a class template with specialisations picks its constant.
  The template is a table of (template arguments, constant) pairs. It falls back to the
  primary template's constant when no entry matches.
- `Gdal` holds the eight `GDALDataType` constants the header uses. It also gives each
  constant's pixel width and says whether the constant is signed.
- `TypeDescription` is the description of a C++ type.
- `GdalTypeTraitsInternal` models namespace `internal`: `FloatToGDAL`, `IntegralToGDAL`,
  the dispatch `BuiltInToGDAL` (the primary template and its three partial
  specialisations) and `internal::Convert`.
- `GdalTypeTraits` models the public `Convert<T>` with `value` and `is_recognized`, and
  the properties users rely on.
- `GdalTypeTraitsTest` restates the header's `static_assert` tests as lemmas.

The three category flags are kept independent. A description with none of them set (a
pointer, a class) or with more than one set reaches the primary `BuiltInToGDAL` and
gives `Unknown`. The header checks with `static_assert` that an enumeration's underlying
type is integral. The model turns that check into the precondition `Instantiable` /
`Convertible`. It applies only when the enumeration specialisation is selected, which is
the only case where the C++ check runs.

## Model

| member | source | states |
|---|---|---|
| `Specialisation.Instantiate` | gdal_type_traits.hpp:81-114 | Arguments with no matching specialisation give the primary template's constant. Arguments that do match give the constant of a specialisation declared for exactly those arguments. |
| `Specialisation.InstantiateSelects` | gdal_type_traits.hpp:98-114 | In a table with no duplicate keys, each specialisation is selected by its own arguments and gives its own constant, wherever it stands in the table. |
| `GdalTypeTraitsInternal.FloatToGDAL` | gdal_type_traits.hpp:81-89 | `Float32` if and only if the size is 4. `Float64` if and only if the size is 8. `Unknown` for every other size. Never an integer code. |
| `GdalTypeTraitsInternal.IntegralToGDAL` | gdal_type_traits.hpp:94-114 | `Byte` if and only if the size is 1, whatever the signedness. Size 2 gives `UInt16` or `Int16` by signedness, and size 4 gives `UInt32` or `Int32`. Every other size, including 8, gives `Unknown`. Never a float code. |
| `GdalTypeTraitsInternal.SelectBuiltIn` | gdal_type_traits.hpp:122-150 | Each of the three partial specialisations is selected exactly when its one flag is set and the other two are clear. The primary template is selected for every other combination. |
| `GdalTypeTraitsInternal.BuiltInToGDAL` | gdal_type_traits.hpp:119-150 | Integral flags give `IntegralToGDAL(size, signed)`. Float flags give `FloatToGDAL(size)`. Enumeration flags give `IntegralToGDAL` of the underlying type's size and signedness. Any other flag combination gives `Unknown`. |
| `GdalTypeTraitsInternal.SpecialisationsSelected` | gdal_type_traits.hpp:85-114 | No table declares the same arguments twice. Every explicit specialisation of `FloatToGDAL` and `IntegralToGDAL` is reached by its own arguments, so none is shadowed. |
| `GdalTypeTraitsInternal.Convert` | gdal_type_traits.hpp:154-159 | A float code comes only from a floating point type of size 4 or 8. An integer code comes only from an integral type or an enumeration. A type not in exactly one category gives `Unknown`. |
| `GdalTypeTraits.Convert` | gdal_type_traits.hpp:166-177 | `value` is the internal classification. `is_recognized` holds if and only if `value` is not `Unknown`. It also holds if and only if the type is a 1-, 2- or 4-byte integer, a 4- or 8-byte floating point type, or an enumeration over a 1-, 2- or 4-byte integer. |
| `GdalTypeTraits.FloatingPointBySize` | gdal_type_traits.hpp:134-138 | A floating point type gives `Float32` at 4 bytes, `Float64` at 8 bytes and `Unknown` otherwise, for example a 16-byte `long double`. |
| `GdalTypeTraits.IntegralSignedness` | gdal_type_traits.hpp:98-114 | Two integral types of equal size get the same code if and only if one of these holds: they agree in signedness, they are one byte wide, or neither is recognized. |
| `GdalTypeTraits.EnumAsUnderlying` | gdal_type_traits.hpp:140-150 | An enumeration converts exactly as its underlying integral type does, with the same value and the same recognition. |
| `GdalTypeTraits.UncategorisedIsUnknown` | gdal_type_traits.hpp:119-125 | A type in none or several of the three categories converts to `Unknown` and is not recognized. |
| `GdalTypeTraits.RecognizedWidthMatches` | gdal_type_traits.hpp:29-48 | A recognized code's pixel width equals the type's size in bytes. For an enumeration it equals the underlying type's size. So a buffer of the type can be passed to GDAL with that code. |
| `GdalTypeTraits.RecognizedSignednessMatches` | gdal_type_traits.hpp:104-114 | A recognized integer code other than `Byte` is signed if and only if the type, or an enumeration's underlying type, is signed. |
| `GdalTypeTraitsTest.BasicTypes` | gdal_type_traits.hpp:184-192 | `int8_t` and `uint8_t` map to `Byte`. `int16_t`, `int32_t`, `uint16_t` and `uint32_t` map to their own codes. A 4-byte `float_t` maps to `Float32` and an 8-byte `double_t` to `Float64`. |
| `GdalTypeTraitsTest.BadType` | gdal_type_traits.hpp:194-197 | `void*` maps to `Unknown` and is not recognized, at any pointer size. `int8_t` is recognized. |
| `GdalTypeTraitsTest.EnumerationLogic` | gdal_type_traits.hpp:199-203 | An enumeration over `int8_t` maps to `Byte`. An enumeration over `uint32_t` maps to `UInt32`. |
| `GdalTypeTraitsTest.BooleanAndInt64` | gdal_type_traits.hpp:94-102 | A one-byte unsigned integral type such as `bool` maps to `Byte`. 8-byte integers are not recognized. |

## Left out

- The C++ type system is not modelled. The results of `std::is_integral`, `std::is_floating_point`, `std::is_enum`, `std::is_signed`, `sizeof` and `std::underlying_type` are fields of `TypeDescription.Type`. The model does not require the three categories to be exclusive, because the header does not rely on that.
- Platform-dependent sizes are inputs: `sizeof(bool)`, `float_t`, `double_t` and pointer size. The test lemmas use the sizes the tests assume (`float_t` 4, `double_t` 8, `bool` 1) or take the size as a parameter (`void*`).
- The `CHAR_BIT == 8` static assertion (gdal_type_traits.hpp:76-78) is not modelled. Sizes are counted in 8-bit bytes throughout.
- `static_assert` compile-time rejection is modelled as preconditions (`Instantiable`, `Convertible`), not as an error result. In C++ an instantiation that fails the check does not compile at all.
- GDAL itself (`gdal.h`) is not part of this model. Only the eight enumeration constants the header uses are modelled. Their pixel widths come from the constants' names.
- The `RasterIO` usage example in the header comment (gdal_type_traits.hpp:35-48) is I/O into GDAL and is not modelled. `RecognizedWidthMatches` states only the property that the example relies on.
