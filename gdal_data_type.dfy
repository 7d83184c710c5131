/** The pixel data types of GDAL's `GDALDataType` enumeration (declared in gdal.h)
    that the type traits can produce. GDAL declares more constants (complex types,
    among others); no primitive type is ever mapped to those, so they are not listed.
 */
module Gdal {

  datatype GDALDataType =
    | Unknown   // GDT_Unknown: no GDAL counterpart
    | Byte      // GDT_Byte: 8-bit integer
    | UInt16    // GDT_UInt16
    | Int16     // GDT_Int16
    | UInt32    // GDT_UInt32
    | Int32     // GDT_Int32
    | Float32   // GDT_Float32
    | Float64   // GDT_Float64

  /** The codes of GDAL's integer pixel types. */
  predicate IsIntegerCode(c: GDALDataType) {
    c.Byte? || c.UInt16? || c.Int16? || c.UInt32? || c.Int32?
  }

  /** The codes of GDAL's floating point pixel types. */
  predicate IsFloatCode(c: GDALDataType) {
    c.Float32? || c.Float64?
  }

  /** The codes of GDAL's signed integer pixel types. */
  predicate IsSignedIntegerCode(c: GDALDataType) {
    c.Int16? || c.Int32?
  }

  /** The width in bytes of one pixel of each type, as the constants' names state;
      `Unknown` has none. */
  function SizeInBytes(c: GDALDataType): nat {
    match c
    case Unknown => 0
    case Byte => 1
    case UInt16 | Int16 => 2
    case UInt32 | Int32 | Float32 => 4
    case Float64 => 8
  }
}
