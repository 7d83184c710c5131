/** What the C++ standard type traits report about a type `T`: the three primary
    category tests (`std::is_integral`, `std::is_floating_point`, `std::is_enum`),
    `std::is_signed`, `sizeof(T)` in bytes and, for an enumeration,
    `std::underlying_type<T>`. The classifier looks at nothing else, so a type is
    described by these values alone. The flags are kept independent: a pointer or a
    class has all three false, and a combination the language never produces is still
    a description the classifier must answer for.
 */
module TypeDescription {

  datatype Option<T> = None | Some(value: T)

  datatype Type = Type(
    isIntegral: bool,
    isFloatingPoint: bool,
    isEnum: bool,
    isSigned: bool,
    size: nat,
    underlying: Option<Type>)

  /** Exactly one of the three category flags is set. */
  predicate ExactlyOne(a: bool, b: bool, c: bool) {
    (a && !b && !c) || (!a && b && !c) || (!a && !b && c)
  }

  predicate IsIntegralOnly(t: Type) {
    t.isIntegral && !t.isFloatingPoint && !t.isEnum
  }

  predicate IsFloatingPointOnly(t: Type) {
    !t.isIntegral && t.isFloatingPoint && !t.isEnum
  }

  predicate IsEnumOnly(t: Type) {
    !t.isIntegral && !t.isFloatingPoint && t.isEnum
  }
}
