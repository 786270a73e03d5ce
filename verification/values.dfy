/**
 * Swift's `Any`, as far as the dictionaries of this model need it: a tagged
 * union whose tag decides which `as?` casts succeed.
 */
module Values {

  /** A 32-bit IEEE float, kept as its bit pattern; the model does no arithmetic on it. */
  datatype Float = Float(bits: bv32)

  /** `0` as a Swift `Float` (all bits clear). */
  const FloatZero: Float := Float(0)

  /**
   * A value of type `Any?`. `NilValue` is the absent optional; `OtherValue`
   * stands for any value of a type no cast in the model asks for (an enum
   * case, a date, ...), told apart by an opaque identity.
   */
  datatype Value =
    | BoolValue(b: bool)
    | StringValue(s: string)
    | FloatValue(f: Float)
    | IntValue(i: int)
    | NilValue
    | OtherValue(id: nat)
}
