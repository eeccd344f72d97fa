/** The JavaScript values a Pin is built from, their truthiness, and the mode constants. */
module PinTypes {

  datatype Option<T> = None | Some(value: T)

  /** A Pin's constructor argument, and every value it takes an address from:
      `undefined`, a number, a string, or an options object with the fields
      the constructor looks at (`addr`, `pin`, `as`, `mode`, `freq`, `type`).
      An absent numeric or string field is `None`. */
  datatype Value =
    | Undefined
    | Num(n: int)
    | Str(s: string)
    | Options(addr: Value, pin: Value, asMode: Option<int>, mode: Option<int>,
              freq: Option<int>, kind: Option<string>)

  /** JavaScript truthiness, as `||` uses it: `undefined`, `0` and `""` are falsy, objects are truthy. */
  predicate Truthy(v: Value) {
    match v
    case Undefined => false
    case Num(n) => n != 0
    case Str(s) => s != ""
    case Options(_, _, _, _, _, _) => true
  }

  /** The read-only mode constants `Pin.INPUT` … `Pin.SERVO`. */
  const INPUT: int := 0x00
  const OUTPUT: int := 0x01
  const ANALOG: int := 0x02
  const PWM: int := 0x03
  const SERVO: int := 0x04
}
