/**
 * The nullable integer `null.Int64`: an int64 and a flag saying whether
 * it holds a value. Its behaviour is the one its tests fix: integer
 * inputs of every width widen to int64, decimal strings are parsed, `nil`
 * is null, a boolean is refused; JSON is the decimal text or `null`.
 */
module NullInt64 {
  import opened Wrappers
  import opened GoInt
  import Decimal
  import Driver
  import Structs

  /** An `Int64` record as a value. */
  datatype Int64Value = Int64Value(payload: int64, valid: bool)

  /** `Int64{Int64: 0, Valid: false}`. */
  const Null: Int64Value := Int64Value(0, false)

  /**
   * The kinds of value `Scan` is given. `Int` is Go's `int`, 64 bits wide;
   * `Wrapper` is a `*Int64`, standing for the record it points to.
   */
  datatype Input =
    | IntIn(i: int64)
    | Int8In(i8: int8)
    | Int16In(i16: int16)
    | Int32In(i32: int32)
    | Int64In(i64: int64)
    | Uint8In(u8: uint8)
    | Uint16In(u16: uint16)
    | Uint32In(u32: uint32)
    | Uint64In(u64: uint64)
    | Wrapper(w: Int64Value)
    | Str(s: string)
    | Nil
    | Bool(b: bool)

  datatype Error =
    | TypeIsNotAcceptable(checkedValue: Input, checkedType: string)
    | ParseError(text: string)

  const TargetType: string := "*null.Int64"

  /** The receiver's state after an operation, and the error it returned. */
  datatype Outcome = Outcome(state: Int64Value, err: Option<Error>)

  /** The int64 an input of an integer kind converts to; `None` for the other kinds. */
  function Widened(value: Input): Option<int64> {
    match value
    case IntIn(i) => Some(i)
    case Int8In(i) => Some(i as int64)
    case Int16In(i) => Some(i as int64)
    case Int32In(i) => Some(i as int64)
    case Int64In(i) => Some(i)
    case Uint8In(u) => Some(u as int64)
    case Uint16In(u) => Some(u as int64)
    case Uint32In(u) => Some(u as int64)
    case Uint64In(u) => Some(Int64OfUint64(u))
    case _ => None
  }

  /** The mathematical value of an input of an integer kind. */
  function IntegerOf(value: Input): int
    requires Widened(value).Some?
  {
    match value
    case IntIn(i) => i
    case Int8In(i) => i
    case Int16In(i) => i
    case Int32In(i) => i
    case Int64In(i) => i
    case Uint8In(u) => u
    case Uint16In(u) => u
    case Uint32In(u) => u
    case Uint64In(u) => u
  }

  /** What `Scan(value)` leaves in the receiver, and returns; nothing of the prior state survives. */
  function Scanned(value: Input): Outcome {
    match value
    case Wrapper(w) => Outcome(w, None)
    case Str(s) =>
      (match Decimal.ParseInt64(s)
       case None => Outcome(Null, Some(ParseError(s)))
       case Some(n) => Outcome(Int64Value(n, true), None))
    case Nil => Outcome(Null, None)
    case Bool(_) => Outcome(Null, Some(TypeIsNotAcceptable(value, TargetType)))
    case _ => Outcome(Int64Value(Widened(value).value, true), None)
  }

  /** What `UnmarshalJSON(b)` leaves in the receiver, and returns. */
  function Unmarshalled(b: string): Outcome {
    if b == Structs.NullString then Outcome(Null, None)
    else
      match Decimal.ParseInt64(b)
      case None => Outcome(Null, Some(ParseError(b)))
      case Some(n) => Outcome(Int64Value(n, true), None)
  }

  /** `Value()`: what the database driver receives; the error is always nil. */
  function Value(v: Int64Value): (r: (Driver.Value, Option<Error>))
    ensures r.1 == None
    ensures r.0 == Driver.Nil <==> !v.valid
    ensures v.valid ==> r.0 == Driver.Int64(v.payload)
  {
    if !v.valid then (Driver.Nil, None) else (Driver.Int64(v.payload), None)
  }

  /** `MarshalJSON()`: `null`, or the decimal text of the integer, unquoted; it never fails. */
  function MarshalJSON(v: Int64Value): (r: (string, Option<Error>))
    ensures r.1 == None
    ensures r.0 == Structs.NullString <==> !v.valid
    ensures v.valid ==> Decimal.Canonical(r.0) && Decimal.ParseInt64(r.0) == Some(v.payload)
  {
    if !v.valid then (Structs.NullString, None)
    else
      Decimal.FormatIsNotNull(v.payload);
      Decimal.ParseOfFormat(v.payload);
      (Decimal.FormatInt(v.payload), None)
  }

  /** How a value that `Value` produced comes back to `Scan` from the driver. */
  function DriverInput(d: Driver.Value): Input
    requires !d.Time?
  {
    match d
    case Nil => Nil
    case Int64(n) => Int64In(n)
  }

  /** An `Int64` variable, updated in place through its pointer. */
  class Int64 {
    var payload: int64
    var valid: bool

    /** `var ni Int64`: the zero value, null. */
    constructor ()
      ensures payload == 0 && !valid
    {
      payload := 0;
      valid := false;
    }

    function Get(): Int64Value
      reads this
    {
      Int64Value(payload, valid)
    }

    /** `Scan`: coerces a value of one of the accepted kinds into the receiver. */
    method Scan(value: Input) returns (err: Option<Error>)
      modifies this
      ensures Outcome(Get(), err) == Scanned(value)
      ensures Widened(value).Some? ==> valid && payload == Widened(value).value && err == None
      ensures Widened(value).Some? && IntegerOf(value) <= MaxInt64 ==> payload == IntegerOf(value)
      ensures value.Wrapper? ==> Get() == value.w && err == None
      ensures value.Str? ==>
        (valid <==> Decimal.ParseInt64(value.s).Some?) && (err == None <==> valid) &&
        payload == (if valid then Decimal.ParseInt64(value.s).value else 0)
      ensures value.Nil? ==> Get() == Null && err == None
      ensures value.Bool? ==> Get() == Null && err == Some(TypeIsNotAcceptable(value, TargetType))
    {
      match value {
        case Wrapper(w) =>
          payload, valid := w.payload, w.valid;
          return None;
        case Str(s) =>
          var parsed := Decimal.ParseInt64(s);
          if parsed.None? {
            payload, valid := 0, false;
            return Some(ParseError(s));
          }
          payload, valid := parsed.value, true;
          return None;
        case Nil =>
          payload, valid := 0, false;
          return None;
        case Bool(_) =>
          payload, valid := 0, false;
          return Some(TypeIsNotAcceptable(value, TargetType));
        case _ =>
          payload, valid := Widened(value).value, true;
          return None;
      }
    }

    /** `UnmarshalJSON`: the literal `null` makes the receiver null; other text is parsed as a decimal integer. */
    method UnmarshalJSON(b: string) returns (err: Option<Error>)
      modifies this
      ensures Outcome(Get(), err) == Unmarshalled(b)
      ensures b == Structs.NullString ==> Get() == Null && err == None
      ensures b != Structs.NullString ==>
        (valid <==> Decimal.ParseInt64(b).Some?) && (err == None <==> valid) &&
        payload == (if valid then Decimal.ParseInt64(b).value else 0)
    {
      if b == Structs.NullString {
        payload, valid := 0, false;
        return None;
      }
      var parsed := Decimal.ParseInt64(b);
      if parsed.None? {
        payload, valid := 0, false;
        return Some(ParseError(b));
      }
      payload, valid := parsed.value, true;
      return None;
    }
  }

  /** `NewInt64(v)`: a fresh null receiver, then `Scan(v)`. */
  method NewInt64(value: Input) returns (ni: Int64, err: Option<Error>)
    ensures fresh(ni)
    ensures Outcome(ni.Get(), err) == Scanned(value)
  {
    ni := new Int64();
    err := ni.Scan(value);
  }

  /**
   * JSON round trip: marshalling a record and unmarshalling the text gives
   * the record back, for every valid record and for the null one.
   */
  lemma UnmarshalOfMarshal(v: Int64Value)
    requires v.valid || v == Null
    ensures Unmarshalled(MarshalJSON(v).0) == Outcome(v, None)
  {
  }

  /**
   * Conversely, text that unmarshals without error and is spelled the
   * canonical way marshals back to the same text.
   */
  lemma {:induction false} MarshalOfUnmarshal(b: string)
    requires Unmarshalled(b).err == None
    requires b == Structs.NullString || Decimal.Canonical(b)
    ensures MarshalJSON(Unmarshalled(b).state).0 == b
  {
    if b != Structs.NullString {
      Decimal.FormatOfParse(b, Decimal.ParseInt64(b).value);
    }
  }

  /**
   * Handing `Value()` to the driver and scanning what it returns gives the
   * record back when it is valid, and null otherwise.
   */
  lemma ScanOfValue(v: Int64Value)
    ensures Scanned(DriverInput(Value(v).0)) == Outcome(if v.valid then v else Null, None)
  {
  }

  /** Scanning the decimal text of a number is the same as scanning the number. */
  lemma {:induction false} ScanOfText(n: int64)
    ensures Scanned(Str(Decimal.FormatInt(n))) == Scanned(Int64In(n))
  {
    Decimal.ParseOfFormat(n);
  }

  /** The `TestInt64_Scan` cases with integer inputs, `nil` and `true`. */
  lemma ScanTestCases()
    ensures forall value ::
      value in [IntIn(1), Int8In(1), Int16In(1), Int32In(1), Int64In(1), Uint8In(1), Uint16In(1), Uint32In(1), Uint64In(1)] ==>
      Scanned(value) == Outcome(Int64Value(1, true), None)
    ensures forall value ::
      value in [IntIn(0), Int8In(0), Int16In(0), Int32In(0), Int64In(0), Uint8In(0), Uint16In(0), Uint32In(0), Uint64In(0)] ==>
      Scanned(value) == Outcome(Int64Value(0, true), None)
    ensures forall value :: value in [IntIn(-1), Int8In(-1), Int16In(-1), Int32In(-1), Int64In(-1)] ==>
      Scanned(value) == Outcome(Int64Value(-1, true), None)
    ensures Scanned(Wrapper(Scanned(IntIn(1)).state)) == Outcome(Int64Value(1, true), None)
    ensures Scanned(Nil) == Outcome(Null, None)
    ensures Scanned(Bool(true)).state == Null && Scanned(Bool(true)).err.Some?
  {
  }

  /** The `TestInt64_Scan` cases with decimal strings. */
  lemma StringScanTestCases()
    ensures Scanned(Str("1")) == Outcome(Int64Value(1, true), None)
    ensures Scanned(Str("0")) == Outcome(Int64Value(0, true), None)
    ensures Scanned(Str("-1")) == Outcome(Int64Value(-1, true), None)
  {
  }

  /** The `TestInt64_UnmarshalJSON` cases. */
  lemma UnmarshalTestCases()
    ensures Unmarshalled("1") == Outcome(Int64Value(1, true), None)
    ensures Unmarshalled("null") == Outcome(Null, None)
    ensures Unmarshalled("2001-05-03").err.Some? && !Unmarshalled("2001-05-03").state.valid
  {
  }

  /** `TestNewInt64` and `TestInt64_MarshalJSON`'s null case. */
  lemma NewAndMarshalTestCases()
    ensures Scanned(Int64In(1)) == Outcome(Int64Value(1, true), None)
    ensures Scanned(Bool(false)).err.Some? && Scanned(Bool(false)).state == Null
    ensures MarshalJSON(Scanned(Nil).state) == ("null", None)
    ensures Unmarshalled(MarshalJSON(Scanned(IntIn(84)).state).0) == Scanned(IntIn(84))
  {
  }
}
