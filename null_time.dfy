/**
 * The nullable timestamp `null.Time`: a timestamp and a flag saying
 * whether it holds a value (SQL NULL / JSON `null` otherwise).
 *
 * `lib` supplies the uninterpreted `time` routines and `layout` the
 * timestamp layout string that `structs.TimeFormat()` returns.
 */
module NullTime {
  import opened Wrappers
  import opened GoTime
  import Driver
  import Structs

  /** A `null.Time` record as a value (Go's `Time` struct passed by value). */
  datatype TimeValue = TimeValue(time: Timestamp, valid: bool)

  /** `Time{Time: time.Time{}, Valid: false}`. */
  const Null: TimeValue := TimeValue(ZeroTime, false)

  /** A `zero.Time` record: a zero-defaulting wrapper of the same shape. */
  datatype ZeroTimeValue = ZeroTimeValue(time: Timestamp, valid: bool)

  /**
   * The kinds of value `Scan` distinguishes. A pointer input stands for
   * the value it points to, which `Scan` reads before it writes anything.
   */
  datatype Input =
    | NullTimeIn(v: TimeValue)          // Time
    | NullTimePtr(v: TimeValue)         // *Time
    | ZeroTimeIn(z: ZeroTimeValue)      // zero.Time
    | ZeroTimePtr(z: ZeroTimeValue)     // *zero.Time
    | Nil                               // nil
    | Str(s: string)                    // string
    | GoTimeIn(t: Timestamp)            // time.Time
    | GoTimePtr(t: Timestamp)           // *time.Time
    | Other(kind: string)               // a value of any other Go type, named by `kind`

  datatype Error =
    | TypeIsNotAcceptable(checkedValue: Input, checkedType: string)
    | ParseError(layout: string, text: string)
    | RangeError(message: string)

  const TargetType: string := "*null.Time"
  const YearRangeMessage: string := "Time.MarshalJSON: year outside of range [0,9999]"

  /** The receiver's state after an operation, and the error it returned. */
  datatype Outcome = Outcome(state: TimeValue, err: Option<Error>)

  /** What `Scan(value)` leaves in a receiver that held `prior`, and returns. */
  function Scanned(lib: Library, layout: string, prior: TimeValue, value: Input): Outcome {
    match value
    case NullTimeIn(v) => Outcome(v, None)
    case NullTimePtr(v) => Outcome(v, None)
    case ZeroTimeIn(z) =>
      if z.time == ZeroTime then Outcome(prior, None) else Outcome(TimeValue(z.time, true), None)
    case ZeroTimePtr(z) =>
      if z.time == ZeroTime then Outcome(prior, None) else Outcome(TimeValue(z.time, true), None)
    case Nil => Outcome(Null, None)
    case Str(s) =>
      (match lib.parse(layout, s)
       case None => Outcome(Null, Some(ParseError(layout, s)))
       case Some(t) => Outcome(TimeValue(t, true), None))
    case GoTimeIn(t) => if IsZero(t) then Outcome(Null, None) else Outcome(TimeValue(t, true), None)
    case GoTimePtr(t) => if IsZero(t) then Outcome(Null, None) else Outcome(TimeValue(t, true), None)
    case Other(_) => Outcome(prior, Some(TypeIsNotAcceptable(value, TargetType)))
  }

  /** What `UnmarshalJSON(b)` leaves in a receiver that held `prior`, and returns. */
  function Unmarshalled(lib: Library, layout: string, prior: TimeValue, b: string): Outcome {
    if b == Structs.NullString then Outcome(prior, None)
    else
      match lib.parse(layout, b)
      case None => Outcome(TimeValue(ZeroTime, false), Some(ParseError(layout, b)))
      case Some(t) => Outcome(TimeValue(t, true), None)
  }

  /** `Value()`: what the database driver receives; the error is always nil. */
  function Value(v: TimeValue): (r: (Driver.Value, Option<Error>))
    ensures r.1 == None
    ensures r.0 == Driver.Nil <==> !v.valid
    ensures v.valid ==> r.0 == Driver.Time(v.time)
  {
    if !v.valid then (Driver.Nil, None) else (Driver.Time(v.time), None)
  }

  /**
   * `MarshalJSON()`: the JSON text of a record, or an error and no bytes
   * when its year has other than four digits (section 5.6 of RFC 3339
   * allows `date-fullyear` exactly four digits).
   */
  function Marshalled(lib: Library, layout: string, v: TimeValue): (r: (string, Option<Error>))
    ensures !v.valid ==> r == (Structs.NullString, None)
    ensures v.valid && !(0 <= lib.year(v.time) < 10000) ==> r == ([], Some(RangeError(YearRangeMessage)))
    ensures v.valid && 0 <= lib.year(v.time) < 10000 ==>
      var b := r.0;
      r.1 == None && |b| >= 2 && b[0] == '"' && b[|b| - 1] == '"' && b[1..|b| - 1] == lib.format(layout, v.time)
  {
    if !v.valid then (Structs.NullString, None)
    else
      var y := lib.year(v.time);
      if y < 0 || y >= 10000 then ([], Some(RangeError(YearRangeMessage)))
      else (['"'] + lib.format(layout, v.time) + ['"'], None)
  }

  /**
   * `UnmarshalJSON` as evidently intended: the quotes that `MarshalJSON`
   * puts around the formatted time are removed before the text is parsed.
   */
  function UnmarshalledUnquoted(lib: Library, layout: string, prior: TimeValue, b: string): Outcome {
    if b == Structs.NullString then Outcome(prior, None)
    else if |b| < 2 || b[0] != '"' || b[|b| - 1] != '"' then Outcome(Null, Some(ParseError(layout, b)))
    else
      match lib.parse(layout, b[1..|b| - 1])
      case None => Outcome(Null, Some(ParseError(layout, b)))
      case Some(t) => Outcome(TimeValue(t, true), None)
  }

  /** How a value that `Value` produced comes back to `Scan` from the driver. */
  function DriverInput(d: Driver.Value): Input {
    match d
    case Nil => Nil
    case Time(t) => GoTimeIn(t)
    case Int64(_) => Other("int64")
  }

  /** A `null.Time` variable, updated in place through its pointer. */
  class Time {
    var time: Timestamp
    var valid: bool

    /** `var nt Time`: the zero value, null. */
    constructor ()
      ensures time == ZeroTime && !valid
    {
      time := ZeroTime;
      valid := false;
    }

    function Get(): TimeValue
      reads this
    {
      TimeValue(time, valid)
    }

    /** `Scan`: coerces a value of one of the accepted kinds into the receiver. */
    method Scan(lib: Library, layout: string, value: Input) returns (err: Option<Error>)
      modifies this
      ensures Outcome(Get(), err) == Scanned(lib, layout, old(Get()), value)
      ensures (value.NullTimeIn? || value.NullTimePtr?) ==> Get() == value.v && err == None
      ensures (value.ZeroTimeIn? || value.ZeroTimePtr?) && value.z.time == ZeroTime ==>
        unchanged(this) && err == None
      ensures (value.ZeroTimeIn? || value.ZeroTimePtr?) && value.z.time != ZeroTime ==>
        time == value.z.time && valid && err == None
      ensures value.Nil? ==> Get() == Null && err == None
      ensures value.Str? && lib.parse(layout, value.s).None? ==>
        Get() == Null && err == Some(ParseError(layout, value.s))
      ensures value.Str? && lib.parse(layout, value.s).Some? ==>
        time == lib.parse(layout, value.s).value && valid && err == None
      ensures (value.GoTimeIn? || value.GoTimePtr?) ==>
        err == None && Get() == (if IsZero(value.t) then Null else TimeValue(value.t, true))
      ensures value.Other? ==> unchanged(this) && err == Some(TypeIsNotAcceptable(value, TargetType))
    {
      match value {
        case NullTimeIn(v) =>
          time, valid := v.time, v.valid;
          return None;
        case NullTimePtr(v) =>
          time, valid := v.time, v.valid;
          return None;
        case ZeroTimeIn(z) =>
          if z.time == ZeroTime {
            return None;
          }
          time, valid := z.time, true;
          return None;
        case ZeroTimePtr(z) =>
          if z.time == ZeroTime {
            return None;
          }
          time, valid := z.time, true;
          return None;
        case Nil =>
          time, valid := ZeroTime, false;
          return None;
        case Str(s) =>
          var parsed := lib.parse(layout, s);
          if parsed.None? {
            time, valid := ZeroTime, false;
            return Some(ParseError(layout, s));
          }
          time, valid := parsed.value, true;
          return None;
        case GoTimeIn(t) =>
          if IsZero(t) {
            time, valid := ZeroTime, false;
            return None;
          }
          time, valid := t, true;
          return None;
        case GoTimePtr(t) =>
          if IsZero(t) {
            time, valid := ZeroTime, false;
            return None;
          }
          time, valid := t, true;
          return None;
        case Other(_) =>
      }
      return Some(TypeIsNotAcceptable(value, TargetType));
    }

    /** `MarshalJSON`: builds the quoted text by appending to an empty byte slice. */
    method MarshalJSON(lib: Library, layout: string) returns (b: string, err: Option<Error>)
      ensures (b, err) == Marshalled(lib, layout, Get())
    {
      if !valid {
        return Structs.NullString, None;
      }
      var y := lib.year(time);
      if y < 0 || y >= 10000 {
        return [], Some(RangeError(YearRangeMessage));
      }
      b := [];
      b := b + ['"'];
      b := b + lib.format(layout, time);
      b := b + ['"'];
      assert b == ['"'] + lib.format(layout, time) + ['"'];
      return b, None;
    }

    /** `UnmarshalJSON`: the literal `null` leaves the receiver as it was; other text is parsed. */
    method UnmarshalJSON(lib: Library, layout: string, b: string) returns (err: Option<Error>)
      modifies this
      ensures Outcome(Get(), err) == Unmarshalled(lib, layout, old(Get()), b)
      ensures b == Structs.NullString ==> unchanged(this) && err == None
      ensures b != Structs.NullString ==>
        (valid <==> lib.parse(layout, b).Some?) && (err == None <==> valid) &&
        time == (if valid then lib.parse(layout, b).value else ZeroTime)
    {
      if b == Structs.NullString {
        return None;
      }
      var parsed := lib.parse(layout, b);
      if parsed.None? {
        time := ZeroTime;
        err := Some(ParseError(layout, b));
      } else {
        time := parsed.value;
        err := None;
      }
      valid := err == None;
    }
  }

  /** `NewTime(v)`: a fresh null receiver, then `Scan(v)`. */
  method NewTime(lib: Library, layout: string, value: Input) returns (nt: Time, err: Option<Error>)
    ensures fresh(nt)
    ensures Outcome(nt.Get(), err) == Scanned(lib, layout, Null, value)
  {
    nt := new Time();
    err := nt.Scan(lib, layout, value);
  }

  /**
   * Handing `Value()` to the driver and scanning what it returns gives the
   * record back when it holds a non-zero time, and null otherwise, whatever
   * the receiver held before.
   */
  lemma ScanOfValue(lib: Library, layout: string, prior: TimeValue, v: TimeValue)
    ensures Scanned(lib, layout, prior, DriverInput(Value(v).0)) ==
      Outcome(if v.valid && !IsZero(v.time) then v else Null, None)
  {
  }

  /** Scanning the same input twice leaves the same state and error as scanning it once. */
  lemma ScanIdempotent(lib: Library, layout: string, prior: TimeValue, value: Input)
    ensures var once := Scanned(lib, layout, prior, value);
      Scanned(lib, layout, once.state, value) == once
  {
  }

  /**
   * A `zero.Time` holding the zero time and `nil` are not the same input:
   * the first keeps a valid receiver valid, the second makes it null.
   */
  lemma ZeroTimeKeepsPrior(lib: Library, layout: string, prior: TimeValue, flag: bool)
    requires prior.valid
    ensures Scanned(lib, layout, prior, ZeroTimeIn(ZeroTimeValue(ZeroTime, flag))).state == prior
    ensures Scanned(lib, layout, prior, Nil).state != prior
  {
  }

  /**
   * The text a valid record marshals to is never the literal `null`, and it
   * unmarshals back to the same record exactly when `time.Parse` with the
   * layout reads the quoted text back as the same timestamp.
   */
  lemma UnmarshalOfMarshalled(lib: Library, layout: string, prior: TimeValue, v: TimeValue)
    requires v.valid && Marshalled(lib, layout, v).1 == None
    ensures var b := Marshalled(lib, layout, v).0;
      b != Structs.NullString &&
      (Unmarshalled(lib, layout, prior, b) == Outcome(v, None) <==> lib.parse(layout, b) == Some(v.time))
  {
  }

  /**
   * A null record marshals to `null`, and unmarshalling that leaves the
   * receiver as it was rather than making it null.
   */
  lemma UnmarshalOfMarshalledNull(lib: Library, layout: string, prior: TimeValue, v: TimeValue)
    requires !v.valid
    ensures Unmarshalled(lib, layout, prior, Marshalled(lib, layout, v).0) == Outcome(prior, None)
  {
  }

  /**
   * The code as written loses a valid record on a JSON round trip. With
   * the layout "2006" and a time in 2001, the marshalled text is "2001"
   * in quotes; Go's `time.Parse("2006", ...)` rejects that text, because a
   * quote in the value can only be matched by a quote in the layout, so
   * `UnmarshalJSON` leaves (zero time, null) and a parse error.
   */
  lemma QuotedRoundTripFails(lib: Library, prior: TimeValue, t: Timestamp)
    requires lib.year(t) == 2001 && lib.format("2006", t) == "2001"
    requires lib.parse("2006", "\"2001\"") == None
    ensures Marshalled(lib, "2006", TimeValue(t, true)) == ("\"2001\"", None)
    ensures Unmarshalled(lib, "2006", prior, "\"2001\"") == Outcome(Null, Some(ParseError("2006", "\"2001\"")))
    ensures Unmarshalled(lib, "2006", prior, "\"2001\"") != Outcome(TimeValue(t, true), None)
  {
    var b := Marshalled(lib, "2006", TimeValue(t, true)).0;
    assert b == ['"'] + "2001" + ['"'];
    assert ['"'] + "2001" + ['"'] == "\"2001\"";
  }

  /**
   * With the quotes removed, every record `MarshalJSON` renders comes back
   * whenever the layout parses its own formatted text back to the same time.
   */
  lemma UnquotedRoundTrip(lib: Library, layout: string, prior: TimeValue, v: TimeValue)
    requires v.valid && 0 <= lib.year(v.time) < 10000
    requires lib.parse(layout, lib.format(layout, v.time)) == Some(v.time)
    ensures UnmarshalledUnquoted(lib, layout, prior, Marshalled(lib, layout, v).0) == Outcome(v, None)
  {
  }
}
