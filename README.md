# Nullable scalar types: a Dafny model

This project models the core of the `null` package of `go-structs`: nullable
scalar wrappers that each hold a payload and a `Valid` flag, and that move
values across two boundaries — a database driver (`Scan` in, `Value` out) and
JSON text (`MarshalJSON` out, `UnmarshalJSON` in).

Two wrappers are modelled:

- `null.Time` (`null_time.dfy`, module `NullTime`), from `null/time.go`. A
  `Time` class holds the two fields that `Scan` and `UnmarshalJSON` update in
  place; its methods state, branch by branch, which fields change. The input of
  `Scan` is a closed datatype of the kinds the code's type switch accepts, plus
  `Other` for everything else. `Value` and the JSON text of a record are pure
  functions (`Value`, `Marshalled`); `Time.MarshalJSON` builds the same text
  by appending to an empty byte slice.
- `null.Int64` (`null_int64.dfy`, module `NullInt64`), whose behaviour is the one
  fixed by `null/int_test.go`: integer inputs of every width widen to int64,
  decimal strings are parsed, `nil` gives null, a boolean is refused, and JSON
  is the decimal text of the number or `null`. The decimal printer and parser
  (`decimal.dfy`, module `Decimal`) are proved inverse to each other over the
  whole int64 range, in both directions (the printed form is the one canonical
  spelling that parses to the number).

Supporting modules: `GoInt` (Go's integer widths and the `int64(uint64)`
conversion), `GoTime` (timestamps, the zero time, `IsZero`, and a `Library`
value whose fields stand for `Time.Year`, `time.Parse` and
`Time.AppendFormat`), `Driver` (`driver.Value`), `Structs` (the `null`
literal), `Wrappers` (`Option`).

A timestamp is modelled as an instant plus a location. Go's `==` on
`time.Time`, which `Scan` uses for a `zero.Time` input, compares both; the
`IsZero` test, which it uses for a `time.Time` input, looks at the instant
only. The model keeps that difference.

The layout string that `structs.TimeFormat()` returns and the `time` library
routines are parameters (`layout`, `lib`) of every timestamp operation, so
every property of `NullTime` holds whatever they are.

`Time` follows its code where the code does not zero a null receiver:
a `zero.Time` holding the zero time, an input of an unsupported type, and
`UnmarshalJSON` of the literal `null` all leave the receiver as it was
(`null/time.go:33-36`, `:77`, `:106-108`), so a `Time` whose flag is false
may still carry a non-zero timestamp. `ZeroTimeKeepsPrior` and
`UnmarshalOfMarshalledNull` state this.

`Time.UnmarshalJSON` hands the whole input, quotes included, to `time.Parse`
(`null/time.go:109`), while `MarshalJSON` wraps the formatted text in quotes.
`UnmarshalOfMarshalled` therefore states the JSON round trip of a `Time` as an
equivalence: it holds exactly when the layout parses the quoted text back to
the same timestamp. In Go it never does: a quote in the parsed text can only
be matched by a literal quote in the layout, and every literal of the layout
is also copied into the formatted text, so the two outer quotes are always
left over and `time.Parse` fails whatever the layout. The model can state the
round trip only as that equivalence because `parse` is uninterpreted;
`QuotedRoundTripFails` exhibits the failure for the layout `2006`, and
`UnmarshalledUnquoted` is the corrected decoder (see "## Findings").

For `Int64`, where the tests fix no outcome the model makes these choices:
`Scan` of an unparsable string, `Scan` of a boolean and `UnmarshalJSON` of
`null` all leave the receiver null with a zero payload (the tests observe this
only on a freshly declared receiver); the decimal grammar is an optional `-`
followed by one or more digits (leading zeros allowed, no `+`), within the int64 range.

## Model

| member | source | states |
|---|---|---|
| `NullTime.Time.constructor` | null/time.go:18 | A declared `Time` is null and holds the zero time. |
| `NullTime.Time.Scan` | null/time.go:24-78 | `Time` or `*Time` input: both fields copied, no error. `zero.Time`/`*zero.Time` holding the zero time (Go `==`): receiver unchanged, no error; otherwise (that time, valid). `nil`: (zero time, null). String: (parsed time, valid) or (zero time, null) with a parse error carrying layout and text. `time.Time`/`*time.Time`: (zero time, null) when `IsZero`, else (that time, valid). Any other type: receiver unchanged, `TypeIsNotAcceptable` carrying the input. The new state and error equal `Scanned` of the old state. |
| `NullTime.NewTime` | null/time.go:17-21 | Returns a fresh receiver holding what `Scan` leaves in a null one, and `Scan`'s error. |
| `NullTime.Value` | null/time.go:81-86 | Never fails; the driver gets nil exactly when the record is null, and otherwise the stored timestamp unmodified. |
| `NullTime.Marshalled` | null/time.go:88-103 | Null record: the bytes `null`, no error. Year below 0 or from 10000 on: no bytes and a range error. Otherwise no error and the output is a quote, the formatted time, a quote. |
| `NullTime.Time.MarshalJSON` | null/time.go:88-103 | The bytes built by successive appends, and the error, are exactly `Marshalled` of the receiver. |
| `NullTime.Time.UnmarshalJSON` | null/time.go:105-112 | Exactly `null`: receiver unchanged, no error. Otherwise `Valid` afterwards is true iff the parse succeeded, the error is nil iff it succeeded, and the time is the parsed one (the zero time on failure). |
| `NullTime.ScanOfValue` | null/time.go:57-86 | Scanning what `Value` hands the driver restores a record with a non-zero time, and yields null for a null record or one holding a zero instant, whatever the receiver held before. |
| `NullTime.ScanIdempotent` | null/time.go:24-78 | Scanning the same input a second time changes neither the state nor the error. |
| `NullTime.ZeroTimeKeepsPrior` | null/time.go:32-48 | On a valid receiver, a `zero.Time` holding the zero time keeps the receiver (whatever that wrapper's own flag), whereas `nil` changes it. |
| `NullTime.UnmarshalOfMarshalled` | null/time.go:88-112 | The text of a valid record is never `null`, and unmarshalling it restores the record iff `time.Parse` with the layout reads the quoted text back as the same timestamp. |
| `NullTime.UnmarshalOfMarshalledNull` | null/time.go:89-108 | A null record marshals to `null`, which unmarshals as a no-op: the receiver keeps its previous state. |
| `NullTime.QuotedRoundTripFails` | null/time.go:98-111 | With the layout `2006`, a valid record in 2001 marshals to `"2001"` in quotes; when `time.Parse` rejects that quoted text, as Go's does, unmarshalling gives (zero time, null) and a parse error instead of the record. |
| `NullTime.UnquotedRoundTrip` | null/time.go:98-111 | A decoder that strips the two quotes before parsing gives back every valid record `MarshalJSON` renders, whenever the layout parses its own formatted text back to the same time. |
| `GoInt.Int64OfUint64` | null/int_test.go:53-61 | A uint64 converts to the same number when it fits in int64, and otherwise to the negative int64 with the same 64 bits. |
| `Decimal.NatText` | null/int_test.go:127-162 | The digits of a natural number are non-empty, all decimal digits, without a leading zero, and are `0` only for zero. |
| `Decimal.FormatInt` | null/int_test.go:127-162 | The decimal text of an integer is canonical and starts with `-` iff the integer is negative. |
| `Decimal.ParseOfFormat` | null/int_test.go:127-149 | Parsing the decimal text of any int64 gives that int64 back. |
| `Decimal.FormatOfParse` | null/int_test.go:175-185 | Canonical text that parses to `n` is exactly the decimal text of `n`. |
| `Decimal.ParseInt64` | null/int_test.go:75-79 | Text is accepted iff it is an optional `-` followed by one or more digits (leading zeros allowed) whose value lies in the int64 range; the result is that value, negated after a `-`. In particular every digit string of up to 18 digits, with or without `-`, is accepted, and a `+` sign is rejected. |
| `Decimal.FormatIsNotNull` | null/int_test.go:151-162 | The decimal text of a number is never the literal `null`. |
| `NullInt64.Int64.constructor` | null/int_test.go:178 | A declared `Int64` is null with payload 0. |
| `NullInt64.Int64.Scan` | null/int_test.go:40-88 | An integer of any width gives (its int64 conversion, valid), equal to the input whenever it fits in int64, no error. A `*Int64` is copied. A string gives (its parse, valid) or (0, null) with a parse error. `nil` gives (0, null), no error. A boolean gives (0, null) and `TypeIsNotAcceptable`. The state and error equal `Scanned` of the input. |
| `NullInt64.Int64.UnmarshalJSON` | null/int_test.go:175-206 | `null` gives (0, null), no error. Other text: `Valid` iff it parses as a decimal int64, error nil iff valid, payload the parsed number or 0. |
| `NullInt64.NewInt64` | null/int_test.go:11-29 | Returns a fresh receiver holding what `Scan` gives, and `Scan`'s error. |
| `NullInt64.Value` | null/int_test.go:100-115 | Never fails; the driver gets nil exactly when the record is null, and otherwise the int64 payload. |
| `NullInt64.MarshalJSON` | null/int_test.go:127-162 | Never fails; the output is `null` iff the record is null, and otherwise canonical decimal text that parses back to the payload. |
| `NullInt64.UnmarshalOfMarshal` | null/int_test.go:127-149 | Marshalling then unmarshalling gives back every valid record and the null record, with no error. |
| `NullInt64.MarshalOfUnmarshal` | null/int_test.go:175-196 | Canonical text (or `null`) that unmarshals without error marshals back to the same text. |
| `NullInt64.ScanOfValue` | null/int_test.go:100-115 | Scanning what `Value` hands the driver gives back a valid record, and null for a null one. |
| `NullInt64.ScanOfText` | null/int_test.go:75-79 | Scanning the decimal text of a number has the same outcome as scanning the number. |
| `NullInt64.ScanTestCases` | null/int_test.go:44-85 | The integer cases 1, 0 and -1 in every width, the `*Int64` holding 1, `nil` and `true` give the outcomes the test expects. |
| `NullInt64.StringScanTestCases` | null/int_test.go:75-79 | `"1"`, `"0"` and `"-1"` scan to 1, 0 and -1, valid, no error. |
| `NullInt64.UnmarshalTestCases` | null/int_test.go:175-205 | `"1"` gives (1, valid), `"null"` gives (0, null), `"2001-05-03"` gives an error and a null receiver. |
| `NullInt64.NewAndMarshalTestCases` | null/int_test.go:11-162 | `NewInt64(int64(1))` is (1, valid); `NewInt64(false)` fails with (0, null); `NewInt64(nil)` marshals to `null`; `NewInt64(84)`, an `int`, survives marshal and unmarshal. |

## Left out

- The nullable decimal type `Float64` (`null/float_test.go`): its payload is a `float64`, and its behaviour is floating-point conversion, parsing and fixed-precision rendering.
- The bodies of `time.Parse`, `Time.AppendFormat`, `Time.Year` and `structs.TimeFormat()`: they are uninterpreted parameters, so no JSON round trip is claimed for `Time` beyond `UnmarshalOfMarshalled`'s equivalence. The message of a `time.Parse` error is not modelled; the model's parse error carries the layout and the rejected text.
- Go's `==` on `time.Time` also compares a monotonic clock reading; timestamps here carry none.
- The `database/sql/driver` interfaces and `encoding/json` reflection: only the direct method calls are modelled, so the marshalling test's `json.Marshal`/`json.Unmarshal` appear as `MarshalJSON` and `UnmarshalJSON`.
- The byte-slice `Scan` cases of `null/int_test.go:70-74`: they depend on the encoding of the helper `makeBytes`, which is not part of this model; neither is `checkCases`.
- `Int64` inputs of kinds its tests do not exercise (`uint`, floating-point widths, byte slices, timestamps): its implementation is not part of this model, and its `Input` datatype holds only the kinds the tests pass.
- Go's `int` is taken to be 64 bits wide.
- `NullInt64.Int64.Scan`: resetting a receiver that was not null to (0, null) on a boolean input or an unparsable string is the model's own choice; the tests see these paths only on a freshly declared receiver, and `null/time.go:77` follows the opposite pattern, leaving the receiver unchanged.
- `NullInt64.Int64.UnmarshalJSON`: resetting a receiver that was not null to (0, null) on `null` or on unparsable text is the model's own choice; the tests see these paths only on a freshly declared receiver, and `null/time.go:106-108` leaves the receiver unchanged on `null`.
- `Decimal.ParseInt64`: the grammar beyond the tested `1`, `0`, `-1` and `2001-05-03` is the model's own choice: a leading `+` is rejected (Go's `strconv.ParseInt` accepts it), leading zeros such as `007` and the text `-0` are accepted (JSON's number grammar rejects them).
- `NullInt64.Int64.Scan`: a `uint64` above the int64 maximum is converted the way Go's `int64(u)` conversion does; the tests fix the outcome only for 0 and 1.
- The `TypeIsNotAcceptable` error of `Scan` carries the input and the name of the target type (`*null.Time`, `*null.Int64`), not the receiver itself that `null/time.go:77` stores in `CheckedType`.
- Nil pointers given to `Scan` (`*Time`, `*zero.Time`, `*time.Time`, `*Int64`) make Go panic; pointer inputs are modelled as the value they point to.
- Benchmarks, and concurrency (there is none).

## Findings

| source | as written | input that shows it | evidently intended | confidence | as-written member | corrected member |
|---|---|---|---|---|---|---|
| null/time.go:109 | `UnmarshalJSON` hands the marshalled bytes to `time.Parse` with the two quotes that `MarshalJSON` added at lines 99 and 101 | layout `2006`, a valid record dated in 2001: `MarshalJSON` gives `"2001"` in quotes, `time.Parse("2006", ...)` rejects it, and the receiver ends (zero time, null) with an error | strip the quotes before parsing, so that marshalled records round-trip | not executed; high | `NullTime.QuotedRoundTripFails` | `NullTime.UnquotedRoundTrip` |
