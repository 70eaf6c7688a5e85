/**
 * The parts of Go's `time` package the nullable timestamp relies on.
 *
 * A timestamp is an instant together with the location it is shown in.
 * Go's `==` on `time.Time` compares both, while `IsZero` looks at the
 * instant only; keeping the two apart lets the model tell the two tests
 * apart exactly as the code does.
 */
module GoTime {
  import opened Wrappers

  /**
   * `instant`: nanoseconds since January 1, year 1, 00:00:00 UTC;
   * `location`: which time zone the value carries, 0 being UTC.
   */
  datatype Timestamp = Timestamp(instant: int, location: nat)

  /** `time.Time{}`, the zero value of Go's timestamp type. */
  const ZeroTime: Timestamp := Timestamp(0, 0)

  /** `t.IsZero()`: the instant is January 1, year 1, 00:00:00 UTC, whatever the location. */
  predicate IsZero(t: Timestamp) {
    t.instant == 0
  }

  /**
   * The library routines whose bodies are not part of this model, as
   * uninterpreted functions:
   * `year(t)` is `t.Year()`;
   * `parse(layout, text)` is `time.Parse`, `None` standing for a non-nil
   * error (on which Go's `time.Parse` returns the zero time);
   * `format(layout, t)` is the text that `t.AppendFormat(b, layout)` appends.
   */
  datatype Library = Library(
    year: Timestamp -> int,
    parse: (string, string) -> Option<Timestamp>,
    format: (string, Timestamp) -> string)
}
