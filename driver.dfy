/** The values handed to a database driver (Go's `driver.Value`), as far as this core produces them. */
module Driver {
  import GoInt
  import GoTime

  datatype Value =
    | Nil
    | Int64(n: GoInt.int64)
    | Time(t: GoTime.Timestamp)
}
