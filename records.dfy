/** The row shape returned by the data source (src/lib.rs, struct `TR`). */
module Records {

  /** Rust's `i32`. */
  newtype i32 = x: int | -0x8000_0000 <= x < 0x8000_0000

  /** One row of the `test` table: an identity and one text column. */
  datatype TR = TR(id: i32, col1: string)
}
