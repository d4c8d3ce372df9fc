/** The result types and the digits that several modules share. */
module Wrappers {

  datatype Option<+T> = None | Some(value: T)

  /** A value or an error whose text does not matter to the model. */
  datatype Result<+T> = Ok(value: T) | Err

  /** A lower-case hexadecimal digit. */
  function HexDigit(d: nat): char
    requires d < 16
  {
    if d < 10 then '0' + d as char else 'a' + (d - 10) as char
  }
}
