/** Small value types shared by the service and the data provider. */
module Values {

  /** Swift's optional: `nil` or a wrapped value. */
  datatype Option<+T> = None | Some(value: T)

  /** A Combine publisher's single outcome: an output value or a failure. */
  datatype Result<+T, +E> = Ok(value: T) | Err(error: E)

  type Byte = b: int | 0 <= b < 256

  /** Foundation's `Data`: a byte string. */
  type Data = seq<Byte>

  predicate IsAscii(s: string) {
    forall i :: 0 <= i < |s| ==> s[i] as int < 128
  }

  /** `s.data(using: .utf8)` for a string of ASCII characters, where UTF-8 is one byte per character. */
  function AsciiBytes(s: string): (d: Data)
    requires IsAscii(s)
    ensures |d| == |s|
    ensures forall i :: 0 <= i < |s| ==> d[i] == s[i] as int
  {
    if s == [] then [] else [s[0] as int as Byte] + AsciiBytes(s[1..])
  }
}
