/** Machine-level vocabulary shared by every module: bytes, 64-bit ids, byte strings and options. */
module Prelude {

  type byte = n: int | 0 <= n < 256
  type i64 = n: int | -0x8000_0000_0000_0000 <= n < 0x8000_0000_0000_0000

  type Bytes = seq<byte>

  /** A std::string: a sequence of 8-bit characters. */
  type Str = seq<byte>

  datatype Option<+T> = None | Some(value: T)
  datatype Result<+T, +E> = Success(value: T) | Failure(error: E)

  /** A text literal as the byte string the program holds. */
  function Ascii(text: string): (s: Str)
    ensures |s| == |text|
  {
    seq(|text|, i requires 0 <= i < |text| => (text[i] as int) % 256)
  }

  function Mapped<T>(xs: seq<T>, f: T -> T): (ys: seq<T>)
    ensures |ys| == |xs| && forall i :: 0 <= i < |xs| ==> ys[i] == f(xs[i])
  {
    seq(|xs|, i requires 0 <= i < |xs| => f(xs[i]))
  }
}
