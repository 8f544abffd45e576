/** Small shared vocabulary: optional values, results, Go's uint8 and the
    byte length Go's len() gives a string. */
module Common {

  /** A Go reference (*T) or interface value that may be nil. */
  datatype Option<+T> = None | Some(value: T) {
    function GetOr(default: T): T {
      match this
      case Some(v) => v
      case None => default
    }
  }

  /** The two outcomes of a Go call returning (value, error). */
  datatype Result<+T, +E> = Success(value: T) | Failure(error: E)

  /** Go's uint8. */
  newtype uint8 = x: int | 0 <= x < 256

  /** A Go []byte. */
  type Bytes = seq<uint8>

  /** Number of bytes of the UTF-8 encoding of one character. */
  function Utf8Width(c: char): (w: nat)
    ensures 1 <= w <= 4
    ensures w == 1 <==> (c as int) < 0x80
  {
    if (c as int) < 0x80 then 1
    else if (c as int) < 0x800 then 2
    else if (c as int) < 0x1_0000 then 3
    else 4
  }

  /** Go's len(s) for a string s: the length of its UTF-8 encoding, at
      least one byte and at most four per character. */
  function Utf8Len(s: string): (n: nat)
    ensures |s| <= n <= 4 * |s|
    ensures n == 0 <==> s == []
  {
    if s == [] then 0 else Utf8Len(s[..|s| - 1]) + Utf8Width(s[|s| - 1])
  }

  predicate IsAscii(s: string) {
    forall i :: 0 <= i < |s| ==> (s[i] as int) < 0x80
  }

  /** On ASCII text Go's byte length and the character count agree. */
  lemma {:induction false} Utf8LenAscii(s: string)
    requires IsAscii(s)
    ensures Utf8Len(s) == |s|
  {
    if s != [] {
      var t := s[..|s| - 1];
      assert IsAscii(t) by {
        forall i | 0 <= i < |t| ensures (t[i] as int) < 0x80 {
          assert t[i] == s[i];
        }
      }
      Utf8LenAscii(t);
    }
  }

  /** strings.ToLower restricted to ASCII: 'A'..'Z' become 'a'..'z'. */
  function AsciiLower(c: char): (d: char)
    ensures 'A' <= c <= 'Z' ==> 'a' <= d <= 'z' && (d as int) - (c as int) == 32
    ensures !('A' <= c <= 'Z') ==> d == c
  {
    if 'A' <= c <= 'Z' then (c as int + 32) as char else c
  }

  function ToLower(s: string): (r: string)
    ensures |r| == |s|
    ensures forall i :: 0 <= i < |s| ==> r[i] == AsciiLower(s[i])
  {
    seq(|s|, i requires 0 <= i < |s| => AsciiLower(s[i]))
  }

  /** Lower-casing twice is lower-casing once. */
  lemma ToLowerIdempotent(s: string)
    ensures ToLower(ToLower(s)) == ToLower(s)
  {
  }
}
