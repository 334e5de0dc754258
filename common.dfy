/**
 * Shared vocabulary: optional values (C pointers that may be NULL), bytes,
 * C strings, C integer arithmetic and little-endian 32-bit fields.
 */
module Common {

  datatype Option<T> = None | Some(value: T)

  newtype byte = x: int | 0 <= x < 256

  const UINT32_LIMIT: int := 0x1_0000_0000
  const UINT16_LIMIT: int := 0x1_0000
  const INT_MAX: int := 0x7FFF_FFFF

  /** The characters a C string function sees: everything before the first NUL. */
  function CString(s: string): (r: string)
    ensures |r| <= |s| && r == s[..|r|]
    ensures '\0' !in r
    ensures |r| < |s| ==> s[|r|] == '\0'
  {
    if s == [] || s[0] == '\0' then [] else [s[0]] + CString(s[1..])
  }

  /** An argument is "empty" for the source when its first character is NUL. */
  predicate IsEmptyArg(s: string) {
    CString(s) == ""
  }

  lemma EmptyArgIffLeadingNul(s: string)
    ensures IsEmptyArg(s) <==> (s == [] || s[0] == '\0')
  {
  }

  /** guac_terminal_fit_to_range: clamp into [lo, hi]. */
  function Clamp(v: int, lo: int, hi: int): (r: int)
    ensures lo <= hi ==> lo <= r <= hi
    ensures lo <= v <= hi ==> r == v
    ensures v < lo ==> r == lo
    ensures lo <= hi && v > hi ==> r == hi
  {
    if v < lo then lo else if v > hi then hi else v
  }

  /** C integer division, which truncates toward zero (Dafny's `/` is Euclidean). */
  function CDiv(a: int, b: int): (q: int)
    requires b > 0
    ensures a >= 0 ==> q >= 0 && q * b <= a < q * b + b
    ensures a < 0 ==> q <= 0 && q * b - b < a <= q * b
  {
    if a >= 0 then a / b else -((-a) / b)
  }

  /** `x & ~0x3` on a two's-complement int: x with its two low bits cleared. */
  function ClearLowTwoBits(x: int): (r: int)
    ensures r % 4 == 0
    ensures r <= x < r + 4
  {
    x - x % 4
  }

  /** Conversion of a C int to uint32_t (modulo 2^32). */
  function ToUint32(x: int): (r: int)
    ensures 0 <= r < UINT32_LIMIT
    ensures 0 <= x < UINT32_LIMIT ==> r == x
    ensures (r - x) % UINT32_LIMIT == 0
  {
    x % UINT32_LIMIT
  }

  /** Conversion of a C int to unsigned short (modulo 2^16). */
  function ToUint16(x: int): (r: int)
    ensures 0 <= r < UINT16_LIMIT
    ensures 0 <= x < UINT16_LIMIT ==> r == x
  {
    x % UINT16_LIMIT
  }

  /** The four bytes of a uint32 as stored on a little-endian host. */
  function LE32(x: int): (b: seq<byte>)
    requires 0 <= x < UINT32_LIMIT
    ensures |b| == 4
  {
    [(x % 256) as byte, ((x / 256) % 256) as byte,
     ((x / 256 / 256) % 256) as byte, ((x / 256 / 256 / 256) % 256) as byte]
  }

  /** Reads a little-endian uint32 back from four bytes. */
  function ReadLE32(b: seq<byte>): (x: int)
    requires |b| >= 4
    ensures 0 <= x < UINT32_LIMIT
  {
    b[0] as int + 256 * b[1] as int + 65536 * b[2] as int + 16777216 * b[3] as int
  }

  lemma LE32RoundTrip(x: int)
    requires 0 <= x < UINT32_LIMIT
    ensures ReadLE32(LE32(x)) == x
  {
    var b := LE32(x);
    var q1 := x / 256;
    var q2 := q1 / 256;
    var q3 := q2 / 256;
    assert x == x % 256 + 256 * q1;
    assert q1 == q1 % 256 + 256 * q2;
    assert q2 == q2 % 256 + 256 * q3;
    assert q3 < 256;
    assert b[3] as int == q3;
  }
}
