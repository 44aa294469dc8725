/** Shared vocabulary of the messaging layer: failure-carrying wrappers, bytes,
    the few Python string operations the protocol relies on, JSON values with
    Python truthiness, and the opaque codecs (zstd, JSON) the layer calls. */
module Common {

  datatype Option<+T> = None | Some(value: T)

  datatype Result<+T, +E> = Ok(value: T) | Err(error: E)

  newtype byte = x: int | 0 <= x < 256

  type Bytes = seq<byte>

  /** `d.get(key, default)` on a Python dict. */
  function MapGet<K, V>(m: map<K, V>, key: K, default: V): V {
    if key in m then m[key] else default
  }

  function Min(a: int, b: int): int { if a <= b then a else b }

  function Max(a: int, b: int): int { if a <= b then b else a }

  // ---------------------------------------------------------------------------
  // Python string operations

  /** `s.startswith(prefix)` */
  predicate StartsWith(s: string, prefix: string) {
    |prefix| <= |s| && s[..|prefix|] == prefix
  }

  /** `s.endswith(suffix)` */
  predicate EndsWith(s: string, suffix: string) {
    |suffix| <= |s| && s[|s| - |suffix|..] == suffix
  }

  /** `sub` occurs in `s` starting at index `i`. */
  predicate OccursAt(s: string, sub: string, i: int) {
    0 <= i <= |s| - |sub| && s[i..i + |sub|] == sub
  }

  /** `sub in s` for strings */
  predicate Contains(s: string, sub: string) {
    exists i | 0 <= i <= |s| - |sub| :: OccursAt(s, sub, i)
  }

  lemma ContainsMiddle(a: string, b: string, c: string)
    ensures Contains(a + b + c, b)
  {
    var s := a + b + c;
    assert OccursAt(s, b, |a|);
  }

  /** ASCII lower-casing of one character, as `str.lower` does on ASCII text. */
  function LowerChar(c: char): char {
    if 'A' <= c <= 'Z' then (c as int + 32) as char else c
  }

  /** `s.lower()` restricted to ASCII letters. */
  function Lower(s: string): (r: string)
    ensures |r| == |s|
    ensures forall i :: 0 <= i < |s| ==> r[i] == LowerChar(s[i])
  {
    seq(|s|, i requires 0 <= i < |s| => LowerChar(s[i]))
  }

  /** Text without upper-case ASCII letters is its own lower-case form. */
  lemma LowerOfLowerCase(s: string)
    requires forall i :: 0 <= i < |s| ==> !('A' <= s[i] <= 'Z')
    ensures Lower(s) == s
  {
    assert forall i :: 0 <= i < |s| ==> Lower(s)[i] == s[i];
  }

  function DigitChar(d: nat): char
    requires d < 10
  {
    "0123456789"[d]
  }

  /** `str(n)` for a non-negative integer: its decimal digits. */
  function NatToString(n: nat): (s: string)
    ensures |s| >= 1
    ensures forall i :: 0 <= i < |s| ==> '0' <= s[i] <= '9'
  {
    if n < 10 then [DigitChar(n)] else NatToString(n / 10) + [DigitChar(n % 10)]
  }

  /** `int(s)` for a string of decimal digits; the reading side of a
      content-length header. */
  function ParseNat(s: string): nat
    requires forall i :: 0 <= i < |s| ==> '0' <= s[i] <= '9'
  {
    if s == [] then 0 else 10 * ParseNat(s[..|s| - 1]) + (s[|s| - 1] as int - '0' as int)
  }

  /** A content-length written with `str(n)` reads back as `n`. */
  lemma {:induction false} ParseNatToString(n: nat)
    ensures ParseNat(NatToString(n)) == n
  {
    var s := NatToString(n);
    if n < 10 {
      assert s == [DigitChar(n)];
      assert s[..0] == [];
    } else {
      var p := NatToString(n / 10);
      assert s == p + [DigitChar(n % 10)];
      assert s[..|s| - 1] == p;
      ParseNatToString(n / 10);
    }
  }

  // ---------------------------------------------------------------------------
  // JSON values

  /** A JSON value as the Python side holds it after parsing. Numbers are
      integers only. */
  datatype Json =
    | JNull
    | JBool(b: bool)
    | JNum(n: int)
    | JStr(s: string)
    | JArr(items: seq<Json>)
    | JObj(fields: map<string, Json>)

  const EmptyObject: Json := JObj(map[])

  /** Python truthiness of a parsed JSON value: `None`, `False`, `0`, `""`,
      `[]` and `{}` are falsy, everything else is truthy. */
  predicate Truthy(j: Json) {
    match j
    case JNull => false
    case JBool(b) => b
    case JNum(n) => n != 0
    case JStr(s) => s != ""
    case JArr(items) => items != []
    case JObj(fields) => fields != map[]
  }

  // ---------------------------------------------------------------------------
  // Opaque codecs

  /** The zstandard library: `ZstdCompressor(level=3).compress` and
      `ZstdDecompressor().decompress`, which fails with a message on bytes
      that are not a zstd frame. */
  datatype Zstd = Zstd(compress: Bytes -> Bytes, decompress: Bytes -> Result<Bytes, string>)

  /** The round trip the zstd format guarantees; assumed where a lemma needs it. */
  ghost predicate ZstdRoundTrip(z: Zstd) {
    forall b :: z.decompress(z.compress(b)) == Ok(b)
  }

  /** JSON serialization (`model_dump_json().encode()`, `orjson.dumps`) and
      parsing (`orjson.loads`, which fails with a message on malformed input). */
  datatype JsonCodec = JsonCodec(dumps: Json -> Bytes, loads: Bytes -> Result<Json, string>)

  ghost predicate JsonRoundTrip(c: JsonCodec) {
    forall j :: c.loads(c.dumps(j)) == Ok(j)
  }

  /** A serialized JSON value is never the empty byte string. */
  ghost predicate JsonTextsNonEmpty(c: JsonCodec) {
    forall j :: c.dumps(j) != []
  }
}
