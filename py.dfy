/** The parts of Python the library leans on: values as they appear in
    request payloads and decoded responses, their truthiness, `str()`,
    `str.strip`, ASCII lower-casing, and a mutable `dict` object for the
    places where the library changes a caller's dictionary in place. */
module Py {

  datatype Option<+T> = None | Some(value: T)

  /** A Python value found in a payload or a decoded JSON body.
      `Other` stands for every other object (a list, a float, a file
      object, a nested dict): it carries the text `str()` gives for it and
      whether it is truthy. */
  datatype Value =
    | Null
    | Bool(b: bool)
    | Int(i: int)
    | Text(s: string)
    | Bytes(data: seq<bv8>)
    | Other(text: string, truthy: bool)

  /** Python truthiness: `None`, `False`, `0` and empty strings or bytes are false. */
  predicate Truthy(v: Value) {
    match v
    case Null => false
    case Bool(b) => b
    case Int(i) => i != 0
    case Text(s) => s != ""
    case Bytes(d) => d != []
    case Other(_, t) => t
  }

  /** `m.get(k, default)` */
  function GetOr<V>(m: map<string, V>, k: string, default: V): (v: V)
    ensures k in m ==> v == m[k]
    ensures k !in m ==> v == default
  {
    if k in m then m[k] else default
  }

  function OrEmpty<V>(m: Option<map<string, V>>): (r: map<string, V>)
    ensures m.Some? ==> r == m.value
    ensures m.None? ==> r == map[]
  {
    if m.Some? then m.value else map[]
  }

  // ----- str() -----

  function DigitChar(d: nat): (c: char)
    requires d < 10
    ensures '0' <= c <= '9'
  {
    "0123456789"[d]
  }

  function NaturalText(n: nat): (s: string)
    ensures |s| >= 1
    ensures forall i :: 0 <= i < |s| ==> '0' <= s[i] <= '9'
  {
    if n < 10 then [DigitChar(n)] else NaturalText(n / 10) + [DigitChar(n % 10)]
  }

  /** `str(i)` for an integer */
  function IntText(i: int): string {
    if i < 0 then "-" + NaturalText(-i) else NaturalText(i)
  }

  function HexDigit(d: bv8): char
    requires d < 16
  {
    "0123456789abcdef"[d as int]
  }

  /** One byte as Python's `repr` of a bytes object writes it, inside the
      given quote character. */
  function ByteEscape(b: bv8, quote: bv8): string {
    if b == quote || b == 92 then ['\\', b as char]
    else if b == 9 then "\\t"
    else if b == 10 then "\\n"
    else if b == 13 then "\\r"
    else if b < 32 || b >= 127 then "\\x" + [HexDigit(b / 16), HexDigit(b % 16)]
    else [b as char]
  }

  function EscapeBytes(d: seq<bv8>, quote: bv8): string {
    if d == [] then "" else ByteEscape(d[0], quote) + EscapeBytes(d[1..], quote)
  }

  /** `str(b)` for a bytes object: `b'...'`, or `b"..."` when the bytes hold
      a single quote and no double quote. */
  function BytesText(d: seq<bv8>): string {
    var quote: bv8 := if 39 in d && 34 !in d then 34 else 39;
    "b" + [quote as char] + EscapeBytes(d, quote) + [quote as char]
  }

  /** `str(v)`, which is what `"{}".format(v)` inserts. */
  function Show(v: Value): string {
    match v
    case Null => "None"
    case Bool(b) => if b then "True" else "False"
    case Int(i) => IntText(i)
    case Text(s) => s
    case Bytes(d) => BytesText(d)
    case Other(text, _) => text
  }

  // ----- str.strip() and str.lower() -----

  /** `c.isspace()` for a single character: the ASCII whitespace and
      separators and the Unicode space characters. */
  predicate IsSpace(c: char) {
    || c == ' ' || c == '\t' || c == '\n' || c == '\r'
    || c == '\U{000B}' || c == '\U{000C}'
    || ('\U{001C}' <= c <= '\U{001F}')
    || c == '\U{0085}' || c == '\U{00A0}' || c == '\U{1680}'
    || ('\U{2000}' <= c <= '\U{200A}')
    || c == '\U{2028}' || c == '\U{2029}' || c == '\U{202F}' || c == '\U{205F}'
    || c == '\U{3000}'
  }

  /** `s.lstrip()`: the longest suffix of `s` that does not start with whitespace. */
  function StripStart(s: string): (r: string)
    ensures |r| <= |s| && r == s[|s| - |r|..]
    ensures r == [] || !IsSpace(r[0])
    ensures forall i :: 0 <= i < |s| - |r| ==> IsSpace(s[i])
  {
    if s != [] && IsSpace(s[0]) then StripStart(s[1..]) else s
  }

  /** `s.rstrip()`: the longest prefix of `s` that does not end with whitespace. */
  function StripEnd(s: string): (r: string)
    ensures |r| <= |s| && r == s[..|r|]
    ensures r == [] || !IsSpace(r[|r| - 1])
    ensures forall i :: |r| <= i < |s| ==> IsSpace(s[i])
  {
    if s != [] && IsSpace(s[|s| - 1]) then StripEnd(s[..|s| - 1]) else s
  }

  /** `s` neither starts nor ends with whitespace. */
  predicate NoOuterSpace(s: string) {
    s == [] || (!IsSpace(s[0]) && !IsSpace(s[|s| - 1]))
  }

  /** `s.strip()`: `s` without leading and trailing whitespace. */
  function Strip(s: string): (r: string)
    ensures NoOuterSpace(r)
  {
    StripEnd(StripStart(s))
  }

  /** Stripping keeps a run of consecutive characters of `s`, so it never
      brings in a character `s` does not have. */
  lemma StripKeepsCharacters(s: string, c: char)
    requires c in Strip(s)
    ensures c in s
  {
    var t := StripStart(s);
    var r := StripEnd(t);
    var i :| 0 <= i < |r| && r[i] == c;
    assert t[i] == c;
    assert s[|s| - |t| + i] == c;
  }

  /** A string without leading or trailing whitespace is its own strip. */
  lemma StripUnchanged(s: string)
    requires NoOuterSpace(s)
    ensures Strip(s) == s
  {
    assert StripStart(s) == s;
  }

  function LowerChar(c: char): (l: char)
    ensures 'A' <= c <= 'Z' ==> l as int == c as int + 32
    ensures !('A' <= c <= 'Z') ==> l == c
  {
    if 'A' <= c <= 'Z' then (c as int + 32) as char else c
  }

  /** `s.lower()` on the ASCII letters. For comparing with an all-ASCII
      lower-case word it agrees with Python's full Unicode `lower()`: no
      non-ASCII character lower-cases to an ASCII letter other than `k`. */
  function LowerAscii(s: string): (r: string)
    ensures |r| == |s|
    ensures forall i :: 0 <= i < |s| ==> r[i] == LowerChar(s[i])
  {
    seq(|s|, i requires 0 <= i < |s| => LowerChar(s[i]))
  }

  // ----- dict objects -----

  /** A Python `dict` object with string keys, for the dictionaries the
      library receives from its caller and changes in place. */
  class Dict<V> {
    var entries: map<string, V>

    constructor (initial: map<string, V>)
      ensures entries == initial
    {
      entries := initial;
    }

    /** `d.update(other)`: the keys of `other` take its values. */
    method Update(other: map<string, V>)
      modifies this
      ensures entries == old(entries) + other
    {
      entries := entries + other;
    }

    /** `d.pop(key)` for a key that is present. */
    method Pop(key: string) returns (v: V)
      requires key in entries
      modifies this
      ensures v == old(entries)[key]
      ensures entries == old(entries) - {key}
    {
      v := entries[key];
      entries := entries - {key};
    }
  }

  /** The entries of a dict argument, or None when the argument is None. */
  function Snapshot<V>(d: Dict?<V>): (r: Option<map<string, V>>)
    reads d
    ensures d == null <==> r.None?
    ensures d != null ==> r == Some(d.entries)
  {
    if d == null then None else Some(d.entries)
  }
}
