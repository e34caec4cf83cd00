/**
 * The slice of Python's value model and string library that the review
 * scraper relies on: decoded JSON values, truthiness (`x or y`, `if x`),
 * `dict.get`, iteration for `for`/`list.extend`, `str.strip`,
 * `str.replace('<br/>', '\n')`, `str.lower`, `in` on strings, `str.join`,
 * `str(int)` and `int(str)`.
 */
module Py {

  datatype Option<+T> = None | Some(value: T)

  datatype Result<+T, +E> = Success(value: T) | Failure(error: E) {
    predicate IsFailure() { Failure? }
    function PropagateFailure<U>(): Result<U, E>
      requires Failure?
    {
      Failure(error)
    }
    function Extract(): T
      requires Success?
    {
      value
    }
  }

  /**
   * The exception classes of the modelled code: the ones the per-record code
   * and the page loop can raise, and the ValueError of `urlparse`.
   */
  datatype PyError = TypeError | AttributeError | ValueError

  /**
   * A value produced by `json.loads` / `response.json()`. A dict is its keys
   * in insertion order (each once, as `for k in d` visits them) together with
   * the key-to-value mapping `d[k]` reads; floating-point numbers are not part
   * of the model.
   */
  datatype Json =
    | Null
    | Bool(b: bool)
    | Int(i: int)
    | Str(s: string)
    | Arr(items: seq<Json>)
    | Obj(keys: seq<string>, fields: map<string, Json>)

  /**
   * What the decoder guarantees of a dict: each key listed once, and the
   * listed keys are exactly the mapped ones.
   */
  predicate WellFormedDict(keys: seq<string>, fields: map<string, Json>) {
    && (forall i, j :: 0 <= i < j < |keys| ==> keys[i] != keys[j])
    && (forall i :: 0 <= i < |keys| ==> keys[i] in fields)
    && (forall k :: k in fields ==> k in keys)
  }

  /** For a decoded dict, truthiness by its key list is truthiness by its mapping. */
  lemma DictTruthiness(j: Json)
    requires j.Obj? && WellFormedDict(j.keys, j.fields)
    ensures Truthy(j) <==> j.fields != map[]
  {
    if j.keys != [] {
      assert j.keys[0] in j.fields;
    }
  }

  /** Python truthiness of a JSON value: `len(d) > 0` for a dict. */
  predicate Truthy(j: Json) {
    match j
    case Null => false
    case Bool(b) => b
    case Int(i) => i != 0
    case Str(s) => s != ""
    case Arr(items) => items != []
    case Obj(keys, _) => keys != []
  }

  /** `a or b` */
  function Or(a: Json, b: Json): (r: Json)
    ensures Truthy(a) ==> r == a
    ensures !Truthy(a) ==> r == b
  {
    if Truthy(a) then a else b
  }

  /** `d.get(key, default)` on a dict. */
  function GetOr(fields: map<string, Json>, key: string, default: Json): Json {
    if key in fields then fields[key] else default
  }

  /**
   * The elements that `for x in j` (and `list.extend(j)`) visits: list items,
   * the one-character strings of a string, the keys of a dict; `None`, bools
   * and ints are not iterable (TypeError).
   */
  function Iterate(j: Json): (r: Option<seq<Json>>)
    ensures r.Some? <==> (j.Arr? || j.Str? || j.Obj?)
    ensures r.Some? ==> (|r.value| == 0 <==> !Truthy(j))
  {
    match j
    case Arr(items) => Some(items)
    case Str(s) => Some(seq(|s|, i requires 0 <= i < |s| => Str([s[i]])))
    case Obj(keys, _) => Some(seq(|keys|, i requires 0 <= i < |keys| => Str(keys[i])))
    case _ => None
  }

  // ---------------------------------------------------------------- strings

  /** Characters for which Python's `str.isspace()` holds (what `strip()` removes). */
  predicate IsSpace(c: char) {
    c == ' ' || ('\t' <= c <= '\r') || ('\U{1c}' <= c <= '\U{1f}') ||
    c == '\U{85}' || c == '\U{a0}' || c == '\U{1680}' || ('\U{2000}' <= c <= '\U{200a}') ||
    c == '\U{2028}' || c == '\U{2029}' || c == '\U{202f}' || c == '\U{205f}' || c == '\U{3000}'
  }


  predicate AllSpace(s: string) {
    forall i :: 0 <= i < |s| ==> IsSpace(s[i])
  }

  lemma AllSpaceAppend(a: string, b: string)
    requires AllSpace(a) && AllSpace(b)
    ensures AllSpace(a + b)
  {
    assert forall i :: 0 <= i < |a + b| ==> (a + b)[i] == if i < |a| then a[i] else b[i - |a|];
  }

  /** `s.lstrip()`: the longest all-space prefix is removed. */
  function StripLeft(s: string): (r: string)
    ensures |r| <= |s| && r == s[|s| - |r|..] && AllSpace(s[..|s| - |r|])
    ensures r != [] ==> !IsSpace(r[0])
    decreases |s|
  {
    if |s| > 0 && IsSpace(s[0]) then
      var r := StripLeft(s[1..]);
      AllSpaceAppend([s[0]], s[1..][..|s| - 1 - |r|]);
      assert s[..|s| - |r|] == [s[0]] + s[1..][..|s| - 1 - |r|];
      assert s[|s| - |r|..] == s[1..][|s| - 1 - |r|..];
      r
    else
      s
  }

  /** `s.rstrip()`: the longest all-space suffix is removed. */
  function StripRight(s: string): (r: string)
    ensures |r| <= |s| && r == s[..|r|] && AllSpace(s[|r|..])
    ensures r != [] ==> !IsSpace(r[|r| - 1])
    decreases |s|
  {
    if |s| > 0 && IsSpace(s[|s| - 1]) then
      var p := s[..|s| - 1];
      var r := StripRight(p);
      AllSpaceAppend(p[|r|..], [s[|s| - 1]]);
      assert s[|r|..] == p[|r|..] + [s[|s| - 1]];
      assert s[..|r|] == p[..|r|];
      r
    else
      s
  }

  /** `s.strip()` */
  function Strip(s: string): string {
    StripRight(StripLeft(s))
  }

  /**
   * `strip()` removes exactly a space prefix and a space suffix and leaves no
   * space at either end of what remains.
   */
  lemma StripIsTrimmedSlice(s: string)
    ensures exists i, j :: 0 <= i <= j <= |s| && Strip(s) == s[i..j] &&
                           AllSpace(s[..i]) && AllSpace(s[j..])
    ensures Strip(s) != [] ==> !IsSpace(Strip(s)[0]) && !IsSpace(Strip(s)[|Strip(s)| - 1])
  {
    var l := StripLeft(s);
    var t := StripRight(l);
    var i := |s| - |l|;
    var j := i + |t|;
    SuffixSlices(s, i, |t|);
    assert AllSpace(s[..i]) && AllSpace(s[j..]) && Strip(s) == s[i..j];
    StripEnds(s);
  }

  /** Slicing a suffix of `s` is slicing `s` itself, shifted. */
  lemma SuffixSlices(s: string, i: nat, k: nat)
    requires i + k <= |s|
    ensures s[i..][..k] == s[i..i + k] && s[i..][k..] == s[i + k..]
  {
  }

  lemma StripEnds(s: string)
    ensures Strip(s) != [] ==> !IsSpace(Strip(s)[0]) && !IsSpace(Strip(s)[|Strip(s)| - 1])
  {
    var l := StripLeft(s);
    var t := StripRight(l);
    if t != [] {
      assert t[0] == l[0];
    }
  }

  /** Spaces in front do not change what `lstrip()` leaves. */
  lemma {:induction false} StripLeftSpaces(a: string, t: string)
    requires AllSpace(a)
    ensures StripLeft(a + t) == StripLeft(t)
    decreases |a|
  {
    if a != [] {
      assert (a + t)[0] == a[0];
      assert (a + t)[1..] == a[1..] + t;
      StripLeftSpaces(a[1..], t);
    } else {
      assert a + t == t;
    }
  }

  /** Spaces at the back do not change what `rstrip()` leaves. */
  lemma {:induction false} StripRightSpaces(t: string, b: string)
    requires AllSpace(b)
    ensures StripRight(t + b) == StripRight(t)
    decreases |b|
  {
    if b != [] {
      var x := t + b;
      assert x[|x| - 1] == b[|b| - 1];
      assert x[..|x| - 1] == t + b[..|b| - 1];
      StripRightSpaces(t, b[..|b| - 1]);
    } else {
      assert t + b == t;
    }
  }

  /** Once `lstrip()` reaches a non-space, whatever follows is kept as it is. */
  lemma {:induction false} StripLeftKeepsTail(s: string, b: string)
    requires StripLeft(s) != []
    ensures StripLeft(s + b) == StripLeft(s) + b
    decreases |s|
  {
    if IsSpace(s[0]) {
      assert (s + b)[1..] == s[1..] + b;
      StripLeftKeepsTail(s[1..], b);
    }
  }

  /** `(a + s + b).strip() == s.strip()` when `a` and `b` are whitespace. */
  lemma StripPadded(a: string, s: string, b: string)
    requires AllSpace(a) && AllSpace(b)
    ensures Strip(a + s + b) == Strip(s)
  {
    assert a + s + b == a + (s + b);
    StripLeftSpaces(a, s + b);
    if StripLeft(s) != [] {
      StripLeftKeepsTail(s, b);
      StripRightSpaces(StripLeft(s), b);
    } else {
      assert s[..|s|] == s;
      assert AllSpace(s + b);
      AllSpaceStripLeft(s + b);
    }
  }

  lemma {:induction false} AllSpaceStripLeft(x: string)
    requires AllSpace(x)
    ensures StripLeft(x) == []
    decreases |x|
  {
    if x != [] {
      AllSpaceStripLeft(x[1..]);
    }
  }

  /** `s.startswith(p)` */
  predicate StartsWith(s: string, p: string) {
    |p| <= |s| && s[..|p|] == p
  }

  /** `p in s` for strings. */
  predicate Contains(s: string, p: string)
    decreases |s|
  {
    StartsWith(s, p) || (|s| > 0 && Contains(s[1..], p))
  }

  function LowerChar(c: char): char {
    if 'A' <= c <= 'Z' then (c as int + 32) as char else c
  }

  /**
   * `s.lower()` restricted to ASCII letters. For the ASCII patterns the
   * scraper searches for ("json", "<html") this decides the same `in` test as
   * full Unicode lowering: the only non-ASCII characters whose lowercase
   * contains an ASCII letter are U+212A (to "k") and U+0130 (to "i" and a
   * combining dot), and neither pattern contains "k" or "i".
   */
  function Lower(s: string): (r: string)
    ensures |r| == |s|
    ensures forall i :: 0 <= i < |s| ==> r[i] == LowerChar(s[i])
  {
    seq(|s|, i requires 0 <= i < |s| => LowerChar(s[i]))
  }

  const LineBreakTag: string := "<br/>"

  /**
   * `s.replace('<br/>', '\n')`: every occurrence, scanned left to right and
   * without overlap, becomes one newline.
   */
  function ReplaceLineBreaks(s: string): string
    decreases |s|
  {
    if s == [] then []
    else if StartsWith(s, LineBreakTag) then "\n" + ReplaceLineBreaks(s[|LineBreakTag|..])
    else [s[0]] + ReplaceLineBreaks(s[1..])
  }

  /** A newline-free prefix of the replaced text was already there in the input. */
  lemma {:induction false} ReplacedPrefix(s: string, p: string)
    requires forall i :: 0 <= i < |p| ==> p[i] != '\n'
    ensures StartsWith(ReplaceLineBreaks(s), p) ==> StartsWith(s, p)
    decreases |s|
  {
    var r := ReplaceLineBreaks(s);
    if p == [] || s == [] {
    } else if StartsWith(s, LineBreakTag) {
      assert r[0] == '\n';
    } else if StartsWith(r, p) {
      var rest := ReplaceLineBreaks(s[1..]);
      assert r == [s[0]] + rest;
      assert p[0] == s[0];
      assert StartsWith(rest, p[1..]) by {
        assert rest[..|p| - 1] == r[1..|p|] == p[1..];
      }
      ReplacedPrefix(s[1..], p[1..]);
      assert s[..|p|] == [s[0]] + s[1..][..|p| - 1];
    }
  }

  /** No "<br/>" is left after the replacement. */
  lemma {:induction false} ReplaceLeavesNoTag(s: string)
    ensures !Contains(ReplaceLineBreaks(s), LineBreakTag)
    decreases |s|
  {
    var r := ReplaceLineBreaks(s);
    if s == [] {
    } else if StartsWith(s, LineBreakTag) {
      ReplaceLeavesNoTag(s[|LineBreakTag|..]);
      assert r[1..] == ReplaceLineBreaks(s[|LineBreakTag|..]);
      assert r[0] == '\n';
    } else {
      ReplaceLeavesNoTag(s[1..]);
      assert r[1..] == ReplaceLineBreaks(s[1..]);
      assert |s| >= 5 ==> s[..5] == [s[0]] + s[1..][..4];
      assert !StartsWith(r, LineBreakTag) by {
        ReplacedPrefix(s[1..], "br/>");
        if StartsWith(r, LineBreakTag) {
          assert StartsWith(r[1..], "br/>");
        }
      }
    }
  }

  /** Text without "<br/>" is left as it is. */
  lemma {:induction false} ReplaceWithoutTag(s: string)
    requires !Contains(s, LineBreakTag)
    ensures ReplaceLineBreaks(s) == s
    decreases |s|
  {
    if s != [] {
      ReplaceWithoutTag(s[1..]);
    }
  }

  /** Text with no '<' cannot start a tag, so it passes through unchanged. */
  lemma {:induction false} ReplacePlainPrefix(a: string, b: string)
    requires forall i :: 0 <= i < |a| ==> a[i] != '<'
    ensures ReplaceLineBreaks(a + b) == a + ReplaceLineBreaks(b)
    decreases |a|
  {
    if a != [] {
      assert (a + b)[0] == a[0] && (a + b)[1..] == a[1..] + b;
      assert !StartsWith(a + b, LineBreakTag);
      ReplacePlainPrefix(a[1..], b);
      assert a == [a[0]] + a[1..];
    } else {
      assert a + b == b;
    }
  }

  /** A single tag between two tag-free texts becomes a single line break. */
  lemma ReplaceOneTag(a: string, b: string)
    requires forall i :: 0 <= i < |a| ==> a[i] != '<'
    requires forall i :: 0 <= i < |b| ==> b[i] != '<'
    ensures ReplaceLineBreaks(a + LineBreakTag + b) == a + "\n" + b
  {
    ReplacePlainPrefix(a, LineBreakTag + b);
    assert a + LineBreakTag + b == a + (LineBreakTag + b);
    assert StartsWith(LineBreakTag + b, LineBreakTag);
    assert (LineBreakTag + b)[|LineBreakTag|..] == b + [];
    ReplacePlainPrefix(b, []);
    assert b + [] == b;
  }

  /** `sep.join(parts)` */
  function Join(sep: string, parts: seq<string>): string {
    if parts == [] then ""
    else if |parts| == 1 then parts[0]
    else parts[0] + sep + Join(sep, parts[1..])
  }

  /** The separators are the only text `join` adds. */
  lemma {:induction false} JoinLength(sep: string, parts: seq<string>)
    requires parts != []
    ensures |Join(sep, parts)| == SumLengths(parts) + (|parts| - 1) * |sep|
  {
    if |parts| > 1 {
      JoinLength(sep, parts[1..]);
    }
  }

  function SumLengths(parts: seq<string>): nat {
    if parts == [] then 0 else |parts[0]| + SumLengths(parts[1..])
  }

  /** An ASCII digit, what `[0-9]` matches and `str(int)` writes. */
  predicate IsDigit(c: char) {
    '0' <= c <= '9'
  }

  function DigitChar(d: nat): char
    requires d < 10
  {
    ('0' as int + d) as char
  }

  /** `str(n)` for a non-negative integer: its decimal digits, no leading zero. */
  function NatToString(n: nat): (r: string)
    ensures |r| > 0 && forall i :: 0 <= i < |r| ==> IsDigit(r[i])
    ensures |r| > 1 ==> r[0] != '0'
  {
    if n < 10 then [DigitChar(n)] else NatToString(n / 10) + [DigitChar(n % 10)]
  }

  /**
   * The decimal text of `i`, which `str(i)` gives for every integer of at
   * most `MaxStrDigits` digits (`str` raises ValueError beyond).
   */
  function IntToString(i: int): string {
    if i < 0 then "-" + NatToString(-i) else NatToString(i)
  }

  /**
   * The code point of the digit zero of the block of Unicode decimal digits
   * (general category Nd, Unicode 15.0) that holds code point `n`, or -1 when
   * `n` is not a decimal digit. The 68 blocks are ten consecutive code points
   * each, looked up in groups of eight.
   */
  function DecimalZero(n: int): (z: int)
    ensures z < 0 || z <= n <= z + 9
    ensures z < 0 || z >= 0x30
    ensures 0x30 <= n <= 0x39 ==> z == 0x30
  {
    if n < 0xB66 then DecimalZeroIn1(n)
    else if n < 0xF20 then DecimalZeroIn2(n)
    else if n < 0x1A90 then DecimalZeroIn3(n)
    else if n < 0xA9D0 then DecimalZeroIn4(n)
    else if n < 0x110F0 then DecimalZeroIn5(n)
    else if n < 0x11730 then DecimalZeroIn6(n)
    else if n < 0x16AC0 then DecimalZeroIn7(n)
    else if n < 0x1E2F0 then DecimalZeroIn8(n)
    else DecimalZeroIn9(n)
  }

  function DecimalZeroIn1(n: int): (z: int)
    ensures z < 0 || z <= n <= z + 9
    ensures z < 0 || z >= 0x30
    ensures 0x30 <= n <= 0x39 ==> z == 0x30
  {
    if 0x30 <= n <= 0x39 then 0x30
    else if 0x660 <= n <= 0x669 then 0x660
    else if 0x6F0 <= n <= 0x6F9 then 0x6F0
    else if 0x7C0 <= n <= 0x7C9 then 0x7C0
    else if 0x966 <= n <= 0x96F then 0x966
    else if 0x9E6 <= n <= 0x9EF then 0x9E6
    else if 0xA66 <= n <= 0xA6F then 0xA66
    else if 0xAE6 <= n <= 0xAEF then 0xAE6
    else -1
  }

  function DecimalZeroIn2(n: int): (z: int)
    ensures z < 0 || z <= n <= z + 9
    ensures z < 0 || z >= 0x30
  {
    if 0xB66 <= n <= 0xB6F then 0xB66
    else if 0xBE6 <= n <= 0xBEF then 0xBE6
    else if 0xC66 <= n <= 0xC6F then 0xC66
    else if 0xCE6 <= n <= 0xCEF then 0xCE6
    else if 0xD66 <= n <= 0xD6F then 0xD66
    else if 0xDE6 <= n <= 0xDEF then 0xDE6
    else if 0xE50 <= n <= 0xE59 then 0xE50
    else if 0xED0 <= n <= 0xED9 then 0xED0
    else -1
  }

  function DecimalZeroIn3(n: int): (z: int)
    ensures z < 0 || z <= n <= z + 9
    ensures z < 0 || z >= 0x30
  {
    if 0xF20 <= n <= 0xF29 then 0xF20
    else if 0x1040 <= n <= 0x1049 then 0x1040
    else if 0x1090 <= n <= 0x1099 then 0x1090
    else if 0x17E0 <= n <= 0x17E9 then 0x17E0
    else if 0x1810 <= n <= 0x1819 then 0x1810
    else if 0x1946 <= n <= 0x194F then 0x1946
    else if 0x19D0 <= n <= 0x19D9 then 0x19D0
    else if 0x1A80 <= n <= 0x1A89 then 0x1A80
    else -1
  }

  function DecimalZeroIn4(n: int): (z: int)
    ensures z < 0 || z <= n <= z + 9
    ensures z < 0 || z >= 0x30
  {
    if 0x1A90 <= n <= 0x1A99 then 0x1A90
    else if 0x1B50 <= n <= 0x1B59 then 0x1B50
    else if 0x1BB0 <= n <= 0x1BB9 then 0x1BB0
    else if 0x1C40 <= n <= 0x1C49 then 0x1C40
    else if 0x1C50 <= n <= 0x1C59 then 0x1C50
    else if 0xA620 <= n <= 0xA629 then 0xA620
    else if 0xA8D0 <= n <= 0xA8D9 then 0xA8D0
    else if 0xA900 <= n <= 0xA909 then 0xA900
    else -1
  }

  function DecimalZeroIn5(n: int): (z: int)
    ensures z < 0 || z <= n <= z + 9
    ensures z < 0 || z >= 0x30
  {
    if 0xA9D0 <= n <= 0xA9D9 then 0xA9D0
    else if 0xA9F0 <= n <= 0xA9F9 then 0xA9F0
    else if 0xAA50 <= n <= 0xAA59 then 0xAA50
    else if 0xABF0 <= n <= 0xABF9 then 0xABF0
    else if 0xFF10 <= n <= 0xFF19 then 0xFF10
    else if 0x104A0 <= n <= 0x104A9 then 0x104A0
    else if 0x10D30 <= n <= 0x10D39 then 0x10D30
    else if 0x11066 <= n <= 0x1106F then 0x11066
    else -1
  }

  function DecimalZeroIn6(n: int): (z: int)
    ensures z < 0 || z <= n <= z + 9
    ensures z < 0 || z >= 0x30
  {
    if 0x110F0 <= n <= 0x110F9 then 0x110F0
    else if 0x11136 <= n <= 0x1113F then 0x11136
    else if 0x111D0 <= n <= 0x111D9 then 0x111D0
    else if 0x112F0 <= n <= 0x112F9 then 0x112F0
    else if 0x11450 <= n <= 0x11459 then 0x11450
    else if 0x114D0 <= n <= 0x114D9 then 0x114D0
    else if 0x11650 <= n <= 0x11659 then 0x11650
    else if 0x116C0 <= n <= 0x116C9 then 0x116C0
    else -1
  }

  function DecimalZeroIn7(n: int): (z: int)
    ensures z < 0 || z <= n <= z + 9
    ensures z < 0 || z >= 0x30
  {
    if 0x11730 <= n <= 0x11739 then 0x11730
    else if 0x118E0 <= n <= 0x118E9 then 0x118E0
    else if 0x11950 <= n <= 0x11959 then 0x11950
    else if 0x11C50 <= n <= 0x11C59 then 0x11C50
    else if 0x11D50 <= n <= 0x11D59 then 0x11D50
    else if 0x11DA0 <= n <= 0x11DA9 then 0x11DA0
    else if 0x11F50 <= n <= 0x11F59 then 0x11F50
    else if 0x16A60 <= n <= 0x16A69 then 0x16A60
    else -1
  }

  function DecimalZeroIn8(n: int): (z: int)
    ensures z < 0 || z <= n <= z + 9
    ensures z < 0 || z >= 0x30
  {
    if 0x16AC0 <= n <= 0x16AC9 then 0x16AC0
    else if 0x16B50 <= n <= 0x16B59 then 0x16B50
    else if 0x1D7CE <= n <= 0x1D7D7 then 0x1D7CE
    else if 0x1D7D8 <= n <= 0x1D7E1 then 0x1D7D8
    else if 0x1D7E2 <= n <= 0x1D7EB then 0x1D7E2
    else if 0x1D7EC <= n <= 0x1D7F5 then 0x1D7EC
    else if 0x1D7F6 <= n <= 0x1D7FF then 0x1D7F6
    else if 0x1E140 <= n <= 0x1E149 then 0x1E140
    else -1
  }

  function DecimalZeroIn9(n: int): (z: int)
    ensures z < 0 || z <= n <= z + 9
    ensures z < 0 || z >= 0x30
  {
    if 0x1E2F0 <= n <= 0x1E2F9 then 0x1E2F0
    else if 0x1E4F0 <= n <= 0x1E4F9 then 0x1E4F0
    else if 0x1E950 <= n <= 0x1E959 then 0x1E950
    else if 0x1FBF0 <= n <= 0x1FBF9 then 0x1FBF0
    else -1
  }

  /** The value of a decimal digit character, which `int()` reads as a digit; none for other characters. */
  function DecimalDigit(c: char): (r: Option<nat>)
    ensures IsDigit(c) ==> r == Some(c as int - '0' as int)
  {
    var z := DecimalZero(c as int);
    if z < 0 then None else Some(c as int - z)
  }

  predicate IsDecimal(c: char) {
    DecimalDigit(c).Some?
  }

  /** A decimal digit is neither whitespace nor a sign. */
  lemma DecimalIsPlain(c: char)
    requires IsDecimal(c)
    ensures !IsSpace(c) && c != '-' && c != '+'
  {
  }

  /**
   * The value of a run of decimal digits and underscores, underscores ignored.
   */
  function DigitsValue(s: string): nat
    requires forall i :: 0 <= i < |s| ==> IsDecimal(s[i]) || s[i] == '_'
  {
    if s == [] then 0
    else if s[|s| - 1] == '_' then DigitsValue(s[..|s| - 1])
    else
      assert IsDecimal(s[|s| - 1]);
      10 * DigitsValue(s[..|s| - 1]) + DecimalDigit(s[|s| - 1]).value
  }

  /**
   * The digit part that `int()` accepts in base 10: decimal digits, with
   * single underscores allowed only between two digits.
   */
  predicate WellFormedDigits(s: string) {
    && |s| > 0
    && IsDecimal(s[0]) && IsDecimal(s[|s| - 1])
    && (forall i :: 0 <= i < |s| ==> IsDecimal(s[i]) || s[i] == '_')
    && (forall i :: 0 <= i < |s| - 1 ==> UnderscoreJoins(s, i))
  }

  /** An underscore at `i` is followed by a digit. */
  predicate UnderscoreJoins(s: string, i: int)
    requires 0 <= i < |s| - 1
  {
    s[i] == '_' ==> IsDecimal(s[i + 1])
  }

  /**
   * The default of `sys.get_int_max_str_digits()`: `int()` refuses text with
   * more digits than this, and `str()` refuses integers that need more.
   */
  const MaxStrDigits: nat := 4300

  /** The digits of a run of digits and underscores: its characters other than `_`. */
  function DigitCount(s: string): (n: nat)
    ensures n <= |s|
  {
    if s == [] then 0
    else DigitCount(s[..|s| - 1]) + (if s[|s| - 1] == '_' then 0 else 1)
  }

  /**
   * `int(text)` in base 10: surrounding whitespace is ignored, then one
   * optional sign and well-formed digits, at most `MaxStrDigits` of them;
   * anything else is a ValueError (`None`).
   */
  function ParseInt(text: string): Option<int> {
    ParseNumber(Strip(text))
  }

  /**
   * A number is accepted only if the stripped text is a sign or a digit
   * followed by digits and underscores, and it is negative only after a
   * minus sign.
   */
  lemma ParseAccepts(text: string)
    ensures ParseInt(text).Some? ==> SignedDigits(Strip(text)) && (ParseInt(text).value < 0 ==> Strip(text)[0] == '-')
  {
    NumberAccepts(Strip(text));
  }

  lemma NumberAccepts(t: string)
    ensures ParseNumber(t).Some? ==> SignedDigits(t) && (ParseNumber(t).value < 0 ==> t[0] == '-')
  {
  }

  /** A sign or a digit, then only digits and underscores. */
  predicate SignedDigits(t: string) {
    && t != []
    && (IsDecimal(t[0]) || t[0] == '-' || t[0] == '+')
    && (forall i :: 1 <= i < |t| ==> IsDecimal(t[i]) || t[i] == '_')
  }

  /** A sign and well-formed digits, the whitespace already stripped. */
  function ParseNumber(t: string): Option<int>
  {
    if t == [] then None
    else if t[0] == '-' then Negated(ParseUnsigned(t[1..]))
    else if t[0] == '+' then
      match ParseUnsigned(t[1..])
      case Some(magnitude) => Some(magnitude as int)
      case None => None
    else
      match ParseUnsigned(t)
      case Some(magnitude) => Some(magnitude as int)
      case None => None
  }

  function Negated(r: Option<nat>): Option<int> {
    match r
    case Some(magnitude) => Some(-(magnitude as int))
    case None => None
  }

  /** Well-formed digits, at most `MaxStrDigits` of them, and their value. */
  function ParseUnsigned(body: string): Option<nat> {
    if WellFormedDigits(body) && DigitCount(body) <= MaxStrDigits then Some(DigitsValue(body)) else None
  }

  /** `int()` ignores whitespace around the number. */
  lemma ParsePadded(a: string, text: string, b: string)
    requires AllSpace(a) && AllSpace(b)
    ensures ParseInt(a + text + b) == ParseInt(text)
  {
    StripPadded(a, text, b);
  }

  lemma {:induction false} NatToStringValue(n: nat)
    ensures WellFormedDigits(NatToString(n))
    ensures DigitsValue(NatToString(n)) == n
  {
    var r := NatToString(n);
    if n >= 10 {
      NatToStringValue(n / 10);
      assert r[..|r| - 1] == NatToString(n / 10);
    }
  }

  /** Text with no space at either end is left alone by `strip()`. */
  lemma StripUntouched(t: string)
    requires t != [] && !IsSpace(t[0]) && !IsSpace(t[|t| - 1])
    ensures Strip(t) == t
  {
    assert StripLeft(t) == t;
  }

  /**
   * Well-formed digits parse to their value when there are at most
   * `MaxStrDigits` of them, and are a ValueError otherwise.
   */
  lemma ParseDigitRun(body: string)
    requires WellFormedDigits(body)
    ensures ParseInt(body) == if DigitCount(body) <= MaxStrDigits then Some(DigitsValue(body) as int) else None
  {
    DecimalIsPlain(body[0]);
    DecimalIsPlain(body[|body| - 1]);
    StripUntouched(body);
  }

  /** The same run of digits after a minus sign: minus its value, or a ValueError past the limit. */
  lemma ParseNegativeRun(body: string)
    requires body != [] && IsDecimal(body[|body| - 1])
    ensures ParseInt("-" + body) == Negated(ParseUnsigned(body))
  {
    var t := "-" + body;
    calc {
      ParseInt(t);
      ParseNumber(Strip(t));
      { MinusKept(body); }
      ParseNumber(t);
      { assert t[0] == '-' && t[1..] == body; }
      Negated(ParseUnsigned(body));
    }
  }


  /** With a digit at its end, text after a minus sign survives `strip()`. */
  lemma MinusKept(body: string)
    requires body != [] && IsDecimal(body[|body| - 1])
    ensures Strip("-" + body) == "-" + body
  {
    var t := "-" + body;
    assert t[|t| - 1] == body[|body| - 1];
    DecimalIsPlain(body[|body| - 1]);
    StripUntouched(t);
  }

  /** Text without underscores counts each of its characters as a digit. */
  lemma {:induction false} DigitCountPlain(s: string)
    requires forall i :: 0 <= i < |s| ==> s[i] != '_'
    ensures DigitCount(s) == |s|
  {
    if s != [] {
      DigitCountPlain(s[..|s| - 1]);
    }
  }

  function Pow10(w: nat): nat {
    if w == 0 then 1 else 10 * Pow10(w - 1)
  }

  /** `str(n)` has at most `k` digits exactly when `n < 10^k`. */
  lemma {:induction false} NatToStringLength(n: nat, k: nat)
    requires k >= 1
    ensures |NatToString(n)| <= k <==> n < Pow10(k)
    decreases k
  {
    if n >= 10 {
      if k == 1 {
        assert Pow10(1) == 10;
      } else {
        NatToStringLength(n / 10, k - 1);
      }
    } else {
      PowAtLeastTen(k);
    }
  }

  lemma {:induction false} PowAtLeastTen(k: nat)
    requires k >= 1
    ensures Pow10(k) >= 10
  {
    if k > 1 {
      PowAtLeastTen(k - 1);
    }
  }

  /** The size of an integer, as `str()` writes it without the sign. */
  function Magnitude(i: int): nat {
    if i < 0 then -i else i
  }

  /**
   * `int(str(i)) == i` for every integer of at most `MaxStrDigits` digits;
   * the text of a longer one is refused, as `str(i)` itself is in Python.
   */
  lemma IntToStringRoundTrip(i: int)
    ensures |NatToString(Magnitude(i))| <= MaxStrDigits ==> ParseInt(IntToString(i)) == Some(i)
    ensures |NatToString(Magnitude(i))| > MaxStrDigits ==> ParseInt(IntToString(i)) == None
  {
    if i < 0 {
      NegativeIntRoundTrip(i);
    } else {
      NatRoundTrip(i);
      assert IntToString(i) == NatToString(i);
    }
  }

  lemma NegativeIntRoundTrip(i: int)
    requires i < 0
    ensures ParseInt(IntToString(i)) == if |NatToString(-i)| <= MaxStrDigits then Some(i) else None
  {
    var n: nat := -i;
    assert IntToString(i) == "-" + NatToString(n);
    NegativeRoundTrip(n);
  }

  /** `str(n)` is well-formed digit text worth `n`, every character a digit. */
  lemma NatToStringDigits(n: nat)
    ensures WellFormedDigits(NatToString(n))
    ensures DigitsValue(NatToString(n)) == n
    ensures DigitCount(NatToString(n)) == |NatToString(n)|
  {
    NatToStringValue(n);
    DigitCountPlain(NatToString(n));
  }

  lemma NatRoundTrip(n: nat)
    ensures ParseInt(NatToString(n)) == if |NatToString(n)| <= MaxStrDigits then Some(n) else None
  {
    NatToStringDigits(n);
    ParseDigitRun(NatToString(n));
  }

  lemma NegativeRoundTrip(n: nat)
    ensures ParseInt("-" + NatToString(n)) == if |NatToString(n)| <= MaxStrDigits then Some(-(n as int)) else None
  {
    var r := NatToString(n);
    calc {
      ParseInt("-" + r);
      { assert IsDecimal(r[|r| - 1]); ParseNegativeRun(r); }
      Negated(ParseUnsigned(r));
      { UnsignedOfNat(n); }
      if |r| <= MaxStrDigits then Some(-(n as int)) else None;
    }
  }

  /** The digits of `str(n)` read back as `n`, within the limit, negated. */
  lemma UnsignedOfNat(n: nat)
    ensures Negated(ParseUnsigned(NatToString(n))) == if |NatToString(n)| <= MaxStrDigits then Some(-(n as int)) else None
  {
    NatToStringDigits(n);
  }



  /**
   * `int()` reads any Unicode decimal digits: "１００" in full-width digits,
   * as a Korean input method types them in full-width mode, is 100.
   */
  lemma FullWidthDigits()
    ensures ParseInt("\U{FF11}\U{FF10}\U{FF10}") == Some(100)
  {
    var t := "\U{FF11}\U{FF10}\U{FF10}";
    FullWidthValue(t[0], t[1]);
    assert t == [t[0], t[1], t[1]];
    assert !IsSpace(t[0]) && !IsSpace(t[2]);
    StripUntouched(t);
  }

  lemma FullWidthValue(one: char, zero: char)
    requires one as int == 0xFF11 && zero as int == 0xFF10
    ensures ParseNumber([one, zero, zero]) == Some(100)
  {
    assert DecimalZero(0xFF11) == 0xFF10 && DecimalZero(0xFF10) == 0xFF10;
    assert DecimalDigit(one) == Some(1) && DecimalDigit(zero) == Some(0);
    var t := [one, zero, zero];
    assert t[..2] == [one, zero] && [one, zero][..1] == [one] && [one][..0] == [];
    assert DigitsValue([one]) == 1;
    assert DigitsValue([one, zero]) == 10;
    assert DigitsValue(t) == 100;
    assert WellFormedDigits(t);
  }
}
