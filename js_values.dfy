/**
 * JavaScript values as the services see them: the JSON values that arrive in
 * request bodies, query results and queue messages, with the few built-in
 * operations the core applies to them (truthiness, property access, object
 * spread, `String.prototype.trim`, `toLowerCase`, `includes`, `length`).
 */
module JsValues {

  /** A JavaScript number. Reals are exact: double rounding is not modelled. */
  datatype Number = Finite(value: real) | PosInf | NegInf | NaN

  /** A JSON-like JavaScript value. Objects keep their keys in insertion order. */
  datatype Value =
    | Undefined
    | Null
    | Bool(b: bool)
    | Num(n: Number)
    | Str(s: string)
    | Arr(items: seq<Value>)
    | Obj(entries: seq<(string, Value)>)

  /** The own enumerable entries of an object, in `Object.entries` order. */
  type Entries = seq<(string, Value)>

  /** JavaScript truthiness (`if (v)`, `v || d`, `!v`). */
  predicate Truthy(v: Value) {
    match v
    case Undefined => false
    case Null => false
    case Bool(b) => b
    case Num(n) => n.PosInf? || n.NegInf? || (n.Finite? && n.value != 0.0)
    case Str(s) => s != ""
    case Arr(_) => true
    case Obj(_) => true
  }

  /** `Number.isFinite` */
  predicate IsFinite(n: Number) { n.Finite? }

  /** True iff `key` is one of the keys of `o`. */
  predicate HasKey(o: Entries, key: string) {
    exists i :: 0 <= i < |o| && o[i].0 == key
  }

  /** Property read `o[key]` on an object: the value of the entry with that key, or undefined. */
  function Get(o: Entries, key: string): (v: Value)
    ensures !HasKey(o, key) ==> v == Undefined
    ensures HasKey(o, key) ==> exists i :: 0 <= i < |o| && o[i] == (key, v)
  {
    if o == [] then Undefined
    else if o[0].0 == key then o[0].1
    else Get(o[1..], key)
  }

  /**
   * Property read `v.key` on any value. Only objects have the keys the core
   * asks for; on every other value the read gives undefined. (Reading a
   * property of null or undefined throws; callers check that themselves.)
   */
  function Prop(v: Value, key: string): Value {
    if v.Obj? then Get(v.entries, key) else Undefined
  }

  /**
   * `{ ...o, [key]: v }`: an existing key keeps its position and takes the new
   * value, a new key goes last.
   */
  function SetProp(o: Entries, key: string, v: Value): (r: Entries)
    ensures Get(r, key) == v
    ensures forall k :: k != key ==> Get(r, k) == Get(o, k)
    ensures HasKey(o, key) ==> |r| == |o|
    ensures !HasKey(o, key) ==> r == o + [(key, v)]
  {
    if o == [] then [(key, v)]
    else if o[0].0 == key then [(key, v)] + o[1..]
    else [o[0]] + SetProp(o[1..], key, v)
  }

  /**
   * The characters `String.prototype.trim` removes: WhiteSpace (TAB, VT, FF,
   * SP, NBSP, ZWNBSP and every space separator of Unicode category Zs) and
   * the LineTerminators (LF, CR, LS, PS).
   */
  predicate IsWhitespace(c: char) {
    c == '\t' || c == '\n' || c == '\U{000B}' || c == '\U{000C}' || c == '\r' ||
    c == ' ' || c == '\U{00A0}' || c == '\U{1680}' || ('\U{2000}' <= c <= '\U{200A}') ||
    c == '\U{2028}' || c == '\U{2029}' || c == '\U{202F}' || c == '\U{205F}' ||
    c == '\U{3000}' || c == '\U{FEFF}'
  }

  /** `trimStart`: drops the leading whitespace and nothing else. */
  function TrimStart(s: string): (r: string)
    ensures |r| <= |s| && r == s[|s| - |r|..]
    ensures r == [] || !IsWhitespace(r[0])
    ensures forall k :: 0 <= k < |s| - |r| ==> IsWhitespace(s[k])
  {
    if s != [] && IsWhitespace(s[0]) then TrimStart(s[1..]) else s
  }

  /** `trimEnd`: drops the trailing whitespace and nothing else. */
  function TrimEnd(s: string): (r: string)
    ensures |r| <= |s| && r == s[..|r|]
    ensures r == [] || !IsWhitespace(r[|r| - 1])
    ensures forall k :: |r| <= k < |s| ==> IsWhitespace(s[k])
  {
    if s != [] && IsWhitespace(s[|s| - 1]) then TrimEnd(s[..|s| - 1]) else s
  }

  /** `trim`: neither end of the result is whitespace, and the result is a slice of `s`. */
  function Trim(s: string): (r: string)
    ensures |r| <= |TrimStart(s)| <= |s|
    ensures r == [] || (!IsWhitespace(r[0]) && !IsWhitespace(r[|r| - 1]))
    ensures r == s[|s| - |TrimStart(s)|..][..|r|]
  {
    TrimEnd(TrimStart(s))
  }

  /**
   * `trim` removes whitespace and only whitespace: with `a` the number of
   * characters `trimStart` drops, the result is the slice `s[a..b]`, and
   * everything before `a` and from `b` on is whitespace.
   */
  lemma TrimSpec(s: string)
    ensures var a := |s| - |TrimStart(s)|;
      var b := a + |Trim(s)|;
      && b <= |s| && Trim(s) == s[a..b]
      && (forall k :: 0 <= k < a ==> IsWhitespace(s[k]))
      && (forall k :: b <= k < |s| ==> IsWhitespace(s[k]))
  {
    var t := TrimStart(s);
    var r := TrimEnd(t);
    var a := |s| - |t|;
    assert t == s[a..];
    assert r == t[..|r|];
    SliceOfSuffix(s, a, |r|);
    forall k | a + |r| <= k < |s| ensures IsWhitespace(s[k]) {
      assert s[k] == t[k - a];
    }
  }

  /** A prefix of a suffix is a slice. */
  lemma SliceOfSuffix(s: string, a: nat, n: nat)
    requires a + n <= |s|
    ensures s[a..][..n] == s[a..a + n]
  {
  }

  /** A string that neither starts nor ends with whitespace is its own trim. */
  lemma TrimUntouched(s: string)
    requires s == [] || (!IsWhitespace(s[0]) && !IsWhitespace(s[|s| - 1]))
    ensures Trim(s) == s
  {
    assert TrimStart(s) == s;
  }

  /** Trimming twice is trimming once. */
  lemma {:induction false} TrimIdempotent(s: string)
    ensures Trim(Trim(s)) == Trim(s)
  {
    var t := Trim(s);
    assert TrimStart(t) == t;
    assert TrimEnd(t) == t;
  }

  /** `toLowerCase` on the ASCII letters; every other character is kept. */
  function LowerChar(c: char): char {
    if 'A' <= c <= 'Z' then (c as int + 32) as char else c
  }

  /**
   * `toLowerCase` character by character: no upper-case ASCII letter is
   * left, an upper-case letter becomes its lower-case partner, and every
   * other character is kept.
   */
  function ToLower(s: string): (r: string)
    ensures |r| == |s|
    ensures forall i :: 0 <= i < |r| ==> !('A' <= r[i] <= 'Z')
    ensures forall i :: 0 <= i < |s| && !('A' <= s[i] <= 'Z') ==> r[i] == s[i]
    ensures forall i :: 0 <= i < |s| && 'A' <= s[i] <= 'Z' ==> 'a' <= r[i] <= 'z' && r[i] as int - s[i] as int == 32
  {
    seq(|s|, i requires 0 <= i < |s| => LowerChar(s[i]))
  }

  /** `parts.join(sep)` */
  function Join(parts: seq<string>, sep: string): (r: string)
    ensures parts == [] ==> r == ""
    ensures |parts| == 1 ==> r == parts[0]
    decreases |parts|
  {
    if parts == [] then ""
    else if |parts| == 1 then parts[0]
    else parts[0] + sep + Join(parts[1..], sep)
  }

  /** `haystack.includes(needle)`; the empty needle occurs everywhere. */
  predicate Includes(haystack: string, needle: string) {
    exists i :: 0 <= i <= |haystack| - |needle| && OccursAt(haystack, needle, i)
  }

  /** `needle` occurs in `haystack` starting at index `i`. */
  predicate OccursAt(haystack: string, needle: string, i: int) {
    0 <= i <= |haystack| - |needle| && haystack[i..i + |needle|] == needle
  }

  /** The number of UTF-16 code units of a character (what `length` counts). */
  function CodeUnits(c: char): nat {
    if c as int >= 0x10000 then 2 else 1
  }

  /** `s.length`: the string's length in UTF-16 code units. */
  function Utf16Length(s: string): (n: nat)
    ensures |s| <= n <= 2 * |s|
  {
    if s == [] then 0 else CodeUnits(s[0]) + Utf16Length(s[1..])
  }
}
