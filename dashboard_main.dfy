/**
 * The dashboard page script's pure helpers: `escapeHtml`, `buildUrl` over a
 * `URLSearchParams` list, the route's filter normalisation and the card
 * filter of `applyFilterAndSearch`. The DOM, jQuery, `fetch` and the router
 * around them are not part of this model; the cards are objects whose only
 * state is whether they are shown.
 */
module DashboardMain {
  import opened Wrappers
  import opened JsValues

  // ---------------------------------------------------------------------
  // escapeHtml
  // ---------------------------------------------------------------------

  /**
   * `s.replaceAll(pat, rep)`: the occurrences of `pat` are found from the
   * left and do not overlap; the replacement is not scanned again.
   */
  function ReplaceAll(s: string, pat: string, rep: string): (r: string)
    requires pat != []
    decreases |s|
  {
    if s == [] then []
    else if |pat| <= |s| && s[..|pat|] == pat then rep + ReplaceAll(s[|pat|..], pat, rep)
    else [s[0]] + ReplaceAll(s[1..], pat, rep)
  }

  /** The five characters `escapeHtml` replaces. */
  const Specials: set<char> := {'&', '<', '>', '"', '\''}

  /** The entity each special character becomes. */
  function Entity(c: char): (e: string)
    requires c in Specials
    ensures |e| >= 4 && e[0] == '&' && e[|e| - 1] == ';'
    ensures forall j :: 1 <= j < |e| ==> e[j] !in Specials
  {
    match c
    case '&' => "&amp;"
    case '<' => "&lt;"
    case '>' => "&gt;"
    case '"' => "&quot;"
    case '\'' => "&#039;"
  }

  /** Two different entities already differ in their second character. */
  lemma EntitiesDiffer(c: char, d: char)
    requires c in Specials && d in Specials && c != d
    ensures Entity(c)[1] != Entity(d)[1]
  {
  }

  /** What one character becomes when the characters in `escaped` are escaped. */
  function Chunk(c: char, escaped: set<char>): string
    requires escaped <= Specials
  {
    if c in escaped then Entity(c) else [c]
  }

  /** `s` with every character in `escaped` replaced by its entity, one character at a time. */
  function EscapeWith(s: string, escaped: set<char>): string
    requires escaped <= Specials
  {
    if s == [] then [] else Chunk(s[0], escaped) + EscapeWith(s[1..], escaped)
  }

  /** `String(str ?? '')` for the values the page passes: null and undefined are `None`. */
  function Text(str: Option<string>): string {
    if str.None? then "" else str.value
  }

  /** `escapeHtml`: the five `replaceAll` calls, `&` first. */
  function EscapeHtml(str: Option<string>): string {
    ReplaceAll(ReplaceAll(ReplaceAll(ReplaceAll(ReplaceAll(
      Text(str), "&", "&amp;"), "<", "&lt;"), ">", "&gt;"), "\"", "&quot;"), "'", "&#039;")
  }

  /** Undoes `escapeHtml`: the entities one kind at a time, `&amp;` last. */
  function UnescapeHtml(s: string): string {
    ReplaceAll(ReplaceAll(ReplaceAll(ReplaceAll(ReplaceAll(
      s, "&lt;", "<"), "&gt;", ">"), "&quot;", "\""), "&#039;", "'"), "&amp;", "&")
  }

  /** A prefix that cannot start the pattern passes through `ReplaceAll` unchanged. */
  lemma {:induction false} ReplaceAllSkips(x: string, rest: string, pat: string, rep: string)
    requires pat != [] && forall j :: 0 <= j < |x| ==> x[j] != pat[0]
    ensures ReplaceAll(x + rest, pat, rep) == x + ReplaceAll(rest, pat, rep)
    decreases |x|
  {
    if x != [] {
      var s := x + rest;
      assert s[0] == x[0];
      assert !(|pat| <= |s| && s[..|pat|] == pat) by {
        if |pat| <= |s| { assert s[..|pat|][0] == x[0]; }
      }
      assert s[1..] == x[1..] + rest;
      assert forall j :: 0 <= j < |x[1..]| ==> x[1..][j] == x[j + 1];
      assert ReplaceAll(s, pat, rep) == [x[0]] + ReplaceAll(x[1..] + rest, pat, rep);
      ReplaceAllSkips(x[1..], rest, pat, rep);
      assert x == [x[0]] + x[1..];
    } else {
      assert x + rest == rest;
    }
  }

  /** An occurrence of the pattern at the front is replaced. */
  lemma ReplaceAllMatches(rest: string, pat: string, rep: string)
    requires pat != []
    ensures ReplaceAll(pat + rest, pat, rep) == rep + ReplaceAll(rest, pat, rep)
  {
    var s := pat + rest;
    assert s[..|pat|] == pat && s[|pat|..] == rest;
  }

  /** A string with no character to escape is its own escape. */
  lemma {:induction false} EscapeWithPlain(s: string, escaped: set<char>)
    requires escaped <= Specials
    requires forall j :: 0 <= j < |s| ==> s[j] !in escaped
    ensures EscapeWith(s, escaped) == s
    decreases |s|
  {
    if s != [] {
      EscapeWithPlain(s[1..], escaped);
      assert s == [s[0]] + s[1..];
    }
  }

  /**
   * One `replaceAll(c, entity)` escapes one more character, provided `c`
   * does not occur in the entities already produced.
   */
  lemma {:induction false} EscapeStep(s: string, escaped: set<char>, c: char)
    requires escaped <= Specials && c in Specials && c !in escaped
    requires c != '&' || escaped == {}
    ensures ReplaceAll(EscapeWith(s, escaped), [c], Entity(c)) == EscapeWith(s, escaped + {c})
    decreases |s|
  {
    if s != [] {
      var rest := EscapeWith(s[1..], escaped);
      assert EscapeWith(s, escaped) == Chunk(s[0], escaped) + rest;
      EscapeStep(s[1..], escaped, c);
      if s[0] == c {
        ReplaceAllMatches(rest, [c], Entity(c));
      } else {
        var x := Chunk(s[0], escaped);
        assert forall j :: 0 <= j < |x| ==> x[j] != c;
        ReplaceAllSkips(x, rest, [c], Entity(c));
      }
    }
  }

  /** Un-escaping `c` passes over the entity of another character. */
  lemma OtherEntitySkips(d: char, c: char, rest: string)
    requires d in Specials && c in Specials && d != c
    ensures ReplaceAll(Entity(d) + rest, Entity(c), [c]) == Entity(d) + ReplaceAll(rest, Entity(c), [c])
  {
    var x := Entity(d);
    var t := x + rest;
    EntitiesDiffer(d, c);
    assert !(|Entity(c)| <= |t| && t[..|Entity(c)|] == Entity(c)) by {
      if |Entity(c)| <= |t| { assert t[..|Entity(c)|][1] == x[1]; }
    }
    assert t[1..] == x[1..] + rest;
    ReplaceAllSkips(x[1..], rest, Entity(c), [c]);
    assert x == [x[0]] + x[1..];
  }

  /**
   * Replacing the entity of `c` by `c` un-escapes exactly `c`, as long as
   * `&` itself is still escaped.
   */
  lemma {:induction false} UnescapeStep(s: string, escaped: set<char>, c: char)
    requires escaped <= Specials && c in escaped && '&' in escaped
    ensures ReplaceAll(EscapeWith(s, escaped), Entity(c), [c]) == EscapeWith(s, escaped - {c})
    decreases |s|
  {
    if s != [] {
      var rest := EscapeWith(s[1..], escaped);
      var x := Chunk(s[0], escaped);
      assert EscapeWith(s, escaped) == x + rest;
      UnescapeStep(s[1..], escaped, c);
      if s[0] == c {
        ReplaceAllMatches(rest, Entity(c), [c]);
      } else if s[0] in escaped {
        OtherEntitySkips(s[0], c, rest);
      } else {
        ReplaceAllSkips(x, rest, Entity(c), [c]);
      }
    }
  }

  /** `escapeHtml` escapes the five characters one at a time. */
  lemma EscapeHtmlCharwise(str: Option<string>)
    ensures EscapeHtml(str) == EscapeWith(Text(str), Specials)
  {
    var s := Text(str);
    var e0: set<char> := {};
    var e1 := e0 + {'&'};
    var e2 := e1 + {'<'};
    var e3 := e2 + {'>'};
    var e4 := e3 + {'"'};
    var e5 := e4 + {'\''};
    EscapeWithPlain(s, e0);
    EscapeStep(s, e0, '&');
    EscapeStep(s, e1, '<');
    EscapeStep(s, e2, '>');
    EscapeStep(s, e3, '"');
    EscapeStep(s, e4, '\'');
    assert e5 == Specials;
  }

  /** null and undefined escape to the empty string. */
  lemma EscapeNothing()
    ensures EscapeHtml(None) == ""
  {
    EscapeHtmlCharwise(None);
  }

  /** Text without any of the five characters is left as it is. */
  lemma EscapePlainText(s: string)
    requires forall j :: 0 <= j < |s| ==> s[j] !in Specials
    ensures EscapeHtml(Some(s)) == s
  {
    EscapeHtmlCharwise(Some(s));
    EscapeWithPlain(s, Specials);
  }

  /** Decoding the entities, `&amp;` last, gives back the text that was escaped. */
  lemma EscapeRoundTrip(str: Option<string>)
    ensures UnescapeHtml(EscapeHtml(str)) == Text(str)
  {
    EscapeHtmlCharwise(str);
    UnescapeEscaped(Text(str));
  }

  /** The five un-escaping steps, each undoing one character. */
  lemma UnescapeEscaped(s: string)
    ensures UnescapeHtml(EscapeWith(s, Specials)) == s
  {
    var t2 := ReplaceAll(ReplaceAll(EscapeWith(s, Specials), "&lt;", "<"), "&gt;", ">");
    UnescapeAngles(s);
    UnescapeQuotesAndAmpersands(s);
    assert UnescapeHtml(EscapeWith(s, Specials)) ==
      ReplaceAll(ReplaceAll(ReplaceAll(t2, "&quot;", "\""), "&#039;", "'"), "&amp;", "&");
  }

  /** Un-escaping `<` and `>` leaves the quotes and `&` escaped. */
  lemma UnescapeAngles(s: string)
    ensures ReplaceAll(ReplaceAll(EscapeWith(s, Specials), "&lt;", "<"), "&gt;", ">")
      == EscapeWith(s, {'&', '"', '\''})
  {
    var u1 := Specials - {'<'};
    UnescapeStep(s, Specials, '<');
    UnescapeStep(s, u1, '>');
    assert u1 - {'>'} == {'&', '"', '\''};
  }

  /** Un-escaping the quotes and then `&` gives the text back. */
  lemma UnescapeQuotesAndAmpersands(s: string)
    ensures ReplaceAll(ReplaceAll(ReplaceAll(EscapeWith(s, {'&', '"', '\''}), "&quot;", "\""), "&#039;", "'"), "&amp;", "&") == s
  {
    UnescapeQuotes(s);
    UnescapeAmpersands(s);
  }

  /** Un-escaping the two quotes leaves only `&` escaped. */
  lemma UnescapeQuotes(s: string)
    ensures ReplaceAll(ReplaceAll(EscapeWith(s, {'&', '"', '\''}), "&quot;", "\""), "&#039;", "'") == EscapeWith(s, {'&'})
  {
    var u3: set<char> := {'&', '"', '\''};
    var u4 := u3 - {'"'};
    UnescapeStep(s, u3, '"');
    UnescapeStep(s, u4, '\'');
    assert u4 - {'\''} == {'&'};
  }

  /** Un-escaping `&` last gives the text back. */
  lemma UnescapeAmpersands(s: string)
    ensures ReplaceAll(EscapeWith(s, {'&'}), "&amp;", "&") == s
  {
    UnescapeStep(s, {'&'}, '&');
    assert {'&'} - {'&'} == {};
    EscapeWithPlain(s, {});
  }

  /** One of the five entities starts at index `i` of `r`. */
  predicate EntityAt(r: string, i: int) {
    OccursAt(r, "&amp;", i) || OccursAt(r, "&lt;", i) || OccursAt(r, "&gt;", i)
    || OccursAt(r, "&quot;", i) || OccursAt(r, "&#039;", i)
  }

  /** Markup-safe: no `<`, `>`, `"` or `'`, and every `&` begins an entity. */
  predicate Safe(r: string) {
    forall i :: 0 <= i < |r| ==> SafeAt(r, i)
  }

  /** The character at `i` is none of `<`, `>`, `"`, `'`, and an `&` there begins an entity. */
  predicate SafeAt(r: string, i: nat)
    requires i < |r|
  {
    r[i] !in {'<', '>', '"', '\''} && (r[i] == '&' ==> EntityAt(r, i))
  }

  /** An occurrence in `y` is one in `x + y`, shifted by `|x|`. */
  lemma OccursAfter(x: string, y: string, e: string, j: int)
    requires OccursAt(y, e, j)
    ensures OccursAt(x + y, e, |x| + j)
  {
    assert (x + y)[|x| + j..|x| + j + |e|] == y[j..j + |e|];
  }

  /** A safe position of `y` stays safe behind any prefix. */
  lemma SafeAfter(x: string, y: string, j: nat)
    requires j < |y| && SafeAt(y, j)
    ensures SafeAt(x + y, |x| + j)
  {
    assert (x + y)[|x| + j] == y[j];
    if y[j] == '&' {
      if OccursAt(y, "&amp;", j) { OccursAfter(x, y, "&amp;", j); }
      else if OccursAt(y, "&lt;", j) { OccursAfter(x, y, "&lt;", j); }
      else if OccursAt(y, "&gt;", j) { OccursAfter(x, y, "&gt;", j); }
      else if OccursAt(y, "&quot;", j) { OccursAfter(x, y, "&quot;", j); }
      else { OccursAfter(x, y, "&#039;", j); }
    }
  }

  /** Every position of an escaped character is safe, whatever follows it. */
  lemma SafeChunk(c: char, rest: string, i: nat)
    requires i < |Chunk(c, Specials)|
    ensures SafeAt(Chunk(c, Specials) + rest, i)
  {
    var x := Chunk(c, Specials);
    var r := x + rest;
    assert r[i] == x[i];
    if c in Specials && i == 0 {
      assert r[..|x|] == x;
      assert OccursAt(r, Entity(c), 0);
    }
  }

  /** Prepending a chunk keeps the escaped text safe. */
  lemma SafeCons(c: char, rest: string)
    requires Safe(rest)
    ensures Safe(Chunk(c, Specials) + rest)
  {
    var x := Chunk(c, Specials);
    var r := x + rest;
    forall i | 0 <= i < |r|
      ensures SafeAt(r, i)
    {
      if i < |x| {
        SafeChunk(c, rest, i);
      } else {
        SafeAfter(x, rest, i - |x|);
      }
    }
  }

  /** Text escaped for all five characters is safe. */
  lemma {:induction false} EscapeWithSafe(s: string)
    ensures Safe(EscapeWith(s, Specials))
    decreases |s|
  {
    if s != [] {
      EscapeWithSafe(s[1..]);
      SafeCons(s[0], EscapeWith(s[1..], Specials));
    }
  }

  /** Whatever the input, `escapeHtml`'s output is safe to put in markup and attributes. */
  lemma EscapeHtmlSafe(str: Option<string>)
    ensures Safe(EscapeHtml(str))
  {
    EscapeHtmlCharwise(str);
    EscapeWithSafe(Text(str));
  }

  // ---------------------------------------------------------------------
  // buildUrl
  // ---------------------------------------------------------------------

  /** The name-value list of a `URLSearchParams`, in order. */
  type Params = seq<(string, string)>

  /** The pairs named `name`, in order. */
  function Named(sp: Params, name: string): (r: Params)
    ensures |r| <= |sp|
    ensures forall i :: 0 <= i < |r| ==> r[i].0 == name
  {
    if sp == [] then [] else (if sp[0].0 == name then [sp[0]] else []) + Named(sp[1..], name)
  }

  /** The pairs whose name is not in `names`, in order. */
  function Others(sp: Params, names: set<string>): (r: Params)
    ensures |r| <= |sp|
  {
    if sp == [] then [] else (if sp[0].0 in names then [] else [sp[0]]) + Others(sp[1..], names)
  }

  /** `sp.delete(name)`: every pair named `name` goes. */
  function Delete(sp: Params, name: string): Params {
    Others(sp, {name})
  }

  /** The first pair named `name` takes `value`; the later ones go. */
  function SetFirst(sp: Params, name: string, value: string): Params {
    if sp == [] then []
    else if sp[0].0 == name then [(name, value)] + Delete(sp[1..], name)
    else [sp[0]] + SetFirst(sp[1..], name, value)
  }

  /** `sp.set(name, value)`: with no pair named `name`, the pair is appended. */
  function SetParam(sp: Params, name: string, value: string): Params {
    if Named(sp, name) == [] then sp + [(name, value)] else SetFirst(sp, name, value)
  }

  /** One update of `buildUrl`'s loop: null, undefined (`None`) and '' delete, anything else sets. */
  function Apply(sp: Params, name: string, value: Option<string>): Params {
    if value.None? || value.value == "" then Delete(sp, name) else SetParam(sp, name, value.value)
  }

  /** The updates applied in `Object.keys` order. */
  function ApplyAll(sp: Params, updates: seq<(string, Option<string>)>): Params
    decreases |updates|
  {
    if updates == [] then sp
    else
      var last := updates[|updates| - 1];
      Apply(ApplyAll(sp, updates[..|updates| - 1]), last.0, last.1)
  }

  lemma {:induction false} NamedAppend(a: Params, b: Params, n: string)
    ensures Named(a + b, n) == Named(a, n) + Named(b, n)
    decreases |a|
  {
    if a == [] {
      assert a + b == b;
    } else {
      assert (a + b)[1..] == a[1..] + b;
      NamedAppend(a[1..], b, n);
    }
  }

  lemma {:induction false} OthersAppend(a: Params, b: Params, names: set<string>)
    ensures Others(a + b, names) == Others(a, names) + Others(b, names)
    decreases |a|
  {
    if a == [] {
      assert a + b == b;
    } else {
      assert (a + b)[1..] == a[1..] + b;
      OthersAppend(a[1..], b, names);
    }
  }

  /** Dropping the names in `names` leaves exactly the pairs of the other names. */
  lemma {:induction false} NamedOthers(sp: Params, names: set<string>, n: string)
    ensures n in names ==> Named(Others(sp, names), n) == []
    ensures n !in names ==> Named(Others(sp, names), n) == Named(sp, n)
    decreases |sp|
  {
    if sp != [] {
      NamedOthers(sp[1..], names, n);
      var head: Params := if sp[0].0 in names then [] else [sp[0]];
      NamedAppend(head, Others(sp[1..], names), n);
    }
  }

  /** Dropping a name, then a set holding it, is dropping the set. */
  lemma {:induction false} OthersTwice(sp: Params, name: string, names: set<string>)
    requires name in names
    ensures Others(Delete(sp, name), names) == Others(sp, names)
    decreases |sp|
  {
    if sp != [] {
      OthersTwice(sp[1..], name, names);
      var head: Params := if sp[0].0 == name then [] else [sp[0]];
      OthersAppend(head, Delete(sp[1..], name), names);
    }
  }


  /** `SetFirst` gives `name` the one pair `(name, value)` and leaves the other names alone. */
  lemma {:induction false} SetFirstNamed(sp: Params, name: string, value: string, n: string)
    requires Named(sp, name) != []
    ensures Named(SetFirst(sp, name, value), n) == if n == name then [(name, value)] else Named(sp, n)
    decreases |sp|
  {
    if sp[0].0 == name {
      NamedAppend([(name, value)], Delete(sp[1..], name), n);
      NamedOthers(sp[1..], {name}, n);
    } else {
      SetFirstNamed(sp[1..], name, value, n);
      NamedAppend([sp[0]], SetFirst(sp[1..], name, value), n);
    }
  }

  /** `SetFirst` moves no pair of another name. */
  lemma {:induction false} SetFirstOthers(sp: Params, name: string, value: string, names: set<string>)
    requires Named(sp, name) != [] && name in names
    ensures Others(SetFirst(sp, name, value), names) == Others(sp, names)
    decreases |sp|
  {
    if sp[0].0 == name {
      OthersAppend([(name, value)], Delete(sp[1..], name), names);
      OthersTwice(sp[1..], name, names);
    } else {
      SetFirstOthers(sp[1..], name, value, names);
      OthersAppend([sp[0]], SetFirst(sp[1..], name, value), names);
    }
  }

  /**
   * After one update, the pairs named `name` are none (a delete) or the
   * single pair `(name, value)` (a set); other names keep their pairs.
   */
  lemma ApplyNamed(sp: Params, name: string, value: Option<string>, n: string)
    ensures Named(Apply(sp, name, value), n) ==
      if n != name then Named(sp, n)
      else if value.None? || value.value == "" then []
      else [(name, value.value)]
  {
    if value.None? || value.value == "" {
      NamedOthers(sp, {name}, n);
    } else if Named(sp, name) == [] {
      NamedAppend(sp, [(name, value.value)], n);
    } else {
      SetFirstNamed(sp, name, value.value, n);
    }
  }

  /** One update moves no pair whose name is outside `names`, a set holding the updated name. */
  lemma ApplyOthers(sp: Params, name: string, value: Option<string>, names: set<string>)
    requires name in names
    ensures Others(Apply(sp, name, value), names) == Others(sp, names)
  {
    if value.None? || value.value == "" {
      OthersTwice(sp, name, names);
    } else if Named(sp, name) == [] {
      OthersAppend(sp, [(name, value.value)], names);
    } else {
      SetFirstOthers(sp, name, value.value, names);
    }
  }

  /** The names an update list touches. */
  function UpdatedNames(updates: seq<(string, Option<string>)>): (names: set<string>)
    ensures forall i :: 0 <= i < |updates| ==> updates[i].0 in names
  {
    set i | 0 <= i < |updates| :: updates[i].0
  }

  /** `Object.keys` lists every key once. */
  predicate DistinctNames(updates: seq<(string, Option<string>)>) {
    forall i, j :: 0 <= i < j < |updates| ==> updates[i].0 != updates[j].0
  }

  /** `buildUrl` keeps the existing parameters it is not asked to change, in their order. */
  lemma {:induction false} ApplyAllKeepsOthers(sp: Params, updates: seq<(string, Option<string>)>, names: set<string>)
    requires UpdatedNames(updates) <= names
    ensures Others(ApplyAll(sp, updates), names) == Others(sp, names)
    decreases |updates|
  {
    if updates != [] {
      var init := updates[..|updates| - 1];
      var last := updates[|updates| - 1];
      assert UpdatedNames(init) <= names by {
        forall i | 0 <= i < |init| ensures init[i].0 in names { assert init[i] == updates[i]; }
      }
      ApplyAllKeepsOthers(sp, init, names);
      ApplyOthers(ApplyAll(sp, init), last.0, last.1, names);
    }
  }

  /**
   * Each key of `params` ends up with no pair (null, undefined or '') or
   * with the one pair holding its value.
   */
  lemma {:induction false} ApplyAllNamed(sp: Params, updates: seq<(string, Option<string>)>, i: nat)
    requires i < |updates| && DistinctNames(updates)
    ensures var (name, value) := updates[i];
      Named(ApplyAll(sp, updates), name) ==
        if value.None? || value.value == "" then [] else [(name, value.value)]
    decreases |updates|
  {
    var init := updates[..|updates| - 1];
    var last := updates[|updates| - 1];
    ApplyNamed(ApplyAll(sp, init), last.0, last.1, updates[i].0);
    if i < |updates| - 1 {
      assert init[i] == updates[i];
      ApplyAllNamed(sp, init, i);
    }
  }

  // --- the form-urlencoded serializer of `URLSearchParams.toString`

  /** An upper-case hexadecimal digit. */
  function Hex(d: nat): char
    requires d < 16
  {
    if d < 10 then ('0' as int + d) as char else ('A' as int + d - 10) as char
  }

  /** The UTF-8 bytes of a character. */
  function Utf8(c: char): (bs: seq<nat>)
    ensures 1 <= |bs| <= 4
    ensures forall i :: 0 <= i < |bs| ==> bs[i] < 256
  {
    var cp := c as int;
    if cp < 0x80 then [cp]
    else if cp < 0x800 then [0xC0 + cp / 0x40, 0x80 + cp % 0x40]
    else if cp < 0x1_0000 then [0xE0 + cp / 0x1000, 0x80 + cp / 0x40 % 0x40, 0x80 + cp % 0x40]
    else [0xF0 + cp / 0x4_0000 % 8, 0x80 + cp / 0x1000 % 0x40, 0x80 + cp / 0x40 % 0x40, 0x80 + cp % 0x40]
  }

  /** `%XX` for each byte. */
  function PercentBytes(bs: seq<nat>): (r: string)
    requires forall i :: 0 <= i < |bs| ==> bs[i] < 256
    ensures |r| == 3 * |bs|
    ensures forall j :: 0 <= j < |r| ==> r[j] == '%' || '0' <= r[j] <= '9' || 'A' <= r[j] <= 'F'
  {
    if bs == [] then [] else ['%', Hex(bs[0] / 16), Hex(bs[0] % 16)] + PercentBytes(bs[1..])
  }

  /** The characters the form-urlencoded serializer keeps as they are. */
  predicate Unreserved(c: char) {
    'a' <= c <= 'z' || 'A' <= c <= 'Z' || '0' <= c <= '9' || c == '*' || c == '-' || c == '.' || c == '_'
  }

  /**
   * A name or value as `URLSearchParams.toString` writes it: unreserved
   * characters kept, space as `+`, everything else as its percent-encoded
   * UTF-8 bytes. The result never holds a separator of the query string.
   */
  function FormEncode(s: string): (r: string)
    ensures |r| >= |s|
    ensures forall j :: 0 <= j < |r| ==> r[j] !in {'&', '=', '?', '#', ' '}
  {
    if s == [] then []
    else
      var c := s[0];
      var head := if Unreserved(c) then [c] else if c == ' ' then "+" else PercentBytes(Utf8(c));
      head + FormEncode(s[1..])
  }

  /** `name=value`, both encoded. */
  function PairText(p: (string, string)): (r: string)
    ensures r != ""
  {
    FormEncode(p.0) + "=" + FormEncode(p.1)
  }

  /** `sp.toString()`: the encoded pairs joined with `&`. */
  function Serialize(sp: Params): string {
    Join(seq(|sp|, i requires 0 <= i < |sp| => PairText(sp[i])), "&")
  }

  /** The query string is empty exactly when no parameter is left. */
  lemma SerializeEmpty(sp: Params)
    ensures Serialize(sp) == "" <==> sp == []
  {
    var parts := seq(|sp|, i requires 0 <= i < |sp| => PairText(sp[i]));
    if |sp| >= 2 {
      assert Join(parts, "&") == parts[0] + "&" + Join(parts[1..], "&");
    }
  }

  /**
   * `buildUrl(params)` for a page at `pathname` whose current query holds
   * `search`: the updates applied one key at a time, and `?` only in front
   * of a non-empty query string.
   */
  method BuildUrl(pathname: string, search: Params, params: seq<(string, Option<string>)>) returns (url: string)
    ensures ApplyAll(search, params) == [] ==> url == pathname
    ensures ApplyAll(search, params) != [] ==> url == pathname + "?" + Serialize(ApplyAll(search, params))
  {
    var sp := search;
    for i := 0 to |params|
      invariant sp == ApplyAll(search, params[..i])
    {
      assert params[..i + 1][..i] == params[..i];
      var (k, v) := params[i];
      if v == None || v == Some("") {
        sp := Delete(sp, k);
      } else {
        sp := SetParam(sp, k, v.value);
      }
    }
    assert params[..|params|] == params;
    var qs := Serialize(sp);
    SerializeEmpty(sp);
    url := pathname + (if qs != "" then "?" + qs else "");
  }

  // ---------------------------------------------------------------------
  // handleDashboardRoute and applyFilterAndSearch
  // ---------------------------------------------------------------------

  /** The filters the dashboard knows. */
  const Filters: set<string> := {"all", "active", "inactive"}

  /** What the route reads from the URL: the card filter, the search text and the sensor to open. */
  datatype RouteState = RouteState(filter: string, q: string, sensor: string)

  /** `(req.query && req.query[key]) ? String(req.query[key]) : ''` */
  function QueryParam(query: Option<map<string, string>>, key: string): (v: string)
    ensures query.Some? && key in query.value ==> v == query.value[key]
    ensures query.None? || key !in query.value ==> v == ""
  {
    if query.Some? && key in query.value && query.value[key] != "" then query.value[key] else ""
  }

  /**
   * The state `handleDashboardRoute` reads: a filter missing or outside the
   * three known ones becomes `all`, a missing search text ''.
   */
  function ReadRoute(query: Option<map<string, string>>): (st: RouteState)
    ensures st.filter in Filters
    ensures QueryParam(query, "filter") in Filters ==> st.filter == QueryParam(query, "filter")
    ensures QueryParam(query, "filter") !in Filters ==> st.filter == "all"
    ensures st.q == QueryParam(query, "q") && st.sensor == QueryParam(query, "sensor")
  {
    var given := QueryParam(query, "filter");
    var filter := if given == "" then "all" else given;
    RouteState(if filter in Filters then filter else "all", QueryParam(query, "q"), QueryParam(query, "sensor"))
  }

  /**
   * The raw `data-*` attributes of a sensor card, `None` when absent: the
   * sensor id, the name, the location and the active flag.
   */
  datatype CardData = CardData(sensorId: Option<string>, name: Option<string>, location: Option<string>, active: Option<string>)

  /**
   * `String($card.data(key) || '')`. jQuery's `data` turns "true", "false",
   * "null" and numbers that print back as the same text into values; of
   * those, false, null, 0 and NaN are falsy, and every other one prints as
   * the attribute's own text.
   */
  function DataText(raw: Option<string>): (r: string)
    ensures r == "" || raw == Some(r)
    ensures raw == Some("1") ==> r == "1"
  {
    if raw.None? || raw.value in {"", "false", "null", "0", "NaN"} then "" else raw.value
  }

  /** `$card.data('active') === 1 || $card.data('active') === '1'`: only the text "1" reads as 1. */
  predicate DataActive(raw: Option<string>) {
    raw == Some("1")
  }

  /** The lower-cased "id name location" a search looks in. */
  function SearchText(card: CardData): string {
    ToLower(DataText(card.sensorId) + " " + DataText(card.name) + " " + DataText(card.location))
  }

  /** `(q || '').toLowerCase().trim()` */
  function SearchQuery(q: string): string {
    Trim(ToLower(q))
  }

  /** The card filter alone. */
  predicate FilterMatches(filter: string, active: bool) {
    filter == "all" || (filter == "active" && active) || (filter == "inactive" && !active)
  }

  /** A card is shown when the filter lets it through and the query is empty or found in its text. */
  predicate Visible(filter: string, q: string, card: CardData) {
    && FilterMatches(filter, DataActive(card.active))
    && (SearchQuery(q) == "" || Includes(SearchText(card), SearchQuery(q)))
  }

  /** The `active` and `inactive` filters split what `all` shows. */
  lemma FiltersPartition(q: string, card: CardData)
    ensures Visible("all", q, card) <==> Visible("active", q, card) || Visible("inactive", q, card)
    ensures !(Visible("active", q, card) && Visible("inactive", q, card))
    ensures forall f :: f !in Filters ==> !Visible(f, q, card)
    ensures Visible("active", q, card) ==> card.active == Some("1")
    ensures Visible("inactive", q, card) ==> card.active != Some("1")
  {
  }

  /** Lower-casing is idempotent. */
  lemma ToLowerTwice(s: string)
    ensures ToLower(ToLower(s)) == ToLower(s)
  {
    assert forall i :: 0 <= i < |s| ==> LowerChar(LowerChar(s[i])) == LowerChar(s[i]);
  }

  /** The search ignores the case of the query. */
  lemma SearchIgnoresCase(filter: string, q: string, card: CardData)
    ensures Visible(filter, ToLower(q), card) == Visible(filter, q, card)
  {
    ToLowerTwice(q);
  }

  /** A query of blanks searches for nothing: the filter alone decides. */
  lemma BlankSearch(filter: string, q: string, card: CardData)
    requires forall i :: 0 <= i < |q| ==> IsWhitespace(q[i])
    ensures Visible(filter, q, card) == FilterMatches(filter, DataActive(card.active))
  {
    var l := ToLower(q);
    assert forall i :: 0 <= i < |l| ==> IsWhitespace(l[i]);
  }

  /** `ToLower` distributes over concatenation. */
  lemma ToLowerAppend(a: string, b: string)
    ensures ToLower(a + b) == ToLower(a) + ToLower(b)
  {
  }

  /** Searching for a card's own sensor id finds the card, whatever its case or surrounding blanks. */
  lemma SearchFindsOwnId(filter: string, card: CardData)
    requires FilterMatches(filter, DataActive(card.active))
    ensures Visible(filter, DataText(card.sensorId), card)
  {
    var id := DataText(card.sensorId);
    var rest := " " + DataText(card.name) + " " + DataText(card.location);
    assert id + " " + DataText(card.name) + " " + DataText(card.location) == id + rest;
    ToLowerAppend(id, rest);
    assert SearchText(card) == ToLower(id) + ToLower(rest);
    TrimOccurs(ToLower(id), ToLower(rest));
    assert SearchQuery(id) == Trim(ToLower(id));
  }

  /** The trim of `l` occurs in `l + rest` where `TrimStart` left off. */
  lemma TrimOccurs(l: string, rest: string)
    ensures OccursAt(l + rest, Trim(l), |l| - |TrimStart(l)|)
  {
    var start := |l| - |TrimStart(l)|;
    var query := Trim(l);
    assert start + |query| <= |l|;
    assert query == l[start..start + |query|];
    SliceOccurs(l, rest, start, |query|);
  }

  /** A slice of `l` occurs in `l + rest` where it was cut. */
  lemma SliceOccurs(l: string, rest: string, start: nat, len: nat)
    requires start + len <= |l|
    ensures OccursAt(l + rest, l[start..start + len], start)
  {
    assert (l + rest)[start..start + len] == l[start..start + len];
  }

  /** A `.sensor-card` element: its data attributes and whether it is shown. */
  class Card {
    const data: CardData
    var shown: bool

    /** A card rendered shown. */
    constructor(data: CardData)
      ensures this.data == data && shown
    {
      this.data := data;
      shown := true;
    }
  }

  /** `applyFilterAndSearch`: shows exactly the visible cards and hides the rest. */
  method ApplyFilterAndSearch(filter: string, q: string, cards: seq<Card>)
    modifies set c | c in cards
    ensures forall i :: 0 <= i < |cards| ==> cards[i].shown == Visible(filter, q, cards[i].data)
  {
    for i := 0 to |cards|
      invariant forall j :: 0 <= j < i ==> cards[j].shown == Visible(filter, q, cards[j].data)
    {
      cards[i].shown := Visible(filter, q, cards[i].data);
    }
  }

  /**
   * `handleDashboardRoute`, as far as the cards go: the state read from the
   * URL, and the cards filtered by it.
   */
  method HandleDashboardRoute(query: Option<map<string, string>>, cards: seq<Card>) returns (st: RouteState)
    modifies set c | c in cards
    ensures st == ReadRoute(query)
    ensures forall i :: 0 <= i < |cards| ==> cards[i].shown == Visible(st.filter, st.q, cards[i].data)
  {
    st := ReadRoute(query);
    ApplyFilterAndSearch(st.filter, st.q, cards);
  }
}
