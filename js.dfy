/**
 * The small pieces of JavaScript semantics the handlers depend on: a value
 * that may be `undefined`, truthiness of strings, the `||` default idiom,
 * interpolation into template literals, `String.prototype.trim`,
 * `split(' ')` and `startsWith`.
 */
module Js {

  /** A value that may be `undefined` (an absent body field or environment variable). */
  datatype Option<+T> = None | Some(value: T)

  /** A string-valued expression is truthy iff it is defined and not empty. */
  predicate Truthy(s: Option<string>)
  {
    s.Some? && s.value != ""
  }

  /** `a || b` for two possibly-undefined strings. */
  function OrElse(a: Option<string>, b: Option<string>): Option<string>
  {
    if Truthy(a) then a else b
  }

  /** `a || fallback` with a string literal on the right. */
  function OrDefault(a: Option<string>, fallback: string): string
  {
    if Truthy(a) then a.value else fallback
  }

  /** `${a}` inside a template literal: `undefined` is rendered as the text "undefined". */
  function Show(a: Option<string>): string
  {
    if a.Some? then a.value else "undefined"
  }

  /** The characters `trim` removes: ECMAScript WhiteSpace and LineTerminator. */
  predicate IsSpace(c: char)
  {
    || c == '\t' || c == '\n' || c == '\U{B}' || c == '\U{C}' || c == '\r' || c == ' '
    || c == '\U{A0}' || c == '\U{1680}' || ('\U{2000}' <= c <= '\U{200A}')
    || c == '\U{2028}' || c == '\U{2029}' || c == '\U{202F}' || c == '\U{205F}'
    || c == '\U{3000}' || c == '\U{FEFF}'
  }

  /** The number of whitespace characters `s` starts with. */
  function LeadingSpaces(s: string): (n: nat)
    ensures n <= |s| && (n == |s| || !IsSpace(s[n]))
    ensures forall k :: 0 <= k < n ==> IsSpace(s[k])
  {
    if s != [] && IsSpace(s[0]) then
      var n := 1 + LeadingSpaces(s[1..]);
      assert forall k :: 1 <= k < |s| ==> s[k] == s[1..][k - 1];
      n
    else
      0
  }

  /** The number of whitespace characters `s` ends with. */
  function TrailingSpaces(s: string): (n: nat)
    ensures n <= |s| && (n == |s| || !IsSpace(s[|s| - n - 1]))
    ensures forall k :: |s| - n <= k < |s| ==> IsSpace(s[k])
  {
    if s != [] && IsSpace(s[|s| - 1]) then 1 + TrailingSpaces(s[..|s| - 1]) else 0
  }

  /** Drops the leading white space: the result is the longest suffix that does not start with a space. */
  function TrimStart(s: string): (r: string)
    ensures |r| <= |s| && r == s[|s| - |r|..]
    ensures r == [] || !IsSpace(r[0])
    ensures forall k :: 0 <= k < |s| - |r| ==> IsSpace(s[k])
  {
    s[LeadingSpaces(s)..]
  }

  /** Drops the trailing white space: the result is the longest prefix that does not end with a space. */
  function TrimEnd(s: string): (r: string)
    ensures |r| <= |s| && r == s[..|r|]
    ensures r == [] || !IsSpace(r[|r| - 1])
    ensures forall k :: |r| <= k < |s| ==> IsSpace(s[k])
  {
    s[..|s| - TrailingSpaces(s)]
  }

  /** `s.trim()`. */
  function Trim(s: string): string
  {
    TrimEnd(TrimStart(s))
  }

  /** The dropped tail of `TrimEnd(TrimStart(s))`, read back in `s`, is all whitespace. */
  lemma TrimTailSpaces(s: string)
    ensures forall k :: |s| - |TrimStart(s)| + |Trim(s)| <= k < |s| ==> IsSpace(s[k])
  {
    var t := TrimStart(s);
    var i := |s| - |t|;
    var n := |TrimEnd(t)|;
    forall k | i + n <= k < |s| ensures IsSpace(s[k]) {
      assert s[k] == t[k - i];
    }
  }

  /** `Trim(s)` is the slice of `s` that starts where `TrimStart` cut. */
  lemma TrimSlice(s: string)
    ensures |s| - |TrimStart(s)| + |Trim(s)| <= |s|
    ensures Trim(s) == s[|s| - |TrimStart(s)|..|s| - |TrimStart(s)| + |Trim(s)|]
  {
    var t := TrimStart(s);
    var r := TrimEnd(t);
    var i := |s| - |t|;
    assert t == s[i..];
    assert r == t[..|r|];
  }

  /** `Trim(s)` neither starts nor ends with whitespace. */
  lemma TrimEndsClean(s: string)
    ensures Trim(s) == [] || (!IsSpace(Trim(s)[0]) && !IsSpace(Trim(s)[|Trim(s)| - 1]))
  {
    var t := TrimStart(s);
    var r := TrimEnd(t);
    if r != [] {
      assert r[0] == t[0];
    }
  }

  /** The trimmed string is a contiguous piece of the input, only spaces were cut from either end, and it has none left at its ends. */
  lemma TrimIsInfix(s: string)
    ensures var i, n := |s| - |TrimStart(s)|, |Trim(s)|;
      && i + n <= |s| && Trim(s) == s[i..i + n]
      && (forall k :: 0 <= k < i ==> IsSpace(s[k]))
      && (forall k :: i + n <= k < |s| ==> IsSpace(s[k]))
    ensures Trim(s) == [] || (!IsSpace(Trim(s)[0]) && !IsSpace(Trim(s)[|Trim(s)| - 1]))
  {
    TrimSlice(s);
    TrimTailSpaces(s);
    TrimEndsClean(s);
  }

  /** Trimming twice is trimming once. */
  lemma TrimIdempotent(s: string)
    ensures Trim(Trim(s)) == Trim(s)
  {
    var t := Trim(s);
    TrimIsInfix(s);
    assert TrimStart(t) == t;
    assert TrimEnd(t) == t;
  }

  /** A string without surrounding spaces is left as it is. */
  lemma TrimKeepsTrimmed(s: string)
    requires s == [] || (!IsSpace(s[0]) && !IsSpace(s[|s| - 1]))
    ensures Trim(s) == s
  {
    assert TrimStart(s) == s;
  }

  /** `part` occurs in `s` as a contiguous piece (`s.includes(part)`). */
  ghost predicate Contains(s: string, part: string)
  {
    exists before: string, after: string :: s == before + part + after
  }

  /** In a text laid out as fixed pieces around the values `b`, `d` and `f`, each of those values occurs, and the text ends with `f`. */
  lemma ContainsPieces6(a: string, b: string, c: string, d: string, e: string, f: string)
    ensures var s := a + b + c + d + e + f;
      && |s| >= |a| && |s| >= |f| && s[|s| - |f|..] == f
      && Contains(s, b) && Contains(s, d) && Contains(s, f)
  {
    var s := a + b + c + d + e + f;
    assert s == a + b + (c + d + e + f);
    assert s == (a + b + c) + d + (e + f);
    assert s == (a + b + c + d + e) + f + [];
  }

  /** The same for a text that closes with a further fixed piece `g`. */
  lemma ContainsPieces7(a: string, b: string, c: string, d: string, e: string, f: string, g: string)
    ensures var s := a + b + c + d + e + f + g;
      && |s| >= |a|
      && Contains(s, b) && Contains(s, d) && Contains(s, f)
  {
    var s := a + b + c + d + e + f + g;
    assert s == a + b + (c + d + e + f + g);
    assert s == (a + b + c) + d + (e + f + g);
    assert s == (a + b + c + d + e) + f + g;
  }

  /** `s.startsWith(prefix)`: `s` is `prefix` followed by something. */
  function StartsWith(s: string, prefix: string): (r: bool)
    ensures r <==> exists rest: string :: s == prefix + rest
  {
    if |prefix| <= |s| && s[..|prefix|] == prefix then
      assert s == prefix + s[|prefix|..];
      true
    else
      false
  }

  /** `s.split(sep)` for a one-character separator: n separators give n + 1 fields, none containing `sep`. */
  function Split(s: string, sep: char): (r: seq<string>)
    ensures |r| >= 1
    ensures forall i :: 0 <= i < |r| ==> sep !in r[i]
    ensures |r| > 1 <==> sep in s
  {
    if s == [] then [""]
    else if s[0] == sep then [""] + Split(s[1..], sep)
    else
      var rest := Split(s[1..], sep);
      [[s[0]] + rest[0]] + rest[1..]
  }

  /** `parts.join(sep)`. */
  function Join(parts: seq<string>, sep: char): string
  {
    if parts == [] then ""
    else if |parts| == 1 then parts[0]
    else parts[0] + [sep] + Join(parts[1..], sep)
  }

  /** Splitting and joining back with the same separator gives the original string. */
  lemma {:induction false} JoinSplit(s: string, sep: char)
    ensures Join(Split(s, sep), sep) == s
  {
    if s == [] {
    } else if s[0] == sep {
      JoinSplit(s[1..], sep);
      assert Split(s, sep) == [""] + Split(s[1..], sep);
      assert s == [sep] + s[1..];
    } else {
      var rest := Split(s[1..], sep);
      JoinSplit(s[1..], sep);
      var parts := [[s[0]] + rest[0]] + rest[1..];
      assert parts[1..] == rest[1..];
      if |rest| == 1 {
        assert s == [s[0]] + rest[0];
      } else {
        assert rest == [rest[0]] + rest[1..];
        assert Join(rest, sep) == rest[0] + [sep] + Join(rest[1..], sep);
        assert s == [s[0]] + s[1..];
      }
    }
  }

  /** Joining fields whose first is non-empty starts with that field's first character. */
  lemma JoinFirstChar(parts: seq<string>, sep: char)
    requires |parts| >= 1 && parts[0] != []
    ensures Join(parts, sep) == [parts[0][0]] + Join([parts[0][1..]] + parts[1..], sep)
  {
    var head := parts[0];
    var shorter := [head[1..]] + parts[1..];
    assert head == [head[0]] + head[1..];
    if |parts| > 1 {
      assert shorter[1..] == parts[1..];
    }
  }

  /** Splitting a string that starts with a non-separator adds that character to the first field. */
  lemma SplitFirstChar(c: char, s: string, sep: char)
    requires c != sep
    ensures var rest := Split(s, sep); Split([c] + s, sep) == [[c] + rest[0]] + rest[1..]
  {
    assert ([c] + s)[1..] == s;
  }

  /** Dropping the first character of the first field keeps every field free of the separator. */
  lemma DropFirstCharKeepsFree(parts: seq<string>, sep: char)
    requires |parts| >= 1 && parts[0] != []
    requires forall i :: 0 <= i < |parts| ==> sep !in parts[i]
    ensures var shorter := [parts[0][1..]] + parts[1..];
      forall i :: 0 <= i < |shorter| ==> sep !in shorter[i]
  {
    var shorter := [parts[0][1..]] + parts[1..];
    forall i | 0 <= i < |shorter| ensures sep !in shorter[i] {
      if i == 0 {
        assert forall c :: c in parts[0][1..] ==> c in parts[0];
      } else {
        assert shorter[i] == parts[i];
      }
    }
  }

  /** Joining fields free of the separator and splitting again gives the same fields. */
  lemma {:induction false} SplitJoin(parts: seq<string>, sep: char)
    requires |parts| >= 1
    requires forall i :: 0 <= i < |parts| ==> sep !in parts[i]
    ensures Split(Join(parts, sep), sep) == parts
    decreases |parts|, |parts[0]|
  {
    var head := parts[0];
    if head == [] {
      if |parts| == 1 {
      } else {
        var tail := parts[1..];
        SplitJoin(tail, sep);
        assert Join(parts, sep) == [sep] + Join(tail, sep);
        assert parts == [""] + tail;
      }
    } else {
      var shorter := [head[1..]] + parts[1..];
      DropFirstCharKeepsFree(parts, sep);
      SplitJoin(shorter, sep);
      JoinFirstChar(parts, sep);
      SplitFirstChar(head[0], Join(shorter, sep), sep);
      assert [head[0]] + head[1..] == head;
      assert parts == [head] + parts[1..];
    }
  }
}
