/** String helpers shared by the server (Python) and the browser clients (JavaScript).
    Strings are sequences of Unicode scalar values, as in Python; JavaScript's
    UTF-16 view is given by Utf16Length where a client measures a string. */
module Text {

  /** Python's `str.isspace`, which `str.strip()` and `str.split()` use. */
  predicate IsPySpace(c: char) {
    c == ' ' || ('\t' <= c <= '\r') || ('\U{1C}' <= c <= '\U{1F}') || c == '\U{85}' || c == '\U{A0}'
    || c == '\U{1680}' || ('\U{2000}' <= c <= '\U{200A}') || c == '\U{2028}' || c == '\U{2029}'
    || c == '\U{202F}' || c == '\U{205F}' || c == '\U{3000}'
  }

  /** JavaScript's WhiteSpace and LineTerminator characters, which `String.prototype.trim` removes. */
  predicate IsJsSpace(c: char) {
    c == ' ' || ('\t' <= c <= '\r') || c == '\U{A0}' || c == '\U{FEFF}' || c == '\U{1680}'
    || ('\U{2000}' <= c <= '\U{200A}') || c == '\U{2028}' || c == '\U{2029}'
    || c == '\U{202F}' || c == '\U{205F}' || c == '\U{3000}'
  }

  /** Drops the leading characters for which `space` holds. */
  function TrimStart(s: string, space: char -> bool): string {
    if s != [] && space(s[0]) then TrimStart(s[1..], space) else s
  }

  /** Drops the trailing characters for which `space` holds. */
  function TrimEnd(s: string, space: char -> bool): string {
    if s != [] && space(s[|s| - 1]) then TrimEnd(s[..|s| - 1], space) else s
  }

  /** `strip()` / `trim()`: both ends trimmed. */
  function Trim(s: string, space: char -> bool): string {
    TrimEnd(TrimStart(s, space), space)
  }

  /** TrimStart drops exactly the leading run of spaces. */
  lemma {:induction false} TrimStartSpec(s: string, space: char -> bool)
    ensures var r := TrimStart(s, space);
      |r| <= |s| && r == s[|s| - |r|..]
      && (r == [] || !space(r[0]))
      && forall i :: 0 <= i < |s| - |r| ==> space(s[i])
  {
    if s != [] && space(s[0]) {
      TrimStartSpec(s[1..], space);
    }
  }

  /** TrimEnd drops exactly the trailing run of spaces. */
  lemma {:induction false} TrimEndSpec(s: string, space: char -> bool)
    ensures var r := TrimEnd(s, space);
      |r| <= |s| && r == s[..|r|]
      && (r == [] || !space(r[|r| - 1]))
      && forall i :: |r| <= i < |s| ==> space(s[i])
  {
    if s != [] && space(s[|s| - 1]) {
      TrimEndSpec(s[..|s| - 1], space);
    }
  }

  /** The trimmed string is a contiguous piece of `s` that neither starts nor ends
      with a space, and it is empty exactly when every character of `s` is a space. */
  lemma TrimSpec(s: string, space: char -> bool)
    ensures var r := Trim(s, space);
      |r| <= |s|
      && (r != [] ==> !space(r[0]) && !space(r[|r| - 1]))
      && (r == [] <==> forall i :: 0 <= i < |s| ==> space(s[i]))
  {
    var t := TrimStart(s, space);
    TrimStartSpec(s, space);
    TrimEndSpec(t, space);
    var r := Trim(s, space);
    assert forall i :: 0 <= i < |t| ==> t[i] == s[|s| - |t| + i];
  }

  /** Trimming twice is trimming once. */
  lemma TrimIdempotent(s: string, space: char -> bool)
    ensures Trim(Trim(s, space), space) == Trim(s, space)
  {
    var t := Trim(s, space);
    TrimSpec(s, space);
    if t != [] {
      assert TrimStart(t, space) == t;
      assert TrimEnd(t, space) == t;
    }
  }

  /** JavaScript's `s.length`: characters outside the Basic Multilingual Plane
      take two UTF-16 code units. */
  function Utf16Length(s: string): (n: nat)
    ensures |s| <= n <= 2 * |s|
  {
    if s == [] then 0 else (if s[0] as int >= 0x1_0000 then 2 else 1) + Utf16Length(s[1..])
  }

  /** `xs[:n]` in Python, `xs.slice(0, n)` in JavaScript, for n >= 0. */
  function Take<T>(xs: seq<T>, n: nat): (r: seq<T>)
    ensures |r| == if |xs| <= n then |xs| else n
    ensures r == xs[..|r|]
  {
    if |xs| <= n then xs else xs[..n]
  }

  /** A list comprehension `[f(x) for x in xs]`, or `xs.map(f)` in JavaScript. */
  function Map<A, B>(f: A -> B, xs: seq<A>): (r: seq<B>)
    ensures |r| == |xs| && forall i :: 0 <= i < |xs| ==> r[i] == f(xs[i])
  {
    if xs == [] then [] else [f(xs[0])] + Map(f, xs[1..])
  }

  /** `sep.join(parts)` in Python, `parts.join(sep)` in JavaScript. */
  function Join(sep: string, parts: seq<string>): string
  {
    if parts == [] then ""
    else if |parts| == 1 then parts[0]
    else parts[0] + sep + Join(sep, parts[1..])
  }

  /** The last part ends the joined text, and is all of it when it is the only part. */
  lemma JoinEndsWith(sep: string, parts: seq<string>, x: string)
    ensures |x| <= |Join(sep, parts + [x])|
    ensures Join(sep, parts + [x])[|Join(sep, parts + [x])| - |x|..] == x
    ensures parts == [] ==> Join(sep, parts + [x]) == x
  {
    if parts == [] {
      assert parts + [x] == [x];
    } else {
      JoinSnoc(sep, parts, x);
    }
  }

  /** Joining one more part appends the separator and that part. */
  lemma {:induction false} JoinSnoc(sep: string, parts: seq<string>, x: string)
    requires parts != []
    ensures Join(sep, parts + [x]) == Join(sep, parts) + sep + x
  {
    if |parts| > 1 {
      assert (parts + [x])[1..] == parts[1..] + [x];
      JoinSnoc(sep, parts[1..], x);
    }
  }
}
