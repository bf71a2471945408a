/** The server's pure text functions: keyword extraction and summary relevance,
    `_truncate`, decimal numbering and the two renderings of a Two Chairs cycle
    (the reply prompt and the compact suggestion context). */
module ServerText {
  import opened Text

  // ---------------------------------------------------------------------------
  // Lower-casing and keywords
  // ---------------------------------------------------------------------------

  /** Python's `str.lower()` on one character, as far as keyword extraction can
      tell: the characters whose lower-case form contains an ASCII letter are the
      letters A-Z, KELVIN SIGN (to "k") and LATIN CAPITAL LETTER I WITH DOT ABOVE
      (to "i" followed by COMBINING DOT ABOVE). Every other character is kept. */
  function LowerChar(c: char): (r: string)
    ensures 'A' <= c <= 'Z' ==> r == [(c as int + 32) as char]
    ensures r != [] && r[0] != c ==> 'A' <= c <= 'Z' || c == '\U{212A}' || c == '\U{0130}'
  {
    if 'A' <= c <= 'Z' then [(c as int + 32) as char]
    else if c == '\U{212A}' then "k"
    else if c == '\U{0130}' then "i\U{0307}"
    else [c]
  }

  /** `s.lower()`. */
  function Lower(s: string): string {
    if s == [] then [] else LowerChar(s[0]) + Lower(s[1..])
  }

  lemma {:induction false} LowerAppend(a: string, b: string)
    ensures Lower(a + b) == Lower(a) + Lower(b)
  {
    if a == [] {
      assert a + b == b;
    } else {
      assert (a + b)[0] == a[0];
      assert (a + b)[1..] == a[1..] + b;
      LowerAppend(a[1..], b);
    }
  }

  /** A lower-cased character lower-cases to itself. */
  lemma LowerCharFixed(c: char)
    ensures Lower(LowerChar(c)) == LowerChar(c)
  {
    var h := LowerChar(c);
    if c == '\U{0130}' {
      assert h == ['i', '\U{0307}'];
      assert Lower(h[1..]) == LowerChar(h[1]) + Lower(h[2..]);
    } else {
      assert |h| == 1;
      assert Lower(h[1..]) == [];
    }
    assert Lower(h) == LowerChar(h[0]) + Lower(h[1..]);
  }

  /** Lower-casing twice is lower-casing once. */
  lemma {:induction false} LowerIdempotent(s: string)
    ensures Lower(Lower(s)) == Lower(s)
  {
    if s != [] {
      var h := LowerChar(s[0]);
      assert Lower(s) == h + Lower(s[1..]);
      LowerAppend(h, Lower(s[1..]));
      LowerIdempotent(s[1..]);
      LowerCharFixed(s[0]);
    }
  }

  /** The character class `[a-z0-9]`. */
  predicate IsWordChar(c: char) {
    'a' <= c <= 'z' || '0' <= c <= '9'
  }

  /** The length of the run of word characters at the start of `s`. */
  function RunLength(s: string): (n: nat)
    ensures n <= |s|
    ensures forall i :: 0 <= i < n ==> IsWordChar(s[i])
    ensures n < |s| ==> !IsWordChar(s[n])
  {
    if s == [] || !IsWordChar(s[0]) then 0 else 1 + RunLength(s[1..])
  }

  /** `re.findall(r"[a-z0-9]+", s)`: the maximal runs of word characters, left to right. */
  function Tokens(s: string): (ts: seq<string>)
    ensures forall k :: 0 <= k < |ts| ==> ts[k] != [] && forall i :: 0 <= i < |ts[k]| ==> IsWordChar(ts[k][i])
    decreases |s|
  {
    if s == [] then []
    else if !IsWordChar(s[0]) then Tokens(s[1..])
    else
      var n := RunLength(s);
      [s[..n]] + Tokens(s[n..])
  }

  /** `s[i..j]` is a maximal run of word characters: it cannot be extended on either side. */
  predicate MaximalRun(s: string, i: int, j: int) {
    0 <= i < j <= |s|
    && (forall k :: i <= k < j ==> IsWordChar(s[k]))
    && (i == 0 || !IsWordChar(s[i - 1]))
    && (j == |s| || !IsWordChar(s[j]))
  }

  /** A maximal run of a suffix `s[d..]` that is not glued to a word character before
      the suffix is a maximal run of `s`, with the same text. */
  lemma ShiftRun(s: string, d: nat, i: int, j: int)
    requires 0 < d <= |s| && MaximalRun(s[d..], i, j)
    requires i != 0 || !IsWordChar(s[d - 1])
    ensures MaximalRun(s, i + d, j + d) && s[d..][i..j] == s[i + d..j + d]
  {
    assert forall k :: i + d <= k < j + d ==> s[k] == s[d..][k - d];
  }

  /** A maximal run of `s` at or after `d` is a maximal run of `s[d..]`, with the same text. */
  lemma UnshiftRun(s: string, d: nat, i: int, j: int)
    requires d <= i && MaximalRun(s, i, j)
    ensures MaximalRun(s[d..], i - d, j - d) && s[i..j] == s[d..][i - d..j - d]
  {
    assert forall k :: i - d <= k < j - d ==> s[d..][k] == s[k + d];
  }

  /** Every token is a maximal run of word characters of `s`. */
  lemma {:induction false} TokensSound(s: string)
    ensures forall t :: t in Tokens(s) ==> exists i, j :: MaximalRun(s, i, j) && t == s[i..j]
    decreases |s|
  {
    if s == [] {
    } else if !IsWordChar(s[0]) {
      TokensSound(s[1..]);
      assert Tokens(s) == Tokens(s[1..]);
      forall t | t in Tokens(s)
        ensures exists i, j :: MaximalRun(s, i, j) && t == s[i..j]
      {
        var i, j :| MaximalRun(s[1..], i, j) && t == s[1..][i..j];
        ShiftRun(s, 1, i, j);
      }
    } else {
      var n := RunLength(s);
      TokensSound(s[n..]);
      assert Tokens(s) == [s[..n]] + Tokens(s[n..]);
      forall t | t in Tokens(s)
        ensures exists i, j :: MaximalRun(s, i, j) && t == s[i..j]
      {
        if t == s[..n] {
          assert MaximalRun(s, 0, n) && t == s[0..n];
        } else {
          assert t in Tokens(s[n..]);
          var i, j :| MaximalRun(s[n..], i, j) && t == s[n..][i..j];
          ShiftRun(s, n, i, j);
        }
      }
    }
  }

  /** Every maximal run of word characters of `s` is a token. */
  lemma {:induction false} TokensComplete(s: string)
    ensures forall i, j :: MaximalRun(s, i, j) ==> s[i..j] in Tokens(s)
    decreases |s|
  {
    if s == [] {
    } else if !IsWordChar(s[0]) {
      TokensComplete(s[1..]);
      assert Tokens(s) == Tokens(s[1..]);
      forall i, j | MaximalRun(s, i, j)
        ensures s[i..j] in Tokens(s)
      {
        UnshiftRun(s, 1, i, j);
      }
    } else {
      var n := RunLength(s);
      TokensComplete(s[n..]);
      assert Tokens(s) == [s[..n]] + Tokens(s[n..]);
      forall i, j | MaximalRun(s, i, j)
        ensures s[i..j] in Tokens(s)
      {
        if i != 0 {
          UnshiftRun(s, n, i, j);
        }
      }
    }
  }

  /** The tokens are exactly the maximal runs of word characters of `s`. */
  lemma TokensAreRuns(s: string)
    ensures forall t :: t in Tokens(s) <==> exists i, j :: MaximalRun(s, i, j) && t == s[i..j]
  {
    TokensSound(s);
    TokensComplete(s);
  }

  /** `_STOP`. */
  const STOP: set<string> := {
    "a", "an", "and", "are", "as", "at", "be", "but", "by", "for", "from", "has", "have",
    "i", "if", "in", "into", "is", "it", "its", "of", "on", "or", "so", "that", "the",
    "their", "them", "there", "they", "this", "to", "was", "we", "what", "when", "where",
    "which", "who", "why", "will", "with", "you", "your" }

  /** `_kw(s)`: the lower-case tokens of three or more characters that are not stop words. */
  function Keywords(s: string): (kw: set<string>)
    ensures forall w :: w in kw ==> |w| >= 3 && w !in STOP && forall i :: 0 <= i < |w| ==> IsWordChar(w[i])
  {
    set w | w in Tokens(Lower(s)) && |w| >= 3 && w !in STOP
  }

  /** A keyword is exactly a maximal `[a-z0-9]` run of the lower-cased text with at
      least three characters that is not a stop word. */
  lemma KeywordsAreRuns(s: string)
    ensures forall w :: w in Keywords(s) <==>
      |w| >= 3 && w !in STOP && exists i, j :: MaximalRun(Lower(s), i, j) && w == Lower(s)[i..j]
  {
    TokensAreRuns(Lower(s));
  }

  /** Keywords ignore case: a text and its lower-cased form have the same keywords. */
  lemma KeywordsIgnoreCase(s: string)
    ensures Keywords(Lower(s)) == Keywords(s)
  {
    LowerIdempotent(s);
  }

  /** `is_connected_to_summary`. */
  function IsConnectedToSummary(current: string, summary: string, minOverlap: int): bool {
    summary != [] && |Keywords(current) * Keywords(summary)| >= minOverlap
  }

  lemma IntersectionBound(a: set<string>, b: set<string>)
    ensures |a * b| <= |a| && |a * b| <= |b|
  {
    assert a == (a * b) + (a - b);
    assert b == (a * b) + (b - a);
  }

  /** The relevance rule: never for an empty summary; otherwise exactly when the
      texts share at least `minOverlap` keywords. In particular a text with fewer
      keywords than `minOverlap` (on either side) is never connected, and
      connection at some threshold implies it at every lower one. */
  lemma ConnectedIff(current: string, summary: string, minOverlap: int)
    ensures summary == [] ==> !IsConnectedToSummary(current, summary, minOverlap)
    ensures summary != [] ==>
      (IsConnectedToSummary(current, summary, minOverlap) <==>
       exists common: set<string> :: common <= Keywords(current) && common <= Keywords(summary) && |common| >= minOverlap)
    ensures |Keywords(current)| < minOverlap || |Keywords(summary)| < minOverlap ==>
      !IsConnectedToSummary(current, summary, minOverlap)
    ensures forall lower: int :: lower <= minOverlap && IsConnectedToSummary(current, summary, minOverlap) ==>
      IsConnectedToSummary(current, summary, lower)
  {
    var a, b := Keywords(current), Keywords(summary);
    IntersectionBound(a, b);
    if summary != [] {
      forall common: set<string> | common <= a && common <= b
        ensures |common| <= |a * b|
      {
        assert a * b == common + (a * b - common);
      }
    }
  }

  /** Keyword overlap does not depend on which text is the summary. */
  lemma ConnectedSymmetric(x: string, y: string, minOverlap: int)
    requires x != [] && y != []
    ensures IsConnectedToSummary(x, y, minOverlap) == IsConnectedToSummary(y, x, minOverlap)
  {
    assert Keywords(x) * Keywords(y) == Keywords(y) * Keywords(x);
  }

  // ---------------------------------------------------------------------------
  // _truncate
  // ---------------------------------------------------------------------------

  /** The ellipsis `…` appended by `_truncate`. */
  const ELLIPSIS: char := '\U{2026}'

  /** Python's `s[:k]` for any integer `k`: a negative `k` counts from the end. */
  function PyPrefix(s: string, k: int): (r: string)
    ensures |r| <= |s| && r == s[..|r|]
    ensures k >= 0 ==> |r| == if k <= |s| then k else |s|
    ensures k < 0 ==> |r| == if -k <= |s| then |s| + k else 0
  {
    if k >= 0 then Take(s, k) else if -k <= |s| then s[..|s| + k] else []
  }

  /** `_truncate(s, limit)`. */
  function Truncate(s: string, limit: int): (r: string)
    ensures |s| <= limit ==> r == s
    ensures |s| > limit && limit >= 1 ==>
      |r| == limit && r[..limit - 1] == s[..limit - 1] && r[limit - 1] == ELLIPSIS
    ensures limit >= 1 ==> |r| <= limit
  {
    if |s| <= limit then s else PyPrefix(s, limit - 1) + [ELLIPSIS]
  }

  // ---------------------------------------------------------------------------
  // Numbers
  // ---------------------------------------------------------------------------

  function Digit(d: nat): (c: char)
    requires d < 10
    ensures '0' <= c <= '9'
  {
    ('0' as int + d) as char
  }

  /** Python's `str(n)` for a non-negative integer. */
  function NatToString(n: nat): (r: string)
    ensures r != [] && forall i :: 0 <= i < |r| ==> '0' <= r[i] <= '9'
  {
    if n < 10 then [Digit(n)] else NatToString(n / 10) + [Digit(n % 10)]
  }

  /** `int(s)` for a string of decimal digits. */
  function ParseDigits(s: string): nat
    requires forall i :: 0 <= i < |s| ==> '0' <= s[i] <= '9'
  {
    if s == [] then 0 else 10 * ParseDigits(s[..|s| - 1]) + (s[|s| - 1] as int - '0' as int)
  }

  /** The numbering in the prompts reads back as the number it was made from. */
  lemma {:induction false} NatToStringRoundTrip(n: nat)
    ensures ParseDigits(NatToString(n)) == n
  {
    if n >= 10 {
      var r := NatToString(n);
      assert r[..|r| - 1] == NatToString(n / 10);
      NatToStringRoundTrip(n / 10);
    }
  }

  // ---------------------------------------------------------------------------
  // The cycle's entries, in the order both builders emit them
  // ---------------------------------------------------------------------------

  /** One line of a cycle rendering: the `n`-th Self or Monster entry. */
  datatype Line = SelfLine(n: nat, text: string) | MonsterLine(n: nat, text: string)

  function Max(a: int, b: int): int { if a < b then b else a }
  function Min(a: int, b: int): int { if a < b then a else b }

  /** The lines appended by iterations `i .. max(len(selfs), len(monsters)) - 1`
      of the loop in `build_two_chairs_prompt` (and of the identical loop in
      `generate_self_suggestions_full_context`). */
  function LinesFrom(selfs: seq<string>, monsters: seq<string>, i: nat): seq<Line>
    decreases Max(|selfs|, |monsters|) - i
  {
    if i >= Max(|selfs|, |monsters|) then []
    else
      (if i < |selfs| then [SelfLine(i + 1, selfs[i])] else [])
      + (if i < |monsters| then [MonsterLine(i + 1, monsters[i])] else [])
      + LinesFrom(selfs, monsters, i + 1)
  }

  function Lines(selfs: seq<string>, monsters: seq<string>): seq<Line> {
    LinesFrom(selfs, monsters, 0)
  }

  /** Beyond the shorter list, the remaining lines are the longer list's, in order. */
  lemma {:induction false} LinesTail(selfs: seq<string>, monsters: seq<string>, k: nat)
    requires Min(|selfs|, |monsters|) <= k <= Max(|selfs|, |monsters|)
    ensures |LinesFrom(selfs, monsters, k)| == Max(|selfs|, |monsters|) - k
    ensures forall i :: k <= i < |selfs| ==> LinesFrom(selfs, monsters, k)[i - k] == SelfLine(i + 1, selfs[i])
    ensures forall i :: k <= i < |monsters| ==> LinesFrom(selfs, monsters, k)[i - k] == MonsterLine(i + 1, monsters[i])
    decreases Max(|selfs|, |monsters|) - k
  {
    if k < Max(|selfs|, |monsters|) {
      LinesTail(selfs, monsters, k + 1);
    }
  }

  /** From iteration `k` on, up to the shorter list's length, two lines per
      iteration and then one per remaining entry of the longer list. */
  lemma {:induction false} LinesFromLength(selfs: seq<string>, monsters: seq<string>, k: nat)
    requires k <= Min(|selfs|, |monsters|)
    ensures |LinesFrom(selfs, monsters, k)| == |selfs| + |monsters| - 2 * k
    decreases Min(|selfs|, |monsters|) - k
  {
    if k == Min(|selfs|, |monsters|) {
      LinesTail(selfs, monsters, k);
    } else {
      LinesFromLength(selfs, monsters, k + 1);
    }
  }

  /** While both lists last, Self `i` and Monster `i` alternate. */
  lemma {:induction false} LinesFromPairs(selfs: seq<string>, monsters: seq<string>, k: nat)
    requires k <= Min(|selfs|, |monsters|)
    ensures |LinesFrom(selfs, monsters, k)| == |selfs| + |monsters| - 2 * k
    ensures forall i :: k <= i < Min(|selfs|, |monsters|) ==>
      LinesFrom(selfs, monsters, k)[2 * (i - k)] == SelfLine(i + 1, selfs[i])
      && LinesFrom(selfs, monsters, k)[2 * (i - k) + 1] == MonsterLine(i + 1, monsters[i])
    decreases Min(|selfs|, |monsters|) - k
  {
    LinesFromLength(selfs, monsters, k);
    var m := Min(|selfs|, |monsters|);
    if k < m {
      LinesFromPairs(selfs, monsters, k + 1);
      var rest := LinesFrom(selfs, monsters, k + 1);
      var full := LinesFrom(selfs, monsters, k);
      assert full == [SelfLine(k + 1, selfs[k]), MonsterLine(k + 1, monsters[k])] + rest;
      forall i | k < i < m
        ensures full[2 * (i - k)] == SelfLine(i + 1, selfs[i])
        ensures full[2 * (i - k) + 1] == MonsterLine(i + 1, monsters[i])
      {
        assert full[2 * (i - k)] == rest[2 * (i - (k + 1))];
        assert full[2 * (i - k) + 1] == rest[2 * (i - (k + 1)) + 1];
      }
    }
  }

  /** After the shorter list runs out, the lines are those of the last iterations. */
  lemma {:induction false} LinesFromSkip(selfs: seq<string>, monsters: seq<string>, k: nat)
    requires k <= Min(|selfs|, |monsters|)
    ensures |LinesFrom(selfs, monsters, k)| >= 2 * (Min(|selfs|, |monsters|) - k)
    ensures LinesFrom(selfs, monsters, k)[2 * (Min(|selfs|, |monsters|) - k)..] == LinesFrom(selfs, monsters, Min(|selfs|, |monsters|))
    decreases Min(|selfs|, |monsters|) - k
  {
    var m := Min(|selfs|, |monsters|);
    if k < m {
      LinesFromSkip(selfs, monsters, k + 1);
      var rest := LinesFrom(selfs, monsters, k + 1);
      var full := LinesFrom(selfs, monsters, k);
      assert full == [SelfLine(k + 1, selfs[k]), MonsterLine(k + 1, monsters[k])] + rest;
      assert full[2 * (m - k)..] == rest[2 * (m - (k + 1))..];
    }
  }

  /** Past the alternating part, line `j` is line `j - 2m` of the last iterations. */
  lemma LinesAt(selfs: seq<string>, monsters: seq<string>, j: nat)
    requires 2 * Min(|selfs|, |monsters|) <= j < |selfs| + |monsters|
    ensures |Lines(selfs, monsters)| == |selfs| + |monsters|
    ensures |LinesFrom(selfs, monsters, Min(|selfs|, |monsters|))| == |selfs| + |monsters| - 2 * Min(|selfs|, |monsters|)
    ensures Lines(selfs, monsters)[j] == LinesFrom(selfs, monsters, Min(|selfs|, |monsters|))[j - 2 * Min(|selfs|, |monsters|)]
  {
    var m := Min(|selfs|, |monsters|);
    LinesFromLength(selfs, monsters, 0);
    LinesFromLength(selfs, monsters, m);
    LinesFromSkip(selfs, monsters, 0);
    var ls := Lines(selfs, monsters);
    assert ls[2 * m..][j - 2 * m] == ls[j];
  }

  /** Self entries beyond the Monster list come last, in order. */
  lemma LinesSelfRest(selfs: seq<string>, monsters: seq<string>)
    ensures |Lines(selfs, monsters)| == |selfs| + |monsters|
    ensures forall i :: Min(|selfs|, |monsters|) <= i < |selfs| ==>
      Lines(selfs, monsters)[Min(|selfs|, |monsters|) + i] == SelfLine(i + 1, selfs[i])
  {
    var m := Min(|selfs|, |monsters|);
    LinesFromLength(selfs, monsters, 0);
    LinesTail(selfs, monsters, m);
    forall i | m <= i < |selfs|
      ensures Lines(selfs, monsters)[m + i] == SelfLine(i + 1, selfs[i])
    {
      LinesAt(selfs, monsters, m + i);
    }
  }

  /** Monster entries beyond the Self list come last, in order. */
  lemma LinesMonsterRest(selfs: seq<string>, monsters: seq<string>)
    ensures |Lines(selfs, monsters)| == |selfs| + |monsters|
    ensures forall i :: Min(|selfs|, |monsters|) <= i < |monsters| ==>
      Lines(selfs, monsters)[Min(|selfs|, |monsters|) + i] == MonsterLine(i + 1, monsters[i])
  {
    var m := Min(|selfs|, |monsters|);
    LinesFromLength(selfs, monsters, 0);
    LinesTail(selfs, monsters, m);
    forall i | m <= i < |monsters|
      ensures Lines(selfs, monsters)[m + i] == MonsterLine(i + 1, monsters[i])
    {
      LinesAt(selfs, monsters, m + i);
    }
  }

  /** `build_two_chairs_prompt` emits one line per entry — `len(selfs) + len(monsters)`
      lines — with `SELF i` immediately before `MONSTER i`, numbered from 1, and the
      longer list's remaining entries after the shorter list runs out. */
  lemma LinesShape(selfs: seq<string>, monsters: seq<string>)
    ensures |Lines(selfs, monsters)| == |selfs| + |monsters|
    ensures forall i :: 0 <= i < Min(|selfs|, |monsters|) ==>
      Lines(selfs, monsters)[2 * i] == SelfLine(i + 1, selfs[i])
      && Lines(selfs, monsters)[2 * i + 1] == MonsterLine(i + 1, monsters[i])
    ensures forall i :: Min(|selfs|, |monsters|) <= i < |selfs| ==>
      Lines(selfs, monsters)[Min(|selfs|, |monsters|) + i] == SelfLine(i + 1, selfs[i])
    ensures forall i :: Min(|selfs|, |monsters|) <= i < |monsters| ==>
      Lines(selfs, monsters)[Min(|selfs|, |monsters|) + i] == MonsterLine(i + 1, monsters[i])
  {
    LinesFromPairs(selfs, monsters, 0);
    LinesSelfRest(selfs, monsters);
    LinesMonsterRest(selfs, monsters);
  }

  /** `f"SELF {i+1}: {text}"` / `f"MONSTER {i+1}: {text}"` behind a bullet. */
  function PromptBullet(l: Line): string {
    match l
    case SelfLine(n, t) => "\U{2022} SELF " + NatToString(n) + ": " + t
    case MonsterLine(n, t) => "\U{2022} MONSTER " + NatToString(n) + ": " + t
  }

  /** `f"SELF{i+1}: {text}"` / `f"MONSTER{i+1}: {text}"`. */
  function CompactPair(l: Line): string {
    match l
    case SelfLine(n, t) => "SELF" + NatToString(n) + ": " + t
    case MonsterLine(n, t) => "MONSTER" + NatToString(n) + ": " + t
  }

  const PROMPT_HEAD: string := "We ran a Two Chairs exercise. Here are the entries:\n\n"

  const PROMPT_TAIL: string :=
    "\n\nNow respond as Lumen. Follow your rules and the ZERO-ECHO rule:\n"
    + "- Do NOT repeat the Monster\U{2019}s wording; refer to it indirectly as \U{201C}that harsh thought\U{201D} or \U{201C}that fear\U{201D}.\n"
    + "- Validate briefly.\n"
    + "- Gently challenge at least one thought.\n"
    + "- Reframe with a more helpful perspective.\n"
    + "- Offer ONE small, doable next step (action or reflection) they can try today.\n"
    + "Keep it warm and compact. Aim for around 180\U{2013}230 words, with at most 1\U{2013}2 short questions."

  /** `build_two_chairs_prompt`: the fixed instructions around the bullet lines, one
      per line. (The template's leading and trailing newline are what `.strip()` removes.) */
  function BuildTwoChairsPrompt(selfs: seq<string>, monsters: seq<string>): (p: string)
    ensures |p| >= |PROMPT_HEAD| + |PROMPT_TAIL|
    ensures p[..|PROMPT_HEAD|] == PROMPT_HEAD
    ensures p[|p| - |PROMPT_TAIL|..] == PROMPT_TAIL
  {
    var body := Join("\n", Map(PromptBullet, Lines(selfs, monsters)));
    assert (PROMPT_HEAD + body + PROMPT_TAIL)[..|PROMPT_HEAD|] == PROMPT_HEAD;
    assert (PROMPT_HEAD + body + PROMPT_TAIL)[|PROMPT_HEAD + body|..] == PROMPT_TAIL;
    PROMPT_HEAD + body + PROMPT_TAIL
  }

  /** The suggestion request's compact context: the entries joined by " | ", cut to 1600 characters. */
  function SuggestionContext(selfs: seq<string>, monsters: seq<string>): (c: string)
    ensures |c| <= 1600
    ensures |Join(" | ", Map(CompactPair, Lines(selfs, monsters)))| <= 1600 ==>
      c == Join(" | ", Map(CompactPair, Lines(selfs, monsters)))
  {
    Truncate(Join(" | ", Map(CompactPair, Lines(selfs, monsters))), 1600)
  }
}
