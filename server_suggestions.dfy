/** The sanitiser at the end of `generate_self_suggestions_full_context`: the
    model's suggestions are filtered to first-person lines of 6-14 words, padded
    with fixed fallback lines, de-duplicated and capped at four. */
module ServerSuggestions {
  import opened Text

  /** One element of the `suggestions` value the model returned. */
  datatype Item = Str(s: string) | NonStr

  /** The parsed model answer: `Unusable` when reading it raised (no JSON, no
      object, a non-iterable `suggestions`), else the items iterated by the
      `for s in sugs` loop (none when `suggestions` is missing or falsy). */
  datatype SuggestionReply = Unusable | Items(items: seq<Item>)

  const FALLBACK: seq<string> := [
    "I notice what I\U{2019}m feeling, and it makes sense right now.",
    "I can recognise my effort and let that count for something.",
    "I\U{2019}ll take one small step next, then give myself a short break.",
    "I\U{2019}m learning to speak to myself with a kinder voice."
  ]

  /** `s.lower().startswith("i ")`: only `i` and `I` lower-case to a lone `i`,
      and only a space lower-cases to a space. */
  predicate StartsWithI(s: string) {
    |s| >= 2 && (s[0] == 'i' || s[0] == 'I') && s[1] == ' '
  }

  /** `len(s.split())`: the number of maximal runs of non-whitespace characters. */
  function WordCount(s: string): (n: nat)
    ensures n <= |s|
  {
    if s == [] then 0
    else
      var k := |s| - 1;
      WordCount(s[..k]) + (if !IsPySpace(s[k]) && (k == 0 || IsPySpace(s[k - 1])) then 1 else 0)
  }

  /** The length of the leading run of non-whitespace characters. */
  function NonSpaceRun(s: string): (n: nat)
    ensures n <= |s|
    ensures forall i :: 0 <= i < n ==> !IsPySpace(s[i])
    ensures n < |s| ==> IsPySpace(s[n])
  {
    if s == [] || IsPySpace(s[0]) then 0 else 1 + NonSpaceRun(s[1..])
  }

  /** `s.split()`: the words of `s`, left to right, whitespace dropped. */
  function Words(s: string): (ws: seq<string>)
    ensures forall k :: 0 <= k < |ws| ==> ws[k] != [] && forall i :: 0 <= i < |ws[k]| ==> !IsPySpace(ws[k][i])
    decreases |s|
  {
    if s == [] then []
    else if IsPySpace(s[0]) then Words(s[1..])
    else
      var n := NonSpaceRun(s);
      [s[..n]] + Words(s[n..])
  }

  /** Word counts add up across a cut that does not split a word. */
  lemma {:induction false} WordCountConcat(a: string, b: string)
    requires a == [] || b == [] || IsPySpace(a[|a| - 1]) || IsPySpace(b[0])
    ensures WordCount(a + b) == WordCount(a) + WordCount(b)
    decreases |b|
  {
    if b == [] {
      assert a + b == a;
    } else {
      var init := b[..|b| - 1];
      WordCountConcat(a, init);
      assert (a + b)[..|a + b| - 1] == a + init;
    }
  }

  /** A non-empty run without whitespace is one word. */
  lemma {:induction false} WordCountRun(r: string)
    requires r != [] && forall i :: 0 <= i < |r| ==> !IsPySpace(r[i])
    ensures WordCount(r) == 1
  {
    if |r| > 1 {
      WordCountRun(r[..|r| - 1]);
    }
  }

  /** Leading whitespace adds no word. */
  lemma WordCountSkipSpace(s: string)
    requires s != [] && IsPySpace(s[0])
    ensures WordCount(s) == WordCount(s[1..])
  {
    WordCountConcat([s[0]], s[1..]);
    assert [s[0]] + s[1..] == s;
  }

  /** A leading word adds one. */
  lemma WordCountSkipRun(s: string, n: nat)
    requires s != [] && !IsPySpace(s[0]) && n == NonSpaceRun(s)
    ensures WordCount(s) == 1 + WordCount(s[n..])
  {
    WordCountRun(s[..n]);
    WordCountConcat(s[..n], s[n..]);
    assert s[..n] + s[n..] == s;
  }

  /** `WordCount(s)` is `len(s.split())`. */
  lemma {:induction false} WordCountSplit(s: string)
    ensures WordCount(s) == |Words(s)|
    decreases |s|
  {
    if s == [] {
    } else if IsPySpace(s[0]) {
      WordCountSplit(s[1..]);
      WordCountSkipSpace(s);
    } else {
      var n := NonSpaceRun(s);
      WordCountSplit(s[n..]);
      WordCountSkipRun(s, n);
    }
  }

  /** The shape the filter accepts for a stripped line. */
  predicate Acceptable(s: string) {
    StartsWithI(s) && 6 <= WordCount(s) <= 14
  }

  /** The filter applied to one item: its stripped text when that has the accepted shape. */
  function Keep(item: Item): (kept: seq<string>)
    ensures |kept| <= 1
  {
    if item.Str? && Acceptable(Trim(item.s, IsPySpace)) then [Trim(item.s, IsPySpace)] else []
  }

  /** The filtering loop: stripped string items of acceptable shape, in order. */
  function Accepted(items: seq<Item>): (clean: seq<string>)
    ensures |clean| <= |items|
  {
    if items == [] then [] else Accepted(items[..|items| - 1]) + Keep(items[|items| - 1])
  }

  /** A line the filter lets through: stripped, starting with "i ", of 6-14 words. */
  predicate CleanLine(s: string) {
    Acceptable(s) && Trim(s, IsPySpace) == s
  }

  /** Every accepted line has the accepted shape. */
  lemma {:induction false} AcceptedShape(items: seq<Item>)
    ensures forall x :: x in Accepted(items) ==> CleanLine(x)
  {
    if items != [] {
      AcceptedShape(items[..|items| - 1]);
      var last := items[|items| - 1];
      if last.Str? {
        TrimIdempotent(last.s, IsPySpace);
      }
    }
  }

  /** A string item survives the filter exactly when its stripped text has the accepted shape. */
  lemma {:induction false} AcceptedKeeps(items: seq<Item>)
    ensures forall i :: 0 <= i < |items| && items[i].Str? && Acceptable(Trim(items[i].s, IsPySpace)) ==>
      Trim(items[i].s, IsPySpace) in Accepted(items)
  {
    if items != [] {
      var init := items[..|items| - 1];
      AcceptedKeeps(init);
      forall i | 0 <= i < |items| && items[i].Str? && Acceptable(Trim(items[i].s, IsPySpace))
        ensures Trim(items[i].s, IsPySpace) in Accepted(items)
      {
        assert Accepted(items) == Accepted(init) + Keep(items[|items| - 1]);
        if i < |init| {
          assert init[i] == items[i];
        } else {
          assert Keep(items[i]) == [Trim(items[i].s, IsPySpace)];
        }
      }
    }
  }

  /** The filter keeps order: filtering a concatenation concatenates the filtered parts. */
  lemma {:induction false} AcceptedAppend(a: seq<Item>, b: seq<Item>)
    ensures Accepted(a + b) == Accepted(a) + Accepted(b)
    decreases |b|
  {
    if b == [] {
      assert a + b == a;
    } else {
      var init, last := b[..|b| - 1], b[|b| - 1];
      AcceptedAppend(a, init);
      assert (a + b)[..|a + b| - 1] == a + init && (a + b)[|a + b| - 1] == last;
      assert Accepted(a + b) == Accepted(a + init) + Keep(last);
      assert Accepted(b) == Accepted(init) + Keep(last);
    }
  }

  /** Every accepted line is the stripped text of some string item. */
  lemma {:induction false} AcceptedFrom(items: seq<Item>)
    ensures forall x :: x in Accepted(items) ==>
      exists i :: 0 <= i < |items| && items[i].Str? && Trim(items[i].s, IsPySpace) == x
  {
    if items != [] {
      var init := items[..|items| - 1];
      AcceptedFrom(init);
      forall x | x in Accepted(items)
        ensures exists i :: 0 <= i < |items| && items[i].Str? && Trim(items[i].s, IsPySpace) == x
      {
        if x in Accepted(init) {
          var i :| 0 <= i < |init| && init[i].Str? && Trim(init[i].s, IsPySpace) == x;
          assert items[i] == init[i];
        } else {
          assert x in Keep(items[|items| - 1]);
        }
      }
    }
  }

  /** `(clean + fallback)[:4]` when fewer than four lines were accepted. */
  function Padded(clean: seq<string>, fallback: seq<string>): (p: seq<string>)
    requires |fallback| == 4
    ensures |p| >= 4 && (|clean| < 4 ==> |p| == 4)
    ensures |clean| >= 4 ==> p == clean
    ensures |clean| < 4 ==> p[..|clean|] == clean
  {
    if |clean| < 4 then Take(clean + fallback, 4) else clean
  }

  lemma PaddedFrom(clean: seq<string>, fallback: seq<string>)
    requires |fallback| == 4
    ensures forall x :: x in Padded(clean, fallback) ==> x in clean || x in fallback
  {
    if |clean| < 4 {
      var p := Padded(clean, fallback);
      forall x | x in p
        ensures x in clean || x in fallback
      {
        var i :| 0 <= i < |p| && p[i] == x;
        assert p[i] == (clean + fallback)[i];
      }
    }
  }

  predicate Distinct(xs: seq<string>) {
    forall i, j :: 0 <= i < j < |xs| ==> xs[i] != xs[j]
  }

  /** The position of the first occurrence of `x` in `xs`, or `|xs|` when there is none. */
  function FirstIndex(xs: seq<string>, x: string): (r: nat)
    ensures r <= |xs| && (r < |xs| <==> x in xs)
    ensures r < |xs| ==> xs[r] == x
    ensures forall k :: 0 <= k < r ==> xs[k] != x
  {
    if xs == [] then 0 else if xs[0] == x then 0 else 1 + FirstIndex(xs[1..], x)
  }

  /** Appending to a list does not move the first occurrence of a line already in it. */
  lemma FirstIndexSnoc(xs: seq<string>, last: string, x: string)
    requires x in xs
    ensures FirstIndex(xs + [last], x) == FirstIndex(xs, x)
  {
    var r, q := FirstIndex(xs, x), FirstIndex(xs + [last], x);
    assert (xs + [last])[r] == x;
    if q < r {
      assert xs[q] == x;
    }
  }

  /** The `uniq` loop: first occurrences, in order. */
  function Dedup(xs: seq<string>): (u: seq<string>)
    ensures |u| <= |xs|
  {
    if xs == [] then []
    else
      var d := Dedup(xs[..|xs| - 1]);
      if xs[|xs| - 1] in d then d else d + [xs[|xs| - 1]]
  }

  /** De-duplication keeps every line once and nothing else. */
  lemma {:induction false} DedupSpec(xs: seq<string>)
    ensures Distinct(Dedup(xs))
    ensures forall x :: x in Dedup(xs) <==> x in xs
  {
    if xs != [] {
      var init := xs[..|xs| - 1];
      DedupSpec(init);
      assert forall x :: x in xs <==> x in init || x == xs[|xs| - 1];
    }
  }

  /** De-duplication keeps the order of first occurrences. */
  lemma {:induction false} DedupOrder(xs: seq<string>)
    ensures forall i, j :: 0 <= i < j < |Dedup(xs)| ==> FirstIndex(xs, Dedup(xs)[i]) < FirstIndex(xs, Dedup(xs)[j])
  {
    if xs != [] {
      var init, last := xs[..|xs| - 1], xs[|xs| - 1];
      assert xs == init + [last];
      var d := Dedup(init);
      DedupOrder(init);
      DedupSpec(init);
      forall i | 0 <= i < |d|
        ensures FirstIndex(xs, d[i]) == FirstIndex(init, d[i]) < |init|
      {
        FirstIndexSnoc(init, last, d[i]);
      }
      if last !in d {
        assert FirstIndex(xs, last) == |init|;
        assert Dedup(xs) == d + [last];
      }
    }
  }

  /** The sanitiser with its four fallback lines as a parameter. */
  function SanitizeWith(reply: SuggestionReply, fallback: seq<string>): (r: seq<string>)
    requires |fallback| == 4
    ensures |r| <= 4
  {
    match reply
    case Unusable => fallback
    case Items(items) => Take(Dedup(Padded(Accepted(items), fallback)), 4)
  }

  /** The list the function returns, on every path (the `except` branch returns the fallback lines). */
  function Sanitize(reply: SuggestionReply): (r: seq<string>)
    ensures |r| <= 4
  {
    SanitizeWith(reply, FALLBACK)
  }

  lemma FallbackDistinct()
    ensures |FALLBACK| == 4 && Distinct(FALLBACK)
  {
  }

  lemma {:induction false} DedupOfDistinct(xs: seq<string>)
    requires Distinct(xs)
    ensures Dedup(xs) == xs
  {
    if xs != [] {
      DedupOfDistinct(xs[..|xs| - 1]);
      assert xs[|xs| - 1] !in xs[..|xs| - 1];
    }
  }

  lemma {:induction false} DedupKeepsFirst(xs: seq<string>)
    requires xs != []
    ensures Dedup(xs) != [] && Dedup(xs)[0] == xs[0]
  {
    if |xs| > 1 {
      DedupKeepsFirst(xs[..|xs| - 1]);
    }
  }

  /** The sanitiser's guarantees for any four distinct fallback lines. */
  lemma SanitizeWithSpec(reply: SuggestionReply, fallback: seq<string>)
    requires |fallback| == 4 && Distinct(fallback)
    ensures 1 <= |SanitizeWith(reply, fallback)| <= 4
    ensures Distinct(SanitizeWith(reply, fallback))
    ensures forall x :: x in SanitizeWith(reply, fallback) ==> CleanLine(x) || x in fallback
    ensures forall x :: x in SanitizeWith(reply, fallback) ==> (reply.Items? && x in Accepted(reply.items)) || x in fallback
    ensures reply.Unusable? || Accepted(reply.items) == [] ==> SanitizeWith(reply, fallback) == fallback
    ensures reply.Items? && |Accepted(reply.items)| >= 4 ==>
      forall x :: x in SanitizeWith(reply, fallback) ==> x in Accepted(reply.items)
    ensures reply.Items? && Accepted(reply.items) != [] ==> SanitizeWith(reply, fallback)[0] == Accepted(reply.items)[0]
  {
    if reply.Items? {
      var clean := Accepted(reply.items);
      var p := Padded(clean, fallback);
      var u := Dedup(p);
      AcceptedShape(reply.items);
      PaddedFrom(clean, fallback);
      DedupSpec(p);
      if clean == [] {
        assert p == fallback;
        DedupOfDistinct(p);
      } else {
        DedupKeepsFirst(p);
      }
      var r := Take(u, 4);
      assert p[0] in u;
      forall x | x in r
        ensures CleanLine(x) || x in fallback
        ensures x in clean || x in fallback
        ensures |clean| >= 4 ==> x in clean
      {
        assert x in u;
      }
    }
  }

  /** What the client receives: one to four distinct lines, each either an accepted
      first-person line of 6-14 words or one of the fallback lines; the fallback lines
      alone when nothing was accepted, accepted lines only when four or more were, and
      the first accepted line first. */
  lemma SanitizeSpec(reply: SuggestionReply)
    ensures 1 <= |Sanitize(reply)| <= 4
    ensures Distinct(Sanitize(reply))
    ensures forall x :: x in Sanitize(reply) ==> CleanLine(x) || x in FALLBACK
    ensures forall x :: x in Sanitize(reply) ==> (reply.Items? && x in Accepted(reply.items)) || x in FALLBACK
    ensures reply.Unusable? || Accepted(reply.items) == [] ==> Sanitize(reply) == FALLBACK
    ensures reply.Items? && |Accepted(reply.items)| >= 4 ==>
      forall x :: x in Sanitize(reply) ==> x in Accepted(reply.items)
    ensures reply.Items? && Accepted(reply.items) != [] ==> Sanitize(reply)[0] == Accepted(reply.items)[0]
  {
    FallbackDistinct();
    SanitizeWithSpec(reply, FALLBACK);
  }

  /** Copies of one acceptable line are all kept. */
  lemma {:induction false} AcceptedCopies(items: seq<Item>, line: string)
    requires CleanLine(line)
    requires forall i :: 0 <= i < |items| ==> items[i] == Str(line)
    ensures Accepted(items) == seq(|items|, _ => line)
  {
    if items != [] {
      AcceptedCopies(items[..|items| - 1], line);
    }
  }

  lemma DedupFour(line: string)
    ensures Dedup([line, line, line, line]) == [line]
  {
    var one, two, three, four := [line], [line, line], [line, line, line], [line, line, line, line];
    assert one[..0] == [];
    assert Dedup(one) == [line];
    assert two[..1] == one;
    assert Dedup(two) == [line];
    assert three[..2] == two;
    assert Dedup(three) == [line];
    assert four[..3] == three;
  }

  /** The padding happens before de-duplication: four copies of one accepted line
      come back as that single line, not topped up to four. */
  lemma RepeatedLineNotPadded(line: string)
    requires CleanLine(line)
    ensures Sanitize(Items([Str(line), Str(line), Str(line), Str(line)])) == [line]
  {
    var clean := [line, line, line, line];
    assert Accepted([Str(line), Str(line), Str(line), Str(line)]) == clean by {
      AcceptedCopies([Str(line), Str(line), Str(line), Str(line)], line);
    }
    assert Padded(clean, FALLBACK) == clean;
    DedupFour(line);
  }

  /** The `clean` loop: strip each string item and keep it when it has the accepted shape. */
  method FilterSuggestions(items: seq<Item>) returns (clean: seq<string>)
    ensures clean == Accepted(items)
  {
    clean := [];
    var i := 0;
    while i < |items|
      invariant 0 <= i <= |items|
      invariant clean == Accepted(items[..i])
    {
      ghost var before := clean;
      assert Accepted(items[..i + 1]) == before + Keep(items[i]) by {
        assert items[..i + 1][..i] == items[..i];
        assert items[..i + 1][i] == items[i];
      }
      if items[i].Str? {
        var s := Trim(items[i].s, IsPySpace);
        if StartsWithI(s) {
          var wc := WordCount(s);
          if 6 <= wc <= 14 {
            clean := clean + [s];
          }
        }
      }
      assert clean == before + Keep(items[i]);
      i := i + 1;
    }
    assert items[..|items|] == items;
  }

  /** The `uniq` loop: append each line not already present. */
  method DedupLines(clean: seq<string>) returns (uniq: seq<string>)
    ensures uniq == Dedup(clean)
  {
    uniq := [];
    var j := 0;
    while j < |clean|
      invariant 0 <= j <= |clean|
      invariant uniq == Dedup(clean[..j])
    {
      assert clean[..j + 1][..j] == clean[..j];
      if clean[j] !in uniq {
        uniq := uniq + [clean[j]];
      }
      j := j + 1;
    }
    assert clean[..|clean|] == clean;
  }

  /** The sanitising tail of `generate_self_suggestions_full_context`, returning `uniq[:4]`. */
  method CleanSuggestions(reply: SuggestionReply) returns (r: seq<string>)
    ensures r == Sanitize(reply)
  {
    if reply.Unusable? {
      return FALLBACK;
    }
    var clean := FilterSuggestions(reply.items);
    if |clean| < 4 {
      clean := Take(clean + FALLBACK, 4);
    }
    var uniq := DedupLines(clean);
    r := Take(uniq, 4);
  }
}
