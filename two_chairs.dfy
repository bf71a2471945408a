/** The two-chairs page served by the Python server (public/2chairs.js). The
    turn-taking is that of script.js, with its own retry policy, a session id
    restored from the browser's storage, suggestion cards on SELF's turn and a
    guide card on MONSTER's turn. Its `setDisabled` never touches `inFlight`,
    so `inFlight` stays false and its guard never fires. */
module TwoChairs {
  import opened Text
  import opened Wire
  import opened Transport

  /** `showSuggestions` renders at most this many suggestions. */
  const MAX_SUGGESTIONS: nat := 4

  /** The session request of this page names its mode. */
  const SESSION_REQUEST: Request := SessionRequest(Some("two-chairs"))

  /** `s.replace(/c/g, rep)` for a single character `c`. */
  function ReplaceAll(s: string, c: char, rep: string): string {
    if s == [] then [] else (if s[0] == c then rep else [s[0]]) + ReplaceAll(s[1..], c, rep)
  }

  /** The four chained replacements of `escapeHtml`, `&` first. */
  function Escaped(t: string): string {
    ReplaceAll(ReplaceAll(ReplaceAll(ReplaceAll(t, '&', "&amp;"), '<', "&lt;"), '>', "&gt;"), '"', "&quot;")
  }

  /** `escapeHtml(s)`: `s ?? ""`, escaped. */
  function EscapeHtml(s: Option<string>): string {
    Escaped(if s.Some? then s.value else "")
  }

  /** The entity a single character becomes. */
  function EscapeChar(c: char): (r: string)
    ensures r != [] && r[0] == (if c in "<>\"" then '&' else c)
  {
    if c == '&' then "&amp;"
    else if c == '<' then "&lt;"
    else if c == '>' then "&gt;"
    else if c == '"' then "&quot;"
    else [c]
  }

  /** Escaping character by character: the reference the chained replacements are checked against. */
  function EscapeEach(s: string): string {
    if s == [] then [] else EscapeChar(s[0]) + EscapeEach(s[1..])
  }

  lemma {:induction false} ReplaceAllAppend(a: string, b: string, c: char, rep: string)
    ensures ReplaceAll(a + b, c, rep) == ReplaceAll(a, c, rep) + ReplaceAll(b, c, rep)
  {
    if a == [] {
      assert a + b == b;
    } else {
      assert (a + b)[0] == a[0] && (a + b)[1..] == a[1..] + b;
      ReplaceAllAppend(a[1..], b, c, rep);
    }
  }

  lemma ReplaceAllOne(x: char, c: char, rep: string)
    ensures ReplaceAll([x], c, rep) == if x == c then rep else [x]
  {
    assert [x][1..] == [];
  }

  lemma {:induction false} ReplaceAllAbsent(s: string, c: char, rep: string)
    requires c !in s
    ensures ReplaceAll(s, c, rep) == s
  {
    if s != [] {
      ReplaceAllAbsent(s[1..], c, rep);
    }
  }

  lemma EscapedAppend(a: string, b: string)
    ensures Escaped(a + b) == Escaped(a) + Escaped(b)
  {
    var a1, b1 := ReplaceAll(a, '&', "&amp;"), ReplaceAll(b, '&', "&amp;");
    ReplaceAllAppend(a, b, '&', "&amp;");
    var a2, b2 := ReplaceAll(a1, '<', "&lt;"), ReplaceAll(b1, '<', "&lt;");
    ReplaceAllAppend(a1, b1, '<', "&lt;");
    var a3, b3 := ReplaceAll(a2, '>', "&gt;"), ReplaceAll(b2, '>', "&gt;");
    ReplaceAllAppend(a2, b2, '>', "&gt;");
    ReplaceAllAppend(a3, b3, '"', "&quot;");
  }

  /** On one character the chain does what EscapeChar says: a later replacement
      never touches what an earlier one produced. */
  lemma EscapedChar(c: char)
    ensures Escaped([c]) == EscapeChar(c)
  {
    ReplaceAllOne(c, '&', "&amp;");
    if c == '&' {
      ReplaceAllAbsent("&amp;", '<', "&lt;");
      ReplaceAllAbsent("&amp;", '>', "&gt;");
      ReplaceAllAbsent("&amp;", '"', "&quot;");
    } else {
      ReplaceAllOne(c, '<', "&lt;");
      if c == '<' {
        ReplaceAllAbsent("&lt;", '>', "&gt;");
        ReplaceAllAbsent("&lt;", '"', "&quot;");
      } else {
        ReplaceAllOne(c, '>', "&gt;");
        if c == '>' {
          ReplaceAllAbsent("&gt;", '"', "&quot;");
        } else {
          ReplaceAllOne(c, '"', "&quot;");
        }
      }
    }
  }

  /** `escapeHtml` escapes each character on its own. */
  lemma {:induction false} EscapeHtmlPerChar(s: string)
    ensures EscapeHtml(Some(s)) == EscapeEach(s)
  {
    if s != [] {
      assert s == [s[0]] + s[1..];
      EscapedAppend([s[0]], s[1..]);
      EscapedChar(s[0]);
      EscapeHtmlPerChar(s[1..]);
    }
  }

  lemma {:induction false} EscapeEachSafe(s: string)
    ensures forall i :: 0 <= i < |EscapeEach(s)| ==> EscapeEach(s)[i] !in "<>\""
  {
    if s != [] {
      EscapeEachSafe(s[1..]);
      var head, tail := EscapeChar(s[0]), EscapeEach(s[1..]);
      assert EscapeEach(s) == head + tail;
      forall i | 0 <= i < |head + tail|
        ensures (head + tail)[i] !in "<>\""
      {
        if i >= |head| {
          assert (head + tail)[i] == tail[i - |head|];
        }
      }
    }
  }

  /** The escaped text holds no `<`, `>` or `"`; a missing value escapes to "". */
  lemma EscapeHtmlSafe(s: Option<string>)
    ensures s.None? ==> EscapeHtml(s) == ""
    ensures forall i :: 0 <= i < |EscapeHtml(s)| ==> EscapeHtml(s)[i] !in "<>\""
  {
    if s.Some? {
      EscapeHtmlPerChar(s.value);
      EscapeEachSafe(s.value);
    }
  }

  /** What a browser reads back from the escaped markup: the four entities decoded. */
  function Unescape(s: string): string {
    if s == [] then []
    else if |s| >= 5 && s[0] == '&' && s[1] == 'a' && s[2] == 'm' && s[3] == 'p' && s[4] == ';' then "&" + Unescape(s[5..])
    else if |s| >= 4 && s[0] == '&' && s[1] == 'l' && s[2] == 't' && s[3] == ';' then "<" + Unescape(s[4..])
    else if |s| >= 4 && s[0] == '&' && s[1] == 'g' && s[2] == 't' && s[3] == ';' then ">" + Unescape(s[4..])
    else if |s| >= 6 && s[0] == '&' && s[1] == 'q' && s[2] == 'u' && s[3] == 'o' && s[4] == 't' && s[5] == ';' then "\"" + Unescape(s[6..])
    else [s[0]] + Unescape(s[1..])
  }

  lemma UnescapeChar(c: char, rest: string)
    ensures Unescape(EscapeChar(c) + rest) == [c] + Unescape(rest)
  {
    var s := EscapeChar(c) + rest;
    if c == '&' {
      assert s[5..] == rest;
    } else if c == '<' {
      assert s[4..] == rest;
    } else if c == '>' {
      assert s[4..] == rest;
    } else if c == '"' {
      assert s[6..] == rest;
    } else {
      assert s[0] == c && s[1..] == rest;
    }
  }

  /** The escaped text shows exactly the original text. */
  lemma {:induction false} EscapeHtmlRoundTrip(s: string)
    ensures Unescape(EscapeHtml(Some(s))) == s
  {
    EscapeHtmlPerChar(s);
    EscapeEachRoundTrip(s);
  }

  lemma {:induction false} EscapeEachRoundTrip(s: string)
    ensures Unescape(EscapeEach(s)) == s
  {
    if s != [] {
      UnescapeChar(s[0], EscapeEach(s[1..]));
      EscapeEachRoundTrip(s[1..]);
    }
  }

  /** The card area under the composer. */
  datatype Cards = DefaultCards | SuggestionCards(items: seq<string>) | MonsterGuide

  /** `showSuggestions`: the first four suggestions, escaped, in order. */
  function ShowSuggestions(suggestions: seq<string>): (c: Cards)
    ensures c.SuggestionCards?
    ensures |c.items| == if |suggestions| < MAX_SUGGESTIONS then |suggestions| else MAX_SUGGESTIONS
    ensures forall i :: 0 <= i < |c.items| ==> c.items[i] == EscapeHtml(Some(suggestions[i]))
  {
    var shown := Take(suggestions, MAX_SUGGESTIONS);
    SuggestionCards(seq(|shown|, i requires 0 <= i < |shown| => EscapeHtml(Some(shown[i]))))
  }

  /** The cards an await-more answer leaves: suggestions when it is SELF's turn
      and some came, the monster guide on MONSTER's turn, the default cards otherwise. */
  function CardsFor(next: Role, suggestions: Option<seq<string>>): (c: Cards)
    ensures c.SuggestionCards? <==> next == Self && suggestions.Some? && suggestions.value != []
    ensures next == Monster ==> c == MonsterGuide
    ensures next == Self && !c.SuggestionCards? ==> c == DefaultCards
    ensures c.SuggestionCards? ==>
      suggestions.Some? && 1 <= |c.items| <= MAX_SUGGESTIONS && |c.items| <= |suggestions.value|
      && forall i :: 0 <= i < |c.items| ==> c.items[i] == EscapeHtml(Some(suggestions.value[i]))
  {
    if next == Self && suggestions.Some? && |suggestions.value| > 0 then ShowSuggestions(suggestions.value)
    else if next == Monster then MonsterGuide
    else DefaultCards
  }

  /** What the page shows of a turn. */
  datatype State = State(
    sessionId: Option<string>,
    role: Role,
    steps: int,
    inFlight: bool,
    disabled: bool,
    sosOpen: bool,
    cards: Cards)

  /** The page as loaded, with the id kept in the browser's storage if there is a non-empty one. */
  function Loaded(stored: Option<string>): (s: State)
    ensures !s.inFlight && s.role == Self && s.steps == 0
    ensures Truthy(s.sessionId) <==> Truthy(stored)
  {
    State(Or(stored, None), Self, 0, false, false, false, DefaultCards)
  }

  /** A session step: the id afterwards, the attempts made, and whether it returned normally. */
  datatype Session = Session(sessionId: Option<string>, attempts: nat, ok: bool)

  /** `startSession`: `POST /api/session` with mode "two-chairs" under the lenient
      policy; any answer that parses as a JSON object supplies the new id, whatever its status. */
  function Started(sessionId: Option<string>, net: seq<Attempt>): (r: Session)
    ensures 1 <= r.attempts <= MAX_RETRIES + 1
    ensures !r.ok ==> r.sessionId == sessionId
    ensures r.ok <==> AttemptAt(net, r.attempts - 1).Answered? && AttemptAt(net, r.attempts - 1).body.Json?
    ensures r.ok ==> r.sessionId == AttemptAt(net, r.attempts - 1).body.reply.sessionId
  {
    var f := Lenient(net, MAX_RETRIES);
    if JsonAnswer(f) then Session(f.settled.body.reply.sessionId, f.attempts, true)
    else Session(sessionId, f.attempts, false)
  }

  /** `ensureSession`: a stored or earlier id means no request; otherwise one to
      four session requests. */
  function Ensured(sessionId: Option<string>, net: seq<Attempt>): (r: Session)
    ensures Truthy(sessionId) ==> r == Session(sessionId, 0, true)
    ensures !Truthy(sessionId) ==> 1 <= r.attempts <= MAX_RETRIES + 1
    ensures !Truthy(sessionId) ==> r == Started(sessionId, net)
  {
    if Truthy(sessionId) then Session(sessionId, 0, true) else Started(sessionId, net)
  }

  datatype Outcome = Ignored | SessionFailed | SendFailed | Crisis | AwaitMore | Completed(angel: string)

  /** A send: the state after its `finally` block, the requests made, and how it ended. */
  datatype Sent = Sent(state: State, requests: seq<Request>, outcome: Outcome)

  /** The part of `handleSend` after `ensureSession`: the message request under
      the lenient policy and what its answer does to the turn and the cards. */
  function Deliver(s: State, text: string, messageNet: seq<Attempt>): (r: Sent)
    ensures 1 <= |r.requests| <= MAX_RETRIES + 1
    ensures forall i :: 0 <= i < |r.requests| ==> r.requests[i] == MessageRequest(s.sessionId, s.role, text)
    ensures r.state.sessionId == s.sessionId && r.state.inFlight == s.inFlight && r.state.disabled == s.disabled
  {
    var f := Lenient(messageNet, MAX_RETRIES);
    var requests := Repeat(MessageRequest(s.sessionId, s.role, text), f.attempts);
    if !JsonAnswer(f) then Sent(s, requests, SendFailed)
    else
      var j := f.settled.body.reply;
      if j.crisis then Sent(s.(sosOpen := true), requests, Crisis)
      else if j.awaitMore then
        var next := Flip(s.role);
        Sent(s.(role := next, steps := s.steps + 1, cards := CardsFor(next, j.suggestions)), requests, AwaitMore)
      else
        Sent(s.(role := Self, steps := 0, cards := DefaultCards), requests, Completed(Trim(OrEmpty(Or(j.angel, j.lumen)), IsJsSpace)))
  }

  /** `handleSend` with the composer holding `typed`; the `finally` block enables the composer. */
  function Send(s: State, typed: string, sessionNet: seq<Attempt>, messageNet: seq<Attempt>): (r: Sent)
    ensures |r.requests| <= 2 * (MAX_RETRIES + 1)
  {
    var text := Trim(typed, IsJsSpace);
    if s.inFlight || text == [] then Sent(s, [], Ignored)
    else
      var e := Ensured(s.sessionId, sessionNet);
      var asked := Repeat(SESSION_REQUEST, e.attempts);
      var busy := s.(sessionId := e.sessionId, disabled := true);
      var d := if e.ok then Deliver(busy, text, messageNet) else Sent(busy, [], SessionFailed);
      Sent(d.state.(disabled := false), asked + d.requests, d.outcome)
  }

  /** `inFlight` is never set, so the guard never fires: a send is ignored exactly
      when its text is blank, and no length limit applies. */
  lemma InFlightNeverSet(s: State, typed: string, sessionNet: seq<Attempt>, messageNet: seq<Attempt>)
    requires !s.inFlight
    ensures !Send(s, typed, sessionNet, messageNet).state.inFlight
    ensures Send(s, typed, sessionNet, messageNet).outcome == Ignored <==> forall i :: 0 <= i < |typed| ==> IsJsSpace(typed[i])
  {
    TrimSpec(typed, IsJsSpace);
  }

  /** Whatever its length, non-blank text is sent in full once a session exists. */
  lemma NoLengthLimit(s: State, typed: string, sessionNet: seq<Attempt>, messageNet: seq<Attempt>)
    requires !s.inFlight && Trim(typed, IsJsSpace) != []
    requires Send(s, typed, sessionNet, messageNet).outcome != SessionFailed
    ensures var r := Send(s, typed, sessionNet, messageNet).requests;
      |r| >= 1 && r[|r| - 1] == MessageRequest(Ensured(s.sessionId, sessionNet).sessionId, s.role, Trim(typed, IsJsSpace))
  {
  }

  /** The message request goes out: the trimmed text is non-blank, nothing is in
      flight, and `ensureSession` returns. */
  predicate Reaches(s: State, typed: string, sessionNet: seq<Attempt>) {
    !s.inFlight && Trim(typed, IsJsSpace) != [] && Ensured(s.sessionId, sessionNet).ok
  }

  /** Exactly a sent message whose answer is a JSON object with `crisis` set is a
      crisis; it opens the SOS sheet and leaves the turn and the cards alone. */
  lemma CrisisKeepsTurn(s: State, typed: string, sessionNet: seq<Attempt>, messageNet: seq<Attempt>)
    ensures var f := Lenient(messageNet, MAX_RETRIES);
      Send(s, typed, sessionNet, messageNet).outcome == Crisis <==>
        Reaches(s, typed, sessionNet) && JsonAnswer(f) && f.settled.body.reply.crisis
    ensures var t := Send(s, typed, sessionNet, messageNet).state;
      Send(s, typed, sessionNet, messageNet).outcome == Crisis ==>
        t.role == s.role && t.steps == s.steps && t.cards == s.cards && t.sosOpen && !t.disabled
  {
  }

  /** Exactly a JSON answer with `awaitMore` and no `crisis` asks for more: it counts
      a step, flips the chair and picks the cards for the next chair: on SELF's turn
      the answer's suggestions when it carries a non-empty list, the default cards
      otherwise; on MONSTER's turn the guide. */
  lemma AwaitMoreCards(s: State, typed: string, sessionNet: seq<Attempt>, messageNet: seq<Attempt>)
    ensures var f := Lenient(messageNet, MAX_RETRIES);
      Send(s, typed, sessionNet, messageNet).outcome == AwaitMore <==>
        Reaches(s, typed, sessionNet) && JsonAnswer(f) && !f.settled.body.reply.crisis && f.settled.body.reply.awaitMore
    ensures var t := Send(s, typed, sessionNet, messageNet).state;
      Send(s, typed, sessionNet, messageNet).outcome == AwaitMore ==>
        t.steps == s.steps + 1 && t.role == Flip(s.role)
        && (t.role == Monster ==> t.cards == MonsterGuide)
        && (t.role == Self ==> t.cards.SuggestionCards? || t.cards == DefaultCards)
        && (t.cards.SuggestionCards? ==> 1 <= |t.cards.items| <= MAX_SUGGESTIONS)
    ensures var f := Lenient(messageNet, MAX_RETRIES);
      var t := Send(s, typed, sessionNet, messageNet).state;
      Send(s, typed, sessionNet, messageNet).outcome == AwaitMore ==>
        JsonAnswer(f) && t.cards == CardsFor(t.role, f.settled.body.reply.suggestions)
        && (t.role == Self && f.settled.body.reply.suggestions.Some? && f.settled.body.reply.suggestions.value != [] ==>
          t.cards == ShowSuggestions(f.settled.body.reply.suggestions.value))
        && (t.role == Self && !(f.settled.body.reply.suggestions.Some? && f.settled.body.reply.suggestions.value != []) ==>
          t.cards == DefaultCards)
  {
  }

  /** Exactly a JSON answer with neither `crisis` nor `awaitMore` completes the cycle,
      with Lumen's text `(j.angel || j.lumen || "").trim()`; the composer goes back to
      SELF with no steps and the default cards. */
  lemma CompletionResets(s: State, typed: string, sessionNet: seq<Attempt>, messageNet: seq<Attempt>)
    ensures var f := Lenient(messageNet, MAX_RETRIES);
      Send(s, typed, sessionNet, messageNet).outcome.Completed? <==>
        Reaches(s, typed, sessionNet) && JsonAnswer(f) && !f.settled.body.reply.crisis && !f.settled.body.reply.awaitMore
    ensures var r := Send(s, typed, sessionNet, messageNet); var f := Lenient(messageNet, MAX_RETRIES);
      r.outcome.Completed? ==>
        JsonAnswer(f) && r.outcome.angel == Trim(OrEmpty(Or(f.settled.body.reply.angel, f.settled.body.reply.lumen)), IsJsSpace)
        && r.state.role == Self && r.state.steps == 0 && r.state.cards == DefaultCards
  {
  }

  /** A session start that does not yield a JSON object, and a message whose fetch
      throws on the last attempt or whose answer is not a JSON object, are failures;
      they leave the turn and the cards alone. */
  lemma FailureKeepsTurn(s: State, typed: string, sessionNet: seq<Attempt>, messageNet: seq<Attempt>)
    ensures Send(s, typed, sessionNet, messageNet).outcome == SessionFailed <==>
      !s.inFlight && Trim(typed, IsJsSpace) != [] && !Ensured(s.sessionId, sessionNet).ok
    ensures Send(s, typed, sessionNet, messageNet).outcome == SendFailed <==>
      Reaches(s, typed, sessionNet) && !JsonAnswer(Lenient(messageNet, MAX_RETRIES))
    ensures var t := Send(s, typed, sessionNet, messageNet).state;
      Send(s, typed, sessionNet, messageNet).outcome in {SessionFailed, SendFailed} ==>
        t.role == s.role && t.steps == s.steps && t.cards == s.cards && t.sosOpen == s.sosOpen
  {
  }

  /** A 4xx answer is not retried and, when its JSON body has neither `crisis` nor
      `awaitMore` (the server's error bodies have neither), it closes the cycle as if
      Lumen had answered with nothing. */
  lemma ClientErrorCompletes(s: State, typed: string, sessionNet: seq<Attempt>, status: int, j: Reply)
    requires !s.inFlight && Trim(typed, IsJsSpace) != [] && Truthy(s.sessionId)
    requires 400 <= status <= 499 && !j.crisis && !j.awaitMore && !Truthy(j.angel) && !Truthy(j.lumen)
    ensures var r := Send(s, typed, sessionNet, [Answered(status, Json(j))]);
      r.outcome == Completed("") && |r.requests| == 1 && r.state.role == Self && r.state.steps == 0
  {
    var net := [Answered(status, Json(j))];
    var f := Lenient(net, MAX_RETRIES);
    assert !Retryable(AttemptAt(net, 0));
    assert f.attempts == 1;
  }

  /** The page's closure state. */
  class Client {
    var sessionId: Option<string>
    var role: Role
    var steps: int
    var inFlight: bool
    var disabled: bool
    var sosOpen: bool
    var cards: Cards

    function Snapshot(): State
      reads this
    {
      State(sessionId, role, steps, inFlight, disabled, sosOpen, cards)
    }

    /** Page load, with the value the browser's storage holds for the session id,
        then the `DOMContentLoaded` handler's `ensureSession` (whose failure is
        left unhandled, so the id simply stays unset). */
    constructor(stored: Option<string>, net: seq<Attempt>)
      ensures Snapshot() == Loaded(stored).(sessionId := Ensured(Loaded(stored).sessionId, net).sessionId)
    {
      sessionId := if Truthy(stored) then stored else None;
      role, steps, inFlight, disabled, sosOpen, cards := Self, 0, false, false, false, DefaultCards;
      new;
      var asked, ok := EnsureSession(net);
    }

    /** `setDisabled(v)`: the composer only; `inFlight` is left alone. */
    method SetDisabled(v: bool)
      modifies this
      ensures Snapshot() == old(Snapshot()).(disabled := v)
    {
      disabled := v;
    }

    /** `startSession`: a failure leaves the id alone (ok = false). */
    method StartSession(net: seq<Attempt>) returns (asked: seq<Request>, ok: bool)
      modifies this
      ensures var e := Started(old(sessionId), net);
        Snapshot() == old(Snapshot()).(sessionId := e.sessionId)
        && asked == Repeat(SESSION_REQUEST, e.attempts) && ok == e.ok
    {
      var f := FetchLenient(net, MAX_RETRIES);
      asked := Repeat(SESSION_REQUEST, f.attempts);
      if f.settled.Resolved? && f.settled.body.Json? {
        sessionId := f.settled.body.reply.sessionId;
        ok := true;
      } else {
        ok := false;
      }
    }

    /** `ensureSession`, run on load and before every send. */
    method EnsureSession(net: seq<Attempt>) returns (asked: seq<Request>, ok: bool)
      modifies this
      ensures var e := Ensured(old(sessionId), net);
        Snapshot() == old(Snapshot()).(sessionId := e.sessionId)
        && asked == Repeat(SESSION_REQUEST, e.attempts) && ok == e.ok
    {
      if Truthy(sessionId) {
        return [], true;
      }
      asked, ok := StartSession(net);
    }

    /** `handleSend`. */
    method HandleSend(typed: string, sessionNet: seq<Attempt>, messageNet: seq<Attempt>)
      returns (requests: seq<Request>, outcome: Outcome)
      modifies this
      ensures Sent(Snapshot(), requests, outcome) == Send(old(Snapshot()), typed, sessionNet, messageNet)
    {
      if inFlight {
        return [], Ignored;
      }
      var text := Trim(typed, IsJsSpace);
      if text == [] {
        return [], Ignored;
      }
      SetDisabled(true);
      var ok;
      requests, ok := EnsureSession(sessionNet);
      if ok {
        var sent;
        sent, outcome := Exchange(text, messageNet);
        requests := requests + sent;
      } else {
        outcome := SessionFailed;
      }
      SetDisabled(false);
    }

    /** The `try` block of `handleSend` after `ensureSession`. */
    method Exchange(text: string, messageNet: seq<Attempt>) returns (requests: seq<Request>, outcome: Outcome)
      modifies this
      ensures Sent(Snapshot(), requests, outcome) == Deliver(old(Snapshot()), text, messageNet)
    {
      var f := FetchLenient(messageNet, MAX_RETRIES);
      requests := Repeat(MessageRequest(sessionId, role, text), f.attempts);
      if !(f.settled.Resolved? && f.settled.body.Json?) {
        return requests, SendFailed;
      }
      var j := f.settled.body.reply;
      if j.crisis {
        sosOpen := true;
        return requests, Crisis;
      }
      steps := steps + 1;
      if j.awaitMore {
        role := Flip(role);
        cards := CardsFor(role, j.suggestions);
        outcome := AwaitMore;
      } else {
        var angel := Trim(OrEmpty(Or(j.angel, j.lumen)), IsJsSpace);
        role := Self;
        steps := 0;
        cards := DefaultCards;
        outcome := Completed(angel);
      }
    }
  }
}
