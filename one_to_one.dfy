/** The single-persona page (public/1to1.js): the user talks to Lumen alone. The
    page keeps a local `history` of what was said, which it can export as plain
    text, and a read-only chat log view synced from the server. */
module OneToOne {
  import opened Text
  import opened Wire
  import opened Transport

  /** The longest message the page sends, in UTF-16 code units. */
  const MAX_LENGTH: int := 2000

  /** The session request of this page names its mode. */
  const SESSION_REQUEST: Request := SessionRequest(Some("therapist-room"))

  /** The reply shown when the answer carries no text. */
  const FALLBACK: string := "I\U{2019}m here."

  /** Who said a `history` entry: the user (`self`) or Lumen (`angel`). */
  datatype Speaker = SelfSpeaker | AngelSpeaker

  datatype Entry = Entry(speaker: Speaker, text: string)

  /** The side a synced log row is drawn on. */
  datatype Side = SelfSide | LumenSide

  datatype ChatRow = ChatRow(side: Side, text: string)

  /** The chat log view: rows, or the "Could not load log." notice. */
  datatype Timeline = Rows(rows: seq<ChatRow>) | LoadFailed

  /** The row a synced message becomes: `self` and `angel` rows are kept, every other role is dropped. */
  function RowOf(m: LoggedMessage): seq<ChatRow> {
    if m.role == "self" then [ChatRow(SelfSide, OrEmpty(m.text))]
    else if m.role == "angel" then [ChatRow(LumenSide, OrEmpty(m.text))]
    else []
  }

  /** The rows `syncChatLogFromServer` appends for a message list, in order. */
  function LogRows(ms: seq<LoggedMessage>): (rows: seq<ChatRow>)
    ensures |rows| <= |ms|
  {
    if ms == [] then [] else LogRows(ms[..|ms| - 1]) + RowOf(ms[|ms| - 1])
  }

  lemma {:induction false} LogRowsAppend(a: seq<LoggedMessage>, b: seq<LoggedMessage>)
    ensures LogRows(a + b) == LogRows(a) + LogRows(b)
    decreases |b|
  {
    if b == [] {
      assert a + b == a;
    } else {
      assert (a + b)[..|a + b| - 1] == a + b[..|b| - 1];
      LogRowsAppend(a, b[..|b| - 1]);
    }
  }

  /** When every message is a `self` or `angel` row, each becomes one row in
      place: `self` on the user's side, `angel` on Lumen's, with its text or "". */
  lemma {:induction false} LogRowsKeepsChat(ms: seq<LoggedMessage>)
    requires forall i :: 0 <= i < |ms| ==> ms[i].role == "self" || ms[i].role == "angel"
    ensures |LogRows(ms)| == |ms|
    ensures forall i :: 0 <= i < |ms| ==>
      LogRows(ms)[i] == ChatRow(if ms[i].role == "self" then SelfSide else LumenSide, OrEmpty(ms[i].text))
  {
    if ms != [] {
      var init := ms[..|ms| - 1];
      LogRowsKeepsChat(init);
      assert LogRows(ms) == LogRows(init) + RowOf(ms[|ms| - 1]);
    }
  }

  /** Messages of any other role (Lumen's server-side roles, the monster chair) show nothing. */
  lemma {:induction false} LogRowsDropsOthers(ms: seq<LoggedMessage>)
    requires forall i :: 0 <= i < |ms| ==> ms[i].role != "self" && ms[i].role != "angel"
    ensures LogRows(ms) == []
  {
    if ms != [] {
      LogRowsDropsOthers(ms[..|ms| - 1]);
    }
  }

  /** One line of the exported transcript. */
  function ExportLine(e: Entry): string {
    (if e.speaker == SelfSpeaker then "You: " else "Lumen: ") + e.text
  }

  function ExportLines(h: seq<Entry>): (lines: seq<string>)
    ensures |lines| == |h| && forall i :: 0 <= i < |h| ==> lines[i] == ExportLine(h[i])
  {
    seq(|h|, i requires 0 <= i < |h| => ExportLine(h[i]))
  }

  /** The exported transcript: the lines joined by a blank line, then a newline;
      an empty history exports a lone newline. */
  function ExportText(h: seq<Entry>): (t: string)
    ensures |t| >= 1 && t[|t| - 1] == '\n'
    ensures h == [] ==> t == "\n"
  {
    Join("\n\n", ExportLines(h)) + "\n"
  }

  /** The transcript of one entry is its line; each further entry adds a blank
      line, its line and the closing newline. */
  lemma ExportGrows(h: seq<Entry>, e: Entry)
    ensures ExportText([e]) == ExportLine(e) + "\n"
    ensures h != [] ==> ExportText(h + [e]) == ExportText(h) + "\n" + ExportLine(e) + "\n"
  {
    assert ExportLines([e]) == [ExportLine(e)];
    if h != [] {
      assert ExportLines(h + [e]) == ExportLines(h) + [ExportLine(e)];
      JoinSnoc("\n\n", ExportLines(h), ExportLine(e));
    }
  }

  /** The text shown as Lumen's reply: `lumen`, else `angel`, else the fallback; never empty. */
  function ReplyText(body: Body): (r: string)
    ensures r != []
    ensures body.Json? && Truthy(body.reply.lumen) ==> r == body.reply.lumen.value
    ensures body.Json? && !Truthy(body.reply.lumen) && Truthy(body.reply.angel) ==> r == body.reply.angel.value
    ensures !(body.Json? && (Truthy(body.reply.lumen) || Truthy(body.reply.angel))) ==> r == FALLBACK
  {
    if body.Json? && Truthy(Or(body.reply.lumen, body.reply.angel)) then Or(body.reply.lumen, body.reply.angel).value
    else FALLBACK
  }

  /** The page's state. */
  datatype State = State(
    sessionId: Option<string>,
    history: seq<Entry>,
    inFlight: bool,
    disabled: bool,
    sosOpen: bool,
    timeline: Timeline)

  const Fresh: State := State(None, [], false, false, false, Rows([]))

  /** A session step: the id afterwards, the attempts made, and whether it returned normally. */
  datatype Session = Session(sessionId: Option<string>, attempts: nat, ok: bool)

  /** `createSession` under the strict policy: one to three requests; the id is the
      answer's `sessionId` field, which only an ok answer supplies. */
  function Created(sessionId: Option<string>, net: seq<Attempt>): (r: Session)
    ensures 1 <= r.attempts <= MAX_RETRIES
    ensures r.ok ==> IsOk(AttemptAt(net, r.attempts - 1))
    ensures !r.ok ==> r.sessionId == sessionId
    ensures r.ok <==> IsOk(AttemptAt(net, r.attempts - 1)) && AttemptAt(net, r.attempts - 1).body.Json?
    ensures r.ok ==> r.sessionId == AttemptAt(net, r.attempts - 1).body.reply.sessionId
  {
    var f := Strict(net, MAX_RETRIES);
    if JsonAnswer(f) then Session(f.settled.body.reply.sessionId, f.attempts, true)
    else Session(sessionId, f.attempts, false)
  }

  /** `if(!sessionId) await createSession()`: no request when an id is held. */
  function Ensured(sessionId: Option<string>, net: seq<Attempt>): (r: Session)
    ensures Truthy(sessionId) ==> r == Session(sessionId, 0, true)
    ensures !Truthy(sessionId) ==> 1 <= r.attempts <= MAX_RETRIES
    ensures !Truthy(sessionId) ==> r == Created(sessionId, net)
  {
    if Truthy(sessionId) then Session(sessionId, 0, true) else Created(sessionId, net)
  }

  datatype Outcome = Ignored | Failed | Crisis | Replied(reply: string)

  datatype Sent = Sent(state: State, requests: seq<Request>, outcome: Outcome)

  /** The part of `handleSendCharacter` after the session exists: the message
      request under the strict policy and what its answer adds. */
  function Deliver(s: State, text: string, messageNet: seq<Attempt>): (r: Sent)
    ensures 1 <= |r.requests| <= MAX_RETRIES
    ensures forall i :: 0 <= i < |r.requests| ==> r.requests[i] == MessageRequest(s.sessionId, Self, text)
    ensures r.state.sessionId == s.sessionId
    ensures |s.history| <= |r.state.history| && r.state.history[..|s.history|] == s.history
  {
    var f := Strict(messageNet, MAX_RETRIES);
    var requests := Repeat(MessageRequest(s.sessionId, Self, text), f.attempts);
    if !f.settled.Resolved? || f.settled.body.NotJson? then Sent(s, requests, Failed)
    else
      var body := f.settled.body;
      if body.Json? && body.reply.crisis && body.reply.locked then
        Sent(s.(sosOpen := true, disabled := true, inFlight := false), requests, Crisis)
      else
        var reply := ReplyText(body);
        Sent(s.(history := s.history + [Entry(AngelSpeaker, reply)]), requests, Replied(reply))
  }

  /** `handleSendCharacter` with the input holding `typed`; the `finally` block clears `inFlight`. */
  function Send(s: State, typed: string, sessionNet: seq<Attempt>, messageNet: seq<Attempt>): (r: Sent)
    ensures |r.requests| <= 2 * MAX_RETRIES
  {
    var text := Trim(typed, IsJsSpace);
    if s.inFlight || text == [] || Utf16Length(text) > MAX_LENGTH then Sent(s, [], Ignored)
    else
      var e := Ensured(s.sessionId, sessionNet);
      var asked := Repeat(SESSION_REQUEST, e.attempts);
      var busy := s.(sessionId := e.sessionId, history := s.history + [Entry(SelfSpeaker, text)], inFlight := true);
      var d := if e.ok then Deliver(busy, text, messageNet) else Sent(busy, [], Failed);
      Sent(d.state.(inFlight := false), asked + d.requests, d.outcome)
  }

  /** A send while another is in flight, of blank text or of text over 2000 UTF-16 units is ignored. */
  lemma IgnoredSend(s: State, typed: string, sessionNet: seq<Attempt>, messageNet: seq<Attempt>)
    requires s.inFlight || Utf16Length(Trim(typed, IsJsSpace)) > MAX_LENGTH
             || forall i :: 0 <= i < |typed| ==> IsJsSpace(typed[i])
    ensures Send(s, typed, sessionNet, messageNet) == Sent(s, [], Ignored)
  {
    TrimSpec(typed, IsJsSpace);
  }

  /** `history` only grows. An accepted text becomes a self entry before anything
      is sent and stays even when the send fails; only a reply adds a second entry,
      Lumen's. */
  lemma HistoryAppendOnly(s: State, typed: string, sessionNet: seq<Attempt>, messageNet: seq<Attempt>)
    ensures var r := Send(s, typed, sessionNet, messageNet);
      var h := r.state.history;
      |s.history| <= |h| && h[..|s.history|] == s.history
      && (r.outcome != Ignored ==> h[|s.history|] == Entry(SelfSpeaker, Trim(typed, IsJsSpace)))
      && |h| == |s.history| + (match r.outcome case Ignored => 0 case Replied(_) => 2 case _ => 1)
      && (r.outcome.Replied? ==> h[|h| - 1] == Entry(AngelSpeaker, r.outcome.reply) && r.outcome.reply != [])
  {
  }

  /** The text passes the guards of `handleSendCharacter`: nothing in flight, and the
      trimmed text is non-blank and at most 2000 UTF-16 units long. */
  predicate Accepts(s: State, typed: string) {
    var text := Trim(typed, IsJsSpace);
    !s.inFlight && text != [] && Utf16Length(text) <= MAX_LENGTH
  }

  /** The message request goes out: the text passes the guards and a session is held or created. */
  predicate Reaches(s: State, typed: string, sessionNet: seq<Attempt>) {
    Accepts(s, typed) && Ensured(s.sessionId, sessionNet).ok
  }

  /** A crisis is acted on exactly when the answer to a sent message is a JSON object
      saying both `crisis` and `locked`; it adds no Lumen entry and leaves the input
      disabled. */
  lemma CrisisNeedsLock(s: State, typed: string, sessionNet: seq<Attempt>, messageNet: seq<Attempt>)
    ensures var f := Strict(messageNet, MAX_RETRIES);
      Send(s, typed, sessionNet, messageNet).outcome == Crisis <==>
        Reaches(s, typed, sessionNet) && JsonAnswer(f) && f.settled.body.reply.crisis && f.settled.body.reply.locked
    ensures var r := Send(s, typed, sessionNet, messageNet);
      r.outcome == Crisis ==> r.state.disabled && r.state.sosOpen && |r.state.history| == |s.history| + 1
  {
  }

  /** Any other answer that `r.json()` can read, `null` included, is shown as Lumen's
      reply `lumen || angel || "I’m here."`; a session that cannot be created, a fetch
      that keeps failing and a body that is not JSON give the error notice. */
  lemma ReplyOrFailure(s: State, typed: string, sessionNet: seq<Attempt>, messageNet: seq<Attempt>)
    ensures var f := Strict(messageNet, MAX_RETRIES);
      Send(s, typed, sessionNet, messageNet).outcome.Replied? <==>
        Reaches(s, typed, sessionNet) && f.settled.Resolved? && !f.settled.body.NotJson?
        && !(f.settled.body.Json? && f.settled.body.reply.crisis && f.settled.body.reply.locked)
    ensures var r := Send(s, typed, sessionNet, messageNet); var f := Strict(messageNet, MAX_RETRIES);
      r.outcome.Replied? ==> f.settled.Resolved? && r.outcome.reply == ReplyText(f.settled.body)
    ensures var f := Strict(messageNet, MAX_RETRIES);
      Send(s, typed, sessionNet, messageNet).outcome == Failed <==>
        Accepts(s, typed) && (!Ensured(s.sessionId, sessionNet).ok || !f.settled.Resolved? || f.settled.body.NotJson?)
  {
  }

  /** Every send that gets past the guards ends with `inFlight` false. */
  lemma SendSettles(s: State, typed: string, sessionNet: seq<Attempt>, messageNet: seq<Attempt>)
    ensures var r := Send(s, typed, sessionNet, messageNet);
      r.outcome != Ignored ==> !r.state.inFlight
  {
  }

  /** `syncChatLogFromServer`: the state afterwards and the requests made. */
  function Synced(s: State, sessionNet: seq<Attempt>, logNet: seq<Attempt>): (r: (State, seq<Request>))
    ensures |r.1| <= 2 * MAX_RETRIES
  {
    var e := Ensured(s.sessionId, sessionNet);
    var asked := Repeat(SESSION_REQUEST, e.attempts);
    if !e.ok then (s, asked)
    else
      var f := Strict(logNet, MAX_RETRIES);
      var requests := asked + Repeat(LogRequest(e.sessionId), f.attempts);
      var timeline :=
        if f.settled.Resolved? && f.settled.body.Json? then
          var ms := f.settled.body.reply.messages;
          Rows(if ms.Some? then LogRows(ms.value) else [])
        else LoadFailed;
      (s.(sessionId := e.sessionId, timeline := timeline), requests)
  }

  /** A sync that cannot start a session leaves the view alone; otherwise the view is
      replaced by the mapped log, or by the notice when the log cannot be read.
      The history is never touched. */
  lemma SyncReplacesView(s: State, sessionNet: seq<Attempt>, logNet: seq<Attempt>)
    ensures var (t, requests) := Synced(s, sessionNet, logNet);
      t.history == s.history && t.inFlight == s.inFlight
      && (!Ensured(s.sessionId, sessionNet).ok ==> t == s)
      && (Ensured(s.sessionId, sessionNet).ok ==>
            |requests| >= 1 && requests[|requests| - 1] == LogRequest(t.sessionId)
            && (t.timeline.Rows? <==> Strict(logNet, MAX_RETRIES).settled.Resolved? && Strict(logNet, MAX_RETRIES).settled.body.Json?))
    ensures var (t, _) := Synced(s, sessionNet, logNet);
      var f := Strict(logNet, MAX_RETRIES);
      Ensured(s.sessionId, sessionNet).ok ==>
        t.sessionId == Ensured(s.sessionId, sessionNet).sessionId
        && t.timeline == if f.settled.Resolved? && f.settled.body.Json? then
          Rows(if f.settled.body.reply.messages.Some? then LogRows(f.settled.body.reply.messages.value) else [])
        else LoadFailed
  {
  }

  /** `startNew`: no session, an empty history and view, the input enabled. */
  function Restarted(s: State): (t: State)
    ensures t.sessionId == None && t.history == [] && !t.disabled
    ensures t.inFlight == s.inFlight && t.sosOpen == s.sosOpen
  {
    s.(sessionId := None, history := [], timeline := Rows([]), disabled := false)
  }

  /** The page's closure state. */
  class Client {
    var sessionId: Option<string>
    var history: seq<Entry>
    var inFlight: bool
    var disabled: bool
    var sosOpen: bool
    var timeline: Timeline

    function Snapshot(): State
      reads this
    {
      State(sessionId, history, inFlight, disabled, sosOpen, timeline)
    }

    constructor()
      ensures Snapshot() == Fresh
    {
      sessionId, history, inFlight, disabled, sosOpen, timeline := None, [], false, false, false, Rows([]);
    }

    /** `createSession`: a failure leaves the id alone (ok = false). */
    method CreateSession(net: seq<Attempt>) returns (asked: seq<Request>, ok: bool)
      modifies this
      ensures var e := Created(old(sessionId), net);
        Snapshot() == old(Snapshot()).(sessionId := e.sessionId)
        && asked == Repeat(SESSION_REQUEST, e.attempts) && ok == e.ok
    {
      var f := FetchStrict(net, MAX_RETRIES);
      asked := Repeat(SESSION_REQUEST, f.attempts);
      if f.settled.Resolved? && f.settled.body.Json? {
        sessionId := f.settled.body.reply.sessionId;
        ok := true;
      } else {
        ok := false;
      }
    }

    /** `handleSendCharacter`. */
    method HandleSendCharacter(typed: string, sessionNet: seq<Attempt>, messageNet: seq<Attempt>)
      returns (requests: seq<Request>, outcome: Outcome)
      modifies this
      ensures Sent(Snapshot(), requests, outcome) == Send(old(Snapshot()), typed, sessionNet, messageNet)
    {
      if inFlight {
        return [], Ignored;
      }
      var text := Trim(typed, IsJsSpace);
      if text == [] || Utf16Length(text) > MAX_LENGTH {
        return [], Ignored;
      }
      inFlight := true;
      history := history + [Entry(SelfSpeaker, text)];
      requests := [];
      var ok := true;
      if !Truthy(sessionId) {
        requests, ok := CreateSession(sessionNet);
      }
      if ok {
        var sent;
        sent, outcome := Exchange(text, messageNet);
        requests := requests + sent;
      } else {
        outcome := Failed;
      }
      inFlight := false;
    }

    /** The `try` block of `handleSendCharacter` after the session exists. */
    method Exchange(text: string, messageNet: seq<Attempt>) returns (requests: seq<Request>, outcome: Outcome)
      modifies this
      ensures Sent(Snapshot(), requests, outcome) == Deliver(old(Snapshot()), text, messageNet)
    {
      var f := FetchStrict(messageNet, MAX_RETRIES);
      requests := Repeat(MessageRequest(sessionId, Self, text), f.attempts);
      if !f.settled.Resolved? || f.settled.body.NotJson? {
        return requests, Failed;
      }
      var body := f.settled.body;
      if body.Json? && body.reply.crisis && body.reply.locked {
        sosOpen := true;
        disabled := true;
        inFlight := false;
        return requests, Crisis;
      }
      var reply := ReplyText(body);
      history := history + [Entry(AngelSpeaker, reply)];
      outcome := Replied(reply);
    }

    /** `syncChatLogFromServer`. */
    method SyncChatLog(sessionNet: seq<Attempt>, logNet: seq<Attempt>) returns (requests: seq<Request>)
      modifies this
      ensures (Snapshot(), requests) == Synced(old(Snapshot()), sessionNet, logNet)
    {
      requests := [];
      if !Truthy(sessionId) {
        var ok;
        requests, ok := CreateSession(sessionNet);
        if !ok {
          return;
        }
      }
      var f := FetchStrict(logNet, MAX_RETRIES);
      requests := requests + Repeat(LogRequest(sessionId), f.attempts);
      if f.settled.Resolved? && f.settled.body.Json? {
        var ms := f.settled.body.reply.messages;
        timeline := Rows([]);
        if ms.Some? {
          var rows: seq<ChatRow> := [];
          var i := 0;
          while i < |ms.value|
            invariant 0 <= i <= |ms.value|
            invariant rows == LogRows(ms.value[..i])
          {
            assert ms.value[..i + 1][..i] == ms.value[..i];
            rows := rows + RowOf(ms.value[i]);
            i := i + 1;
          }
          assert ms.value[..i] == ms.value;
          timeline := Rows(rows);
        }
      } else {
        timeline := LoadFailed;
      }
    }

    /** `startNew`. */
    method StartNew()
      modifies this
      ensures Snapshot() == Restarted(old(Snapshot()))
    {
      sessionId := None;
      history := history[..0];
      timeline := Rows([]);
      disabled := false;
    }

    /** The export button: the transcript of the history so far. */
    method Export() returns (text: string)
      ensures text == ExportText(history)
    {
      var parts: seq<string> := [];
      var i := 0;
      while i < |history|
        invariant 0 <= i <= |history|
        invariant parts == ExportLines(history[..i])
      {
        parts := parts + [ExportLine(history[i])];
        i := i + 1;
      }
      assert history[..i] == history;
      text := Join("\n\n", parts) + "\n";
    }
  }
}
