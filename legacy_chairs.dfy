/** The original two-chairs page (script.js): a turn-taking composer in which the
    user writes as SELF and as MONSTER in turn, six messages to a cycle, after which
    Lumen answers. The page keeps `sessionId`, `role`, `steps` and `inFlight`
    in module scope; the composer's disabled flag, the SOS sheet and the six step
    pills are the parts of the page those transitions touch. */
module LegacyChairs {
  import opened Text
  import opened Wire
  import opened Transport

  /** The longest message the composer sends, in UTF-16 code units. */
  const MAX_LENGTH: int := 2000
  /** The number of step pills. */
  const PILLS: int := 6
  const SPEED_CHAR_CHAT_LUMEN: int := 8

  /** `paintPills(n)`: pill `i` is lit exactly when `i < n`. */
  function Pills(n: int): (p: seq<bool>)
    ensures |p| == PILLS
  {
    seq(PILLS, i => i < n)
  }

  /** The number of lit pills. */
  function LitCount(p: seq<bool>): nat {
    if p == [] then 0 else LitCount(p[..|p| - 1]) + (if p[|p| - 1] then 1 else 0)
  }

  lemma {:induction false} LitPrefix(k: nat, n: int)
    ensures LitCount(seq(k, i => i < n)) == if n < 0 then 0 else if n > k then k else n
  {
    if k > 0 {
      var p := seq(k, i => i < n);
      assert p[..k - 1] == seq(k - 1, i => i < n);
      LitPrefix(k - 1, n);
    }
  }

  /** The pills show the step count, clamped to the six pills, as a lit prefix. */
  lemma PillsShowSteps(n: int)
    ensures LitCount(Pills(n)) == if n < 0 then 0 else if n > PILLS then PILLS else n
    ensures forall i, j :: 0 <= i <= j < PILLS && Pills(n)[j] ==> Pills(n)[i]
  {
    LitPrefix(PILLS, n);
  }

  /** The typewriter's own pace: faster the longer the text. */
  function DynamicDelay(len: int): (d: int)
    ensures 4 <= d <= 12
  {
    if len > 600 then 4 else if len > 400 then 6 else if len > 250 then 8 else if len > 120 then 10 else 12
  }

  /** A longer text never types more slowly. */
  lemma DynamicDelayShrinks(a: int, b: int)
    requires a <= b
    ensures DynamicDelay(b) <= DynamicDelay(a)
  {
  }

  /** `Math.min(speed || dyn, dyn)`: a zero speed means "no preference". */
  function TypewriterDelay(len: int, speed: int): (delay: int)
    ensures delay <= DynamicDelay(len)
    ensures speed == 0 || speed >= DynamicDelay(len) ==> delay == DynamicDelay(len)
    ensures speed != 0 && speed < DynamicDelay(len) ==> delay == speed
  {
    var dyn := DynamicDelay(len);
    var preferred := if speed != 0 then speed else dyn;
    if preferred < dyn then preferred else dyn
  }

  /** What the page shows of a turn. */
  datatype State = State(
    sessionId: Option<string>,
    role: Role,
    steps: int,
    inFlight: bool,
    disabled: bool,
    sosOpen: bool,
    pills: seq<bool>)

  /** The pills always show the step count. */
  predicate PillsAgree(s: State) {
    s.pills == Pills(s.steps)
  }

  /** The state the module-level declarations and the initial `paintPills` give the page. */
  const Fresh: State := State(None, Self, 0, false, false, false, Pills(0))

  /** `ensureSession`: the session id afterwards, the attempts made, and whether it returned normally. */
  datatype Session = Session(sessionId: Option<string>, attempts: nat, ok: bool)

  /** `ensureSession`: an existing id is kept without a request; otherwise
      `POST /api/session` with body `{}` under the strict retry policy (one to
      three requests), and the id is whatever `sessionId` field the JSON answer
      carries, which only an ok answer supplies. */
  function Ensured(sessionId: Option<string>, net: seq<Attempt>): (r: Session)
    ensures Truthy(sessionId) ==> r == Session(sessionId, 0, true)
    ensures !Truthy(sessionId) ==> 1 <= r.attempts <= MAX_RETRIES
    ensures r.ok ==> Truthy(sessionId) || IsOk(AttemptAt(net, r.attempts - 1))
    ensures !r.ok ==> r.sessionId == sessionId
    ensures !Truthy(sessionId) ==>
      (r.ok <==> IsOk(AttemptAt(net, r.attempts - 1)) && AttemptAt(net, r.attempts - 1).body.Json?)
    ensures !Truthy(sessionId) && r.ok ==> r.sessionId == AttemptAt(net, r.attempts - 1).body.reply.sessionId
  {
    if Truthy(sessionId) then Session(sessionId, 0, true)
    else
      var f := Strict(net, MAX_RETRIES);
      if JsonAnswer(f) then Session(f.settled.body.reply.sessionId, f.attempts, true)
      else Session(sessionId, f.attempts, false)
  }

  /** The session request of script.js carries no mode. */
  const SESSION_REQUEST: Request := SessionRequest(None)

  /** How a send ended. */
  datatype Outcome = Ignored | TooLong | SessionFailed | SendFailed | Crisis | AwaitMore | Completed(angel: string)

  /** A send: the state after its `finally` block, the requests made, and how it ended. */
  datatype Sent = Sent(state: State, requests: seq<Request>, outcome: Outcome)

  /** The part of `handleSend` after `ensureSession`: the message request under
      the strict policy and what its answer does to the turn. */
  function Deliver(s: State, text: string, messageNet: seq<Attempt>): (r: Sent)
    ensures 1 <= |r.requests| <= MAX_RETRIES
    ensures forall i :: 0 <= i < |r.requests| ==> r.requests[i] == MessageRequest(s.sessionId, s.role, text)
    ensures r.state.sessionId == s.sessionId && r.state.inFlight == s.inFlight
  {
    var f := Strict(messageNet, MAX_RETRIES);
    var requests := Repeat(MessageRequest(s.sessionId, s.role, text), f.attempts);
    if !JsonAnswer(f) then Sent(s, requests, SendFailed)
    else
      var j := f.settled.body.reply;
      if j.crisis then Sent(s.(sosOpen := true, disabled := true), requests, Crisis)
      else if j.awaitMore then
        Sent(s.(role := Flip(s.role), steps := s.steps + 1, pills := Pills(s.steps + 1)), requests, AwaitMore)
      else
        Sent(s.(role := Self, steps := 0, pills := Pills(0)), requests, Completed(Trim(OrEmpty(Or(j.angel, j.lumen)), IsJsSpace)))
  }

  /** `handleSend` with the composer holding `typed`: the session and message
      fetches answer from `sessionNet` and `messageNet`; the `finally` block
      clears `inFlight` and enables the composer whatever happened. */
  function Send(s: State, typed: string, sessionNet: seq<Attempt>, messageNet: seq<Attempt>): (r: Sent)
    ensures |r.requests| <= 2 * MAX_RETRIES
  {
    var text := Trim(typed, IsJsSpace);
    if s.inFlight || text == [] then Sent(s, [], Ignored)
    else if Utf16Length(text) > MAX_LENGTH then Sent(s, [], TooLong)
    else
      var e := Ensured(s.sessionId, sessionNet);
      var asked := Repeat(SESSION_REQUEST, e.attempts);
      var busy := s.(sessionId := e.sessionId, inFlight := true, disabled := true);
      var d := if e.ok then Deliver(busy, text, messageNet) else Sent(busy, [], SessionFailed);
      Sent(d.state.(inFlight := false, disabled := false), asked + d.requests, d.outcome)
  }

  /** A send while another is in flight, or of blank text, changes nothing and sends nothing. */
  lemma IgnoredSend(s: State, typed: string, sessionNet: seq<Attempt>, messageNet: seq<Attempt>)
    requires s.inFlight || forall i :: 0 <= i < |typed| ==> IsJsSpace(typed[i])
    ensures Send(s, typed, sessionNet, messageNet) == Sent(s, [], Ignored)
  {
    TrimSpec(typed, IsJsSpace);
  }

  /** Text over 2000 UTF-16 units only shows an error: no session or message request, no state change. */
  lemma TooLongSendsNothing(s: State, typed: string, sessionNet: seq<Attempt>, messageNet: seq<Attempt>)
    requires !s.inFlight && Utf16Length(Trim(typed, IsJsSpace)) > MAX_LENGTH
    ensures Send(s, typed, sessionNet, messageNet) == Sent(s, [], TooLong)
  {
  }

  /** Every send that gets past the guards ends with `inFlight` false and the composer enabled. */
  lemma SendReenables(s: State, typed: string, sessionNet: seq<Attempt>, messageNet: seq<Attempt>)
    ensures var r := Send(s, typed, sessionNet, messageNet);
      r.outcome != Ignored && r.outcome != TooLong ==> !r.state.inFlight && !r.state.disabled
    ensures !s.inFlight ==> !Send(s, typed, sessionNet, messageNet).state.inFlight
  {
  }

  /** The composer's text passes the guards of `handleSend`: nothing in flight, and
      the trimmed text is non-blank and at most 2000 UTF-16 units long. */
  predicate Accepts(s: State, typed: string) {
    var text := Trim(typed, IsJsSpace);
    !s.inFlight && text != [] && Utf16Length(text) <= MAX_LENGTH
  }

  /** The message request goes out: the text passes the guards and `ensureSession` returns. */
  predicate Reaches(s: State, typed: string, sessionNet: seq<Attempt>) {
    Accepts(s, typed) && Ensured(s.sessionId, sessionNet).ok
  }

  /** Exactly a sent message whose answer is a JSON object with `crisis` set is a
      crisis. It opens the SOS sheet and leaves `role` and `steps` as they were, yet
      the composer ends up enabled: the `finally` block undoes the crisis branch's
      disabling. */
  lemma CrisisKeepsTurn(s: State, typed: string, sessionNet: seq<Attempt>, messageNet: seq<Attempt>)
    ensures var f := Strict(messageNet, MAX_RETRIES);
      Send(s, typed, sessionNet, messageNet).outcome == Crisis <==>
        Reaches(s, typed, sessionNet) && JsonAnswer(f) && f.settled.body.reply.crisis
    ensures var r := Send(s, typed, sessionNet, messageNet);
      r.outcome == Crisis ==>
        r.state.role == s.role && r.state.steps == s.steps && r.state.sosOpen && !r.state.disabled && !r.state.inFlight
  {
  }

  /** Exactly a JSON answer with `awaitMore` and no `crisis` asks for more: it counts
      one step and hands the composer to the other chair. */
  lemma AwaitMoreFlips(s: State, typed: string, sessionNet: seq<Attempt>, messageNet: seq<Attempt>)
    ensures var f := Strict(messageNet, MAX_RETRIES);
      Send(s, typed, sessionNet, messageNet).outcome == AwaitMore <==>
        Reaches(s, typed, sessionNet) && JsonAnswer(f) && !f.settled.body.reply.crisis && f.settled.body.reply.awaitMore
    ensures var r := Send(s, typed, sessionNet, messageNet);
      r.outcome == AwaitMore ==> r.state.steps == s.steps + 1 && r.state.role == Flip(s.role) && r.state.role != s.role
  {
  }

  /** Exactly a JSON answer with neither `crisis` nor `awaitMore` completes the cycle,
      with Lumen's text `(j.angel || j.lumen || "").trim()`; the composer goes back to
      SELF with no steps. */
  lemma CompletionResets(s: State, typed: string, sessionNet: seq<Attempt>, messageNet: seq<Attempt>)
    ensures var f := Strict(messageNet, MAX_RETRIES);
      Send(s, typed, sessionNet, messageNet).outcome.Completed? <==>
        Reaches(s, typed, sessionNet) && JsonAnswer(f) && !f.settled.body.reply.crisis && !f.settled.body.reply.awaitMore
    ensures var r := Send(s, typed, sessionNet, messageNet); var f := Strict(messageNet, MAX_RETRIES);
      r.outcome.Completed? ==>
        JsonAnswer(f) && r.outcome.angel == Trim(OrEmpty(Or(f.settled.body.reply.angel, f.settled.body.reply.lumen)), IsJsSpace)
        && r.state.role == Self && r.state.steps == 0
  {
  }

  /** A session start that throws, and a message whose fetch throws or whose answer is
      not a JSON object, are failures; they leave the turn alone. */
  lemma FailureKeepsTurn(s: State, typed: string, sessionNet: seq<Attempt>, messageNet: seq<Attempt>)
    ensures Send(s, typed, sessionNet, messageNet).outcome == SessionFailed <==>
      Accepts(s, typed) && !Ensured(s.sessionId, sessionNet).ok
    ensures Send(s, typed, sessionNet, messageNet).outcome == SendFailed <==>
      Reaches(s, typed, sessionNet) && !JsonAnswer(Strict(messageNet, MAX_RETRIES))
    ensures var r := Send(s, typed, sessionNet, messageNet);
      r.outcome in {SessionFailed, SendFailed} ==>
        r.state.role == s.role && r.state.steps == s.steps && r.state.pills == s.pills && r.state.sosOpen == s.sosOpen
  {
  }

  /** A message is only sent once the page holds a session id or has just been given one. */
  lemma MessageNeedsSession(s: State, typed: string, sessionNet: seq<Attempt>, messageNet: seq<Attempt>)
    requires Send(s, typed, sessionNet, messageNet).outcome in {SendFailed, Crisis, AwaitMore}
             || Send(s, typed, sessionNet, messageNet).outcome.Completed?
    ensures var r := Send(s, typed, sessionNet, messageNet);
      |r.requests| >= 1 && r.requests[|r.requests| - 1].MessageRequest?
      && r.requests[|r.requests| - 1].role == s.role
      && r.requests[|r.requests| - 1].text == Trim(typed, IsJsSpace)
      && r.requests[|r.requests| - 1].sessionId == r.state.sessionId == Ensured(s.sessionId, sessionNet).sessionId
  {
  }

  /** Every send keeps the pills in step with `steps`. */
  lemma SendKeepsPills(s: State, typed: string, sessionNet: seq<Attempt>, messageNet: seq<Attempt>)
    requires PillsAgree(s)
    ensures PillsAgree(Send(s, typed, sessionNet, messageNet).state)
  {
  }

  /** `startNew`: a fresh turn with no session, then `ensureSession` with its error caught. */
  function Restart(s: State, net: seq<Attempt>): (r: (State, seq<Request>))
  {
    var e := Ensured(None, net);
    (State(e.sessionId, Self, 0, false, false, false, Pills(0)), Repeat(SESSION_REQUEST, e.attempts))
  }

  /** `startNew` always asks for a new session and starts the turn over as SELF with no steps. */
  lemma RestartResets(s: State, net: seq<Attempt>)
    ensures var (t, requests) := Restart(s, net);
      t.role == Self && t.steps == 0 && !t.inFlight && !t.disabled && !t.sosOpen && PillsAgree(t)
      && 1 <= |requests| <= MAX_RETRIES && requests[0] == SESSION_REQUEST
      && (t.sessionId.Some? ==> IsOk(AttemptAt(net, |requests| - 1)))
  {
  }

  /** The page's module-level state. */
  class Client {
    var sessionId: Option<string>
    var role: Role
    var steps: int
    var inFlight: bool
    var disabled: bool
    var sosOpen: bool
    var pills: seq<bool>

    function Snapshot(): State
      reads this
    {
      State(sessionId, role, steps, inFlight, disabled, sosOpen, pills)
    }

    /** Page load: the declarations, then the initial `paintPills` and `ensureSession` with its error caught. */
    constructor(net: seq<Attempt>)
      ensures Snapshot() == Fresh.(sessionId := Ensured(None, net).sessionId)
    {
      sessionId, role, steps, inFlight, disabled, sosOpen := None, Self, 0, false, false, false;
      pills := Pills(0);
      new;
      var asked, ok := EnsureSession(net);
    }

    /** `setDisabled(on)`: the in-flight flag and the composer move together. */
    method SetDisabled(on: bool)
      modifies this
      ensures Snapshot() == old(Snapshot()).(inFlight := on, disabled := on)
    {
      inFlight := on;
      disabled := on;
    }

    /** `paintPills(steps)`. */
    method PaintPills()
      modifies this
      ensures Snapshot() == old(Snapshot()).(pills := Pills(steps))
    {
      pills := Pills(steps);
    }

    /** `ensureSession`: rethrows (ok = false) when the session request fails. */
    method EnsureSession(net: seq<Attempt>) returns (asked: seq<Request>, ok: bool)
      modifies this
      ensures var e := Ensured(old(sessionId), net);
        Snapshot() == old(Snapshot()).(sessionId := e.sessionId)
        && asked == Repeat(SESSION_REQUEST, e.attempts) && ok == e.ok
    {
      if Truthy(sessionId) {
        return [], true;
      }
      var f := FetchStrict(net, MAX_RETRIES);
      asked := Repeat(SESSION_REQUEST, f.attempts);
      if f.settled.Resolved? && f.settled.body.Json? {
        sessionId := f.settled.body.reply.sessionId;
        ok := true;
      } else {
        ok := false;
      }
    }

    /** `startNew`. */
    method StartNew(net: seq<Attempt>) returns (requests: seq<Request>)
      modifies this
      ensures (Snapshot(), requests) == Restart(old(Snapshot()), net)
    {
      sessionId := None;
      role := Self;
      steps := 0;
      PaintPills();
      SetDisabled(false);
      sosOpen := false;
      var ok;
      requests, ok := EnsureSession(net);
    }

    /** `handleSend`. */
    method HandleSend(typed: string, sessionNet: seq<Attempt>, messageNet: seq<Attempt>)
      returns (requests: seq<Request>, outcome: Outcome)
      modifies this
      ensures Sent(Snapshot(), requests, outcome) == Send(old(Snapshot()), typed, sessionNet, messageNet)
    {
      if inFlight {
        return [], Ignored;
      }
      var text := Trim(typed, IsJsSpace);
      if text == [] {
        return [], Ignored;
      }
      if Utf16Length(text) > MAX_LENGTH {
        return [], TooLong;
      }
      SetDisabled(true);
      var ok;
      requests, ok := EnsureSession(sessionNet);
      if ok {
        var sent;
        sent, outcome := Exchange(text, messageNet);
        requests := requests + sent;
      } else {
        outcome := SessionFailed;
      }
      SetDisabled(false);
    }

    /** The `try` block of `handleSend` after `ensureSession`. */
    method Exchange(text: string, messageNet: seq<Attempt>) returns (requests: seq<Request>, outcome: Outcome)
      modifies this
      ensures Sent(Snapshot(), requests, outcome) == Deliver(old(Snapshot()), text, messageNet)
    {
      var f := FetchStrict(messageNet, MAX_RETRIES);
      requests := Repeat(MessageRequest(sessionId, role, text), f.attempts);
      if !(f.settled.Resolved? && f.settled.body.Json?) {
        return requests, SendFailed;
      }
      var j := f.settled.body.reply;
      if j.crisis {
        sosOpen := true;
        disabled := true;
        return requests, Crisis;
      }
      steps := steps + 1;
      PaintPills();
      if j.awaitMore {
        role := Flip(role);
        outcome := AwaitMore;
      } else {
        var angel := Trim(OrEmpty(Or(j.angel, j.lumen)), IsJsSpace);
        role := Self;
        steps := 0;
        PaintPills();
        outcome := Completed(angel);
      }
    }
  }
}
