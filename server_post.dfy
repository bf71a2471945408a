/** `POST /api/message` and `POST /api/session` over an in-memory database: the
    messages and alerts tables as append-only logs and the sessions and users
    tables as maps. The OpenAI calls and the regular-expression checks are the
    `Services` a post is evaluated against. */
module ServerPost {
  import opened Wire
  import opened Text
  import opened ServerText
  import opened ServerCycle
  import opened ServerSuggestions

  datatype Status = Active | Crisis

  /** A row of the sessions table. */
  datatype Session = Session(userId: string, mode: string, status: Status, summary: string)

  /** The `type` of an alert and the payload that goes with it. */
  datatype AlertKind = CrisisKeyword | CrisisModeration | CycleNegative(selfNegatives: seq<bool>)

  datatype Alert = Alert(session: string, kind: AlertKind)

  /** The database: messages and alerts in insertion order, sessions by id, and
      each user's `user_summary` by user id. */
  datatype Db = Db(messages: seq<Row>, alerts: seq<Alert>, sessions: map<string, Session>, users: map<string, string>)

  /** What `parse_output_text` can read from a model response: the `output_text`
      attribute, and the text of the first `output_text` block of the first output. */
  datatype ModelOutput = ModelOutput(outputText: Option<string>, firstTextBlock: Option<string>)

  /** What the server composes the Lumen prompt from: the user's and the session's
      summaries and the cycle's entries. */
  datatype PromptParts = PromptParts(userSummary: string, sessionSummary: string, selfs: seq<string>, monsters: seq<string>)

  /** The foreign services, as total functions of their inputs. The two OpenAI
      text calls are given the text their requests carry: `suggest` the context,
      the last Self entry and the last Monster entry, `respond` the parts that
      `ComposedPrompt` renders into the prompt (the summaries and the cycle's entries). */
  datatype Services = Services(
    crisisPattern: string -> bool,            // check_crisis_local
    negativeHint: string -> bool,             // looks_negative_local
    selfHarmFlagged: string -> bool,          // moderation; false when the call or the lookup raises
    suggest: (string, string, string) -> SuggestionReply,  // the suggestion call
    respond: PromptParts -> Option<ModelOutput>,  // the Lumen reply; None when the call raises
    summarize: seq<Row> -> Option<ModelOutput>)  // the rolling summary; None when the call raises

  datatype PostRequest = PostRequest(sessionId: string, role: Role, text: string)

  /** The response of `post_message`: HTTP 400, a crisis answer (with the
      `notifiedTrustedContact` field only for a new crisis), an await-more
      payload, the Lumen reply, or HTTP 500 when the reply call raised. */
  datatype Response =
    | BadRequest(detail: string)
    | CrisisLocked(notifiedTrustedContact: Option<bool>)
    | AwaitMore(haveSelf: nat, haveMonster: nat, need: int, suggestions: Option<seq<string>>)
    | Complete(reply: string, safetyPopup: bool)
    | ServerError

  datatype Outcome = Outcome(db: Db, response: Response)

  /** The cycle in progress: its Self and Monster texts. */
  datatype Cycle = Cycle(selfs: seq<string>, monsters: seq<string>)

  const MIN_OVERLAP: int := 2
  const NEED_TOTAL: int := 6
  const DEFAULT_MODE: string := "two-chairs"
  const REPLY_FALLBACK: string := "I'm here with you."

  // ---------------------------------------------------------------------------
  // Queries and single-statement updates
  // ---------------------------------------------------------------------------

  /** `get_session_status`. */
  function StatusOf(db: Db, sid: string): Option<Status> {
    if sid in db.sessions then Some(db.sessions[sid].status) else None
  }

  /** `get_sql_summary`: the session's summary, or "" for an unknown session. */
  function SessionSummary(db: Db, sid: string): string {
    if sid in db.sessions then db.sessions[sid].summary else ""
  }

  /** `get_user_summary(get_user_id_for_session(sid))`, or "" when either is missing. */
  function UserSummary(db: Db, sid: string): string {
    if sid in db.sessions && db.sessions[sid].userId != "" && db.sessions[sid].userId in db.users
    then db.users[db.sessions[sid].userId] else ""
  }

  /** The cycle in progress for session `sid`, one row at a time: a row of another
      session changes nothing, Lumen's reply empties the cycle, a chair's row joins its list. */
  function CycleIn(log: seq<Row>, sid: string): Cycle
    decreases |log|
  {
    if log == [] then Cycle([], [])
    else
      var c := CycleIn(log[..|log| - 1], sid);
      var r := log[|log| - 1];
      if r.session != sid then c
      else match r.speaker
        case Angel => Cycle([], [])
        case Chair(Self) => Cycle(c.selfs + [r.text], c.monsters)
        case Chair(Monster) => Cycle(c.selfs, c.monsters + [r.text])
  }

  /** `get_current_cycle`. */
  function CycleOf(db: Db, sid: string): Cycle {
    CycleIn(db.messages, sid)
  }

  /** Appending a row: a row of another session leaves the cycle alone, an angel row empties it, a chair's row joins it. */
  lemma CycleInAppend(log: seq<Row>, r: Row, sid: string)
    ensures r.session != sid ==> CycleIn(log + [r], sid) == CycleIn(log, sid)
    ensures r.session == sid && r.speaker == Angel ==> CycleIn(log + [r], sid) == Cycle([], [])
    ensures r.session == sid && r.speaker == Chair(Self) ==>
      CycleIn(log + [r], sid) == Cycle(CycleIn(log, sid).selfs + [r.text], CycleIn(log, sid).monsters)
    ensures r.session == sid && r.speaker == Chair(Monster) ==>
      CycleIn(log + [r], sid) == Cycle(CycleIn(log, sid).selfs, CycleIn(log, sid).monsters + [r.text])
  {
    assert (log + [r])[..|log|] == log;
  }

  /** The rows of a cycle, split by chair. */
  function Split(cycle: seq<Row>): Cycle {
    Cycle(TextsBy(cycle, Chair(Self)), TextsBy(cycle, Chair(Monster)))
  }

  /** A chair's row joins its own list in the split. */
  lemma SplitSnoc(cycle: seq<Row>, r: Row)
    requires r.speaker.Chair?
    ensures Split(cycle + [r]) ==
      if r.speaker.role == Self then Cycle(Split(cycle).selfs + [r.text], Split(cycle).monsters)
      else Cycle(Split(cycle).selfs, Split(cycle).monsters + [r.text])
  {
    assert (cycle + [r])[..|cycle|] == cycle;
  }

  /** The row-at-a-time cycle is `get_current_cycle`'s: the Self and Monster texts,
      in order, of the session's rows after its last angel row. */
  lemma {:induction false} CycleInIs(log: seq<Row>, sid: string)
    ensures CycleIn(log, sid) == Split(CurrentCycle(RowsOf(log, sid)))
    decreases |log|
  {
    if log != [] {
      var init, r := log[..|log| - 1], log[|log| - 1];
      assert log == init + [r];
      CycleInIs(init, sid);
      CycleInAppend(init, r, sid);
      RowsOfAppend(init, r, sid);
      var rows := RowsOf(init, sid);
      if r.session != sid {
        assert RowsOf(log, sid) == rows;
      } else {
        assert RowsOf(log, sid) == rows + [r];
        CycleAfterAppend(rows, r);
        if r.speaker == Angel {
          assert CurrentCycle(RowsOf(log, sid)) == [];
        } else {
          assert CurrentCycle(RowsOf(log, sid)) == CurrentCycle(rows) + [r];
          SplitSnoc(CurrentCycle(rows), r);
        }
      }
    }
  }

  /** The cycle's two lists together hold as many entries as the cycle has rows. */
  lemma CycleSize(log: seq<Row>, sid: string)
    ensures |CycleIn(log, sid).selfs| + |CycleIn(log, sid).monsters| == |CurrentCycle(RowsOf(log, sid))|
  {
    CycleInIs(log, sid);
    TextsBySplit(CurrentCycle(RowsOf(log, sid)));
  }

  function WithMessage(db: Db, r: Row): Db {
    db.(messages := db.messages + [r])
  }

  function WithAlert(db: Db, a: Alert): Db {
    db.(alerts := db.alerts + [a])
  }

  /** `UPDATE sessions SET status=? WHERE id=?`: no row changes for an unknown id. */
  function SetStatus(db: Db, sid: string, status: Status): Db {
    if sid in db.sessions then db.(sessions := db.sessions[sid := db.sessions[sid].(status := status)]) else db
  }

  /** `set_sql_summary`: no row changes for an unknown id. */
  function SetSummary(db: Db, sid: string, summary: string): Db {
    if sid in db.sessions then db.(sessions := db.sessions[sid := db.sessions[sid].(summary := summary)]) else db
  }

  // ---------------------------------------------------------------------------
  // post_message
  // ---------------------------------------------------------------------------

  /** `parse_output_text`: the stripped `output_text` when non-empty, else the
      stripped first text block, else the fixed fallback. */
  function ParseOutputText(out: ModelOutput): (r: string)
    ensures Trim(r, IsPySpace) == r
    ensures Truthy(out.outputText) ==> r == Trim(out.outputText.value, IsPySpace)
    ensures !Truthy(out.outputText) && out.firstTextBlock.Some? ==> r == Trim(out.firstTextBlock.value, IsPySpace)
    ensures !Truthy(out.outputText) && out.firstTextBlock.None? ==> r == REPLY_FALLBACK
  {
    if Truthy(out.outputText) then
      TrimIdempotent(out.outputText.value, IsPySpace);
      Trim(out.outputText.value, IsPySpace)
    else if out.firstTextBlock.Some? then
      TrimIdempotent(out.firstTextBlock.value, IsPySpace);
      Trim(out.firstTextBlock.value, IsPySpace)
    else
      REPLY_FALLBACK
  }

  function LastOr(xs: seq<string>): string {
    if xs == [] then "" else xs[|xs| - 1]
  }

  /** The arguments of the suggestion request: the truncated context and the last Self and Monster entries. */
  function SuggestionRequest(selfs: seq<string>, monsters: seq<string>): (r: (string, string, string))
    ensures |r.0| <= 1600
    ensures r.1 == (if selfs == [] then "" else selfs[|selfs| - 1])
    ensures r.2 == (if monsters == [] then "" else monsters[|monsters| - 1])
  {
    (SuggestionContext(selfs, monsters), LastOr(selfs), LastOr(monsters))
  }

  /** The model's answer to the suggestion request for a cycle. */
  function SuggestionAnswer(svc: Services, c: Cycle): SuggestionReply {
    var r := SuggestionRequest(c.selfs, c.monsters);
    svc.suggest(r.0, r.1, r.2)
  }

  /** `generate_self_suggestions_full_context(selfs, monsters)`. */
  function Suggestions(svc: Services, c: Cycle): seq<string> {
    Sanitize(SuggestionAnswer(svc, c))
  }

  /** The material of the Lumen prompt for session `sid`. */
  function PartsOf(db: Db, sid: string, c: Cycle): PromptParts {
    PromptParts(UserSummary(db, sid), SessionSummary(db, sid), c.selfs, c.monsters)
  }

  /** The summary block, when the summary is non-empty and shares at least MIN_OVERLAP keywords with the cycle's text. */
  function ContextBlock(heading: string, current: string, summary: string): (b: seq<string>)
    ensures |b| <= 1
    ensures b != [] <==> summary != [] && |Keywords(current) * Keywords(summary)| >= MIN_OVERLAP
    ensures b != [] ==> b[0] == heading + summary
  {
    if IsConnectedToSummary(current, summary, MIN_OVERLAP) && summary != "" then [heading + summary] else []
  }

  const USER_HEADING: string := "Long-term context (previous sessions):\n"
  const SESSION_HEADING: string := "This-session context so far:\n"

  /** `"\n\n".join(parts)` for the included summary blocks and the Two Chairs block
      `twc`, which therefore always ends the prompt and is all of it when no summary
      block is included. */
  function Compose(userBlock: seq<string>, sessionBlock: seq<string>, twc: string): (prompt: string)
    ensures |twc| <= |prompt| && prompt[|prompt| - |twc|..] == twc
    ensures userBlock == [] && sessionBlock == [] ==> prompt == twc
  {
    JoinEndsWith("\n\n", userBlock + sessionBlock, twc);
    Join("\n\n", userBlock + sessionBlock + [twc])
  }

  /** The memory composition: the user and session summaries, each only when it
      shares at least MIN_OVERLAP keywords with the cycle's text, then the Two Chairs block. */
  function ComposedPrompt(p: PromptParts): (prompt: string)
    ensures var twc := BuildTwoChairsPrompt(p.selfs, p.monsters);
      |twc| <= |prompt| && prompt[|prompt| - |twc|..] == twc
  {
    var current := Join(" ", p.selfs + p.monsters);
    Compose(ContextBlock(USER_HEADING, current, p.userSummary), ContextBlock(SESSION_HEADING, current, p.sessionSummary),
      BuildTwoChairsPrompt(p.selfs, p.monsters))
  }

  predicate AllThreeNegative(labels: seq<bool>) {
    |labels| == 3 && labels[0] && labels[1] && labels[2]
  }

  /** The best-effort rolling summary update: nothing changes, or only the
      session's summary, which becomes a non-empty stripped text. */
  function UpdateSummary(db: Db, svc: Services, sid: string): (r: Db)
    ensures r == db || (sid in db.sessions && sid in r.sessions
      && r.sessions[sid].summary != "" && Trim(r.sessions[sid].summary, IsPySpace) == r.sessions[sid].summary
      && r == SetSummary(db, sid, r.sessions[sid].summary))
    ensures svc.summarize(RowsOf(db.messages, sid)).None? ==> r == db
    ensures var answer := svc.summarize(RowsOf(db.messages, sid));
      answer.Some? && ParseOutputText(answer.value) == "" ==> r == db
    ensures var answer := svc.summarize(RowsOf(db.messages, sid));
      answer.Some? && ParseOutputText(answer.value) != "" && sid in db.sessions ==>
        r == SetSummary(db, sid, ParseOutputText(answer.value)) && r.sessions[sid].summary == ParseOutputText(answer.value)
  {
    match svc.summarize(RowsOf(db.messages, sid))
    case None => db
    case Some(out) =>
      TrimIdempotent(ParseOutputText(out), IsPySpace);
      var summary := Trim(ParseOutputText(out), IsPySpace);
      if summary != "" then SetSummary(db, sid, summary) else db
  }

  /** A detected crisis: the message is stored, an alert recorded, the session locked. */
  function LockSession(db: Db, r: Row, kind: AlertKind): Db {
    SetStatus(WithAlert(WithMessage(db, r), Alert(r.session, kind)), r.session, Crisis)
  }

  /** The full cycle: ask for the Lumen reply, store it, refresh the summary, raise
      the cycle-negative alert when all three Self entries look negative. */
  function CycleClosed(db: Db, svc: Services, sid: string, c: Cycle): (o: Outcome)
    ensures o.response.Complete? || o.response.ServerError?
    ensures o.response.ServerError? <==> svc.respond(PartsOf(db, sid, c)).None?
    ensures o.response.Complete? ==> o.response.reply == ParseOutputText(svc.respond(PartsOf(db, sid, c)).value)
  {
    var labels := Map(svc.negativeHint, c.selfs);
    match svc.respond(PartsOf(db, sid, c))
    case None => Outcome(db, ServerError)
    case Some(out) =>
      var reply := ParseOutputText(out);
      var stored := UpdateSummary(WithMessage(db, Row(sid, Angel, reply)), svc, sid);
      var negative := AllThreeNegative(labels);
      var alerted := if negative then WithAlert(stored, Alert(sid, CycleNegative(labels))) else stored;
      Outcome(alerted, Complete(reply, negative))
  }

  /** After the message is stored, given the cycle: await more entries, or close the cycle. */
  function Step(db: Db, svc: Services, sid: string, role: Role, c: Cycle): (o: Outcome)
    ensures o.response.AwaitMore? <==> |c.selfs| + |c.monsters| < NEED_TOTAL
  {
    var total := |c.selfs| + |c.monsters|;
    if total < NEED_TOTAL then
      var suggestions :=
        if role == Monster && |c.monsters| >= 1 && |c.selfs| == |c.monsters| then Some(Suggestions(svc, c)) else None;
      Outcome(db, AwaitMore(|c.selfs|, |c.monsters|, NEED_TOTAL - total, suggestions))
    else CycleClosed(db, svc, sid, c)
  }

  /** Fewer than six entries: the handler answers awaitMore and changes nothing more. */
  lemma StepAwaits(db: Db, svc: Services, sid: string, role: Role, c: Cycle)
    requires |c.selfs| + |c.monsters| < NEED_TOTAL
    ensures Step(db, svc, sid, role, c) == Outcome(db, AwaitMore(|c.selfs|, |c.monsters|, NEED_TOTAL - (|c.selfs| + |c.monsters|),
      if role == Monster && |c.monsters| >= 1 && |c.selfs| == |c.monsters| then Some(Suggestions(svc, c)) else None))
  {
  }

  /** After the message is stored: await more entries, or close the cycle. */
  function Progress(db: Db, svc: Services, sid: string, role: Role): Outcome {
    Step(db, svc, sid, role, CycleOf(db, sid))
  }

  /** `post_message`. The role is a `Role` because the request model admits only
      "self" and "monster"; anything else is refused before the handler runs. */
  function Post(db: Db, svc: Services, req: PostRequest): (o: Outcome)
    ensures o.response.BadRequest? <==> req.sessionId == "" || req.text == ""
    ensures o.response.BadRequest? || o.response == CrisisLocked(None) ==> o.db == db
  {
    if req.sessionId == "" || req.text == "" then
      Outcome(db, BadRequest("sessionId, role, text are required"))
    else
      var text := Trim(req.text, IsPySpace);
      var row := Row(req.sessionId, Chair(req.role), text);
      if StatusOf(db, req.sessionId) == Some(Crisis) then Outcome(db, CrisisLocked(None))
      else if svc.crisisPattern(text) then Outcome(LockSession(db, row, CrisisKeyword), CrisisLocked(Some(false)))
      else if svc.selfHarmFlagged(text) then Outcome(LockSession(db, row, CrisisModeration), CrisisLocked(Some(false)))
      else Progress(WithMessage(db, row), svc, req.sessionId, req.role)
  }

  /** The posted message after validation and stripping, as it would be stored. */
  function PostedRow(req: PostRequest): Row {
    Row(req.sessionId, Chair(req.role), Trim(req.text, IsPySpace))
  }

  /** A request that passes validation, for a session that is not locked, whose
      text neither the crisis patterns nor the moderation flag. */
  predicate Ordinary(db: Db, svc: Services, req: PostRequest) {
    req.sessionId != "" && req.text != "" && StatusOf(db, req.sessionId) != Some(Crisis)
    && !svc.crisisPattern(Trim(req.text, IsPySpace)) && !svc.selfHarmFlagged(Trim(req.text, IsPySpace))
  }

  // ---------------------------------------------------------------------------
  // Properties of post_message
  // ---------------------------------------------------------------------------

  /** A request without a session id or text is refused with 400 and changes nothing. */
  lemma PostRejectsIncomplete(db: Db, svc: Services, req: PostRequest)
    requires req.sessionId == "" || req.text == ""
    ensures Post(db, svc, req) == Outcome(db, BadRequest("sessionId, role, text are required"))
  {
  }

  /** The crisis lock: once a session's status is crisis, every post to it answers
      crisis+locked and stores nothing. */
  lemma CrisisLockIsFinal(db: Db, svc: Services, req: PostRequest)
    requires req.sessionId != "" && req.text != ""
    requires StatusOf(db, req.sessionId) == Some(Crisis)
    ensures Post(db, svc, req) == Outcome(db, CrisisLocked(None))
  {
  }

  /** A local crisis match stores the stripped message, records a keyword crisis
      alert and sets the session's status to crisis (when the session exists). */
  lemma LocalCrisisLocks(db: Db, svc: Services, req: PostRequest)
    requires req.sessionId != "" && req.text != ""
    requires StatusOf(db, req.sessionId) != Some(Crisis)
    requires svc.crisisPattern(Trim(req.text, IsPySpace))
    ensures Post(db, svc, req).response == CrisisLocked(Some(false))
    ensures Post(db, svc, req).db.messages == db.messages + [PostedRow(req)]
    ensures Post(db, svc, req).db.alerts == db.alerts + [Alert(req.sessionId, CrisisKeyword)]
    ensures req.sessionId in db.sessions ==>
      Post(db, svc, req).db.sessions == db.sessions[req.sessionId := db.sessions[req.sessionId].(status := Crisis)]
    ensures req.sessionId !in db.sessions ==> Post(db, svc, req).db.sessions == db.sessions
    ensures StatusOf(Post(db, svc, req).db, req.sessionId) != Some(Active)
  {
  }

  /** A self-harm moderation flag has the same effect, with a moderation alert. */
  lemma ModerationLocks(db: Db, svc: Services, req: PostRequest)
    requires req.sessionId != "" && req.text != ""
    requires StatusOf(db, req.sessionId) != Some(Crisis)
    requires !svc.crisisPattern(Trim(req.text, IsPySpace)) && svc.selfHarmFlagged(Trim(req.text, IsPySpace))
    ensures Post(db, svc, req).response == CrisisLocked(Some(false))
    ensures Post(db, svc, req).db.messages == db.messages + [PostedRow(req)]
    ensures Post(db, svc, req).db.alerts == db.alerts + [Alert(req.sessionId, CrisisModeration)]
    ensures req.sessionId in db.sessions ==>
      Post(db, svc, req).db.sessions == db.sessions[req.sessionId := db.sessions[req.sessionId].(status := Crisis)]
    ensures req.sessionId !in db.sessions ==> Post(db, svc, req).db.sessions == db.sessions
    ensures StatusOf(Post(db, svc, req).db, req.sessionId) != Some(Active)
  {
  }

  /** The await-more rule: after an ordinary message is stored, fewer than six Self
      and Monster entries in the cycle means awaitMore with need = 6 - total (so
      between 1 and 5), the counts of the cycle as stored, no other change, and
      suggestions exactly when a Monster entry has just evened the counts. */
  lemma AwaitMoreRule(db: Db, svc: Services, req: PostRequest)
    requires Ordinary(db, svc, req)
    ensures var after := WithMessage(db, PostedRow(req));
      var c := CycleOf(after, req.sessionId);
      var o := Post(db, svc, req);
      (|c.selfs| + |c.monsters| < 6 <==> o.response.AwaitMore?)
      && (o.response.AwaitMore? ==>
        o.db == after
        && o.response.haveSelf == |c.selfs| && o.response.haveMonster == |c.monsters|
        && o.response.need == 6 - (|c.selfs| + |c.monsters|)
        && 1 <= o.response.need <= 5
        && (o.response.suggestions.Some? <==> req.role == Monster && |c.monsters| >= 1 && |c.selfs| == |c.monsters|))
  {
    var after := WithMessage(db, PostedRow(req));
    var rows := RowsOf(db.messages, req.sessionId);
    RowsOfAppend(db.messages, PostedRow(req), req.sessionId);
    CycleAfterAppend(rows, PostedRow(req));
  }

  /** Suggestions, when attached, are the sanitiser's: one to four distinct lines,
      each an accepted first-person line or a fallback line. */
  lemma AttachedSuggestions(db: Db, svc: Services, req: PostRequest)
    requires Post(db, svc, req).response.AwaitMore? && Post(db, svc, req).response.suggestions.Some?
    ensures var s := Post(db, svc, req).response.suggestions.value;
      1 <= |s| <= 4 && Distinct(s) && forall x :: x in s ==> CleanLine(x) || x in FALLBACK
  {
    var c := CycleOf(Post(db, svc, req).db, req.sessionId);
    SanitizeSpec(SuggestionAnswer(svc, c));
  }

  /** A completed cycle stores the message and then Lumen's reply, which closes the
      cycle; the safety popup is shown exactly when there were three Self entries
      and all three look negative, together with a cycle-negative alert. */
  lemma CompletionClosesCycle(db: Db, svc: Services, req: PostRequest)
    requires Post(db, svc, req).response.Complete?
    ensures var o := Post(db, svc, req);
      o.db.messages == db.messages + [PostedRow(req), Row(req.sessionId, Angel, o.response.reply)]
      && CycleOf(o.db, req.sessionId) == Cycle([], [])
      && o.db.sessions.Keys == db.sessions.Keys
      && (forall s :: s in db.sessions ==> o.db.sessions[s].status == db.sessions[s].status)
  {
    var o := Post(db, svc, req);
    var after := WithMessage(db, PostedRow(req));
    var c := CycleOf(after, req.sessionId);
    assert Ordinary(db, svc, req);
    assert o == Step(after, svc, req.sessionId, req.role, c);
    assert o == CycleClosed(after, svc, req.sessionId, c);
    CycleClosedExtends(after, svc, req.sessionId, c);
    CycleInAppend(after.messages, Row(req.sessionId, Angel, o.response.reply), req.sessionId);
  }

  lemma SafetyPopupRule(db: Db, svc: Services, req: PostRequest)
    requires Ordinary(db, svc, req)
    requires Post(db, svc, req).response.Complete?
    ensures var c := CycleOf(WithMessage(db, PostedRow(req)), req.sessionId);
      var o := Post(db, svc, req);
      (o.response.safetyPopup <==> |c.selfs| == 3 && forall t :: t in c.selfs ==> svc.negativeHint(t))
      && (o.response.safetyPopup ==>
        o.db.alerts == db.alerts + [Alert(req.sessionId, CycleNegative([true, true, true]))])
      && (!o.response.safetyPopup ==> o.db.alerts == db.alerts)
  {
    var c := CycleOf(WithMessage(db, PostedRow(req)), req.sessionId);
    var labels := Map(svc.negativeHint, c.selfs);
    if |c.selfs| == 3 {
      assert forall t :: t in c.selfs ==> t == c.selfs[0] || t == c.selfs[1] || t == c.selfs[2];
    }
    if AllThreeNegative(labels) {
      assert labels == [true, true, true];
    }
  }

  /** `b` extends `a` on behalf of session `sid`: at most `n` rows appended, all of
      them `sid`'s; alerts only appended; the same sessions, the others untouched;
      no crisis status lifted; the users unchanged. */
  ghost predicate Extends(a: Db, b: Db, sid: string, n: nat) {
    |a.messages| <= |b.messages| <= |a.messages| + n
    && b.messages[..|a.messages|] == a.messages
    && (forall i :: |a.messages| <= i < |b.messages| ==> b.messages[i].session == sid)
    && |a.alerts| <= |b.alerts| && b.alerts[..|a.alerts|] == a.alerts
    && b.sessions.Keys == a.sessions.Keys
    && (forall s :: s in a.sessions && s != sid ==> b.sessions[s] == a.sessions[s])
    && (forall s :: StatusOf(a, s) == Some(Crisis) ==> StatusOf(b, s) == Some(Crisis))
    && b.users == a.users
  }

  lemma ExtendsRefl(a: Db, sid: string, n: nat)
    ensures Extends(a, a, sid, n)
  {
    assert a.messages[..|a.messages|] == a.messages;
    assert a.alerts[..|a.alerts|] == a.alerts;
  }

  lemma ExtendsTrans(a: Db, b: Db, c: Db, sid: string, m: nat, n: nat)
    requires Extends(a, b, sid, m) && Extends(b, c, sid, n)
    ensures Extends(a, c, sid, m + n)
  {
    assert c.messages[..|a.messages|] == c.messages[..|b.messages|][..|a.messages|];
    assert c.alerts[..|a.alerts|] == c.alerts[..|b.alerts|][..|a.alerts|];
    forall i | |a.messages| <= i < |c.messages|
      ensures c.messages[i].session == sid
    {
      if i < |b.messages| {
        assert c.messages[i] == c.messages[..|b.messages|][i];
      }
    }
  }

  /** The detected-crisis update stores one row of the session, adds an alert, and only sets the session's status. */
  lemma LockSessionExtends(db: Db, r: Row, kind: AlertKind)
    ensures Extends(db, LockSession(db, r, kind), r.session, 1)
  {
    var o := LockSession(db, r, kind);
    assert o.messages[..|db.messages|] == db.messages;
    assert o.alerts[..|db.alerts|] == db.alerts;
  }

  lemma WithMessageExtends(db: Db, r: Row)
    ensures Extends(db, WithMessage(db, r), r.session, 1)
  {
    assert (db.messages + [r])[..|db.messages|] == db.messages;
    assert db.alerts[..|db.alerts|] == db.alerts;
  }

  /** Closing a cycle changes nothing when the reply call raises; otherwise it
      stores exactly Lumen's reply, adds at most the cycle-negative alert and
      touches no session but its own (and that one only in its summary). */
  lemma CycleClosedExtends(db: Db, svc: Services, sid: string, c: Cycle)
    ensures var o := CycleClosed(db, svc, sid, c);
      Extends(db, o.db, sid, 1)
      && (o.response.ServerError? || o.response.Complete?)
      && (o.response.ServerError? ==> o.db == db)
      && (o.response.Complete? ==> o.db.messages == db.messages + [Row(sid, Angel, o.response.reply)])
      && (forall s :: s in db.sessions ==> o.db.sessions[s].status == db.sessions[s].status)
    ensures var o := CycleClosed(db, svc, sid, c);
      sid in db.sessions ==> o.db.sessions[sid] == db.sessions[sid].(summary := o.db.sessions[sid].summary)
  {
    var o := CycleClosed(db, svc, sid, c);
    if o.response.Complete? {
      var reply := o.response.reply;
      var withReply := WithMessage(db, Row(sid, Angel, reply));
      WithMessageExtends(db, Row(sid, Angel, reply));
      var stored := UpdateSummary(withReply, svc, sid);
      assert stored.messages == withReply.messages && stored.alerts == withReply.alerts;
      assert stored.alerts[..|db.alerts|] == db.alerts;
      assert o.db.alerts[..|db.alerts|] == db.alerts;
    } else {
      ExtendsRefl(db, sid, 1);
    }
  }

  /** After the message is stored, the rest of the handler adds at most Lumen's reply. */
  lemma StepExtends(db: Db, svc: Services, sid: string, role: Role, c: Cycle)
    ensures Extends(db, Step(db, svc, sid, role, c).db, sid, 1)
  {
    if |c.selfs| + |c.monsters| < NEED_TOTAL {
      ExtendsRefl(db, sid, 1);
    } else {
      CycleClosedExtends(db, svc, sid, c);
    }
  }

  /** Posts only ever add rows, all of them to the posted session: at most the
      message and the reply. Other sessions' rows and every session's identity
      are untouched, and a crisis status is never lifted. */
  lemma PostAppendsOnly(db: Db, svc: Services, req: PostRequest)
    ensures Extends(db, Post(db, svc, req).db, req.sessionId, 2)
  {
    var o := Post(db, svc, req);
    var row := PostedRow(req);
    if !Ordinary(db, svc, req) {
      if o.db == db {
        ExtendsRefl(db, req.sessionId, 2);
      } else {
        LockSessionExtends(db, row, if svc.crisisPattern(row.text) then CrisisKeyword else CrisisModeration);
      }
    } else {
      var after := WithMessage(db, row);
      assert o == Step(after, svc, req.sessionId, req.role, CycleOf(after, req.sessionId));
      WithMessageExtends(db, row);
      StepExtends(after, svc, req.sessionId, req.role, CycleOf(after, req.sessionId));
      ExtendsTrans(db, after, o.db, req.sessionId, 1, 1);
    }
  }

  /** The number of entries of a cycle. */
  function Entries(c: Cycle): nat {
    |c.selfs| + |c.monsters|
  }

  /** The protocol invariant: every active session's cycle holds fewer than six entries. */
  predicate CyclesBounded(db: Db) {
    forall s :: s in db.sessions && db.sessions[s].status == Active ==> Entries(CycleOf(db, s)) < NEED_TOTAL
  }

  /** Rows of other sessions do not change a session's cycle. */
  lemma {:induction false} CycleInOthers(log: seq<Row>, extra: seq<Row>, sid: string)
    requires forall i :: 0 <= i < |extra| ==> extra[i].session != sid
    ensures CycleIn(log + extra, sid) == CycleIn(log, sid)
    decreases |extra|
  {
    if extra == [] {
      assert log + extra == log;
    } else {
      var init := extra[..|extra| - 1];
      assert log + extra == (log + init) + [extra[|extra| - 1]];
      CycleInAppend(log + init, extra[|extra| - 1], sid);
      CycleInOthers(log, init, sid);
    }
  }

  /** Every post keeps the invariant, except one whose reply call failed (HTTP 500):
      that leaves a full cycle behind, which the next post to the session closes. */
  lemma PostKeepsCyclesBounded(db: Db, svc: Services, req: PostRequest)
    requires CyclesBounded(db)
    requires !Post(db, svc, req).response.ServerError?
    ensures CyclesBounded(Post(db, svc, req).db)
  {
    var o := Post(db, svc, req);
    PostAppendsOnly(db, svc, req);
    var extra := o.db.messages[|db.messages|..];
    assert o.db.messages == db.messages + extra;
    forall s | s in o.db.sessions && o.db.sessions[s].status == Active
      ensures Entries(CycleOf(o.db, s)) < NEED_TOTAL
    {
      if s != req.sessionId {
        CycleInOthers(db.messages, extra, s);
        assert CycleOf(o.db, s) == CycleOf(db, s);
      } else if o.response.AwaitMore? {
        AwaitMoreRule(db, svc, req);
      } else if o.response.Complete? {
        CompletionClosesCycle(db, svc, req);
      }
    }
  }

  /** Under the invariant, the sixth entry of a cycle always closes it: an ordinary
      post to an active session whose cycle holds five entries gets Lumen's reply
      (or HTTP 500 when the reply call fails), never another awaitMore. */
  lemma SixthEntryCloses(db: Db, svc: Services, req: PostRequest)
    requires Ordinary(db, svc, req)
    requires Entries(CycleOf(db, req.sessionId)) == 5
    ensures Post(db, svc, req).response.Complete? || Post(db, svc, req).response.ServerError?
  {
    var after := WithMessage(db, PostedRow(req));
    CycleInAppend(db.messages, PostedRow(req), req.sessionId);
    assert Entries(CycleOf(after, req.sessionId)) == 6;
    CycleClosedExtends(after, svc, req.sessionId, CycleOf(after, req.sessionId));
  }

  /** A post that fills the cycle is answered from Lumen's reply: HTTP 500 exactly
      when the reply call raises, otherwise the text `parse_output_text` reads from it. */
  lemma FullCycleReply(db: Db, svc: Services, req: PostRequest)
    requires Ordinary(db, svc, req)
    requires Entries(CycleOf(WithMessage(db, PostedRow(req)), req.sessionId)) >= NEED_TOTAL
    ensures var after := WithMessage(db, PostedRow(req));
      var answer := svc.respond(PartsOf(after, req.sessionId, CycleOf(after, req.sessionId)));
      var o := Post(db, svc, req);
      (o.response.ServerError? <==> answer.None?)
      && (o.response.Complete? <==> answer.Some?)
      && (o.response.Complete? ==> o.response.reply == ParseOutputText(answer.value))
  {
  }

  // ---------------------------------------------------------------------------
  // create_session
  // ---------------------------------------------------------------------------

  datatype Created = Created(db: Db, sessionId: string, userId: string)

  /** `create_session`: reuse the given user id when non-empty, else insert a user
      with the id `freshUser`; insert an active session `freshSession` with an
      empty summary and the given mode, "two-chairs" when none is given. */
  function SessionCreated(db: Db, userId: Option<string>, mode: Option<string>, freshUser: string, freshSession: string): (c: Created)
    ensures c.sessionId == freshSession && freshSession in c.db.sessions && c.db.sessions[freshSession].status == Active
    ensures c.db.sessions[freshSession].summary == ""
    ensures c.db.sessions[freshSession].mode == (if Truthy(mode) then mode.value else DEFAULT_MODE)
    ensures c.userId == (if Truthy(userId) then userId.value else freshUser)
    ensures !Truthy(userId) ==> c.db.users == db.users[freshUser := ""]
    ensures Truthy(userId) ==> c.db.users == db.users
    ensures c.db.messages == db.messages && c.db.alerts == db.alerts
    ensures forall s :: s in db.sessions && s != freshSession ==> s in c.db.sessions && c.db.sessions[s] == db.sessions[s]
  {
    var uid := if Truthy(userId) then userId.value else freshUser;
    var users := if Truthy(userId) then db.users else db.users[freshUser := ""];
    var m := if Truthy(mode) then mode.value else DEFAULT_MODE;
    Created(db.(users := users, sessions := db.sessions[freshSession := Session(uid, m, Active, "")]), freshSession, uid)
  }

  /** A new session with a fresh id (no session and no message carry it yet) keeps the invariant. */
  lemma CreateKeepsCyclesBounded(db: Db, userId: Option<string>, mode: Option<string>, freshUser: string, freshSession: string)
    requires CyclesBounded(db)
    requires freshSession !in db.sessions
    requires forall i :: 0 <= i < |db.messages| ==> db.messages[i].session != freshSession
    ensures CyclesBounded(SessionCreated(db, userId, mode, freshUser, freshSession).db)
  {
    CycleInOthers([], db.messages, freshSession);
    assert [] + db.messages == db.messages;
  }

  // ---------------------------------------------------------------------------
  // The database and the handler, statement by statement
  // ---------------------------------------------------------------------------

  class Database {
    var messages: seq<Row>
    var alerts: seq<Alert>
    var sessions: map<string, Session>
    var users: map<string, string>

    function Snapshot(): Db
      reads this
    {
      Db(messages, alerts, sessions, users)
    }

    /** `init_db` on an empty file. */
    constructor()
      ensures Snapshot() == Db([], [], map[], map[])
    {
      messages, alerts, sessions, users := [], [], map[], map[];
    }

    /** `insert_message`. */
    method InsertMessage(sid: string, speaker: Speaker, text: string)
      modifies this
      ensures Snapshot() == WithMessage(old(Snapshot()), Row(sid, speaker, text))
    {
      messages := messages + [Row(sid, speaker, text)];
    }

    /** `insert_alert`. */
    method InsertAlert(sid: string, kind: AlertKind)
      modifies this
      ensures Snapshot() == WithAlert(old(Snapshot()), Alert(sid, kind))
    {
      alerts := alerts + [Alert(sid, kind)];
    }

    /** `set_session_status`. */
    method SetSessionStatus(sid: string, status: Status)
      modifies this
      ensures Snapshot() == SetStatus(old(Snapshot()), sid, status)
    {
      if sid in sessions {
        sessions := sessions[sid := sessions[sid].(status := status)];
      }
    }

    /** `set_sql_summary`. */
    method SetSqlSummary(sid: string, summary: string)
      modifies this
      ensures Snapshot() == SetSummary(old(Snapshot()), sid, summary)
    {
      if sid in sessions {
        sessions := sessions[sid := sessions[sid].(summary := summary)];
      }
    }

    /** `create_session`, with the ids that `uuid4` would draw passed in. */
    method CreateSession(userId: Option<string>, mode: Option<string>, freshUser: string, freshSession: string)
      returns (sid: string, uid: string)
      modifies this
      ensures var c := SessionCreated(old(Snapshot()), userId, mode, freshUser, freshSession);
        Snapshot() == c.db && sid == c.sessionId && uid == c.userId
    {
      if Truthy(userId) {
        uid := userId.value;
      } else {
        uid := freshUser;
        users := users[freshUser := ""];
      }
      var m := if Truthy(mode) then mode.value else DEFAULT_MODE;
      sessions := sessions[freshSession := Session(uid, m, Active, "")];
      sid := freshSession;
    }

    /** The rolling summary update of `post_message`. */
    method RefreshSummary(svc: Services, sid: string)
      modifies this
      ensures Snapshot() == UpdateSummary(old(Snapshot()), svc, sid)
    {
      var answer := svc.summarize(RowsOf(messages, sid));
      if answer.Some? {
        var summary := Trim(ParseOutputText(answer.value), IsPySpace);
        if summary != "" {
          SetSqlSummary(sid, summary);
        }
      }
    }

    /** The part of `post_message` after a full cycle is found. */
    method CloseCycle(svc: Services, sid: string, selfs: seq<string>, monsters: seq<string>) returns (resp: Response)
      modifies this
      ensures var o := CycleClosed(old(Snapshot()), svc, sid, Cycle(selfs, monsters));
        Snapshot() == o.db && resp == o.response
    {
      var labels := Map(svc.negativeHint, selfs);
      var answer := svc.respond(PartsOf(Snapshot(), sid, Cycle(selfs, monsters)));
      if answer.None? {
        return ServerError;
      }
      var reply := ParseOutputText(answer.value);
      InsertMessage(sid, Angel, reply);
      RefreshSummary(svc, sid);
      var negative := AllThreeNegative(labels);
      if negative {
        InsertAlert(sid, CycleNegative(labels));
      }
      resp := Complete(reply, negative);
    }

    /** `post_message`. */
    method PostMessage(svc: Services, req: PostRequest) returns (resp: Response)
      modifies this
      ensures Snapshot() == Post(old(Snapshot()), svc, req).db
      ensures resp == Post(old(Snapshot()), svc, req).response
    {
      if req.sessionId == "" || req.text == "" {
        return BadRequest("sessionId, role, text are required");
      }
      var text := Trim(req.text, IsPySpace);
      var sid := req.sessionId;
      if StatusOf(Snapshot(), sid) == Some(Crisis) {
        return CrisisLocked(None);
      }
      if svc.crisisPattern(text) {
        InsertMessage(sid, Chair(req.role), text);
        InsertAlert(sid, CrisisKeyword);
        SetSessionStatus(sid, Crisis);
        return CrisisLocked(Some(false));
      }
      if svc.selfHarmFlagged(text) {
        InsertMessage(sid, Chair(req.role), text);
        InsertAlert(sid, CrisisModeration);
        SetSessionStatus(sid, Crisis);
        return CrisisLocked(Some(false));
      }
      InsertMessage(sid, Chair(req.role), text);
      resp := Advance(svc, sid, req.role);
    }

    /** The part of `post_message` after an ordinary message is stored. */
    method Advance(svc: Services, sid: string, role: Role) returns (resp: Response)
      modifies this
      ensures var o := Progress(old(Snapshot()), svc, sid, role);
        Snapshot() == o.db && resp == o.response
    {
      var selfs, monsters := GetCurrentCycle(messages, sid);
      CycleInIs(messages, sid);
      assert Cycle(selfs, monsters) == CycleOf(Snapshot(), sid);
      resp := Proceed(svc, sid, role, selfs, monsters);
    }

    /** Given the cycle: answer awaitMore (with suggestions after a Monster entry
        that evens the counts), or close the cycle. */
    method Proceed(svc: Services, sid: string, role: Role, selfs: seq<string>, monsters: seq<string>) returns (resp: Response)
      modifies this
      ensures var o := Step(old(Snapshot()), svc, sid, role, Cycle(selfs, monsters));
        Snapshot() == o.db && resp == o.response
    {
      var total := |selfs| + |monsters|;
      if total < NEED_TOTAL {
        var suggestions: Option<seq<string>> := None;
        if role == Monster && |monsters| >= 1 && |selfs| == |monsters| {
          var context, lastSelf, lastMonster := SuggestionContext(selfs, monsters), LastOr(selfs), LastOr(monsters);
          var answer := svc.suggest(context, lastSelf, lastMonster);
          var cleaned := CleanSuggestions(answer);
          suggestions := Some(cleaned);
        }
        resp := AwaitMore(|selfs|, |monsters|, NEED_TOTAL - total, suggestions);
        StepAwaits(Snapshot(), svc, sid, role, Cycle(selfs, monsters));
      } else {
        resp := CloseCycle(svc, sid, selfs, monsters);
      }
    }
  }
}
