# Xovia: a Dafny model of the Two Chairs engine and its three pages

Xovia is a small journaling and reflection web app. Its server (`server.py`)
runs a "Two Chairs" exercise. The user writes alternately as SELF and as
their critical MONSTER. After six entries Lumen, a language-model persona,
answers with one reply. A crisis keyword or a moderation flag locks the
session. When all three SELF entries look negative, a safety popup suggests
the one-to-one room. Three browser pages talk to the server:

- `script.js` is the original Two Chairs page, with progress pills and a typewriter.
- `public/2chairs.js` is the newer Two Chairs page, with suggestion cards.
- `public/1to1.js` is the one-to-one "therapist room", with a journal, a log view and an export.

This project models all four and proves the properties listed under "## Model".

- **Text** (`text.dfy`) holds the string helpers the sources lean on. Python's
  `str.strip()` and JavaScript's `trim()` are one trim over two whitespace sets.
  JavaScript `length` counts UTF-16 code units. It also defines `join`.
- **Wire** (`wire.dfy`) holds the JSON a page reads back: `Reply`, the three
  shapes a body can have (not JSON, `null`, an object), one fetch attempt, and
  the requests a page makes. It also models JavaScript truthiness, `a || b` and `x ?? ""`.
- **Transport** (`transport.dfy`) holds the two `fetchWithRetry` loops.
  - `Strict` is the one in `script.js` and `1to1.js`: `retries` attempts, any non-2xx is a failure.
  - `Lenient` is the one in `2chairs.js`: `retries + 1` attempts, only 5xx answers and thrown errors are retried.
  - The network is an oracle: the sequence of outcomes the attempts meet.
  - Each loop is a method proved equal to its specification function.
- **ServerText**, **ServerCycle**, **ServerSuggestions** and **ServerPost**
  (`server_*.dfy`) model `server.py`.
  - Keyword relevance (`_kw`, `is_connected_to_summary`).
  - The interleaved prompt and `_truncate`.
  - The cycle slicer `get_current_cycle`.
  - The suggestion sanitiser.
  - `post_message` and `create_session`, over an in-memory database: messages
    and alerts are append-only logs, sessions and users are maps.
  - The `Database` class performs the handlers step by step. Its methods are
    proved equal to the functions `Post`, `CycleClosed` and `SessionCreated`,
    and the lemmas are stated about those functions.
  - The foreign services are fields of a `Services` record: the regular
    expressions, moderation, and the reply, suggestion and summary calls. The
    suggestion oracle is given the three texts `SuggestionRequest` builds: the
    context truncated to 1600 characters and the last Self and Monster
    entries. The reply oracle is given the `PromptParts` (the two summaries and
    the cycle's entries) that `ComposedPrompt` renders into the prompt: the
    summaries that pass the keyword test, then the Two Chairs block.
- **LegacyChairs**, **TwoChairs** and **OneToOne** (`legacy_chairs.dfy`,
  `two_chairs.dfy`, `one_to_one.dfy`) model the pages.
  - Each page's module-level or closure state is a `Client` class.
  - `Snapshot()` is that state as a value.
  - Each send handler is proved equal to a pure function `Send`, which takes
    the oracle of the session request and the oracle of the message request.
    The properties are lemmas about `Send`.
  - The quirks are kept, not the intended design:
    - In `script.js` the `finally` block re-enables the composer after a
      crisis has disabled it (`LegacyChairs.CrisisKeepsTurn`).
    - `2chairs.js` never sets `inFlight`, so its guard never fires, and it has no length limit.
    - `2chairs.js` treats a 4xx JSON answer as a completed cycle with an empty
      Lumen reply (`TwoChairs.ClientErrorCompletes`).

Where the server and the pages disagree, each is modelled as written. For
example, the server flags a crisis with `crisis` and `locked`. `script.js` and
`2chairs.js` act on `crisis` alone, and `1to1.js` requires both.

## Model

| member | source | states |
|---|---|---|
| Text.TrimStartSpec | server.py:452 | stripping the front leaves a suffix that starts with a non-space, and everything dropped was whitespace |
| Text.TrimEndSpec | server.py:452 | stripping the end leaves a prefix that ends with a non-space, and everything dropped was whitespace |
| Text.TrimSpec | script.js:461 | `trim()` yields an infix with no space at either end, and it is empty exactly when the input is all whitespace |
| Text.TrimIdempotent | server.py:580 | stripping twice is stripping once (the summary is stripped after `parse_output_text` already stripped it) |
| Text.Utf16Length | script.js:464 | JavaScript `length` is between the code-point count and twice that |
| Text.JoinSnoc | public/1to1.js:197 | joining one more part appends the separator and the part |
| Text.JoinEndsWith | server.py:546 | the last part ends the joined text, and is all of it when it is the only part |
| Text.Map | server.py:526 | a list comprehension: one result per element, in order (the Self labels, the prompt bullets and the context pairs) |
| Transport.Strict | script.js:397-411 | no attempt at all when `retries <= 0`; otherwise 1..retries attempts, every earlier one not ok, waits `RETRY_DELAY*(i+1)`, resolved only with the first 2xx answer, otherwise rejected with the last attempt's error |
| Transport.Lenient | public/2chairs.js:59-77 | 1..retries+1 attempts, every earlier one a 5xx or a throw, resolved with the answer that stopped the loop; a resolved 5xx means all attempts were used; rejected only when the final attempt throws |
| Transport.FetchStrict | script.js:397-411 | the counted loop returns exactly `Strict(net, retries)` |
| Transport.FetchLenient | public/2chairs.js:59-77 | the loop with `continue`, return and throw returns exactly `Lenient(net, retries)` |
| ServerText.LowerChar | server.py:184 | ASCII capitals map to their lowercase; only A-Z, KELVIN SIGN and capital dotted I change into something that starts differently |
| ServerText.LowerIdempotent | server.py:184 | lower-casing twice is lower-casing once |
| ServerText.RunLength | server.py:184 | the leading run of `[a-z0-9]` characters is maximal |
| ServerText.Tokens | server.py:184 | `re.findall(r"[a-z0-9]+")`: every token is a non-empty run of `[a-z0-9]` |
| ServerText.Keywords | server.py:181-184 | every keyword has at least 3 characters, all in `[a-z0-9]`, and is not a stop word |
| ServerText.KeywordsIgnoreCase | server.py:184 | the keywords of a lower-cased text are the keywords of the text |
| ServerText.TokensSound | server.py:184 | every token is a maximal run of `[a-z0-9]` characters of the text |
| ServerText.TokensComplete | server.py:184 | every maximal run of `[a-z0-9]` characters of the text is a token |
| ServerText.TokensAreRuns | server.py:184 | `re.findall(r"[a-z0-9]+")` returns exactly the maximal `[a-z0-9]` runs |
| ServerText.KeywordsAreRuns | server.py:181-184 | a word is a keyword exactly when it is a maximal `[a-z0-9]` run of the lower-cased text, at least 3 characters long and not a stop word |
| ServerText.ConnectedIff | server.py:186-189 | false for an empty summary; otherwise true exactly when the keyword sets share at least `min_overlap` words; false when either side has fewer keywords; monotone in `min_overlap` |
| ServerText.ConnectedSymmetric | server.py:186-189 | for non-empty texts, relevance does not depend on which text is the summary |
| ServerText.PyPrefix | server.py:269 | Python `s[:k]`: a prefix of length `k` clipped to `len(s)`; with negative `k`, `len(s)+k` clipped at 0 |
| ServerText.Truncate | server.py:267-269 | `s` unchanged when `len(s) <= limit`; otherwise the first `limit-1` characters and "…", so no longer than `limit` for `limit >= 1` |
| ServerText.NatToStringRoundTrip | server.py:213 | the decimal entry numbers of the prompt read back as the number |
| ServerText.LinesShape | server.py:210-215 | the prompt lines number `len(selfs)+len(monsters)`; for each `i` below the shorter list, `SELF i+1` comes right before `MONSTER i+1`; the rest of the longer list follows in order |
| ServerText.BuildTwoChairsPrompt | server.py:209-228 | the prompt starts with the exercise heading and ends with the Lumen instructions |
| ServerText.SuggestionContext | server.py:282-288 | the compact context is at most 1600 characters and is the `" \| "`-joined pairs when they fit |
| ServerCycle.RowsOf | server.py:193-198 | the selected rows all belong to the session |
| ServerCycle.CurrentCycle | server.py:199-204 | the cycle is the suffix after the last angel row (all rows if there is none); it holds no angel row |
| ServerCycle.TextsBy | server.py:205-206 | no more texts than rows |
| ServerCycle.TextsByAppend | server.py:205-206 | the filter keeps the rows' order: the texts of a concatenation are those of its first part followed by those of its second |
| ServerCycle.TextsByOrder | server.py:205-206 | a text is listed exactly when some row of that role carries it; none for a role that is absent; all when every row has that role |
| ServerCycle.TextsBySplit | server.py:205-206 | in a cycle, the Self and Monster lists together hold every row |
| ServerCycle.CycleAfterAppend | server.py:199-204 | storing an angel row empties the cycle; any other row extends it |
| ServerCycle.CycleStartsAt | server.py:199-204 | a suffix preceded by an angel row and free of them is the cycle |
| ServerCycle.RowsOfOthers | server.py:193-198 | rows of other sessions do not change a session's rows |
| ServerCycle.GetCurrentCycle | server.py:191-207 | the backward scan returns the Self and Monster texts of the current cycle, in order |
| ServerSuggestions.WordCount | server.py:331 | no more words than characters (equal to `len(s.split())` by `WordCountSplit`) |
| ServerSuggestions.NonSpaceRun | server.py:331 | the leading run of non-whitespace characters is maximal |
| ServerSuggestions.Words | server.py:331 | `s.split()`: every word is non-empty and holds no whitespace |
| ServerSuggestions.WordCountConcat | server.py:331 | word counts add up across a cut at whitespace |
| ServerSuggestions.WordCountRun | server.py:331 | a non-empty run without whitespace is one word |
| ServerSuggestions.WordCountSplit | server.py:331 | the word count is the number of words `split()` returns |
| ServerSuggestions.Keep | server.py:327-333 | an item gives at most one clean line |
| ServerSuggestions.Accepted | server.py:326-333 | no more clean lines than items |
| ServerSuggestions.AcceptedShape | server.py:326-333 | every accepted line is stripped, starts with "i " in any case and has 6 to 14 words |
| ServerSuggestions.AcceptedKeeps | server.py:326-333 | every string item that is acceptable once stripped is kept, stripped |
| ServerSuggestions.AcceptedAppend | server.py:326-333 | the filter keeps order: filtering a concatenation concatenates the filtered parts |
| ServerSuggestions.AcceptedFrom | server.py:326-333 | every accepted line is the stripped text of some string item |
| ServerSuggestions.Padded | server.py:335-342 | fewer than 4 lines are topped up with fallback lines to exactly 4, the clean ones first; 4 or more are kept |
| ServerSuggestions.PaddedFrom | server.py:342 | every padded line is a clean line or a fallback line |
| ServerSuggestions.Dedup | server.py:344-346 | de-duplication never adds lines |
| ServerSuggestions.FirstIndex | server.py:346 | the position of a line's first occurrence, or the length when it is absent |
| ServerSuggestions.FirstIndexSnoc | server.py:346 | appending does not move the first occurrence of a line already present |
| ServerSuggestions.DedupSpec | server.py:344-346 | the de-duplicated list has no repeats and holds exactly the lines of its input |
| ServerSuggestions.DedupOrder | server.py:344-346 | de-duplication lists lines in the order of their first occurrences |
| ServerSuggestions.DedupKeepsFirst | server.py:344-346 | de-duplication keeps the first line first |
| ServerSuggestions.FallbackDistinct | server.py:336-341 | the four fallback lines are distinct |
| ServerSuggestions.SanitizeWith | server.py:324-354 | at most four lines |
| ServerSuggestions.Sanitize | server.py:271-354 | at most four lines |
| ServerSuggestions.SanitizeWithSpec | server.py:324-354 | for any distinct four-line fallback: 1 to 4 distinct lines, each an accepted line of this answer or a fallback line (so clean or a fallback); exactly the fallback when the answer is unusable or nothing passes; only accepted lines when four or more pass; the first accepted line first |
| ServerSuggestions.SanitizeSpec | server.py:324-354 | the same for the source's own four fallback lines |
| ServerSuggestions.RepeatedLineNotPadded | server.py:335-347 | padding happens before de-duplication, so four copies of one good line give one suggestion, not four |
| ServerSuggestions.FilterSuggestions | server.py:326-333 | the filtering loop builds exactly `Accepted(items)` |
| ServerSuggestions.DedupLines | server.py:344-346 | the `uniq` loop builds exactly `Dedup(clean)` |
| ServerSuggestions.CleanSuggestions | server.py:324-354 | parsing, filtering, padding, de-duplicating and capping give exactly `Sanitize(reply)` |
| ServerPost.CycleInAppend | server.py:199-206 | a stored row extends its session's cycle lists by role; an angel row empties them; other sessions are unaffected |
| ServerPost.CycleInIs | server.py:191-207 | the row-at-a-time cycle equals the texts of the slice after the last angel row |
| ServerPost.CycleSize | server.py:506-507 | `total` is the number of rows in the current cycle |
| ServerPost.SuggestionRequest | server.py:282-291 | the suggestion call is given a context of at most 1600 characters and the last Self and Monster entries, or "" when there are none |
| ServerPost.ParseOutputText | server.py:230-241 | the stripped `output_text` when it is non-empty, else the stripped first text block, else "I'm here with you."; the result is always stripped |
| ServerPost.ContextBlock | server.py:534-544 | a summary block is included exactly when the summary is non-empty and shares at least MIN_OVERLAP (2) keywords with the cycle's text, and then it is the heading plus the summary |
| ServerPost.Compose | server.py:539-546 | `"\n\n".join(parts)`: the Two Chairs block always ends the prompt, and is all of it when no summary block is included |
| ServerPost.ComposedPrompt | server.py:529-546 | the prompt of a cycle ends with its Two Chairs block; with `ContextBlock` and `Compose`, it is only that block when neither summary shares two keywords with the cycle |
| ServerPost.UpdateSummary | server.py:560-583 | a failed summary call, or one whose parsed text is empty, changes nothing; otherwise a known session's summary becomes that parsed, stripped text, and nothing else changes |
| ServerPost.CycleClosed | server.py:522-604 | a full cycle answers HTTP 500 exactly when the reply call raises, and otherwise with the text `parse_output_text` reads from Lumen's reply |
| ServerPost.Step | server.py:505-519 | awaitMore exactly when the cycle holds fewer than six entries |
| ServerPost.Post | server.py:446-604 | a 400 exactly when the session id or the text is empty; a 400 or a locked session changes nothing |
| ServerPost.StepAwaits | server.py:510-519 | below six entries: awaitMore with the counts and `need`, suggestions only after an evening Monster entry, no database change |
| ServerPost.PostRejectsIncomplete | server.py:447-448 | an empty session id or text is a 400 and changes nothing |
| ServerPost.CrisisLockIsFinal | server.py:455-463 | a locked session answers crisis+locked and stores nothing |
| ServerPost.LocalCrisisLocks | server.py:466-477 | a crisis keyword stores the message, records a keyword alert and locks a known session; the answer says no trusted contact was notified |
| ServerPost.ModerationLocks | server.py:479-498 | a self-harm flag stores the message, records a moderation alert and locks a known session (an unknown one adds no session), so the session is never left active; no trusted contact was notified |
| ServerPost.AwaitMoreRule | server.py:503-519 | awaitMore exactly when the cycle, including the stored message, has fewer than 6 entries; then `need = 6 - total` is 1..5, only the message was stored, and suggestions come exactly for a Monster post with equal non-zero counts |
| ServerPost.AttachedSuggestions | server.py:516-518 | attached suggestions are 1 to 4 distinct lines, each clean or a fallback |
| ServerPost.CompletionClosesCycle | server.py:549-558 | a completed post stores the message, then Lumen's reply, which leaves an empty cycle; no session is added, dropped or unlocked |
| ServerPost.SafetyPopupRule | server.py:586-596 | the popup is shown exactly when the cycle had three Self entries, all negative, and then a cycle-negative alert is recorded; otherwise no alert |
| ServerPost.LockSessionExtends | server.py:466-469 | a crisis lock appends one row of the session and keeps every other session |
| ServerPost.WithMessageExtends | server.py:375-380 | `insert_message` appends one row |
| ServerPost.CycleClosedExtends | server.py:549-596 | closing a cycle appends at most Lumen's row, keeps every other session and every status, and of the session's own record changes only its summary |
| ServerPost.StepExtends | server.py:506-604 | after the message is stored, the rest of the handler appends at most one row |
| ServerPost.PostAppendsOnly | server.py:446-604 | a post appends at most two rows, all of its session; alerts are only appended; the other sessions and the users are unchanged; no crisis status is lifted |
| ServerPost.CycleInOthers | server.py:193-198 | rows of other sessions do not change a session's cycle |
| ServerPost.PostKeepsCyclesBounded | server.py:503-558 | every successful post keeps each active session's cycle below six entries |
| ServerPost.SixthEntryCloses | server.py:507-558 | when an ordinary post is the sixth entry of the cycle, it completes it (or the reply call fails) |
| ServerPost.FullCycleReply | server.py:505-558 | an ordinary post that fills the cycle answers HTTP 500 exactly when the reply call raises, and otherwise completes with the text `parse_output_text` reads from that reply |
| ServerPost.SessionCreated | server.py:430-434 | the new session is active with an empty summary and the given mode, "two-chairs" by default; a given user id is reused, otherwise a user is inserted; nothing else changes |
| ServerPost.CreateKeepsCyclesBounded | server.py:430-434 | a new session keeps the cycle invariant |
| ServerPost.Database.constructor | server.py:43-81 | the tables start empty |
| ServerPost.Database.InsertMessage | server.py:375-380 | the row is appended to the messages |
| ServerPost.Database.InsertAlert | server.py:382-387 | the alert is appended |
| ServerPost.Database.SetSessionStatus | server.py:416-418 | the status of a known session is updated; an unknown id changes nothing |
| ServerPost.Database.SetSqlSummary | server.py:394-396 | the summary of a known session is updated; an unknown id changes nothing |
| ServerPost.Database.CreateSession | server.py:430-434 | the tables become `SessionCreated`'s, and the ids returned are its |
| ServerPost.Database.RefreshSummary | server.py:560-584 | a non-empty stripped summary replaces the session's; a failed call or an empty one changes nothing |
| ServerPost.Database.CloseCycle | server.py:522-604 | the tables and the response are `CycleClosed`'s |
| ServerPost.Database.PostMessage | server.py:446-604 | the tables and the response are `Post`'s |
| ServerPost.Database.Advance | server.py:505-519 | reading the cycle and answering gives `Progress`'s tables and response |
| ServerPost.Database.Proceed | server.py:507-604 | the tables and the response are `Step`'s |
| LegacyChairs.Pills | script.js:226-231 | there are six pills |
| LegacyChairs.PillsShowSteps | script.js:226-231 | the number of lit pills is `steps` clamped to 0..6, and the lit pills come first |
| LegacyChairs.DynamicDelay | script.js:330 | the per-character delay is between 4 and 12 ms |
| LegacyChairs.DynamicDelayShrinks | script.js:330 | a longer text never types slower |
| LegacyChairs.TypewriterDelay | script.js:329-331 | the delay is the requested speed when it is set and below the dynamic delay, otherwise the dynamic delay |
| LegacyChairs.Ensured | script.js:413-434 | no request when a session id is held; otherwise 1 to 3 session requests, and it returns exactly when the last attempt is an ok answer with a JSON object, whose `sessionId` becomes the id; a failure keeps the id |
| LegacyChairs.Deliver | script.js:483-553 | 1 to 3 message requests, all the same message with the page's id and role; the id is kept |
| LegacyChairs.Send | script.js:459-585 | a send makes at most 6 requests |
| LegacyChairs.IgnoredSend | script.js:460-462 | a send while in flight or with blank text does nothing and makes no request |
| LegacyChairs.TooLongSendsNothing | script.js:464-467 | text over 2000 UTF-16 units only shows an error: no request, no state change |
| LegacyChairs.SendReenables | script.js:571-572 | every send past the guards ends with `inFlight` false and the composer enabled |
| LegacyChairs.CrisisKeepsTurn | script.js:492-502 | a send is a crisis exactly when its message goes out and the answer is a JSON object with `crisis`; a crisis keeps `role` and `steps` and opens the SOS sheet, yet the composer ends enabled |
| LegacyChairs.AwaitMoreFlips | script.js:504-509 | a send awaits more exactly when the answer is a JSON object with `awaitMore` and no `crisis`; it adds exactly one step and flips the role |
| LegacyChairs.CompletionResets | script.js:518-549 | a send completes the cycle exactly when the answer is a JSON object with neither `crisis` nor `awaitMore`; Lumen's text is `(j.angel \|\| j.lumen \|\| "").trim()` and the turn ends as SELF with no steps |
| LegacyChairs.FailureKeepsTurn | script.js:554-570 | the session start fails exactly when `ensureSession` throws, the send fails exactly when the message fetch throws or its answer is not a JSON object; both keep role, steps, pills and the SOS sheet |
| LegacyChairs.MessageNeedsSession | script.js:482-487 | any answered send ends with a message request carrying the role, the trimmed text and the session id the page holds afterwards, which is the one `ensureSession` gave |
| LegacyChairs.SendKeepsPills | script.js:504-505 | the pills always show `steps` |
| LegacyChairs.RestartResets | script.js:436-456 | a restart asks for a new session (1 to 3 requests) and starts over as SELF with no steps, enabled, with the SOS sheet closed |
| LegacyChairs.Client.constructor | script.js:616-631 | the page starts fresh and tries to get a session |
| LegacyChairs.Client.SetDisabled | script.js:240-244 | `inFlight` and the composer's disabled flag both take the given value |
| LegacyChairs.Client.PaintPills | script.js:226-231 | the pills are repainted from `steps`, nothing else changes |
| LegacyChairs.Client.EnsureSession | script.js:413-434 | the requests made, the success flag and the new session id are `Ensured`'s |
| LegacyChairs.Client.StartNew | script.js:436-456 | the new state and the requests are `Restart`'s |
| LegacyChairs.Client.HandleSend | script.js:459-585 | the new state, requests and outcome are `Send`'s |
| LegacyChairs.Client.Exchange | script.js:483-553 | the message exchange after the session gives `Deliver`'s state, requests and outcome |
| TwoChairs.EscapeChar | public/2chairs.js:102-108 | an escaped character starts with `&` exactly when it is `<`, `>` or `"`, else with itself |
| TwoChairs.EscapedAppend | public/2chairs.js:103-107 | the chained replaces distribute over concatenation |
| TwoChairs.EscapeHtmlPerChar | public/2chairs.js:102-108 | `escapeHtml` escapes character by character (`&` first, so no entity is escaped twice) |
| TwoChairs.EscapeEachSafe | public/2chairs.js:102-108 | the output contains none of `<`, `>`, `"` |
| TwoChairs.EscapeHtmlSafe | public/2chairs.js:102-108 | null or undefined give ""; the output contains none of `<`, `>`, `"` |
| TwoChairs.EscapeHtmlRoundTrip | public/2chairs.js:102-108 | decoding the four entities gives the input back, so no information is lost |
| TwoChairs.ShowSuggestions | public/2chairs.js:116-124 | the cards show the first `min(n, 4)` suggestions, each escaped |
| TwoChairs.Loaded | public/2chairs.js:11-14 | the page starts as SELF with no steps, not in flight, holding a session id exactly when one was stored |
| TwoChairs.Started | public/2chairs.js:80-91 | 1 to 4 session requests; it returns exactly when the last attempt is an answer, of any status, with a JSON object, whose `sessionId` becomes the id; a failure keeps the id |
| TwoChairs.Ensured | public/2chairs.js:94-97 | no request when a session id is held; otherwise exactly `startSession`'s result |
| TwoChairs.CardsFor | public/2chairs.js:374-382 | suggestion cards exactly on SELF's turn with a non-empty list, then 1 to 4 cards, each the escaped suggestion at its position; the guide on MONSTER's turn; the default cards on SELF's turn otherwise |
| TwoChairs.Deliver | public/2chairs.js:349-415 | 1 to 4 message requests, all the same message with the page's id and role; id, `inFlight` and the composer flag are kept |
| TwoChairs.Send | public/2chairs.js:333-430 | a send makes at most 8 requests |
| TwoChairs.InFlightNeverSet | public/2chairs.js:333-336 | `inFlight` stays false, and a send is ignored exactly when the text is blank |
| TwoChairs.NoLengthLimit | public/2chairs.js:335-353 | any non-blank text, however long, is sent trimmed and in full once a session exists |
| TwoChairs.CrisisKeepsTurn | public/2chairs.js:356-363 | a send is a crisis exactly when its message goes out and the answer is a JSON object with `crisis`; it keeps role, steps and cards, opens the SOS sheet and leaves the composer enabled |
| TwoChairs.AwaitMoreCards | public/2chairs.js:365-386 | a send awaits more exactly when the answer is a JSON object with `awaitMore` and no `crisis`; it adds one step and flips the role; MONSTER gets the guide; SELF gets the answer's suggestions (1 to 4 cards) when it carries a non-empty list, the default cards otherwise |
| TwoChairs.CompletionResets | public/2chairs.js:387-415 | a send completes the cycle exactly when the answer is a JSON object with neither `crisis` nor `awaitMore`; Lumen's text is `(j.angel \|\| j.lumen \|\| "").trim()`, and the turn ends as SELF with no steps and the default cards |
| TwoChairs.FailureKeepsTurn | public/2chairs.js:416-419 | the session start fails exactly when `ensureSession` throws, the send fails exactly when the message fetch rejects or its answer is not a JSON object; both keep role, steps, cards and the SOS sheet |
| TwoChairs.ClientErrorCompletes | public/2chairs.js:62-68 | a 4xx JSON answer is not retried and, without `crisis` or `awaitMore`, closes the cycle with an empty Lumen reply |
| TwoChairs.Client.constructor | public/2chairs.js:453-455 | the state is `Loaded(stored)` (the declarations) with the session id that the load-time `ensureSession` leaves |
| TwoChairs.Client.SetDisabled | public/2chairs.js:314-318 | only the composer's disabled flag changes; `inFlight` is untouched |
| TwoChairs.Client.StartSession | public/2chairs.js:80-91 | the requests made, the success flag and the new id are `Started`'s |
| TwoChairs.Client.EnsureSession | public/2chairs.js:94-97 | the requests made, the success flag and the new id are `Ensured`'s |
| TwoChairs.Client.HandleSend | public/2chairs.js:333-430 | the new state, requests and outcome are `Send`'s |
| TwoChairs.Client.Exchange | public/2chairs.js:349-415 | the message exchange after the session gives `Deliver`'s state, requests and outcome |
| OneToOne.LogRows | public/1to1.js:171-173 | no more rows than logged messages |
| OneToOne.LogRowsAppend | public/1to1.js:171-173 | each message is mapped on its own |
| OneToOne.LogRowsKeepsChat | public/1to1.js:171-173 | `self` becomes a self row and `angel` a lumen row, each with its text or "" |
| OneToOne.LogRowsDropsOthers | public/1to1.js:172-173 | every other role is dropped |
| OneToOne.ExportLines | public/1to1.js:196 | one line per entry, prefixed "You: " or "Lumen: " |
| OneToOne.ExportGrows | public/1to1.js:196-197 | entries are separated by a blank line and the text ends with a newline |
| OneToOne.ExportText | public/1to1.js:196 | the transcript ends with a newline, and is just that for an empty history |
| OneToOne.ReplyText | public/1to1.js:136 | the reply is never empty: `lumen`, else `angel`, else "I’m here." |
| OneToOne.Created | public/1to1.js:113-116 | 1 to 3 session requests; it returns exactly when the last attempt is an ok answer with a JSON object, whose `sessionId` becomes the id; a failure keeps the id |
| OneToOne.Ensured | public/1to1.js:130 | no request when a session id is held; otherwise exactly `createSession`'s result |
| OneToOne.Deliver | public/1to1.js:131-139 | 1 to 3 message requests, all the same self message with the page's id; the id is kept and the history only grows |
| OneToOne.Send | public/1to1.js:124-141 | a send makes at most 6 requests |
| OneToOne.IgnoredSend | public/1to1.js:125 | in flight, blank or over 2000 UTF-16 units: nothing happens and nothing is sent |
| OneToOne.HistoryAppendOnly | public/1to1.js:124-141 | `history` only grows; an accepted text is a self entry before any request and stays on failure; only a reply adds a second, non-empty Lumen entry |
| OneToOne.CrisisNeedsLock | public/1to1.js:132-134 | a send is acted on as a crisis exactly when its message goes out and the answer is a JSON object with both `crisis` and `locked`; it adds no Lumen entry and disables the input |
| OneToOne.ReplyOrFailure | public/1to1.js:130-140 | any other answer `r.json()` can read, `null` included, is shown as Lumen's reply `lumen \|\| angel \|\| "I’m here."`; an uncreatable session, a fetch that keeps failing or a non-JSON body is a failure |
| OneToOne.SendSettles | public/1to1.js:134-140 | every send past the guards ends with `inFlight` false |
| OneToOne.Synced | public/1to1.js:164-177 | a sync makes at most 6 requests |
| OneToOne.SyncReplacesView | public/1to1.js:164-177 | when no session is held one is created first; if that fails nothing changes; otherwise the log of the session is fetched last and the view becomes `LogRows` of its messages (none when absent), or the error notice when it cannot be read; `history` and `inFlight` are never touched |
| OneToOne.Restarted | public/1to1.js:212-214 | no session, an empty history, the input enabled |
| OneToOne.Client.constructor | public/1to1.js:49-52 | no session, an empty history, not in flight |
| OneToOne.Client.CreateSession | public/1to1.js:113-116 | the requests made, the success flag and the new id are `Created`'s |
| OneToOne.Client.HandleSendCharacter | public/1to1.js:124-141 | the new state, requests and outcome are `Send`'s |
| OneToOne.Client.Exchange | public/1to1.js:131-139 | the message exchange after the session gives `Deliver`'s state, requests and outcome |
| OneToOne.Client.SyncChatLog | public/1to1.js:164-177 | the new state and the requests are `Synced`'s; the mapping loop builds `LogRows` |
| OneToOne.Client.StartNew | public/1to1.js:212-215 | the new state is `Restarted`'s: the history is truncated in place |
| OneToOne.Client.Export | public/1to1.js:195-197 | the loop builds exactly `ExportText(history)` |

## Left out

- I/O is not modelled: HTTP, JSON parsing, SQLite, `init_db`'s schema migration, CORS and the static files. The database is in memory, and a page sees one abstract outcome per fetch attempt.
- The OpenAI calls are the total functions of `Services`, as are the crisis and negativity regular expressions (`CRISIS_PATTERNS`, `NEGATIVE_HINTS`). The model-based tone classifier is also left out, because `USE_MODEL_TONE` is false.
- The full prompt texts (the system prompt, the suggestion prompt and the summary prompt) are not reproduced.
- `uuid4` is not modelled: the fresh ids are parameters of `create_session`.
- The role check of `post_message` (server.py:449-450) is not a separate path, because `Role` admits only Self and Monster.
- `create_user`, `insert_user`, `get_messages`, the user-summary setter and `/api/health` are not modelled. Each is a single insert or select with no decision in it. `get_messages` appears only as the log oracle of `OneToOne.Synced`.
- DOM, CSS and ARIA updates, character animation, timers, layout (`updateStackHeight`), focus handling, the typing row, the reflection modal, the journal rendering, `setMode` and the clipboard are not modelled. Delays are kept as values; the waiting is not.
- The `2chairs.js` typewriter interval is left out because it is a floating-point division.
- The `1to1.js` typewriter (line 93) uses the same formula as `LegacyChairs.TypewriterDelay` and has no member of its own.
- `localStorage` is not modelled: the stored id is the `TwoChairs.Client` constructor's parameter, and the write in `startSession` is not kept. The requests of the load-time `ensureSession` are not returned, since a constructor has no result; only its effect on the id is kept.
- The page reload after the SOS reset, navigation, and the Blob download of the export are left out; the export's text is modelled.
- `lastFull` in `1to1.js` is not modelled.
- `2chairs.js`'s own `paintPills`, the pills and the typing row of the newer page are left out.
- Interleaving is not modelled. Two concurrent handlers are represented only by the state in which a call starts: a send that starts while another is in flight is `Ignored`.
- Unpaired UTF-16 surrogates are not modelled, because a Dafny `string` cannot hold them. `Text.Utf16Length` counts two units for characters above U+FFFF and one otherwise, as JavaScript does.
- `ServerText.LowerChar`: only the characters whose lower-case form can contain `[a-z0-9]` are lowered, which is all `_kw` needs. This covers A-Z, U+212A KELVIN SIGN and U+0130. It is not the whole of Python's `str.lower`.
- WordCount: its own contract is only the bound `n <= |s|`; that it equals `len(s.split())` is stated separately by `ServerSuggestions.WordCountSplit`, against the `Words` model of `split()`.
- Accepted: its own contract is only the bound on the number of lines; their content and order are stated by `AcceptedFrom` (each line is a stripped string item), `AcceptedKeeps` (every acceptable item is kept), `AcceptedShape` and `AcceptedAppend` (order).
- DedupSpec: states no repeats and the same lines only; the first-occurrence order that decides which lines `[:4]` keeps is stated by `ServerSuggestions.DedupOrder`.
- Deliver and Send (in `LegacyChairs`, `TwoChairs` and `OneToOne`): their own contracts state the requests they make and the fields they keep; which answer leads to which outcome is stated by each page's transition lemmas (`CrisisKeepsTurn`, `AwaitMoreFlips` or `AwaitMoreCards`, `CompletionResets`, `FailureKeepsTurn`; in `OneToOne`, `CrisisNeedsLock` and `ReplyOrFailure`).
