# ClassPoint-style live quiz: a verified model

The system is a live classroom quiz. A teacher's add-in creates a session for a
quiz and gets a six-digit PIN. Students join that PIN from a web client. The
teacher pushes questions over a WebSocket, and students answer within a
countdown. A Django Channels consumer scores each answer and broadcasts a
scoreboard to every socket of the session. Both clients rank that scoreboard.

This project models the sequential logic of that system in Dafny and proves
what each piece promises. It covers the student client, the teacher add-in and
the backend `quizzes` app. Network, timers, randomness, JSON parsing and the
database are explicit inputs or values.

Modules follow the source files:

- `QuizPage` (`student-client/src/pages/QuizPage.tsx`). The student's quiz page
  is a state machine over inbound messages, one-second ticks and answer
  submissions, with an outbox of sent messages. Pure transitions are proved to
  keep an invariant. The class `QuizPageComponent` runs them in place.
- `JoinPage`: join-form validation, the request it sends and the priority of
  its error messages.
- `StudentLeaderboard` and `TeacherLeaderboard`: rank icons and styles, the
  compact top-5 view with its "+N more" line, and the statistics.
- `StudentWs`, `StudentQuizSocket` and `TeacherWs`: the three socket wrappers
  as classes. Each has a ready-state flag, handler slots or lists, a send guarded
  by OPEN, and a log of handler invocations. Frames that fail to parse are
  dropped.
- `SessionPanel` (`addin-teacher/src/components/SessionPanel.tsx`). The host
  panel covers the countdown, the push-question and end-session guards, session
  creation, scoreboard ranking and the new-question form. The pure model is
  `Host`; the class is `SessionPanelComponent`.
- `Consumer` (`backend/quizzes/consumers.py`): the `receive` dispatcher, answer
  saving and scoring, scoreboard building, question payloads and group events.
  The class `SessionConsumer` models one connection.
- `Models`, `Serializers`, `Permissions`, `Routing` and `Views`: the rest of
  the backend app.
- Shared vocabulary: `Wrappers` (Option and Result), `Text` (decimal digits,
  whitespace trimming, JavaScript `parseInt`/`Number`, Python `int()`), and
  `Sorting` (a stable insertion sort, standing in for `Array.prototype.sort`).
  `Ranking` turns a scoreboard into ranked entries and holds the integer
  `Math.round` of a mean. `Channel` holds the socket vocabulary and the
  handler-call log. `Countdown` is the shared tick rule.
- `Protocol` joins both ends. It encodes the messages each client sends,
  decodes what each client reads from the server's replies, and proves the
  round trips and end-to-end exchanges.

A few places where the code differs from the design it describes; the model
follows the code:

- Ranking sorts by score only, so ties keep the order in which the server sent
  them. The server itself breaks ties by join time.
- A redelivered `question` message resets the question and restarts the
  countdown.
- The host's message handler captures the question list as it was when the
  session was created, so its question count can be stale.
- The host's `host_end_session` message has no handler on the server, which
  answers it with `unknown_action`.
- WebSocket routes match the whole path, `ws/session/<pin>/` or
  `wss/session/<pin>/`, where the PIN is a run of word characters.
- `QuestionViewSet.perform_create` takes the user's newest quiz, because quizzes
  are ordered by `-created_at`.
- `SessionCreateSerializer.create` discards the PIN generated by the view, and
  `Session.save` draws its own.

## Model

| member | source | states |
|---|---|---|
| StudentWs.WSClient.constructor | student-client/src/utils/ws.ts:3-15 | a new client is CONNECTING, has no callbacks, has sent nothing and has called nothing |
| StudentWs.WSClient.OnMessage | student-client/src/utils/ws.ts:48-51 | registering a message callback replaces the single slot and changes nothing else |
| StudentWs.WSClient.OnOpen | student-client/src/utils/ws.ts:53-56 | registering an open callback replaces the single slot |
| StudentWs.WSClient.OnClose | student-client/src/utils/ws.ts:58-61 | registering a close callback replaces the single slot |
| StudentWs.WSClient.DeliverOpen | student-client/src/utils/ws.ts:18-24 | the socket becomes OPEN and only the registered open callback, if any, is called |
| StudentWs.WSClient.DeliverMessage | student-client/src/utils/ws.ts:26-35 | a parsed frame reaches the message callback once; an unparsable frame, or no callback, calls nothing |
| StudentWs.WSClient.DeliverClose | student-client/src/utils/ws.ts:37-40 | the socket becomes CLOSED and the close callback, if any, is called |
| StudentWs.WSClient.DeliverError | student-client/src/utils/ws.ts:42-44 | a socket error is only logged: no callback is called and the client is left exactly as it was |
| StudentWs.WSClient.Send | student-client/src/utils/ws.ts:63-69 | a message is transmitted exactly when the socket is OPEN; otherwise nothing is sent |
| StudentWs.WSClient.Close | student-client/src/utils/ws.ts:71-73 | close moves a connecting or open socket to CLOSING and leaves a closing or closed one as it is |
| StudentQuizSocket.QuizSocket.constructor | student-client/src/utils/QuizSocket.ts:2-11 | a new socket is CONNECTING with empty handler lists |
| StudentQuizSocket.QuizSocket.OnMessage | student-client/src/utils/QuizSocket.ts:37-39 | a message handler is appended to its list |
| StudentQuizSocket.QuizSocket.OnOpen | student-client/src/utils/QuizSocket.ts:41-43 | an open handler is appended to its list |
| StudentQuizSocket.QuizSocket.OnClose | student-client/src/utils/QuizSocket.ts:45-47 | a close handler is appended to its list |
| StudentQuizSocket.QuizSocket.OnError | student-client/src/utils/QuizSocket.ts:49-51 | an error handler is appended to its list |
| StudentQuizSocket.QuizSocket.Notify | student-client/src/utils/QuizSocket.ts:14 | every handler of a list is called once, in registration order |
| StudentQuizSocket.QuizSocket.DeliverOpen | student-client/src/utils/QuizSocket.ts:12-15 | the socket becomes OPEN and every open handler is called in order |
| StudentQuizSocket.QuizSocket.DeliverMessage | student-client/src/utils/QuizSocket.ts:17-24 | a parsed frame fans out to every message handler in order; an unparsable frame calls none |
| StudentQuizSocket.QuizSocket.DeliverClose | student-client/src/utils/QuizSocket.ts:26-29 | the socket becomes CLOSED and every close handler is called |
| StudentQuizSocket.QuizSocket.DeliverError | student-client/src/utils/QuizSocket.ts:31-34 | every error handler is called and the ready state is unchanged |
| StudentQuizSocket.QuizSocket.Send | student-client/src/utils/QuizSocket.ts:53-59 | a message is transmitted exactly when the socket is OPEN |
| StudentQuizSocket.QuizSocket.Close | student-client/src/utils/QuizSocket.ts:61-63 | close moves a connecting or open socket to CLOSING and leaves a closing or closed one as it is |
| TeacherWs.WSClient.constructor | addin-teacher/src/services/ws.ts:2-10 | a new client is CONNECTING with four empty callback slots |
| TeacherWs.WSClient.OnMessage | addin-teacher/src/services/ws.ts:37-39 | the message slot is replaced |
| TeacherWs.WSClient.OnOpen | addin-teacher/src/services/ws.ts:41-43 | the open slot is replaced |
| TeacherWs.WSClient.OnClose | addin-teacher/src/services/ws.ts:45-47 | the close slot is replaced |
| TeacherWs.WSClient.OnError | addin-teacher/src/services/ws.ts:49-51 | the error slot is replaced |
| TeacherWs.WSClient.DeliverOpen | addin-teacher/src/services/ws.ts:12-15 | the socket becomes OPEN and the open slot, if set, is called |
| TeacherWs.WSClient.DeliverMessage | addin-teacher/src/services/ws.ts:17-24 | a parsed frame reaches the message slot once; an unparsable frame, or an empty slot, calls nothing |
| TeacherWs.WSClient.DeliverClose | addin-teacher/src/services/ws.ts:26-29 | the socket becomes CLOSED and the close slot, if set, is called |
| TeacherWs.WSClient.DeliverError | addin-teacher/src/services/ws.ts:31-34 | the error slot, if set, is called and the ready state is unchanged |
| TeacherWs.WSClient.Send | addin-teacher/src/services/ws.ts:53-59 | a message is transmitted exactly when the socket is OPEN |
| TeacherWs.WSClient.Close | addin-teacher/src/services/ws.ts:61-63 | close moves a connecting or open socket to CLOSING and leaves a closing or closed one as it is |
| Channel.FanOut | student-client/src/utils/QuizSocket.ts:14 | one call per registered handler, in registration order, each with the same event |
| Channel.SlotCall | addin-teacher/src/services/ws.ts:14 | at most one call, made exactly when the slot is set |
| Channel.AfterClose | student-client/src/utils/ws.ts:71-73 | after close() the state is CLOSING or CLOSED, and a closing or closed socket keeps its state |
| Sorting.Sort | student-client/src/pages/QuizPage.tsx:128 | the result is a permutation of the input |
| Sorting.SortSorted | student-client/src/pages/QuizPage.tsx:128 | with a total, transitive comparison the result is ordered |
| Sorting.SortStable | student-client/src/pages/QuizPage.tsx:128 | elements that compare equal keep their relative order |
| Sorting.SortOfSorted | student-client/src/pages/QuizPage.tsx:128 | sorting an already ordered sequence returns it unchanged |
| Ranking.Rank | student-client/src/pages/QuizPage.tsx:127-134 | one entry per row, numbered 1..n in order, scores non-increasing, and a permutation of the rows |
| Ranking.RankKeepsTieOrder | student-client/src/pages/QuizPage.tsx:128 | rows with equal scores appear in the ranking in the order they arrived |
| Ranking.TieKeepsArrivalOrder | student-client/src/pages/QuizPage.tsx:128 | with a tie, the row sent first ranks first, with no id tie-break |
| Ranking.RankOfOrdered | student-client/src/pages/QuizPage.tsx:127-134 | a scoreboard already in non-increasing score order is ranked without reordering |
| Ranking.RoundedMean | student-client/src/components/Leaderboard/Leaderboard.tsx:164 | n(2r-1) ≤ 2·total < n(2r+1): the integer nearest to total/n, with halves rounded up as `Math.round` does |
| Ranking.AverageWithinScores | student-client/src/components/Leaderboard/Leaderboard.tsx:164 | the rounded average lies between the lowest and the highest score |
| Ranking.TopScoreIsHighest | student-client/src/components/Leaderboard/Leaderboard.tsx:162 | the first ranked entry's score is at least every score and is the score of some row; an empty board's top is 0 |
| Ranking.AverageOfEqualScores | addin-teacher/src/components/SessionPanel.tsx:189-191 | when all scores are equal the average is that score |
| Text.Trim | student-client/src/pages/JoinPage.tsx:14 | the result is a contiguous part of the input with no surrounding whitespace, and only whitespace was cut |
| Text.TrimIdempotent | student-client/src/pages/JoinPage.tsx:24-25 | trimming a trimmed string changes nothing |
| Text.TrimOfUnpadded | student-client/src/pages/JoinPage.tsx:14 | a string with no leading or trailing whitespace is its own trim |
| Text.JsParseInt | student-client/src/components/Leaderboard/Leaderboard.tsx:32 | `parseInt` skips leading space and a sign; after "0x" or "0X" its value is that of the longest run of hexadecimal digits, otherwise that of the longest run of decimal digits, signed; NaN exactly when that run is empty |
| Text.JsParseIntReadsLeadingNumber | student-client/src/components/Leaderboard/Leaderboard.tsx:32 | a decimal number followed by text that does not continue it (no digit, no "x" after a lone 0) reads back as that number |
| Text.JsParseIntReadsHex | student-client/src/components/Leaderboard/Leaderboard.tsx:32 | "0x1A" reads as 26, in base 16 |
| Text.JsNumber | student-client/src/pages/QuizPage.tsx:121 | `Number` of a blank or all-whitespace string is 0 |
| Text.PyIntOfString | backend/quizzes/consumers.py:228-229 | Python `int()` refuses blank or all-whitespace text |
| Text.ParsersReadDecimal | student-client/src/components/Leaderboard/Leaderboard.tsx:32 | all three parsers read back the decimal rendering of any natural number |
| Text.ParseIntAndNumberDiffer | student-client/src/pages/QuizPage.tsx:121 | on "12abc" `parseInt` gives 12 where `Number` gives NaN |
| Text.NatToString | backend/quizzes/models.py:99 | the rendering is a non-empty digit string that starts with '0' only for 0 |
| Text.ParseNatToString | backend/quizzes/models.py:99 | reading the rendering back gives the number |
| Text.NatToStringInjective | backend/quizzes/models.py:99 | different numbers render differently |
| Text.NatToStringLength | backend/quizzes/models.py:99 | the rendering has k digits exactly when 10^(k-1) ≤ n < 10^k (n < 10 for k = 1), in both directions |
| Text.NatToStringBounds | backend/quizzes/models.py:99 | every number lies between the powers of ten its rendering's length names |
| Text.ToStringOfSixDigits | backend/quizzes/models.py:99 | every number from 100000 to 999999 renders as six digits |
| Countdown.NextBounds | student-client/src/pages/QuizPage.tsx:39-46 | a tick never goes below zero or up, and lowers every positive count |
| Countdown.RunFrom | addin-teacher/src/components/SessionPanel.tsx:47-55 | k ticks from n leave n-k and keep running for k < n, and leave 0 stopped for k ≥ n |
| Countdown.StoppedStays | addin-teacher/src/components/SessionPanel.tsx:46-56 | a stopped countdown is not changed by ticks |
| Countdown.ExpiresOnTickN | student-client/src/pages/QuizPage.tsx:40-43 | the countdown expires on tick n and not before |
| Countdown.Start | student-client/src/pages/QuizPage.tsx:31 | a countdown starts at the question's own limit when positive and at 30 when it is 0; always at least 1 |
| Countdown.StartRunsForLimit | addin-teacher/src/components/SessionPanel.tsx:229-230 | started for a question, the countdown runs for exactly its limit, 30 ticks for a question without one, and then stops at 0 |
| QuizPage.Mounted | student-client/src/pages/QuizPage.tsx:74-92 | without a stored id or PIN only the status changes, to "You must join first."; with both, an existing socket leaves the page as it is, a failing construction sets only the status "Connection failed", and otherwise the socket is made and captures the stored id as the join id, nothing else changing; nothing is sent |
| QuizPage.Opened | student-client/src/pages/QuizPage.tsx:96-104 | on open exactly one join with the participant id is appended to the outbox and only the status changes besides |
| QuizPage.NewQuestion | student-client/src/pages/QuizPage.tsx:64-72 | the question becomes current, the status becomes "Question received! Choose your answer.", the answer flag and leaderboard are cleared, the timer is armed with its limit (30 when zero), and every other field (score and outbox included) is kept |
| QuizPage.FindParticipant | student-client/src/pages/QuizPage.tsx:121 | the first row whose id loosely equals the stored id, and none exactly when no row matches |
| QuizPage.ScoreUpdated | student-client/src/pages/QuizPage.tsx:117-137 | without a stored id or a board nothing changes; otherwise the leaderboard is the ranking of the board, the score becomes that of the first row whose id loosely equals the stored id, or stays when no row does, and nothing else changes |
| QuizPage.OwnScoreIsFirstMatch | student-client/src/pages/QuizPage.tsx:122-125 | the score shown is that of the first matching row, whatever rows follow |
| QuizPage.ScoreKeptWithoutOwnRow | student-client/src/pages/QuizPage.tsx:122-125 | a board without the student's row keeps the score shown |
| QuizPage.OwnScoreOfStoredId | student-client/src/pages/QuizPage.tsx:120-125 | with the decimal id the join page stored, the score is that of the first row carrying that id |
| QuizPage.Received | student-client/src/pages/QuizPage.tsx:106-160 | a message without a known type changes nothing and no message sends anything; a question starts it (one without a payload clears the question and stops the interval); a score update is `ScoreUpdated`; `end` clears the question and stops the interval; `join_success` and `error` set only the status, the error text included |
| QuizPage.EndStopsThePage | student-client/src/pages/QuizPage.tsx:139-142 | after `end` no question is shown and the interval is stopped, so ticks change nothing |
| QuizPage.Ticked | student-client/src/pages/QuizPage.tsx:38-47 | a stopped timer is unchanged; a running one counts down, and at its last second stops, closes the question and shows "Time's up! Waiting for next question..."; nothing is sent |
| QuizPage.Submitted | student-client/src/pages/QuizPage.tsx:188-208 | without a socket or a stored id, or with the question closed or no time left, nothing changes; otherwise exactly one answer with the stored id and the choice is sent and the question is closed |
| QuizPage.ReceivedKeepsInv | student-client/src/pages/QuizPage.tsx:106-160 | every inbound message keeps the invariant: a question starts its timer with at least one second, and a scoreboard update leaves the timer alone |
| QuizPage.StepKeepsInv | student-client/src/pages/QuizPage.tsx:29-55 | every event keeps the invariant: time left is non-negative, and a running timer has a question, no answer and at least one second left |
| QuizPage.RunKeepsInv | student-client/src/pages/QuizPage.tsx:29-55 | the invariant holds after any sequence of events |
| QuizPage.InitialInv | student-client/src/pages/QuizPage.tsx:18-24 | the initial page satisfies the invariant |
| QuizPage.StepAnswers | student-client/src/pages/QuizPage.tsx:188-208 | an event other than a question message sends at most one answer, only while the question is open, and then closes it |
| QuizPage.AtMostOneAnswerPerQuestion | student-client/src/pages/QuizPage.tsx:188-208 | a run of events with no question message sends at most one answer, and none when the question is already answered |
| QuizPage.SecondSubmitSendsNothing | student-client/src/pages/QuizPage.tsx:190-200 | two submissions send exactly the first answer |
| QuizPage.TicksAfterQuestion | student-client/src/pages/QuizPage.tsx:29-47 | k ticks after a question with limit L leave L-k seconds with the timer running for k < L, and 0 with the timer stopped and the question closed for k ≥ L; nothing is sent |
| QuizPage.TicksFrom | student-client/src/pages/QuizPage.tsx:38-47 | k ticks from a running open question count down to 0 and then stop and close it, keeping the question and the outbox |
| QuizPage.StoppedTicks | student-client/src/pages/QuizPage.tsx:38-47 | ticks on a stopped timer change nothing |
| QuizPage.UntypedMessageIgnored | student-client/src/pages/QuizPage.tsx:157-159 | a message without a type leaves the page unchanged |
| QuizPage.QuizPageComponent.constructor | student-client/src/pages/QuizPage.tsx:18-26 | the component starts in the initial state with its stored identity |
| QuizPage.QuizPageComponent.Mount | student-client/src/pages/QuizPage.tsx:74-92 | mounting is the `Mounted` transition, in place |
| QuizPage.QuizPageComponent.HandleOpen | student-client/src/pages/QuizPage.tsx:96-104 | the open handler is the `Opened` transition |
| QuizPage.QuizPageComponent.HandleMessage | student-client/src/pages/QuizPage.tsx:106-160 | the message handler is the `Received` transition |
| QuizPage.QuizPageComponent.ReceiveQuestion | student-client/src/pages/QuizPage.tsx:111-115 | a message with a question applies `NewQuestion`; one without clears the question and stops the timer |
| QuizPage.QuizPageComponent.ReceiveScoreUpdate | student-client/src/pages/QuizPage.tsx:117-137 | a score update is the `ScoreUpdated` transition, in place |
| QuizPage.QuizPageComponent.Tick | student-client/src/pages/QuizPage.tsx:38-47 | a tick is the `Ticked` transition |
| QuizPage.QuizPageComponent.SubmitAnswer | student-client/src/pages/QuizPage.tsx:188-208 | a submission is the `Submitted` transition |
| QuizPage.QuizPageComponent.HandleClose | student-client/src/pages/QuizPage.tsx:162-165 | a close sets the status to "Disconnected" and nothing else |
| QuizPage.QuizPageComponent.HandleError | student-client/src/pages/QuizPage.tsx:167-170 | an error sets the status to "Connection error" and nothing else |
| SessionPanel.HostTicked | addin-teacher/src/components/SessionPanel.tsx:43-61 | a tick counts an active timer down and disarms it at 0; an inactive timer is unchanged |
| SessionPanel.FindQuestion | addin-teacher/src/components/SessionPanel.tsx:227 | the first question with the selected id, and none exactly when no question has it |
| SessionPanel.Pushed | addin-teacher/src/components/SessionPanel.tsx:220-239 | without a connected client or a selected question the alert is "WebSocket not connected or no question selected"; otherwise one push of the selected id is sent and the timer is armed from the question's `time_limit \|\| 30`, or left as is when the id is not in the list; nothing else changes |
| SessionPanel.Ended | addin-teacher/src/components/SessionPanel.tsx:210-218 | with a connected client exactly one end message is sent and "Session ended!" is alerted, nothing else changes; without one nothing changes |
| SessionPanel.SessionCreated | addin-teacher/src/components/SessionPanel.tsx:110-144 | without a token the alert is "Login first"; without a quiz, "Please select a quiz first"; with both, a refusal alerts "Error: " and its body and changes nothing else, a network failure changes nothing, and a created session sets the PIN, the status "Connecting..." and a client that keeps the new PIN and the question count at that moment; nothing is sent |
| SessionPanel.HostOpened | addin-teacher/src/components/SessionPanel.tsx:146-155 | on open the panel is connected, the status is "Connected" and exactly one host join is sent, with its token and the PIN the client captured; nothing else changes |
| SessionPanel.HostClosed | addin-teacher/src/components/SessionPanel.tsx:196-200 | on close the panel is disconnected with the status "Disconnected", and nothing else changes (nothing is sent) |
| SessionPanel.HostReceived | addin-teacher/src/components/SessionPanel.tsx:158-194 | nothing is sent; a truthy error is alerted as "Error: " and its text, and no other alert is raised; a score update sets the leaderboard to the ranking of the board, the participant count, the question count taken at session creation and the rounded average; other messages keep the leaderboard and statistics |
| SessionPanel.QuestionsLoaded | addin-teacher/src/components/SessionPanel.tsx:96-104 | the loaded list replaces the questions and its first question is selected, none for an empty list; nothing else changes |
| SessionPanel.QuizzesLoaded | addin-teacher/src/components/SessionPanel.tsx:63-84 | with a token, a non-empty quiz list selects its first quiz; without a token or with an empty list nothing changes; only the selection changes |
| SessionPanel.QuizSelected | addin-teacher/src/components/SessionPanel.tsx:329-334 | the select's value becomes the selected quiz, which counts as selected exactly when it is not the placeholder "" |
| SessionPanel.CreateAfterQuizzesLoaded | addin-teacher/src/components/SessionPanel.tsx:73-79 | from the initial panel with a token, loading the quizzes and then a created session makes the client with the new PIN |
| SessionPanel.PlaceholderBlocksCreate | addin-teacher/src/components/SessionPanel.tsx:116-119 | choosing the placeholder option makes the next `createSession` alert "Please select a quiz first" and make no client |
| SessionPanel.QuestionAdded | addin-teacher/src/components/SessionPanel.tsx:309-313 | a created question is appended and selected and "Question created successfully!" is alerted; nothing else changes |
| SessionPanel.Toggled | addin-teacher/src/components/SessionPanel.tsx:206-208 | the leaderboard visibility flips and nothing else changes |
| SessionPanel.StepKeepsInv | addin-teacher/src/components/SessionPanel.tsx:43-61 | every event keeps the host invariant: the timer is non-negative and active only with at least one second left |
| SessionPanel.StepSends | addin-teacher/src/components/SessionPanel.tsx:146-239 | one event keeps every message already sent and adds at most one, and only a push, end or open event adds one |
| SessionPanel.SendsOnlyOnPushEndOpen | addin-teacher/src/components/SessionPanel.tsx:146-239 | the outbox only grows, by at most one message per push, end or open event |
| SessionPanel.HostTicksFrom | addin-teacher/src/components/SessionPanel.tsx:47-55 | k ticks of an active timer leave n-k and active for k < n, and 0 and inactive for k ≥ n; nothing is sent |
| SessionPanel.InactiveTicks | addin-teacher/src/components/SessionPanel.tsx:46-56 | ticks change nothing while the timer is inactive |
| SessionPanel.StaleQuestionCount | addin-teacher/src/components/SessionPanel.tsx:188 | a question added after the session was created is missing from the statistics' question count |
| SessionPanel.FirstMissingChoice | addin-teacher/src/components/SessionPanel.tsx:251-273 | the first choice whose text is blank, and none exactly when all four are filled |
| SessionPanel.BuildQuestionDraft | addin-teacher/src/components/SessionPanel.tsx:241-297 | a draft is built exactly when token, quiz, text, all four choices and a correct digit 1-4 are given; it keeps the texts in order, marks exactly the chosen one correct, and has the question count as order and a 30 s limit; without a token the alert is "Login first and select a quiz" |
| SessionPanel.ExactlyOneCorrect | addin-teacher/src/components/SessionPanel.tsx:281-296 | a built draft has exactly one correct choice |
| SessionPanel.SessionPanelComponent.constructor | addin-teacher/src/components/SessionPanel.tsx:19-35 | the panel starts in the initial state with its token |
| SessionPanel.SessionPanelComponent.Tick | addin-teacher/src/components/SessionPanel.tsx:47-55 | a tick is the `HostTicked` transition |
| SessionPanel.SessionPanelComponent.PushQuestion | addin-teacher/src/components/SessionPanel.tsx:220-239 | a push is the `Pushed` transition |
| SessionPanel.SessionPanelComponent.EndSession | addin-teacher/src/components/SessionPanel.tsx:210-218 | ending is the `Ended` transition |
| SessionPanel.SessionPanelComponent.CreateSession | addin-teacher/src/components/SessionPanel.tsx:110-144 | session creation is the `SessionCreated` transition |
| SessionPanel.SessionPanelComponent.HandleOpen | addin-teacher/src/components/SessionPanel.tsx:146-155 | the open handler is the `HostOpened` transition |
| SessionPanel.SessionPanelComponent.HandleClose | addin-teacher/src/components/SessionPanel.tsx:196-200 | the close handler is the `HostClosed` transition |
| SessionPanel.SessionPanelComponent.HandleMessage | addin-teacher/src/components/SessionPanel.tsx:158-194 | the message handler is the `HostReceived` transition |
| SessionPanel.SessionPanelComponent.LoadQuizzes | addin-teacher/src/components/SessionPanel.tsx:63-84 | the panel's fields change as `QuizzesLoaded` says |
| SessionPanel.SessionPanelComponent.SelectQuiz | addin-teacher/src/components/SessionPanel.tsx:331-334 | the panel's fields change as `QuizSelected` says |
| SessionPanel.SessionPanelComponent.LoadQuestions | addin-teacher/src/components/SessionPanel.tsx:96-104 | loading is the `QuestionsLoaded` transition |
| SessionPanel.SessionPanelComponent.AddQuestion | addin-teacher/src/components/SessionPanel.tsx:309-313 | adding is the `QuestionAdded` transition |
| SessionPanel.SessionPanelComponent.ToggleLeaderboard | addin-teacher/src/components/SessionPanel.tsx:206-208 | toggling is the `Toggled` transition |
| StudentLeaderboard.GetRankIcon | student-client/src/components/Leaderboard/Leaderboard.tsx:21-28 | rank 1 gets the gold medal, 2 silver, 3 bronze, and every other rank shows its number |
| StudentLeaderboard.RankIconsDistinct | student-client/src/components/Leaderboard/Leaderboard.tsx:21-28 | different ranks get different icons |
| StudentLeaderboard.HighlightsOwnRow | student-client/src/components/Leaderboard/Leaderboard.tsx:30-32 | with a stored id, a row is highlighted exactly when it is the user's own |
| StudentLeaderboard.NoHighlightWithoutId | student-client/src/components/Leaderboard/Leaderboard.tsx:32 | with no stored id, or an empty one, no row is highlighted |
| StudentLeaderboard.ShownRows | student-client/src/components/Leaderboard/Leaderboard.tsx:51 | a prefix of the board: in compact mode five rows, or all when fewer; otherwise the whole board |
| StudentLeaderboard.MoreLine | student-client/src/components/Leaderboard/Leaderboard.tsx:86-94 | "+N more" appears exactly when there are more than five rows, with N the number hidden |
| StudentLeaderboard.CompactAccountsForAll | student-client/src/components/Leaderboard/Leaderboard.tsx:51-94 | shown rows plus the "+N more" count equal the number of participants |
| StudentLeaderboard.QuickStats | student-client/src/components/Leaderboard/Leaderboard.tsx:149-166 | statistics exist exactly for a non-empty board and count its participants |
| StudentLeaderboard.QuickStatsOfRanked | student-client/src/components/Leaderboard/Leaderboard.tsx:161-164 | on a ranked board the top score is at least every score and the average lies within the scores |
| TeacherLeaderboard.GetRankIcon | addin-teacher/src/components/Leaderboard/TeacherLeaderboard.tsx:21-28 | rank 1 gets the gold medal, 2 silver, 3 bronze; any other rank shows "#" and its number |
| TeacherLeaderboard.RankIconsDistinct | addin-teacher/src/components/Leaderboard/TeacherLeaderboard.tsx:21-28 | different ranks get different icons |
| TeacherLeaderboard.GetRankStyle | addin-teacher/src/components/Leaderboard/TeacherLeaderboard.tsx:30-37 | exactly the ranks outside 1-3 get the white style |
| TeacherLeaderboard.PodiumStylesDistinct | addin-teacher/src/components/Leaderboard/TeacherLeaderboard.tsx:30-37 | the gold, silver and bronze styles of ranks 1-3 differ from each other |
| TeacherLeaderboard.ScoredCount | addin-teacher/src/components/Leaderboard/TeacherLeaderboard.tsx:145 | the number of entries with a positive score, at most the board size |
| TeacherLeaderboard.ScoredCountExtremes | addin-teacher/src/components/Leaderboard/TeacherLeaderboard.tsx:145 | the count is the board size exactly when all scored, and 0 exactly when none did |
| TeacherLeaderboard.Render | addin-teacher/src/components/Leaderboard/TeacherLeaderboard.tsx:39-287 | hidden shows only the toggle; visible shows the student count, statistics exactly when the board is non-empty (count, top score, rounded average and scored count of the board), and one row per entry with its rank icon, rank style, name and score, bold for ranks up to 3 |
| TeacherLeaderboard.RenderedStatsOfRanked | addin-teacher/src/components/Leaderboard/TeacherLeaderboard.tsx:55-58 | on a ranked, non-empty board the bar's top score is the highest score and one row's, the average lies between the lowest and highest score, and the scored count is at most the student count |
| TeacherLeaderboard.BoldPodium | addin-teacher/src/components/Leaderboard/TeacherLeaderboard.tsx:240-243 | on a ranked board a row is bold exactly when it is one of the first three |
| JoinPage.ErrorMessage | student-client/src/pages/JoinPage.tsx:32 | the first truthy of the PIN error, the name error and the detail, else "Failed to join"; each step of the priority is stated; never empty |
| JoinPage.HandleJoin | student-client/src/pages/JoinPage.tsx:11-48 | a request with the trimmed name and PIN is sent exactly when both are non-blank, otherwise the error is "Username and PIN are required"; a refusal shows `ErrorMessage` of its errors; a reply without a participant, a body that is not JSON and a network failure show "Network error, please try again"; the identity is stored and the page navigates exactly on a join that returns an id; the error is empty exactly when it navigates |
| JoinPage.BlankSendsNothing | student-client/src/pages/JoinPage.tsx:14-17 | a blank name or PIN makes no request |
| JoinPage.PaddingIsIgnored | student-client/src/pages/JoinPage.tsx:14-41 | padding around the name and PIN does not change the request or the outcome |
| JoinPage.JoinedThenQuizPageJoins | student-client/src/pages/JoinPage.tsx:38-43 | after a successful join the quiz page mounts, opens and sends a join with the stored participant id |
| JoinPage.JoinPageComponent.constructor | student-client/src/pages/JoinPage.tsx:6-8 | the form starts empty at "/" with the given storage and no requests |
| JoinPage.JoinPageComponent.Type | student-client/src/pages/JoinPage.tsx:59-67 | typing sets the name and PIN inputs to what was typed; the error line, storage, requests and location are kept |
| JoinPage.JoinPageComponent.Join | student-client/src/pages/JoinPage.tsx:11-48 | submitting sends, stores, navigates and sets the error as `HandleJoin` says, and keeps the typed fields |
| Consumer.FailuresAreUntyped | backend/quizzes/consumers.py:57-145 | every error reply is an object with `error` and no `type` |
| Consumer.PayloadHidesCorrectness | backend/quizzes/consumers.py:321 | a question payload's choices carry only id and text, never correctness |
| Consumer.Deliver | backend/quizzes/consumers.py:149-161 | a group score event sends `{"type":"score_update","scoreboard":…}` and a push sends `{"type":"question","question":…}` |
| Consumer.RankedBeforeIsOrder | backend/quizzes/consumers.py:298 | score descending, then join time ascending, is total and transitive |
| Consumer.Members | backend/quizzes/consumers.py:298 | only participants of that session, in database order |
| Consumer.MembersAreTheSession | backend/quizzes/consumers.py:298 | a participant is a member exactly when it belongs to the session |
| Consumer.Rows | backend/quizzes/consumers.py:300-307 | one row per participant with its id, name and score |
| Consumer.Standings | backend/quizzes/consumers.py:298 | ordered by score then join time, and a permutation of the session's members |
| Consumer.BuildScoreboard | backend/quizzes/consumers.py:288-308 | an unknown PIN gives an empty board; otherwise one row per member of the session, in standing order, scores non-increasing |
| Consumer.ScoreboardTiesByJoinTime | backend/quizzes/consumers.py:298 | of two participants with equal scores, the one who joined first comes first |
| Consumer.PayloadOf | backend/quizzes/consumers.py:311-328 | the payload has the question's id, text and time limit and one choice per choice of that question, in order |
| Consumer.ScoreAfter | backend/quizzes/consumers.py:246-270 | a new answer adds 1 when correct; a changed answer adds 1 going right and subtracts 1, floored at 0, going wrong; an unchanged one keeps the score; a non-negative score stays non-negative |
| Consumer.SaveAnswer | backend/quizzes/consumers.py:221-285 | saved exactly when both ids are integers naming a participant and a choice; then the answer keyed on (participant, the choice's question) is stored or replaced and the score follows `ScoreAfter`; nothing else changes |
| Consumer.SaveKeepsScoresCounting | backend/quizzes/consumers.py:237-270 | after a save, every score still equals the number of the participant's correct answers |
| Consumer.ParticipantInSession | backend/quizzes/consumers.py:183-194 | none exactly when the id is not an integer; true only when a participant with that id belongs to a session with that PIN |
| Consumer.ParticipantInSessionExactly | backend/quizzes/consumers.py:183-194 | with unique ids, the check passes exactly when the participant's row exists and its session has this PIN |
| Consumer.Respond | backend/quizzes/consumers.py:41-145 | a frame without text is ignored, unparsable JSON gets "invalid_json", a non-object value crashes the handler, and only an answer action changes the database |
| Consumer.Join | backend/quizzes/consumers.py:63-76 | a missing id gives "missing_participant_id", a non-integer one crashes, otherwise the reply follows the participant check: `join_success` when it passes, "join_failed" when not |
| Consumer.JoinSucceedsExactly | backend/quizzes/consumers.py:63-76 | with unique ids, a join gets `join_success` exactly when the participant belongs to the session with this connection's PIN, and "join_failed" exactly when not |
| Consumer.HostJoin | backend/quizzes/consumers.py:78-92 | a missing token or PIN gives "missing_token_or_pin"; `host_join_success` exactly when the token's user owns the session's quiz, otherwise "host_join_failed" |
| Consumer.AnswerAction | backend/quizzes/consumers.py:98-120 | missing fields give "missing_fields", a failed save "save_failed", and a saved answer broadcasts the session's new scoreboard |
| Consumer.PushQuestion | backend/quizzes/consumers.py:122-142 | a missing id gives "missing_question_id", a non-integer one crashes, an unknown one gives "question_not_found", and a known one broadcasts its payload |
| Consumer.UnknownActionEchoed | backend/quizzes/consumers.py:145 | any other action gets "unknown_action" with the action echoed |
| Consumer.AnswerIgnoresConnectionPin | backend/quizzes/consumers.py:106-112 | where an answer is saved does not depend on the PIN of the connection |
| Consumer.ResubmissionOverwrites | backend/quizzes/consumers.py:246-252 | a second answer to the same question replaces the stored one under the same (participant, question) key |
| Consumer.SessionConsumer.constructor | backend/quizzes/consumers.py:18-20 | a new connection holds the route's PIN, has no group, is not accepted and has sent nothing |
| Consumer.SessionConsumer.Connect | backend/quizzes/consumers.py:18-34 | with no PIN or an empty one the connection is closed with code 4001; otherwise it joins `session_<pin>`, is accepted and sends the current scoreboard |
| Consumer.SessionConsumer.Disconnect | backend/quizzes/consumers.py:36-39 | the connection leaves its group and nothing else changes |
| Consumer.SessionConsumer.Receive | backend/quizzes/consumers.py:41-145 | the database becomes `Respond`'s, a reply is sent, an event broadcast or a crash recorded, as its outcome says |
| Consumer.SessionConsumer.Emit | backend/quizzes/consumers.py:177-179 | a reply is sent, an event broadcast or a crash recorded, by the outcome |
| Consumer.SessionConsumer.ReceiveAnswer | backend/quizzes/consumers.py:98-120 | an answer saves through the database object and replies as `AnswerAction` says |
| Consumer.SessionConsumer.OnGroupEvent | backend/quizzes/consumers.py:149-161 | a group event sends the message `Deliver` builds |
| Consumer.SaveAnswerAndUpdateScore | backend/quizzes/consumers.py:221-285 | the in-place save leaves the database as `SaveAnswer` says |
| Models.QuestionStr | backend/quizzes/models.py:54-55 | "Q", the order plus one, ": " and the first 50 characters of the text |
| Models.QuestionStrShowsOrder | backend/quizzes/models.py:54-55 | questions with different orders render differently |
| Models.ChoiceStr | backend/quizzes/models.py:73-74 | the text followed by " (correct)" or " (wrong)" |
| Models.ChoiceStrShowsCorrectness | backend/quizzes/models.py:73-74 | a rendering ends in "(correct)" exactly for a correct choice |
| Models.SessionStr | backend/quizzes/models.py:111-112 | "Session &lt;pin&gt; (Active)" or "(Ended)" by the active flag |
| Models.SessionStrShowsActivity | backend/quizzes/models.py:111-112 | a rendering ends in "(Active)" exactly for an active session |
| Models.ParticipantStr | backend/quizzes/models.py:135-136 | the name followed by " (", the PIN and ")" |
| Models.AssignedPin | backend/quizzes/models.py:97-100 | a non-empty PIN is kept; an empty one becomes the six-digit rendering of the random draw |
| Models.SaveKeepsAssignedPin | backend/quizzes/models.py:97-100 | saving again, with any draw, keeps the PIN the first save assigned |
| Models.SessionRecord.constructor | backend/quizzes/models.py:87-92 | an unsaved session holds the given PIN |
| Models.SessionRecord.Save | backend/quizzes/models.py:97-100 | saving assigns `AssignedPin` and marks the record saved |
| Models.ChoicesOf | backend/quizzes/models.py:59-62 | only choices of that question, each from the list |
| Models.OtherChoices | backend/quizzes/models.py:59-62 | only choices of other questions, each from the list |
| Models.ChoicesOfAppend | backend/quizzes/models.py:59-62 | the choices of a question in a concatenation are those of each part, concatenated |
| Models.ChoicesOfOwn | backend/quizzes/models.py:59-62 | when every choice belongs to the question, all of them are its choices |
| Models.ChoicesOfForeign | backend/quizzes/models.py:59-62 | when no choice belongs to the question, it has none |
| Models.OtherChoicesKeepsOthers | backend/quizzes/models.py:59-62 | removing one question's choices keeps every other question's choices |
| Models.CorrectKeysAfterPut | backend/quizzes/models.py:167 | storing an answer under a key changes the participant's correct count by the new entry's count minus the replaced entry's |
| Permissions.IsTeacher | backend/quizzes/permissions.py:8-10 | allowed exactly for an authenticated user whose role is "teacher" or who is staff |
| Permissions.WithoutRoleOnlyStaff | backend/quizzes/permissions.py:10 | a user without a role is a teacher exactly when staff |
| Permissions.IsOwnerOrReadOnly | backend/quizzes/permissions.py:18-21 | safe methods are always allowed; others exactly for a logged-in creator or staff |
| Permissions.AnonymousOnlyReads | backend/quizzes/permissions.py:19-21 | an anonymous request is allowed exactly for safe methods |
| Permissions.OwnerMayWrite | backend/quizzes/permissions.py:21 | the creator may use every method |
| Serializers.CharField | backend/quizzes/serializers.py:122-123 | a missing value is "This field is required.", a blank trim "This field may not be blank.", then too long, then too short; a valid value is its trim |
| Serializers.CharFieldIgnoresPadding | backend/quizzes/serializers.py:122-123 | a padded value validates as its trim |
| Serializers.CheckPassword | backend/quizzes/serializers.py:12 | accepted exactly when present with at least 8 characters after trimming; a short one gets the at-least-8 error |
| Serializers.ShortPasswordMessage | backend/quizzes/serializers.py:12 | the error for a short password reads "Ensure this field has at least 8 characters." |
| Serializers.PaddedShortPasswordRefused | backend/quizzes/serializers.py:12 | a password padded up to 8 characters is still refused |
| Serializers.NewChoices | backend/quizzes/serializers.py:53-54 | one choice per entry, in order, with consecutive ids from the first fresh id, keeping text and correctness |
| Serializers.NewQuestion | backend/quizzes/serializers.py:52 | the given id, quiz and text, with time limit 30 and order 0 when omitted |
| Serializers.CreateMakesOneChoicePerEntry | backend/quizzes/serializers.py:50-55 | the created question's choices are exactly the given entries, in order |
| Serializers.CreateKeepsOtherChoices | backend/quizzes/serializers.py:50-55 | creating a question leaves every other question's choices unchanged |
| Serializers.CreateKeepsFresh | backend/quizzes/serializers.py:50-55 | all ids stay below the next id after a create |
| Serializers.CreateQuestion | backend/quizzes/serializers.py:50-55 | returns the new question and leaves the database as `Created` says |
| Serializers.PatchedSetsSuppliedFields | backend/quizzes/serializers.py:59-61 | supplied fields are set, omitted fields kept, id and quiz unchanged, and patching again changes nothing |
| Serializers.Updated | backend/quizzes/serializers.py:57-66 | without choices in the request the choices and answers are untouched |
| Serializers.UpdateReplacesChoices | backend/quizzes/serializers.py:62-65 | with choices, the question's choices become exactly the new entries, other questions' choices are kept, and exactly the answers on deleted choices are removed |
| Serializers.UpdateQuestion | backend/quizzes/serializers.py:57-66 | the in-place update leaves the database as `Updated` says |
| Serializers.FieldErrors | backend/quizzes/serializers.py:122-123 | the error map has a key for exactly the fields that failed |
| Serializers.ValidateJoin | backend/quizzes/serializers.py:121-132 | valid exactly when both fields pass and a session with the trimmed PIN exists; field errors name exactly the failing fields; an unknown PIN gives "Session with this PIN does not exist." |
| Serializers.GetOrCreate | backend/quizzes/serializers.py:134-140 | the existing participant with that session and name, with no change, or a new one with score 0 and the next id appended |
| Serializers.JoinIsIdempotent | backend/quizzes/serializers.py:137-139 | joining twice with the same name returns the same participant and adds no row |
| Serializers.JoinKeepsInvariants | backend/quizzes/serializers.py:137-139 | unique ids and names, fresh ids and counted scores are kept by a join |
| Serializers.JoinCreate | backend/quizzes/serializers.py:134-140 | the in-place join leaves the database as `GetOrCreate` says |
| Serializers.InsertSession | backend/quizzes/models.py:87-100 | saved exactly when the assigned PIN is unused, as an active session with the next id, that PIN and the current time |
| Serializers.InsertSessionKeepsInvariants | backend/quizzes/models.py:89 | saving a session keeps PINs unique and ids fresh |
| Serializers.CreateSessionIgnoresGivenPin | backend/quizzes/serializers.py:108-112 | the PIN given to the serializer has no effect, and a saved session holds the six-digit draw |
| Routing.MatchPattern | backend/quizzes/routing.py:7-8 | a match captures a non-empty word-character PIN and the path is exactly prefix, PIN and "/" |
| Routing.Route | backend/quizzes/routing.py:7-8 | a routed path is one scheme's prefix, a word PIN and "/" |
| Routing.OtherSchemeMisses | backend/quizzes/routing.py:7-8 | a path with one scheme's prefix cannot match the other pattern |
| Routing.RouteOfPath | backend/quizzes/routing.py:7-8 | a PIN's path is routed, with that PIN, exactly when the PIN is a non-empty word string |
| Routing.RouteAcceptsWordPins | backend/quizzes/routing.py:7-8 | every non-empty word PIN is routed under both schemes |
| Routing.RouteRejectsNonWordPins | backend/quizzes/routing.py:7-8 | a PIN containing a non-word character is not routed |
| Routing.RouteRejectsEmptyPin | backend/quizzes/routing.py:7-8 | the empty PIN is not routed |
| Routing.RouteRejectsTrailingText | backend/quizzes/routing.py:7-8 | text after the closing slash stops the match |
| Routing.RouteRequiresSlash | backend/quizzes/routing.py:7-8 | a path without the closing slash is not routed |
| Views.KeyOf | backend/quizzes/views.py:191-193 | a missing field is no key; a present one is an id exactly when Python `int()` reads it |
| Views.UsedPinsFind | backend/quizzes/views.py:83 | a PIN is in use exactly when a session with it exists |
| Views.GeneratedPin | backend/quizzes/views.py:79-86 | the first unused candidate, and the fallback when every candidate is used |
| Views.GeneratePin | backend/quizzes/views.py:79-86 | the loop over the ten candidates returns what `GeneratedPin` specifies |
| Views.GeneratedPinShape | backend/quizzes/views.py:82-86 | with six-digit candidates and an eight-digit fallback the PIN is digits, six long, or eight long (over the six the field allows) only when every candidate was taken |
| Views.SessionCreateAsWritten | backend/quizzes/views.py:97-100 | an unknown quiz is refused; a saved session has the draw's PIN; creation conflicts exactly when the draw is already in use |
| Views.SessionCreateIgnoresFreePin | backend/quizzes/views.py:97-100 | with a free generated PIN, a taken draw still makes creation fail |
| Views.SessionCreate | backend/quizzes/views.py:97-100 | an unknown quiz is refused; a saved session has the generated PIN; when some candidate is free creation succeeds with an unused six-digit PIN |
| Views.SessionCreateKeepsPinsUnique | backend/quizzes/views.py:97-100 | the corrected create keeps PINs unique and ids fresh |
| Views.NameForInjective | backend/quizzes/views.py:146-149 | different suffix counters give different names |
| Views.FirstAccepted | backend/quizzes/views.py:144-162 | the first counter from the start up to 100 whose save does not raise; none only when every one raises |
| Views.JoinView | backend/quizzes/views.py:117-177 | invalid input returns the field errors; a join returns a participant of the session with the trimmed PIN, under the trimmed name when the first save succeeds; "Could not create unique participant name." leaves the database unchanged |
| Views.ParticipantJoin | backend/quizzes/views.py:142-162 | the in-place join leaves the database as `JoinView` says |
| Views.JoinViewIsIdempotent | backend/quizzes/views.py:117-134 | after a successful join, joining again with the same name gives the same reply and database |
| Views.Resolve | backend/quizzes/views.py:191-193 | found rows are in range and a choice is looked up exactly when its field is truthy; a refusal is "not found" or an error |
| Views.AnswerCreateAsWritten | backend/quizzes/views.py:185-214 | the handler as written never reports a created answer, keeps every score, and any row it leaves is marked incorrect |
| Views.AnswerAsWrittenLosesCorrectAnswers | backend/quizzes/views.py:196-204 | a first, correct answer gets an error reply, is stored as incorrect, and the score is not raised |
| Views.AnswerCreate | backend/quizzes/views.py:185-214 | a missing participant, question or choice is refused with the lookup's reply and changes nothing; once all are found the outcome is that of `Answered` |
| Views.Answered | backend/quizzes/views.py:195-214 | a created answer is new under (participant, question), records the chosen choice's correctness, and adds the question's marks to the score only when correct; anything else is an error that changes nothing |
| Views.AnsweredKeepsScoresCounting | backend/quizzes/views.py:202-209 | once the rows are found, the corrected handler keeps every score equal to the number of the participant's correct answers and keeps answer keys unique |
| Views.AnswerCreateKeepsScoresCounting | backend/quizzes/views.py:202-209 | the corrected handler keeps scores equal to the number of correct answers and keeps keys consistent |
| Views.CreateAnswer | backend/quizzes/views.py:185-214 | the in-place handler leaves the database as `AnswerCreate` says |
| Views.Record | backend/quizzes/views.py:196-209 | storing the answer and the score in place gives `Recorded` |
| Views.SessionActionAsWritten | backend/quizzes/views.py:223-227 | the database never changes; a non-teacher is denied; a teacher gets not-found exactly for an unknown session and an error for every existing one |
| Views.SessionActionAsWrittenDoesNothing | backend/quizzes/views.py:224-227 | every reply is a denial, not-found or error, and the database is unchanged |
| Views.FirstByOrder | backend/quizzes/views.py:245 | a question of the quiz with the lowest order, and none exactly when the quiz has none |
| Views.SessionAction | backend/quizzes/views.py:223-251 | non-teachers are denied; an unknown session is not found; forbidden exactly for a user neither owner nor staff; for a permitted user, start stamps `started_at` and replies Started, end stamps `ended_at` and replies Ended (each changing only that session), next with an id returns that question, not found or an error for a non-integer id, next without one returns the lowest-order question or "No questions" exactly when the quiz has none, and any other action is "unknown action"; only start and end change the database |
| Views.SessionActionEndAsWritten | backend/quizzes/views.py:233-236 | with the host check repaired, the replies are those of `SessionAction`, but `end` leaves the database as it was |
| Views.EndAsWrittenLeavesSessionOpen | backend/quizzes/views.py:233-236 | as written, a permitted `end` reports the end while the session's `ended_at` keeps its old value |
| Views.EndRecordsEndedAt | backend/quizzes/views.py:233-236 | as intended, a permitted `end` stores the reported time in the session's `ended_at` |
| Views.NextWithIdReturnsIt | backend/quizzes/views.py:241-243 | `next` with an existing question id returns that question |
| Views.StartAndEndTouchOnlyTheSession | backend/quizzes/views.py:229-237 | start and end change only that session's row, keeping its PIN and active flag |
| Views.SerializerFor | backend/quizzes/views.py:44-47 | the create/update serializer exactly for create, update and partial update |
| Views.PermissionsFor | backend/quizzes/views.py:52-58 | authentication is always required, plus the teacher check exactly for write actions |
| Views.QuizAccess | backend/quizzes/views.py:52-58 | writes are allowed exactly to teachers and reads exactly to authenticated users |
| Views.WriteSerializersNeedTeacher | backend/quizzes/views.py:44-58 | whoever reaches the create/update serializer is a teacher |
| Views.NewestQuiz | backend/quizzes/views.py:283-285 | the user's quiz with the latest creation time, and none exactly when the user has none |
| Views.PickQuiz | backend/quizzes/views.py:275-290 | a truthy quiz field picks that quiz exactly when it exists; otherwise the user's newest quiz, or a new quiz of the user when there is none |
| Views.PerformCreateQuestion | backend/quizzes/views.py:275-291 | an unknown quiz id gives not found and changes nothing; otherwise the question is created in the picked quiz as `Created` says |
| Protocol.ViewOf | backend/quizzes/consumers.py:323-328 | the client's view of a payload has its id, text, time limit and choices |
| Protocol.ScoreboardRoundTrip | backend/quizzes/consumers.py:300-307 | both clients read back exactly the scoreboard the server sent |
| Protocol.QuestionRoundTrip | backend/quizzes/consumers.py:160-161 | the student reads back exactly the question the server pushed |
| Protocol.StudentReadsEachMessage | student-client/src/pages/QuizPage.tsx:106-160 | the student page reads each server message as its own type with its fields |
| Protocol.HostReadsEachMessage | addin-teacher/src/components/SessionPanel.tsx:158-194 | the host panel reads each server message's error, type and scoreboard |
| Protocol.StudentMessagesDispatch | backend/quizzes/consumers.py:60-120 | the student's join reaches `Join` with its id, and its answer reaches `AnswerAction` with participant and choice |
| Protocol.StudentAnswerBroadcasts | backend/quizzes/consumers.py:98-120 | a saved student answer broadcasts the new scoreboard; a failed one gets "save_failed" |
| Protocol.HostMessagesDispatch | addin-teacher/src/components/SessionPanel.tsx:150-154 | the host's join reaches `HostJoin` with its token, null when absent, so a missing token gives "missing_token_or_pin"; a push reaches `PushQuestion` |
| Protocol.EndSessionIsUnknown | addin-teacher/src/components/SessionPanel.tsx:210-217 | the host's end message gets "unknown_action"; the host alerts "Error: unknown_action" and a student page ignores it |
| Protocol.UnknownActionAlertText | addin-teacher/src/components/SessionPanel.tsx:161-164 | the host's alert for the unknown-action reply reads "Error: unknown_action" |
| Protocol.UntypedRepliesLeavePage | student-client/src/pages/QuizPage.tsx:109-159 | error and pong replies leave the student page unchanged |
| Protocol.PushedQuestionShown | student-client/src/pages/QuizPage.tsx:111-115 | the student page treats a pushed question exactly as a new question with the payload's view |
| Protocol.PushedQuestionIsStored | backend/quizzes/consumers.py:122-142 | a host push broadcasts the stored question's payload, and the student page then shows its id, text, time limit and choices |
| Protocol.StudentLeaderboardKeepsServerOrder | student-client/src/pages/QuizPage.tsx:127-134 | the student's leaderboard, read back as rows, is exactly the server's scoreboard |
| Protocol.HostLeaderboardKeepsServerOrder | addin-teacher/src/components/SessionPanel.tsx:174-192 | the host's leaderboard, read back as rows, is exactly the server's scoreboard, its participant count is the board's size, and no alert is raised |
| Protocol.OpenSocket | backend/quizzes/consumers.py:18-34 | an unrouted path opens nothing; a routed one gives an accepted connection in `session_<pin>` whose first message is the scoreboard |

## Left out

- Rendering, styles and layout are not modelled; only the values the components compute are.
- `fetch` calls, `localStorage` and navigation are inputs and outputs of the transitions, not real I/O.
- Timers are modelled as explicit tick events. Timer scheduling and cancellation are not modelled.
- Each socket's underlying browser WebSocket is modelled by delivery methods that the environment calls.
- `student-client/src/utils/ws.js` is not part of this model; `ws.ts` is modelled in its place.
- JSON parsing is an input: a frame is either a parsed value or a parse failure.
- JWT decoding, the token middleware and Django authentication are an input: the user a token names.
- The Channels layer is not modelled. Its group fan-out is modelled as events handed to each connection.
- Concurrency between connections and the `IntegrityError` race in `get_or_create` are not modelled. Whether a save raises is an input.
- Randomness is an input: the sequence of candidate PINs and the random draw of `Session.save`.
- Floating point and percentages in the leaderboards are not modelled; the average uses integer `Math.round` of a non-negative mean.
- Routing: `\w` is modelled on ASCII letters, digits and `_`. Python also accepts other Unicode word characters.
- The database's order for rows with equal sort keys is modelled as insertion order.
- Serializer inputs that are not strings or null are not modelled.
- A syntactically malformed quiz UUID is modelled as "not found".
- The PIN field's `max_length=6` is not enforced on save, so the 8-digit fallback PIN is kept.
- `ChoiceSerializer` ids supplied by the client are ignored.
- `RegisterSerializer.create` and `RegisterView` are not modelled; only the password rule is.
- `SessionScoresView`, `SessionDetailView` and `QuizViewSet.perform_create` are not modelled. They are plain ORM reads and a save with the user.
- `QuestionCreateView` is not modelled: it is not routed and refers to a name its module never imports.
- Views.JoinView: a `serializer.save()` that raises anything other than `IntegrityError` is answered by the outer `except Exception` with 400 `{"detail": str(e)}` (backend/quizzes/views.py:176-177); the model has no such reply, since `saveRaises` stands only for the `IntegrityError` of a concurrent insert.
- Views.JoinView: an exception other than `IntegrityError` raised inside the suffix loop is not caught by that outer clause (the loop runs in the `except IntegrityError` handler) and becomes a 500; the model's `raises` stands only for `IntegrityError`.
- Protocol: the client-side readers treat a field of the wrong JSON type as absent.
- Text.IsSpace: only the ASCII whitespace that `trim()` and `strip()` share is modelled; both also remove Unicode spaces such as U+00A0, U+2028 and U+FEFF (`trim()` only), and `strip()` also removes \x1c-\x1f.
- Text.JsParseInt: the leading whitespace it skips is the ASCII part only, as for `Text.IsSpace`.
- Text.JsNumber: only decimal integers are read; `Number` also reads "1.0", "1e1", "0x10", "0b1", "0o7" and "Infinity", which the model gives as NaN. Every id the clients compare is a decimal integer.
- Text.PyIntOfString: `int()` also accepts "1_000" and non-ASCII decimal digits, which the model refuses.
- Protocol: JSON numbers are integers; fractions and exponents are not modelled.
- StudentQuizSocket.QuizSocket.DeliverMessage: a message handler that throws is caught by the same `try` as the parse, so the later handlers of that frame are skipped; the model calls every handler.
- SessionPanel.SessionCreated: a second successful `createSession` makes a new client without closing the old one, whose callbacks stay live on the old PIN; the model keeps only the newest client.
- SessionPanel: the list of quizzes is kept only to render the select's options, so only the selection it leads to is modelled; a failed quiz or question fetch changes nothing and arrives as no event.
- Text.JsNumber: the contract states only the blank case; how digit strings are read is stated by `Text.ParsersReadDecimal` and `Text.ParseIntAndNumberDiffer`.
- Text.PyIntOfString: the contract states only the blank case; how digit strings are read is stated by `Text.ParsersReadDecimal`.
- Serializers.Updated: the contract states only the case without choices; the case with choices is `Serializers.UpdateReplacesChoices`.

## Findings

| source | as written | input that shows it | evidently intended | confidence | as-written member | corrected member |
|---|---|---|---|---|---|---|
| backend/quizzes/views.py:203 | `answer.correct = correct` assigns to `Answer.correct`, a read-only property (backend/quizzes/models.py:162-164), so the handler raises after saving the answer | a request naming a correct choice for a known participant and question | store the answer with the choice's correctness and add the question's marks to the score | not executed | Views.AnswerAsWrittenLosesCorrectAnswers | Views.AnswerCreateKeepsScoresCounting |
| backend/quizzes/views.py:226 | the ownership check reads `session.host`, a field the Session model no longer has, so every request by a teacher for an existing session fails | a teacher posting `start` for an existing session | check the quiz's `created_by`, then start, end or advance the session | not executed | Views.SessionActionAsWrittenDoesNothing | Views.SessionAction |
| backend/quizzes/views.py:235 | `end` assigns `session.finished_at`, which is not a column of `Session` (backend/quizzes/models.py:104-105 comments the property out), so `save()` leaves `ended_at` unset while the reply reports the end | a permitted host posting `end` for an open session, once the host check of the row above is repaired | store the end time in `ended_at` | not executed | Views.EndAsWrittenLeavesSessionOpen | Views.EndRecordsEndedAt |
| backend/quizzes/views.py:99-100 | the view generates an unused PIN, but `SessionCreateSerializer.create` (backend/quizzes/serializers.py:108-112) drops it and `Session.save` draws a new one without checking it is unused | one free candidate PIN and a random draw equal to an existing session's PIN | save the session under the generated, unused PIN | not executed | Views.SessionCreateIgnoresFreePin | Views.SessionCreateKeepsPinsUnique |
