# Customer-service refund agent, modelled in Dafny

This project models the rule-based customer-service agent in
`phase-2/customer_service_agent.py`. The agent is a small workflow graph over one
conversation record, `CustomerServiceState`. That record holds an append-only
message log, a `user_info` map, the `intent` and `refund_decision` enums, the
`needs_human` flag and an optional `refund_transaction_id`.

A turn adds the user's message and then runs the graph:

- `classify_intent` reads the last user message. It sets the intent, the anger
  flag and the order number, and it can reset the decision.
- A router then picks one of `human_handoff`, `refund_status`, `confirm_refund`
  or `answer_consult`.
- `confirm_refund` pauses and waits for a human operator's yes/no.
- When the run is resumed, that node runs again from the start with the answer.
  A second router then goes on to `process_refund` or ends the run.
- `process_refund` issues a refund id at most once.

Every node returns a *delta*, i.e. a partial update. The graph library merges
deltas: messages are appended and every other field present is overwritten. In
the model this merge is the explicit function `CsState.Apply`. The library's
pause/resume call becomes the `Suspend` result plus an optional resume value. The
library's graph runner becomes a small driver, `Engine.RunFrom`.

Modules, one per concern:

- `Wrappers` (wrappers.dfy): `Option`.
- `Text` (text.dfy) models the string operations the classifier uses:
  - Python's `in` on strings, and ASCII `lower()`;
  - `strip()`, with Python's white-space class;
  - the order-number pattern `(?:订单|order)[^0-9]*([0-9]{3,})`, written out as a
    leftmost search;
  - the anger words.
- `CsState` (state.dfy): the state record, the delta, the merge rule and the
  well-formedness invariant `Wf`.
- `Steps` (steps.dfy): the six nodes, `_extract_user_info`, `_issue_refund_tool`,
  and the lemmas about each node.
- `Graph` (graph.dfy): the nodes, the two routers, their edge tables, the fixed
  edges, and the `Next` function that looks a route up in the tables.
- `Engine` (engine.dfy): the driver (`RunFrom`), a new turn (`Invoke`), a resume
  (`Resume`), one turn of the main loop (`Exchange`), and a whole conversation
  (`Converse`), with the lemmas that relate them.
- `Scenarios` (scenarios.dfy): concrete conversations. They cover a refund
  request for order 12345 that is declined or approved, a later status question,
  and an angry refund request.

Things the model treats as inputs:

- The random part of a refund id (`uuid.uuid4().hex[:8]`) is a `token` parameter.
- The operator's answer is a `ResumeValue` parameter. It is abstracted to what
  the node looks at: a dict by the truthiness of its `"approved"` entry, a string
  by being non-empty, and any other value by its truthiness.

Two details of the source a reader may not expect:

- `user_info` is overwritten by the delta, not merged key by key. The merge
  happens inside `classify_intent` itself (line 65).
- The source checks for a transaction id in two ways. `classify_intent` asks `is None`
  (line 81). The router, `process_refund` and `refund_status` test truthiness
  (lines 151, 171, 199). The model keeps both tests. The invariant `Wf` says an
  issued id always starts with `refund_`. Under `Wf`, lemma
  `CsState.WfTxIdTests` shows the two tests agree.

## Model

| member | source | states |
|---|---|---|
| `CsState.Apply` | phase-2/customer_service_agent.py:14-28 | merging a delta never removes or reorders messages: the old log is a prefix of the new one |
| `CsState.ApplyNoChange` | phase-2/customer_service_agent.py:111 | the empty delta `{}` leaves the state unchanged |
| `CsState.WfTxIdTests` | phase-2/customer_service_agent.py:81 | in a well-formed state the `is None` test and the truthiness test of the transaction id agree |
| `CsState.InitialWf` | phase-2/customer_service_agent.py:17-28 | the default state (no id, empty user info) is well-formed |
| `Text.ContainsIff` | phase-2/customer_service_agent.py:68 | the substring scan holds exactly when the word occurs at some index of the text |
| `Text.ContainsFirstChar` | phase-2/customer_service_agent.py:53 | a word can only be found in a text that holds its first character |
| `Text.Lower` | phase-2/customer_service_agent.py:67 | lower-casing keeps the length and maps each character (ASCII letters to lower case, the rest unchanged) |
| `Text.StripLeft` | phase-2/customer_service_agent.py:70 | the result is a suffix of the input, the removed prefix is all white space, and the result does not start with white space |
| `Text.StripRight` | phase-2/customer_service_agent.py:70 | the result is a prefix of the input, the removed suffix is all white space, and the result does not end with white space |
| `Text.StripEmptyIffBlank` | phase-2/customer_service_agent.py:70 | `text.strip()` is empty exactly when every character is white space in Python's sense |
| `Text.SkipNonDigits` | phase-2/customer_service_agent.py:31 | the greedy `[^0-9]*` stops at the first digit at or after its start, or at the end |
| `Text.DigitRunEnd` | phase-2/customer_service_agent.py:31 | the greedy `[0-9]*` stops at the first non-digit at or after its start, or at the end |
| `Text.KeywordAtMatches` | phase-2/customer_service_agent.py:31 | the keyword `订单` (length 2) is tried first; otherwise a keyword of length 5 is found exactly when each of the five characters is the lower- or upper-case letter of `order` |
| `Text.MatchAt` | phase-2/customer_service_agent.py:31 | a match anchored at an index captures three or more digits that occur in the text after that index |
| `Text.SearchFrom` | phase-2/customer_service_agent.py:46 | whatever the search captures is a digit string of length at least 3 |
| `Text.ExtractOrderId` | phase-2/customer_service_agent.py:46-48 | an extracted order id is a digit string of length at least 3 |
| `Text.SearchFindsLeftmost` | phase-2/customer_service_agent.py:46 | the search returns the capture at the leftmost index where the pattern matches |
| `Text.SearchNoneIff` | phase-2/customer_service_agent.py:46-47 | the search finds nothing exactly when the pattern matches at no index |
| `Steps.LastUserTextAt` | phase-2/customer_service_agent.py:58-62 | the reversed scan returns the content of the last user message |
| `Steps.LastUserTextNone` | phase-2/customer_service_agent.py:58-62 | with no user message the text classified is "" |
| `Steps.ExtractUserInfo` | phase-2/customer_service_agent.py:44-49 | the extracted info has only the key `order_id`, present exactly when the pattern matches, and its value is a digit string of length at least 3 |
| `Steps.IntentRules` | phase-2/customer_service_agent.py:67-73 | refund exactly when the text contains `退款` or a case-insensitive `refund`; otherwise consult exactly when the text is not blank, and unknown exactly when it is blank |
| `Steps.ClassifyIntentEffect` | phase-2/customer_service_agent.py:75-89 | classification appends no message and keeps the transaction id; it sets the intent to refund, consult or unknown by the rules of `IntentOf` and the anger flag from the last user text; it resets the decision to pending exactly for a refund request while no id exists, and otherwise keeps the old decision |
| `Steps.ClassifyUserInfo` | phase-2/customer_service_agent.py:64-65 | the new user info keeps every old key and value, except that a freshly extracted order id overwrites the old one |
| `Steps.HandoffOnlyReplies` | phase-2/customer_service_agent.py:92-101 | the hand-off appends one assistant message and changes nothing else |
| `Steps.ConfirmSuspends` | phase-2/customer_service_agent.py:110-119 | the confirmation node pauses exactly when the decision is pending and no answer was given; the payload has type `confirm_refund` and carries the current order id (or none) |
| `Steps.ConfirmNotPending` | phase-2/customer_service_agent.py:110-111 | with a decision that is not pending the node returns the empty delta and never pauses, whatever the answer |
| `Steps.ConfirmResumed` | phase-2/customer_service_agent.py:121-136 | on resume a truthy answer gives approved and any other answer gives declined; exactly one assistant message is appended and no other field is set |
| `Steps.ConfirmReentrant` | phase-2/customer_service_agent.py:104-109 | when the node pauses, running it again from the start on the same state with any answer completes with a final decision |
| `Steps.RecordAnswer` | phase-2/customer_service_agent.py:122-123 | the main loop's answer `{"approved": b}` approves exactly when `b` is true |
| `Steps.IssueRefundId` | phase-2/customer_service_agent.py:139-142 | every issued refund id starts with `refund_` and is longer than that prefix |
| `Steps.IssueRefundIdNamesOrder` | phase-2/customer_service_agent.py:142 | the id embeds the order id, or `unknown` when there is none |
| `Steps.ProcessRefundGuard` | phase-2/customer_service_agent.py:145-166 | the node does nothing unless the decision is approved; it issues an id exactly when approved with no id present; with an id present it only appends one message and the id is unchanged |
| `Steps.ProcessRefundTwice` | phase-2/customer_service_agent.py:150-159 | a second run of the refund node on the first run's result issues no new id and leaves the id unchanged |
| `Steps.RefundStatusReports` | phase-2/customer_service_agent.py:169-180 | without an id the status node does nothing; with one it appends one message naming the id and changes nothing else |
| `Steps.ConsultOnlyReplies` | phase-2/customer_service_agent.py:183-192 | the consultation reply appends one assistant message and changes nothing else |
| `Graph.RouteAfterClassify` | phase-2/customer_service_agent.py:195-202 | anger goes to the hand-off whatever the intent; otherwise a refund goes to the status report when an id exists and to confirmation when none does; anything else goes to the consultation reply; every key returned is in the edge table |
| `Graph.RouteAfterConfirm` | phase-2/customer_service_agent.py:205-208 | the router returns `process_refund` exactly when the decision is approved and `end` otherwise, always a key of the edge table |
| `Graph.WiringComplete` | phase-2/customer_service_agent.py:222-242 | exactly the two router nodes lack a fixed edge; every other node has one |
| `Graph.Next` | phase-2/customer_service_agent.py:221-242 | the next step is always an edge of the wired graph and strictly lowers the distance to the end, so the graph has no cycle |
| `Graph.ClassifyNext` | phase-2/customer_service_agent.py:195-231 | after classification the run goes to the hand-off for an angry user, otherwise to the status report or the confirmation for a refund request (by whether an id exists), otherwise to the consultation reply |
| `Engine.StepKeepsTxId` | phase-2/customer_service_agent.py:84-89 | no node's delta resets the transaction id to none; a set id stays set, and a truthy id is never changed |
| `Engine.StepPreservesWf` | phase-2/customer_service_agent.py:139-166 | every node keeps the stored order id a digit string and any issued id prefixed `refund_` |
| `Engine.RunFrom` | phase-2/customer_service_agent.py:221-242 | a run from node n visits a path of the graph starting at n, at most rank(n)+1 nodes long; it only appends messages, and it can pause only in `confirm_refund`, with a pending decision and a confirmation payload for the paused state |
| `Engine.RunFromWf` | phase-2/customer_service_agent.py:44-49 | a whole run keeps the state well-formed |
| `Engine.RunFromKeepsTxId` | phase-2/customer_service_agent.py:151-166 | a whole run never clears the transaction id and never changes a truthy one |
| `Engine.InvokeBounded` | phase-2/customer_service_agent.py:221-237 | every turn starts at `classify_intent` and ends or pauses within three nodes, along edges of the graph |
| `Engine.ClassifiedFields` | phase-2/customer_service_agent.py:56-89 | after a new user message is classified: the anger flag and the intent (refund, consult or unknown) follow from that message's text; the decision becomes pending for a refund request while no id exists and is otherwise kept; the order id is the one the text names, or the old one when it names none; the transaction id is unchanged |
| `Engine.InvokeUnfold` | phase-2/customer_service_agent.py:221-231 | a turn is classification followed by the run from the node the router picks |
| `Engine.RunTerminal` | phase-2/customer_service_agent.py:239-242 | from a node whose only edge goes to the end, the run is that one node and ends |
| `Engine.InvokeRoutes` | phase-2/customer_service_agent.py:195-202 | a turn goes by the user's text: anger leads to the hand-off; a refund request leads to the status report if an id exists, and otherwise pauses for confirmation with the order id in the payload; anything else gets the consultation reply; no turn reaches `process_refund` without a confirmation |
| `Engine.ResumeOutcome` | phase-2/customer_service_agent.py:119-136 | a resumed run always ends; a truthy answer approves and issues an id from the order id and token unless one exists; any other answer declines and leaves the id unchanged; `process_refund` is visited exactly when the answer approves |
| `Engine.ExchangeFinishes` | phase-2/customer_service_agent.py:272-283 | the main loop's resume-while-paused loop ends after at most one answer |
| `Engine.ExchangeInvariants` | phase-2/customer_service_agent.py:269-285 | one turn keeps the state well-formed, only appends messages, and never clears or changes a truthy transaction id |
| `Engine.ConverseInvariants` | phase-2/customer_service_agent.py:264-285 | across a whole conversation the state stays well-formed, the log only grows, and an issued transaction id is never cleared or replaced |
| `Engine.RefundAfterIssueReportsStatus` | phase-2/customer_service_agent.py:199-200 | once a conversation has issued an id, a later calm refund request goes to the status report and is not confirmed again |
| `Scenarios.AsciiIsCalm` | phase-2/customer_service_agent.py:52-53 | a text of ASCII characters contains none of the anger words |
| `Scenarios.RefundRequestAsksRefund` | phase-2/customer_service_agent.py:67-68 | "I want a refund, order 12345" is a refund request |
| `Scenarios.ScenarioTextsCalm` | phase-2/customer_service_agent.py:75 | neither "I want a refund, order 12345" nor "what's my refund status" raises the anger flag |
| `Scenarios.RefundRequestOrderId` | phase-2/customer_service_agent.py:44-49 | the order id extracted from "I want a refund, order 12345" is "12345" |
| `Scenarios.RefundRequestPauses` | phase-2/customer_service_agent.py:113-119 | a new conversation with that request pauses in `confirm_refund`, with payload type `confirm_refund` and order id "12345" |
| `Scenarios.DeclinedRefund` | phase-2/customer_service_agent.py:127-131 | answering no ends the run declined, and no refund id is issued |
| `Scenarios.ApprovedRefund` | phase-2/customer_service_agent.py:133-166 | answering yes ends the run approved, having issued `refund_12345_` followed by the token |
| `Scenarios.ApprovedPause` | phase-2/customer_service_agent.py:161-166 | approving a pause for order 12345 with no id issues `refund_12345_` followed by the token |
| `Scenarios.StatusQuestionAsksRefund` | phase-2/customer_service_agent.py:67-69 | "what's my refund status" is classified as a refund request |
| `Scenarios.StatusQuestion` | phase-2/customer_service_agent.py:169-180 | "what's my refund status" in a conversation holding an id goes straight to the status report and keeps the id |
| `Scenarios.AngryRefundRequest` | phase-2/customer_service_agent.py:32-41 | a refund request containing an anger word is handed to a human |

## Left out

- The graph library itself is not modelled: graph compilation, the in-memory
  checkpointer, thread ids and checkpoint bookkeeping. The state a paused run
  carries (`Engine.Outcome.Suspended`) stands in for the saved checkpoint.
- `add_messages` is modelled as a plain append. It also converts dicts into
  message objects and gives each message an id; messages that share an id
  would replace one another. Every message here gets a fresh id, so it only
  appends.
- The randomness of `uuid.uuid4()` is not modelled. The eight hex digits are
  the `token` parameter; the model only states the id's shape.
- `Text.Lower`: lower-cases ASCII letters only, not Unicode `str.lower()`. The
  IGNORECASE match of `order` is modelled the same way.
- The general regex engine is not modelled. Only the one order-number pattern
  is written out: keyword, greedy non-digits, at least three digits.
- The `main` loop's terminal I/O and `_render_ai_messages`' printing are not
  modelled. So is the parsing of the operator's yes/no (`raw in ("y", "yes", …)`,
  lines 277-278). `Engine.Exchange` takes the answer as a value.
- The fallback branch of the main loop (lines 280-283) resumes with raw text for
  a payload of another type. It is not modelled separately: every pause the
  graph produces has the `confirm_refund` payload (`Engine.ValidSuspension`).
- A new user message sent while a run is paused is not modelled. The main loop
  always resumes first.
- Re-running a paused node with the same state and answer gives the same delta.
  No separate lemma states this: every node is a Dafny function, so it holds by
  construction.
- Python objects passed as the resume value are abstracted to their truthiness.
  A dict is abstracted by the truthiness of its `"approved"` entry.
- Message content that is not a string (lists of content parts) is not
  modelled.
- `phrase-1/simple_agent.py` is not part of this model. It is a chat-completion
  loop over the network; its only local logic is a multiplication.
