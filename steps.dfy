/** The six nodes of the customer-service graph. Each reads the state and returns
    a delta; the confirmation node may instead ask to suspend. */
module Steps {
  import opened Wrappers
  import opened CsState
  import Text

  // Replies the assistant appends.
  const HandoffReply: string := "我理解你的情绪。我先为你转人工客服处理（模拟）。你可以补充订单号/问题细节。"
  const DeclinedReply: string := "好的，我不会发起退款。如需继续，请告诉我你的诉求。"
  const ApprovedReply: string := "收到，我将为你发起退款（模拟）。"
  const AlreadyRefundedPrefix: string := "退款已处理过（模拟）。退款单号："
  const RefundIssuedPrefix: string := "已发起退款（模拟）。退款单号："
  const StatusPrefix: string := "你的退款已在处理中（模拟）。退款单号："
  const ConsultReply: string := "我可以帮你处理咨询类问题（示例）。如果你要退款，请直接说“我要退款”，并附上订单号。"

  // The confirmation prompt.
  const ConfirmKind: string := "confirm_refund"
  const ConfirmQuestion: string := "是否确认要发起退款？请输入 yes/no。"

  /** The payload handed to the operator when the run pauses; `orderId` is its
      `context.order_id`. */
  datatype Prompt = Prompt(kind: string, question: string, orderId: Option<string>)

  /** What a node produces: a delta, or a request to pause with a payload. */
  datatype StepResult = Update(delta: Delta) | Suspend(prompt: Prompt)

  /** The value a paused run is resumed with, abstracted by what the node looks at:
      a non-dict value by its truthiness, a string (truthy when non-empty), or a
      dict by the truthiness of its "approved" entry (`None` when the key is absent). */
  datatype ResumeValue = Scalar(truthy: bool) | Words(text: string) | Record(approved: Option<bool>)

  /** `bool(decision.get("approved"))` for a dict, `bool(decision)` otherwise. */
  predicate Approves(v: ResumeValue)
  {
    match v
    case Scalar(t) => t
    case Words(t) => t != ""
    case Record(a) => a.GetOr(false)
  }

  /** `dict.get(key)`. */
  function Lookup(info: UserInfo, key: string): Option<string>
  {
    if key in info then Some(info[key]) else None
  }

  /** The content of the last message written by the user, "" if there is none
      (the reversed scan that stops at the first user message). */
  function LastUserText(msgs: seq<Message>): string
    decreases |msgs|
  {
    if msgs == [] then ""
    else if msgs[|msgs| - 1].role == User then msgs[|msgs| - 1].content
    else LastUserText(msgs[..|msgs| - 1])
  }

  /** The scan returns the content of the last user message. */
  lemma {:induction false} LastUserTextAt(msgs: seq<Message>, i: nat)
    requires i < |msgs| && msgs[i].role == User
    requires forall j :: i < j < |msgs| ==> msgs[j].role != User
    ensures LastUserText(msgs) == msgs[i].content
    decreases |msgs|
  {
    if i < |msgs| - 1 {
      var front := msgs[..|msgs| - 1];
      assert front[i] == msgs[i];
      LastUserTextAt(front, i);
    }
  }

  /** With no user message the scan yields the empty text. */
  lemma {:induction false} LastUserTextNone(msgs: seq<Message>)
    requires forall j :: 0 <= j < |msgs| ==> msgs[j].role != User
    ensures LastUserText(msgs) == ""
    decreases |msgs|
  {
    if msgs != [] {
      LastUserTextNone(msgs[..|msgs| - 1]);
    }
  }

  /** `_extract_user_info`: the order number, if the text mentions one. */
  function ExtractUserInfo(text: string): (info: UserInfo)
    ensures info.Keys <= {OrderIdKey}
    ensures OrderIdKey in info <==> Text.ExtractOrderId(text).Some?
    ensures OrderIdKey in info ==> Text.IsOrderId(info[OrderIdKey])
  {
    match Text.ExtractOrderId(text)
    case Some(id) => map[OrderIdKey := id]
    case None => map[]
  }

  /** The text asks for a refund: it contains "退款", or "refund" in any letter case. */
  predicate AsksRefund(text: string)
  {
    Text.Contains(text, "退款") || Text.Contains(Text.Lower(text), "refund")
  }

  /** The intent of a text, decided in the order refund, consult, unknown. */
  function IntentOf(text: string): Intent
  {
    if AsksRefund(text) then Refund
    else if Text.Strip(text) != "" then Consult
    else Unknown
  }

  /** The three intents partition texts: refund wins, then non-blank means consult. */
  lemma IntentRules(text: string)
    ensures IntentOf(text) == Refund <==> AsksRefund(text)
    ensures IntentOf(text) == Consult <==> !AsksRefund(text) && !Text.IsBlank(text)
    ensures IntentOf(text) == Unknown <==> !AsksRefund(text) && Text.IsBlank(text)
  {
    Text.StripEmptyIffBlank(text);
  }

  /** Node A: intent, anger flag and order number from the last user message. */
  function ClassifyIntent(s: State): Delta
  {
    var text := LastUserText(s.messages);
    var intent := IntentOf(text);
    var decision := if intent == Refund && s.txId.None? then Pending else s.decision;
    Delta([], Some(s.userInfo + ExtractUserInfo(text)), Some(intent),
      Some(Text.IsAngry(text)), Some(decision), None)
  }

  /** Classification appends no message and leaves the transaction id alone. It
      sets the intent and the anger flag from the last user text, and resets the
      decision to pending only for a refund request made before any id exists. */
  lemma ClassifyIntentEffect(s: State)
    ensures var text := LastUserText(s.messages);
            var t := Apply(s, ClassifyIntent(s));
            && t.messages == s.messages
            && t.txId == s.txId
            && (t.intent == Refund <==> AsksRefund(text))
            && t.intent == IntentOf(text)
            && t.needsHuman == Text.IsAngry(text)
            && t.decision == (if AsksRefund(text) && s.txId.None? then Pending else s.decision)
  {
    IntentRules(LastUserText(s.messages));
  }

  /** The merged user info keeps every old key; a freshly extracted order number
      overwrites an old one, otherwise the old value stays. */
  lemma ClassifyUserInfo(s: State)
    ensures var found := Text.ExtractOrderId(LastUserText(s.messages));
            var info := Apply(s, ClassifyIntent(s)).userInfo;
            && info.Keys == s.userInfo.Keys + (if found.Some? then {OrderIdKey} else {})
            && (forall k :: k in s.userInfo && k != OrderIdKey ==> info[k] == s.userInfo[k])
            && (found.Some? ==> info[OrderIdKey] == found.value)
            && (found.None? && OrderIdKey in s.userInfo ==> info[OrderIdKey] == s.userInfo[OrderIdKey])
  {
  }

  /** Node C: the hand-off to a human, announced in one assistant message. */
  function HumanHandoff(s: State): Delta
  {
    Say([Message(Assistant, HandoffReply)])
  }

  /** The hand-off appends one assistant message and changes no other field. */
  lemma HandoffOnlyReplies(s: State)
    ensures var t := Apply(s, HumanHandoff(s));
            t.messages == s.messages + [Message(Assistant, HandoffReply)] && t.(messages := s.messages) == s
  {
  }

  /** The confirmation node. A run that reaches it without a resume value pauses;
      the resumed run calls it again from the start with the operator's answer. */
  function ConfirmRefund(s: State, resume: Option<ResumeValue>): StepResult
  {
    if s.decision != Pending then Update(NoChange)
    else
      match resume
      case None => Suspend(Prompt(ConfirmKind, ConfirmQuestion, Lookup(s.userInfo, OrderIdKey)))
      case Some(v) =>
        if Approves(v) then
          Update(Delta([Message(Assistant, ApprovedReply)], None, None, None, Some(Approved), None))
        else
          Update(Delta([Message(Assistant, DeclinedReply)], None, None, None, Some(Declined), None))
  }

  /** The confirmation node pauses exactly when the decision is pending and no
      answer has been supplied; its payload carries the current order number. */
  lemma ConfirmSuspends(s: State, resume: Option<ResumeValue>)
    ensures ConfirmRefund(s, resume).Suspend? <==> s.decision == Pending && resume.None?
    ensures ConfirmRefund(s, resume).Suspend? ==>
              var p := ConfirmRefund(s, resume).prompt;
              && p.kind == "confirm_refund"
              && (p.orderId.Some? <==> OrderIdKey in s.userInfo)
              && (p.orderId.Some? ==> p.orderId.value == s.userInfo[OrderIdKey])
  {
  }

  /** A decision that is no longer pending makes the node a no-op. */
  lemma ConfirmNotPending(s: State, resume: Option<ResumeValue>)
    requires s.decision != Pending
    ensures ConfirmRefund(s, resume) == Update(NoChange)
  {
  }

  /** The answer decides the outcome: approved exactly for a truthy answer,
      declined otherwise, with exactly one assistant message and no other field. */
  lemma ConfirmResumed(s: State, v: ResumeValue)
    requires s.decision == Pending
    ensures var r := ConfirmRefund(s, Some(v));
            && r.Update?
            && r.delta.decision == Some(if Approves(v) then Approved else Declined)
            && |r.delta.messages| == 1 && r.delta.messages[0].role == Assistant
            && r.delta.userInfo.None? && r.delta.intent.None? && r.delta.needsHuman.None?
            && r.delta.txId.None?
  {
  }

  /** Whenever the node pauses, re-running it from the start on the same state
      with any answer completes: a resumed run never pauses a second time. */
  lemma ConfirmReentrant(s: State, v: ResumeValue)
    requires ConfirmRefund(s, None).Suspend?
    ensures ConfirmRefund(s, Some(v)).Update?
    ensures ConfirmRefund(s, Some(v)).delta.decision.Some?
    ensures ConfirmRefund(s, Some(v)).delta.decision.value != Pending
  {
  }

  /** The answer of a main-loop confirmation `{"approved": b}` approves exactly when `b`. */
  lemma RecordAnswer(b: bool)
    ensures Approves(Record(Some(b))) == b
  {
  }

  /** `_issue_refund_tool`: the refund id for an order; `token` stands for the
      eight random hex digits the source draws from a UUID. */
  function IssueRefundId(orderId: Option<string>, token: string): (id: string)
    ensures IsRefundId(id)
  {
    var order := if orderId.Some? && orderId.value != "" then orderId.value else "unknown";
    "refund_" + order + "_" + token
  }

  /** An issued id names the order it was issued for, or "unknown". */
  lemma IssueRefundIdNamesOrder(order: string, token: string)
    requires order != ""
    ensures IssueRefundId(Some(order), token)[7..7 + |order|] == order
    ensures IssueRefundId(None, token)[7..14] == "unknown"
  {
  }

  /** Node B: issue the refund once it is approved, guarded against issuing twice. */
  function ProcessRefund(s: State, token: string): Delta
  {
    if s.decision != Approved then NoChange
    else if HasTxId(s) then Say([Message(Assistant, AlreadyRefundedPrefix + s.txId.value)])
    else
      var id := IssueRefundId(Lookup(s.userInfo, OrderIdKey), token);
      Delta([Message(Assistant, RefundIssuedPrefix + id)], None, None, None, None, Some(Some(id)))
  }

  /** The idempotency guard: nothing happens unless approved; an id is issued
      exactly when approved with no id present, and an existing id is only
      reported in one message, never replaced. */
  lemma ProcessRefundGuard(s: State, token: string)
    ensures s.decision != Approved ==> ProcessRefund(s, token) == NoChange
    ensures ProcessRefund(s, token).txId.Some? <==> s.decision == Approved && !HasTxId(s)
    ensures ProcessRefund(s, token).txId.Some? ==>
              ProcessRefund(s, token).txId.value.Some? && IsRefundId(ProcessRefund(s, token).txId.value.value)
    ensures s.decision == Approved && HasTxId(s) ==>
              Apply(s, ProcessRefund(s, token)) == s.(messages := s.messages + ProcessRefund(s, token).messages)
              && |ProcessRefund(s, token).messages| == 1
  {
  }

  /** Running the refund node a second time on its own result issues nothing new:
      the transaction id after the second run is the one after the first. */
  lemma ProcessRefundTwice(s: State, token1: string, token2: string)
    ensures var s1 := Apply(s, ProcessRefund(s, token1));
            && ProcessRefund(s1, token2).txId.None?
            && Apply(s1, ProcessRefund(s1, token2)).txId == s1.txId
  {
    var s1 := Apply(s, ProcessRefund(s, token1));
    if s.decision == Approved && !HasTxId(s) {
      assert IsRefundId(s1.txId.value);
    }
  }

  /** Status report: the existing transaction id, or nothing when there is none. */
  function RefundStatus(s: State): Delta
  {
    if !HasTxId(s) then NoChange
    else Say([Message(Assistant, StatusPrefix + s.txId.value)])
  }

  /** The status node reports the id in one assistant message and changes nothing else. */
  lemma RefundStatusReports(s: State)
    ensures !HasTxId(s) ==> RefundStatus(s) == NoChange
    ensures HasTxId(s) ==>
              Apply(s, RefundStatus(s)) == s.(messages := s.messages + [Message(Assistant, StatusPrefix + s.txId.value)])
  {
  }

  /** The non-refund path: a fixed reply. */
  function AnswerConsult(s: State): Delta
  {
    Say([Message(Assistant, ConsultReply)])
  }

  /** The consultation reply appends one assistant message and changes no other field. */
  lemma ConsultOnlyReplies(s: State)
    ensures var t := Apply(s, AnswerConsult(s));
            t.messages == s.messages + [Message(Assistant, ConsultReply)] && t.(messages := s.messages) == s
  {
  }
}
