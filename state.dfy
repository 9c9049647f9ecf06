/** The conversation state `CustomerServiceState` and the way a step's partial
    update (its delta) is merged into it. */
module CsState {
  import opened Wrappers
  import Text

  /** The author of a message. `User` stands for the message types "human" and "user". */
  datatype Role = User | Assistant | System | Tool

  datatype Message = Message(role: Role, content: string)

  datatype Intent = Refund | Consult | Unknown

  datatype Decision = Pending | Approved | Declined

  /** Information extracted from the user; the only key ever written is `OrderIdKey`. */
  type UserInfo = map<string, string>

  const OrderIdKey: string := "order_id"

  /** The record every step reads. `txId` is `refund_transaction_id`. */
  datatype State = State(
    messages: seq<Message>,
    userInfo: UserInfo,
    intent: Intent,
    needsHuman: bool,
    decision: Decision,
    txId: Option<string>)

  /** The field defaults a new conversation starts from. */
  const Initial: State := State([], map[], Unknown, false, Pending, None)

  /** A step's return value: the messages to append and, for every other field,
      the new value if the step sets it. `txId == Some(None)` would reset the
      transaction id to `None`. */
  datatype Delta = Delta(
    messages: seq<Message>,
    userInfo: Option<UserInfo>,
    intent: Option<Intent>,
    needsHuman: Option<bool>,
    decision: Option<Decision>,
    txId: Option<Option<string>>)

  /** The empty dict `{}`. */
  const NoChange: Delta := Delta([], None, None, None, None, None)

  /** A delta that only appends messages. */
  function Say(msgs: seq<Message>): Delta
  {
    Delta(msgs, None, None, None, None, None)
  }

  /** The merge rule: `messages` is appended to, every other field present in
      the delta overwrites the old value, absent fields keep theirs. */
  function Apply(s: State, d: Delta): (t: State)
    ensures s.messages <= t.messages
  {
    State(
      s.messages + d.messages,
      d.userInfo.GetOr(s.userInfo),
      d.intent.GetOr(s.intent),
      d.needsHuman.GetOr(s.needsHuman),
      d.decision.GetOr(s.decision),
      d.txId.GetOr(s.txId))
  }

  /** Merging the empty delta changes nothing. */
  lemma ApplyNoChange(s: State)
    ensures Apply(s, NoChange) == s
  {
  }

  /** Python truthiness of `refund_transaction_id`: present and non-empty. */
  predicate HasTxId(s: State)
  {
    s.txId.Some? && s.txId.value != ""
  }

  /** The shape of an issued refund id. */
  predicate IsRefundId(id: string)
  {
    |id| > 7 && id[..7] == "refund_"
  }

  /** What every reachable state satisfies: an issued id has the issued shape,
      and a stored order number is one the pattern can capture. */
  predicate Wf(s: State)
  {
    && (s.txId.Some? ==> IsRefundId(s.txId.value))
    && (OrderIdKey in s.userInfo ==> Text.IsOrderId(s.userInfo[OrderIdKey]))
  }

  /** In a well-formed state the two ways the source tests for a transaction id
      (`is None` and truthiness) agree. */
  lemma WfTxIdTests(s: State)
    requires Wf(s)
    ensures HasTxId(s) <==> s.txId.Some?
  {
  }

  /** The conversation starts well-formed. */
  lemma InitialWf()
    ensures Wf(Initial)
  {
  }
}
