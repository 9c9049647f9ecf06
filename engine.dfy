/** The driver that runs the graph: from a node, run the step, merge its delta,
    route, and stop at the end or when a step pauses. A paused run is continued
    by running the paused node again from the start with the operator's answer. */
module Engine {
  import opened Wrappers
  import opened CsState
  import opened Graph
  import Steps
  import Text

  /** How a run stops: at the end, or paused in node `at` with a payload for the
      operator. `trace` lists the nodes whose deltas were merged, in order. */
  datatype Outcome =
    | Finished(state: State, trace: seq<Node>)
    | Suspended(state: State, at: Node, prompt: Steps.Prompt, trace: seq<Node>)

  /** Every node the run entered, the paused one included. */
  function Visited(o: Outcome): seq<Node>
  {
    if o.Suspended? then o.trace + [o.at] else o.trace
  }

  /** Consecutive nodes are joined by an edge of the graph. */
  predicate IsPath(p: seq<Node>)
  {
    forall i :: 0 <= i < |p| - 1 ==> Goto(p[i + 1]) in Successors(p[i])
  }

  /** A pause the graph can produce: in the confirmation node, with the decision
      pending and the confirmation payload for the paused state. */
  predicate ValidSuspension(o: Outcome)
  {
    o.Suspended? ==>
      && o.at == ConfirmRefund
      && o.state.decision == Pending
      && o.prompt == Steps.Prompt(Steps.ConfirmKind, Steps.ConfirmQuestion, Steps.Lookup(o.state.userInfo, OrderIdKey))
  }

  /** The node table: the function registered for each node. Only the
      confirmation node sees the resume value; only the refund node uses the
      random token. */
  function RunStep(n: Node, s: State, resume: Option<Steps.ResumeValue>, token: string): Steps.StepResult
  {
    match n
    case ClassifyIntent => Steps.Update(Steps.ClassifyIntent(s))
    case HumanHandoff => Steps.Update(Steps.HumanHandoff(s))
    case ConfirmRefund => Steps.ConfirmRefund(s, resume)
    case ProcessRefund => Steps.Update(Steps.ProcessRefund(s, token))
    case RefundStatus => Steps.Update(Steps.RefundStatus(s))
    case AnswerConsult => Steps.Update(Steps.AnswerConsult(s))
  }

  /** No node resets the transaction id; once truthy it is never changed. */
  lemma StepKeepsTxId(n: Node, s: State, resume: Option<Steps.ResumeValue>, token: string)
    requires RunStep(n, s, resume, token).Update?
    ensures RunStep(n, s, resume, token).delta.txId != Some(None)
    ensures s.txId.Some? ==> Apply(s, RunStep(n, s, resume, token).delta).txId.Some?
    ensures HasTxId(s) ==> Apply(s, RunStep(n, s, resume, token).delta).txId == s.txId
  {
    if n == ProcessRefund {
      Steps.ProcessRefundGuard(s, token);
    }
  }

  /** Every node keeps the state well-formed. */
  lemma StepPreservesWf(n: Node, s: State, resume: Option<Steps.ResumeValue>, token: string)
    requires Wf(s) && RunStep(n, s, resume, token).Update?
    ensures Wf(Apply(s, RunStep(n, s, resume, token).delta))
  {
    if n == ClassifyIntent {
      var t := Apply(s, Steps.ClassifyIntent(s));
      var found := Steps.ExtractUserInfo(Steps.LastUserText(s.messages));
      assert t.userInfo == s.userInfo + found;
      if OrderIdKey in found {
        assert t.userInfo[OrderIdKey] == found[OrderIdKey];
      }
    }
  }

  /** Only the confirmation node pauses, with the decision pending and the
      confirmation prompt for the stored order number. */
  lemma StepSuspends(n: Node, s: State, resume: Option<Steps.ResumeValue>, token: string)
    requires RunStep(n, s, resume, token).Suspend?
    ensures n == ConfirmRefund && s.decision == Pending
    ensures RunStep(n, s, resume, token).prompt ==
              Steps.Prompt(Steps.ConfirmKind, Steps.ConfirmQuestion, Steps.Lookup(s.userInfo, OrderIdKey))
  {
  }

  function Prepend(n: Node, o: Outcome): Outcome
  {
    o.(trace := [n] + o.trace)
  }

  /** Putting a node in front of a run that starts at one of its successors
      keeps the visited nodes a path. */
  lemma PrependPath(n: Node, o: Outcome)
    requires 1 <= |Visited(o)| && IsPath(Visited(o)) && Goto(Visited(o)[0]) in Successors(n)
    ensures Visited(Prepend(n, o)) == [n] + Visited(o)
    ensures IsPath(Visited(Prepend(n, o)))
  {
    var p := Visited(o);
    var q := Visited(Prepend(n, o));
    assert q == [n] + p;
    forall i | 0 <= i < |q| - 1
      ensures Goto(q[i + 1]) in Successors(q[i])
    {
      if i > 0 {
        assert q[i] == p[i - 1] && q[i + 1] == p[i];
      }
    }
  }

  /** Run the graph from node `n`. The run visits a path of the graph starting at
      `n`, at most `Rank(n) + 1` nodes long, only ever appends messages, and can
      pause only in the confirmation node with the decision pending. */
  function RunFrom(s: State, n: Node, resume: Option<Steps.ResumeValue>, token: string): (o: Outcome)
    ensures 1 <= |Visited(o)| <= Rank(n) + 1
    ensures Visited(o)[0] == n && IsPath(Visited(o))
    ensures ValidSuspension(o)
    ensures s.messages <= o.state.messages
    decreases Rank(n)
  {
    match RunStep(n, s, resume, token)
    case Suspend(p) =>
      StepSuspends(n, s, resume, token);
      Suspended(s, n, p, [])
    case Update(d) =>
      var t := Apply(s, d);
      match Next(n, t)
      case End => Finished(t, [n])
      case Goto(m) =>
        var r := RunFrom(t, m, None, token);
        PrependPath(n, r);
        Prepend(n, r)
  }

  /** A run keeps the state well-formed. */
  lemma {:induction false} RunFromWf(s: State, n: Node, resume: Option<Steps.ResumeValue>, token: string)
    requires Wf(s)
    ensures Wf(RunFrom(s, n, resume, token).state)
    decreases Rank(n)
  {
    if RunStep(n, s, resume, token).Update? {
      var t := Apply(s, RunStep(n, s, resume, token).delta);
      StepPreservesWf(n, s, resume, token);
      if Next(n, t).Goto? {
        RunFromWf(t, Next(n, t).node, None, token);
      }
    }
  }

  /** A run never clears the transaction id, and never changes a truthy one. */
  lemma {:induction false} RunFromKeepsTxId(s: State, n: Node, resume: Option<Steps.ResumeValue>, token: string)
    ensures s.txId.Some? ==> RunFrom(s, n, resume, token).state.txId.Some?
    ensures HasTxId(s) ==> RunFrom(s, n, resume, token).state.txId == s.txId
    decreases Rank(n)
  {
    if RunStep(n, s, resume, token).Update? {
      var t := Apply(s, RunStep(n, s, resume, token).delta);
      StepKeepsTxId(n, s, resume, token);
      if Next(n, t).Goto? {
        RunFromKeepsTxId(t, Next(n, t).node, None, token);
      }
    }
  }

  /** The input of a new turn: one user message. */
  function UserSays(text: string): Delta
  {
    Say([Message(User, text)])
  }

  /** A new turn: append the user's message and run from the entry point. */
  function Invoke(s: State, text: string, token: string): Outcome
  {
    RunFrom(Apply(s, UserSays(text)), Entry, None, token)
  }

  /** Continue a paused run: the paused node runs again from the start, this time
      with the answer in place of the pause. */
  function Resume(o: Outcome, answer: Steps.ResumeValue, token: string): Outcome
    requires o.Suspended?
  {
    RunFrom(o.state, o.at, Some(answer), token)
  }

  /** Every turn reaches the end or a pause within three nodes, starting with
      classification. */
  lemma InvokeBounded(s: State, text: string, token: string)
    ensures var o := Invoke(s, text, token);
            1 <= |Visited(o)| <= 3 && Visited(o)[0] == ClassifyIntent && IsPath(Visited(o))
  {
  }

  /** The state a turn hands to the router: the user's message appended, then
      the classification merged. */
  function Classified(s: State, text: string): State
  {
    var s0 := Apply(s, UserSays(text));
    Apply(s0, Steps.ClassifyIntent(s0))
  }

  /** What classification of a fresh user message leaves in the state. */
  lemma ClassifiedFields(s: State, text: string)
    requires Wf(s)
    ensures var t := Classified(s, text);
            && t.needsHuman == Text.IsAngry(text)
            && (t.intent == Refund <==> Steps.AsksRefund(text))
            && t.intent == Steps.IntentOf(text)
            && t.txId == s.txId
            && HasTxId(t) == HasTxId(s)
            && t.decision == (if Steps.AsksRefund(text) && s.txId.None? then Pending else s.decision)
            && (Steps.AsksRefund(text) && !HasTxId(s) ==> t.decision == Pending)
            && (Text.ExtractOrderId(text).Some? ==> Steps.Lookup(t.userInfo, OrderIdKey) == Text.ExtractOrderId(text))
            && (Text.ExtractOrderId(text).None? ==> Steps.Lookup(t.userInfo, OrderIdKey) == Steps.Lookup(s.userInfo, OrderIdKey))
  {
    var s0 := Apply(s, UserSays(text));
    assert Steps.LastUserText(s0.messages) == text;
    Steps.ClassifyIntentEffect(s0);
    Steps.ClassifyUserInfo(s0);
  }

  /** The part of `ClassifiedFields` the router looks at. */
  lemma ClassifiedForRouting(s: State, text: string)
    requires Wf(s)
    ensures var t := Classified(s, text);
            && t.needsHuman == Text.IsAngry(text)
            && (t.intent == Refund <==> Steps.AsksRefund(text))
            && t.txId == s.txId
            && HasTxId(t) == HasTxId(s)
            && (Steps.AsksRefund(text) && !HasTxId(s) ==> t.decision == Pending)
            && (Text.ExtractOrderId(text).Some? ==> Steps.Lookup(t.userInfo, OrderIdKey) == Text.ExtractOrderId(text))
  {
    ClassifiedFields(s, text);
  }

  /** A turn is classification followed by the run from the routed node. */
  lemma InvokeUnfold(s: State, text: string, token: string)
    ensures Next(ClassifyIntent, Classified(s, text)).Goto?
    ensures Invoke(s, text, token) ==
              Prepend(ClassifyIntent, RunFrom(Classified(s, text), Next(ClassifyIntent, Classified(s, text)).node, None, token))
  {
  }

  /** The node the router picks after classifying `text`, given whether an id exists. */
  function RouteOf(text: string, hasId: bool): Node
  {
    if Text.IsAngry(text) then HumanHandoff
    else if Steps.AsksRefund(text) then (if hasId then RefundStatus else ConfirmRefund)
    else AnswerConsult
  }

  /** After classification the router picks `RouteOf` of the text. */
  lemma ClassifiedRoute(s: State, text: string)
    requires Wf(s)
    ensures Next(ClassifyIntent, Classified(s, text)) == Goto(RouteOf(text, HasTxId(s)))
  {
    ClassifiedForRouting(s, text);
    ClassifyNext(Classified(s, text));
  }

  /** A turn routed to the confirmation pauses there at once. */
  lemma InvokeConfirms(s: State, text: string, token: string)
    requires Wf(s) && RouteOf(text, HasTxId(s)) == ConfirmRefund
    ensures var t := Classified(s, text);
            && t.decision == Pending
            && Invoke(s, text, token) == Suspended(t, ConfirmRefund, Steps.ConfirmRefund(t, None).prompt, [ClassifyIntent])
            && Steps.ConfirmRefund(t, None).prompt.orderId == Steps.Lookup(t.userInfo, OrderIdKey)
  {
    var t := Classified(s, text);
    ClassifiedForRouting(s, text);
    ClassifiedRoute(s, text);
    InvokeUnfold(s, text, token);
    assert RunFrom(t, ConfirmRefund, None, token) == Suspended(t, ConfirmRefund, Steps.ConfirmRefund(t, None).prompt, []);
  }

  /** From a node whose only edge is to the end, the run is that one node. */
  lemma RunTerminal(t: State, n: Node, token: string)
    requires n in FixedEdges
    ensures RunFrom(t, n, None, token).Finished?
    ensures RunFrom(t, n, None, token).trace == [n]
    ensures HasTxId(t) ==> RunFrom(t, n, None, token).state.txId == t.txId
  {
    var d := RunStep(n, t, None, token);
    assert d.Update?;
    assert Next(n, Apply(t, d.delta)) == End;
    RunFromKeepsTxId(t, n, None, token);
  }

  /** A turn routed to a node other than the confirmation is that node's reply. */
  lemma InvokeTerminal(s: State, text: string, token: string)
    requires Wf(s) && RouteOf(text, HasTxId(s)) != ConfirmRefund
    ensures var o := Invoke(s, text, token);
            && o.Finished? && o.trace == [ClassifyIntent, RouteOf(text, HasTxId(s))]
            && (HasTxId(s) ==> o.state.txId == s.txId)
  {
    var t := Classified(s, text);
    ClassifiedForRouting(s, text);
    ClassifiedRoute(s, text);
    InvokeUnfold(s, text, token);
    RunTerminal(t, RouteOf(text, HasTxId(s)), token);
  }

  /** Where a turn goes, decided by the user's text: anger hands off whatever the
      intent; a refund request reports the status when an id exists and pauses
      for confirmation otherwise, with the order number in the payload; anything
      else is answered as a consultation. No turn reaches the refund node before
      a confirmation. */
  lemma InvokeRoutes(s: State, text: string, token: string)
    requires Wf(s)
    ensures var o := Invoke(s, text, token);
            && (Text.IsAngry(text) ==>
                  o.Finished? && o.trace == [ClassifyIntent, HumanHandoff])
            && (!Text.IsAngry(text) && !Steps.AsksRefund(text) ==>
                  o.Finished? && o.trace == [ClassifyIntent, AnswerConsult])
            && (!Text.IsAngry(text) && Steps.AsksRefund(text) && HasTxId(s) ==>
                  o.Finished? && o.trace == [ClassifyIntent, RefundStatus] && o.state.txId == s.txId)
            && (!Text.IsAngry(text) && Steps.AsksRefund(text) && !HasTxId(s) ==>
                  && o.Suspended? && o.trace == [ClassifyIntent] && o.at == ConfirmRefund
                  && o.state.decision == Pending
                  && (Text.ExtractOrderId(text).Some? ==> o.prompt.orderId == Text.ExtractOrderId(text)))
            && ProcessRefund !in Visited(o)
  {
    ClassifiedForRouting(s, text);
    if RouteOf(text, HasTxId(s)) == ConfirmRefund {
      InvokeConfirms(s, text, token);
    } else {
      InvokeTerminal(s, text, token);
    }
  }

  /** A resumed run always finishes: a truthy answer approves and goes on to the
      refund node, which issues an id unless one exists; any other answer
      declines and ends. */
  lemma ResumeOutcome(o: Outcome, answer: Steps.ResumeValue, token: string)
    requires o.Suspended? && ValidSuspension(o)
    ensures var r := Resume(o, answer, token);
            && r.Finished?
            && r.trace == (if Steps.Approves(answer) then [ConfirmRefund, ProcessRefund] else [ConfirmRefund])
            && r.state.decision == (if Steps.Approves(answer) then Approved else Declined)
            && r.state.userInfo == o.state.userInfo
            && (Steps.Approves(answer) && !HasTxId(o.state) ==>
                  r.state.txId == Some(Steps.IssueRefundId(Steps.Lookup(o.state.userInfo, OrderIdKey), token)))
            && (!Steps.Approves(answer) || HasTxId(o.state) ==> r.state.txId == o.state.txId)
  {
    Steps.ConfirmResumed(o.state, answer);
  }

  /** One turn of the conversation loop: a new message, and if the run pauses,
      the operator's answer. */
  datatype Turn = Turn(text: string, answer: Steps.ResumeValue, token: string)

  function Exchange(s: State, turn: Turn): Outcome
  {
    var o := Invoke(s, turn.text, turn.token);
    if o.Suspended? then Resume(o, turn.answer, turn.token) else o
  }

  /** The loop that resumes while the run is paused stops after at most one answer. */
  lemma ExchangeFinishes(s: State, turn: Turn)
    ensures Exchange(s, turn).Finished?
  {
    var o := Invoke(s, turn.text, turn.token);
    if o.Suspended? {
      ResumeOutcome(o, turn.answer, turn.token);
    }
  }

  /** A whole conversation: the turns, one after another, on the persisted state. */
  function Converse(s: State, turns: seq<Turn>): State
    decreases |turns|
  {
    if turns == [] then s else Converse(Exchange(s, turns[0]).state, turns[1..])
  }

  /** One turn keeps the state well-formed and never clears or changes a truthy
      transaction id. */
  lemma ExchangeInvariants(s: State, turn: Turn)
    ensures Wf(s) ==> Wf(Exchange(s, turn).state)
    ensures s.txId.Some? ==> Exchange(s, turn).state.txId.Some?
    ensures HasTxId(s) ==> Exchange(s, turn).state.txId == s.txId
    ensures s.messages <= Exchange(s, turn).state.messages
  {
    var s0 := Apply(s, UserSays(turn.text));
    var o := Invoke(s, turn.text, turn.token);
    RunFromKeepsTxId(s0, Entry, None, turn.token);
    if Wf(s) {
      RunFromWf(s0, Entry, None, turn.token);
    }
    if o.Suspended? {
      RunFromKeepsTxId(o.state, o.at, Some(turn.answer), turn.token);
      if Wf(o.state) {
        RunFromWf(o.state, o.at, Some(turn.answer), turn.token);
      }
    }
  }

  /** Over a whole conversation the state stays well-formed, the message log only
      grows, and a transaction id, once issued, is never cleared or replaced. */
  lemma {:induction false} ConverseInvariants(s: State, turns: seq<Turn>)
    ensures Wf(s) ==> Wf(Converse(s, turns))
    ensures s.txId.Some? ==> Converse(s, turns).txId.Some?
    ensures HasTxId(s) ==> Converse(s, turns).txId == s.txId
    ensures s.messages <= Converse(s, turns).messages
    decreases |turns|
  {
    if turns != [] {
      ExchangeInvariants(s, turns[0]);
      ConverseInvariants(Exchange(s, turns[0]).state, turns[1..]);
    }
  }

  /** After any conversation from the initial state, every later refund request
      that is not angry reports the status instead of asking again, once an id
      has been issued. */
  lemma RefundAfterIssueReportsStatus(turns: seq<Turn>, text: string, token: string)
    requires HasTxId(Converse(Initial, turns))
    requires Steps.AsksRefund(text) && !Text.IsAngry(text)
    ensures Invoke(Converse(Initial, turns), text, token).trace == [ClassifyIntent, RefundStatus]
  {
    ConverseInvariants(Initial, turns);
    InvokeRoutes(Converse(Initial, turns), text, token);
  }
}
