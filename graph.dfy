/** The fixed wiring of the graph: nodes, the two routers with their
    conditional-edge tables, and the plain edges to the end. */
module Graph {
  import opened CsState

  datatype Node = ClassifyIntent | HumanHandoff | ConfirmRefund | ProcessRefund | RefundStatus | AnswerConsult

  /** Where an edge leads: another node or the end of the run. */
  datatype Target = Goto(node: Node) | End

  /** The entry point. */
  const Entry: Node := ClassifyIntent

  /** The route keys after classification and the nodes they lead to. */
  const ClassifyEdges: map<string, Target> := map[
    "human_handoff" := Goto(HumanHandoff),
    "confirm_refund" := Goto(ConfirmRefund),
    "refund_status" := Goto(RefundStatus),
    "answer_consult" := Goto(AnswerConsult)]

  /** The route keys after confirmation. */
  const ConfirmEdges: map<string, Target> := map[
    "process_refund" := Goto(ProcessRefund),
    "end" := End]

  /** The unconditional edges: every other node ends the run. */
  const FixedEdges: map<Node, Target> := map[
    HumanHandoff := End,
    RefundStatus := End,
    AnswerConsult := End,
    ProcessRefund := End]

  /** The router after classification, in priority order: anger first, then a
      refund request (status if an id exists, confirmation otherwise), then the
      consult path. Its key is always one the edge table maps. */
  function RouteAfterClassify(s: State): (key: string)
    ensures key in ClassifyEdges
    ensures key == "human_handoff" <==> s.needsHuman
    ensures key == "refund_status" <==> !s.needsHuman && s.intent == Refund && HasTxId(s)
    ensures key == "confirm_refund" <==> !s.needsHuman && s.intent == Refund && !HasTxId(s)
    ensures key == "answer_consult" <==> !s.needsHuman && s.intent != Refund
  {
    if s.needsHuman then "human_handoff"
    else if s.intent == Refund then (if HasTxId(s) then "refund_status" else "confirm_refund")
    else "answer_consult"
  }

  /** The router after confirmation: on to the refund exactly when approved. Its
      key is always one the edge table maps. */
  function RouteAfterConfirm(s: State): (key: string)
    ensures key in ConfirmEdges
    ensures key == "process_refund" <==> s.decision == Approved
    ensures key == "end" <==> s.decision != Approved
  {
    if s.decision == Approved then "process_refund" else "end"
  }

  /** Every target an edge out of `n` can lead to. */
  function Successors(n: Node): set<Target>
  {
    match n
    case ClassifyIntent => ClassifyEdges.Values
    case ConfirmRefund => ConfirmEdges.Values
    case _ => if n in FixedEdges then {FixedEdges[n]} else {}
  }

  /** Distance to the end: every edge strictly lowers it. */
  function Rank(n: Node): nat
  {
    match n
    case ClassifyIntent => 2
    case ConfirmRefund => 1
    case _ => 0
  }

  /** The table is complete: every node has exactly one kind of outgoing edge. */
  lemma WiringComplete(n: Node)
    ensures (n == ClassifyIntent || n == ConfirmRefund) <==> n !in FixedEdges
  {
  }

  /** The step taken after node `n` in state `s`, looked up in the tables. It is
      always an edge of the graph and always lowers the rank, so the graph has
      no cycle. */
  function Next(n: Node, s: State): (t: Target)
    ensures t in Successors(n)
    ensures t.Goto? ==> Rank(t.node) < Rank(n)
  {
    match n
    case ClassifyIntent => ClassifyEdges[RouteAfterClassify(s)]
    case ConfirmRefund => ConfirmEdges[RouteAfterConfirm(s)]
    case _ => FixedEdges[n]
  }

  /** The node reached from classification, read through the edge table: the
      hand-off for an angry user, then status or confirmation for a refund
      request, else the consultation answer. */
  lemma ClassifyNext(s: State)
    ensures Next(ClassifyIntent, s) ==
              Goto(if s.needsHuman then HumanHandoff
                   else if s.intent == Refund then (if HasTxId(s) then RefundStatus else ConfirmRefund)
                   else AnswerConsult)
  {
    var key := RouteAfterClassify(s);
    if s.needsHuman {
      assert key == "human_handoff";
    } else if s.intent == Refund && HasTxId(s) {
      assert key == "refund_status";
    } else if s.intent == Refund {
      assert key == "confirm_refund";
    } else {
      assert key == "answer_consult";
    }
  }
}
