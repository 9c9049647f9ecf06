/** Concrete conversations: a refund request naming an order, declined or
    approved by the operator, a later status question, and an angry message.
    Each text is a parameter fixed by the precondition. */
module Scenarios {
  import opened Wrappers
  import opened CsState
  import opened Graph
  import opened Engine
  import Steps
  import Text

  /** None of the anger words occurs in a text made of ASCII characters only. */
  lemma AsciiIsCalm(text: string)
    requires forall i :: 0 <= i < |text| ==> text[i] < '\U{80}'
    ensures !Text.IsAngry(text)
  {
    forall w | w in Text.AngryWords && Text.Contains(text, w) ensures false {
      Text.ContainsFirstChar(text, w);
    }
  }

  /** A lower-case word found in a text is found in its lower-cased form. */
  lemma LowerWordAt(text: string, w: string, i: nat)
    requires Text.OccursAt(text, w, i)
    requires forall k :: 0 <= k < |w| ==> Text.LowerChar(w[k]) == w[k]
    ensures Text.Contains(Text.Lower(text), w)
  {
    var lower := Text.Lower(text);
    forall k | 0 <= k < |w| ensures lower[i..i + |w|][k] == w[k] {
      assert text[i..i + |w|][k] == text[i + k];
    }
    assert lower[i..i + |w|] == w;
    Text.ContainsComplete(lower, w, i);
  }

  lemma RefundRequestAsksRefund(text: string)
    requires text == "I want a refund, order 12345"
    ensures Steps.AsksRefund(text)
  {
    assert text[9..15] == "refund";
    LowerWordAt(text, "refund", 9);
  }

  /** Neither the refund request nor the status question contains an anger word. */
  lemma ScenarioTextsCalm(text: string)
    requires text == "I want a refund, order 12345" || text == "what's my refund status"
    ensures !Text.IsAngry(text)
  {
    forall i | 0 <= i < |text| ensures text[i] < '\U{80}' {
    }
    AsciiIsCalm(text);
  }

  lemma RefundRequestNoEarlyMatch(text: string, q: nat)
    requires text == "I want a refund, order 12345"
    requires q < 17
    ensures Text.MatchAt(text, q).None?
  {
    var prefix := text[..17];
    assert prefix == "I want a refund, ";
    assert text[q] == prefix[q];
    assert text[q] != '订' && Text.LowerChar(text[q]) != 'o';
    assert text[q..q + 2][0] == text[q];
    assert Text.Lower(text[q..q + 5])[0] == Text.LowerChar(text[q]);
  }

  lemma RefundRequestMatch(text: string)
    requires text == "I want a refund, order 12345"
    ensures Text.MatchAt(text, 17) == Some("12345")
  {
    assert text[17..19][0] == 'o';
    assert Text.Lower(text[17..22]) == "order";
    assert Text.KeywordAt(text, 17) == 5;
    assert Text.SkipNonDigits(text, 23) == 23;
    assert Text.SkipNonDigits(text, 22) == 23;
    assert Text.DigitRunEnd(text, 28) == 28;
    assert Text.DigitRunEnd(text, 27) == 28;
    assert Text.DigitRunEnd(text, 26) == 28;
    assert Text.DigitRunEnd(text, 25) == 28;
    assert Text.DigitRunEnd(text, 24) == 28;
    assert Text.DigitRunEnd(text, 23) == 28;
    assert text[23..28] == "12345";
  }

  /** The order number of the request is 12345. */
  lemma RefundRequestOrderId(text: string)
    requires text == "I want a refund, order 12345"
    ensures Text.ExtractOrderId(text) == Some("12345")
  {
    forall q | 0 <= q < 17 ensures Text.MatchAt(text, q).None? {
      RefundRequestNoEarlyMatch(text, q);
    }
    RefundRequestMatch(text);
    Text.SearchFindsLeftmost(text, 0, 17);
  }

  /** A new conversation asking for a refund of order 12345 pauses for
      confirmation, and the payload names the order. */
  lemma RefundRequestPauses(text: string, token: string)
    requires text == "I want a refund, order 12345"
    ensures var o := Invoke(Initial, text, token);
            && o.Suspended? && o.at == ConfirmRefund && o.trace == [ClassifyIntent]
            && o.prompt.kind == "confirm_refund" && o.prompt.orderId == Some("12345")
            && o.state.intent == Refund && o.state.txId.None?
  {
    InitialWf();
    RefundRequestAsksRefund(text);
    ScenarioTextsCalm(text);
    RefundRequestOrderId(text);
    InvokeRoutes(Initial, text, token);
    ClassifiedFields(Initial, text);
    InvokeUnfold(Initial, text, token);
  }

  /** Declining the paused request ends the run without issuing a refund. */
  lemma DeclinedRefund(text: string, token: string)
    requires text == "I want a refund, order 12345"
    ensures var o := Invoke(Initial, text, token);
            o.Suspended? &&
            var r := Resume(o, Steps.Record(Some(false)), token);
            && r.Finished? && r.trace == [ConfirmRefund]
            && r.state.decision == Declined && r.state.txId.None?
  {
    RefundRequestPauses(text, token);
    ResumeOutcome(Invoke(Initial, text, token), Steps.Record(Some(false)), token);
  }

  /** Approving the paused request issues a refund id for order 12345. */
  lemma ApprovedRefund(text: string, token: string)
    requires text == "I want a refund, order 12345"
    ensures var o := Invoke(Initial, text, token);
            o.Suspended? &&
            var r := Resume(o, Steps.Record(Some(true)), token);
            && r.Finished? && r.trace == [ConfirmRefund, ProcessRefund]
            && r.state.decision == Approved
            && r.state.txId == Some("refund_12345_" + token)
  {
    RefundRequestPauses(text, token);
    var o := Invoke(Initial, text, token);
    ApprovedPause(o, token);
  }

  /** Approving a pause whose payload names order 12345, before any id exists. */
  lemma ApprovedPause(o: Outcome, token: string)
    requires o.Suspended? && ValidSuspension(o) && o.state.txId.None?
    requires o.prompt.orderId == Some("12345")
    ensures var r := Resume(o, Steps.Record(Some(true)), token);
            && r.Finished? && r.trace == [ConfirmRefund, ProcessRefund]
            && r.state.decision == Approved
            && r.state.txId == Some("refund_12345_" + token)
  {
    ResumeOutcome(o, Steps.Record(Some(true)), token);
    assert Steps.Lookup(o.state.userInfo, OrderIdKey) == Some("12345");
    assert Steps.IssueRefundId(Some("12345"), token) == "refund_12345_" + token;
  }

  lemma StatusQuestionAsksRefund(text: string)
    requires text == "what's my refund status"
    ensures Steps.AsksRefund(text)
  {
    assert text[10..16] == "refund";
    LowerWordAt(text, "refund", 10);
  }

  /** Asking about the refund once an id exists reports the status and does not
      ask for confirmation again. */
  lemma StatusQuestion(s: State, text: string, token: string)
    requires text == "what's my refund status"
    requires Wf(s) && HasTxId(s)
    ensures var o := Invoke(s, text, token);
            o.Finished? && o.trace == [ClassifyIntent, RefundStatus] && o.state.txId == s.txId
  {
    StatusQuestionAsksRefund(text);
    ScenarioTextsCalm(text);
    InvokeRoutes(s, text, token);
  }

  /** An angry message is handed to a human even though it asks for a refund. */
  lemma AngryRefundRequest(s: State, text: string, token: string)
    requires text == "我要退款，你们是骗子"
    requires Wf(s)
    ensures Steps.AsksRefund(text)
    ensures var o := Invoke(s, text, token);
            o.Finished? && o.trace == [ClassifyIntent, HumanHandoff]
  {
    assert text[2..4] == "退款";
    Text.ContainsComplete(text, "退款", 2);
    assert text[8..10] == "骗子";
    Text.ContainsComplete(text, "骗子", 8);
    assert Text.AngryWords[5] == "骗子";
    InvokeRoutes(s, text, token);
  }
}
