/** Every payment's counters stay bounded, fold from its capture rows, and determine its state. */
module Lifecycle {
  import opened Amounts
  import opened Totals
  import opened Escrow
  import opened Payments

  ghost function CapturedOf(captures: map<string, CaptureRow>): map<string, int> {
    map t | t in captures :: captures[t].captured
  }

  ghost function CashbackOf(captures: map<string, CaptureRow>): map<string, int> {
    map t | t in captures :: captures[t].cashback
  }

  /** The state a payment's counters determine. */
  function StateOf(p: Payment): State {
    if p.captured == 0 then (if p.released == p.authorized then Reversed else Held)
    else if p.captured + p.released < p.authorized then PartiallyCaptured
    else if p.refunded + p.chargedBack == 0 then Captured
    else if p.refunded + p.chargedBack < p.captured then PartiallyRefunded
    else if p.refunded == 0 then ChargedBack
    else Refunded
  }

  predicate RowOk(r: CaptureRow) {
    r.captured > 0 && r.cashback >= 0 && r.refunded >= 0 && r.chargedBack >= 0
    && r.refunded + r.chargedBack <= r.captured
  }

  ghost predicate RowsOk(captures: map<string, CaptureRow>) {
    forall t | t in captures :: RowOk(captures[t])
  }

  /** The aggregates are the folds of the capture rows. */
  ghost predicate Folded(p: Payment) {
    && p.captured == Total(CapturedOf(p.captures)) && p.cashback == Total(CashbackOf(p.captures))
    && p.refunded == Total(RefundedOf(p.captures)) && p.chargedBack == Total(ChargedBackOf(p.captures))
  }

  predicate CountersOk(p: Payment) {
    && p.authorized > 0 && p.captured >= 0 && p.released >= 0 && p.captured + p.released <= p.authorized
    && Fits(p.authorized)
    && p.refunded >= 0 && p.chargedBack >= 0 && p.refunded + p.chargedBack <= p.captured
    && (p.refunded + p.chargedBack > 0 ==> p.captured + p.released == p.authorized)
    && p.fee >= 0 && p.tax >= 0 && p.fee + p.tax <= p.captured
    && 0 <= p.cashback <= p.cashbackRule
    && p.holdCaptured == p.captured && p.holdReleased == p.released
    && p.state == StateOf(p)
  }

  ghost predicate PaymentOk(p: Payment) {
    RowsOk(p.captures) && Folded(p) && CountersOk(p)
  }

  // ----- folds ------------------------------------------------------------------------------

  lemma FoldUpdate(captures: map<string, CaptureRow>, t: string, r: CaptureRow)
    ensures var before := if t in captures then captures[t] else CaptureRow(0, 0, 0, 0);
            var after := captures[t := r];
            && Total(CapturedOf(after)) == Total(CapturedOf(captures)) - before.captured + r.captured
            && Total(CashbackOf(after)) == Total(CashbackOf(captures)) - before.cashback + r.cashback
            && Total(RefundedOf(after)) == Total(RefundedOf(captures)) - before.refunded + r.refunded
            && Total(ChargedBackOf(after)) == Total(ChargedBackOf(captures)) - before.chargedBack + r.chargedBack
  {
    hide Total;
    var after := captures[t := r];
    assert CapturedOf(after) == CapturedOf(captures)[t := r.captured];
    TotalUpdate(CapturedOf(captures), t, r.captured);
    assert CashbackOf(after) == CashbackOf(captures)[t := r.cashback];
    TotalUpdate(CashbackOf(captures), t, r.cashback);
    assert RefundedOf(after) == RefundedOf(captures)[t := r.refunded];
    TotalUpdate(RefundedOf(captures), t, r.refunded);
    assert ChargedBackOf(after) == ChargedBackOf(captures)[t := r.chargedBack];
    TotalUpdate(ChargedBackOf(captures), t, r.chargedBack);
  }

  lemma {:induction false} FoldsBounded(captures: map<string, CaptureRow>)
    requires RowsOk(captures)
    ensures Total(RefundedOf(captures)) >= 0 && Total(ChargedBackOf(captures)) >= 0 && Total(CashbackOf(captures)) >= 0
    ensures Total(RefundedOf(captures)) + Total(ChargedBackOf(captures)) <= Total(CapturedOf(captures))
    decreases |captures|
  {
    hide RowOk;
    if t :| t in captures {
      var rest := captures - {t};
      FoldsBounded(rest);
      FoldUpdate(rest, t, captures[t]);
      assert rest[t := captures[t]] == captures;
      RowBounds(captures[t]);
    } else {
      NoRows(captures);
    }
  }

  lemma RowBounds(r: CaptureRow)
    requires RowOk(r)
    ensures r.refunded >= 0 && r.chargedBack >= 0 && r.cashback >= 0 && r.refunded + r.chargedBack <= r.captured
  {
  }

  lemma NoRows(captures: map<string, CaptureRow>)
    requires captures == map[]
    ensures Total(CapturedOf(captures)) == 0 && Total(CashbackOf(captures)) == 0
    ensures Total(RefundedOf(captures)) == 0 && Total(ChargedBackOf(captures)) == 0
  {
    assert CapturedOf(captures) == map[] && CashbackOf(captures) == map[];
    assert RefundedOf(captures) == map[] && ChargedBackOf(captures) == map[];
  }

  // ----- each operation on its payment ---------------------------------------------------------

  lemma NewPaymentOk(scope: string, q: Request)
    requires q.HoldRequest? && q.amount > 0 && Fits(q.amount) && q.cashbackRule >= 0
    ensures PaymentOk(NewPayment(scope, q))
  {
    NoRows(map[]);
  }

  /** Capturing keeps the payment in order, and its new state is an edge of the state machine. */
  lemma CaptureKeeps(p: Payment, q: Request, tx: string)
    requires PaymentOk(p) && q.CaptureRequest? && !CaptureInvalid(q) && tx !in p.captures
    requires p.state in {Held, PartiallyCaptured} && CaptureState(p.authorized, p.captured + q.amount, p.released).Some?
    requires p.cashback + q.cashback <= p.cashbackRule
    ensures var p' := AfterCapture(p, q, tx, CaptureState(p.authorized, p.captured + q.amount, p.released).value);
            PaymentOk(p') && CanTransition(p.state, p'.state)
  {
    hide Total;
    FoldUpdate(p.captures, tx, CaptureRow(q.amount, q.cashback, 0, 0));
  }

  lemma ReleaseKeeps(p: Payment, amount: int)
    requires PaymentOk(p) && amount > 0 && p.state in {Held, PartiallyCaptured}
    requires p.captured + p.released + amount <= p.authorized
    ensures var p' := AfterRelease(p, p.released + amount); PaymentOk(p') && CanTransition(p.state, p'.state)
  {
    hide Total;
  }

  /** A return within its own capture never exceeds the whole, so the aggregate check cannot fail after it. */
  lemma ReturnKeeps(p: Payment, q: Request)
    requires PaymentOk(p) && q.ReturnRequest? && q.amount > 0 && q.capture in p.captures
    requires p.state in {Captured, Settled, PartiallyRefunded, Disputed}
    requires p.captures[q.capture].refunded + p.captures[q.capture].chargedBack
             + q.amount <= p.captures[q.capture].captured
    ensures var p' := AfterReturn(p, q);
            && RefundState(p.captured, p'.refunded, p'.chargedBack).Some?
            && PaymentOk(p') && CanTransition(p.state, p'.state)
            && p'.refunded + p'.chargedBack == p.refunded + p.chargedBack + q.amount
  {
    hide Total;
    var row := Returned(p.captures[q.capture], q.amount, q.chargeback);
    var captures := p.captures[q.capture := row];
    assert RowOk(p.captures[q.capture]);
    FoldUpdate(p.captures, q.capture, row);
    assert RowsOk(captures);
    FoldsBounded(captures);
  }
}
