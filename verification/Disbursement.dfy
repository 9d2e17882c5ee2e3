/**
 Sending payouts through the gateway and hearing back.

 The gateway is part of the state: every transfer request it may have received is a row of
 `submissions`, with the verdict the gateway will answer for it from then on. A verdict
 leaves `InFlight` once and never changes again; a webhook may deliver it any number of
 times, in any order.
 */
module Disbursement {
  import opened Wrappers
  import opened Books
  import opened PayoutBatch

  /** How the gateway answers one call. `Unavailable` stands for every refusal before the
      payout has moved: no credentials, or no destination to send to. */
  datatype Answer =
    | Unavailable
    | Accepted(verdict: Verdict, utr: Option<nat>)
    | Declined
    | Unreachable

  datatype SendError = NotFound | GatewayUnavailable | NotApproved | ZeroNet | SubmitFailed(known: bool) | NotRetryable

  predicate Sendable(b: Books, p: PayoutId, a: Answer) {
    StatusIs(b, p, PayoutStatus.Approved) && a != Unavailable && b.payouts[p].net != 0
  }

  function VerdictOf(a: Answer): Verdict {
    match a
    case Accepted(v, _) => v
    case Declined => Refused
    case _ => InFlight
  }

  /** The move to `processing`, and the request that goes out with it. */
  function Submit(b: Books, p: PayoutId, v: Verdict): Books
    requires p < |b.payouts|
  {
    var row := b.payouts[p];
    b.(payouts := b.payouts[p := row.(status := PayoutStatus.Processing, attempts := row.attempts + 1)],
       submissions := b.submissions + [Submission(p, v)])
  }

  function WithReference(b: Books, p: PayoutId, r: Reference): Books
    requires p < |b.payouts|
  {
    b.(payouts := b.payouts[p := b.payouts[p].(reference := Some(r))])
  }

  function Disburse(b: Books, p: PayoutId, a: Answer): Books {
    if !Sendable(b, p, a) then b
    else
      var s := |b.submissions|;
      var sent := Submit(b, p, VerdictOf(a));
      match a
      case Accepted(v, utr) =>
        var captured := WithReference(sent, p, Entity(s));
        if v == Processed then Settle(captured, s, utr) else captured
      case Declined => WithStatus(sent, p, PayoutStatus.Failed)
      case _ => sent
  }

  function Retry(b: Books, p: PayoutId, a: Answer): Books {
    if StatusIs(b, p, PayoutStatus.Failed) then Disburse(WithStatus(b, p, PayoutStatus.Approved), p, a) else b
  }

  /** The first payout carrying a reference. */
  function FindReference(ps: seq<Payout>, r: Reference, from: nat := 0): (p: Option<PayoutId>)
    requires from <= |ps|
    ensures p.Some? ==> from <= p.value < |ps| && ps[p.value].reference == Some(r)
    ensures p.None? ==> forall i :: from <= i < |ps| ==> ps[i].reference != Some(r)
    decreases |ps| - from
  {
    if from == |ps| then None
    else if ps[from].reference == Some(r) then Some(from)
    else FindReference(ps, r, from + 1)
  }

  function PayRow(p: PayoutId): Commission -> Commission {
    (c: Commission) =>
      if c.payout == Some(p) && c.status == CommissionStatus.Approved then c.(status := CommissionStatus.Paid) else c
  }

  function FinalReference(s: SubmissionId, utr: Option<nat>): Reference {
    if utr.Some? then Utr(utr.value) else Entity(s)
  }

  function Settle(b: Books, s: SubmissionId, utr: Option<nat>): Books {
    match FindReference(b.payouts, Entity(s))
    case None => b
    case Some(p) =>
      if b.payouts[p].status == PayoutStatus.Paid then b
      else WithReference(WithStatus(b, p, PayoutStatus.Paid), p, FinalReference(s, utr)).(
             commissions := Rewritten(b.commissions, PayRow(p)))
  }

  function MarkFailed(b: Books, s: SubmissionId): Books {
    match FindReference(b.payouts, Entity(s))
    case None => b
    case Some(p) =>
      if b.payouts[p].status == PayoutStatus.Paid then b else WithStatus(b, p, PayoutStatus.Failed)
  }

  /** One webhook delivery: the gateway's current word on a submission. */
  function Deliver(b: Books, s: SubmissionId, utr: Option<nat>): Books {
    if s >= |b.submissions| then b
    else match b.submissions[s].verdict
      case Processed => Settle(b, s, utr)
      case Refused => MarkFailed(b, s)
      case InFlight => b
  }

  /** The gateway makes up its mind. */
  function Resolve(b: Books, s: SubmissionId, v: Verdict): Books {
    if s < |b.submissions| && b.submissions[s].verdict == InFlight
    then b.(submissions := b.submissions[s := b.submissions[s].(verdict := v)])
    else b
  }

  method SettlePayout(db: Tables, s: SubmissionId, utr: Option<nat>)
    modifies db
    ensures db.View() == Settle(old(db.View()), s, utr)
  {
    var found := FindReference(db.payouts, Entity(s));
    if found.None? { return; }
    var p := found.value;
    if db.payouts[p].status == PayoutStatus.Paid { return; }
    var row := db.payouts[p];
    db.payouts := db.payouts[p := row.(status := PayoutStatus.Paid, reference := Some(FinalReference(s, utr)))];
    db.commissions := Rewritten(db.commissions, PayRow(p));
  }

  method MarkPayoutFailed(db: Tables, s: SubmissionId)
    modifies db`payouts
    ensures db.View() == MarkFailed(old(db.View()), s)
  {
    var found := FindReference(db.payouts, Entity(s));
    if found.None? || db.payouts[found.value].status == PayoutStatus.Paid { return; }
    db.payouts := db.payouts[found.value := db.payouts[found.value].(status := PayoutStatus.Failed)];
  }

  method HandleWebhook(db: Tables, s: SubmissionId, utr: Option<nat>)
    modifies db
    ensures db.View() == Deliver(old(db.View()), s, utr)
  {
    if s >= |db.submissions| { return; }
    match db.submissions[s].verdict
    case Processed => SettlePayout(db, s, utr);
    case Refused => MarkPayoutFailed(db, s);
    case InFlight =>
  }

  method DisbursePayout(db: Tables, p: PayoutId, a: Answer) returns (r: Result<(), SendError>)
    modifies db
    ensures db.View() == Disburse(old(db.View()), p, a)
    ensures r.Ok? <==> Sendable(old(db.View()), p, a) && a.Accepted?
  {
    if p >= |db.payouts| { return Err(NotFound); }
    if a == Unavailable { return Err(GatewayUnavailable); }
    if db.payouts[p].status != PayoutStatus.Approved { return Err(NotApproved); }
    if db.payouts[p].net == 0 { return Err(ZeroNet); }
    var s := |db.submissions|;
    var row := db.payouts[p];
    db.payouts := db.payouts[p := row.(status := PayoutStatus.Processing, attempts := row.attempts + 1)];
    db.submissions := db.submissions + [Submission(p, VerdictOf(a))];
    match a
    case Accepted(v, utr) =>
      db.payouts := db.payouts[p := db.payouts[p].(reference := Some(Entity(s)))];
      if v == Processed { SettlePayout(db, s, utr); }
      r := Ok(());
    case Declined =>
      db.payouts := db.payouts[p := db.payouts[p].(status := PayoutStatus.Failed)];
      r := Err(SubmitFailed(true));
    case Unreachable =>
      r := Err(SubmitFailed(false));
  }

  method RetryPayout(db: Tables, p: PayoutId, a: Answer) returns (r: Result<(), SendError>)
    modifies db
    ensures db.View() == Retry(old(db.View()), p, a)
  {
    if p >= |db.payouts| { return Err(NotFound); }
    if db.payouts[p].status != PayoutStatus.Failed { return Err(NotRetryable); }
    db.payouts := db.payouts[p := db.payouts[p].(status := PayoutStatus.Approved)];
    r := DisbursePayout(db, p, a);
  }
}
