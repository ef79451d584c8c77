/** An owned payment intent put back: its disputes settled, then refunded or canceled. */
module Cleanup {
  import opened Results

  datatype IntentStatus =
    | IntentSucceeded
    | IntentCanceled
    | RequiresPaymentMethod
    | RequiresConfirmation
    | RequiresAction
    | RequiresCapture
    | Processing

  datatype Intent = Intent(id: string, livemode: bool, status: IntentStatus, latestCharge: Option<string>, amount: nat)

  datatype RefundStatus = Pending | Succeeded | Failed | RefundCanceled | NeedsAction

  /** A refund; a pending one to a bank takes its outcome while it is waited for, or stays pending. */
  datatype Refund = Refund(amount: nat, status: RefundStatus, outcome: RefundStatus)

  datatype DisputeStatus =
    | WarningNeedsResponse
    | WarningUnderReview
    | WarningClosed
    | NeedsResponse
    | UnderReview
    | Won
    | Lost

  /** A dispute; the verdict falls while it is waited for, if it falls in time. */
  datatype Dispute = Dispute(id: nat, charge: string, livemode: bool, amount: nat, status: DisputeStatus, verdict: Option<bool>)

  datatype Charge =
    Charge(id: string, livemode: bool, intent: string, amount: nat, refunded: nat, disputed: bool, bank: bool)

  /** What the provider holds: refunds by index, and what each idempotency key was answered with. */
  datatype World = World(intent: Intent, charge: Charge, refunds: seq<Refund>, disputes: seq<Dispute>, made: map<nat, nat>)

  datatype Report =
    | AlreadyRefunded
    | DisputeLost
    | PlannedDisputeLoss
    | PlannedRefund(amount: nat)
    | Refunded(id: nat)
    | AlreadyCanceled
    | PlannedCancel
    | Canceled

  datatype Problem =
    | LiveProvider
    | NoCharge
    | ForeignCharge
    | ForeignDispute
    | DisputeTimeout
    | UnsettledRefund
    | Disagree
    | NoRefundEvidence
    | NeedsRetry
    | CancelFailed
    | StillProcessing

  /** What the provider will answer: how a new refund starts and ends, and what canceling leaves. */
  datatype Answers = Answers(start: RefundStatus, outcome: RefundStatus, canceled: IntentStatus)

  datatype Outcome = Outcome(world: World, result: Result<Report, Problem>)

  // ---------------------------------------------------------------- sums

  /** What succeeded refunds gave back. */
  function GivenBack(refunds: seq<Refund>): nat {
    if refunds == [] then 0
    else
      var last := refunds[|refunds| - 1];
      GivenBack(refunds[..|refunds| - 1]) + if last.status == Succeeded then last.amount else 0
  }

  /** What the provider counts as refunded: everything that neither failed nor was canceled. */
  function Counted(refunds: seq<Refund>): nat {
    if refunds == [] then 0
    else
      var last := refunds[|refunds| - 1];
      Counted(refunds[..|refunds| - 1]) + if last.status == Failed || last.status == RefundCanceled then 0 else last.amount
  }

  /** What lost disputes took. */
  function Taken(disputes: seq<Dispute>): nat {
    if disputes == [] then 0
    else
      var last := disputes[|disputes| - 1];
      Taken(disputes[..|disputes| - 1]) + if last.status == Lost then last.amount else 0
  }

  predicate Open(d: Dispute) { d.status == NeedsResponse || d.status == UnderReview }

  predicate Foreign(d: Dispute, charge: string) { d.livemode || d.charge != charge }

  /** The provider's own books: the charge counts what its refunds amount to. */
  predicate Booked(w: World) { w.charge.refunded == Counted(w.refunds) }

  // ---------------------------------------------------------------- disputes

  /** The dispute once losing evidence is in and it was waited for. */
  function Decided(d: Dispute): Dispute {
    match d.verdict
    case None => d.(status := UnderReview)
    case Some(lost) => d.(status := if lost then Lost else Won)
  }

  /** Open disputes decided one after the other, until one does not settle in time. */
  function DecidedUpTo(disputes: seq<Dispute>): seq<Dispute> {
    if disputes == [] then []
    else if !Open(disputes[0]) then [disputes[0]] + DecidedUpTo(disputes[1..])
    else if disputes[0].verdict == None then [Decided(disputes[0])] + disputes[1..]
    else [Decided(disputes[0])] + DecidedUpTo(disputes[1..])
  }

  predicate Settle(disputes: seq<Dispute>) { forall d <- disputes :: Open(d) ==> d.verdict.Some? }

  /** What lost disputes took, losing those still open; no amount if that is only planned. */
  function SettleDisputes(w: World, apply: bool): (World, Result<Option<nat>, Problem>) {
    if exists d <- w.disputes :: Foreign(d, w.charge.id) then (w, Err(ForeignDispute))
    else if (exists d <- w.disputes :: Open(d)) && !apply then (w, Ok(None))
    else
      var after := w.(disputes := DecidedUpTo(w.disputes));
      if Settle(w.disputes) then (after, Ok(Some(Taken(after.disputes)))) else (after, Err(DisputeTimeout))
  }

  // ---------------------------------------------------------------- refunds

  function Waited(r: Refund, bank: bool): Refund {
    if bank && r.status == Pending then r.(status := r.outcome) else r
  }

  predicate Final(r: Refund) { r.status == Succeeded || r.status == Failed || r.status == RefundCanceled }

  /** The listed refunds waited for one after the other, until one is not final. */
  function WaitedUpTo(refunds: seq<Refund>, bank: bool): seq<Refund> {
    if refunds == [] then []
    else if Final(Waited(refunds[0], bank)) then [Waited(refunds[0], bank)] + WaitedUpTo(refunds[1..], bank)
    else [Waited(refunds[0], bank)] + refunds[1..]
  }

  predicate AllFinal(refunds: seq<Refund>, bank: bool) { forall r <- refunds :: Final(Waited(r, bank)) }

  /** The provider's books after the refunds changed. */
  function Rebooked(w: World, refunds: seq<Refund>): World {
    w.(refunds := refunds, charge := w.charge.(refunded := Counted(refunds)))
  }

  /** A refund asked for under a key, once; asked again, the one that was made. */
  function CreateRefund(w: World, amount: nat, answers: Answers): (World, nat) {
    if amount in w.made then (w, w.made[amount])
    else
      (Rebooked(w, w.refunds + [Refund(amount, answers.start, answers.outcome)]).(made := w.made[amount := |w.refunds|]),
       |w.refunds|)
  }

  /** The refund of what is left, waited for. */
  function RefundRest(w: World, amount: nat, answers: Answers): Outcome
    requires forall key <- w.made :: w.made[key] < |w.refunds|
  {
    var (created, id) := CreateRefund(w, amount, answers);
    var refund := Waited(created.refunds[id], w.charge.bank);
    var after := Rebooked(created, created.refunds[id := refund]);
    Outcome(after, if refund.status == Succeeded then Ok(Refunded(id)) else Err(NeedsRetry))
  }

  predicate Keyed(w: World) { forall key <- w.made :: w.made[key] < |w.refunds| }

  /** What follows once disputes took this much. */
  function RefundAfter(w: World, lost: nat, apply: bool, answers: Answers): Outcome
    requires Keyed(w)
  {
    var listed := Rebooked(w, WaitedUpTo(w.refunds, w.charge.bank));
    var given, remaining := GivenBack(listed.refunds), w.charge.amount - w.charge.refunded - lost;
    if !AllFinal(w.refunds, w.charge.bank) then Outcome(listed, Err(UnsettledRefund))
    else if lost > 0 && remaining <= 0 then
      Outcome(listed, if given != w.charge.refunded then Err(Disagree) else Ok(DisputeLost))
    else if remaining == 0 then
      Outcome(listed, if given != w.charge.amount then Err(NoRefundEvidence) else Ok(AlreadyRefunded))
    else if remaining < 0 || given != w.charge.refunded then Outcome(listed, Err(Disagree))
    else if !apply then Outcome(listed, Ok(PlannedRefund(remaining)))
    else
      WaitedLength(w.refunds, w.charge.bank);
      RefundRest(listed, remaining, answers)
  }

  lemma WaitedLength(refunds: seq<Refund>, bank: bool)
    ensures |WaitedUpTo(refunds, bank)| == |refunds|
  {
  }

  /** One call: what it leaves at the provider, and what it returns. */
  function CleanupOf(w: World, apply: bool, answers: Answers): Outcome
    requires Keyed(w)
  {
    if w.intent.livemode then Outcome(w, Err(LiveProvider))
    else
      match w.intent.status
      case IntentSucceeded =>
        if w.intent.latestCharge == None then Outcome(w, Err(NoCharge))
        else if w.charge.livemode || w.charge.intent != w.intent.id || w.charge.amount != w.intent.amount then
          Outcome(w, Err(ForeignCharge))
        else if !w.charge.disputed then RefundAfter(w, 0, apply, answers)
        else
          var (settled, lost) := SettleDisputes(w, apply);
          if lost.Err? then Outcome(settled, Err(lost.error))
          else if lost.value == None then Outcome(settled, Ok(PlannedDisputeLoss))
          else RefundAfter(settled, lost.value.value, apply, answers)
      case IntentCanceled => Outcome(w, Ok(AlreadyCanceled))
      case Processing => Outcome(w, Err(StillProcessing))
      case _ =>
        if !apply then Outcome(w, Ok(PlannedCancel))
        else
          Outcome(w.(intent := w.intent.(status := answers.canceled)),
                  if answers.canceled == IntentCanceled then Ok(Canceled) else Err(CancelFailed))
  }

  // ---------------------------------------------------------------- what a call leaves

  /** What lost disputes took from the charge, as far as it counts as disputed. */
  function LostOf(w: World): nat { if w.charge.disputed then Taken(w.disputes) else 0 }

  predicate AllSettled(refunds: seq<Refund>) { forall r <- refunds :: Final(r) }

  lemma {:induction false} WaitedSettles(refunds: seq<Refund>, bank: bool)
    requires AllFinal(refunds, bank)
    ensures AllSettled(WaitedUpTo(refunds, bank)) && |WaitedUpTo(refunds, bank)| == |refunds|
    ensures forall i :: 0 <= i < |refunds| ==> WaitedUpTo(refunds, bank)[i] == Waited(refunds[i], bank)
  {
    if refunds != [] {
      WaitedSettles(refunds[1..], bank);
    }
  }

  /** Once all refunds are final, the provider counts exactly what was given back. */
  lemma {:induction false} SettledCounts(refunds: seq<Refund>)
    requires AllSettled(refunds)
    ensures Counted(refunds) == GivenBack(refunds)
  {
    if refunds != [] {
      SettledCounts(refunds[..|refunds| - 1]);
      assert Final(refunds[|refunds| - 1]);
    }
  }

  lemma {:induction false} SettledStay(refunds: seq<Refund>, bank: bool)
    requires AllSettled(refunds)
    ensures AllFinal(refunds, bank) && WaitedUpTo(refunds, bank) == refunds
  {
    if refunds != [] {
      SettledStay(refunds[1..], bank);
      assert Final(refunds[0]);
    }
  }

  lemma OneMoreRefund(refunds: seq<Refund>, r: Refund)
    ensures GivenBack(refunds + [r]) == GivenBack(refunds) + if r.status == Succeeded then r.amount else 0
    ensures Counted(refunds + [r]) == Counted(refunds) + if r.status == Failed || r.status == RefundCanceled then 0 else r.amount
  {
    assert (refunds + [r])[..|refunds|] == refunds;
  }

  lemma {:induction false} DecidedCloses(disputes: seq<Dispute>)
    requires Settle(disputes)
    ensures forall d <- DecidedUpTo(disputes) :: !Open(d)
  {
    if disputes != [] {
      DecidedCloses(disputes[1..]);
    }
  }

  /** Some open disputes are decided; nothing else changed. */
  ghost predicate OnlyDecided(before: seq<Dispute>, after: seq<Dispute>) {
    |after| == |before|
    && forall i :: 0 <= i < |before| ==> after[i] == before[i] || (Open(before[i]) && after[i] == Decided(before[i]))
  }

  lemma {:induction false} DecidedOnly(disputes: seq<Dispute>)
    ensures OnlyDecided(disputes, DecidedUpTo(disputes))
  {
    if disputes != [] {
      DecidedOnly(disputes[1..]);
    }
  }

  /** The intent is the run's own and was paid. */
  predicate Paid(w: World) {
    && !w.intent.livemode && w.intent.status == IntentSucceeded && w.intent.latestCharge.Some?
    && !w.charge.livemode && w.charge.intent == w.intent.id && w.charge.amount == w.intent.amount
  }

  /** What is left to refund once the disputes of the second world are known. */
  function Rest(w: World, after: World): int { w.charge.amount - w.charge.refunded - LostOf(after) }

  /** A call that was to put the intent back and did. */
  predicate PutBack(w: World, answers: Answers)
    requires Keyed(w)
  {
    w.intent.status == IntentSucceeded && CleanupOf(w, true, answers).result.Ok?
  }

  /** Nothing is open, pending or owed: what a finished cleanup leaves. */
  predicate Done(w: World) {
    && Paid(w) && Keyed(w) && Booked(w) && AllSettled(w.refunds)
    && (w.charge.disputed ==> forall d <- w.disputes :: !Open(d) && !Foreign(d, w.charge.id))
    && w.charge.amount <= w.charge.refunded + LostOf(w)
    && (LostOf(w) == 0 ==> w.charge.refunded == w.charge.amount)
  }

  /** The world after the disputes are dealt with, when refunds are looked at. */
  lemma ReachesRefunds(w: World, answers: Answers) returns (settled: World)
    requires Keyed(w) && PutBack(w, answers)
    ensures Paid(w) && Keyed(settled)
    ensures settled == if w.charge.disputed then w.(disputes := DecidedUpTo(w.disputes)) else w
    ensures settled.charge.disputed ==> forall d <- settled.disputes :: !Open(d) && !Foreign(d, w.charge.id)
    ensures CleanupOf(w, true, answers) == RefundAfter(settled, LostOf(settled), true, answers)
  {
    settled := w;
    if w.charge.disputed {
      settled := w.(disputes := DecidedUpTo(w.disputes));
      DecidedCloses(w.disputes);
      DecidedOnly(w.disputes);
      forall i | 0 <= i < |settled.disputes|
        ensures !Foreign(settled.disputes[i], w.charge.id)
      {
        assert !Foreign(w.disputes[i], w.charge.id);
      }
    }
  }

  /** The last refund adds its amount when it is new, and nothing when its key was used before. */
  lemma RestConserves(w: World, amount: nat, answers: Answers)
    requires Keyed(w) && AllSettled(w.refunds) && RefundRest(w, amount, answers).result.Ok?
    ensures var after := RefundRest(w, amount, answers).world;
            LostOf(after) == LostOf(w) && Booked(after) && AllSettled(after.refunds) && Keyed(after)
            && after == w.(refunds := after.refunds, charge := after.charge, made := after.made)
            && after.charge == w.charge.(refunded := after.charge.refunded)
            && GivenBack(after.refunds) == GivenBack(w.refunds) + if amount in w.made then 0 else amount
  {
    hide Counted, GivenBack, Taken, RefundRest, Waited;
    RestSucceedsIff(w, amount, answers);
    if amount in w.made {
      assert Final(w.refunds[w.made[amount]]);
      RestAgain(w, amount, answers);
    } else {
      RestMakesNew(w, amount, answers);
      OneMoreRefund(w.refunds, Waited(Refund(amount, answers.start, answers.outcome), w.charge.bank));
      NewSucceeds(w, amount, answers);
    }
  }

  lemma RestAgain(w: World, amount: nat, answers: Answers)
    requires Keyed(w) && amount in w.made && Final(w.refunds[w.made[amount]])
    ensures RefundRest(w, amount, answers).world == Rebooked(w, w.refunds)
  {
    hide Counted;
    assert w.refunds[w.made[amount] := w.refunds[w.made[amount]]] == w.refunds;
  }

  lemma NewSucceeds(w: World, amount: nat, answers: Answers)
    requires Keyed(w) && amount !in w.made && RestSucceeds(w, amount, answers)
    ensures var refund := Waited(Refund(amount, answers.start, answers.outcome), w.charge.bank);
            refund.status == Succeeded && refund.amount == amount
  {
  }

  /** What looking at the refunds leaves, once the disputes are dealt with. */
  lemma RefundAfterLeaves(w: World, answers: Answers)
    requires Keyed(w) && RefundAfter(w, LostOf(w), true, answers).result.Ok?
    ensures var after := RefundAfter(w, LostOf(w), true, answers).world;
            after == w.(refunds := after.refunds, charge := w.charge.(refunded := after.charge.refunded), made := after.made)
            && Booked(after) && AllSettled(after.refunds) && Keyed(after)
            && GivenBack(after.refunds) == w.charge.refunded + if Rest(w, w) > 0 && Rest(w, w) !in w.made then Rest(w, w) else 0
    ensures LostOf(w) == 0 ==> Rest(w, w) >= 0
  {
    hide Counted, GivenBack, Taken, WaitedUpTo, Waited, AllSettled;
    WaitedSettles(w.refunds, w.charge.bank);
    var listed := Rebooked(w, WaitedUpTo(w.refunds, w.charge.bank));
    if Rest(w, w) > 0 {
      hide RefundRest;
      RestConserves(listed, Rest(w, w), answers);
    }
  }

  /** Refunds and lost disputes make up the charge exactly when no more was lost than was left, under a key of its own. */
  lemma PutBackConserves(w: World, answers: Answers)
    requires Keyed(w) && PutBack(w, answers)
    ensures var after := CleanupOf(w, true, answers).world;
            GivenBack(after.refunds) + LostOf(after) == w.charge.amount
            <==> Rest(w, after) >= 0 && (Rest(w, after) == 0 || Rest(w, after) !in w.made)
  {
    var settled := ReachesRefunds(w, answers);
    hide CleanupOf, RefundAfter;
    RefundAfterLeaves(settled, answers);
  }

  /** Then, or when more was lost than was left, the intent is done with. */
  lemma PutBackIsDone(w: World, answers: Answers)
    requires Keyed(w) && PutBack(w, answers)
    requires var rest := Rest(w, CleanupOf(w, true, answers).world); rest <= 0 || rest !in w.made
    ensures Done(CleanupOf(w, true, answers).world)
  {
    var settled := ReachesRefunds(w, answers);
    hide CleanupOf, RefundAfter, Counted, GivenBack, Taken, DecidedUpTo, Open, Foreign, AllSettled, Keyed;
    RefundAfterLeaves(settled, answers);
    var after := RefundAfter(settled, LostOf(settled), true, answers).world;
    SettledCounts(after.refunds);
    LeavesDone(settled, after);
  }

  lemma LeavesDone(w: World, after: World)
    requires Paid(w) && (w.charge.disputed ==> forall d <- w.disputes :: !Open(d) && !Foreign(d, w.charge.id))
    requires after.intent == w.intent && after.disputes == w.disputes && after.charge == w.charge.(refunded := after.charge.refunded)
    requires Booked(after) && AllSettled(after.refunds) && Keyed(after)
    requires after.charge.refunded == w.charge.refunded + if Rest(w, w) > 0 then Rest(w, w) else 0
    requires LostOf(w) == 0 ==> Rest(w, w) >= 0
    ensures Done(after)
  {
    hide Counted, Taken, Open, Foreign, AllSettled, Keyed;
  }

  /** What a call put back stays put back: the next one, planned or not, creates and changes nothing. */
  lemma DoneCallChangesNothing(w: World, apply: bool, answers: Answers)
    requires Done(w)
    ensures CleanupOf(w, apply, answers).world == w
    ensures CleanupOf(w, apply, answers).result == Ok(if LostOf(w) > 0 then DisputeLost else AlreadyRefunded)
  {
    DoneNeedsNoRefund(w, apply, answers);
    hide Taken, DecidedUpTo, RefundAfter, Booked, AllSettled;
    if w.charge.disputed {
      ClosedStay(w.disputes);
    }
  }

  lemma DoneNeedsNoRefund(w: World, apply: bool, answers: Answers)
    requires Done(w)
    ensures RefundAfter(w, LostOf(w), apply, answers)
         == Outcome(w, Ok(if LostOf(w) > 0 then DisputeLost else AlreadyRefunded))
  {
    hide Taken, Foreign;
    SettledStay(w.refunds, w.charge.bank);
    SettledCounts(w.refunds);
  }

  lemma {:induction false} ClosedStay(disputes: seq<Dispute>)
    requires forall d <- disputes :: !Open(d)
    ensures DecidedUpTo(disputes) == disputes
  {
    if disputes != [] {
      ClosedStay(disputes[1..]);
    }
  }

  /** What lost disputes will have taken once the open ones are decided. */
  function TakenInEnd(disputes: seq<Dispute>): nat {
    if disputes == [] then 0
    else
      var last := disputes[|disputes| - 1];
      TakenInEnd(disputes[..|disputes| - 1])
      + if last.status == Lost || (last.status in {NeedsResponse, UnderReview} && last.verdict == Some(true)) then last.amount
        else 0
  }

  /** What refunds will have given back once they are waited for. */
  function GivenInEnd(refunds: seq<Refund>, bank: bool): nat {
    if refunds == [] then 0
    else
      var last := refunds[|refunds| - 1];
      GivenInEnd(refunds[..|refunds| - 1], bank)
      + if last.status == Succeeded || (bank && last.status == Pending && last.outcome == Succeeded) then last.amount else 0
  }

  /** The refund settles, for a bank after waiting. */
  predicate Settles(r: Refund, bank: bool) {
    r.status in {Succeeded, Failed, RefundCanceled}
    || (bank && r.status == Pending && r.outcome in {Succeeded, Failed, RefundCanceled})
  }

  /** The refund of what is left ends well: the one made under its key before, or a new one. */
  predicate RestSucceeds(w: World, rest: nat, answers: Answers)
    requires Keyed(w)
  {
    var refund := if rest in w.made then w.refunds[w.made[rest]] else Refund(rest, answers.start, answers.outcome);
    refund.status == Succeeded || (w.charge.bank && refund.status == Pending && refund.outcome == Succeeded)
  }

  /**
   * A paid intent may be put back: all its disputes are the charge's own and are decided in time, all its refunds settle
   * and gave back what the charge counts, and what is then left is nothing, or less after a loss, or can be refunded.
   */
  predicate MayBePutBack(w: World, answers: Answers)
    requires Keyed(w)
  {
    var lost := if w.charge.disputed then TakenInEnd(w.disputes) else 0;
    var rest := w.charge.amount - w.charge.refunded - lost;
    && (w.charge.disputed ==>
          forall d <- w.disputes ::
            !d.livemode && d.charge == w.charge.id && (d.status in {NeedsResponse, UnderReview} ==> d.verdict.Some?))
    && (forall r <- w.refunds :: Settles(r, w.charge.bank))
    && GivenInEnd(w.refunds, w.charge.bank) == w.charge.refunded
    && (rest == 0 || (rest < 0 && lost > 0) || (rest > 0 && RestSucceeds(w, rest, answers)))
  }

  lemma {:induction false} TakenPointwise(before: seq<Dispute>, after: seq<Dispute>)
    requires |after| == |before|
    requires forall i :: 0 <= i < |before| ==> after[i] == if Open(before[i]) then Decided(before[i]) else before[i]
    requires forall d <- before :: Open(d) ==> d.verdict.Some?
    ensures Taken(after) == TakenInEnd(before)
  {
    if before != [] {
      var n := |before| - 1;
      TakenPointwise(before[..n], after[..n]);
      assert before[n] in before;
    }
  }

  lemma TakenDecided(disputes: seq<Dispute>)
    requires Settle(disputes)
    ensures Taken(DecidedUpTo(disputes)) == TakenInEnd(disputes)
  {
    DecidedAll(disputes);
    TakenPointwise(disputes, DecidedUpTo(disputes));
  }

  lemma {:induction false} GivenPointwise(before: seq<Refund>, after: seq<Refund>, bank: bool)
    requires |after| == |before| && forall i :: 0 <= i < |before| ==> after[i] == Waited(before[i], bank)
    ensures GivenBack(after) == GivenInEnd(before, bank)
  {
    if before != [] {
      var n := |before| - 1;
      GivenPointwise(before[..n], after[..n], bank);
    }
  }

  lemma SettlesIsFinal(refunds: seq<Refund>, bank: bool)
    ensures AllFinal(refunds, bank) <==> forall r <- refunds :: Settles(r, bank)
  {
    assert forall r <- refunds :: Settles(r, bank) <==> Final(Waited(r, bank));
  }

  lemma RestSucceedsIff(w: World, rest: nat, answers: Answers)
    requires Keyed(w)
    ensures RefundRest(w, rest, answers).result.Ok? <==> RestSucceeds(w, rest, answers)
  {
  }

  /** Waiting changes nothing that a refund made before ends with. */
  lemma WaitedSucceeds(w: World, listed: World, rest: nat, answers: Answers)
    requires Keyed(w) && AllFinal(w.refunds, w.charge.bank)
    requires listed == Rebooked(w, WaitedUpTo(w.refunds, w.charge.bank))
    ensures Keyed(listed) && (RestSucceeds(listed, rest, answers) <==> RestSucceeds(w, rest, answers))
  {
    WaitedSettles(w.refunds, w.charge.bank);
  }

  /** With what disputes took, the refunds decide. */
  lemma RefundAfterIff(w: World, lost: nat, answers: Answers)
    requires Keyed(w)
    ensures var rest := w.charge.amount - w.charge.refunded - lost;
            RefundAfter(w, lost, true, answers).result.Ok? <==>
              (forall r <- w.refunds :: Settles(r, w.charge.bank))
              && GivenInEnd(w.refunds, w.charge.bank) == w.charge.refunded
              && (rest == 0 || (rest < 0 && lost > 0) || (rest > 0 && RestSucceeds(w, rest, answers)))
  {
    hide RefundRest, RestSucceeds, WaitedUpTo, GivenBack, GivenInEnd, Counted, Settles, AllFinal, AllSettled, Waited, Keyed;
    SettlesIsFinal(w.refunds, w.charge.bank);
    if AllFinal(w.refunds, w.charge.bank) {
      WaitedSettles(w.refunds, w.charge.bank);
      GivenPointwise(w.refunds, WaitedUpTo(w.refunds, w.charge.bank), w.charge.bank);
      var rest := w.charge.amount - w.charge.refunded - lost;
      if rest > 0 {
        var listed := Rebooked(w, WaitedUpTo(w.refunds, w.charge.bank));
        WaitedSucceeds(w, listed, rest, answers);
        RestSucceedsIff(listed, rest, answers);
      }
    }
  }

  /** What is left to refund once all disputes are decided. */
  function RestInEnd(w: World): int {
    w.charge.amount - w.charge.refunded - if w.charge.disputed then TakenInEnd(w.disputes) else 0
  }

  /** A call reports a loss or that all is refunded when nothing is left, and otherwise the refund of just what is left. */
  lemma ReportIs(w: World, answers: Answers, id: nat)
    requires Keyed(w) && Paid(w) && MayBePutBack(w, answers)
    ensures var out := CleanupOf(w, true, answers);
            var lost := if w.charge.disputed then TakenInEnd(w.disputes) else 0;
            && (out.result == Ok(DisputeLost) <==> lost > 0 && RestInEnd(w) <= 0)
            && (out.result == Ok(AlreadyRefunded) <==> lost == 0 && RestInEnd(w) == 0)
            && (out.result == Ok(Refunded(id)) ==>
                  id < |out.world.refunds| && out.world.refunds[id].status == Succeeded
                  && id == if RestInEnd(w) in w.made then w.made[RestInEnd(w)] else |w.refunds|)
            && (RestInEnd(w) > 0 ==> out.result.Ok? && out.result.value.Refunded?)
  {
    hide RefundAfter, GivenInEnd, Settles, MayBePutBack, RestSucceeds;
    PutBackIff(w, answers);
    var settled := if w.charge.disputed then w.(disputes := DecidedUpTo(w.disputes)) else w;
    if w.charge.disputed {
      TakenDecided(w.disputes);
    }
    RefundReportIs(settled, if w.charge.disputed then TakenInEnd(w.disputes) else 0, answers, id);
  }

  lemma RefundReportIs(w: World, lost: nat, answers: Answers, id: nat)
    requires Keyed(w) && RefundAfter(w, lost, true, answers).result.Ok?
    ensures var out, rest := RefundAfter(w, lost, true, answers), w.charge.amount - w.charge.refunded - lost;
            && (out.result == Ok(DisputeLost) <==> lost > 0 && rest <= 0)
            && (out.result == Ok(AlreadyRefunded) <==> lost == 0 && rest == 0)
            && (out.result == Ok(Refunded(id)) ==>
                  id < |out.world.refunds| && out.world.refunds[id].status == Succeeded
                  && id == if rest in w.made then w.made[rest] else |w.refunds|)
            && (rest > 0 ==> out.result.value.Refunded?)
  {
    hide GivenBack, Counted, Waited, AllFinal, WaitedUpTo;
    WaitedLength(w.refunds, w.charge.bank);
  }

  /** What a planned call answers: a loss that applying would take, the refund of what is left, or that nothing is. */
  lemma PlanIs(w: World, answers: Answers)
    requires Keyed(w) && Paid(w)
    ensures var result := CleanupOf(w, false, answers).result;
            var lost := if w.charge.disputed then TakenInEnd(w.disputes) else 0;
            if w.charge.disputed && exists d <- w.disputes :: d.livemode || d.charge != w.charge.id then
              result == Err(ForeignDispute)
            else if w.charge.disputed && exists d <- w.disputes :: d.status in {NeedsResponse, UnderReview} then
              result == Ok(PlannedDisputeLoss)
            else if exists r <- w.refunds :: !Settles(r, w.charge.bank) then result == Err(UnsettledRefund)
            else if GivenInEnd(w.refunds, w.charge.bank) != w.charge.refunded then result.Err?
            else if RestInEnd(w) > 0 then result == Ok(PlannedRefund(RestInEnd(w)))
            else if lost > 0 then result == Ok(DisputeLost)
            else if RestInEnd(w) == 0 then result == Ok(AlreadyRefunded) else result == Err(Disagree)
  {
    hide RefundAfter, GivenInEnd, Settles;
    if w.charge.disputed && forall d <- w.disputes :: !Open(d) {
      TakenDecided(w.disputes);
      ClosedStay(w.disputes);
      RefundPlanIs(w, TakenInEnd(w.disputes), answers);
    }
    RefundPlanIs(w, 0, answers);
  }

  lemma RefundPlanIs(w: World, lost: nat, answers: Answers)
    requires Keyed(w)
    ensures var result, rest := RefundAfter(w, lost, false, answers).result, w.charge.amount - w.charge.refunded - lost;
            if exists r <- w.refunds :: !Settles(r, w.charge.bank) then result == Err(UnsettledRefund)
            else if GivenInEnd(w.refunds, w.charge.bank) != w.charge.refunded then result.Err?
            else if rest > 0 then result == Ok(PlannedRefund(rest))
            else if lost > 0 then result == Ok(DisputeLost)
            else if rest == 0 then result == Ok(AlreadyRefunded) else result == Err(Disagree)
  {
    hide RefundRest, WaitedUpTo, GivenBack, GivenInEnd, Counted, Settles, AllFinal, AllSettled, Waited, Keyed;
    SettlesIsFinal(w.refunds, w.charge.bank);
    if AllFinal(w.refunds, w.charge.bank) {
      WaitedSettles(w.refunds, w.charge.bank);
      GivenPointwise(w.refunds, WaitedUpTo(w.refunds, w.charge.bank), w.charge.bank);
    }
  }

  /** A paid intent is put back exactly when it may be. */
  lemma PutBackIff(w: World, answers: Answers)
    requires Keyed(w) && Paid(w)
    ensures CleanupOf(w, true, answers).result.Ok? <==> MayBePutBack(w, answers)
  {
    hide RefundAfter, GivenInEnd, Settles;
    var settled := if w.charge.disputed then w.(disputes := DecidedUpTo(w.disputes)) else w;
    if w.charge.disputed && Settle(w.disputes) {
      TakenDecided(w.disputes);
      RefundAfterIff(settled, TakenInEnd(w.disputes), answers);
      assert forall rest: nat :: RestSucceeds(settled, rest, answers) <==> RestSucceeds(w, rest, answers);
    }
    RefundAfterIff(w, 0, answers);
  }

  // ---------------------------------------------------------------- planned and applied

  /** Planning creates no refund and loses no dispute; it only waits. */
  lemma PlanningTakesNothing(w: World, answers: Answers)
    requires Keyed(w)
    ensures var after := CleanupOf(w, false, answers).world;
            after == w.(refunds := after.refunds, charge := w.charge.(refunded := after.charge.refunded))
    ensures OnlyWaited(w.refunds, CleanupOf(w, false, answers).world.refunds)
  {
    hide RefundAfter, Keyed, DecidedUpTo, Taken;
    if w.charge.disputed && forall d <- w.disputes :: !Open(d) {
      ClosedStay(w.disputes);
    }
    PlanningWaits(w, 0, answers);
    PlanningWaits(w, Taken(w.disputes), answers);
  }

  lemma PlanningWaits(w: World, lost: nat, answers: Answers)
    requires Keyed(w)
    ensures var after := RefundAfter(w, lost, false, answers).world;
            after == w.(refunds := after.refunds, charge := w.charge.(refunded := after.charge.refunded))
    ensures OnlyWaited(w.refunds, RefundAfter(w, lost, false, answers).world.refunds)
  {
    hide WaitedUpTo, AllFinal, GivenBack, Counted, OnlyWaited;
    WaitedOnly(w.refunds, w.charge.bank);
  }

  /** Pending refunds may have taken their outcome; nothing else changed. */
  ghost predicate OnlyWaited(before: seq<Refund>, after: seq<Refund>) {
    |after| == |before|
    && forall i :: 0 <= i < |before| ==>
         after[i] == before[i] || (before[i].status == Pending && after[i] == before[i].(status := before[i].outcome))
  }

  lemma {:induction false} WaitedOnly(refunds: seq<Refund>, bank: bool)
    ensures OnlyWaited(refunds, WaitedUpTo(refunds, bank))
  {
    if refunds != [] {
      WaitedOnly(refunds[1..], bank);
    }
  }

  /** Without an open dispute, what applying refunds under a new key is what was planned. */
  lemma PlannedIsApplied(w: World, amount: nat, answers: Answers, later: Answers)
    requires Keyed(w) && (w.charge.disputed ==> forall d <- w.disputes :: !Open(d))
    requires CleanupOf(w, false, answers).result == Ok(PlannedRefund(amount))
    ensures var planned, applied := CleanupOf(w, false, answers).world, CleanupOf(w, true, later).world;
            if amount in w.made then applied.refunds == planned.refunds
            else |applied.refunds| == |planned.refunds| + 1 && applied.refunds[..|planned.refunds|] == planned.refunds
                 && applied.refunds[|planned.refunds|].amount == amount
    ensures amount > 0 && amount == Rest(w, w)
  {
    hide RefundRest, WaitedUpTo, GivenBack, Counted, Taken, DecidedUpTo;
    WaitedSettles(w.refunds, w.charge.bank);
    if w.charge.disputed {
      ClosedStay(w.disputes);
    }
    var listed := Rebooked(w, WaitedUpTo(w.refunds, w.charge.bank));
    assert CleanupOf(w, true, later) == RefundRest(listed, amount, later);
    RestAddsOne(listed, amount, later);
  }

  lemma RestAddsOne(w: World, amount: nat, answers: Answers)
    requires Keyed(w) && AllSettled(w.refunds)
    ensures var after := RefundRest(w, amount, answers).world;
            if amount in w.made then after.refunds == w.refunds
            else |after.refunds| == |w.refunds| + 1 && after.refunds[..|w.refunds|] == w.refunds
                 && after.refunds[|w.refunds|].amount == amount
  {
    if amount in w.made {
      assert Final(w.refunds[w.made[amount]]);
    }
  }

  // ---------------------------------------------------------------- runs of calls

  /** A call, or something the provider does by itself. */
  datatype Event =
    | Called(apply: bool, answers: Answers)
    | RefundSettles(i: nat)
    | DisputeDecides(i: nat)

  function Step(w: World, e: Event): World
    requires Keyed(w)
  {
    match e
    case Called(apply, answers) => CleanupOf(w, apply, answers).world
    case RefundSettles(i) =>
      if i < |w.refunds| && w.refunds[i].status == Pending
      then Rebooked(w, w.refunds[i := w.refunds[i].(status := w.refunds[i].outcome)])
      else w
    case DisputeDecides(i) =>
      if i < |w.disputes| && Open(w.disputes[i]) then w.(disputes := w.disputes[i := Decided(w.disputes[i])]) else w
  }

  predicate Live(r: Refund) { r.status != Failed && r.status != RefundCanceled }

  /** A live refund that cleanup made is the last thing the charge owed, and nothing else is under way. */
  ghost predicate LastOwed(w: World, id: nat)
    requires id < |w.refunds|
  {
    Live(w.refunds[id]) ==>
      w.charge.amount <= w.charge.refunded + LostOf(w)
      && forall i :: 0 <= i < |w.refunds| && i != id ==> Final(w.refunds[i])
  }

  /** What every run keeps: the books agree, no more than the charge is refunded, and made refunds are last. */
  ghost predicate Kept(w: World) {
    && Keyed(w) && Booked(w) && w.charge.refunded <= w.charge.amount
    && forall key <- w.made :: LastOwed(w, w.made[key])
  }

  lemma {:induction false} CountedPointwise(a: seq<Refund>, b: seq<Refund>)
    requires |a| == |b|
    requires forall i :: 0 <= i < |a| ==> a[i].amount == b[i].amount && (Live(b[i]) ==> Live(a[i]))
    ensures Counted(b) <= Counted(a)
    ensures (forall i :: 0 <= i < |a| ==> Live(b[i]) == Live(a[i])) ==> Counted(a) == Counted(b)
  {
    if a != [] {
      var n := |a| - 1;
      CountedPointwise(a[..n], b[..n]);
      assert Live(b[n]) ==> Live(a[n]);
    }
  }

  /** Waiting for refunds keeps it. */
  lemma WaitingKeeps(w: World, refunds: seq<Refund>)
    requires Kept(w) && OnlyWaited(w.refunds, refunds)
    ensures Kept(Rebooked(w, refunds))
  {
    CountedPointwise(w.refunds, refunds);
    var after := Rebooked(w, refunds);
    forall key | key in w.made && Live(refunds[w.made[key]])
      ensures LastOwed(after, w.made[key])
    {
      var id := w.made[key];
      assert LastOwed(w, id) && Live(w.refunds[id]);
      forall i | 0 <= i < |refunds|
        ensures Live(refunds[i]) == Live(w.refunds[i])
        ensures i != id ==> Final(refunds[i])
      {
        assert i != id ==> Final(w.refunds[i]);
      }
    }
  }

  /** Disputes that are decided take no less than before. */
  lemma {:induction false} DecidedTakesMore(before: seq<Dispute>, after: seq<Dispute>)
    requires OnlyDecided(before, after)
    ensures Taken(before) <= Taken(after)
  {
    if before != [] {
      var n := |before| - 1;
      DecidedTakesMore(before[..n], after[..n]);
      assert after[n] == before[n] || (Open(before[n]) && after[n] == Decided(before[n]));
    }
  }

  lemma DecidingKeeps(w: World, disputes: seq<Dispute>)
    requires Kept(w) && OnlyDecided(w.disputes, disputes)
    ensures Kept(w.(disputes := disputes))
  {
    DecidedTakesMore(w.disputes, disputes);
    var after := w.(disputes := disputes);
    forall key | key in w.made
      ensures LastOwed(after, w.made[key])
    {
      assert LastOwed(w, w.made[key]);
    }
  }

  /** Refunding the rest keeps it, and a key used before does nothing. */
  lemma RestKeeps(w: World, amount: nat, answers: Answers)
    requires Kept(w) && AllSettled(w.refunds) && amount > 0 && amount == Rest(w, w)
    ensures Kept(RefundRest(w, amount, answers).world)
    ensures amount in w.made ==> RefundRest(w, amount, answers) == Outcome(w, Err(NeedsRetry))
  {
    if amount in w.made {
      assert LastOwed(w, w.made[amount]) && Final(w.refunds[w.made[amount]]);
      RestRepeats(w, amount, answers);
    } else {
      RestMakesNew(w, amount, answers);
      var refund := Waited(Refund(amount, answers.start, answers.outcome), w.charge.bank);
      NewIsLast(w, amount, refund);
    }
  }

  lemma RestRepeats(w: World, amount: nat, answers: Answers)
    requires Keyed(w) && Booked(w) && amount in w.made && Final(w.refunds[w.made[amount]])
    ensures RefundRest(w, amount, answers)
         == Outcome(w, if w.refunds[w.made[amount]].status == Succeeded then Ok(Refunded(w.made[amount])) else Err(NeedsRetry))
  {
    hide Counted;
    assert w.refunds[w.made[amount] := w.refunds[w.made[amount]]] == w.refunds;
  }

  lemma RestMakesNew(w: World, amount: nat, answers: Answers)
    requires Keyed(w) && amount !in w.made
    ensures RefundRest(w, amount, answers).world
         == Rebooked(w, w.refunds + [Waited(Refund(amount, answers.start, answers.outcome), w.charge.bank)])
              .(made := w.made[amount := |w.refunds|])
  {
    hide Counted;
    var start := Refund(amount, answers.start, answers.outcome);
    assert (w.refunds + [start])[|w.refunds| := Waited(start, w.charge.bank)] == w.refunds + [Waited(start, w.charge.bank)];
  }

  lemma NewIsLast(w: World, amount: nat, refund: Refund)
    requires Kept(w) && AllSettled(w.refunds) && amount > 0 && amount == Rest(w, w) && refund.amount == amount
    ensures Kept(Rebooked(w, w.refunds + [refund]).(made := w.made[amount := |w.refunds|]))
  {
    hide Counted, Taken;
    OneMoreRefund(w.refunds, refund);
    var after := Rebooked(w, w.refunds + [refund]).(made := w.made[amount := |w.refunds|]);
    forall key | key in after.made
      ensures LastOwed(after, after.made[key])
    {
      if key in w.made && key != amount {
        assert LastOwed(w, w.made[key]);
      }
    }
  }

  lemma RefundAfterKeeps(w: World, apply: bool, answers: Answers)
    requires Kept(w)
    ensures Kept(RefundAfter(w, LostOf(w), apply, answers).world)
    ensures var rest := Rest(w, w);
            apply && RefundAfter(w, LostOf(w), apply, answers).result.Ok? ==> rest <= 0 || rest !in w.made
  {
    hide Kept, Counted, GivenBack, Taken, WaitedUpTo, Waited;
    KeptIsKeyed(w);
    var refunds := WaitedUpTo(w.refunds, w.charge.bank);
    WaitedOnly(w.refunds, w.charge.bank);
    WaitingKeeps(w, refunds);
    if AllFinal(w.refunds, w.charge.bank) {
      WaitedSettles(w.refunds, w.charge.bank);
      var listed := Rebooked(w, refunds);
      if Rest(w, w) > 0 && GivenBack(refunds) == w.charge.refunded && apply {
        SettledCounts(refunds);
        hide RefundRest;
        RestKeeps(listed, Rest(w, w), answers);
      }
    }
  }

  lemma KeptIsKeyed(w: World)
    requires Kept(w)
    ensures Keyed(w) && Booked(w) && w.charge.refunded <= w.charge.amount
  {
  }

  /** Every step of a run keeps it. */
  lemma StepKeeps(w: World, e: Event)
    requires Kept(w)
    ensures Kept(Step(w, e))
  {
    KeptIsKeyed(w);
    match e
    case Called(apply, answers) => CallKeeps(w, apply, answers);
    case RefundSettles(i) =>
      if i < |w.refunds| && w.refunds[i].status == Pending {
        WaitingKeeps(w, w.refunds[i := w.refunds[i].(status := w.refunds[i].outcome)]);
      }
    case DisputeDecides(i) =>
      if i < |w.disputes| && Open(w.disputes[i]) {
        DecidingKeeps(w, w.disputes[i := Decided(w.disputes[i])]);
      }
  }

  lemma CallKeeps(w: World, apply: bool, answers: Answers)
    requires Kept(w)
    ensures Kept(CleanupOf(w, apply, answers).world)
  {
    hide RefundAfter, Counted, Taken, DecidedUpTo;
    DecidedOnly(w.disputes);
    var settled := w.(disputes := DecidedUpTo(w.disputes));
    DecidingKeeps(w, settled.disputes);
    RefundAfterKeeps(settled, apply, answers);
    if !w.charge.disputed {
      RefundAfterKeeps(w, apply, answers);
    }
    if w.intent.status != IntentSucceeded {
      var canceled := w.(intent := w.intent.(status := answers.canceled));
      assert forall key <- w.made :: LastOwed(w, w.made[key]) ==> LastOwed(canceled, canceled.made[key]);
    }
  }

  ghost predicate Reached(w: World, events: seq<Event>, after: World)
    requires Keyed(w)
    decreases |events|
  {
    if events == [] then after == w
    else Keyed(Step(w, events[0])) && Reached(Step(w, events[0]), events[1..], after)
  }

  /** No run, whatever its calls returned, refunds more than the charge. */
  lemma {:induction false} RunKeeps(w: World, events: seq<Event>, after: World)
    requires Kept(w) && Reached(w, events, after)
    ensures Kept(after)
    decreases |events|
  {
    if events != [] {
      StepKeeps(w, events[0]);
      RunKeeps(Step(w, events[0]), events[1..], after);
    }
  }

  /** In a run, a call that puts the intent back leaves it done with. */
  lemma PutBackEndsRun(w: World, events: seq<Event>, now: World, answers: Answers)
    requires Kept(w) && Reached(w, events, now) && Keyed(now) && PutBack(now, answers)
    ensures Done(CleanupOf(now, true, answers).world)
    ensures var after := CleanupOf(now, true, answers).world;
            GivenBack(after.refunds) + LostOf(after) == now.charge.amount <==> Rest(now, after) >= 0
  {
    hide CleanupOf, RefundAfter, Counted, Taken, GivenBack;
    RunKeeps(w, events, now);
    NoKeyIsUsedTwice(now, answers);
    PutBackConserves(now, answers);
    PutBackIsDone(now, answers);
  }

  lemma NoKeyIsUsedTwice(w: World, answers: Answers)
    requires Kept(w) && PutBack(w, answers)
    ensures var rest := Rest(w, CleanupOf(w, true, answers).world); rest <= 0 || rest !in w.made
  {
    hide RefundAfter, Counted, Taken, GivenBack, DecidedUpTo;
    var settled := ReachesRefunds(w, answers);
    if w.charge.disputed {
      DecidedOnly(w.disputes);
      DecidingKeeps(w, DecidedUpTo(w.disputes));
    }
    RefundAfterKeeps(settled, true, answers);
    RefundAfterLeaves(settled, answers);
  }

  /** Once done with, always: later calls return so, and no refund is ever created again. */
  lemma {:induction false} DoneStays(w: World, events: seq<Event>, after: World)
    requires Done(w) && Reached(w, events, after)
    ensures Done(after) && after.refunds == w.refunds && after.charge == w.charge
    decreases |events|
  {
    if events != [] {
      match events[0]
      case Called(apply, answers) => DoneCallChangesNothing(w, apply, answers);
      case RefundSettles(i) =>
        if i < |w.refunds| {
          assert Final(w.refunds[i]);
        }
      case DisputeDecides(i) =>
        if i < |w.disputes| {
          assert w.charge.disputed ==> !Open(w.disputes[i]);
        }
    }
    if events != [] {
      DoneStays(Step(w, events[0]), events[1..], after);
    }
  }

  // ---------------------------------------------------------------- the calls, step by step

  /** The provider's side of one intent. */
  class Provider {
    var intent: Intent
    var charge: Charge
    var refunds: seq<Refund>
    var disputes: seq<Dispute>
    var made: map<nat, nat>

    /** How often it was asked to cancel the intent. */
    ghost var cancels: nat

    constructor (w: World)
      ensures Now() == w && cancels == 0
    {
      intent, charge, refunds, disputes, made := w.intent, w.charge, w.refunds, w.disputes, w.made;
      cancels := 0;
    }

    function Now(): World
      reads this
    {
      World(intent, charge, refunds, disputes, made)
    }

    method WaitForRefund(id: nat) returns (refund: Refund)
      requires id < |refunds| && Booked(Now())
      modifies `refunds, `charge
      ensures refund == Waited(old(refunds[id]), charge.bank)
      ensures Now() == Rebooked(old(Now()), old(refunds)[id := refund])
    {
      refund := refunds[id];
      assert refunds[id := refund] == refunds;
      if charge.bank && refund.status == Pending {
        refund := refund.(status := refund.outcome);
        refunds := refunds[id := refund];
        charge := charge.(refunded := Counted(refunds));
      }
    }

    method MakeRefund(amount: nat, answers: Answers) returns (id: nat)
      requires Keyed(Now())
      modifies `refunds, `charge, `made
      ensures (Now(), id) == CreateRefund(old(Now()), amount, answers)
    {
      if amount in made {
        id := made[amount];
      } else {
        id := |refunds|;
        refunds := refunds + [Refund(amount, answers.start, answers.outcome)];
        charge := charge.(refunded := Counted(refunds));
        made := made[amount := id];
      }
    }

    /** Losing evidence for an open dispute, waited for; the verdict may not fall in time. */
    method SubmitEvidence(id: nat) returns (decided: Result<Dispute, Problem>)
      requires id < |disputes| && Open(disputes[id])
      modifies `disputes
      ensures Now() == old(Now()).(disputes := old(disputes)[id := Decided(old(disputes[id]))])
      ensures disputes[id].status == match old(disputes[id]).verdict
                                     case None => UnderReview
                                     case Some(lost) => if lost then Lost else Won
      ensures decided == if old(disputes[id]).verdict == None then Err(DisputeTimeout) else Ok(disputes[id])
    {
      var dispute := disputes[id];
      match dispute.verdict
      case None =>
        disputes := disputes[id := dispute.(status := UnderReview)];
        decided := Err(DisputeTimeout);
      case Some(lost) =>
        disputes := disputes[id := dispute.(status := if lost then Lost else Won)];
        decided := Ok(disputes[id]);
    }

    /** Canceling leaves the status that the provider answers with. */
    method CancelIntent(answers: Answers)
      modifies `intent, `cancels
      ensures intent == old(intent).(status := answers.canceled) && cancels == old(cancels) + 1
    {
      intent := intent.(status := answers.canceled);
      cancels := cancels + 1;
    }
  }

  /** The first of the disputes decided, those after as they were. */
  function DecideFirst(disputes: seq<Dispute>, n: nat): (after: seq<Dispute>)
    requires n <= |disputes|
    ensures |after| == |disputes|
  {
    seq(|disputes|, i requires 0 <= i < |disputes| =>
      if i < n && Open(disputes[i]) then Decided(disputes[i]) else disputes[i])
  }

  lemma DecideNext(disputes: seq<Dispute>, n: nat)
    requires n < |disputes|
    ensures DecideFirst(disputes, n)[n] == disputes[n]
    ensures DecideFirst(disputes, n + 1)
         == if Open(disputes[n]) then DecideFirst(disputes, n)[n := Decided(disputes[n])] else DecideFirst(disputes, n)
  {
  }

  lemma DecideNone(disputes: seq<Dispute>)
    ensures DecideFirst(disputes, 0) == disputes
  {
  }

  /** Disputes are told apart by their ids. */
  predicate Numbered(disputes: seq<Dispute>) { forall i :: 0 <= i < |disputes| ==> disputes[i].id == i }

  lemma {:induction false} DecidedAll(disputes: seq<Dispute>)
    requires Settle(disputes)
    ensures DecidedUpTo(disputes) == DecideFirst(disputes, |disputes|)
  {
    if disputes != [] {
      DecidedAll(disputes[1..]);
    }
  }

  lemma {:induction false} DecidedUntil(disputes: seq<Dispute>, n: nat)
    requires n < |disputes| && Open(disputes[n]) && disputes[n].verdict == None && Settle(disputes[..n])
    ensures DecidedUpTo(disputes) == DecideFirst(disputes, n + 1)
  {
    if n > 0 {
      assert disputes[0] in disputes[..n];
      assert disputes[1..][..n - 1] == disputes[..n][1..];
      DecidedUntil(disputes[1..], n - 1);
    }
  }

  function TakenBy(d: Dispute): nat { if d.status == Lost then d.amount else 0 }

  lemma {:induction false} TakenSplit(a: seq<Dispute>, b: seq<Dispute>)
    ensures Taken(a + b) == Taken(a) + Taken(b)
  {
    if b == [] {
      assert a + b == a;
    } else {
      var n := |b| - 1;
      TakenSplit(a, b[..n]);
      assert (a + b)[..|a| + n] == a + b[..n];
      assert (a + b)[|a| + n] == b[n];
    }
  }

  lemma TakenOne(d: Dispute)
    ensures Taken([d]) == TakenBy(d)
  {
    assert [d][..0] == [];
  }

  lemma TakenWithout(disputes: seq<Dispute>, i: nat)
    requires i < |disputes|
    ensures Taken(disputes) == Taken(disputes[..i] + disputes[i + 1..]) + TakenBy(disputes[i])
  {
    hide Taken, TakenBy;
    assert disputes == disputes[..i] + ([disputes[i]] + disputes[i + 1..]);
    TakenSplit(disputes[..i], [disputes[i]] + disputes[i + 1..]);
    TakenSplit([disputes[i]], disputes[i + 1..]);
    TakenSplit(disputes[..i], disputes[i + 1..]);
    TakenOne(disputes[i]);
  }

  lemma TakenReplaced(disputes: seq<Dispute>, i: nat, d: Dispute)
    requires i < |disputes|
    ensures Taken(disputes[i := d]) + TakenBy(disputes[i]) == Taken(disputes) + TakenBy(d)
  {
    TakenWithout(disputes, i);
    TakenWithout(disputes[i := d], i);
    assert disputes[i := d][..i] + disputes[i := d][i + 1..] == disputes[..i] + disputes[i + 1..];
  }

  /** The list with a dispute taken out and its decided form put last. */
  method Exchange(disputes: seq<Dispute>, gone: Dispute, decided: Dispute) returns (after: seq<Dispute>)
    requires gone in disputes
    ensures Taken(after) + TakenBy(gone) == Taken(disputes) + TakenBy(decided)
    ensures forall d <- disputes :: d != gone ==> d in after
  {
    var i := 0;
    while disputes[i] != gone
      invariant 0 <= i < |disputes| && gone !in disputes[..i]
      decreases |disputes| - i
    {
      i := i + 1;
    }
    after := disputes[..i] + disputes[i + 1..];
    TakenWithout(disputes, i);
    forall d | d in disputes && d != gone
      ensures d in after
    {
      var j :| 0 <= j < |disputes| && disputes[j] == d;
      assert after[if j < i then j else j - 1] == d;
    }
    after := after + [decided];
    TakenSplit(disputes[..i] + disputes[i + 1..], [decided]);
    TakenOne(decided);
  }

  /** Each open dispute is lost in turn; what all lost ones took. */
  method LoseOpen(p: Provider) returns (lost: Result<nat, Problem>)
    requires Numbered(p.disputes)
    modifies p`disputes
    ensures p.Now() == old(p.Now()).(disputes := DecidedUpTo(old(p.disputes)))
    ensures lost == if Settle(old(p.disputes)) then Ok(Taken(p.disputes)) else Err(DisputeTimeout)
  {
    hide Taken, TakenBy, DecidedUpTo, DecideFirst, Decided, Settle, Numbered;
    var listed := p.disputes;
    var local := listed;
    DecideNone(listed);
    NoneSettled(listed);
    for n := 0 to |listed|
      invariant p.intent == old(p.intent) && p.charge == old(p.charge)
      invariant p.refunds == old(p.refunds) && p.made == old(p.made)
      invariant p.disputes == DecideFirst(listed, n)
      invariant Settle(listed[..n])
      invariant Taken(local) == Taken(p.disputes)
      invariant forall i :: n <= i < |listed| && Open(listed[i]) ==> listed[i] in local
    {
      DecideNext(listed, n);
      if Open(listed[n]) {
        ghost var before := p.disputes;
        var decided := p.SubmitEvidence(n);
        if decided.Err? {
          DecidedUntil(listed, n);
          NotSettled(listed, n);
          return Err(decided.error);
        }
        TakenReplaced(before, n, decided.value);
        OthersDiffer(listed, n);
        local := Exchange(local, listed[n], decided.value);
      }
      OneMoreSettles(listed, n);
    }
    assert listed[..|listed|] == listed;
    DecidedAll(listed);
    lost := Ok(Taken(local));
  }

  lemma NoneSettled(disputes: seq<Dispute>)
    ensures Settle(disputes[..0])
  {
  }

  lemma OneMoreSettles(disputes: seq<Dispute>, n: nat)
    requires n < |disputes| && Settle(disputes[..n]) && (Open(disputes[n]) ==> disputes[n].verdict.Some?)
    ensures Settle(disputes[..n + 1])
  {
    assert disputes[..n + 1] == disputes[..n] + [disputes[n]];
  }

  lemma OthersDiffer(disputes: seq<Dispute>, n: nat)
    requires n < |disputes| && Numbered(disputes)
    ensures forall i :: n < i < |disputes| ==> disputes[i] != disputes[n]
  {
  }

  /** What lost disputes took, losing those still open; no amount if that is only planned. */
  method LoseDisputes(p: Provider, apply: bool) returns (lost: Result<Option<nat>, Problem>)
    requires Numbered(p.disputes)
    modifies p`disputes
    ensures (p.Now(), lost) == SettleDisputes(old(p.Now()), apply)
  {
    hide Taken, DecidedUpTo;
    if exists d <- p.disputes :: Foreign(d, p.charge.id) {
      return Err(ForeignDispute);
    }
    if (exists d <- p.disputes :: Open(d)) && !apply {
      return Ok(None);
    }
    var taken := LoseOpen(p);
    lost := if taken.Err? then Err(taken.error) else Ok(Some(taken.value));
  }

  lemma NotSettled(disputes: seq<Dispute>, n: nat)
    requires n < |disputes| && Open(disputes[n]) && disputes[n].verdict == None
    ensures !Settle(disputes)
  {
  }

  /** The first refunds waited for, those after as they were. */
  function WaitFirst(refunds: seq<Refund>, bank: bool, n: nat): (after: seq<Refund>)
    requires n <= |refunds|
    ensures |after| == |refunds|
  {
    seq(|refunds|, i requires 0 <= i < |refunds| => if i < n then Waited(refunds[i], bank) else refunds[i])
  }

  lemma {:induction false} WaitedAll(refunds: seq<Refund>, bank: bool)
    requires AllFinal(refunds, bank)
    ensures WaitedUpTo(refunds, bank) == WaitFirst(refunds, bank, |refunds|)
  {
    WaitedSettles(refunds, bank);
  }

  lemma {:induction false} WaitedUntil(refunds: seq<Refund>, bank: bool, n: nat)
    requires n < |refunds| && !Final(Waited(refunds[n], bank)) && AllFinal(refunds[..n], bank)
    ensures WaitedUpTo(refunds, bank) == WaitFirst(refunds, bank, n + 1)
  {
    if n > 0 {
      assert refunds[0] in refunds[..n];
      assert refunds[1..][..n - 1] == refunds[..n][1..];
      WaitedUntil(refunds[1..], bank, n - 1);
    }
  }

  lemma WaitNext(refunds: seq<Refund>, bank: bool, n: nat)
    requires n < |refunds|
    ensures WaitFirst(refunds, bank, n)[n] == refunds[n]
    ensures WaitFirst(refunds, bank, n + 1) == WaitFirst(refunds, bank, n)[n := Waited(refunds[n], bank)]
  {
  }

  lemma WaitNone(refunds: seq<Refund>, bank: bool)
    ensures WaitFirst(refunds, bank, 0) == refunds && AllFinal(refunds[..0], bank) && GivenBack(refunds[..0]) == 0
  {
  }

  lemma OneMoreFinal(refunds: seq<Refund>, bank: bool, n: nat)
    requires n < |refunds| && AllFinal(refunds[..n], bank) && Final(Waited(refunds[n], bank))
    ensures AllFinal(refunds[..n + 1], bank)
  {
    assert refunds[..n + 1] == refunds[..n] + [refunds[n]];
  }

  /** What settled refunds gave back, waiting for each in turn. */
  method SettledRefunds(p: Provider) returns (given: Result<nat, Problem>)
    requires Booked(p.Now())
    modifies p`refunds, p`charge
    ensures p.Now() == Rebooked(old(p.Now()), WaitedUpTo(old(p.refunds), p.charge.bank))
    ensures given == if AllFinal(old(p.refunds), p.charge.bank) then Ok(GivenBack(p.refunds)) else Err(UnsettledRefund)
  {
    hide Counted, WaitedUpTo, GivenBack, Waited, WaitFirst, AllFinal;
    ghost var start := p.Now();
    ghost var refunds, bank := p.refunds, p.charge.bank;
    var sum := 0;
    WaitNone(refunds, bank);
    assert p.refunds[..0] == refunds[..0];
    for n := 0 to |p.refunds|
      invariant p.Now() == Rebooked(start, WaitFirst(refunds, bank, n))
      invariant AllFinal(refunds[..n], bank) && sum == GivenBack(p.refunds[..n])
    {
      WaitNext(refunds, bank, n);
      ghost var before := p.refunds;
      var refund := p.WaitForRefund(n);
      if refund.status != Succeeded && refund.status != Failed && refund.status != RefundCanceled {
        WaitedUntil(refunds, bank, n);
        NotAllFinal(refunds, bank, n);
        return Err(UnsettledRefund);
      }
      assert p.refunds[..n] == before[..n];
      OneMoreGiven(p.refunds, n);
      if refund.status == Succeeded {
        sum := sum + refund.amount;
      }
      OneMoreFinal(refunds, bank, n);
    }
    assert refunds[..|refunds|] == refunds && p.refunds[..|refunds|] == p.refunds;
    WaitedAll(refunds, bank);
    given := Ok(sum);
  }

  lemma NotAllFinal(refunds: seq<Refund>, bank: bool, n: nat)
    requires n < |refunds| && !Final(Waited(refunds[n], bank))
    ensures !AllFinal(refunds, bank)
  {
  }

  lemma OneMoreGiven(refunds: seq<Refund>, n: nat)
    requires n < |refunds|
    ensures GivenBack(refunds[..n + 1]) == GivenBack(refunds[..n]) + if refunds[n].status == Succeeded then refunds[n].amount else 0
  {
    assert refunds[..n + 1][..n] == refunds[..n];
  }

  /** What may be canceled: not paid, not canceled yet, not under way. */
  predicate Cancelable(intent: Intent) {
    !intent.livemode && intent.status != IntentSucceeded && intent.status != IntentCanceled && intent.status != Processing
  }

  /** What a call leaves and returns, besides refunding a paid intent. */
  lemma CallEffects(w: World, apply: bool, answers: Answers)
    requires Keyed(w)
    ensures var after, result := CleanupOf(w, apply, answers).world, CleanupOf(w, apply, answers).result;
            && (result == Ok(Canceled) ==> after.intent.status == IntentCanceled)
            && (Cancelable(w.intent) && apply ==>
                  after == w.(intent := w.intent.(status := answers.canceled))
                  && result == if answers.canceled == IntentCanceled then Ok(Canceled) else Err(CancelFailed))
            && (Cancelable(w.intent) && !apply ==> result == Ok(PlannedCancel))
            && (!(Cancelable(w.intent) && apply) ==> after.intent == w.intent)
            && (!w.intent.livemode && w.intent.status == IntentCanceled ==> result == Ok(AlreadyCanceled))
            && (w.intent.livemode ==> result == Err(LiveProvider))
            && (!w.intent.livemode && w.intent.status == Processing ==> result == Err(StillProcessing))
            && (w.intent.status != IntentSucceeded && !(Cancelable(w.intent) && apply) ==> after == w)
            && (w.intent.status == IntentSucceeded && !Paid(w) ==> result.Err? && after == w)
            && (Paid(w) && apply ==> (result.Ok? <==> MayBePutBack(w, answers)))
  {
    if Paid(w) && apply {
      PutBackIff(w, answers);
    }
    hide MayBePutBack, RefundAfter, SettleDisputes, Keyed;
    if Paid(w) {
      hide CleanupOf;
      PaidCall(w, apply, answers);
    }
  }

  lemma SettlingKeepsIntent(w: World, apply: bool)
    requires Keyed(w)
    ensures Keyed(SettleDisputes(w, apply).0) && SettleDisputes(w, apply).0.intent == w.intent
  {
    hide DecidedUpTo, Taken, Settle;
  }

  lemma RefundingKeepsIntent(w: World, lost: nat, apply: bool, answers: Answers)
    requires Keyed(w)
    ensures var out := RefundAfter(w, lost, apply, answers); out.world.intent == w.intent && out.result != Ok(Canceled)
  {
    hide WaitedUpTo, GivenBack, Counted, Waited, AllFinal;
  }

  /** A paid intent keeps its status whatever the call does, and is not reported canceled. */
  lemma PaidCall(w: World, apply: bool, answers: Answers)
    requires Keyed(w) && Paid(w)
    ensures var out := CleanupOf(w, apply, answers); out.world.intent == w.intent && out.result != Ok(Canceled)
  {
    hide RefundAfter, SettleDisputes;
    RefundingKeepsIntent(w, 0, apply, answers);
    SettlingKeepsIntent(w, apply);
    var (settled, lost) := SettleDisputes(w, apply);
    if lost.Ok? && lost.value.Some? {
      RefundingKeepsIntent(settled, lost.value.value, apply, answers);
    }
  }

  /**
   * Put an owned intent back, or say what that would take. A paid one is put back exactly when its evidence allows; one
   * that may be canceled is asked to be once, and reported canceled exactly if it is; all else changes nothing.
   */
  method CleanupIntent(p: Provider, apply: bool, answers: Answers) returns (result: Result<Report, Problem>)
    requires Keyed(p.Now()) && Booked(p.Now()) && Numbered(p.disputes)
    modifies p
    ensures Outcome(p.Now(), result) == CleanupOf(old(p.Now()), apply, answers)
    ensures result == Ok(Canceled) ==> p.intent.status == IntentCanceled
    ensures Cancelable(old(p.intent)) && apply ==>
              p.Now() == old(p.Now()).(intent := old(p.intent).(status := answers.canceled))
              && (if answers.canceled == IntentCanceled then result == Ok(Canceled) else result == Err(CancelFailed))
    ensures p.cancels == old(p.cancels) + if Cancelable(old(p.intent)) && apply then 1 else 0
    ensures Cancelable(old(p.intent)) && !apply ==> result == Ok(PlannedCancel)
    ensures !(Cancelable(old(p.intent)) && apply) ==> p.intent == old(p.intent)
    ensures old(!p.intent.livemode && p.intent.status == IntentCanceled) ==> result == Ok(AlreadyCanceled)
    ensures old(p.intent.livemode) ==> result == Err(LiveProvider)
    ensures old(!p.intent.livemode && p.intent.status == Processing) ==> result == Err(StillProcessing)
    ensures old(p.intent.status != IntentSucceeded) && !(Cancelable(old(p.intent)) && apply) ==> p.Now() == old(p.Now())
    ensures old(p.intent.status == IntentSucceeded && !Paid(p.Now())) ==> result.Err? && p.Now() == old(p.Now())
    ensures old(Paid(p.Now())) && apply ==> (result.Ok? <==> MayBePutBack(old(p.Now()), answers))
  {
    CallEffects(p.Now(), apply, answers);
    hide MayBePutBack, Booked, RefundAfter, SettleDisputes, Paid, Keyed, Numbered;
    if p.intent.livemode {
      return Err(LiveProvider);
    }
    match p.intent.status
    case IntentSucceeded =>
      hide CleanupOf;
      result := CleanupPaid(p, apply, answers);
    case IntentCanceled => result := Ok(AlreadyCanceled);
    case Processing => result := Err(StillProcessing);
    case _ =>
      if !apply {
        return Ok(PlannedCancel);
      }
      p.CancelIntent(answers);
      result := if p.intent.status == IntentCanceled then Ok(Canceled) else Err(CancelFailed);
  }

  /** Canceled once, it is reported so from then on, and nothing is asked or changed. */
  method CancelTwice(p: Provider, answers: Answers, apply: bool, later: Answers)
    returns (first: Result<Report, Problem>, second: Result<Report, Problem>)
    requires Keyed(p.Now()) && Booked(p.Now()) && Numbered(p.disputes)
    requires Cancelable(p.intent) && answers.canceled == IntentCanceled
    modifies p
    ensures first == Ok(Canceled) && second == Ok(AlreadyCanceled) && p.cancels == old(p.cancels) + 1
    ensures p.Now() == old(p.Now()).(intent := old(p.intent).(status := IntentCanceled))
  {
    first := CleanupIntent(p, true, answers);
    second := CleanupIntent(p, apply, later);
  }

  method CleanupPaid(p: Provider, apply: bool, answers: Answers) returns (result: Result<Report, Problem>)
    requires Keyed(p.Now()) && Booked(p.Now()) && Numbered(p.disputes)
    requires !p.intent.livemode && p.intent.status == IntentSucceeded
    modifies p`refunds, p`charge, p`disputes, p`made
    ensures Outcome(p.Now(), result) == CleanupOf(old(p.Now()), apply, answers)
  {
    if p.intent.latestCharge == None {
      return Err(NoCharge);
    }
    if p.charge.livemode || p.charge.intent != p.intent.id || p.charge.amount != p.intent.amount {
      return Err(ForeignCharge);
    }
    var lost := 0;
    if p.charge.disputed {
      var taken := LoseDisputes(p, apply);
      match taken
      case Err(problem) => return Err(problem);
      case Ok(None) => return Ok(PlannedDisputeLoss);
      case Ok(Some(amount)) => lost := amount;
    }
    result := RefundWhatIsLeft(p, lost, apply, answers);
  }

  method RefundWhatIsLeft(p: Provider, lost: nat, apply: bool, answers: Answers) returns (result: Result<Report, Problem>)
    requires Keyed(p.Now()) && Booked(p.Now())
    modifies p`refunds, p`charge, p`made
    ensures Outcome(p.Now(), result) == RefundAfter(old(p.Now()), lost, apply, answers)
  {
    hide Counted, GivenBack, WaitedUpTo, AllFinal;
    var charge := p.charge;
    WaitedLength(p.refunds, p.charge.bank);
    var given := SettledRefunds(p);
    if given.Err? {
      return Err(given.error);
    }
    var remaining := charge.amount - charge.refunded - lost;
    if lost > 0 && remaining <= 0 {
      return if given.value != charge.refunded then Err(Disagree) else Ok(DisputeLost);
    }
    if remaining == 0 {
      return if given.value != charge.amount then Err(NoRefundEvidence) else Ok(AlreadyRefunded);
    }
    if remaining < 0 || given.value != charge.refunded {
      return Err(Disagree);
    }
    if !apply {
      return Ok(PlannedRefund(remaining));
    }
    var id := p.MakeRefund(remaining, answers);
    var refund := p.WaitForRefund(id);
    result := if refund.status == Succeeded then Ok(Refunded(id)) else Err(NeedsRetry);
  }
}
