/**
 * Billing: pricing, payment attempts, proof upload and the administrator's
 * approval or rejection. Approval marks the payment approved and then
 * extends the user's live subscription or creates a new one; the two writes
 * are separate statements, not one transaction.
 */
module Billing {
  import opened Common
  import opened Storage

  /** 100 roubles per device, in kopecks. */
  const BasePricePerDevice: int := 10000

  /** The subscription lengths on sale. */
  predicate ValidDuration(days: int) { days == 30 || days == 90 || days == 180 }

  predicate ValidDeviceCount(n: int) { 1 <= n <= 5 }

  /** Discount factor in percent: 5% off 90 days, 10% off 180 days, none otherwise. */
  function DiscountPercent(durationDays: int): (p: int)
    ensures durationDays == 90 ==> p == 95
    ensures durationDays == 180 ==> p == 90
    ensures durationDays != 90 && durationDays != 180 ==> p == 100
  {
    if durationDays == 90 then 95 else if durationDays == 180 then 90 else 100
  }

  /**
   * CalculatePrice. The source multiplies by a float factor and rounds; for
   * these factors 10000 * n * factor is a whole number, so nothing is lost
   * to rounding and the percentage form gives the same amount.
   */
  function CalculatePrice(durationDays: int, deviceCount: int): (amount: int)
    ensures durationDays == 90 ==> amount == 9500 * deviceCount
    ensures durationDays == 180 ==> amount == 9000 * deviceCount
    ensures durationDays != 90 && durationDays != 180 ==> amount == BasePricePerDevice * deviceCount
    ensures amount * 100 == BasePricePerDevice * deviceCount * DiscountPercent(durationDays)
  {
    (BasePricePerDevice / 100) * deviceCount * DiscountPercent(durationDays)
  }

  /** More devices never cost less, and a longer plan never costs more per 30 days. */
  lemma PriceOrdering(durationDays: int, n: int, m: int)
    requires ValidDuration(durationDays) && ValidDeviceCount(n) && ValidDeviceCount(m) && n <= m
    ensures CalculatePrice(durationDays, n) <= CalculatePrice(durationDays, m)
    ensures CalculatePrice(durationDays, n) * 30 <= CalculatePrice(30, n) * durationDays
    ensures 0 < CalculatePrice(durationDays, n) <= BasePricePerDevice * n
  {
  }

  /**
   * The subscription a first approval creates: active from `now`, ending
   * after the paid number of days, with a three-day grace period, the paid
   * device count as its limit.
   */
  function NewSubscription(p: Payment, id: int, now: int): (s: Subscription)
    ensures s.id == id && s.userId == p.userId && s.status == Active && IsLive(s.status)
    ensures s.startsAt == now && s.endsAt == now + Days(p.durationDays)
    ensures s.gracePeriodEndsAt == Some(s.endsAt + Days(3))
    ensures s.deviceLimit == p.deviceCount && s.amount == p.amount && s.durationDays == p.durationDays
    ensures s.createdAt == now
  {
    var endsAt := now + Days(p.durationDays);
    Subscription(id, p.userId, p.durationDays, p.deviceCount, p.amount, Active, now, endsAt,
                 Some(endsAt + Days(3)), now)
  }

  /** The repository calls a billing operation makes; a step in `faults` fails. */
  datatype Step = PaymentInsert | ProofUpdate | PaymentLookup | StatusUpdate | SubscriptionLookup | SubscriptionWrite

  /** Why a review stops before any write, if it does. */
  function ReviewCheck(p: Option<Payment>): (r: Outcome)
    ensures r == Pass <==> p.Some? && p.value.status == PendingReview
  {
    if p.None? then Fail(NotFound)
    else if p.value.status != PendingReview then Fail(WrongStatus)
    else Pass
  }

  /**
   * The subscriptions table after a successful approval of `p`: the user's
   * live subscription extended, or a new one appended.
   */
  function AfterApproval(subs: seq<Subscription>, p: Payment, now: int): (r: seq<Subscription>)
    requires SubscriptionsValid(subs)
    ensures SubscriptionsValid(r)
    ensures ActiveSubscriptionByUserID(r, p.userId).Some?
    ensures ActiveSubscriptionByUserID(r, p.userId).value.status == Active
    ensures ActiveSubscriptionByUserID(subs, p.userId).None? ==> r == subs + [NewSubscription(p, |subs| + 1, now)]
    ensures var a := ActiveSubscriptionByUserID(subs, p.userId);
            a.Some? ==> && 1 <= a.value.id <= |subs|
                        && r == subs[a.value.id - 1 := Extended(a.value, p.durationDays, p.amount)]
  {
    var live := ActiveSubscriptionByUserID(subs, p.userId);
    if live.Some? then
      var t := Extended(live.value, p.durationDays, p.amount);
      SelectRewritten(subs, p.userId, t);
      subs[t.id - 1 := t]
    else
      var s := NewSubscription(p, |subs| + 1, now);
      SelectAppended(subs, s);
      subs + [s]
  }

  /** Approving while a live subscription exists pushes its end date on by exactly the paid days. */
  lemma ApprovalExtendsEnd(subs: seq<Subscription>, p: Payment, now: int)
    requires SubscriptionsValid(subs) && ActiveSubscriptionByUserID(subs, p.userId).Some?
    ensures var old_ := ActiveSubscriptionByUserID(subs, p.userId).value;
            var new_ := ActiveSubscriptionByUserID(AfterApproval(subs, p, now), p.userId).value;
            new_.id == old_.id && new_.endsAt == old_.endsAt + Days(p.durationDays)
            && new_.deviceLimit == old_.deviceLimit
  {
    var a := ActiveSubscriptionByUserID(subs, p.userId).value;
    var t := Extended(a, p.durationDays, p.amount);
    assert AfterApproval(subs, p, now) == subs[a.id - 1 := t];
    SelectRewritten(subs, p.userId, t);
  }

  class Service {
    const repo: Repository

    constructor (repo: Repository)
      ensures this.repo == repo
    {
      this.repo := repo;
    }

    /**
     * CreatePaymentAttempt: validates the plan, draws a reference code and a
     * comment (None: the random source failed), prices the plan and inserts
     * a payment in status created. The row is stored with `now`; the
     * returned struct carries its new id but Go's zero time as CreatedAt.
     */
    method CreatePaymentAttempt(userId: int, durationDays: int, deviceCount: int,
                                referenceCode: Option<string>, comment: Option<string>,
                                now: int, faults: set<Step>) returns (r: Result<Payment>)
      requires repo.Valid()
      modifies repo`payments
      ensures repo.Valid()
      ensures r.Err? ==> repo.payments == old(repo.payments)
      ensures !ValidDuration(durationDays) ==> r == Err(InvalidDuration)
      ensures ValidDuration(durationDays) && !ValidDeviceCount(deviceCount) ==> r == Err(InvalidDeviceCount)
      ensures ValidDuration(durationDays) && ValidDeviceCount(deviceCount) && (referenceCode.None? || comment.None?) ==>
                r == Err(RandomFailure)
      ensures r.Ok? ==> && ValidDuration(durationDays) && ValidDeviceCount(deviceCount)
                        && referenceCode.Some? && comment.Some? && PaymentInsert !in faults
                        && r.value == Payment(|old(repo.payments)| + 1, userId, durationDays, deviceCount,
                                              CalculatePrice(durationDays, deviceCount), referenceCode.value,
                                              comment.value, Created, None, ZeroTime, None, None)
                        && repo.payments == old(repo.payments) + [r.value.(createdAt := now)]
      ensures ValidDuration(durationDays) && ValidDeviceCount(deviceCount) && referenceCode.Some? && comment.Some?
              && PaymentInsert !in faults ==>
                (r.Ok? <==> forall q :: q in old(repo.payments) ==>
                              q.referenceCode != referenceCode.value && q.paymentComment != comment.value)
    {
      if !ValidDuration(durationDays) {
        return Err(InvalidDuration);
      }
      if !ValidDeviceCount(deviceCount) {
        return Err(InvalidDeviceCount);
      }
      if referenceCode.None? || comment.None? {
        return Err(RandomFailure);
      }
      if PaymentInsert in faults {
        return Err(StoreFailure);
      }
      var amount := CalculatePrice(durationDays, deviceCount);
      var id := repo.CreatePayment(userId, durationDays, deviceCount, amount, referenceCode.value,
                                   comment.value, Created, now);
      if id.Err? {
        return Err(id.error);
      }
      // Only the id is copied back into the caller's struct; its CreatedAt stays unset.
      r := Ok(repo.payments[id.value - 1].(createdAt := ZeroTime));
    }

    /** AttachProofAndMoveToPendingReview. */
    method AttachProofAndMoveToPendingReview(paymentId: int, proof: string, faults: set<Step>)
      returns (r: Outcome)
      requires repo.Valid()
      modifies repo`payments
      ensures repo.Valid()
      ensures ProofUpdate in faults ==> r == Fail(StoreFailure) && repo.payments == old(repo.payments)
      ensures ProofUpdate !in faults ==> r == Pass && repo.payments == WithProof(old(repo.payments), paymentId, proof)
    {
      if ProofUpdate in faults {
        return Fail(StoreFailure);
      }
      repo.AttachProofToPayment(paymentId, proof);
      r := Pass;
    }

    /**
     * AdminApprovePayment: only a payment in pending_review whose comment is
     * the one the administrator saw is approved; then the subscription is
     * extended or created. A failure after the status update leaves the
     * payment approved without a subscription change.
     */
    method AdminApprovePayment(paymentId: int, reviewedBy: string, verifiedComment: string,
                               now: int, faults: set<Step>) returns (r: Outcome)
      requires repo.Valid()
      modifies repo`payments, repo`subscriptions
      ensures repo.Valid()
      ensures var p := PaymentByID(old(repo.payments), paymentId);
              var refused := PaymentLookup in faults || ReviewCheck(p).Fail?
                             || p.value.paymentComment != verifiedComment || StatusUpdate in faults;
              && (refused ==> r.Fail? && repo.payments == old(repo.payments)
                              && repo.subscriptions == old(repo.subscriptions))
              && (PaymentLookup !in faults && ReviewCheck(p).Fail? ==> r == ReviewCheck(p))
              && (PaymentLookup !in faults && ReviewCheck(p).Pass? && p.value.paymentComment != verifiedComment ==>
                    r == Fail(CommentMismatch))
              && (!refused ==> repo.payments == Reviewed(old(repo.payments), paymentId, Approved, reviewedBy, now))
              && (!refused && (SubscriptionLookup in faults || SubscriptionWrite in faults) ==>
                    r == Fail(StoreFailure) && repo.subscriptions == old(repo.subscriptions))
              && (!refused && SubscriptionLookup !in faults && SubscriptionWrite !in faults ==>
                    r == Pass && repo.subscriptions == AfterApproval(old(repo.subscriptions), p.value, now))
    {
      if PaymentLookup in faults {
        return Fail(StoreFailure);
      }
      var p := PaymentByID(repo.payments, paymentId);
      var check := ReviewCheck(p);
      if check.Fail? {
        return check;
      }
      var payment := p.value;
      if verifiedComment != payment.paymentComment {
        return Fail(CommentMismatch);
      }
      if StatusUpdate in faults {
        return Fail(StoreFailure);
      }
      repo.UpdatePaymentStatus(paymentId, Approved, reviewedBy, now);
      if SubscriptionLookup in faults || SubscriptionWrite in faults {
        return Fail(StoreFailure);
      }
      var live := ActiveSubscriptionByUserID(repo.subscriptions, payment.userId);
      if live.Some? {
        var e := repo.ExtendSubscription(live.value.id, payment.durationDays, payment.amount);
        assert e == Pass;
      } else {
        var s := NewSubscription(payment, |repo.subscriptions| + 1, now);
        var id := repo.CreateSubscription(s.userId, s.durationDays, s.deviceLimit, s.amount, s.status,
                                          s.startsAt, s.endsAt, s.gracePeriodEndsAt, now);
      }
      r := Pass;
    }

    /** AdminRejectPayment: the same checks as approval, without the comment; then status rejected. */
    method AdminRejectPayment(paymentId: int, reviewedBy: string, now: int, faults: set<Step>)
      returns (r: Outcome)
      requires repo.Valid()
      modifies repo`payments
      ensures repo.Valid()
      ensures var p := PaymentByID(old(repo.payments), paymentId);
              && (PaymentLookup in faults ==> r == Fail(StoreFailure))
              && (PaymentLookup !in faults && ReviewCheck(p).Fail? ==> r == ReviewCheck(p))
              && (r.Fail? ==> repo.payments == old(repo.payments))
              && (r.Pass? <==> PaymentLookup !in faults && ReviewCheck(p).Pass? && StatusUpdate !in faults)
              && (r.Pass? ==> repo.payments == Reviewed(old(repo.payments), paymentId, Rejected, reviewedBy, now))
    {
      if PaymentLookup in faults {
        return Fail(StoreFailure);
      }
      var p := PaymentByID(repo.payments, paymentId);
      var check := ReviewCheck(p);
      if check.Fail? {
        return check;
      }
      if StatusUpdate in faults {
        return Fail(StoreFailure);
      }
      repo.UpdatePaymentStatus(paymentId, Rejected, reviewedBy, now);
      r := Pass;
    }
  }
}
