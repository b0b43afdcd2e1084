/**
 * The access policy: whether a user may provision one more device, decided
 * from the user's active subscription, the current time and the number of
 * devices already live on that subscription.
 */
module Access {
  import opened Common
  import opened Storage

  datatype Reason =
    | NoSubscription
    | SubscriptionExpired
    | SubscriptionPaused
    | DeviceLimitReached(count: int, limit: int)

  datatype Decision = Allow | Deny(reason: Reason)

  /** A subscription whose status and end date let devices be added. */
  predicate InForce(s: Subscription, now: int) {
    (s.status == Active || s.status == Expiring) && now <= s.endsAt
  }

  /**
   * The decision cascade once the subscription is known. `count` is the
   * device count query's outcome; it is consulted only when the subscription
   * is in force, as the query is only issued then.
   */
  function Decide(sub: Option<Subscription>, now: int, count: Result<nat>): (r: Result<Decision>)
    ensures r == Ok(Allow) <==> sub.Some? && InForce(sub.value, now) && count.Ok? && count.value < sub.value.deviceLimit
    ensures r.Err? <==> sub.Some? && InForce(sub.value, now) && count.Err?
    ensures sub.None? ==> r == Ok(Deny(NoSubscription))
    ensures sub.Some? && sub.value.status == Expired ==> r == Ok(Deny(SubscriptionExpired))
    ensures sub.Some? && sub.value.status == Paused ==>
              r == Ok(Deny(if sub.value.gracePeriodEndsAt.Some? && now > sub.value.gracePeriodEndsAt.value
                           then SubscriptionExpired else SubscriptionPaused))
    ensures sub.Some? && (sub.value.status == Active || sub.value.status == Expiring) && now > sub.value.endsAt ==>
              r == Ok(Deny(SubscriptionExpired))
    ensures r.Ok? && r.value.Deny? && r.value.reason.DeviceLimitReached? ==>
              count.Ok? && r.value.reason == DeviceLimitReached(count.value, sub.value.deviceLimit)
              && count.value >= sub.value.deviceLimit
  {
    if sub.None? then Ok(Deny(NoSubscription))
    else
      var s := sub.value;
      match s.status
      case Expired => Ok(Deny(SubscriptionExpired))
      case Paused =>
        if s.gracePeriodEndsAt.Some? && now > s.gracePeriodEndsAt.value then Ok(Deny(SubscriptionExpired))
        else Ok(Deny(SubscriptionPaused))
      case _ =>
        if now > s.endsAt then Ok(Deny(SubscriptionExpired))
        else if count.Err? then Err(count.error)
        else if count.value >= s.deviceLimit then Ok(Deny(DeviceLimitReached(count.value, s.deviceLimit)))
        else Ok(Allow)
  }

  /**
   * CanProvisionDevice against the ledger: the active-subscription lookup
   * and the device count either fail (the flags) or read the tables.
   */
  function CanProvisionDevice(subs: seq<Subscription>, devices: seq<Device>, userId: int, now: int,
                              lookupFails: bool, countFails: bool): (r: Result<Decision>)
    ensures r == Ok(Allow) <==>
              && !lookupFails && !countFails
              && ActiveSubscriptionByUserID(subs, userId).Some?
              && var s := ActiveSubscriptionByUserID(subs, userId).value;
              && InForce(s, now) && |ActiveDeviceRows(devices, s.id)| < s.deviceLimit
    ensures lookupFails ==> r == Err(StoreFailure)
    ensures r.Err? <==>
              || lookupFails
              || (countFails && ActiveSubscriptionByUserID(subs, userId).Some?
                  && InForce(ActiveSubscriptionByUserID(subs, userId).value, now))
    ensures !lookupFails && ActiveSubscriptionByUserID(subs, userId).None? ==> r == Ok(Deny(NoSubscription))
    ensures !lookupFails && ActiveSubscriptionByUserID(subs, userId).Some? ==>
              var s := ActiveSubscriptionByUserID(subs, userId).value;
              r == Decide(Some(s), now, if countFails then Err(StoreFailure) else Ok(|ActiveDeviceRows(devices, s.id)|))
  {
    if lookupFails then Err(StoreFailure)
    else
      var sub := ActiveSubscriptionByUserID(subs, userId);
      var count: Result<nat> :=
        if countFails then Err(StoreFailure)
        else if sub.Some? then Ok(CountActiveDevices(devices, sub.value.id))
        else Ok(0);
      Decide(sub, now, count)
  }

  /** An allowed provisioning, once recorded, stays within the device limit. */
  lemma AllowedDeviceFitsLimit(subs: seq<Subscription>, devices: seq<Device>, userId: int, now: int,
                               name: string, key: string, ip: string)
    requires DevicesValid(devices)
    requires CanProvisionDevice(subs, devices, userId, now, false, false) == Ok(Allow)
    requires InsertDevice(devices, userId, ActiveSubscriptionByUserID(subs, userId).value.id, name, key, ip, now).Ok?
    ensures var s := ActiveSubscriptionByUserID(subs, userId).value;
            var d := InsertDevice(devices, userId, s.id, name, key, ip, now).value;
            CountActiveDevices(d, s.id) <= s.deviceLimit
  {
    var s := ActiveSubscriptionByUserID(subs, userId).value;
    var d := InsertDevice(devices, userId, s.id, name, key, ip, now).value;
    assert d[..|d| - 1] == devices;
  }
}
