/**
 * The daily scheduler: a sweep that moves each live subscription at most one
 * step along Active -> Expiring -> Paused -> Expired, and a cleanup pass
 * that marks revoked the devices of subscriptions expired for more than 30
 * days past their grace end. Both passes work from a list fetched at the
 * start of the pass; a failed update of one row is skipped and the pass goes
 * on.
 */
module Scheduler {
  import opened Common
  import opened Storage

  /** Position along the lifecycle. */
  function Rank(s: SubscriptionStatus): nat {
    match s
    case Active => 0
    case Expiring => 1
    case Paused => 2
    case Expired => 3
  }

  /**
   * The status change one sweep applies to a subscription seen with status
   * `s.status` at time `now`, if any. All comparisons are strict.
   */
  function Transition(s: Subscription, now: int): (r: Option<SubscriptionStatus>)
    ensures r == Some(Expiring) <==> s.status == Active && s.endsAt - Days(3) < now < s.endsAt
    ensures r == Some(Paused) <==> s.status == Expiring && now > s.endsAt
    ensures r == Some(Expired) <==> s.status == Paused && s.gracePeriodEndsAt.Some? && now > s.gracePeriodEndsAt.value
    ensures r.Some? ==> Rank(r.value) == Rank(s.status) + 1
    ensures s.status == Active && now >= s.endsAt ==> r.None?
  {
    if s.endsAt - Days(3) < now < s.endsAt && s.status == Active then Some(Expiring)
    else if now > s.endsAt && s.status == Expiring then Some(Paused)
    else if s.gracePeriodEndsAt.Some? && now > s.gracePeriodEndsAt.value && s.status == Paused then Some(Expired)
    else None
  }

  /** One subscription after a sweep; the update of a row whose id is in `failing` does not happen. */
  function Swept(s: Subscription, now: int, failing: set<int>): (r: Subscription)
    ensures r == s.(status := r.status)
    ensures Rank(r.status) == Rank(s.status) || Rank(r.status) == Rank(s.status) + 1
    ensures r.status != s.status <==> Transition(s, now).Some? && s.id !in failing
  {
    var t := Transition(s, now);
    if t.Some? && s.id !in failing then s.(status := t.value) else s
  }

  /** The subscriptions table after updateSubscriptionStatuses. */
  function SweepTable(subs: seq<Subscription>, now: int, failing: set<int>): (r: seq<Subscription>)
    requires SubscriptionsValid(subs)
    ensures |r| == |subs| && SubscriptionsValid(r)
    ensures forall i :: 0 <= i < |subs| ==> r[i] == Swept(subs[i], now, failing)
  {
    seq(|subs|, i requires 0 <= i < |subs| => Swept(subs[i], now, failing))
  }

  /** The devices table after revokeExpiredDevices with the given cutoff; `failing` rows are skipped. */
  function CleanupTable(devices: seq<Device>, subs: seq<Subscription>, cutoff: int, now: int,
                        failing: set<int>): (r: seq<Device>)
    requires DevicesValid(devices) && SubscriptionsValid(subs)
    ensures |r| == |devices| && DevicesValid(r)
    ensures forall i :: 0 <= i < |devices| ==>
              r[i] == if CleanupCandidate(subs, devices[i], cutoff) && devices[i].id !in failing
                      then devices[i].(revokedAt := Some(now)) else devices[i]
  {
    seq(|devices|, i requires 0 <= i < |devices| =>
          if CleanupCandidate(subs, devices[i], cutoff) && devices[i].id !in failing
          then devices[i].(revokedAt := Some(now)) else devices[i])
  }

  /** The subscriptions table once the sweep has handled the fetched rows in `seen`. */
  ghost function SweepPrefix(subs: seq<Subscription>, seen: seq<Subscription>, now: int, failing: set<int>)
    : (r: seq<Subscription>)
    requires SubscriptionsValid(subs)
    ensures |r| == |subs| && SubscriptionsValid(r)
  {
    seq(|subs|, i requires 0 <= i < |subs| => if subs[i] in seen then Swept(subs[i], now, failing) else subs[i])
  }

  /** Handling one more fetched row is the single status write its transition calls for. */
  lemma SweepPrefixStep(subs: seq<Subscription>, seen: seq<Subscription>, s: Subscription, now: int,
                        failing: set<int>)
    requires SubscriptionsValid(subs) && s in subs
    ensures var t := Transition(s, now);
            var before := SweepPrefix(subs, seen, now, failing);
            SweepPrefix(subs, seen + [s], now, failing) ==
              if t.Some? && s.id !in failing then SetStatus(before, s.id, t.value) else before
  {
    var j :| 0 <= j < |subs| && subs[j] == s;
    assert s.id == j + 1;
  }

  /** Once every live row has been handled, the table is the swept table. */
  lemma SweepPrefixComplete(subs: seq<Subscription>, seen: seq<Subscription>, now: int, failing: set<int>)
    requires SubscriptionsValid(subs)
    requires forall x :: x in seen <==> x in subs && IsLive(x.status)
    ensures SweepPrefix(subs, seen, now, failing) == SweepTable(subs, now, failing)
  {
  }

  /** The devices table once the cleanup pass has handled the fetched rows in `seen`. */
  ghost function CleanupPrefix(devices: seq<Device>, seen: seq<Device>, now: int, failing: set<int>)
    : (r: seq<Device>)
    requires DevicesValid(devices)
    ensures |r| == |devices| && DevicesValid(r)
  {
    seq(|devices|, i requires 0 <= i < |devices| =>
          if devices[i] in seen && devices[i].id !in failing then devices[i].(revokedAt := Some(now)) else devices[i])
  }

  lemma CleanupPrefixStep(devices: seq<Device>, seen: seq<Device>, d: Device, now: int, failing: set<int>)
    requires DevicesValid(devices) && d in devices
    ensures var before := CleanupPrefix(devices, seen, now, failing);
            CleanupPrefix(devices, seen + [d], now, failing) ==
              if d.id !in failing then RevokeRow(before, d.id, now) else before
  {
    var j :| 0 <= j < |devices| && devices[j] == d;
    assert d.id == j + 1;
  }

  lemma CleanupPrefixComplete(devices: seq<Device>, subs: seq<Subscription>, seen: seq<Device>, cutoff: int,
                              now: int, failing: set<int>)
    requires DevicesValid(devices) && SubscriptionsValid(subs)
    requires forall x :: x in seen <==> x in devices && CleanupCandidate(subs, x, cutoff)
    ensures CleanupPrefix(devices, seen, now, failing) == CleanupTable(devices, subs, cutoff, now, failing)
  {
  }

  /**
   * The sweep is not idempotent: an Expiring subscription whose grace end
   * has already passed is paused by one sweep and expired by the next.
   */
  lemma SweepNotIdempotent()
    ensures var s := Subscription(1, 1, 30, 1, 10000, Expiring, 0, Days(30), Some(Days(33)), 0);
            var now := Days(40);
            Swept(s, now, {}).status == Paused && Swept(Swept(s, now, {}), now, {}).status == Expired
  {
  }

  /** At a fixed time, two sweeps reach a state that further sweeps leave unchanged. */
  lemma {:induction false} SweepSettles(s: Subscription, now: int)
    ensures Swept(Swept(Swept(s, now, {}), now, {}), now, {}) == Swept(Swept(s, now, {}), now, {})
  {
    var s1 := Swept(s, now, {});
    if s.status == Active && Transition(s, now).Some? {
      assert s1.status == Expiring && now < s1.endsAt;
      assert Swept(s1, now, {}) == s1;
    }
  }

  class Scheduler {
    const repo: Repository
    var running: bool

    constructor (repo: Repository)
      ensures this.repo == repo && !running
    {
      this.repo := repo;
      running := false;
    }

    /** Start sets the running flag (the ticker and goroutines are not modelled). */
    method Start()
      modifies this`running
      ensures running
    {
      running := true;
    }

    /** Stop clears the running flag; later runs do nothing. */
    method Stop()
      modifies this`running
      ensures !running
    {
      running := false;
    }

    /**
     * updateSubscriptionStatuses: fetch the live subscriptions, then write
     * each one's transition; a write to a row in `failing` fails and is
     * skipped.
     */
    method UpdateSubscriptionStatuses(now: int, listFails: bool, failing: set<int>) returns (r: Outcome)
      requires repo.Valid()
      modifies repo`subscriptions
      ensures repo.Valid()
      ensures listFails ==> r == Fail(StoreFailure) && repo.subscriptions == old(repo.subscriptions)
      ensures !listFails ==> r == Pass && repo.subscriptions == SweepTable(old(repo.subscriptions), now, failing)
    {
      if listFails {
        return Fail(StoreFailure);
      }
      ghost var subs := repo.subscriptions;
      var list := repo.GetSubscriptionsNeedingUpdate();
      WriteTransitions(list, subs, now, failing);
      SweepPrefixComplete(subs, list, now, failing);
      r := Pass;
    }

    /** The loop of updateSubscriptionStatuses over the fetched rows `list`, all taken from `subs`. */
    method WriteTransitions(list: seq<Subscription>, ghost subs: seq<Subscription>, now: int, failing: set<int>)
      requires repo.Valid() && repo.subscriptions == subs
      requires forall x :: x in list ==> x in subs
      modifies repo`subscriptions
      ensures repo.Valid() && repo.subscriptions == SweepPrefix(subs, list, now, failing)
    {
      var k := 0;
      while k < |list|
        invariant 0 <= k <= |list|
        invariant repo.Valid() && repo.subscriptions == SweepPrefix(subs, list[..k], now, failing)
      {
        var s := list[k];
        SweepPrefixStep(subs, list[..k], s, now, failing);
        assert list[..k + 1] == list[..k] + [s];
        var t := Transition(s, now);
        if t.Some? && s.id !in failing {
          repo.UpdateSubscriptionStatus(s.id, t.value);
        }
        k := k + 1;
      }
      assert list[..k] == list;
    }

    /**
     * revokeExpiredDevices: fetch the devices past the cleanup cutoff
     * (now minus 30 days) and mark each revoked; a write to a row in
     * `failing` fails and is skipped. The live interface is not touched.
     */
    method RevokeExpiredDevices(now: int, listFails: bool, failing: set<int>) returns (r: Outcome)
      requires repo.Valid()
      modifies repo`devices
      ensures repo.Valid()
      ensures listFails ==> r == Fail(StoreFailure) && repo.devices == old(repo.devices)
      ensures !listFails ==>
                r == Pass && repo.devices == CleanupTable(old(repo.devices), repo.subscriptions, now - Days(30), now, failing)
    {
      if listFails {
        return Fail(StoreFailure);
      }
      ghost var devices := repo.devices;
      var list := repo.GetExpiredDevicesToCleanup(now - Days(30));
      RevokeEach(list, devices, now, failing);
      CleanupPrefixComplete(devices, repo.subscriptions, list, now - Days(30), now, failing);
      r := Pass;
    }

    /** The loop of revokeExpiredDevices over the fetched rows `list`, all taken from `devices`. */
    method RevokeEach(list: seq<Device>, ghost devices: seq<Device>, now: int, failing: set<int>)
      requires repo.Valid() && repo.devices == devices
      requires forall x :: x in list ==> x in devices
      modifies repo`devices
      ensures repo.Valid() && repo.devices == CleanupPrefix(devices, list, now, failing)
    {
      var k := 0;
      while k < |list|
        invariant 0 <= k <= |list|
        invariant repo.Valid() && repo.devices == CleanupPrefix(devices, list[..k], now, failing)
      {
        var d := list[k];
        CleanupPrefixStep(devices, list[..k], d, now, failing);
        assert list[..k + 1] == list[..k] + [d];
        if d.id !in failing {
          repo.RevokeDevice(d.id, now);
        }
        k := k + 1;
      }
      assert list[..k] == list;
    }

    /**
     * run: nothing when stopped; otherwise the status sweep, then the
     * cleanup pass, which sees the statuses the sweep has just written. An
     * error in one pass does not stop the next. (The notification pass
     * between them only reads.)
     */
    method Run(now: int, sweepListFails: bool, sweepFailing: set<int>, cleanupListFails: bool,
               cleanupFailing: set<int>)
      requires repo.Valid()
      modifies repo`subscriptions, repo`devices
      ensures repo.Valid()
      ensures !running ==> repo.subscriptions == old(repo.subscriptions) && repo.devices == old(repo.devices)
      ensures running ==>
                && repo.subscriptions == (if sweepListFails then old(repo.subscriptions)
                                          else SweepTable(old(repo.subscriptions), now, sweepFailing))
                && repo.devices == (if cleanupListFails then old(repo.devices)
                                    else CleanupTable(old(repo.devices), repo.subscriptions, now - Days(30), now,
                                                      cleanupFailing))
    {
      if !running {
        return;
      }
      var sweep := UpdateSubscriptionStatuses(now, sweepListFails, sweepFailing);
      var cleanup := RevokeExpiredDevices(now, cleanupListFails, cleanupFailing);
    }
  }
}
