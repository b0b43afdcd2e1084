/**
 * The ledger: the users, payments, subscriptions and devices tables and the
 * repository operations over them. Rows are never deleted, so the
 * AUTOINCREMENT id of a row is its position plus one. The schema's UNIQUE
 * constraints are the table invariants, and an insert that would break one
 * fails.
 */
module Storage {
  import opened Common

  datatype User = User(id: int, telegramId: int, username: string, createdAt: int)

  /**
   * Go's zero `time.Time` (1 January of year 1, UTC), in seconds from the
   * Unix epoch: the CreatedAt of a struct the code never sets.
   */
  const ZeroTime: int := -62135596800

  /** Payment statuses; `PaymentExpired` is the source's "expired". */
  datatype PaymentStatus = Created | PendingReview | Approved | Rejected | PaymentExpired | Cancelled

  datatype Payment = Payment(
    id: int,
    userId: int,
    durationDays: int,
    deviceCount: int,
    amount: int,                   // kopecks
    referenceCode: string,
    paymentComment: string,
    status: PaymentStatus,
    proofFileId: Option<string>,
    createdAt: int,
    reviewedAt: Option<int>,
    reviewedBy: Option<string>)

  datatype SubscriptionStatus = Active | Expiring | Paused | Expired

  datatype Subscription = Subscription(
    id: int,
    userId: int,
    durationDays: int,
    deviceLimit: int,
    amount: int,
    status: SubscriptionStatus,
    startsAt: int,
    endsAt: int,
    gracePeriodEndsAt: Option<int>,
    createdAt: int)

  datatype Device = Device(
    id: int,
    userId: int,
    subscriptionId: int,
    deviceName: string,
    peerPublicKey: string,
    assignedIP: string,
    createdAt: int,
    revokedAt: Option<int>)

  /** The statuses GetActiveSubscriptionByUserID and GetSubscriptionsNeedingUpdate select. */
  predicate IsLive(s: SubscriptionStatus) { s == Active || s == Expiring || s == Paused }

  // ---------------------------------------------------------------------------
  // table invariants (the schema's keys and UNIQUE columns)

  ghost predicate UsersValid(users: seq<User>) {
    && (forall i :: 0 <= i < |users| ==> users[i].id == i + 1)
    && (forall i, j :: 0 <= i < j < |users| ==> users[i].telegramId != users[j].telegramId)
  }

  ghost predicate PaymentsValid(payments: seq<Payment>) {
    && (forall i :: 0 <= i < |payments| ==> payments[i].id == i + 1)
    && (forall i, j :: 0 <= i < j < |payments| ==> payments[i].referenceCode != payments[j].referenceCode)
    && (forall i, j :: 0 <= i < j < |payments| ==> payments[i].paymentComment != payments[j].paymentComment)
  }

  ghost predicate SubscriptionsValid(subs: seq<Subscription>) {
    forall i :: 0 <= i < |subs| ==> subs[i].id == i + 1
  }

  /** peer_public_key is UNIQUE over every row, revoked or not; assigned_ip is not. */
  ghost predicate DevicesValid(devices: seq<Device>) {
    && (forall i :: 0 <= i < |devices| ==> devices[i].id == i + 1)
    && (forall i, j :: 0 <= i < j < |devices| ==> devices[i].peerPublicKey != devices[j].peerPublicKey)
  }

  // ---------------------------------------------------------------------------
  // SQLite's BINARY collation for TEXT columns: compare character by character,
  // a proper prefix sorts first (UTF-8 byte order is code point order).

  predicate TextLe(a: string, b: string)
    decreases |a|
  {
    a == [] || (b != [] && (a[0] < b[0] || (a[0] == b[0] && TextLe(a[1..], b[1..]))))
  }

  lemma {:induction false} TextLeTotal(a: string, b: string)
    ensures TextLe(a, b) || TextLe(b, a)
    decreases |a|
  {
    if a != [] && b != [] && a[0] == b[0] {
      TextLeTotal(a[1..], b[1..]);
    }
  }

  lemma {:induction false} TextLeTransitive(a: string, b: string, c: string)
    requires TextLe(a, b) && TextLe(b, c)
    ensures TextLe(a, c)
    decreases |a|
  {
    if a != [] && b != [] && c != [] && a[0] == b[0] && b[0] == c[0] {
      TextLeTransitive(a[1..], b[1..], c[1..]);
    }
  }

  lemma {:induction false} TextLeAntisymmetric(a: string, b: string)
    requires TextLe(a, b) && TextLe(b, a)
    ensures a == b
    decreases |a|
  {
    if a != [] {
      TextLeAntisymmetric(a[1..], b[1..]);
      assert a == [a[0]] + a[1..] && b == [b[0]] + b[1..];
    }
  }

  /** `ORDER BY <text column> DESC LIMIT 1`: the greatest string under the collation. */
  function MaxText(xs: seq<string>): (r: string)
    requires |xs| > 0
    ensures r in xs
    ensures forall x :: x in xs ==> TextLe(x, r)
  {
    if |xs| == 1 then
      TextLeTotal(xs[0], xs[0]);
      xs[0]
    else
      var m := MaxText(xs[..|xs| - 1]);
      var last := xs[|xs| - 1];
      assert xs == xs[..|xs| - 1] + [last];
      TextLeTotal(m, last);
      TextLeTotal(last, last);
      if TextLe(m, last) then
        assert forall x :: x in xs[..|xs| - 1] ==> TextLe(x, last) by {
          forall x | x in xs[..|xs| - 1] ensures TextLe(x, last) { TextLeTransitive(x, m, last); }
        }
        last
      else m
  }

  // ---------------------------------------------------------------------------
  // single-row queries (QueryRowContext ... Scan): a row, or none

  /** SELECT ... FROM users WHERE telegram_id = ? */
  function UserByTelegramID(users: seq<User>, telegramId: int): (r: Option<User>)
    ensures r.Some? ==> r.value in users && r.value.telegramId == telegramId
    ensures r.None? ==> forall u :: u in users ==> u.telegramId != telegramId
  {
    if users == [] then None
    else if users[0].telegramId == telegramId then Some(users[0])
    else UserByTelegramID(users[1..], telegramId)
  }

  /** SELECT ... FROM users WHERE id = ? */
  function UserByID(users: seq<User>, id: int): (r: Option<User>)
    requires UsersValid(users)
    ensures r.Some? <==> exists u :: u in users && u.id == id
    ensures r.Some? ==> r.value in users && r.value.id == id
  {
    if 1 <= id <= |users| then Some(users[id - 1]) else None
  }

  /** SELECT ... FROM users WHERE username = ? (the first row in table order). */
  function UserByUsername(users: seq<User>, username: string): (r: Option<User>)
    ensures r.Some? ==> r.value in users && r.value.username == username
    ensures r.None? ==> forall u :: u in users ==> u.username != username
  {
    if users == [] then None
    else if users[0].username == username then Some(users[0])
    else UserByUsername(users[1..], username)
  }

  /** SELECT ... FROM payments WHERE id = ? */
  function PaymentByID(payments: seq<Payment>, id: int): (r: Option<Payment>)
    requires PaymentsValid(payments)
    ensures r.Some? <==> exists p :: p in payments && p.id == id
    ensures r.Some? ==> r.value in payments && r.value.id == id
  {
    if 1 <= id <= |payments| then Some(payments[id - 1]) else None
  }

  /** SELECT ... FROM payments WHERE reference_code = ? */
  function PaymentByReferenceCode(payments: seq<Payment>, code: string): (r: Option<Payment>)
    ensures r.Some? ==> r.value in payments && r.value.referenceCode == code
    ensures r.None? ==> forall p :: p in payments ==> p.referenceCode != code
  {
    if payments == [] then None
    else if payments[0].referenceCode == code then Some(payments[0])
    else PaymentByReferenceCode(payments[1..], code)
  }

  /** SELECT ... FROM subscriptions WHERE id = ? */
  function SubscriptionByID(subs: seq<Subscription>, id: int): (r: Option<Subscription>)
    requires SubscriptionsValid(subs)
    ensures r.Some? <==> exists s :: s in subs && s.id == id
    ensures r.Some? ==> r.value in subs && r.value.id == id
  {
    if 1 <= id <= |subs| then Some(subs[id - 1]) else None
  }

  /**
   * GetActiveSubscriptionByUserID: the user's subscription in a live status
   * with the latest created_at (on equal created_at, the later row).
   */
  function ActiveSubscriptionByUserID(subs: seq<Subscription>, userId: int): (r: Option<Subscription>)
    ensures r.Some? ==> r.value in subs && r.value.userId == userId && IsLive(r.value.status)
    ensures r.Some? ==> forall s :: s in subs && s.userId == userId && IsLive(s.status) ==>
                          s.createdAt <= r.value.createdAt
    ensures r.None? <==> forall s :: s in subs ==> !(s.userId == userId && IsLive(s.status))
  {
    if subs == [] then None
    else
      var rest := ActiveSubscriptionByUserID(subs[..|subs| - 1], userId);
      var last := subs[|subs| - 1];
      assert subs == subs[..|subs| - 1] + [last];
      if last.userId == userId && IsLive(last.status) && (rest.None? || rest.value.createdAt <= last.createdAt)
      then Some(last)
      else rest
  }

  /** A live row appended for a user with no live subscription becomes that user's active subscription. */
  lemma SelectAppended(subs: seq<Subscription>, s: Subscription)
    requires ActiveSubscriptionByUserID(subs, s.userId).None? && IsLive(s.status)
    ensures ActiveSubscriptionByUserID(subs + [s], s.userId) == Some(s)
  {
    assert (subs + [s])[..|subs|] == subs;
  }

  /**
   * Rewriting the selected row in place, keeping its user, a live status and
   * its created_at, leaves it the selected row.
   */
  lemma SelectRewritten(subs: seq<Subscription>, userId: int, t: Subscription)
    requires SubscriptionsValid(subs)
    requires ActiveSubscriptionByUserID(subs, userId).Some?
    requires var s := ActiveSubscriptionByUserID(subs, userId).value;
             t.id == s.id && t.userId == userId && IsLive(t.status) && t.createdAt == s.createdAt
    ensures ActiveSubscriptionByUserID(subs[t.id - 1 := t], userId) == Some(t)
  {
    var s := ActiveSubscriptionByUserID(subs, userId).value;
    var k := s.id - 1;
    assert subs[k] == s;
    var subs2 := subs[k := t];
    SelectRewrittenPrefix(subs, subs2, userId, k, |subs|);
    assert subs[..|subs|] == subs && subs2[..|subs|] == subs2;
  }

  lemma {:induction false} SelectRewrittenPrefix(subs: seq<Subscription>, subs2: seq<Subscription>,
                                                 userId: int, k: int, n: int)
    requires SubscriptionsValid(subs)
    requires 0 <= k < n <= |subs| == |subs2|
    requires forall i :: 0 <= i < |subs| && i != k ==> subs2[i] == subs[i]
    requires subs[k].userId == userId && IsLive(subs[k].status)
    requires subs2[k].userId == userId && IsLive(subs2[k].status) && subs2[k].createdAt == subs[k].createdAt
    ensures ActiveSubscriptionByUserID(subs2[..n], userId) ==
              if ActiveSubscriptionByUserID(subs[..n], userId) == Some(subs[k]) then Some(subs2[k])
              else ActiveSubscriptionByUserID(subs[..n], userId)
    decreases n
  {
    assert subs[..n][..n - 1] == subs[..n - 1];
    assert subs2[..n][..n - 1] == subs2[..n - 1];
    if n == k + 1 {
      assert subs2[..k] == subs[..k];
      var rest := ActiveSubscriptionByUserID(subs[..k], userId);
      if rest.Some? {
        assert rest.value in subs[..k];
        assert rest.value.id != subs[k].id;
      }
    } else {
      SelectRewrittenPrefix(subs, subs2, userId, k, n - 1);
      assert subs[n - 1].id != subs[k].id;
    }
  }

  /** SELECT ... FROM devices WHERE peer_public_key = ?; revoked rows match too. */
  function DeviceByPeerPublicKey(devices: seq<Device>, key: string): (r: Option<Device>)
    ensures r.Some? ==> r.value in devices && r.value.peerPublicKey == key
    ensures r.None? <==> forall d :: d in devices ==> d.peerPublicKey != key
  {
    if devices == [] then None
    else if devices[0].peerPublicKey == key then Some(devices[0])
    else DeviceByPeerPublicKey(devices[1..], key)
  }

  /** Indices of the rows COUNT(*) ... WHERE subscription_id = ? AND revoked_at IS NULL counts. */
  ghost function ActiveDeviceRows(devices: seq<Device>, subscriptionId: int): set<int> {
    set i | 0 <= i < |devices| && devices[i].subscriptionId == subscriptionId && devices[i].revokedAt.None?
  }

  /** CountActiveDevicesBySubscription. */
  function CountActiveDevices(devices: seq<Device>, subscriptionId: int): (n: nat)
    ensures n == |ActiveDeviceRows(devices, subscriptionId)|
  {
    if devices == [] then
      assert ActiveDeviceRows(devices, subscriptionId) == {};
      0
    else
      var k := |devices| - 1;
      var init := devices[..k];
      var n := CountActiveDevices(init, subscriptionId);
      var counts := devices[k].subscriptionId == subscriptionId && devices[k].revokedAt.None?;
      assert ActiveDeviceRows(devices, subscriptionId)
          == ActiveDeviceRows(init, subscriptionId) + (if counts then {k} else {});
      n + (if counts then 1 else 0)
  }

  // ---------------------------------------------------------------------------
  // multi-row queries: the rows the WHERE clause selects, in table order,
  // then ORDER BY created_at ASC where the query has one

  predicate SortedByCreatedAt(ps: seq<Payment>) {
    forall i, j :: 0 <= i < j < |ps| ==> ps[i].createdAt <= ps[j].createdAt
  }

  lemma ConsSorted(x: Payment, ps: seq<Payment>)
    requires SortedByCreatedAt(ps)
    requires forall j :: 0 <= j < |ps| ==> x.createdAt <= ps[j].createdAt
    ensures SortedByCreatedAt([x] + ps)
  {
    var r := [x] + ps;
    forall i, j | 0 <= i < j < |r| ensures r[i].createdAt <= r[j].createdAt {
      assert r[j] == ps[j - 1];
      if i > 0 { assert r[i] == ps[i - 1]; }
    }
  }

  /** Places `p` after every row created no later than it. */
  function InsertByCreatedAt(ps: seq<Payment>, p: Payment): (r: seq<Payment>)
    requires SortedByCreatedAt(ps)
    ensures SortedByCreatedAt(r)
    ensures multiset(r) == multiset(ps) + multiset{p}
    ensures forall x :: x in r ==> x in ps || x == p
  {
    if ps == [] then [p]
    else if p.createdAt < ps[0].createdAt then
      ConsSorted(p, ps);
      [p] + ps
    else
      var rest := InsertByCreatedAt(ps[1..], p);
      assert ps == [ps[0]] + ps[1..];
      assert forall j :: 0 <= j < |rest| ==> ps[0].createdAt <= rest[j].createdAt by {
        forall j | 0 <= j < |rest| ensures ps[0].createdAt <= rest[j].createdAt {
          if rest[j] != p {
            assert rest[j] in rest;
            var k :| 0 <= k < |ps[1..]| && ps[1..][k] == rest[j];
            assert ps[k + 1] == rest[j];
          }
        }
      }
      ConsSorted(ps[0], rest);
      [ps[0]] + rest
  }

  /** ORDER BY created_at ASC. */
  function SortByCreatedAt(ps: seq<Payment>): (r: seq<Payment>)
    ensures SortedByCreatedAt(r)
    ensures multiset(r) == multiset(ps)
  {
    if ps == [] then []
    else
      assert ps == ps[..|ps| - 1] + [ps[|ps| - 1]];
      InsertByCreatedAt(SortByCreatedAt(ps[..|ps| - 1]), ps[|ps| - 1])
  }

  /** WHERE user_id = ? AND status = ?, in table order. */
  function MatchingPayments(payments: seq<Payment>, userId: int, status: PaymentStatus): (r: seq<Payment>)
    ensures forall p :: p in r <==> p in payments && p.userId == userId && p.status == status
  {
    if payments == [] then []
    else
      var last := payments[|payments| - 1];
      assert payments == payments[..|payments| - 1] + [last];
      MatchingPayments(payments[..|payments| - 1], userId, status)
        + (if last.userId == userId && last.status == status then [last] else [])
  }

  /** WHERE status = 'pending_review', in table order. */
  function PendingInTable(payments: seq<Payment>): (r: seq<Payment>)
    ensures forall p :: p in r <==> p in payments && p.status == PendingReview
  {
    if payments == [] then []
    else
      var last := payments[|payments| - 1];
      assert payments == payments[..|payments| - 1] + [last];
      PendingInTable(payments[..|payments| - 1]) + (if last.status == PendingReview then [last] else [])
  }

  /** GetPaymentsByUserIDAndStatus's result: that user's payments in that status, oldest first. */
  function PaymentsWith(payments: seq<Payment>, userId: int, status: PaymentStatus): (r: seq<Payment>)
    ensures forall p :: p in r <==> p in payments && p.userId == userId && p.status == status
    ensures multiset(r) == multiset(MatchingPayments(payments, userId, status))
    ensures SortedByCreatedAt(r)
  {
    var m := MatchingPayments(payments, userId, status);
    var r := SortByCreatedAt(m);
    assert forall p :: p in r <==> p in m by {
      forall p ensures p in r <==> p in m {
        assert p in r <==> p in multiset(r);
        assert p in m <==> p in multiset(m);
      }
    }
    r
  }

  /** GetPendingPayments's result: every payment in pending_review, oldest first. */
  function PendingPayments(payments: seq<Payment>): (r: seq<Payment>)
    ensures forall p :: p in r <==> p in payments && p.status == PendingReview
    ensures multiset(r) == multiset(PendingInTable(payments))
    ensures SortedByCreatedAt(r)
  {
    var m := PendingInTable(payments);
    var r := SortByCreatedAt(m);
    assert forall p :: p in r <==> p in m by {
      forall p ensures p in r <==> p in m {
        assert p in r <==> p in multiset(r);
        assert p in m <==> p in multiset(m);
      }
    }
    r
  }

  /** GetSubscriptionsNeedingUpdate: WHERE status IN (active, expiring, paused) */
  function LiveSubscriptions(subs: seq<Subscription>): (r: seq<Subscription>)
    ensures forall s :: s in r <==> s in subs && IsLive(s.status)
  {
    if subs == [] then []
    else
      var last := subs[|subs| - 1];
      assert subs == subs[..|subs| - 1] + [last];
      LiveSubscriptions(subs[..|subs| - 1]) + (if IsLive(last.status) then [last] else [])
  }

  /** The JOIN condition of GetExpiredDevicesToCleanup. */
  predicate CleanupCandidate(subs: seq<Subscription>, d: Device, before: int)
    requires SubscriptionsValid(subs)
  {
    && d.revokedAt.None?
    && var s := SubscriptionByID(subs, d.subscriptionId);
    && s.Some? && s.value.status == Expired
    && s.value.gracePeriodEndsAt.Some? && s.value.gracePeriodEndsAt.value < before
  }

  /** GetExpiredDevicesToCleanup(before). */
  function ExpiredDevices(devices: seq<Device>, subs: seq<Subscription>, before: int): (r: seq<Device>)
    requires SubscriptionsValid(subs)
    ensures forall d :: d in r <==> d in devices && CleanupCandidate(subs, d, before)
  {
    if devices == [] then []
    else
      var last := devices[|devices| - 1];
      assert devices == devices[..|devices| - 1] + [last];
      ExpiredDevices(devices[..|devices| - 1], subs, before)
        + (if CleanupCandidate(subs, last, before) then [last] else [])
  }

  // ---------------------------------------------------------------------------
  // row updates, as functions of the old table

  /** INSERT INTO devices: fails on the UNIQUE peer_public_key, whatever the row's revocation. */
  function InsertDevice(devices: seq<Device>, userId: int, subscriptionId: int, name: string,
                        key: string, ip: string, now: int): (r: Result<seq<Device>>)
    requires DevicesValid(devices)
    ensures r.Err? <==> DeviceByPeerPublicKey(devices, key).Some?
    ensures r.Err? ==> r.error == Conflict
    ensures r.Ok? ==> DevicesValid(r.value)
    ensures r.Ok? ==> r.value == devices + [Device(|devices| + 1, userId, subscriptionId, name, key, ip, now, None)]
  {
    if DeviceByPeerPublicKey(devices, key).Some? then Err(Conflict)
    else Ok(devices + [Device(|devices| + 1, userId, subscriptionId, name, key, ip, now, None)])
  }

  /** UPDATE devices SET revoked_at = ? WHERE id = ? */
  function RevokeRow(devices: seq<Device>, id: int, now: int): (r: seq<Device>)
    requires DevicesValid(devices)
    ensures DevicesValid(r) && |r| == |devices|
    ensures forall i :: 0 <= i < |r| && devices[i].id != id ==> r[i] == devices[i]
    ensures forall i :: 0 <= i < |r| && devices[i].id == id ==> r[i] == devices[i].(revokedAt := Some(now))
  {
    if 1 <= id <= |devices| then devices[id - 1 := devices[id - 1].(revokedAt := Some(now))] else devices
  }

  /** UPDATE subscriptions SET status = ? WHERE id = ? */
  function SetStatus(subs: seq<Subscription>, id: int, status: SubscriptionStatus): (r: seq<Subscription>)
    requires SubscriptionsValid(subs)
    ensures SubscriptionsValid(r) && |r| == |subs|
    ensures forall i :: 0 <= i < |r| && subs[i].id != id ==> r[i] == subs[i]
    ensures forall i :: 0 <= i < |r| && subs[i].id == id ==> r[i] == subs[i].(status := status)
  {
    if 1 <= id <= |subs| then subs[id - 1 := subs[id - 1].(status := status)] else subs
  }

  /**
   * ExtendSubscription's UPDATE: ends_at moves on by `days` from its current
   * value, the grace end is three days after that, status becomes active,
   * duration and amount accumulate; device_limit and starts_at stay.
   */
  function Extended(s: Subscription, days: int, amount: int): (r: Subscription)
    ensures r.endsAt == s.endsAt + Days(days)
    ensures r.gracePeriodEndsAt == Some(r.endsAt + Days(3))
    ensures r.status == Active
    ensures r.durationDays == s.durationDays + days && r.amount == s.amount + amount
    ensures r.id == s.id && r.userId == s.userId && r.deviceLimit == s.deviceLimit
    ensures r.startsAt == s.startsAt && r.createdAt == s.createdAt
  {
    var endsAt := s.endsAt + Days(days);
    s.(durationDays := s.durationDays + days, amount := s.amount + amount, endsAt := endsAt,
       gracePeriodEndsAt := Some(endsAt + Days(3)), status := Active)
  }

  /** UPDATE payments SET status = ?, reviewed_at = ?, reviewed_by = ? WHERE id = ? */
  function Reviewed(payments: seq<Payment>, id: int, status: PaymentStatus, reviewer: string, now: int): (r: seq<Payment>)
    requires PaymentsValid(payments)
    ensures PaymentsValid(r) && |r| == |payments|
    ensures forall i :: 0 <= i < |r| && payments[i].id != id ==> r[i] == payments[i]
    ensures forall i :: 0 <= i < |r| && payments[i].id == id ==>
              r[i] == payments[i].(status := status, reviewedAt := Some(now), reviewedBy := Some(reviewer))
  {
    if 1 <= id <= |payments|
    then payments[id - 1 := payments[id - 1].(status := status, reviewedAt := Some(now), reviewedBy := Some(reviewer))]
    else payments
  }

  /** UPDATE payments SET status = 'pending_review', proof_file_id = ? WHERE id = ?; any prior status. */
  function WithProof(payments: seq<Payment>, id: int, proof: string): (r: seq<Payment>)
    requires PaymentsValid(payments)
    ensures PaymentsValid(r) && |r| == |payments|
    ensures forall i :: 0 <= i < |r| && payments[i].id != id ==> r[i] == payments[i]
    ensures forall i :: 0 <= i < |r| && payments[i].id == id ==>
              r[i] == payments[i].(status := PendingReview, proofFileId := Some(proof))
  {
    if 1 <= id <= |payments|
    then payments[id - 1 := payments[id - 1].(status := PendingReview, proofFileId := Some(proof))]
    else payments
  }

  /** The migrations Migrate runs, in order. */
  const Migrations: seq<string> :=
    ["create_users", "create_payments", "create_subscriptions", "create_devices", "create_indexes"]

  class Repository {
    var users: seq<User>
    var payments: seq<Payment>
    var subscriptions: seq<Subscription>
    var devices: seq<Device>
    /** Names of the migrations executed so far, in execution order. */
    var schema: seq<string>

    ghost predicate Valid()
      reads this
    {
      UsersValid(users) && PaymentsValid(payments) && SubscriptionsValid(subscriptions) && DevicesValid(devices)
    }

    constructor ()
      ensures Valid()
      ensures users == [] && payments == [] && subscriptions == [] && devices == [] && schema == []
    {
      users, payments, subscriptions, devices, schema := [], [], [], [], [];
    }

    /**
     * Migrate: runs each migration in order (`exec` says whether the
     * statement succeeds); the first failure stops the run with an error
     * naming that migration.
     */
    method Migrate(exec: string -> bool) returns (r: Outcome)
      modifies this`schema
      ensures r.Pass? ==> schema == old(schema) + Migrations && forall m :: m in Migrations ==> exec(m)
      ensures r.Fail? ==> exists k :: 0 <= k < |Migrations| && r.error == MigrationFailed(Migrations[k])
                           && !exec(Migrations[k]) && (forall j :: 0 <= j < k ==> exec(Migrations[j]))
                           && schema == old(schema) + Migrations[..k]
    {
      var i := 0;
      while i < |Migrations|
        invariant 0 <= i <= |Migrations|
        invariant schema == old(schema) + Migrations[..i]
        invariant forall j :: 0 <= j < i ==> exec(Migrations[j])
      {
        if !exec(Migrations[i]) {
          return Fail(MigrationFailed(Migrations[i]));
        }
        schema := schema + [Migrations[i]];
        i := i + 1;
      }
      assert Migrations[..i] == Migrations;
      return Pass;
    }

    /**
     * GetOrCreateUser: the stored user for `telegramId`, unchanged (the
     * username argument is ignored); otherwise exactly one new row.
     */
    method GetOrCreateUser(telegramId: int, username: string, now: int) returns (u: User)
      requires Valid()
      modifies this`users
      ensures Valid()
      ensures UserByTelegramID(old(users), telegramId).Some? ==>
                u == UserByTelegramID(old(users), telegramId).value && users == old(users)
      ensures UserByTelegramID(old(users), telegramId).None? ==>
                u == User(|old(users)| + 1, telegramId, username, now) && users == old(users) + [u]
    {
      var found := UserByTelegramID(users, telegramId);
      if found.Some? {
        return found.value;
      }
      u := User(|users| + 1, telegramId, username, now);
      users := users + [u];
    }

    /** CreatePayment: fails when the reference code or the comment is already taken. */
    method CreatePayment(userId: int, durationDays: int, deviceCount: int, amount: int,
                         referenceCode: string, comment: string, status: PaymentStatus, now: int)
      returns (r: Result<int>)
      requires Valid()
      modifies this`payments
      ensures Valid()
      ensures var taken := exists p :: p in old(payments) &&
                             (p.referenceCode == referenceCode || p.paymentComment == comment);
              var row := Payment(|old(payments)| + 1, userId, durationDays, deviceCount, amount,
                                 referenceCode, comment, status, None, now, None, None);
              (taken ==> r == Err(Conflict) && payments == old(payments)) &&
              (!taken ==> r == Ok(row.id) && payments == old(payments) + [row])
    {
      if exists p :: p in payments && (p.referenceCode == referenceCode || p.paymentComment == comment) {
        return Err(Conflict);
      }
      var p := Payment(|payments| + 1, userId, durationDays, deviceCount, amount, referenceCode, comment,
                       status, None, now, None, None);
      payments := payments + [p];
      r := Ok(p.id);
    }

    /** GetPaymentsByUserIDAndStatus: the WHERE scan over the table, then ORDER BY created_at ASC. */
    method GetPaymentsByUserIDAndStatus(userId: int, status: PaymentStatus) returns (r: seq<Payment>)
      ensures r == PaymentsWith(payments, userId, status)
    {
      r := [];
      var i := 0;
      while i < |payments|
        invariant 0 <= i <= |payments|
        invariant r == MatchingPayments(payments[..i], userId, status)
      {
        assert payments[..i + 1][..i] == payments[..i];
        if payments[i].userId == userId && payments[i].status == status {
          r := r + [payments[i]];
        }
        i := i + 1;
      }
      assert payments[..i] == payments;
      r := SortByCreatedAt(r);
    }

    /** GetPendingPayments: the WHERE scan over the table, then ORDER BY created_at ASC. */
    method GetPendingPayments() returns (r: seq<Payment>)
      ensures r == PendingPayments(payments)
    {
      r := [];
      var i := 0;
      while i < |payments|
        invariant 0 <= i <= |payments|
        invariant r == PendingInTable(payments[..i])
      {
        assert payments[..i + 1][..i] == payments[..i];
        if payments[i].status == PendingReview {
          r := r + [payments[i]];
        }
        i := i + 1;
      }
      assert payments[..i] == payments;
      r := SortByCreatedAt(r);
    }

    /** UpdatePaymentStatus: a missing id updates nothing and is not an error. */
    method UpdatePaymentStatus(id: int, status: PaymentStatus, reviewedBy: string, now: int)
      requires Valid()
      modifies this`payments
      ensures Valid()
      ensures payments == Reviewed(old(payments), id, status, reviewedBy, now)
    {
      payments := Reviewed(payments, id, status, reviewedBy, now);
    }

    /** AttachProofToPayment: moves the payment to pending_review from any status. */
    method AttachProofToPayment(id: int, proof: string)
      requires Valid()
      modifies this`payments
      ensures Valid()
      ensures payments == WithProof(old(payments), id, proof)
    {
      payments := WithProof(payments, id, proof);
    }

    /** CreateSubscription: appends the row and returns its id. */
    method CreateSubscription(userId: int, durationDays: int, deviceLimit: int, amount: int,
                              status: SubscriptionStatus, startsAt: int, endsAt: int,
                              grace: Option<int>, now: int) returns (id: int)
      requires Valid()
      modifies this`subscriptions
      ensures Valid()
      ensures id == |old(subscriptions)| + 1
      ensures subscriptions == old(subscriptions) +
                [Subscription(id, userId, durationDays, deviceLimit, amount, status, startsAt, endsAt, grace, now)]
    {
      id := |subscriptions| + 1;
      subscriptions := subscriptions +
        [Subscription(id, userId, durationDays, deviceLimit, amount, status, startsAt, endsAt, grace, now)];
    }

    /** UpdateSubscriptionStatus: only the status column of that row changes. */
    method UpdateSubscriptionStatus(id: int, status: SubscriptionStatus)
      requires Valid()
      modifies this`subscriptions
      ensures Valid()
      ensures subscriptions == SetStatus(old(subscriptions), id, status)
    {
      subscriptions := SetStatus(subscriptions, id, status);
    }

    /** GetSubscriptionsNeedingUpdate. */
    method GetSubscriptionsNeedingUpdate() returns (r: seq<Subscription>)
      ensures r == LiveSubscriptions(subscriptions)
    {
      r := [];
      var i := 0;
      while i < |subscriptions|
        invariant 0 <= i <= |subscriptions|
        invariant r == LiveSubscriptions(subscriptions[..i])
      {
        assert subscriptions[..i + 1][..i] == subscriptions[..i];
        if IsLive(subscriptions[i].status) {
          r := r + [subscriptions[i]];
        }
        i := i + 1;
      }
      assert subscriptions[..i] == subscriptions;
    }

    /** ExtendSubscription: read-modify-write of one row; a missing id is an error. */
    method ExtendSubscription(id: int, days: int, amount: int) returns (r: Outcome)
      requires Valid()
      modifies this`subscriptions
      ensures Valid()
      ensures SubscriptionByID(old(subscriptions), id).None? ==>
                r == Fail(NotFound) && subscriptions == old(subscriptions)
      ensures SubscriptionByID(old(subscriptions), id).Some? ==>
                r == Pass && subscriptions == old(subscriptions)[id - 1 := Extended(old(subscriptions)[id - 1], days, amount)]
    {
      var sub := SubscriptionByID(subscriptions, id);
      if sub.None? {
        return Fail(NotFound);
      }
      subscriptions := subscriptions[id - 1 := Extended(sub.value, days, amount)];
      r := Pass;
    }

    /** CreateDevice: the INSERT, refused on a duplicate public key. */
    method CreateDevice(userId: int, subscriptionId: int, name: string, key: string, ip: string, now: int)
      returns (r: Result<int>)
      requires Valid()
      modifies this`devices
      ensures Valid()
      ensures var t := InsertDevice(old(devices), userId, subscriptionId, name, key, ip, now);
              if t.Ok? then devices == t.value && r == Ok(|devices|) else devices == old(devices) && r == Err(t.error)
    {
      var t := InsertDevice(devices, userId, subscriptionId, name, key, ip, now);
      if t.Err? {
        return Err(t.error);
      }
      devices := t.value;
      r := Ok(|devices|);
    }

    /** Replaces the devices table with a transaction's working copy at commit. */
    method CommitDevices(staged: seq<Device>)
      requires Valid() && DevicesValid(staged)
      modifies this`devices
      ensures Valid() && devices == staged
    {
      devices := staged;
    }

    /** RevokeDevice (ledger): sets revoked_at on that row only; a missing id is not an error. */
    method RevokeDevice(id: int, now: int)
      requires Valid()
      modifies this`devices
      ensures Valid()
      ensures devices == RevokeRow(old(devices), id, now)
    {
      devices := RevokeRow(devices, id, now);
    }

    /** GetExpiredDevicesToCleanup. */
    method GetExpiredDevicesToCleanup(before: int) returns (r: seq<Device>)
      requires Valid()
      ensures r == ExpiredDevices(devices, subscriptions, before)
    {
      r := [];
      var i := 0;
      while i < |devices|
        invariant 0 <= i <= |devices|
        invariant r == ExpiredDevices(devices[..i], subscriptions, before)
      {
        assert devices[..i + 1][..i] == devices[..i];
        var d := devices[i];
        var s := SubscriptionByID(subscriptions, d.subscriptionId);
        if d.revokedAt.None? && s.Some? && s.value.status == Expired
           && s.value.gracePeriodEndsAt.Some? && s.value.gracePeriodEndsAt.value < before {
          r := r + [d];
        }
        i := i + 1;
      }
      assert devices[..i] == devices;
    }
  }
}
