/**
 * The local provisioner: allocates the next client address inside a ledger
 * transaction, records the device, renders the client configuration and
 * then, on a best-effort basis, adds the peer to the live WireGuard
 * interface and saves the interface configuration.
 */
module Local {
  import opened Common
  import opened IPv4
  import opened Storage
  import opened Provisioner

  /** A peer of the live interface, as the kernel lists it. */
  datatype Peer = Peer(publicKey: string, allowedIPs: seq<IPNet>)

  /** The external calls a local operation makes; a step in `faults` fails. */
  datatype Step =
    | TxBegin        // BeginTx
    | LedgerQuery    // the latest-address SELECT inside the transaction
    | InterfaceRead  // client.Device while scanning the peers
    | KeyCheck       // GetDeviceByPeerPublicKey before the insert
    | Insert         // the INSERT inside the transaction
    | Commit         // tx.Commit
    | ConfigRead     // client.Device while rendering the client configuration
    | ConfigRender   // rendering the configuration file
    | Configure      // client.ConfigureDevice
    | Save           // wg-quick save
    | Reread         // GetDeviceByPeerPublicKey after the commit
    | ClientClose    // closing the wgctrl client

  // ---------------------------------------------------------------------------
  // the live interface

  /** Public keys identify peers: the kernel keeps at most one peer per key. */
  ghost predicate PeersValid(peers: seq<Peer>) {
    forall i, j :: 0 <= i < j < |peers| ==> peers[i].publicKey != peers[j].publicKey
  }

  function PeerIndex(peers: seq<Peer>, key: string): (r: Option<nat>)
    ensures r.Some? ==> r.value < |peers| && peers[r.value].publicKey == key
    ensures r.None? <==> forall p :: p in peers ==> p.publicKey != key
  {
    if peers == [] then None
    else if peers[0].publicKey == key then Some(0)
    else
      var k := PeerIndex(peers[1..], key);
      if k.Some? then Some(k.value + 1) else None
  }

  /** The networks of `nets` other than `n`, in order. */
  function Without(nets: seq<IPNet>, n: IPNet): (r: seq<IPNet>)
    ensures forall m :: m in r <==> m in nets && m != n
  {
    if nets == [] then []
    else (if nets[0] == n then [] else [nets[0]]) + Without(nets[1..], n)
  }

  /**
   * ConfigureDevice with one peer entry (public key, [n]) and
   * ReplaceAllowedIPs unset: `n` is added to that peer's allowed IPs, or the
   * peer is created with exactly [n]. The kernel routes a network to one
   * peer only, so `n` leaves every other peer.
   */
  function Configured(peers: seq<Peer>, key: string, n: IPNet): (r: seq<Peer>)
    requires PeersValid(peers)
    ensures PeersValid(r)
    ensures PeerIndex(peers, key).None? ==> |r| == |peers| + 1 && r[|peers|] == Peer(key, [n])
    ensures PeerIndex(peers, key).Some? ==>
              && |r| == |peers|
              && r[PeerIndex(peers, key).value].publicKey == key
              && forall m :: m in r[PeerIndex(peers, key).value].allowedIPs <==>
                               m in peers[PeerIndex(peers, key).value].allowedIPs || m == n
    ensures forall i :: 0 <= i < |peers| && peers[i].publicKey != key ==>
              r[i].publicKey == peers[i].publicKey &&
              forall m :: m in r[i].allowedIPs <==> m in peers[i].allowedIPs && m != n
  {
    var updated := seq(|peers|, i requires 0 <= i < |peers| =>
      if peers[i].publicKey == key then
        (if n in peers[i].allowedIPs then peers[i] else peers[i].(allowedIPs := peers[i].allowedIPs + [n]))
      else peers[i].(allowedIPs := Without(peers[i].allowedIPs, n)));
    if PeerIndex(peers, key).Some? then updated else updated + [Peer(key, [n])]
  }

  /** ConfigureDevice with Remove set: the peer with that key disappears; removing an absent peer is not an error. */
  function Removed(peers: seq<Peer>, key: string): (r: seq<Peer>)
    requires PeersValid(peers)
    ensures PeersValid(r)
    ensures forall p :: p in r <==> p in peers && p.publicKey != key
  {
    var k := PeerIndex(peers, key);
    if k.None? then peers
    else
      var r := peers[..k.value] + peers[k.value + 1..];
      assert forall i :: 0 <= i < |r| ==> r[i] == peers[if i < k.value then i else i + 1];
      assert forall p :: p in peers && p.publicKey != key ==> p in r by {
        forall p | p in peers && p.publicKey != key ensures p in r {
          var i :| 0 <= i < |peers| && peers[i] == p;
          if i < k.value { assert r[i] == p; } else { assert r[i - 1] == p; }
        }
      }
      r
  }

  // ---------------------------------------------------------------------------
  // the interface scan (getLatestUsedIP)

  function Addresses(nets: seq<IPNet>): (r: seq<IP>)
    ensures |r| == |nets| && forall i :: 0 <= i < |nets| ==> r[i] == nets[i].ip
  {
    seq(|nets|, i requires 0 <= i < |nets| => nets[i].ip)
  }

  /** Every allowed address of every peer, in listing order. */
  function AllowedAddresses(peers: seq<Peer>): (r: seq<IP>)
    ensures forall k, m :: 0 <= k < |peers| && m in peers[k].allowedIPs ==> m.ip in r
  {
    if peers == [] then []
    else
      var init := peers[..|peers| - 1];
      var r := AllowedAddresses(init) + Addresses(peers[|peers| - 1].allowedIPs);
      assert forall k, m :: 0 <= k < |peers| && m in peers[k].allowedIPs ==> m.ip in r by {
        forall k, m | 0 <= k < |peers| && m in peers[k].allowedIPs ensures m.ip in r {
          if k < |peers| - 1 {
            assert init[k] == peers[k];
          } else {
            var j :| 0 <= j < |peers[k].allowedIPs| && peers[k].allowedIPs[j] == m;
            assert r[|AllowedAddresses(init)| + j] == m.ip;
          }
        }
      }
      r
  }

  /** Nothing but the peers' allowed addresses is listed. */
  lemma {:induction false} AllowedAddressesListed(peers: seq<Peer>)
    ensures forall ip :: ip in AllowedAddresses(peers) ==>
              exists k, m :: 0 <= k < |peers| && m in peers[k].allowedIPs && m.ip == ip
    decreases |peers|
  {
    if peers != [] {
      var init := peers[..|peers| - 1];
      var nets := peers[|peers| - 1].allowedIPs;
      AllowedAddressesListed(init);
      assert AllowedAddresses(peers) == AllowedAddresses(init) + Addresses(nets);
      forall ip | ip in AllowedAddresses(peers)
        ensures exists k, m :: 0 <= k < |peers| && m in peers[k].allowedIPs && m.ip == ip
      {
        if ip in AllowedAddresses(init) {
          var k, m :| 0 <= k < |init| && m in init[k].allowedIPs && m.ip == ip;
          assert peers[k] == init[k];
        } else {
          var j :| 0 <= j < |nets| && Addresses(nets)[j] == ip;
          assert nets[j] in peers[|peers| - 1].allowedIPs;
        }
      }
    }
  }

  /**
   * The running maximum of the scan: start from `start`, and take each
   * address that compares greater than or equal to the current one.
   */
  function MaxFrom(start: IP, ips: seq<IP>): (r: IP)
    ensures Value(start) <= Value(r)
    ensures forall ip :: ip in ips ==> Value(ip) <= Value(r)
    ensures r == start || r in ips
  {
    if ips == [] then start
    else
      var m := MaxFrom(start, ips[..|ips| - 1]);
      var last := ips[|ips| - 1];
      assert ips == ips[..|ips| - 1] + [last];
      if Value(last) >= Value(m) then last else m
  }

  lemma MaxFromSnoc(start: IP, ips: seq<IP>, ip: IP)
    ensures MaxFrom(start, ips + [ip]) == if Value(ip) >= Value(MaxFrom(start, ips)) then ip else MaxFrom(start, ips)
  {
    assert (ips + [ip])[..|ips|] == ips;
  }

  lemma AddressesSnoc(nets: seq<IPNet>, j: int)
    requires 0 <= j < |nets|
    ensures Addresses(nets[..j + 1]) == Addresses(nets[..j]) + [nets[j].ip]
  {
  }

  lemma AllowedAddressesSnoc(peers: seq<Peer>, i: int)
    requires 0 <= i < |peers|
    ensures AllowedAddresses(peers[..i + 1]) == AllowedAddresses(peers[..i]) + Addresses(peers[i].allowedIPs)
  {
    assert peers[..i + 1][..i] == peers[..i];
  }

  // ---------------------------------------------------------------------------
  // the ledger's "latest" address (the allocation finding)

  /** assigned_ip of the non-revoked rows, in table order. */
  function LiveAddresses(devices: seq<Device>): (r: seq<string>)
    ensures forall t :: t in r <==> exists d :: d in devices && d.revokedAt.None? && d.assignedIP == t
  {
    if devices == [] then []
    else
      var last := devices[|devices| - 1];
      assert devices == devices[..|devices| - 1] + [last];
      LiveAddresses(devices[..|devices| - 1]) + (if last.revokedAt.None? then [last.assignedIP] else [])
  }

  /**
   * SELECT assigned_ip FROM devices WHERE revoked_at IS NULL ORDER BY
   * assigned_ip DESC LIMIT 1: the greatest live address as TEXT.
   */
  function LedgerLatest(devices: seq<Device>): (r: Option<string>)
    ensures r.None? <==> forall d :: d in devices ==> d.revokedAt.Some?
    ensures r.Some? ==> r.value in LiveAddresses(devices)
    ensures r.Some? ==> forall t :: t in LiveAddresses(devices) ==> TextLe(t, r.value)
  {
    var live := LiveAddresses(devices);
    if live == [] then
      assert forall d :: d in devices && d.revokedAt.None? ==> d.assignedIP in live;
      None
    else
      assert live[0] in live;
      Some(MaxText(live))
  }

  /** Two live rows holding the addresses `lo` and `hi`. */
  function TwoLive(lo: string, hi: string): (devices: seq<Device>)
    ensures |devices| == 2 && DevicesValid(devices)
    ensures devices[0].assignedIP == lo && devices[1].assignedIP == hi
  {
    [Device(1, 1, 1, "a", "key-a", lo, 0, None), Device(2, 1, 1, "b", "key-b", hi, 0, None)]
  }

  /**
   * Text order is not address order: with 10.0.0.9 and 10.0.0.10 both live,
   * the ledger's "latest" is 10.0.0.9, so the allocator hands out 10.0.0.10
   * a second time and a new key's reservation commits a second live row
   * holding it; the intended allocation gives 10.0.0.11.
   */
  lemma TextOrderReallocates(lo: string, hi: string, peers: seq<Peer>, base: Option<IP>, faults: set<Step>)
    requires lo == "10.0.0.9" && hi == "10.0.0.10"
    requires LedgerQuery !in faults && TxBegin !in faults && KeyCheck !in faults
    requires Insert !in faults && Commit !in faults
    ensures LedgerLatest(TwoLive(lo, hi)) == Some(lo)
    ensures Allocation(TwoLive(lo, hi), peers, base, faults) == Ok(IPNet(IP(10, 0, 0, 10), HostMask))
    ensures Reservation(TwoLive(lo, hi), peers, base, "key-c", 1, 1, "c", 0, faults)
            == Ok((IPNet(IP(10, 0, 0, 10), HostMask), TwoLive(lo, hi) + [Device(3, 1, 1, "c", "key-c", hi, 0, None)]))
    ensures NumericAllocation(TwoLive(lo, hi), peers, base, faults) == Ok(IPNet(IP(10, 0, 0, 11), HostMask))
  {
    AllocationOfExample(lo, hi, peers, base, faults);
    var devices := TwoLive(lo, hi);
    assert DeviceByPeerPublicKey(devices, "key-c").None? by {
      assert forall d :: d in devices ==> d.peerPublicKey != "key-c";
    }
    var n := IPNet(IP(10, 0, 0, 10), HostMask);
    ReservationAppends(devices, peers, base, "key-c", 1, 1, "c", 0, n, faults);
  }

  /** With the transaction's steps succeeding and a new key, the reservation appends one live row. */
  lemma ReservationAppends(devices: seq<Device>, peers: seq<Peer>, base: Option<IP>, key: string,
                           userId: int, subscriptionId: int, name: string, now: int,
                           n: IPNet, faults: set<Step>)
    requires DevicesValid(devices) && Allocation(devices, peers, base, faults) == Ok(n)
    requires DeviceByPeerPublicKey(devices, key).None?
    requires TxBegin !in faults && KeyCheck !in faults && Insert !in faults && Commit !in faults
    ensures Reservation(devices, peers, base, key, userId, subscriptionId, name, now, faults)
            == Ok((n, devices + [Device(|devices| + 1, userId, subscriptionId, name, key, Format(n.ip), now, None)]))
  {
  }

  lemma AllocationOfExample(lo: string, hi: string, peers: seq<Peer>, base: Option<IP>, faults: set<Step>)
    requires lo == "10.0.0.9" && hi == "10.0.0.10" && LedgerQuery !in faults
    ensures LedgerLatest(TwoLive(lo, hi)) == Some(lo) && Format(IP(10, 0, 0, 10)) == hi
    ensures Allocation(TwoLive(lo, hi), peers, base, faults) == Ok(IPNet(IP(10, 0, 0, 10), HostMask))
    ensures NumericAllocation(TwoLive(lo, hi), peers, base, faults) == Ok(IPNet(IP(10, 0, 0, 11), HostMask))
  {
    LedgerOfExample(lo, hi);
    NextOfExample();
    assert LastUsed(TwoLive(lo, hi), peers, base, faults) == Ok(IP(10, 0, 0, 9));
    NumericOfExample(lo, hi);
  }

  lemma LedgerOfExample(lo: string, hi: string)
    requires lo == "10.0.0.9" && hi == "10.0.0.10"
    ensures LedgerLatest(TwoLive(lo, hi)) == Some(lo)
    ensures Parse(lo) == Some(IP(10, 0, 0, 9)) && Parse(hi) == Some(IP(10, 0, 0, 10))
    ensures Format(IP(10, 0, 0, 10)) == hi
  {
    var devices := TwoLive(lo, hi);
    assert devices[..1] == [devices[0]] && devices[..1][..0] == [];
    assert LiveAddresses(devices[..1]) == [lo];
    assert LiveAddresses(devices) == [lo, hi];
    TextGreaterOfExample();
    assert [lo, hi][..1] == [lo];
    FormatOfExample();
    ParseFormat(IP(10, 0, 0, 9));
    ParseFormat(IP(10, 0, 0, 10));
  }

  lemma NumericOfExample(lo: string, hi: string)
    requires Parse(lo) == Some(IP(10, 0, 0, 9)) && Parse(hi) == Some(IP(10, 0, 0, 10))
    ensures NumericLatest(TwoLive(lo, hi)) == Some(IP(10, 0, 0, 10))
  {
    var devices := TwoLive(lo, hi);
    var first := [devices[0]];
    assert devices[..1] == first && first[..0] == [];
    assert NumericLatest(first) == Some(IP(10, 0, 0, 9));
    assert Value(IP(10, 0, 0, 9)) <= Value(IP(10, 0, 0, 10));
  }

  lemma TextGreaterOfExample()
    ensures !TextLe("10.0.0.9", "10.0.0.10")
  {
    assert !TextLe("9", "10");
    TextLeCommonPrefix("10.0.0.", "9", "10");
    assert "10.0.0." + "9" == "10.0.0.9" && "10.0.0." + "10" == "10.0.0.10";
  }

  /** A common prefix does not change the collation. */
  lemma {:induction false} TextLeCommonPrefix(p: string, a: string, b: string)
    ensures TextLe(p + a, p + b) == TextLe(a, b)
    decreases |p|
  {
    if p == [] {
      assert p + a == a && p + b == b;
    } else {
      assert (p + a)[0] == p[0] == (p + b)[0];
      assert (p + a)[1..] == p[1..] + a && (p + b)[1..] == p[1..] + b;
      TextLeCommonPrefix(p[1..], a, b);
    }
  }

  lemma FormatOfExample()
    ensures Format(IP(10, 0, 0, 9)) == "10.0.0.9" && Format(IP(10, 0, 0, 10)) == "10.0.0.10"
  {
    assert NatText(10) == NatText(1) + [DigitChar(0)];
    assert NatText(10) == "10";
  }

  lemma NextOfExample()
    ensures NextIP(IP(10, 0, 0, 9), 1) == IP(10, 0, 0, 10)
    ensures NextIP(IP(10, 0, 0, 10), 1) == IP(10, 0, 0, 11)
  {
    NextIPIncreases(IP(10, 0, 0, 9));
    ValueInjective(NextIP(IP(10, 0, 0, 9), 1), IP(10, 0, 0, 10));
    NextIPIncreases(IP(10, 0, 0, 10));
    ValueInjective(NextIP(IP(10, 0, 0, 10), 1), IP(10, 0, 0, 11));
  }

  /** The numerically greatest of the parseable live addresses, if any. */
  function NumericLatest(devices: seq<Device>): (r: Option<IP>)
    ensures r.Some? ==> exists d :: d in devices && d.revokedAt.None? && Parse(d.assignedIP) == r
    ensures r.Some? ==> forall d :: d in devices && d.revokedAt.None? && Parse(d.assignedIP).Some? ==>
                           Value(Parse(d.assignedIP).value) <= Value(r.value)
    ensures r.None? ==> forall d :: d in devices && d.revokedAt.None? ==> Parse(d.assignedIP).None?
  {
    if devices == [] then None
    else
      var last := devices[|devices| - 1];
      assert devices == devices[..|devices| - 1] + [last];
      var m := NumericLatest(devices[..|devices| - 1]);
      var p := if last.revokedAt.None? then Parse(last.assignedIP) else None;
      if p.Some? && (m.None? || Value(m.value) <= Value(p.value)) then p else m
  }

  /**
   * With the numeric maximum, the next address is held by no live device,
   * unless the maximum is the top address and the increment wraps.
   */
  lemma NumericNextIsFresh(devices: seq<Device>)
    requires NumericLatest(devices).Some? && Value(NumericLatest(devices).value) < Two32 - 1
    ensures forall d :: d in devices && d.revokedAt.None? ==>
              d.assignedIP != Format(NextIP(NumericLatest(devices).value, 1))
  {
    var top := NumericLatest(devices).value;
    var next := NextIP(top, 1);
    NextIPIncreases(top);
    ParseFormat(next);
  }

  // ---------------------------------------------------------------------------
  // the choice of the last used address (getNextIPNetAtomic)

  /**
   * The address the allocator increments, as local.go chooses it: the
   * interface scan when the ledger query fails; the interface's base address
   * when no live device exists; otherwise the text-greatest live address
   * (LedgerLatest) when it parses, and the interface scan when it does not.
   * Only that one row is parsed.
   */
  function LastUsed(devices: seq<Device>, peers: seq<Peer>, base: Option<IP>, faults: set<Step>): (r: Result<IP>)
    ensures LedgerQuery in faults ==> r == Scan(peers, base, faults)
    ensures LedgerQuery !in faults && (forall d :: d in devices ==> d.revokedAt.Some?) ==>
              r == (if base.Some? then Ok(base.value) else Err(AllocationFailure))
    ensures LedgerQuery !in faults && LedgerLatest(devices).Some? ==>
              var t := LedgerLatest(devices).value;
              && (Parse(t).Some? ==> r == Ok(Parse(t).value)
                                     && exists d :: d in devices && d.revokedAt.None? && d.assignedIP == t)
              && (Parse(t).None? ==> r == Scan(peers, base, faults))
  {
    if LedgerQuery in faults then Scan(peers, base, faults)
    else
      var latest := LedgerLatest(devices);
      if latest.None? then (if base.Some? then Ok(base.value) else Err(AllocationFailure))
      else
        var ip := Parse(latest.value);
        if ip.Some? then Ok(ip.value) else Scan(peers, base, faults)
  }

  /** getLatestUsedIP's outcome: an interface read failure, no base address, or the scan maximum. */
  function Scan(peers: seq<Peer>, base: Option<IP>, faults: set<Step>): (r: Result<IP>)
    ensures r.Ok? ==> InterfaceRead !in faults && base.Some? && Value(base.value) <= Value(r.value)
    ensures r.Ok? ==> forall k, m :: 0 <= k < |peers| && m in peers[k].allowedIPs ==> Value(m.ip) <= Value(r.value)
    ensures r.Ok? ==> r.value == base.value ||
                      exists k, m :: 0 <= k < |peers| && m in peers[k].allowedIPs && m.ip == r.value
    ensures r.Err? <==> InterfaceRead in faults || base.None?
  {
    if InterfaceRead in faults then Err(InterfaceFailure)
    else if base.None? then Err(AllocationFailure)
    else
      AllowedAddressesListed(peers);
      Ok(MaxFrom(base.value, AllowedAddresses(peers)))
  }

  /** getNextIPNetAtomic's outcome: the host network of the address after the last used one. */
  function Allocation(devices: seq<Device>, peers: seq<Peer>, base: Option<IP>, faults: set<Step>): (r: Result<IPNet>)
    ensures r.Ok? ==> r.value.mask == HostMask
    ensures r.Ok? <==> LastUsed(devices, peers, base, faults).Ok?
    ensures r.Ok? ==> r.value.ip == NextIP(LastUsed(devices, peers, base, faults).value, 1)
  {
    var last := LastUsed(devices, peers, base, faults);
    if last.Err? then Err(last.error) else Ok(IPNet(NextIP(last.value, 1), HostMask))
  }

  /**
   * The allocation as intended: the same fallbacks, but the ledger's
   * candidate is the numerically greatest parseable live address
   * (NumericLatest), so its successor is free.
   */
  function NumericAllocation(devices: seq<Device>, peers: seq<Peer>, base: Option<IP>, faults: set<Step>)
    : (r: Result<IPNet>)
    ensures r.Ok? ==> r.value.mask == HostMask
    ensures LedgerQuery !in faults && NumericLatest(devices).Some? ==>
              r == Ok(IPNet(NextIP(NumericLatest(devices).value, 1), HostMask))
    ensures LedgerQuery in faults || (forall d :: d in devices ==> d.revokedAt.Some?) ==>
              r == Allocation(devices, peers, base, faults)
  {
    var last :=
      if LedgerQuery in faults then Scan(peers, base, faults)
      else if NumericLatest(devices).Some? then Ok(NumericLatest(devices).value)
      else if LiveAddresses(devices) == [] then (if base.Some? then Ok(base.value) else Err(AllocationFailure))
      else Scan(peers, base, faults);
    assert (forall d :: d in devices ==> d.revokedAt.Some?) ==> LiveAddresses(devices) == [] by {
      if LiveAddresses(devices) != [] {
        assert LiveAddresses(devices)[0] in LiveAddresses(devices);
      }
    }
    if last.Err? then Err(last.error) else Ok(IPNet(NextIP(last.value, 1), HostMask))
  }

  /**
   * When the ledger answers, the intended allocation is held by no live
   * device, unless the greatest one is the top address and the increment
   * wraps.
   */
  lemma NumericAllocationIsFresh(devices: seq<Device>, peers: seq<Peer>, base: Option<IP>, faults: set<Step>)
    requires LedgerQuery !in faults && NumericLatest(devices).Some?
    requires Value(NumericLatest(devices).value) < Two32 - 1
    ensures NumericAllocation(devices, peers, base, faults).Ok?
    ensures forall d :: d in devices && d.revokedAt.None? ==>
              d.assignedIP != Format(NumericAllocation(devices, peers, base, faults).value.ip)
  {
    NumericNextIsFresh(devices);
  }

  /** When the interface scan decides, the allocated address is routed to no peer yet. */
  lemma ScanNextIsFresh(peers: seq<Peer>, base: Option<IP>, faults: set<Step>)
    requires Scan(peers, base, faults).Ok? && Value(Scan(peers, base, faults).value) < Two32 - 1
    ensures forall k, m :: 0 <= k < |peers| && m in peers[k].allowedIPs ==>
              m.ip != NextIP(Scan(peers, base, faults).value, 1)
  {
    NextIPIncreases(Scan(peers, base, faults).value);
  }

  /**
   * The transaction of CreateDevice*: allocate, check the key, insert,
   * commit. On success, the allocated network and the committed table.
   */
  function Reservation(devices: seq<Device>, peers: seq<Peer>, base: Option<IP>, key: string, userId: int,
                       subscriptionId: int, name: string, now: int, faults: set<Step>): (r: Result<(IPNet, seq<Device>)>)
    requires DevicesValid(devices)
    ensures r.Ok? ==> && Allocation(devices, peers, base, faults) == Ok(r.value.0)
                      && DeviceByPeerPublicKey(devices, key).None?
                      && r.value.1 == devices + [Device(|devices| + 1, userId, subscriptionId, name, key,
                                                        Format(r.value.0.ip), now, None)]
                      && DevicesValid(r.value.1)
    ensures (TxBegin !in faults && Allocation(devices, peers, base, faults).Ok? && KeyCheck !in faults
             && DeviceByPeerPublicKey(devices, key).Some?) ==> r == Err(Conflict)
    ensures r.Ok? <==> && TxBegin !in faults && Allocation(devices, peers, base, faults).Ok?
                       && KeyCheck !in faults && DeviceByPeerPublicKey(devices, key).None?
                       && Insert !in faults && Commit !in faults
  {
    if TxBegin in faults then Err(StoreFailure)
    else
      var n := Allocation(devices, peers, base, faults);
      if n.Err? then Err(n.error)
      else if KeyCheck in faults then Err(StoreFailure)
      else
        var ins := InsertDevice(devices, userId, subscriptionId, name, key, Format(n.value.ip), now);
        if ins.Err? then Err(ins.error)
        else if Insert in faults || Commit in faults then Err(StoreFailure)
        else Ok((n.value, ins.value))
  }

  /** A key already in the ledger, revoked or not, makes the reservation fail: no second row for one key. */
  lemma ConflictLeavesLedger(devices: seq<Device>, peers: seq<Peer>, base: Option<IP>, key: string, userId: int,
                             subscriptionId: int, name: string, now: int, faults: set<Step>)
    requires DevicesValid(devices)
    requires exists d :: d in devices && d.peerPublicKey == key
    ensures Reservation(devices, peers, base, key, userId, subscriptionId, name, now, faults).Err?
  {
  }

  class LocalProvisioner {
    const repo: Repository
    const dns: seq<string>
    const serverPublicKey: string
    const endpoint: string
    /** The interface's own IPv4 address (getDeviceAddress); None when it has none. */
    const base: Option<IP>
    /** wgtypes.ParseKey followed by Key.String: the canonical key text, or None. */
    const parseKey: string -> Option<string>
    /** The live interface's peers. */
    var peers: seq<Peer>
    /** The peers as last written to the configuration file by wg-quick save. */
    var saved: seq<Peer>
    var open: bool

    ghost predicate Valid()
      reads this, repo
    {
      repo.Valid() && PeersValid(peers)
    }

    constructor (repo: Repository, dns: seq<string>, serverPublicKey: string, endpoint: string, base: Option<IP>,
                 parseKey: string -> Option<string>, peers: seq<Peer>)
      requires repo.Valid() && PeersValid(peers)
      ensures Valid() && open
      ensures this.repo == repo && this.dns == dns && this.serverPublicKey == serverPublicKey
      ensures this.endpoint == endpoint && this.base == base && this.parseKey == parseKey
      ensures this.peers == peers && saved == peers
    {
      this.repo := repo;
      this.dns := dns;
      this.serverPublicKey := serverPublicKey;
      this.endpoint := endpoint;
      this.base := base;
      this.parseKey := parseKey;
      this.peers := peers;
      this.saved := peers;
      open := true;
    }

    /** The configuration createConfig renders for a host network. */
    function Config(privateKey: string, n: IPNet): (c: ClientConfig)
      requires n.mask == HostMask
      reads this
      ensures c.address == HostNetText(n) && c.privateKey == privateKey
      ensures c.dns == dns && c.publicKey == serverPublicKey && c.allowedIPs == ["0.0.0.0/0"]
    {
      ClientConfig(HostNetText(n), privateKey, dns, serverPublicKey, ["0.0.0.0/0"], endpoint)
    }

    /** getLatestUsedIP: the scan of every allowed IP of every peer, starting from the base address. */
    method GetLatestUsedIP(faults: set<Step>) returns (r: Result<IP>)
      ensures r == Scan(peers, base, faults)
    {
      if InterfaceRead in faults {
        return Err(InterfaceFailure);
      }
      if base.None? {
        return Err(AllocationFailure);
      }
      var ps := peers;
      var last := base.value;
      var i := 0;
      while i < |ps|
        invariant 0 <= i <= |ps|
        invariant last == MaxFrom(base.value, AllowedAddresses(ps[..i]))
      {
        last := ScanPeer(base.value, AllowedAddresses(ps[..i]), last, ps[i].allowedIPs);
        AllowedAddressesSnoc(ps, i);
        i := i + 1;
      }
      assert ps[..i] == ps;
      r := Ok(last);
    }

    /** The inner loop of getLatestUsedIP: one peer's allowed IPs. */
    method ScanPeer(ghost start: IP, ghost done: seq<IP>, last0: IP, nets: seq<IPNet>) returns (last: IP)
      requires last0 == MaxFrom(start, done)
      ensures last == MaxFrom(start, done + Addresses(nets))
    {
      last := last0;
      var j := 0;
      assert done + Addresses(nets[..0]) == done;
      while j < |nets|
        invariant 0 <= j <= |nets|
        invariant last == MaxFrom(start, done + Addresses(nets[..j]))
      {
        AddressesSnoc(nets, j);
        assert done + Addresses(nets[..j + 1]) == (done + Addresses(nets[..j])) + [nets[j].ip];
        MaxFromSnoc(start, done + Addresses(nets[..j]), nets[j].ip);
        if Value(nets[j].ip) >= Value(last) {
          last := nets[j].ip;
        }
        j := j + 1;
      }
      assert nets[..j] == nets;
    }

    /** getNextIPNetAtomic, reading the transaction's snapshot of the devices table. */
    method GetNextIPNetAtomic(devices: seq<Device>, faults: set<Step>) returns (r: Result<IPNet>)
      ensures r == Allocation(devices, peers, base, faults)
    {
      var last: Result<IP>;
      if LedgerQuery in faults {
        last := GetLatestUsedIP(faults);
      } else {
        var latest := LedgerLatest(devices);
        if latest.None? {
          last := if base.Some? then Ok(base.value) else Err(AllocationFailure);
        } else {
          var ip := Parse(latest.value);
          if ip.Some? {
            last := Ok(ip.value);
          } else {
            last := GetLatestUsedIP(faults);
          }
        }
      }
      if last.Err? {
        return Err(last.error);
      }
      r := Ok(IPNet(NextIP(last.value, 1), HostMask));
    }

    /**
     * updateDevice: configure the peer with the one host network, then save
     * the interface configuration. Either failure is reported to the caller.
     */
    method UpdateDevice(key: string, n: IPNet, faults: set<Step>) returns (r: Outcome)
      requires Valid()
      modifies this`peers, this`saved
      ensures Valid()
      ensures Configure in faults ==> r.Fail? && peers == old(peers) && saved == old(saved)
      ensures Configure !in faults ==> peers == Configured(old(peers), key, n)
      ensures Configure !in faults && Save in faults ==> r.Fail? && saved == old(saved)
      ensures Configure !in faults && Save !in faults ==> r == Pass && saved == peers
    {
      if Configure in faults {
        return Fail(InterfaceFailure);
      }
      peers := Configured(peers, key, n);
      if Save in faults {
        return Fail(InterfaceFailure);
      }
      saved := peers;
      r := Pass;
    }

    /** The transaction: staged copy of the devices table, committed at the end. */
    method Reserve(key: string, userId: int, subscriptionId: int, name: string, now: int, faults: set<Step>)
      returns (r: Result<IPNet>)
      requires Valid()
      modifies repo`devices
      ensures Valid()
      ensures var t := Reservation(old(repo.devices), peers, base, key, userId, subscriptionId, name, now, faults);
              && (t.Err? ==> r == Err(t.error) && repo.devices == old(repo.devices))
              && (t.Ok? ==> r == Ok(t.value.0) && repo.devices == t.value.1)
    {
      if TxBegin in faults {
        return Err(StoreFailure);
      }
      var staged := repo.devices;
      var n := GetNextIPNetAtomic(staged, faults);
      if n.Err? {
        return Err(n.error);
      }
      if KeyCheck in faults {
        return Err(StoreFailure);
      }
      var ins := InsertDevice(staged, userId, subscriptionId, name, key, Format(n.value.ip), now);
      if ins.Err? {
        return Err(ins.error);
      }
      if Insert in faults || Commit in faults {
        return Err(StoreFailure);
      }
      staged := ins.value;
      repo.CommitDevices(staged);
      r := Ok(n.value);
    }

    /**
     * CreateDeviceWithNewKeys: `keys` is the generated key pair (None: the
     * generator failed). Once the transaction commits the row stays, whatever
     * happens next; a failure to update the interface is not reported.
     */
    method CreateDeviceWithNewKeys(keys: Option<KeyPair>, userId: int, subscriptionId: int, name: string,
                                   now: int, faults: set<Step>) returns (r: Result<ConfigResult>)
      requires Valid()
      modifies repo`devices, this`peers, this`saved
      ensures Valid()
      ensures keys.None? ==>
                && r == Err(RandomFailure) && repo.devices == old(repo.devices)
                && peers == old(peers) && saved == old(saved)
      ensures keys.Some? ==>
                var key := keys.value.publicKey;
                var t := Reservation(old(repo.devices), old(peers), base, key, userId, subscriptionId, name, now,
                                     faults);
                && (t.Err? ==> r == Err(t.error) && repo.devices == old(repo.devices)
                               && peers == old(peers) && saved == old(saved))
                && (t.Ok? ==> repo.devices == t.value.1)
                && (t.Ok? && (ConfigRead in faults || ConfigRender in faults) ==>
                      r == Err(ConfigFailure) && peers == old(peers) && saved == old(saved))
                && (t.Ok? && ConfigRead !in faults && ConfigRender !in faults ==>
                      && peers == (if Configure in faults then old(peers) else Configured(old(peers), key, t.value.0))
                      && saved == (if Configure in faults || Save in faults then old(saved) else peers)
                      && r == (if Reread in faults then Err(StoreFailure)
                               else Ok(ConfigResult(Config(keys.value.privateKey, t.value.0), key,
                                                    Format(t.value.0.ip)))))
    {
      if keys.None? {
        return Err(RandomFailure);
      }
      var key := keys.value.publicKey;
      var n := Reserve(key, userId, subscriptionId, name, now, faults);
      if n.Err? {
        return Err(n.error);
      }
      if ConfigRead in faults || ConfigRender in faults {
        return Err(ConfigFailure);
      }
      var config := Config(keys.value.privateKey, n.value);
      var updated := UpdateDevice(key, n.value, faults);
      if Reread in faults {
        return Err(StoreFailure);
      }
      r := Ok(ConfigResult(config, key, Format(n.value.ip)));
    }

    /**
     * CreateDeviceWithPublicKey: the client's key must parse before any
     * transaction starts; the result carries no private key and no public key.
     */
    method CreateDeviceWithPublicKey(publicKey: string, userId: int, subscriptionId: int, name: string,
                                     now: int, faults: set<Step>) returns (r: Result<ConfigResult>)
      requires Valid()
      modifies repo`devices, this`peers, this`saved
      ensures Valid()
      ensures parseKey(publicKey).None? ==>
                && r == Err(BadPublicKey) && repo.devices == old(repo.devices)
                && peers == old(peers) && saved == old(saved)
      ensures parseKey(publicKey).Some? ==>
                var key := parseKey(publicKey).value;
                var t := Reservation(old(repo.devices), old(peers), base, key, userId, subscriptionId, name, now,
                                     faults);
                && (t.Err? ==> r == Err(t.error) && repo.devices == old(repo.devices)
                               && peers == old(peers) && saved == old(saved))
                && (t.Ok? ==> repo.devices == t.value.1)
                && (t.Ok? && (ConfigRead in faults || ConfigRender in faults) ==>
                      r == Err(ConfigFailure) && peers == old(peers) && saved == old(saved))
                && (t.Ok? && ConfigRead !in faults && ConfigRender !in faults ==>
                      && peers == (if Configure in faults then old(peers) else Configured(old(peers), key, t.value.0))
                      && saved == (if Configure in faults || Save in faults then old(saved) else peers)
                      && r == Ok(ConfigResult(Config("", t.value.0), "", Format(t.value.0.ip))))
    {
      var parsed := parseKey(publicKey);
      if parsed.None? {
        return Err(BadPublicKey);
      }
      var key := parsed.value;
      var n := Reserve(key, userId, subscriptionId, name, now, faults);
      if n.Err? {
        return Err(n.error);
      }
      if ConfigRead in faults || ConfigRender in faults {
        return Err(ConfigFailure);
      }
      var config := Config("", n.value);
      var updated := UpdateDevice(key, n.value, faults);
      r := Ok(ConfigResult(config, "", Format(n.value.ip)));
    }

    /** RevokeDevice: removes the peer from the interface and saves; the ledger is not touched. */
    method RevokeDevice(publicKey: string, faults: set<Step>) returns (r: Outcome)
      requires Valid()
      modifies this`peers, this`saved
      ensures Valid()
      ensures parseKey(publicKey).None? ==> r == Fail(BadPublicKey) && peers == old(peers) && saved == old(saved)
      ensures parseKey(publicKey).Some? && Configure in faults ==>
                r == Fail(InterfaceFailure) && peers == old(peers) && saved == old(saved)
      ensures parseKey(publicKey).Some? && Configure !in faults ==>
                && peers == Removed(old(peers), parseKey(publicKey).value)
                && (Save in faults ==> r == Fail(InterfaceFailure) && saved == old(saved))
                && (Save !in faults ==> r == Pass && saved == peers)
    {
      var key := parseKey(publicKey);
      if key.None? {
        return Fail(BadPublicKey);
      }
      if Configure in faults {
        return Fail(InterfaceFailure);
      }
      peers := Removed(peers, key.value);
      if Save in faults {
        return Fail(InterfaceFailure);
      }
      saved := peers;
      r := Pass;
    }

    /** Close: releases the wgctrl client. */
    method Close(faults: set<Step>) returns (r: Outcome)
      modifies this`open
      ensures !open
      ensures r == (if ClientClose in faults then Fail(InterfaceFailure) else Pass)
    {
      open := false;
      r := if ClientClose in faults then Fail(InterfaceFailure) else Pass;
    }
  }
}
