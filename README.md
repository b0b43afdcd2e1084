# Peer provisioning and subscription lifecycle of a WireGuard Telegram bot

This project models in Dafny the core of a Telegram bot that sells WireGuard
VPN access. The core covers:

- **The ledger**: SQLite tables of users, payments, subscriptions and devices,
  with the repository queries and updates over them.
- **Billing**: pricing, payment attempts, proof upload, and the
  administrator's approval or rejection. Approval creates or extends a
  subscription.
- **The access gate**: whether a user may add one more device.
- **The daily scheduler**:
  - It moves subscriptions along Active → Expiring → Paused → Expired.
  - It marks revoked the devices of subscriptions that expired long ago.
- **Two provisioning backends**:
  - The *local* backend allocates the next client address inside a ledger
    transaction. It records the device, renders the client configuration,
    and then adds the peer to the live WireGuard interface on a best-effort
    basis.
  - The *remote* backend asks one allow-listed executable on another host,
    over SSH, to create or revoke a peer. That host chooses the address. The
    backend records the device with the returned address and renders the
    configuration itself.

Modules:

| file | module | contents |
|---|---|---|
| common.dfy | Common | Option/Result/Outcome, error kinds, days as seconds, the `strings`/`strconv` helpers the core uses |
| ipv4.dfy | IPv4 | addresses as four bytes, dotted-decimal text, Go's `nextIP` increment with its wrap-around |
| provisioner.dfy | Provisioner | the client configuration and the `ConfigResult` both backends return |
| storage.dfy | Storage | rows, table invariants (the schema's keys and UNIQUE columns), queries as functions, class `Repository` |
| access.dfy | Access | the provisioning decision |
| billing.dfy | Billing | prices, approval's effect on subscriptions, class `Service` |
| scheduler.dfy | Scheduler | the status sweep and the device cleanup, class `Scheduler` |
| local.dfy | Local | the live interface, address allocation, class `LocalProvisioner` |
| remote.dfy | Remote | response parsing, the command line and how a shell reads it, class `RemoteProvisioner` |

### How the environment is modelled

- **Time.** A time is an integer number of seconds. `AddDate(0, 0, n)` is `n`
  days of 86400 seconds.
- **Rows.** Rows are never deleted, so an AUTOINCREMENT id is the row's
  position plus one.
- **External failures.** A failing SQL driver, wgctrl, `wg-quick` or SSH
  call is modelled at the operation that makes the call and reacts to its
  error, never inside `Storage.Repository`:
  - the billing service, the local and the remote provisioner take a set
    `faults` of the steps that fail (`Billing.Step`, `Local.Step`,
    `Remote.Step`);
  - the scheduler takes a flag for a failed fetch and a set of the rows
    whose write fails;
  - the access policy takes a flag for each of its two queries.

  Every combination of those failures is covered by the contracts. The
  repository's own methods always succeed; see "## Left out".
- **Generated values.** Key pairs, reference codes and payment comments are
  parameters of type `Option`; `None` stands for a failed random source.
  `wgtypes.ParseKey` is a parameter `parseKey` of the provisioner.
- **The remote host.** It is a function from the exact command line it
  receives to its reply. `RemoteProvisioner.commandLog` records every
  command line actually sent.
- **Transactions.** The local backend's transaction works on a staged copy
  of the devices table, which `Repository.CommitDevices` installs at commit.

### Where the code differs from its own comments (the model follows the code)

- **Address allocation.** The comment at `local.go:300` says the latest
  assigned address is read from the database, and the next address is meant
  to be free. The query instead takes the greatest address *as
  text* (`ORDER BY assigned_ip DESC LIMIT 1`), which is not the same; see
  "## Findings". `Local.LastUsed`, `Local.Allocation`, `Local.Reservation`
  and the local provisioner's methods follow the code as written:
  - When no live device exists, the code goes straight to the interface's
    base address.
  - Otherwise it parses only the text-greatest live address. It scans the
    interface's peers when the query fails or that one address does not
    parse.
  - The intended allocation, numeric maximum first, is `Local.NumericAllocation`,
    proved fresh by `Local.NumericAllocationIsFresh`. On the example of
    "## Findings" the two give different addresses (`Local.TextOrderReallocates`).
- **The status sweep.**
  - The comparisons are strict (`After`/`Before`), not `≥`.
  - The grace end is set when a subscription is created or extended, not
    when it is paused.
  - So a subscription that is Expiring and already past its grace end is
    paused by one sweep and expired by the next (`SweepNotIdempotent`). Two
    sweeps at the same instant always settle (`SweepSettles`).
- **The remote command line.** The comments at `ssh.go:145`, `ssh.go:160`
  and `ssh.go:178` say the command runs without a shell and that quoting
  prevents shell injection. The code builds one command line: the executable, then each
  argument passed through `strconv.Quote`. The SSH server hands that line
  to the remote user's shell.
  - Double quotes keep `$` and `` ` `` live.
  - `Remote.CommandScan` proves that the line closes all its quotes. It also
    proves that a shell meets a parameter expansion or command substitution
    exactly when some argument holds `$` or `` ` ``.
  - `Remote.DeviceNameSubstitutes` exhibits a device name for which this
    happens.
  - The bot's own callers pass device names of the form `device_<n>`, decimal
    ids, base64 keys and addresses, none of which holds either character.
    This is therefore recorded here rather than as a defect.

## Model

| member | source | states |
|---|---|---|
| Common.TrimSuffix | internal/provisioning/ssh.go:206 | one copy of the suffix is removed when present, otherwise the text is unchanged |
| Common.Split | internal/provisioning/ssh.go:223 | at least one piece, no piece holds the separator, and text without the separator is one piece |
| Common.TrimSpace | internal/provisioning/ssh.go:225 | the result is the input with a leading and a trailing run of white space cut, and it neither starts nor ends with white space |
| Common.IntText | internal/provisioning/ssh.go:282 | FormatInt(n, 10) is the canonical decimal digits of n (non-empty, no leading zero except "0"), with one leading minus sign exactly when n is negative |
| IPv4.Value | internal/provisioning/local.go:439 | the big-endian value of four bytes lies in [0, 2^32) |
| IPv4.ValueInjective | internal/provisioning/local.go:439 | two addresses with the same value are the same address |
| IPv4.NextIP | internal/provisioning/local.go:437-446 | nextIP's result has the value (value + inc) mod 2^32, after the 64-bit add |
| IPv4.NextIPWraps | internal/provisioning/local.go:437-446 | the top address 255.255.255.255 wraps to 0.0.0.0 |
| IPv4.NextIPIncreases | internal/provisioning/local.go:437-446 | below the top address, the next address is numerically one greater |
| IPv4.Format | internal/provisioning/local.go:152 | IP.String of an IPv4 address is made of digits and dots only |
| IPv4.ParseFormat | internal/provisioning/local.go:315 | net.ParseIP reads back the text IP.String writes as the same address |
| IPv4.ValidIPChars | internal/provisioning/ssh.go:211 | an address net.ParseIP accepts (IPv4 form) holds only digits and dots, so no '/' |
| IPv4.HostNetText | internal/provisioning/local.go:347 | the host network prints as the address followed by "/32" |
| Storage.TextLeTotal | internal/provisioning/local.go:303 | SQLite's BINARY collation orders any two strings |
| Storage.TextLeTransitive | internal/provisioning/local.go:303 | the collation is transitive |
| Storage.TextLeAntisymmetric | internal/provisioning/local.go:303 | strings that collate both ways are equal |
| Storage.MaxText | internal/provisioning/local.go:302-304 | ORDER BY text DESC LIMIT 1 returns a member that collates after every other |
| Storage.UserByTelegramID | internal/storage/repository.go:139-154 | the user with that telegram id, or none exists |
| Storage.UserByID | internal/storage/repository.go:156-171 | a user is returned iff one has that id, and it has that id |
| Storage.UserByUsername | internal/storage/repository.go:173-188 | a user with that username, or none has it |
| Storage.PaymentByID | internal/storage/repository.go:212-235 | a payment is returned iff one has that id, and it has that id |
| Storage.PaymentByReferenceCode | internal/storage/repository.go:237-260 | a payment with that reference code, or none has it |
| Storage.SubscriptionByID | internal/storage/repository.go:453-471 | a subscription is returned iff one has that id |
| Storage.ActiveSubscriptionByUserID | internal/storage/repository.go:371-389 | the user's live subscription (active, expiring or paused) with the latest created_at; none iff the user has no live subscription |
| Storage.SelectAppended | internal/billing/billing.go:150-168 | a live subscription created for a user with none becomes that user's active subscription |
| Storage.SelectRewritten | internal/billing/billing.go:145-149 | extending the active subscription in place leaves it the active one |
| Storage.DeviceByPeerPublicKey | internal/storage/repository.go:495-512 | a device with that key, revoked or not; none iff no row has the key |
| Storage.CountActiveDevices | internal/storage/repository.go:514-524 | the number of non-revoked rows of that subscription |
| Storage.InsertByCreatedAt | internal/storage/repository.go:266 | inserting into a list sorted by created_at keeps it sorted and adds exactly that payment |
| Storage.SortByCreatedAt | internal/storage/repository.go:266 | ORDER BY created_at ASC: the result is sorted by created_at and a permutation of the input |
| Storage.MatchingPayments | internal/storage/repository.go:264-266 | the WHERE clause: exactly the payments of that user in that status |
| Storage.PendingInTable | internal/storage/repository.go:296-298 | the WHERE clause: exactly the payments in pending_review |
| Storage.PaymentsWith | internal/storage/repository.go:262-292 | exactly the payments of that user in that status, each once, oldest created_at first |
| Storage.PendingPayments | internal/storage/repository.go:294-324 | exactly the payments in pending_review, each once, oldest created_at first |
| Storage.LiveSubscriptions | internal/storage/repository.go:402-427 | exactly the subscriptions in a live status |
| Storage.ExpiredDevices | internal/storage/repository.go:537-563 | exactly the non-revoked devices whose subscription is expired with a grace end before the cutoff |
| Storage.InsertDevice | internal/storage/migrations.go:64 | the insert fails with a conflict iff the public key is already in some row; otherwise one row is appended and the table stays valid |
| Storage.RevokeRow | internal/storage/repository.go:526-535 | only the row with that id gets revoked_at; a missing id changes nothing |
| Storage.SetStatus | internal/storage/repository.go:391-400 | only the status of the row with that id changes |
| Storage.Extended | internal/storage/repository.go:429-451 | ends_at moves on by the days from its current value, the grace end is three days later, the status is active, duration and amount accumulate, and the limit, start and creation time stay |
| Storage.Reviewed | internal/storage/repository.go:326-336 | only that payment's status, reviewed_at and reviewed_by change |
| Storage.WithProof | internal/storage/repository.go:338-347 | that payment moves to pending_review from any status and gets the proof; no other row changes |
| Storage.Repository.constructor | internal/storage/repository.go:17-19 | the repository's database as a fresh in-memory ledger: four empty tables, no migrations applied (opening the file in `NewRepository` is left out) |
| Storage.Repository.Migrate | internal/storage/migrations.go:87-91 | migrations run in order; the first failing one stops the run and is named in the error, after exactly the earlier ones |
| Storage.Repository.GetOrCreateUser | internal/storage/repository.go:103-137 | an existing user is returned unchanged; otherwise exactly one new row |
| Storage.Repository.CreatePayment | internal/storage/repository.go:192-210 | refused iff the reference code or the comment is taken (migrations.go lines 31-32); otherwise one row appended with its new id |
| Storage.Repository.GetPaymentsByUserIDAndStatus | internal/storage/repository.go:262-292 | the scan loop and the sort return PaymentsWith of the table: that user's payments in that status, oldest first |
| Storage.Repository.GetPendingPayments | internal/storage/repository.go:294-324 | the scan loop and the sort return PendingPayments of the table: the pending_review payments, oldest first |
| Storage.Repository.UpdatePaymentStatus | internal/storage/repository.go:326-336 | the table becomes Reviewed of the old one |
| Storage.Repository.AttachProofToPayment | internal/storage/repository.go:338-347 | the table becomes WithProof of the old one |
| Storage.Repository.CreateSubscription | internal/storage/repository.go:351-369 | one row appended; its id is the new table length |
| Storage.Repository.UpdateSubscriptionStatus | internal/storage/repository.go:391-400 | the table becomes SetStatus of the old one |
| Storage.Repository.GetSubscriptionsNeedingUpdate | internal/storage/repository.go:402-427 | the scan loop returns LiveSubscriptions of the table |
| Storage.Repository.ExtendSubscription | internal/storage/repository.go:429-451 | a missing id is an error with nothing changed; otherwise that row becomes Extended |
| Storage.Repository.CreateDevice | internal/storage/repository.go:475-493 | the table becomes InsertDevice of the old one, or is unchanged with the conflict |
| Storage.Repository.CommitDevices | internal/provisioning/local.go:166-169 | the transaction's staged table becomes the ledger |
| Storage.Repository.RevokeDevice | internal/storage/repository.go:526-535 | the table becomes RevokeRow of the old one |
| Storage.Repository.GetExpiredDevicesToCleanup | internal/storage/repository.go:537-563 | the join loop returns ExpiredDevices of the tables |
| Access.Decide | internal/access/access.go:36-90 | allow iff the subscription is active or expiring, not past its end, and has fewer live devices than its limit; an error iff only the count query fails; no subscription, expired, paused (expired once past its grace end) and past-the-end each give their own refusal; a limit refusal carries the count and the limit |
| Access.CanProvisionDevice | internal/access/access.go:29-91 | allow iff the lookups succeed and the user's active subscription is in force with fewer live devices than its limit; an error iff the lookup fails or the count fails on a subscription in force; no active subscription is refused as such; otherwise Decide of that subscription and its live-device count |
| Access.AllowedDeviceFitsLimit | internal/access/access.go:79-90 | after an allowed device is recorded, the subscription's live devices do not exceed its limit |
| Billing.DiscountPercent | internal/billing/billing.go:48-58 | 95 for 90 days, 90 for 180 days, 100 otherwise |
| Billing.CalculatePrice | internal/billing/billing.go:47-62 | 10000 kopecks per device for 30 days and unknown lengths, 9500 for 90 days, 9000 for 180; the float product is a whole number, so rounding loses nothing |
| Billing.PriceOrdering | internal/billing/billing.go:47-62 | more devices never cost less; a longer plan never costs more per 30 days; the price is positive and at most the undiscounted one |
| Billing.NewSubscription | internal/billing/billing.go:150-168 | active from now for the paid days, grace three days after the end, the paid device count as the limit |
| Billing.ReviewCheck | internal/billing/billing.go:114-123 | a review goes ahead iff the payment exists and is in pending_review |
| Billing.AfterApproval | internal/billing/billing.go:138-169 | with a live subscription, exactly that row becomes Extended and no other row changes; without one, exactly NewSubscription is appended with the next id; either way the user then has an active subscription |
| Billing.ApprovalExtendsEnd | internal/billing/billing.go:145-149 | approving while a live subscription exists moves that subscription's end on by exactly the paid days and keeps its limit |
| Billing.Service.constructor | internal/billing/billing.go:25-30 | the service holds the repository |
| Billing.Service.CreatePaymentAttempt | internal/billing/billing.go:65-101 | invalid duration or device count and a failed random source are refused with nothing written; otherwise it succeeds iff the code and comment are new, and then exactly the created payment (plan, device count, CalculatePrice amount, no proof, no review) is appended with created_at now, while the returned struct carries the new id and Go's zero time as CreatedAt |
| Billing.Service.AttachProofAndMoveToPendingReview | internal/billing/billing.go:104-109 | the payments table becomes WithProof of the old one, or is unchanged on failure |
| Billing.Service.AdminApprovePayment | internal/billing/billing.go:113-172 | nothing changes unless the payment is pending_review and the comment matches; then it is approved, and the subscriptions become AfterApproval unless a later step fails |
| Billing.Service.AdminRejectPayment | internal/billing/billing.go:175-192 | the payment is rejected iff it is pending_review and the update succeeds; otherwise nothing changes |
| Scheduler.Transition | internal/scheduler/scheduler.go:99-111 | each of the three transitions fires exactly under its strict condition, and each is one step along the lifecycle |
| Scheduler.Swept | internal/scheduler/scheduler.go:96-119 | only the status changes, by at most one step, and only when a transition applies and the write succeeds |
| Scheduler.SweepTable | internal/scheduler/scheduler.go:90-122 | every row is swept on its own, and the ids stay |
| Scheduler.CleanupTable | internal/scheduler/scheduler.go:183-203 | exactly the cleanup candidates whose write succeeds get revoked_at |
| Scheduler.SweepPrefixStep | internal/scheduler/scheduler.go:113 | handling one fetched row is the single status write its transition calls for |
| Scheduler.SweepPrefixComplete | internal/scheduler/scheduler.go:96 | once every live row is handled, the table is the swept table |
| Scheduler.CleanupPrefixStep | internal/scheduler/scheduler.go:192 | handling one fetched device is the single revocation write |
| Scheduler.CleanupPrefixComplete | internal/scheduler/scheduler.go:191 | once every candidate is handled, the table is the cleaned table |
| Scheduler.SweepNotIdempotent | internal/scheduler/scheduler.go:103-108 | an expiring subscription already past its grace end is paused by one sweep and expired by the next |
| Scheduler.SweepSettles | internal/scheduler/scheduler.go:99-111 | at a fixed time a third sweep changes nothing |
| Scheduler.Scheduler.constructor | internal/scheduler/scheduler.go:22-28 | a new scheduler is not running |
| Scheduler.Scheduler.Start | internal/scheduler/scheduler.go:32-34 | the scheduler is running |
| Scheduler.Scheduler.Stop | internal/scheduler/scheduler.go:56-59 | the scheduler is not running |
| Scheduler.Scheduler.UpdateSubscriptionStatuses | internal/scheduler/scheduler.go:90-122 | a failed fetch changes nothing; otherwise the table becomes SweepTable of the old one, with failed writes skipped |
| Scheduler.Scheduler.WriteTransitions | internal/scheduler/scheduler.go:96-119 | after the loop over the fetched rows, the table is the prefix sweep of every fetched row, each written at most once |
| Scheduler.Scheduler.RevokeExpiredDevices | internal/scheduler/scheduler.go:183-203 | with the cutoff now minus 30 days, the devices table becomes CleanupTable of the old one, with failed writes skipped |
| Scheduler.Scheduler.RevokeEach | internal/scheduler/scheduler.go:191-200 | after the loop over the fetched devices, exactly the fetched rows whose write succeeds carry revoked_at = now |
| Scheduler.Scheduler.Run | internal/scheduler/scheduler.go:61-88 | nothing when stopped; otherwise the sweep and then the cleanup, which sees the new statuses, each independent of the other's failure |
| Local.PeerIndex | internal/provisioning/local.go:364-376 | the position of the peer with that key, or no peer has it |
| Local.Without | internal/provisioning/local.go:364-376 | the networks other than the given one |
| Local.Configured | internal/provisioning/local.go:364-376 | the network is added to the peer with that key, or a new peer gets exactly it; every other peer loses it; keys stay unique |
| Local.Removed | internal/provisioning/local.go:275-286 | exactly the peers with another key remain |
| Local.AllowedAddresses | internal/provisioning/local.go:399-405 | every allowed address of every peer is listed |
| Local.AllowedAddressesListed | internal/provisioning/local.go:399-405 | nothing but the peers' allowed addresses is listed |
| Local.MaxFrom | internal/provisioning/local.go:394-405 | the scan's result is at least the start, at least every scanned address, and one of them |
| Local.LiveAddresses | internal/provisioning/local.go:303 | exactly the assigned addresses of non-revoked rows |
| Local.LedgerLatest | internal/provisioning/local.go:302-304 | the query as written: none iff every row is revoked, else the live address greatest as text |
| Local.TextOrderReallocates | internal/provisioning/local.go:299-337 | with 10.0.0.9 and 10.0.0.10 live, the text maximum is 10.0.0.9, so the allocation hands out 10.0.0.10 again and a new key's reservation commits a second live row with it; the intended allocation gives 10.0.0.11 |
| Local.NumericLatest | internal/provisioning/local.go:302-315 | the numerically greatest parseable live address; none iff no live address parses |
| Local.NumericNextIsFresh | internal/provisioning/local.go:331 | below the top address, the successor of the numeric maximum is held by no live device |
| Local.LastUsed | internal/provisioning/local.go:306-329 | the interface scan when the query fails; the base when no live row exists; otherwise the parse of the text-greatest live address, which some live row holds, or the scan when that one address does not parse |
| Local.Scan | internal/provisioning/local.go:388-412 | fails iff the interface cannot be read or has no base address; otherwise at least the base and every allowed address, and the base or one of them |
| Local.Allocation | internal/provisioning/local.go:331-336 | the host network of the address after the last used one, and it fails exactly when that choice fails |
| Local.NumericAllocation | internal/provisioning/local.go:299-337 | the intended allocation: the successor of the numeric maximum when the ledger answers, the code's allocation whenever the ledger does not decide |
| Local.NumericAllocationIsFresh | internal/provisioning/local.go:299-337 | the intended allocation is held by no live device unless the increment wraps |
| Local.ReservationAppends | internal/provisioning/local.go:125-169 | with every step succeeding and a new key, the reservation appends exactly one live row with the allocated address |
| Local.ScanNextIsFresh | internal/provisioning/local.go:388-412 | when the interface scan decides, the allocated address is routed to no peer unless the increment wraps |
| Local.Reservation | internal/provisioning/local.go:125-169 | succeeds iff every step succeeds and the key is new, and then appends exactly the row with the allocated address; a known key is a conflict |
| Local.ConflictLeavesLedger | internal/provisioning/local.go:137-144 | a key already in the ledger, revoked or not, makes the reservation fail |
| Local.LocalProvisioner.constructor | internal/provisioning/local.go:25-30 | the provisioner holds its repository, settings and interface; the saved configuration is the live one |
| Local.LocalProvisioner.Config | internal/provisioning/local.go:340-361 | address is the host network, the server key and DNS, and all traffic routed |
| Local.LocalProvisioner.GetLatestUsedIP | internal/provisioning/local.go:388-412 | the nested loop returns Scan |
| Local.LocalProvisioner.ScanPeer | internal/provisioning/local.go:400-404 | the inner loop extends the running maximum over one peer's networks |
| Local.LocalProvisioner.GetNextIPNetAtomic | internal/provisioning/local.go:299-337 | the query-parse-fallback chain returns Allocation of the transaction's table |
| Local.LocalProvisioner.UpdateDevice | internal/provisioning/local.go:364-385 | a failed configure changes nothing; otherwise the interface becomes Configured, and the save records it unless it fails |
| Local.LocalProvisioner.Reserve | internal/provisioning/local.go:125-169 | returns the Reservation's network and commits its table, or changes nothing |
| Local.LocalProvisioner.CreateDeviceWithNewKeys | internal/provisioning/local.go:118-194 | nothing happens (ledger, interface, saved configuration) before a failed commit; after the commit the row stays; an interface failure is not reported; the result carries the key and the address |
| Local.LocalProvisioner.CreateDeviceWithPublicKey | internal/provisioning/local.go:197-264 | an unparseable key changes nothing; otherwise as with new keys, with an empty private key and no public key in the result |
| Local.LocalProvisioner.RevokeDevice | internal/provisioning/local.go:267-296 | the peer leaves the interface and the ledger is not touched; configure and save failures are reported |
| Local.LocalProvisioner.Close | internal/provisioning/local.go:110-115 | the client is released |
| Remote.ParseAssignedIP | internal/provisioning/ssh.go:201-215 | empty text is refused; an accepted address is a valid IPv4 address without '/', and the reply is it or it followed by "/32" |
| Remote.ParseAssignedIPAccepts | internal/provisioning/ssh.go:205-214 | every valid address is accepted, bare or with "/32", and comes back bare |
| Remote.ParseAssignedIPIdempotent | internal/provisioning/ssh.go:201-215 | parsing the parsed address gives it again |
| Remote.OtherMaskRejected | internal/provisioning/ssh.go:206-210 | any mask other than /32 is refused |
| Remote.DnsList | internal/provisioning/ssh.go:220-227 | text without a comma is one server as given; otherwise one entry per comma-separated piece, each that piece with its white space cut |
| Remote.DnsListOfJoin | internal/provisioning/ssh.go:220-227 | comma-free servers joined by commas, with or without white space around them, come back one per server with the space cut; servers without such space come back unchanged |
| Remote.ClientAddress | internal/provisioning/ssh.go:229-233 | "/32" is appended iff the address has no '/' |
| Remote.ClientAddressRoundTrip | internal/provisioning/ssh.go:229-233 | the rendered address parses back to the assigned address |
| Remote.ClientAddressMatchesLocal | internal/provisioning/ssh.go:229-233 | for the same address, both backends write the same Address line |
| Remote.RemoteConfig | internal/provisioning/ssh.go:235-243 | address, private key, server key, endpoint, DNS list and all traffic routed |
| Remote.Escape | internal/provisioning/ssh.go:163 | a character is kept or replaced by a backslash escape |
| Remote.Quote | internal/provisioning/ssh.go:163 | a double-quoted literal in which no raw control character survives |
| Remote.Command | internal/provisioning/ssh.go:159-164 | the command line starts with the allow-listed executable |
| Remote.QuoteBodyScan | internal/provisioning/ssh.go:163 | inside double quotes, the escaped text stays inside and meets '$' or '`' iff the argument has one |
| Remote.EscapeScan | internal/provisioning/ssh.go:163 | one escaped character stays inside double quotes and is live iff it is '$' or '`' |
| Remote.ProgramScan | internal/provisioning/ssh.go:161 | the executable's path is read literally |
| Remote.QuoteScan | internal/provisioning/ssh.go:163 | a quoted argument closes its quotes and is live iff it holds '$' or '`' |
| Remote.CommandScan | internal/provisioning/ssh.go:159-179 | the shell reads the whole line with quotes closed, and substitutes iff some argument holds '$' or '`' |
| Remote.DeviceNameSubstitutes | internal/provisioning/ssh.go:280-288 | a device name "$(reboot)" reaches the remote shell as a command substitution |
| Remote.CreateArgs | internal/provisioning/ssh.go:280-286 | exactly "create", "--user-id", the user id, "--subscription-id", the subscription id, "--device-name", the name, "--public-key", the key, with the ids in canonical decimal |
| Remote.Persist | internal/provisioning/ssh.go:293-323 | malformed or incomplete responses and bad addresses are refused; otherwise one row with the bare address is appended iff the insert succeeds |
| Remote.Acknowledged | internal/provisioning/ssh.go:445-454 | success iff the response is JSON with ok true |
| Remote.RemoteProvisioner.constructor | internal/provisioning/ssh.go:26-30 | no connection, no dials, no command sent |
| Remote.RemoteProvisioner.Exchange | internal/provisioning/ssh.go:146-189 | no connection or a control character is an error before sending; a reply is the host's output for exactly that command line |
| Remote.RemoteProvisioner.GetSSHClient | internal/provisioning/ssh.go:100-141 | a live cached connection is reused; otherwise it is dropped and a new one dialled, counted once |
| Remote.RemoteProvisioner.HasControlCharacter | internal/provisioning/ssh.go:152-157 | true iff some argument holds '\n', '\r' or NUL |
| Remote.RemoteProvisioner.BuildCommand | internal/provisioning/ssh.go:159-164 | the loop builds Command(args) |
| Remote.RemoteProvisioner.ExecuteSSHCommand | internal/provisioning/ssh.go:146-189 | the result is Exchange, and the command line is sent iff connection, arguments and session all pass |
| Remote.RemoteProvisioner.CreateDeviceWithNewKeys | internal/provisioning/ssh.go:261-336 | a known key or failed lookup sends nothing, dials nothing and leaves the connection as it was; otherwise at most one dial, counted in dials, and the device is recorded only after a complete response with an acceptable address |
| Remote.RemoteProvisioner.CreateDeviceWithPublicKey | internal/provisioning/ssh.go:341-414 | an unparseable key sends nothing; otherwise as with new keys, with no private key and no public key in the result |
| Remote.RemoteProvisioner.RevokeDevice | internal/provisioning/ssh.go:420-457 | the ledger is never changed; nothing is sent or dialled without a row with an address; success iff the revoke is acknowledged |
| Remote.RemoteProvisioner.Close | internal/provisioning/ssh.go:192-197 | a held connection is closed; without one, nothing happens |

## Left out

- The `Provisioner` interface (internal/provisioning/provisioner.go:26-40) is not a Dafny trait. `Local.LocalProvisioner` and `Remote.RemoteProvisioner` offer the same four operations with the same shapes.
- Construction from the environment is not modelled: `NewLocalProvisioner` (interface name, DNS and endpoint variables, wgctrl client) and `NewSSHProvisioner` (host, port, user, key path). The resulting settings are constructor parameters.
- Storage.Repository: its methods never return the driver's error, although each Go counterpart does. A failing query or write is modelled at the caller that handles it (billing, scheduler, access, provisioners), so every error path the core acts on is covered; only the repository passing the error through is not stated.
- `NewRepository` is not modelled: DSN handling, directory checks, driver choice and ping. Neither are `Repository.Close` or `BeginTx`. A transaction is a staged copy of the devices table.
- Foreign keys and ON DELETE CASCADE are not modelled. Rows are never deleted, and the driver does not honour the DSN parameter that would enable them.
- `Migrate` ignores the `ALTER TABLE` and unique-index statements after the loop, as the code does. Their errors are discarded, and `payment_comment` is already UNIQUE in the table definition.
- Dates are integer seconds, and a calendar day is 86400 seconds. `AddDate`'s calendar arithmetic (daylight-saving changes, month lengths) is not modelled.
- Billing.CalculatePrice: the source multiplies by a float factor and rounds. The model uses integer percentages; for the plans on sale the two give the same amount.
- `GenerateReferenceCode`, `GeneratePaymentComment`, `wgtypes.GeneratePrivateKey` and `wgtypes.ParseKey` are parameters, not computations. `GetStaticQRCode` and the billing service's `GetPendingPayments` wrapper add nothing beyond the repository query.
- The scheduler's ticker, goroutines, context cancellation and notification pass (`sendNotifications`) are not modelled. `Start` and `Stop` only set the running flag. Notifications only read and send messages.
- Concurrency is not modelled:
  - two transactions allocating at once;
  - the window between the access check and device creation;
  - approval racing another approval.
- Local.Scan: wgctrl's allowed IPs are taken to be IPv4. The byte-wise comparison of mixed 4- and 16-byte `net.IP` values is not modelled.
- IPv4.Parse: accepts only dotted-decimal IPv4. IPv6 text that `net.ParseIP` accepts is treated as unparseable (also in `Remote.ParseAssignedIP`).
- Remote.Quote: uses strconv.Quote's ASCII escapes. A non-ASCII character is kept as it is, whereas strconv.Quote escapes a non-printable one and an invalid UTF-8 byte. No character that the shell treats specially is affected.
- Rendering the configuration through `cfgs.ProcessClientConfig` is not modelled, beyond the fields it receives and a step that can fail.
- `json.Unmarshal` is the `Json` datatype: not JSON at all, or an object with the fields it sets (missing ones empty, `ok` false).
- SSH transport details (host-key checking, timeouts, stderr text) are not modelled. The remote host is a function of the command line.
- Error messages and log lines are not modelled. Errors are kinds.
- Common.TrimSpace: cuts ASCII white space only. `strings.TrimSpace` also cuts Unicode white space (U+0085, U+00A0 and the other Unicode spaces); the DNS text it is applied to is not expected to hold them.
- PaymentsWith: among payments with equal `created_at` the model keeps table order; SQLite does not promise an order for ties. The same holds for PendingPayments, GetPaymentsByUserIDAndStatus and GetPendingPayments.
- Storage.ActiveSubscriptionByUserID: on equal `created_at` values the model picks the later row. SQLite may return either.
- The local backend reads the interface's base address from the operating system (`getDeviceAddress`). That address is a constructor parameter (`None` when the interface has no IPv4 address).

## Findings

| source | as written | input that shows it | evidently intended | confidence | as-written member | corrected member |
|---|---|---|---|---|---|---|
| internal/provisioning/local.go:302-304 | the latest live address is chosen by `ORDER BY assigned_ip DESC` on a TEXT column, so the order is by text, not by address | live devices at 10.0.0.9 and 10.0.0.10: the text maximum is "10.0.0.9", and the next address 10.0.0.10 is handed out again and a second live row holding it is committed; the kernel then moves that allowed IP to the new peer | the numerically greatest live address, so that the next address is free | high (not executed) | Local.TextOrderReallocates | Local.NumericAllocationIsFresh |
