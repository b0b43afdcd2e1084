/**
 * Shared vocabulary of the provisioning model: optional values, results with
 * typed errors, the time unit, and the few string operations of Go's
 * `strings` and `strconv` packages that the core relies on.
 */
module Common {

  datatype Option<+T> = None | Some(value: T)

  /** The error kinds the core returns (each stands for one family of Go errors). */
  datatype Error =
    | StoreFailure          // the SQL driver reported an error
    | NotFound              // a row the operation needs does not exist
    | Conflict              // duplicate public key, or a UNIQUE constraint
    | InvalidDuration       // subscription length other than 30, 90 or 180 days
    | InvalidDeviceCount    // device count outside 1..5
    | WrongStatus           // payment is not in pending_review
    | CommentMismatch       // verified comment differs from the payment's
    | RandomFailure         // the random source failed (keys, reference codes, comments)
    | BadPublicKey          // a public key that does not parse
    | AllocationFailure     // no base address could be determined
    | InterfaceFailure      // the live interface could not be read or changed
    | ConfigFailure         // the client configuration could not be rendered
    | ControlCharacter      // a remote argument holds '\n', '\r' or NUL
    | RemoteFailure         // connection, session or remote command failed
    | MalformedResponse     // remote output is not JSON
    | MissingFields         // remote create response lacks a required field
    | BadAssignedIP         // remote assigned_ip is not an IP or IP/32
    | NoAssignedIP          // device row has an empty assigned address
    | RemoteRejected        // remote revoke answered ok=false
    | MigrationFailed(name: string)

  datatype Result<+T> = Ok(value: T) | Err(error: Error)

  datatype Outcome = Pass | Fail(error: Error)

  /** Timestamps are integer seconds; a calendar day is taken as 86400 seconds. */
  const Day: int := 86400

  function Days(n: int): int { n * Day }

  // ---------------------------------------------------------------------------
  // strings

  predicate HasSuffix(s: string, suffix: string) {
    |suffix| <= |s| && s[|s| - |suffix|..] == suffix
  }

  /** strings.TrimSuffix: drops one copy of `suffix` from the end, if present. */
  function TrimSuffix(s: string, suffix: string): (r: string)
    ensures HasSuffix(s, suffix) ==> s == r + suffix
    ensures !HasSuffix(s, suffix) ==> r == s
  {
    if HasSuffix(s, suffix) then s[..|s| - |suffix|] else s
  }

  /** strings.Split for a one-character separator: |r| is one more than the separators in s. */
  function Split(s: string, sep: char): (r: seq<string>)
    ensures |r| >= 1
    ensures forall k :: 0 <= k < |r| ==> sep !in r[k]
    ensures sep !in s ==> r == [s]
    decreases |s|
  {
    if sep !in s then [s]
    else
      var i := IndexOf(s, sep);
      [s[..i]] + Split(s[i + 1..], sep)
  }

  function IndexOf(s: string, c: char): (i: nat)
    requires c in s
    ensures i < |s| && s[i] == c && c !in s[..i]
  {
    if s[0] == c then 0 else 1 + IndexOf(s[1..], c)
  }

  lemma {:induction false} SplitJoin(a: string, sep: char, rest: string)
    requires sep !in a
    ensures Split(a + [sep] + rest, sep) == [a] + Split(rest, sep)
  {
    var s := a + [sep] + rest;
    assert s[|a|] == sep;
    IndexOfPrefix(a, sep, rest);
    assert s[..|a|] == a;
    assert s[|a| + 1..] == rest;
  }

  lemma {:induction false} IndexOfPrefix(a: string, c: char, rest: string)
    requires c !in a
    ensures c in a + [c] + rest && IndexOf(a + [c] + rest, c) == |a|
  {
    var s := a + [c] + rest;
    assert s[|a|] == c;
    if a != [] {
      assert s[1..] == a[1..] + [c] + rest;
      IndexOfPrefix(a[1..], c, rest);
    }
  }

  /** The ASCII white space that strings.TrimSpace removes. */
  predicate IsSpace(c: char) {
    c == ' ' || c == '\t' || c == '\n' || c == '\r' || c as int == 11 || c as int == 12
  }

  /** Where the leading white space of `s` ends. */
  function FirstNonSpace(s: string): (i: nat)
    ensures i <= |s| && (i == |s| || !IsSpace(s[i]))
    ensures forall k :: 0 <= k < i ==> IsSpace(s[k])
    decreases |s|
  {
    if s == [] || !IsSpace(s[0]) then 0
    else
      var i := 1 + FirstNonSpace(s[1..]);
      assert forall k :: 1 <= k < i ==> s[k] == s[1..][k - 1];
      i
  }

  /** Where the trailing white space of `s` starts. */
  function EndNonSpace(s: string): (j: nat)
    ensures j <= |s| && (j == 0 || !IsSpace(s[j - 1]))
    ensures forall k :: j <= k < |s| ==> IsSpace(s[k])
    decreases |s|
  {
    if s == [] || !IsSpace(s[|s| - 1]) then |s| else EndNonSpace(s[..|s| - 1])
  }

  /**
   * strings.TrimSpace (ASCII white space only): the slice of `s` left once
   * every leading and trailing space is cut, so no space is left at either
   * end and nothing but space was cut.
   */
  function TrimSpace(s: string): (r: string)
    ensures exists i, j :: 0 <= i <= j <= |s| && r == s[i..j]
                           && (forall k :: 0 <= k < i ==> IsSpace(s[k]))
                           && (forall k :: j <= k < |s| ==> IsSpace(s[k]))
    ensures r == [] || (!IsSpace(r[0]) && !IsSpace(r[|r| - 1]))
  {
    var i := FirstNonSpace(s);
    if i == |s| then
      assert s[i..i] == [];
      []
    else
      var j := EndNonSpace(s);
      assert i < j;
      s[i..j]
  }

  // ---------------------------------------------------------------------------
  // decimal numbers

  predicate IsDigit(c: char) { '0' as int <= c as int <= '9' as int }

  function DigitChar(d: int): (c: char)
    requires 0 <= d < 10
    ensures IsDigit(c) && c as int - '0' as int == d
  {
    (d + '0' as int) as char
  }

  /** Decimal digits of a natural number, without leading zeros. */
  function NatText(n: nat): (s: string)
    ensures |s| >= 1 && forall c :: c in s ==> IsDigit(c)
    decreases n
  {
    if n < 10 then [DigitChar(n)] else NatText(n / 10) + [DigitChar(n % 10)]
  }

  /** Non-empty decimal text with no leading zero, unless it is "0" itself. */
  predicate Canonical(t: string) {
    |t| >= 1 && (t[0] == '0' ==> |t| == 1)
  }

  /** Value of a string of decimal digits. */
  function DecValue(t: string): (n: nat)
    requires forall c :: c in t ==> IsDigit(c)
  {
    if t == [] then 0
    else
      var d := t[|t| - 1];
      assert d in t;
      assert IsDigit(d);
      DecValue(t[..|t| - 1]) * 10 + (d as int - '0' as int)
  }

  lemma {:induction false} DecValueOfNatText(n: nat)
    ensures DecValue(NatText(n)) == n
    ensures (|NatText(n)| == 1) == (n < 10)
    ensures n >= 10 ==> NatText(n)[0] != '0'
    ensures n < 1000 ==> |NatText(n)| <= 3
    decreases n
  {
    if n >= 10 {
      DecValueOfNatText(n / 10);
      var t := NatText(n);
      assert t[..|t| - 1] == NatText(n / 10);
      assert t[0] == NatText(n / 10)[0];
      if n / 10 < 10 {
        assert NatText(n / 10)[0] == DigitChar(n / 10);
      }
    }
  }

  /** strconv.FormatInt(n, 10): the digits of |n|, after one minus sign when n is negative. */
  function IntText(n: int): (s: string)
    ensures n >= 0 ==> (forall c :: c in s ==> IsDigit(c)) && DecValue(s) == n && Canonical(s)
    ensures n < 0 ==> |s| >= 2 && s[0] == '-' && (forall c :: c in s[1..] ==> IsDigit(c)) && DecValue(s[1..]) == -n
                      && Canonical(s[1..])
  {
    DecValueOfNatText(if n < 0 then -n else n);
    if n < 0 then
      assert ("-" + NatText(-n))[1..] == NatText(-n);
      "-" + NatText(-n)
    else NatText(n)
  }
}
