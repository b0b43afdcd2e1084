/**
 * The remote provisioner: peers live on another host, managed by one
 * allow-listed executable reached over SSH. The remote side allocates the
 * address; this side checks the public key against the ledger first,
 * records the device with the address the remote returned, and renders the
 * client configuration itself.
 */
module Remote {
  import opened Common
  import opened IPv4
  import opened Storage
  import opened Provisioner

  // ---------------------------------------------------------------------------
  // parseAssignedIP

  /**
   * parseAssignedIP: the remote's assigned_ip, as a bare address. One
   * trailing "/32" is dropped; any other '/' is refused, and so is text that
   * is not an address.
   */
  function ParseAssignedIP(reply: string): (r: Result<string>)
    ensures reply == [] ==> r == Err(BadAssignedIP)
    ensures r.Err? ==> r.error == BadAssignedIP
    ensures r.Ok? ==> '/' !in r.value && ValidIP(r.value)
    ensures r.Ok? ==> reply == r.value || reply == r.value + "/32"
  {
    if reply == [] then Err(BadAssignedIP)
    else
      var ip := TrimSuffix(reply, "/32");
      if '/' in ip then Err(BadAssignedIP)
      else if !ValidIP(ip) then Err(BadAssignedIP)
      else Ok(ip)
  }

  /** Every valid address is accepted, bare or with "/32", and comes back bare. */
  lemma ParseAssignedIPAccepts(t: string)
    requires ValidIP(t)
    ensures ParseAssignedIP(t) == Ok(t)
    ensures ParseAssignedIP(t + "/32") == Ok(t)
  {
    ValidIPChars(t);
    if |t| >= 3 {
      assert t[|t| - 3] in t;
      assert t[|t| - 3..][0] != '/';
    }
    assert HasSuffix(t + "/32", "/32");
    assert (t + "/32")[..|t|] == t;
  }

  /** Applying parseAssignedIP to its own output changes nothing. */
  lemma ParseAssignedIPIdempotent(reply: string)
    requires ParseAssignedIP(reply).Ok?
    ensures ParseAssignedIP(ParseAssignedIP(reply).value) == ParseAssignedIP(reply)
  {
    ParseAssignedIPAccepts(ParseAssignedIP(reply).value);
  }

  /**
   * Only the host mask is accepted: "a/24", and "a/32/32" (one "/32" is
   * stripped, not two), are refused.
   */
  lemma OtherMaskRejected(t: string, m: string)
    requires m != "32"
    ensures ParseAssignedIP(t + "/" + m).Err?
  {
    var s := t + "/" + m;
    assert s[|t|] == '/';
    if |m| >= 3 {
      assert s[|t|] in TrimSuffix(s, "/32");
    } else {
      if |m| == 2 {
        assert s[|s| - 3..] == "/" + m;
        assert ("/" + m)[1..] == m;
      } else if |m| == 1 && |s| >= 3 {
        assert s[|s| - 3..][1] == '/';
      } else if |s| >= 3 {
        assert s[|s| - 3..][2] == '/';
      }
      assert !HasSuffix(s, "/32");
      assert s[|t|] in TrimSuffix(s, "/32");
    }
  }

  // ---------------------------------------------------------------------------
  // createClientConfig: the DNS list and the client address

  /** No leading or trailing white space. */
  predicate Trimmed(t: string) {
    t == [] || (!IsSpace(t[0]) && !IsSpace(t[|t| - 1]))
  }

  /**
   * The DNS list of the client configuration: split on ',' and trimmed
   * when the remote's dns holds a comma, otherwise the text itself,
   * untrimmed.
   */
  function DnsList(dns: string): (r: seq<string>)
    ensures ',' !in dns ==> r == [dns]
    ensures ',' in dns ==> |r| >= 2 && forall k :: 0 <= k < |r| ==> ',' !in r[k] && Trimmed(r[k])
    ensures ',' in dns ==> |r| == |Split(dns, ',')| && forall k :: 0 <= k < |r| ==> r[k] == TrimSpace(Split(dns, ',')[k])
  {
    if ',' in dns then
      var parts := Split(dns, ',');
      seq(|parts|, k requires 0 <= k < |parts| => TrimSpace(parts[k]))
    else [dns]
  }

  /** Servers joined by commas, as the remote writes a list. */
  function JoinComma(parts: seq<string>): string
    requires parts != []
  {
    if |parts| == 1 then parts[0] else parts[0] + [','] + JoinComma(parts[1..])
  }

  lemma {:induction false} SplitJoinComma(parts: seq<string>)
    requires parts != [] && forall k :: 0 <= k < |parts| ==> ',' !in parts[k]
    ensures Split(JoinComma(parts), ',') == parts
    ensures |parts| >= 2 ==> ',' in JoinComma(parts)
  {
    if |parts| > 1 {
      SplitJoinComma(parts[1..]);
      SplitJoin(parts[0], ',', JoinComma(parts[1..]));
      assert JoinComma(parts)[|parts[0]|] == ',';
    }
  }

  lemma TrimSpaceOfTrimmed(t: string)
    requires Trimmed(t)
    ensures TrimSpace(t) == t
  {
  }

  /**
   * Two or more comma-free servers joined by commas, with white space around
   * any of them ("1.1.1.1, 8.8.8.8"), come back one per server with that
   * space cut; servers written without such space come back as they were.
   */
  lemma DnsListOfJoin(parts: seq<string>)
    requires |parts| >= 2 && forall k :: 0 <= k < |parts| ==> ',' !in parts[k]
    ensures var r := DnsList(JoinComma(parts));
            |r| == |parts| && forall k :: 0 <= k < |parts| ==> r[k] == TrimSpace(parts[k])
    ensures (forall k :: 0 <= k < |parts| ==> Trimmed(parts[k])) ==> DnsList(JoinComma(parts)) == parts
  {
    var dns := JoinComma(parts);
    SplitJoinComma(parts);
    assert ',' in dns;
    var r := DnsList(dns);
    assert r == seq(|parts|, k requires 0 <= k < |parts| => TrimSpace(parts[k]));
    if forall k :: 0 <= k < |parts| ==> Trimmed(parts[k]) {
      forall k | 0 <= k < |parts|
        ensures r[k] == parts[k]
      {
        TrimSpaceOfTrimmed(parts[k]);
      }
    }
  }

  /** The client Address: "/32" is appended when the address has no '/'. */
  function ClientAddress(ip: string): (r: string)
    ensures '/' in r
    ensures '/' !in ip ==> r == ip + "/32"
    ensures '/' in ip ==> r == ip
  {
    if '/' in ip then ip else ip + "/32"
  }

  /** The rendered address reads back as the address the remote assigned. */
  lemma ClientAddressRoundTrip(reply: string)
    requires ParseAssignedIP(reply).Ok?
    ensures ParseAssignedIP(ClientAddress(ParseAssignedIP(reply).value)) == ParseAssignedIP(reply)
  {
    ParseAssignedIPAccepts(ParseAssignedIP(reply).value);
  }

  /** For the same address, both backends write the same Address line. */
  lemma ClientAddressMatchesLocal(ip: IP)
    ensures ClientAddress(Format(ip)) == HostNetText(IPNet(ip, HostMask))
  {
    assert '/' !in Format(ip);
  }

  /** A create response in which every required field is non-empty. */
  predicate Complete(j: Json)
    requires j.Object?
  {
    j.assignedIP != "" && j.serverPublicKey != "" && j.endpoint != "" && j.dns != ""
  }

  /** createClientConfig for a response: the server's key, endpoint and DNS, all traffic routed. */
  function RemoteConfig(privateKey: string, assignedIP: string, j: Json): (c: ClientConfig)
    requires j.Object?
    ensures c.address == ClientAddress(assignedIP) && c.privateKey == privateKey
    ensures c.dns == DnsList(j.dns) && c.publicKey == j.serverPublicKey && c.endpoint == j.endpoint
    ensures c.allowedIPs == ["0.0.0.0/0"]
  {
    ClientConfig(ClientAddress(assignedIP), privateKey, DnsList(j.dns), j.serverPublicKey, ["0.0.0.0/0"], j.endpoint)
  }

  // ---------------------------------------------------------------------------
  // the command line (executeSSHCommand)

  /** The one executable the remote side is asked to run. */
  const Program: string := "/usr/local/bin/wg-provision"

  /** An argument that may be sent: no newline, carriage return or NUL. */
  predicate Clean(arg: string) {
    '\n' !in arg && '\r' !in arg && '\0' !in arg
  }

  function HexDigit(d: int): (c: char)
    requires 0 <= d < 16
    ensures IsDigit(c) || 'a' <= c <= 'f'
  {
    if d < 10 then DigitChar(d) else (d - 10 + 'a' as int) as char
  }

  /** strconv.Quote's escape for one character (ASCII rules; other characters are kept). */
  function Escape(c: char): (e: string)
    ensures e != [] && (e[0] == '\\' || e == [c])
  {
    if c == '"' then "\\\""
    else if c == '\\' then "\\\\"
    else if c as int == 7 then "\\a"
    else if c as int == 8 then "\\b"
    else if c as int == 12 then "\\f"
    else if c == '\n' then "\\n"
    else if c == '\r' then "\\r"
    else if c == '\t' then "\\t"
    else if c as int == 11 then "\\v"
    else if c as int < 0x20 || c as int == 0x7f then "\\x" + [HexDigit(c as int / 16), HexDigit(c as int % 16)]
    else [c]
  }

  function QuoteBody(s: string): string {
    if s == [] then [] else Escape(s[0]) + QuoteBody(s[1..])
  }

  /** strconv.Quote: a double-quoted Go string literal; no raw control character survives. */
  function Quote(s: string): (q: string)
    ensures |q| >= 2 && q[0] == '"' && q[|q| - 1] == '"'
    ensures forall c :: c in q ==> 0x20 <= c as int && c as int != 0x7f
  {
    QuoteBodyPrintable(s);
    "\"" + QuoteBody(s) + "\""
  }

  lemma {:induction false} QuoteBodyPrintable(s: string)
    ensures forall c :: c in QuoteBody(s) ==> 0x20 <= c as int && c as int != 0x7f
  {
    if s != [] {
      QuoteBodyPrintable(s[1..]);
    }
  }

  /** The command line: the executable, then " " and the quoted argument, for each argument in order. */
  function Command(args: seq<string>): (cmd: string)
    ensures |Program| <= |cmd| && cmd[..|Program|] == Program
  {
    if args == [] then Program
    else Command(args[..|args| - 1]) + " " + Quote(args[|args| - 1])
  }

  // How a POSIX shell reads the command line, reduced to one question: does
  // some character start a parameter expansion or a command substitution
  // ('$' or '`' outside single quotes and not escaped by a backslash)?

  datatype Mode = Plain | PlainEscape | Double | DoubleEscape | Single

  function Next(m: Mode, c: char): Mode {
    match m
    case Plain => if c == '\\' then PlainEscape else if c == '\'' then Single else if c == '"' then Double else Plain
    case PlainEscape => Plain
    case Double => if c == '\\' then DoubleEscape else if c == '"' then Plain else Double
    case DoubleEscape => Double
    case Single => if c == '\'' then Plain else Single
  }

  predicate Active(m: Mode, c: char) {
    (m == Plain || m == Double) && (c == '$' || c == '`')
  }

  /** The shell's quoting state after reading `s` from state `m`. */
  function After(s: string, m: Mode): Mode {
    if s == [] then m else After(s[1..], Next(m, s[0]))
  }

  /** Whether reading `s` from state `m` meets an active '$' or '`'. */
  predicate Substitutes(s: string, m: Mode) {
    s != [] && (Active(m, s[0]) || Substitutes(s[1..], Next(m, s[0])))
  }

  lemma {:induction false} ScanAppend(x: string, y: string, m: Mode)
    ensures After(x + y, m) == After(y, After(x, m))
    ensures Substitutes(x + y, m) <==> Substitutes(x, m) || Substitutes(y, After(x, m))
  {
    if x == [] {
      assert x + y == y;
    } else {
      assert (x + y)[1..] == x[1..] + y;
      ScanAppend(x[1..], y, Next(m, x[0]));
    }
  }

  /** Inside double quotes, the escaped text stays inside and is live exactly where a '$' or '`' was. */
  lemma {:induction false} QuoteBodyScan(s: string)
    ensures After(QuoteBody(s), Double) == Double
    ensures Substitutes(QuoteBody(s), Double) <==> '$' in s || '`' in s
  {
    if s != [] {
      var e := Escape(s[0]);
      QuoteBodyScan(s[1..]);
      ScanAppend(e, QuoteBody(s[1..]), Double);
      EscapeScan(s[0]);
      assert s == [s[0]] + s[1..];
    }
  }

  lemma EscapeScan(c: char)
    ensures After(Escape(c), Double) == Double
    ensures Substitutes(Escape(c), Double) <==> c == '$' || c == '`'
  {
    var e := Escape(c);
    if e[0] == '\\' {
      assert |e| >= 2 && c != '$' && c != '`';
      assert e[1..][1..] == e[2..];
      DoubleOrdinary(e[2..]);
    }
  }

  /** Text without '\\', '"', '$' or '`' read inside double quotes: nothing happens. */
  lemma {:induction false} DoubleOrdinary(s: string)
    requires forall c :: c in s ==> c != '\\' && c != '"' && c != '$' && c != '`'
    ensures After(s, Double) == Double && !Substitutes(s, Double)
  {
    if s != [] {
      assert s[0] in s;
      assert forall c :: c in s[1..] ==> c in s;
      DoubleOrdinary(s[1..]);
    }
  }

  /** The executable's path holds no quote, backslash, '$' or '`'. */
  lemma ProgramScan()
    ensures After(Program, Plain) == Plain && !Substitutes(Program, Plain)
  {
    OrdinaryScan(Program);
  }

  lemma {:induction false} OrdinaryScan(s: string)
    requires forall c :: c in s ==> c != '\\' && c != '\'' && c != '"' && c != '$' && c != '`'
    ensures After(s, Plain) == Plain && !Substitutes(s, Plain)
  {
    if s != [] {
      assert s[0] in s;
      assert forall c :: c in s[1..] ==> c in s;
      OrdinaryScan(s[1..]);
    }
  }

  /** An argument strconv.Quote leaves open to the shell: it holds '$' or '`'. */
  predicate HasSpecial(a: string) {
    '$' in a || '`' in a
  }

  /** One quoted argument read from outside quotes: it closes its quotes, and is live iff it has a '$' or '`'. */
  lemma QuoteScan(a: string)
    ensures After(Quote(a), Plain) == Plain
    ensures Substitutes(Quote(a), Plain) <==> HasSpecial(a)
  {
    QuoteBodyScan(a);
    ScanAppend("\"" + QuoteBody(a), "\"", Plain);
    ScanAppend("\"", QuoteBody(a), Plain);
  }

  /**
   * The command line as the remote shell reads it: every quoted argument
   * closes its quotes, and a substitution happens exactly when some
   * argument holds '$' or '`', which strconv.Quote leaves as they are.
   */
  lemma {:induction false} CommandScan(args: seq<string>)
    ensures After(Command(args), Plain) == Plain
    ensures Substitutes(Command(args), Plain) <==> exists a :: a in args && HasSpecial(a)
  {
    if args == [] {
      ProgramScan();
    } else {
      var init, last := args[..|args| - 1], args[|args| - 1];
      CommandScan(init);
      QuoteScan(last);
      ScanAppend(Command(init) + " ", Quote(last), Plain);
      ScanAppend(Command(init), " ", Plain);
      assert args == init + [last];
      assert (exists a :: a in args && HasSpecial(a)) <==> (exists a :: a in init && HasSpecial(a)) || HasSpecial(last);
    }
  }

  /** A device name such as "$(reboot)" reaches the remote shell as a command substitution. */
  lemma DeviceNameSubstitutes(userId: int, subscriptionId: int, key: string)
    ensures Substitutes(Command(CreateArgs(userId, subscriptionId, "$(reboot)", key)), Plain)
  {
    var args := CreateArgs(userId, subscriptionId, "$(reboot)", key);
    assert "$(reboot)"[0] == '$';
    assert args[6] in args && HasSpecial(args[6]);
    CommandScan(args);
  }

  /** wg-provision create's arguments. */
  function CreateArgs(userId: int, subscriptionId: int, name: string, key: string): (args: seq<string>)
    ensures |args| == 9 && args[0] == "create"
    ensures args[5] == "--device-name" && args[6] == name && args[7] == "--public-key" && args[8] == key
    ensures args[1] == "--user-id" && args[2] == IntText(userId)
    ensures args[3] == "--subscription-id" && args[4] == IntText(subscriptionId)
  {
    ["create", "--user-id", IntText(userId), "--subscription-id", IntText(subscriptionId),
     "--device-name", name, "--public-key", key]
  }

  // ---------------------------------------------------------------------------
  // the remote side

  /** What json.Unmarshal leaves: not JSON at all, or the fields (missing ones empty, ok false). */
  datatype Json =
    | NotJson
    | Object(assignedIP: string, serverPublicKey: string, endpoint: string, dns: string, ok: bool)

  /** The remote command exits with an error, or prints its output. */
  datatype Reply = CommandFailed | Output(json: Json)

  /** The external steps of a remote operation; a step in `faults` fails. */
  datatype Step =
    | KeyLookup     // GetDeviceByPeerPublicKey
    | Keepalive     // the keepalive request on a cached connection
    | KeyRead       // reading the SSH private key file
    | KeyParse      // parsing it
    | Dial          // ssh.Dial
    | Session       // client.NewSession
    | Insert        // CreateDevice
    | ConfigRender  // rendering the client configuration
    | ClientClose   // closing the SSH connection

  /** The cached SSH connection: none, open, or closed by Close but still held. */
  datatype Client = NoClient | Open | Closed

  /** The cached connection answers its keepalive and is used as it is. */
  predicate Reusable(c: Client, faults: set<Step>) {
    c == Open && Keepalive !in faults
  }

  /** No usable connection, and a new one is dialled successfully. */
  predicate Dialled(c: Client, faults: set<Step>) {
    !Reusable(c, faults) && KeyRead !in faults && KeyParse !in faults && Dial !in faults
  }

  predicate Connects(c: Client, faults: set<Step>) {
    Reusable(c, faults) || Dialled(c, faults)
  }

  /** The wg-provision command is run: a connection, clean arguments, a session. */
  predicate Reaches(c: Client, args: seq<string>, faults: set<Step>) {
    Connects(c, faults) && (forall a :: a in args ==> Clean(a)) && Session !in faults
  }

  /**
   * The ledger step after a create command: the response must be JSON with
   * every field present and an acceptable address, and the device row is
   * inserted with the bare address. On success, the address, the response
   * and the new devices table.
   */
  function Persist(devices: seq<Device>, reply: Result<Json>, userId: int, subscriptionId: int, name: string,
                   key: string, now: int, faults: set<Step>): (r: Result<(string, Json, seq<Device>)>)
    requires DevicesValid(devices)
    ensures reply.Err? ==> r == Err(reply.error)
    ensures reply == Ok(NotJson) ==> r == Err(MalformedResponse)
    ensures reply.Ok? && reply.value.Object? && !Complete(reply.value) ==> r == Err(MissingFields)
    ensures r.Ok? <==> && reply.Ok? && reply.value.Object? && Complete(reply.value)
                       && ParseAssignedIP(reply.value.assignedIP).Ok?
                       && Insert !in faults && DeviceByPeerPublicKey(devices, key).None?
    ensures r.Ok? ==> && reply == Ok(r.value.1)
                      && ParseAssignedIP(r.value.1.assignedIP) == Ok(r.value.0)
                      && '/' !in r.value.0 && ValidIP(r.value.0)
                      && r.value.2 == devices + [Device(|devices| + 1, userId, subscriptionId, name, key, r.value.0, now, None)]
                      && DevicesValid(r.value.2)
  {
    if reply.Err? then Err(reply.error)
    else
      var j := reply.value;
      if j.NotJson? then Err(MalformedResponse)
      else if !Complete(j) then Err(MissingFields)
      else
        var ip := ParseAssignedIP(j.assignedIP);
        if ip.Err? then Err(ip.error)
        else if Insert in faults then Err(StoreFailure)
        else
          var ins := InsertDevice(devices, userId, subscriptionId, name, key, ip.value, now);
          if ins.Err? then Err(ins.error) else Ok((ip.value, j, ins.value))
  }

  /** RevokeDevice's verdict on the revoke command's outcome: only {"ok": true} is success. */
  function Acknowledged(reply: Result<Json>): (r: Outcome)
    ensures r == Pass <==> reply.Ok? && reply.value.Object? && reply.value.ok
    ensures reply.Err? ==> r == Fail(reply.error)
  {
    if reply.Err? then Fail(reply.error)
    else if reply.value.NotJson? then Fail(MalformedResponse)
    else if !reply.value.ok then Fail(RemoteRejected)
    else Pass
  }

  class RemoteProvisioner {
    const repo: Repository
    /** The remote host's wg-provision, as a function of the command line it receives. */
    const host: string -> Reply
    /** wgtypes.ParseKey followed by Key.String: the canonical key text, or None. */
    const parseKey: string -> Option<string>
    var client: Client
    /** How many SSH connections have been dialled. */
    var dials: nat
    /** The command lines run on the remote host, in order. */
    var commandLog: seq<string>

    ghost predicate Valid()
      reads this, repo
    {
      repo.Valid()
    }

    constructor (repo: Repository, host: string -> Reply, parseKey: string -> Option<string>)
      requires repo.Valid()
      ensures Valid() && this.repo == repo && this.host == host && this.parseKey == parseKey
      ensures client == NoClient && dials == 0 && commandLog == []
    {
      this.repo := repo;
      this.host := host;
      this.parseKey := parseKey;
      client := NoClient;
      dials := 0;
      commandLog := [];
    }

    /** What one command exchange yields, from the connection state before it. */
    function Exchange(c: Client, args: seq<string>, faults: set<Step>): (r: Result<Json>)
      ensures !Connects(c, faults) ==> r == Err(RemoteFailure)
      ensures Connects(c, faults) && (exists a :: a in args && !Clean(a)) ==> r == Err(ControlCharacter)
      ensures r.Ok? ==> Reaches(c, args, faults) && host(Command(args)) == Output(r.value)
    {
      if !Connects(c, faults) then Err(RemoteFailure)
      else if exists a :: a in args && !Clean(a) then Err(ControlCharacter)
      else if Session in faults then Err(RemoteFailure)
      else match host(Command(args))
        case CommandFailed => Err(RemoteFailure)
        case Output(j) => Ok(j)
    }

    /**
     * getSSHClient: a cached connection that answers its keepalive is kept;
     * otherwise it is dropped and a new one is dialled.
     */
    method GetSSHClient(faults: set<Step>) returns (r: Outcome)
      modifies this`client, this`dials
      ensures r == Pass <==> Connects(old(client), faults)
      ensures r.Fail? ==> r.error == RemoteFailure
      ensures client == (if r == Pass then Open else NoClient)
      ensures dials == old(dials) + (if Dialled(old(client), faults) then 1 else 0)
    {
      if client != NoClient {
        if client == Open && Keepalive !in faults {
          return Pass;
        }
        client := NoClient;
      }
      if KeyRead in faults || KeyParse in faults || Dial in faults {
        return Fail(RemoteFailure);
      }
      client := Open;
      dials := dials + 1;
      r := Pass;
    }

    /** The sanitising loop: whether some argument holds '\n', '\r' or NUL. */
    method HasControlCharacter(args: seq<string>) returns (found: bool)
      ensures found <==> exists a :: a in args && !Clean(a)
    {
      var i := 0;
      while i < |args|
        invariant 0 <= i <= |args|
        invariant forall k :: 0 <= k < i ==> Clean(args[k])
      {
        if '\n' in args[i] || '\r' in args[i] || '\0' in args[i] {
          return true;
        }
        i := i + 1;
      }
      found := false;
    }

    /** The building loop: the executable followed by each quoted argument. */
    method BuildCommand(args: seq<string>) returns (cmd: string)
      ensures cmd == Command(args)
    {
      cmd := Program;
      var i := 0;
      while i < |args|
        invariant 0 <= i <= |args|
        invariant cmd == Command(args[..i])
      {
        assert args[..i + 1][..i] == args[..i];
        cmd := cmd + " " + Quote(args[i]);
        i := i + 1;
      }
      assert args[..i] == args;
    }

    /**
     * executeSSHCommand: connect, refuse control characters, build the
     * command line and run it. A command is sent only when every step before
     * it succeeds.
     */
    method ExecuteSSHCommand(args: seq<string>, faults: set<Step>) returns (r: Result<Json>)
      modifies this`client, this`dials, this`commandLog
      ensures r == Exchange(old(client), args, faults)
      ensures commandLog == old(commandLog) + (if Reaches(old(client), args, faults) then [Command(args)] else [])
      ensures client == (if Connects(old(client), faults) then Open else NoClient)
      ensures dials == old(dials) + (if Dialled(old(client), faults) then 1 else 0)
    {
      var connected := GetSSHClient(faults);
      if connected.Fail? {
        return Err(RemoteFailure);
      }
      var bad := HasControlCharacter(args);
      if bad {
        return Err(ControlCharacter);
      }
      var cmd := BuildCommand(args);
      if Session in faults {
        return Err(RemoteFailure);
      }
      commandLog := commandLog + [cmd];
      var reply := host(cmd);
      match reply
      case CommandFailed => r := Err(RemoteFailure);
      case Output(j) => r := Ok(j);
    }

    /**
     * CreateDeviceWithNewKeys: `keys` is the generated key pair (None: the
     * generator failed). The ledger is asked about the public key before
     * anything is sent; the device row is written only after a complete
     * response with an acceptable address.
     */
    method CreateDeviceWithNewKeys(keys: Option<KeyPair>, userId: int, subscriptionId: int, name: string,
                                   now: int, faults: set<Step>) returns (r: Result<ConfigResult>)
      requires Valid()
      modifies repo`devices, this`client, this`dials, this`commandLog
      ensures Valid()
      ensures keys.None? ==>
                && r == Err(RandomFailure) && repo.devices == old(repo.devices)
                && commandLog == old(commandLog) && client == old(client) && dials == old(dials)
      ensures keys.Some?
              && (KeyLookup in faults || DeviceByPeerPublicKey(old(repo.devices), keys.value.publicKey).Some?) ==>
                && r == Err(if KeyLookup in faults then StoreFailure else Conflict)
                && repo.devices == old(repo.devices) && commandLog == old(commandLog) && client == old(client)
                && dials == old(dials)
      ensures keys.Some? && KeyLookup !in faults
              && DeviceByPeerPublicKey(old(repo.devices), keys.value.publicKey).None? ==>
                var key := keys.value.publicKey;
                var args := CreateArgs(userId, subscriptionId, name, key);
                var t := Persist(old(repo.devices), Exchange(old(client), args, faults), userId, subscriptionId,
                                 name, key, now, faults);
                && commandLog == old(commandLog) + (if Reaches(old(client), args, faults) then [Command(args)] else [])
                && client == (if Connects(old(client), faults) then Open else NoClient)
                && dials == old(dials) + (if Dialled(old(client), faults) then 1 else 0)
                && (t.Err? ==> r == Err(t.error) && repo.devices == old(repo.devices))
                && (t.Ok? ==> && repo.devices == t.value.2
                              && r == (if ConfigRender in faults then Err(ConfigFailure)
                                       else Ok(ConfigResult(RemoteConfig(keys.value.privateKey, t.value.0, t.value.1),
                                                            key, t.value.0))))
    {
      if keys.None? {
        return Err(RandomFailure);
      }
      var key := keys.value.publicKey;
      if KeyLookup in faults {
        return Err(StoreFailure);
      }
      if DeviceByPeerPublicKey(repo.devices, key).Some? {
        return Err(Conflict);
      }
      var args := CreateArgs(userId, subscriptionId, name, key);
      var out := ExecuteSSHCommand(args, faults);
      var t := Persist(repo.devices, out, userId, subscriptionId, name, key, now, faults);
      if t.Err? {
        return Err(t.error);
      }
      var id := repo.CreateDevice(userId, subscriptionId, name, key, t.value.0, now);
      if ConfigRender in faults {
        return Err(ConfigFailure);
      }
      r := Ok(ConfigResult(RemoteConfig(keys.value.privateKey, t.value.0, t.value.1), key, t.value.0));
    }

    /**
     * CreateDeviceWithPublicKey: the client's key must parse before the
     * ledger is asked; the configuration carries no private key and the
     * result no public key.
     */
    method CreateDeviceWithPublicKey(publicKey: string, userId: int, subscriptionId: int, name: string,
                                     now: int, faults: set<Step>) returns (r: Result<ConfigResult>)
      requires Valid()
      modifies repo`devices, this`client, this`dials, this`commandLog
      ensures Valid()
      ensures parseKey(publicKey).None? ==>
                && r == Err(BadPublicKey) && repo.devices == old(repo.devices)
                && commandLog == old(commandLog) && client == old(client) && dials == old(dials)
      ensures parseKey(publicKey).Some?
              && (KeyLookup in faults || DeviceByPeerPublicKey(old(repo.devices), parseKey(publicKey).value).Some?) ==>
                && r == Err(if KeyLookup in faults then StoreFailure else Conflict)
                && repo.devices == old(repo.devices) && commandLog == old(commandLog) && client == old(client)
                && dials == old(dials)
      ensures parseKey(publicKey).Some? && KeyLookup !in faults
              && DeviceByPeerPublicKey(old(repo.devices), parseKey(publicKey).value).None? ==>
                var key := parseKey(publicKey).value;
                var args := CreateArgs(userId, subscriptionId, name, key);
                var t := Persist(old(repo.devices), Exchange(old(client), args, faults), userId, subscriptionId,
                                 name, key, now, faults);
                && commandLog == old(commandLog) + (if Reaches(old(client), args, faults) then [Command(args)] else [])
                && client == (if Connects(old(client), faults) then Open else NoClient)
                && dials == old(dials) + (if Dialled(old(client), faults) then 1 else 0)
                && (t.Err? ==> r == Err(t.error) && repo.devices == old(repo.devices))
                && (t.Ok? ==> && repo.devices == t.value.2
                              && r == (if ConfigRender in faults then Err(ConfigFailure)
                                       else Ok(ConfigResult(RemoteConfig("", t.value.0, t.value.1), "", t.value.0))))
    {
      var parsed := parseKey(publicKey);
      if parsed.None? {
        return Err(BadPublicKey);
      }
      var key := parsed.value;
      if KeyLookup in faults {
        return Err(StoreFailure);
      }
      if DeviceByPeerPublicKey(repo.devices, key).Some? {
        return Err(Conflict);
      }
      var args := CreateArgs(userId, subscriptionId, name, key);
      var out := ExecuteSSHCommand(args, faults);
      var t := Persist(repo.devices, out, userId, subscriptionId, name, key, now, faults);
      if t.Err? {
        return Err(t.error);
      }
      var id := repo.CreateDevice(userId, subscriptionId, name, key, t.value.0, now);
      if ConfigRender in faults {
        return Err(ConfigFailure);
      }
      r := Ok(ConfigResult(RemoteConfig("", t.value.0, t.value.1), "", t.value.0));
    }

    /**
     * RevokeDevice: looks the address up in the ledger by public key (revoked
     * rows included), sends revoke for it, and requires {"ok": true}. The
     * ledger is never changed.
     */
    method RevokeDevice(peerPublicKey: string, faults: set<Step>) returns (r: Outcome)
      requires Valid()
      modifies this`client, this`dials, this`commandLog
      ensures Valid() && repo.devices == old(repo.devices)
      ensures var d := DeviceByPeerPublicKey(repo.devices, peerPublicKey);
              var untouched := commandLog == old(commandLog) && client == old(client) && dials == old(dials);
              && (KeyLookup in faults ==> r == Fail(StoreFailure) && untouched)
              && (KeyLookup !in faults && d.None? ==> r == Fail(NotFound) && untouched)
              && (KeyLookup !in faults && d.Some? && d.value.assignedIP == "" ==> r == Fail(NoAssignedIP) && untouched)
              && (KeyLookup !in faults && d.Some? && d.value.assignedIP != "" ==>
                    var args := ["revoke", "--assigned-ip", d.value.assignedIP];
                    && r == Acknowledged(Exchange(old(client), args, faults))
                    && client == (if Connects(old(client), faults) then Open else NoClient)
                    && dials == old(dials) + (if Dialled(old(client), faults) then 1 else 0)
                    && commandLog == old(commandLog) + (if Reaches(old(client), args, faults) then [Command(args)]
                                                        else []))
    {
      if KeyLookup in faults {
        return Fail(StoreFailure);
      }
      var d := DeviceByPeerPublicKey(repo.devices, peerPublicKey);
      if d.None? {
        return Fail(NotFound);
      }
      if d.value.assignedIP == "" {
        return Fail(NoAssignedIP);
      }
      var out := ExecuteSSHCommand(["revoke", "--assigned-ip", d.value.assignedIP], faults);
      r := Acknowledged(out);
    }

    /** Close: closes a held connection; the closed client stays cached until the next keepalive fails. */
    method Close(faults: set<Step>) returns (r: Outcome)
      modifies this`client
      ensures client == (if old(client) == NoClient then NoClient else Closed)
      ensures r == (if old(client) != NoClient && ClientClose in faults then Fail(RemoteFailure) else Pass)
    {
      if client == NoClient {
        return Pass;
      }
      client := Closed;
      r := if ClientClose in faults then Fail(RemoteFailure) else Pass;
    }
  }
}
