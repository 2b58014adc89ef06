/** The SMTP checks of a Verifier: session setup (GetClient), the catch-all
    probe, the presence probe, and CheckSMTP, which runs them in turn and
    fills the five-flag SMTP record. */
module Verifier {
  import opened Outcomes
  import opened Addresses
  import opened Dial

  /** The settings of a verifier that the SMTP checks read. */
  datatype Config = Config(
    helloName: string,
    fromEmail: string,
    proxyURI: string,
    smtpCheckEnabled: bool)

  /** What the network does for one session of one probe: the MX lookup,
      each MX host's dial attempt, the order in which the dial attempts
      finish, and the server's replies to HELO/EHLO, MAIL and RCPT. */
  datatype Network = Network(
    lookup: Result<seq<string>>,
    dials: seq<DialOracle>,
    order: seq<nat>,
    hello: Outcome,
    mail: Outcome,
    rcpt: string -> Reply)
  {
    /** One dial attempt per MX record, each finishing exactly once. */
    predicate Consistent()
    {
      lookup.Ok? ==> |dials| == |lookup.value| && IsArrivalOrder(order, |lookup.value|)
    }
  }

  /** The value of an SMTP record. */
  datatype Flags = Flags(
    hostExists: bool,
    fullInbox: bool,
    catchAll: bool,
    deliverable: bool,
    disabled: bool)

  const NoFlags := Flags(false, false, false, false, false)

  /** The SMTP record, which the probes update in place. */
  class Smtp {
    var hostExists: bool
    var fullInbox: bool
    var catchAll: bool
    var deliverable: bool
    var disabled: bool

    function Value(): Flags
      reads this
    {
      Flags(hostExists, fullInbox, catchAll, deliverable, disabled)
    }

    /** `var ret SMTP`: every flag starts false. */
    constructor ()
      ensures Value() == NoFlags
    {
      hostExists, fullInbox, catchAll, deliverable, disabled := false, false, false, false, false;
    }
  }

  /** The result of GetClient and the commands it issued. */
  datatype Setup = Setup(client: Result<Client>, trace: seq<Command>)

  /** The three setup steps, in the order GetClient runs them. */
  function SetupSteps(v: Config): seq<Command>
  {
    [Connect, Hello(v.helloName), MailFrom(v.fromEmail)]
  }

  /** GetClient: connect, then HELO/EHLO, then MAIL FROM, stopping at the
      first step that fails and returning its error. */
  function ClientSetup(v: Config, net: Network): (s: Setup)
    requires net.Consistent()
    ensures 1 <= |s.trace| <= 3 && s.trace == SetupSteps(v)[..|s.trace|]
    ensures s.client.Ok? <==> |s.trace| == 3 && ConnectResult(v.proxyURI, net.lookup, net.dials, net.order).Ok? && net.hello.Pass? && net.mail.Pass?
    ensures s.client.Ok? ==> s.client == ConnectResult(v.proxyURI, net.lookup, net.dials, net.order)
    ensures |s.trace| == 1 <==> ConnectResult(v.proxyURI, net.lookup, net.dials, net.order).Err?
    ensures |s.trace| == 1 ==> s.client == ConnectResult(v.proxyURI, net.lookup, net.dials, net.order)
    ensures |s.trace| == 2 <==> ConnectResult(v.proxyURI, net.lookup, net.dials, net.order).Ok? && net.hello.Fail?
    ensures |s.trace| == 2 ==> s.client == Err(net.hello.error)
    ensures |s.trace| == 3 && net.mail.Fail? ==> s.client == Err(net.mail.error)
  {
    var c := ConnectResult(v.proxyURI, net.lookup, net.dials, net.order);
    if c.Err? then Setup(c, [Connect])
    else if net.hello.Fail? then Setup(Err(net.hello.error), [Connect, Hello(v.helloName)])
    else if net.mail.Fail? then Setup(Err(net.mail.error), SetupSteps(v))
    else Setup(c, SetupSteps(v))
  }

  /** GetClient: dials any SMTP server of the domain that accepts a
      connection, then declares the hello name and the sender. */
  method GetClient(v: Config, net: Network) returns (client: Result<Client>, trace: seq<Command>)
    requires net.Consistent()
    ensures Setup(client, trace) == ClientSetup(v, net)
  {
    var closed, received;
    ghost var placed;
    client, closed, placed, received := NewSmtpClient(v.proxyURI, net.lookup, net.dials, net.order);
    trace := [Connect];
    if client.Err? {
      return;
    }
    trace := trace + [Hello(v.helloName)];
    if net.hello.Fail? {
      client := Err(net.hello.error);
      return;
    }
    trace := trace + [MailFrom(v.fromEmail)];
    if net.mail.Fail? {
      client := Err(net.mail.error);
      return;
    }
  }

  /** How the catch-all probe reads the reply to RCPT of a random address,
      once connected: the host exists, catch-all is assumed unless the
      mailbox is reported unavailable, a full inbox or a refusal is
      recorded, and deliverability is left alone. */
  function CatchAllVerdict(f: Flags, reply: Reply): (g: Flags)
    ensures g.hostExists
    ensures g.deliverable == f.deliverable
    ensures g.catchAll <==> reply != Rejected(ServerUnavailable)
    ensures g.fullInbox <==> f.fullInbox || reply == Rejected(FullInbox)
    ensures g.disabled <==> f.disabled || reply == Rejected(NotAllowed)
  {
    var g := f.(catchAll := true, hostExists := true);
    match reply
    case Rejected(FullInbox) => g.(fullInbox := true)
    case Rejected(NotAllowed) => g.(disabled := true)
    case Rejected(ServerUnavailable) => g.(catchAll := false)
    case _ => g
  }

  /** How the presence probe reads the reply to RCPT of the address under
      test, once connected: the host exists, an acceptance makes the
      address deliverable, and no other flag changes. */
  function PresenceVerdict(f: Flags, reply: Reply): (g: Flags)
    ensures g.hostExists
    ensures g.deliverable <==> f.deliverable || reply == Accepted
    ensures g.fullInbox == f.fullInbox && g.catchAll == f.catchAll && g.disabled == f.disabled
  {
    f.(hostExists := true, deliverable := f.deliverable || reply.Accepted?)
  }

  /** The commands a probe issues: the setup steps, then, once connected,
      RCPT of `recipient` and the deferred Close. A session whose setup
      failed is not closed by the probe. */
  function ProbeTrace(s: Setup, recipient: string): seq<Command>
  {
    if s.client.Ok? then s.trace + [RcptTo(recipient), Close] else s.trace
  }

  /** CheckCatchAll: probes RCPT of a random address at `domain` and records
      what the reply says about catch-all, full inbox and blocking. When no
      session can be set up, the setup error is returned and `ret` is left
      as it was. */
  method CheckCatchAll(v: Config, domain: string, alphabet: string, draws: seq<nat>, net: Network, ret: Smtp)
    returns (err: Option<Failure>, trace: seq<Command>)
    requires ValidDraws(alphabet, draws)
    requires net.Consistent()
    modifies ret
    ensures var s := ClientSetup(v, net);
      && (s.client.Err? ==> err == Some(s.client.error) && ret.Value() == old(ret.Value()))
      && (s.client.Ok? ==> err == None && ret.Value() == CatchAllVerdict(old(ret.Value()), net.rcpt(RandomEmail(alphabet, draws, domain))))
      && trace == ProbeTrace(s, RandomEmail(alphabet, draws, domain))
  {
    var randomEmail := GenerateRandomEmail(alphabet, draws, domain);
    var client;
    client, trace := GetClient(v, net);
    if client.Err? {
      return Some(client.error), trace;
    }
    ret.catchAll := true;
    ret.hostExists := true;
    trace := trace + [RcptTo(randomEmail)];
    match net.rcpt(randomEmail) {
      case Rejected(FullInbox) =>
        ret.fullInbox := true;
      case Rejected(NotAllowed) =>
        ret.disabled := true;
      case Rejected(ServerUnavailable) =>
        ret.catchAll := false;
      case _ =>
    }
    trace := trace + [Close];
    err := None;
  }

  /** CheckSMTPPresence: probes RCPT of `username@domain` on a fresh
      session and records whether it was accepted. A rejection is not an
      error. When no session can be set up, the setup error is returned and
      `ret` is left as it was. */
  method CheckSmtpPresence(v: Config, domain: string, username: string, net: Network, ret: Smtp)
    returns (err: Option<Failure>, trace: seq<Command>)
    requires net.Consistent()
    modifies ret
    ensures var s := ClientSetup(v, net);
      && (s.client.Err? ==> err == Some(s.client.error) && ret.Value() == old(ret.Value()))
      && (s.client.Ok? ==> err == None && ret.Value() == PresenceVerdict(old(ret.Value()), net.rcpt(Address(username, domain))))
      && trace == ProbeTrace(s, Address(username, domain))
  {
    var client;
    client, trace := GetClient(v, net);
    if client.Err? {
      return Some(client.error), trace;
    }
    ret.hostExists := true;
    var email := Address(username, domain);
    trace := trace + [RcptTo(email)];
    if net.rcpt(email) == Accepted {
      ret.deliverable := true;
    }
    trace := trace + [Close];
    err := None;
  }

  /** CheckSMTP: nothing when SMTP checks are disabled; otherwise the
      catch-all probe on session `first`, then, only when that probe
      connected, found no catch-all and a username is given, the presence
      probe on session `second`. `sessions` holds the commands of each
      probe that ran. */
  method CheckSmtp(v: Config, domain: string, username: string, alphabet: string, draws: seq<nat>,
                   first: Network, second: Network)
    returns (res: Option<Smtp>, err: Option<Failure>, sessions: seq<seq<Command>>)
    requires ValidDraws(alphabet, draws)
    requires first.Consistent() && second.Consistent()
    ensures !v.smtpCheckEnabled ==> res == None && err == None && sessions == []
    ensures v.smtpCheckEnabled ==> res.Some? && 1 <= |sessions| <= 2
    ensures v.smtpCheckEnabled ==>
      var s1 := ClientSetup(v, first);
      var random := RandomEmail(alphabet, draws, domain);
      && sessions[0] == ProbeTrace(s1, random)
      && (s1.client.Err? ==> res.value.Value() == NoFlags && err == Some(s1.client.error) && |sessions| == 1)
      && (s1.client.Ok? ==>
            var f := CatchAllVerdict(NoFlags, first.rcpt(random));
            if f.catchAll || username == "" then
              res.value.Value() == f && err == None && |sessions| == 1
            else
              var s2 := ClientSetup(v, second);
              var address := Address(username, domain);
              && |sessions| == 2 && sessions[1] == ProbeTrace(s2, address)
              && (s2.client.Err? ==> res.value.Value() == f && err == Some(s2.client.error))
              && (s2.client.Ok? ==> res.value.Value() == PresenceVerdict(f, second.rcpt(address)) && err == None))
    ensures res.Some? && res.value.deliverable ==> !res.value.catchAll && username != ""
    ensures res.Some? ==> fresh(res.value)
  {
    if !v.smtpCheckEnabled {
      return None, None, [];
    }
    var ret := new Smtp();
    var trace;
    err, trace := CheckCatchAll(v, domain, alphabet, draws, first, ret);
    sessions := [trace];
    if err.Some? {
      return Some(ret), err, sessions;
    }
    if ret.catchAll || username == "" {
      return Some(ret), None, sessions;
    }
    err, trace := CheckSmtpPresence(v, domain, username, second, ret);
    sessions := sessions + [trace];
    res := Some(ret);
  }

  /** A catch-all session that connects but whose HELO/EHLO or MAIL FROM is
      refused makes CheckSMTP return the setup error with `HostExists` false,
      although a server of the domain accepted the connection. */
  method RefusedSetupHidesHost(v: Config, domain: string, username: string, alphabet: string, draws: seq<nat>,
                               first: Network, second: Network)
    returns (res: Option<Smtp>, err: Option<Failure>)
    requires ValidDraws(alphabet, draws)
    requires first.Consistent() && second.Consistent()
    requires v.smtpCheckEnabled
    requires ConnectResult(v.proxyURI, first.lookup, first.dials, first.order).Ok?
    requires first.hello.Fail? || first.mail.Fail?
    ensures res.Some? && !res.value.hostExists && res.value.Value() == NoFlags
    ensures first.hello.Fail? ==> err == Some(first.hello.error)
    ensures first.hello.Pass? ==> err == Some(first.mail.error)
  {
    var sessions;
    res, err, sessions := CheckSmtp(v, domain, username, alphabet, draws, first, second);
  }
}
