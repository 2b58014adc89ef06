/** Opening an SMTP session to a domain: dialSMTP (one MX host, bounded by a
    timer) and newSMTPClient (the race over every MX host of the domain).

    The goroutines of the race are replaced by an arrival order: the order
    in which the per-host attempts finish. Each arrival runs the rest of its
    goroutine and then lets the collector loop take what it put on the
    channel, so the race becomes a fold over that order. */
module Dial {
  import opened Outcomes

  /** What the network does for one dial attempt to one MX host. */
  datatype DialOracle = DialOracle(
    direct: Outcome,    // net.Dial("tcp", addr)
    proxied: Outcome,   // socks.Dial(proxyURI)("tcp", addr)
    handshake: Outcome, // smtp.NewClient on the new connection
    timerFirst: bool)   // time.After(smtpTimeout) fires before the attempt reports

  /** The connection step the attempt takes: direct, or through the SOCKS
      proxy when one is configured. */
  function Route(proxyURI: string, o: DialOracle): Outcome
  {
    if proxyURI != "" then o.proxied else o.direct
  }

  /** dialSMTP for the host of MX record `mx`: the attempt's own result, or
      the timeout when the timer wins the select. */
  function DialSmtp(proxyURI: string, mx: nat, o: DialOracle): (r: Result<Client>)
    ensures o.timerFirst ==> r == Err(DialTimeout)
    ensures r.Ok? <==> !o.timerFirst && Route(proxyURI, o).Pass? && o.handshake.Pass?
    ensures r.Ok? ==> r.value == Client(mx)
    ensures !o.timerFirst && Route(proxyURI, o).Fail? ==> r == Err(Route(proxyURI, o).error)
    ensures !o.timerFirst && Route(proxyURI, o).Pass? && o.handshake.Fail? ==> r == Err(o.handshake.error)
  {
    if o.timerFirst then Err(DialTimeout)
    else
      var conn := Route(proxyURI, o);
      if conn.Fail? then Err(conn.error)
      else if o.handshake.Fail? then Err(o.handshake.error)
      else Ok(Client(mx))
  }

  /** Without a proxy the SOCKS route is never taken; with one, the direct
      route is never taken. */
  lemma DialUsesOneRoute(proxyURI: string, mx: nat, o: DialOracle, other: Outcome)
    ensures proxyURI == "" ==> DialSmtp(proxyURI, mx, o.(proxied := other)) == DialSmtp(proxyURI, mx, o)
    ensures proxyURI != "" ==> DialSmtp(proxyURI, mx, o.(direct := other)) == DialSmtp(proxyURI, mx, o)
  {
  }

  /** `order` lists every one of the `n` dial goroutines exactly once, in
      the order in which they finish. */
  predicate IsArrivalOrder(order: seq<nat>, n: nat)
  {
    && |order| == n
    && (forall k :: 0 <= k < n ==> order[k] < n)
    && (forall j, k :: 0 <= j < k < n ==> order[j] != order[k])
    && (forall h :: 0 <= h < n ==> h in order)
  }

  /** The dialSMTP results in arrival order. */
  function Arrivals(proxyURI: string, dials: seq<DialOracle>, order: seq<nat>): seq<Result<Client>>
    requires forall k :: 0 <= k < |order| ==> order[k] < |dials|
  {
    seq(|order|, k requires 0 <= k < |order| => DialSmtp(proxyURI, order[k], dials[order[k]]))
  }

  /** Position of the first successful arrival, or |a| when every one failed. */
  function FirstOk(a: seq<Result<Client>>): (k: nat)
    ensures k <= |a|
    ensures forall j :: 0 <= j < k ==> a[j].Err?
    ensures k < |a| ==> a[k].Ok?
  {
    if a == [] then 0
    else if a[0].Ok? then 0
    else 1 + FirstOk(a[1..])
  }

  /** The sessions established by the arrivals, in arrival order. */
  function Successes(a: seq<Result<Client>>): (s: seq<Client>)
    ensures |s| <= |a|
    ensures forall c :: c in s <==> Ok(c) in a
  {
    if a == [] then []
    else
      var last := a[|a| - 1];
      Successes(a[..|a| - 1]) + (if last.Ok? then [last.value] else [])
  }

  /** One more arrival adds its session, if any, at the end. */
  lemma SuccessesStep(a: seq<Result<Client>>, k: nat)
    requires k < |a|
    ensures Successes(a[..k + 1]) == Successes(a[..k]) + (if a[k].Ok? then [a[k].value] else [])
  {
    assert a[..k + 1][..k] == a[..k];
  }

  /** What the collector loop returns for a non-empty arrival sequence: the
      first session received, or, when every attempt failed, the first error
      received. */
  function RaceAnswer(a: seq<Result<Client>>): (r: Result<Client>)
    requires a != []
    ensures r.Ok? <==> exists k :: 0 <= k < |a| && a[k].Ok?
    ensures r.Ok? ==> exists k :: 0 <= k < |a| && a[k] == r && forall j :: 0 <= j < k ==> a[j].Err?
    ensures r.Err? ==> r == a[0] && forall k :: 0 <= k < |a| ==> a[k].Err?
  {
    var k := FirstOk(a);
    if k < |a| then a[k] else a[0]
  }

  /** The result of newSMTPClient: the lookup error, "no MX records found",
      or the answer of the race. */
  function ConnectResult(proxyURI: string, lookup: Result<seq<string>>, dials: seq<DialOracle>, order: seq<nat>)
    : (r: Result<Client>)
    requires lookup.Ok? ==> |dials| == |lookup.value| && IsArrivalOrder(order, |lookup.value|)
    ensures lookup.Err? ==> r == Err(lookup.error)
    ensures lookup == Ok([]) ==> r == Err(NoMxRecords)
    ensures r.Ok? ==> lookup.Ok? && r.value.mx < |lookup.value|
  {
    if lookup.Err? then Err(lookup.error)
    else if lookup.value == [] then Err(NoMxRecords)
    else
      var a := Arrivals(proxyURI, dials, order);
      var r := RaceAnswer(a);
      assert r.Ok? ==> exists k :: 0 <= k < |a| && a[k] == r && r.value == Client(order[k]);
      r
  }

  /** However the attempts are ordered, a host whose dial succeeds makes the
      race succeed, whatever the other hosts do; when it is the only such
      host, its session is the one returned. */
  lemma ReachableHostConnects(proxyURI: string, hosts: seq<string>, dials: seq<DialOracle>, order: seq<nat>, h: nat)
    requires |dials| == |hosts| && IsArrivalOrder(order, |hosts|)
    requires h < |hosts| && DialSmtp(proxyURI, h, dials[h]).Ok?
    ensures ConnectResult(proxyURI, Ok(hosts), dials, order).Ok?
    ensures (forall i :: 0 <= i < |hosts| && i != h ==> DialSmtp(proxyURI, i, dials[i]).Err?) ==>
      ConnectResult(proxyURI, Ok(hosts), dials, order) == Ok(Client(h))
  {
    var a := Arrivals(proxyURI, dials, order);
    assert h in order;
    var k :| 0 <= k < |order| && order[k] == h;
    assert a[k].Ok?;
  }

  /** What a dial goroutine puts on the shared channel. */
  datatype Message = Session(client: Client) | Error(error: Failure)

  /** The state the dial goroutines of one race share with the collector:
      the `done` flag guarded by the mutex, and the channel. */
  class WinnerSlot {
    var done: bool
    var channel: seq<Message>
    /** Sessions closed by goroutines that found a winner already recorded. */
    var closed: seq<Client>
    /** Every session ever put on the channel. */
    ghost var placed: seq<Client>

    /** `done` is set exactly when one session has been placed, and no more
        than one ever is. */
    ghost predicate Valid()
      reads this
    {
      && |placed| <= 1
      && (done <==> placed != [])
      && (!done ==> closed == [])
    }

    constructor ()
      ensures Valid()
      ensures !done && channel == [] && closed == [] && placed == []
    {
      done := false;
      channel := [];
      closed := [];
      placed := [];
    }

    /** The rest of a dial goroutine once dialSMTP returned `outcome`: an
        error is sent while no winner is recorded; a session becomes the
        winner if there is none yet and is closed otherwise. */
    method Report(outcome: Result<Client>)
      requires Valid()
      modifies this
      ensures Valid()
      ensures old(done) ==> done
      ensures outcome.Err? ==>
        && done == old(done) && closed == old(closed) && placed == old(placed)
        && channel == old(channel) + (if old(done) then [] else [Error(outcome.error)])
      ensures outcome.Ok? && !old(done) ==>
        && done && closed == old(closed) && placed == [outcome.value]
        && channel == old(channel) + [Session(outcome.value)]
      ensures outcome.Ok? && old(done) ==>
        && done && closed == old(closed) + [outcome.value] && placed == old(placed)
        && channel == old(channel)
    {
      match outcome
      case Err(e) =>
        if !done {
          channel := channel + [Error(e)];
        }
      case Ok(c) =>
        if !done {
          done := true;
          channel := channel + [Session(c)];
          placed := placed + [c];
        } else {
          closed := closed + [c];
        }
    }

    /** `<-ch` in the collector loop. */
    method Receive() returns (m: Message)
      requires channel != []
      modifies this`channel
      ensures m == old(channel)[0] && channel == old(channel)[1..]
    {
      m := channel[0];
      channel := channel[1..];
    }
  }

  /** The fan-in of newSMTPClient over the dialSMTP results `a`, in the
      order the dial goroutines finish. Besides the collector's answer `r`,
      it reports the sessions the losing goroutines closed, the sessions ever
      placed on the channel, and how many messages the collector took before
      returning. Goroutines that finish after the collector returned still
      run to the end. */
  method Race(a: seq<Result<Client>>)
    returns (r: Result<Client>, closed: seq<Client>, ghost placed: seq<Client>, received: nat)
    requires a != []
    ensures r == RaceAnswer(a)
    ensures |placed| <= 1 && placed + closed == Successes(a)
    ensures r.Ok? ==> placed == [r.value] && received == FirstOk(a) + 1
    ensures r.Err? ==> placed == [] && received == |a|
  {
    var n := |a|;
    var slot := new WinnerSlot();
    var errs: seq<Failure> := [];
    var answer: Option<Result<Client>> := None;
    received := 0;
    var k := 0;
    while k < n
      invariant 0 <= k <= n
      invariant slot.Valid() && slot.channel == []
      invariant slot.placed + slot.closed == Successes(a[..k])
      invariant answer.None? ==>
        && k < n && (forall j :: 0 <= j < k ==> a[j].Err?)
        && !slot.done && |errs| == k == received
        && (k > 0 ==> errs[0] == a[0].error)
      invariant answer.Some? && answer.value.Ok? ==>
        && FirstOk(a) < k && answer.value == a[FirstOk(a)]
        && slot.placed == [answer.value.value] && received == FirstOk(a) + 1
      invariant answer.Some? && answer.value.Err? ==>
        && k == n && (forall j :: 0 <= j < n ==> a[j].Err?)
        && answer.value == a[0] && slot.placed == [] && received == n
    {
      SuccessesStep(a, k);
      ghost var before := slot.placed + slot.closed;
      slot.Report(a[k]);
      assert slot.placed + slot.closed == before + (if a[k].Ok? then [a[k].value] else []);
      if answer.None? && slot.channel != [] {
        var m := slot.Receive();
        received := received + 1;
        match m
        case Session(c) =>
          answer := Some(Ok(c));
        case Error(e) =>
          errs := errs + [e];
          if |errs| == n {
            answer := Some(Err(errs[0]));
          }
      }
      k := k + 1;
    }
    assert a[..n] == a;
    r := answer.value;
    closed := slot.closed;
    placed := slot.placed;
  }

  /** newSMTPClient with the dial goroutines finishing in `order`: the
      lookup error, "no MX records found", or the race over every record. */
  method NewSmtpClient(proxyURI: string, lookup: Result<seq<string>>, dials: seq<DialOracle>, order: seq<nat>)
    returns (r: Result<Client>, closed: seq<Client>, ghost placed: seq<Client>, received: nat)
    requires lookup.Ok? ==> |dials| == |lookup.value| && IsArrivalOrder(order, |lookup.value|)
    ensures r == ConnectResult(proxyURI, lookup, dials, order)
    ensures lookup.Err? || lookup == Ok([]) ==> closed == [] && placed == [] && received == 0
    ensures lookup.Ok? && lookup.value != [] ==>
      var a := Arrivals(proxyURI, dials, order);
      && |placed| <= 1
      && placed + closed == Successes(a)
      && (r.Ok? ==> placed == [r.value] && received == FirstOk(a) + 1)
      && (r.Err? ==> placed == [] && received == |a|)
  {
    if lookup.Err? {
      return Err(lookup.error), [], [], 0;
    }
    if |lookup.value| == 0 {
      return Err(NoMxRecords), [], [], 0;
    }
    r, closed, placed, received := Race(Arrivals(proxyURI, dials, order));
  }
}
