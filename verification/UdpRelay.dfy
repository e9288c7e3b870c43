/** The SOCKS5 UDP relay: the flow table that pairs clients with the targets they addressed. */
module UdpRelay {
  import opened Wrappers
  import opened Socks
  import opened UdpHeader

  /** `targets` keeps, for every address the client has sent to, the header its replies go back under. */
  datatype Flow = Flow(client: Addr, targets: map<Addr, bytes>, last: int)

  datatype Sent =
    | Forwarded(target: Addr, data: bytes)
    | Returned(client: Addr, data: bytes)

  /** Flows are keyed by the printed form of the client's address. `sent` is what was written to the socket. */
  datatype Relay = Relay(flows: map<Addr, Flow>, bytesIn: nat, bytesOut: nat, lastCleanup: int, sent: seq<Sent>)

  /** `via` is the flow met first, in the map's arbitrary order, among those that know the sender. */
  datatype Event =
    | Datagram(from: Addr, pkt: bytes, gate: bool, resolve: bytes -> Option<bytes>, now: int, via: Addr)
    | Timeout(now: int)

  const FLOW_IDLE := 300
  const CLEANUP_EVERY := 60

  function Start(now: int): Relay {
    Relay(map[], 0, 0, now, [])
  }

  predicate Knows(flows: map<Addr, Flow>, via: Addr, target: Addr) {
    via in flows && target in flows[via].targets
  }

  /** The sender is no client, and some client has addressed it. */
  ghost predicate IsReply(flows: map<Addr, Flow>, sender: Addr) {
    sender !in flows && exists via :: Knows(flows, via, sender)
  }

  /** The socket names real senders, and a reply goes through a flow that knows its sender. */
  ghost predicate Possible(r: Relay, e: Event) {
    e.Datagram? ==>
      && (|e.from.ip| == 4 || |e.from.ip| == 16)
      && (IsReply(r.flows, Canon(e.from)) ==> Knows(r.flows, e.via, Canon(e.from)))
  }

  ghost function Out(r: Relay, e: Event): Option<Sent> {
    if e.Timeout? then None
    else if IsReply(r.flows, Canon(e.from)) then
      if Knows(r.flows, e.via, Canon(e.from)) then
        Some(Returned(r.flows[e.via].client, r.flows[e.via].targets[Canon(e.from)] + e.pkt))
      else None
    else if !e.gate then None
    else match ParseUDPHeader(e.pkt, e.resolve)
      case Some(p) => Some(Forwarded(p.target, e.pkt[p.hdrLen..]))
      case None => None
  }

  function Addressed(flows: map<Addr, Flow>, from: Addr, target: Addr, now: int): map<Addr, Flow> {
    var key := Canon(from);
    var flow := if key in flows then flows[key] else Flow(from, map[], now);
    var targets := if Canon(target) in flow.targets then flow.targets else flow.targets[Canon(target) := PackUDPHeader(target)];
    flows[key := flow.(targets := targets, last := now)]
  }

  function Fresh(flows: map<Addr, Flow>, now: int): map<Addr, Flow> {
    map k | k in flows && now - flows[k].last <= FLOW_IDLE :: flows[k]
  }

  ghost function Step(r: Relay, e: Event): Relay {
    if e.Timeout? then
      if e.now - r.lastCleanup > CLEANUP_EVERY then r.(flows := Fresh(r.flows, e.now), lastCleanup := e.now) else r
    else match Out(r, e)
      case None => r
      case Some(Returned(client, data)) => r.(bytesOut := r.bytesOut + |e.pkt|, sent := r.sent + [Returned(client, data)])
      case Some(Forwarded(target, data)) =>
        r.(flows := Addressed(r.flows, e.from, target, e.now), bytesIn := r.bytesIn + |data|,
           sent := r.sent + [Forwarded(target, data)])
  }

  ghost function Run(r: Relay, es: seq<Event>): Relay {
    if es == [] then r else Step(Run(r, es[..|es| - 1]), es[|es| - 1])
  }

  ghost predicate IsRun(r: Relay, es: seq<Event>) {
    forall k | 0 <= k < |es| :: Possible(Run(r, es[..k]), es[k])
  }

  // ---- What the flow table holds ----

  /** The j-th datagram came from `client`, passed the gate and was forwarded. */
  ghost predicate Heard(r: Relay, es: seq<Event>, j: nat, client: Addr) {
    && j < |es| && es[j].Datagram? && es[j].gate && Canon(es[j].from) == client
    && var out := Out(Run(r, es[..j]), es[j]);
       out.Some? && out.value.Forwarded?
  }

  ghost predicate ForwardedAt(r: Relay, es: seq<Event>, j: nat, client: Addr, target: Addr) {
    Heard(r, es, j, client) && Canon(Out(Run(r, es[..j]), es[j]).value.target) == target
  }

  ghost predicate ForwardedTo(r: Relay, es: seq<Event>, client: Addr, target: Addr) {
    exists j: nat :: ForwardedAt(r, es, j, client, target)
  }

  /** `last` is the time of the client's latest forwarded datagram; replies do not move it. */
  ghost predicate LastHeard(r: Relay, es: seq<Event>, client: Addr, last: int) {
    exists j: nat :: j < |es| && Heard(r, es, j, client) && es[j].now == last && forall k: nat | j < k :: !Heard(r, es, k, client)
  }

  ghost predicate Sound(r: Relay, es: seq<Event>, flows: map<Addr, Flow>) {
    forall c | c in flows ::
      && Canon(flows[c].client) == c
      && LastHeard(r, es, c, flows[c].last)
      && forall t | t in flows[c].targets ::
        flows[c].targets[t] == PackUDPHeader(t) && ForwardedTo(r, es, c, t)
  }

  lemma ForwardedBefore(r: Relay, es: seq<Event>, j: nat, client: Addr, target: Addr)
    requires es != [] && j < |es| - 1
    ensures Heard(r, es, j, client) == Heard(r, es[..|es| - 1], j, client)
    ensures ForwardedAt(r, es, j, client, target) == ForwardedAt(r, es[..|es| - 1], j, client, target)
  {
    assert es[..|es| - 1][..j] == es[..j];
  }

  lemma StaysForwarded(r: Relay, es: seq<Event>, client: Addr, target: Addr)
    requires es != [] && ForwardedTo(r, es[..|es| - 1], client, target)
    ensures ForwardedTo(r, es, client, target)
  {
    var j: nat :| ForwardedAt(r, es[..|es| - 1], j, client, target);
    ForwardedBefore(r, es, j, client, target);
  }

  lemma PastTheEnd(r: Relay, es: seq<Event>, k: nat, client: Addr)
    requires Heard(r, es, k, client)
    ensures k < |es|
  {
  }

  lemma StaysLastHeard(r: Relay, es: seq<Event>, client: Addr, last: int)
    requires es != [] && LastHeard(r, es[..|es| - 1], client, last)
    requires !Heard(r, es, |es| - 1, client)
    ensures LastHeard(r, es, client, last)
  {
    hide Heard, ForwardedAt;
    var before := es[..|es| - 1];
    var j: nat :| j < |before| && Heard(r, before, j, client) && before[j].now == last
      && forall k: nat | j < k :: !Heard(r, before, k, client);
    ForwardedBefore(r, es, j, client, client);
    forall k: nat | j < k ensures !Heard(r, es, k, client) {
      if k < |es| - 1 { ForwardedBefore(r, es, k, client, client); }
      if Heard(r, es, k, client) { PastTheEnd(r, es, k, client); }
    }
  }

  /** In every reachable state each flow belongs to its key, dates from its client's latest forwarded datagram, and holds
      under each target the header of that target, to which the client's datagram was forwarded. */
  lemma {:induction false} TableIsSound(now: int, es: seq<Event>)
    ensures Sound(Start(now), es, Run(Start(now), es).flows)
  {
    if es == [] {
    } else {
      var r, n := Start(now), |es| - 1;
      var was, e := Run(r, es[..n]), es[n];
      TableIsSound(now, es[..n]);
      SoundStep(r, es);
    }
  }

  lemma SoundStep(r: Relay, es: seq<Event>)
    requires es != [] && Sound(r, es[..|es| - 1], Run(r, es[..|es| - 1]).flows)
    ensures Sound(r, es, Run(r, es).flows)
  {
    hide ForwardedTo, LastHeard, PackUDPHeader, ParseUDPHeader, Canon;
    var n := |es| - 1;
    var was, e, flows := Run(r, es[..n]), es[n], Run(r, es).flows;
    var out := Out(was, e);
    forall c | c in flows
      ensures Canon(flows[c].client) == c && LastHeard(r, es, c, flows[c].last)
      ensures forall t | t in flows[c].targets :: flows[c].targets[t] == PackUDPHeader(t) && ForwardedTo(r, es, c, t)
    {
      if out.Some? && out.value.Forwarded? && Canon(e.from) == c {
        var target := out.value.target;
        assert ForwardedAt(r, es, n, c, Canon(target));
        NowHeard(r, es, c, Canon(target));
        PackOfCanon(target);
        forall t | t in flows[c].targets
          ensures flows[c].targets[t] == PackUDPHeader(t) && ForwardedTo(r, es, c, t)
        {
          if t in flows[c].targets && c in was.flows && t in was.flows[c].targets {
            StaysForwarded(r, es, c, t);
          }
        }
      } else {
        assert c in was.flows && flows[c] == was.flows[c];
        StaysLastHeard(r, es, c, flows[c].last);
        forall t | t in flows[c].targets ensures ForwardedTo(r, es, c, t) {
          StaysForwarded(r, es, c, t);
        }
      }
    }
  }

  lemma NowHeard(r: Relay, es: seq<Event>, client: Addr, target: Addr)
    requires es != [] && ForwardedAt(r, es, |es| - 1, client, target)
    ensures ForwardedTo(r, es, client, target) && LastHeard(r, es, client, es[|es| - 1].now)
  {
    assert Heard(r, es, |es| - 1, client) && forall k: nat | |es| - 1 < k :: !Heard(r, es, k, client);
  }

  // ---- What the clients get ----

  /** Every datagram that goes to a client carries a header that names the actual sender, with its payload intact, and
      that client earlier had a datagram of its own forwarded to that sender. */
  lemma RepliesComeFromAddressedTargets(now: int, es: seq<Event>, k: nat, resolve: bytes -> Option<bytes>)
    requires k < |es| && es[k].Datagram?
    ensures var out := Out(Run(Start(now), es[..k]), es[k]);
            IsRun(Start(now), es) && out.Some? && out.value.Returned? ==>
              && ForwardedTo(Start(now), es[..k], Canon(out.value.client), Canon(es[k].from))
              && var parsed := ParseUDPHeader(out.value.data, resolve);
                 && parsed.Some? && parsed.value.target == Canon(es[k].from)
                 && out.value.data[parsed.value.hdrLen..] == es[k].pkt
  {
    hide ParseUDPHeader;
    var out := Out(Run(Start(now), es[..k]), es[k]);
    if IsRun(Start(now), es) && out.Some? && out.value.Returned? {
      TableIsSound(now, es[..k]);
      PackOfCanon(es[k].from);
      ParseOfPack(es[k].from, es[k].pkt, resolve);
    }
  }

  /** Conversely, once a client's datagram went to a target and no read has timed out since, what the target sends goes
      to some client that addressed it, unless the target is itself a client. */
  lemma AddressedTargetsAreAnswered(now: int, es: seq<Event>, j: nat, k: nat, client: Addr)
    requires j < k < |es| && forall i | j < i <= k :: es[i].Datagram?
    ensures var was := Run(Start(now), es[..k]);
            && IsRun(Start(now), es) && ForwardedAt(Start(now), es, j, client, Canon(es[k].from))
            && Canon(es[k].from) !in was.flows
            ==> Out(was, es[k]).Some? && Out(was, es[k]).value.Returned?
  {
    if ForwardedAt(Start(now), es, j, client, Canon(es[k].from)) {
      KnowsUntilTimeout(Start(now), es, j, k, client, Canon(es[k].from));
    }
  }

  lemma {:induction false} KnowsUntilTimeout(r: Relay, es: seq<Event>, j: nat, k: nat, client: Addr, target: Addr)
    requires j < k <= |es| && ForwardedAt(r, es, j, client, target)
    requires forall i | j < i < k :: es[i].Datagram?
    ensures Knows(Run(r, es[..k]).flows, client, target)
  {
    hide Step, Knows;
    assert es[..k][..k - 1] == es[..k - 1];
    if k == j + 1 {
      ForwardedIsKnown(Run(r, es[..j]), es[j], client, target);
    } else {
      KnowsUntilTimeout(r, es, j, k - 1, client, target);
      DatagramsForgetNothing(Run(r, es[..k - 1]), es[k - 1], client, target);
    }
  }

  lemma ForwardedIsKnown(r: Relay, e: Event, client: Addr, target: Addr)
    requires e.Datagram? && Canon(e.from) == client
    requires Out(r, e).Some? && Out(r, e).value.Forwarded? && Canon(Out(r, e).value.target) == target
    ensures Knows(Step(r, e).flows, client, target)
  {
    hide ParseUDPHeader, Canon, PackUDPHeader;
  }

  lemma DatagramsForgetNothing(r: Relay, e: Event, client: Addr, target: Addr)
    requires e.Datagram? && Knows(r.flows, client, target)
    ensures Knows(Step(r, e).flows, client, target)
  {
    hide ParseUDPHeader, Canon, PackUDPHeader;
  }

  /** A flow disappears only when a read times out more than a minute after the last cleanup, and then exactly when its
      client has been idle for more than five minutes. */
  lemma FlowsExpireIffIdle(r: Relay, e: Event, client: Addr)
    requires client in r.flows
    ensures client !in Step(r, e).flows <==>
            e.Timeout? && e.now - r.lastCleanup > CLEANUP_EVERY && e.now - r.flows[client].last > FLOW_IDLE
  {
  }

  // ---- The gate and the counters ----

  ghost predicate GateShut(es: seq<Event>) {
    forall k | 0 <= k < |es| :: es[k].Datagram? ==> !es[k].gate
  }

  /** While the gate is shut nothing goes to a target, and no flow appears, learns a target or is kept alive. */
  lemma {:induction false} ShutGateForwardsNothing(r: Relay, es: seq<Event>)
    requires GateShut(es)
    ensures var after := Run(r, es);
            && after.bytesIn == r.bytesIn && r.sent <= after.sent
            && (forall i | |r.sent| <= i < |after.sent| :: after.sent[i].Returned?)
            && (forall c | c in after.flows :: c in r.flows && after.flows[c] == r.flows[c])
  {
    if es == [] {
    } else {
      ShutGateForwardsNothing(r, es[..|es| - 1]);
    }
  }

  function NoResolver(host: bytes): Option<bytes> {
    None
  }

  function Payload(s: Sent): nat {
    match s
    case Forwarded(_, data) => |data|
    case Returned(_, data) =>
      match ParseUDPHeader(data, NoResolver)
      case Some(p) => |data| - p.hdrLen
      case None => |data|
  }

  function Total(sent: seq<Sent>, forwarded: bool): nat {
    if sent == [] then 0
    else
      var s := sent[|sent| - 1];
      Total(sent[..|sent| - 1], forwarded) + if s.Forwarded? == forwarded then Payload(s) else 0
  }

  /** The counters are the payload sums of what was written to the socket, headers excluded. */
  lemma {:induction false} CountersAreSums(now: int, es: seq<Event>)
    requires IsRun(Start(now), es)
    ensures var r := Run(Start(now), es);
            r.bytesIn == Total(r.sent, true) && r.bytesOut == Total(r.sent, false)
  {
    if es == [] {
    } else {
      var n := |es| - 1;
      forall k | 0 <= k < n ensures Possible(Run(Start(now), es[..n][..k]), es[..n][k]) {
        assert es[..n][..k] == es[..k];
      }
      CountersAreSums(now, es[..n]);
      CountersStep(now, es);
    }
  }

  lemma CountersStep(now: int, es: seq<Event>)
    requires IsRun(Start(now), es) && es != []
    ensures var was, r := Run(Start(now), es[..|es| - 1]), Run(Start(now), es);
            && r.bytesIn == was.bytesIn + Total(r.sent, true) - Total(was.sent, true)
            && r.bytesOut == was.bytesOut + Total(r.sent, false) - Total(was.sent, false)
  {
    hide ParseUDPHeader, PackUDPHeader, Canon, ForwardedTo, IsRun, Addressed, Fresh, Possible;
    var n := |es| - 1;
    var was, r := Run(Start(now), es[..n]), Run(Start(now), es);
    var out := Out(was, es[n]);
    if out.Some? {
      var s := out.value;
      assert r.sent == was.sent + [s] && r.sent[..|was.sent|] == was.sent;
      if s.Returned? {
        RepliesComeFromAddressedTargets(now, es, n, NoResolver);
        assert Payload(s) == |es[n].pkt|;
      }
    } else {
      assert r.sent == was.sent && r.bytesIn == was.bytesIn && r.bytesOut == was.bytesOut;
    }
  }

  /** In every reachable state, a reply is sure to reach a given client exactly when no other flow knows the sender; else it
      goes to whichever flow the map yields first. */
  lemma ReplyIsCertainIffOneFlowKnows(now: int, es: seq<Event>, e: Event, client: Addr)
    requires e.Datagram? && (|e.from.ip| == 4 || |e.from.ip| == 16)
    requires var r := Run(Start(now), es); IsReply(r.flows, Canon(e.from)) && Knows(r.flows, client, Canon(e.from))
    ensures var r := Run(Start(now), es);
            (forall via | Possible(r, e.(via := via)) :: Canon(Out(r, e.(via := via)).value.client) == client)
            <==> (forall via | Knows(r.flows, via, Canon(e.from)) :: via == client)
  {
    hide Canon, PackUDPHeader, ParseUDPHeader, Run;
    var r := Run(Start(now), es);
    var sender := Canon(e.from);
    TableIsSound(now, es);
    if via :| Knows(r.flows, via, sender) && via != client {
      assert Possible(r, e.(via := via));
      assert Out(r, e.(via := via)) == Some(Returned(r.flows[via].client, r.flows[via].targets[sender] + e.pkt));
    }
  }

  /** What `client` sends to have `payload` forwarded to `target`. */
  function Request(client: Addr, target: Addr, payload: bytes, now: int): Event {
    Datagram(client, PackUDPHeader(target) + payload, true, NoResolver, now, client)
  }

  /** A client that is no target of anyone is entered with its target. */
  lemma RequestIsForwarded(r: Relay, client: Addr, target: Addr, payload: bytes, now: int)
    requires |target.ip| == 4 || |target.ip| == 16
    requires !IsReply(r.flows, Canon(client))
    ensures Step(r, Request(client, target, payload, now)).flows == Addressed(r.flows, client, Canon(target), now)
  {
    ParseOfPack(target, payload, NoResolver);
  }

  /** So two clients that address one target may each get what it sends. */
  lemma SharedTargetMayAnswerEither(a: Addr, b: Addr, target: Addr, payload: bytes, answer: Event, now: int)
    requires |target.ip| == 4 || |target.ip| == 16
    requires Canon(a) != Canon(b) && Canon(target) != Canon(a) && Canon(target) != Canon(b)
    requires answer.Datagram? && answer.from == target
    ensures var r := Run(Start(now), [Request(a, target, payload, now), Request(b, target, payload, now)]);
            forall client | client == a || client == b ::
              var e := answer.(via := Canon(client));
              Possible(r, e) && Out(r, e).Some? && Out(r, e).value.Returned? && Out(r, e).value.client == client
  {
    hide ParseUDPHeader, PackUDPHeader, Canon;
    var r0, first, second := Start(now), Request(a, target, payload, now), Request(b, target, payload, now);
    var r1 := Step(r0, first);
    assert forall via, t :: !Knows(r0.flows, via, t);
    RequestIsForwarded(r0, a, target, payload, now);
    assert forall via :: !Knows(r1.flows, via, Canon(b)) by { CanonTwice(target); }
    RequestIsForwarded(r1, b, target, payload, now);
    var r := Step(r1, second);
    var one, both := [first], [first, second];
    assert one[..|one| - 1] == [] && both[..|both| - 1] == one && both[|both| - 1] == second;
    assert Run(r0, []) == r0 && Run(r0, one) == r1;
    assert Run(r0, both) == Step(Run(r0, one), second);
    CanonTwice(target);
    assert Knows(r.flows, Canon(a), Canon(target)) && Knows(r.flows, Canon(b), Canon(target));
  }

  lemma CanonTwice(a: Addr)
    ensures Canon(Canon(a)) == Canon(a)
  {
  }

  /** Through the open gate, a client's datagram to a name sends exactly the payload to exactly the resolved address with the
      datagram's port, counts it, and enters that address in the client's flow; a name that does not resolve changes nothing. */
  lemma NameIsForwarded(r: Relay, e: Event, host: bytes, port: Port, payload: bytes)
    requires e.Datagram? && e.gate && !IsReply(r.flows, Canon(e.from))
    requires 1 <= |host| <= 255 && e.pkt == NameHeader(host, port) + payload
    ensures e.resolve(host).None? ==> Step(r, e) == r
    ensures e.resolve(host).Some? ==>
              var target, r' := Addr(e.resolve(host).value, port), Step(r, e);
              && r'.sent == r.sent + [Forwarded(target, payload)] && r'.bytesIn == r.bytesIn + |payload|
              && Knows(r'.flows, Canon(e.from), Canon(target)) && r'.flows[Canon(e.from)].last == e.now
  {
    hide ParseUDPHeader, Canon, PackUDPHeader;
    ParseOfName(host, port, payload, e.resolve);
  }

  /** The same for an address. */
  lemma AddressIsForwarded(r: Relay, e: Event, rsv: bytes, ip: bytes, port: Port, payload: bytes)
    requires e.Datagram? && e.gate && !IsReply(r.flows, Canon(e.from))
    requires |rsv| == 2 && (|ip| == 4 || |ip| == 16)
    requires e.pkt == rsv + [0, if |ip| == 4 then 1 else 4] + ip + U16(port) + payload
    ensures var r' := Step(r, e);
            && r'.sent == r.sent + [Forwarded(Addr(ip, port), payload)] && r'.bytesIn == r.bytesIn + |payload|
            && Knows(r'.flows, Canon(e.from), Canon(Addr(ip, port))) && r'.flows[Canon(e.from)].last == e.now
  {
    hide ParseUDPHeader, Canon, PackUDPHeader;
    ParseOfAddress(rsv, ip, port, payload, e.resolve);
  }

  // ---- The relay itself ----

  class UdpRelay {
    var flows: map<Addr, Flow>
    var bytesIn: nat
    var bytesOut: nat
    var lastCleanup: int
    var sent: seq<Sent>

    ghost function At(): Relay
      reads this
    {
      Relay(flows, bytesIn, bytesOut, lastCleanup, sent)
    }

    constructor (now: int)
      ensures At() == Start(now)
    {
      flows, bytesIn, bytesOut, lastCleanup, sent := map[], 0, 0, now, [];
    }

    /** The first flow, in an arbitrary order, that knows the sender. */
    method FindFlow(sender: Addr) returns (via: Option<Addr>)
      ensures via.Some? ==> Knows(flows, via.value, sender)
      ensures via.None? ==> forall c :: !Knows(flows, c, sender)
    {
      var rest := flows.Keys;
      while rest != {}
        invariant rest <= flows.Keys
        invariant forall c | c in flows && c !in rest :: !Knows(flows, c, sender)
      {
        var cand :| cand in rest;
        if sender in flows[cand].targets {
          return Some(cand);
        }
        rest := rest - {cand};
      }
      return None;
    }

    method Handle(from: Addr, pkt: bytes, gate: bool, resolve: bytes -> Option<bytes>, now: int) returns (ghost e: Event)
      requires |from.ip| == 4 || |from.ip| == 16
      modifies this
      ensures e.Datagram? && e.from == from && e.pkt == pkt && e.gate == gate && e.resolve == resolve && e.now == now
      ensures Possible(old(At()), e) && At() == Step(old(At()), e)
    {
      hide ParseUDPHeader, PackUDPHeader, Canon;
      var key := Canon(from);
      e := Datagram(from, pkt, gate, resolve, now, from);
      if key !in flows {
        var found := FindFlow(key);
        if found.Some? {
          e := e.(via := found.value);
          var flow := flows[found.value];
          sent := sent + [Returned(flow.client, flow.targets[key] + pkt)];
          bytesOut := bytesOut + |pkt|;
          return;
        }
        if !gate {
          return;
        }
        var parsed := ParseUDPHeader(pkt, resolve);
        if parsed.None? {
          return;
        }
        var target := parsed.value.target;
        flows := flows[key := Flow(from, map[], now)];
        flows := flows[key := flows[key].(targets := flows[key].targets[Canon(target) := PackUDPHeader(target)])];
        Forward(parsed.value, pkt);
        return;
      }
      if !gate {
        return;
      }
      var parsed := ParseUDPHeader(pkt, resolve);
      if parsed.None? {
        return;
      }
      var target := parsed.value.target;
      flows := flows[key := flows[key].(last := now)];
      if Canon(target) !in flows[key].targets {
        flows := flows[key := flows[key].(targets := flows[key].targets[Canon(target) := PackUDPHeader(target)])];
      }
      Forward(parsed.value, pkt);
    }

    method Forward(parsed: Parsed, pkt: bytes)
      requires parsed.hdrLen <= |pkt|
      modifies this`sent, this`bytesIn
      ensures sent == old(sent) + [Forwarded(parsed.target, pkt[parsed.hdrLen..])]
      ensures bytesIn == old(bytesIn) + |pkt| - parsed.hdrLen
    {
      sent := sent + [Forwarded(parsed.target, pkt[parsed.hdrLen..])];
      bytesIn := bytesIn + |pkt| - parsed.hdrLen;
    }

    method ReadTimedOut(now: int)
      modifies this
      ensures At() == Step(old(At()), Timeout(now))
    {
      if now - lastCleanup > CLEANUP_EVERY {
        Expire(now);
        lastCleanup := now;
      }
    }

    method Expire(now: int)
      modifies this`flows
      ensures flows == Fresh(old(flows), now)
    {
      ghost var was := flows;
      var rest := flows.Keys;
      while rest != {}
        invariant rest <= flows.Keys <= was.Keys
        invariant forall c | c in flows :: flows[c] == was[c]
        invariant forall c | c in was && c !in rest :: c in flows <==> now - was[c].last <= FLOW_IDLE
        invariant forall c | c in rest :: c in flows
      {
        var c :| c in rest;
        if now - flows[c].last > FLOW_IDLE {
          flows := flows - {c};
        }
        rest := rest - {c};
      }
    }
  }
}
