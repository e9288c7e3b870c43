/** What one application of an uplink configuration does to the container: routes, resolv.conf, the engine and the
    UDP probe, as functions on values. */
module UplinkDriver {
  import opened Wrappers
  import opened Config
  import opened AgentState

  // ---------- the route table ----------

  /** A route is keyed by destination and metric; `ip route replace` overwrites the entry with its key. */
  datatype Dest = Default(metric: nat) | Host(ip: string) | Net(prefix: string)

  datatype Hop = Hop(via: string, dev: string)

  type Table = map<Dest, Hop>

  const ETH := "eth0"
  const TUN_IFACE := "xup0"
  const TUN_PEER := "172.29.0.2"
  const FALLBACK_METRIC := 1000

  function Get(t: Table, d: Dest): Option<Hop> {
    if d in t then Some(t[d]) else None
  }

  /** `ip route del`: only the route that matches. */
  function Del(t: Table, d: Dest, hop: Hop): Table {
    if Get(t, d) == Some(hop) then t - {d} else t
  }

  /** The first default route on eth0, or failing that the first default route. */
  function DetectGateway(t: Table): Option<string> {
    var main, fallback := Get(t, Default(0)), Get(t, Default(FALLBACK_METRIC));
    if main.Some? && main.value.dev == ETH then Some(main.value.via)
    else if fallback.Some? && fallback.value.dev == ETH then Some(fallback.value.via)
    else if main.Some? then Some(main.value.via)
    else if fallback.Some? then Some(fallback.value.via)
    else None
  }

  /** The three commands of applyRoutes, of which the first `done` succeed. */
  function ApplyRoutes(t: Table, ip: string, gw: string, done: nat): Table {
    var t1 := if done > 0 then t[Host(ip) := Hop(gw, ETH)] else t;
    var t2 := if done > 1 then t1[Default(FALLBACK_METRIC) := Hop(gw, ETH)] else t1;
    if done > 2 then t2[Default(0) := Hop(TUN_PEER, TUN_IFACE)] else t2
  }

  function RestoreHostRoutes(t: Table, proxyIP: string, gw: string): Table {
    var t1 := Del(t[Default(0) := Hop(gw, ETH)], Default(FALLBACK_METRIC), Hop(gw, ETH));
    if proxyIP != "" then Del(t1, Host(proxyIP), Hop(gw, ETH)) else t1
  }

  /** The kernel drops an interface's routes with the interface. */
  function WithoutTun(t: Table): Table {
    map d | d in t && t[d].dev != TUN_IFACE :: t[d]
  }

  // ---------- the driver ----------

  const REDIRECTED_RESOLV := "nameserver 172.29.0.2"

  /** The manager's fields and the part of the container it changes. `probeRun` identifies the probe of the latest Apply;
      `engine` is whether sing-box runs. */
  datatype Driver = Driver(applied: Option<Uplink>, probeRun: Option<nat>, nextProbe: nat, proxyIP: string, gw: string,
                           savedResolv: Option<string>, engine: bool, table: Table, resolv: string)

  /** How the outside answers one Apply: the proxy's resolved address, how far the steps get, the health check of the
      already applied case. */
  datatype Answer = Answer(ip: Option<string>, proxyRouteOk: bool, tcpOk: bool, configOk: bool, engineOk: bool,
                           routesDone: nat, resolvOk: bool)

  /** `udp` is what the published snapshot's udpSupported becomes during the call; `up` and `ok` are what it returns. */
  datatype Applied = Applied(d: Driver, udp: Tri, up: UplinkState, ok: bool)

  predicate IsSocks5(u: Option<Uplink>) {
    u.Some? && u.value.mode == "socks5"
  }

  predicate ProbesUdp(u: Uplink) {
    u.mode == "socks5" && u.socks5.udp != "on" && u.socks5.udp != "off"
  }

  function Teardown(d: Driver): Driver {
    var t := if d.engine then WithoutTun(d.table) else d.table;
    d.(engine := false,
       resolv := if d.savedResolv.Some? then d.savedResolv.value else d.resolv,
       savedResolv := None,
       table := if d.gw != "" then RestoreHostRoutes(t, d.proxyIP, d.gw) else t,
       proxyIP := "", applied := None, probeRun := None)
  }

  function Down(cfg: Uplink, reason: string): UplinkState {
    UplinkState(cfg.mode, UplinkDown, TriUnknown, reason)
  }

  function Apply(d: Driver, udp: Tri, cfg: Uplink, a: Answer): Applied {
    if cfg.mode == "host" then
      var d1 := if IsSocks5(d.applied) then Teardown(d) else d;
      Applied(d1.(applied := Some(cfg), probeRun := None), udp, UplinkState("host", UplinkUp, TriTrue, ""), true)
    else if cfg.mode == "socks5" then
      if d.applied == Some(cfg) && d.engine then
        Applied(d, udp, UplinkState("socks5", if a.tcpOk then UplinkUp else UplinkDown, udp, if a.tcpOk then "" else "proxy_unreachable"), true)
      else
        ApplySocks5(if IsSocks5(d.applied) then Teardown(d) else d, udp, cfg, a)
    else Applied(d, udp, UplinkState(cfg.mode, UplinkUnknown, TriUnknown, ""), false)
  }

  /** The socks5 case with the previous proxy, if any, torn down. */
  function ApplySocks5(d: Driver, udp: Tri, cfg: Uplink, a: Answer): Applied {
    var gw := DetectGateway(d.table);
    if a.ip.None? then Applied(d, udp, Down(cfg, "proxy_unreachable"), false)
    else if gw.None? then Applied(d, udp, Down(cfg, "no_gateway"), false)
    else
      var d1 := d.(proxyIP := a.ip.value, gw := gw.value);
      if !a.proxyRouteOk then Applied(d1, udp, Down(cfg, "routes_failed"), false)
      else
        var d2 := d1.(table := d1.table[Host(a.ip.value) := Hop(gw.value, ETH)]);
        if !a.tcpOk then Applied(d2, udp, Down(cfg, "proxy_unreachable"), false)
        else if !a.configOk then Applied(d2, udp, Down(cfg, "config_failed"), false)
        else if !a.engineOk then Applied(d2.(engine := false), udp, Down(cfg, "engine_failed"), false)
        else Divert(d2.(engine := true), udp, cfg, a.ip.value, a)
  }

  /** With the engine running: the routes, the resolver and the UDP verdict. */
  function Divert(d: Driver, udp: Tri, cfg: Uplink, ip: string, a: Answer): Applied {
    var d1 := d.(table := ApplyRoutes(d.table, ip, d.gw, a.routesDone));
    if a.routesDone < 3 then Applied(Teardown(d1), udp, Down(cfg, "routes_failed"), false)
    else
      var d2 := if a.resolvOk
        then d1.(resolv := REDIRECTED_RESOLV, savedResolv := if d1.savedResolv.None? then Some(d1.resolv) else d1.savedResolv)
        else d1;
      StartUdp(d2.(applied := Some(cfg)), udp, cfg)
  }

  function StartUdp(d: Driver, udp: Tri, cfg: Uplink): Applied {
    var up := UplinkState("socks5", UplinkUp, TriUnknown, "");
    if cfg.socks5.udp == "on" then Applied(d, udp, up.(udp := TriTrue), true)
    else if cfg.socks5.udp == "off" then Applied(d, udp, up.(udp := TriFalse), true)
    else Applied(d.(probeRun := Some(d.nextProbe), nextProbe := d.nextProbe + 1), TriUnknown, up, true)
  }

  /** What WaitUDP returns when it does not time out; a probe still running gives unknown. */
  function AwaitedUdp(d: Driver, udp: Tri, probeDone: bool): Tri {
    if d.applied.None? then TriUnknown
    else if d.applied.value.mode == "host" || d.applied.value.socks5.udp == "on" then TriTrue
    else if d.applied.value.socks5.udp == "off" then TriFalse
    else if d.probeRun.None? || probeDone then udp
    else TriUnknown
  }

  // ---------- restoring the originals ----------

  /** The container as Docker starts it: one default route, through the gateway, and no host routes. */
  datatype Original = Original(table: Table, gw: string, resolv: string)

  ghost predicate Pristine(o: Original) {
    && o.gw != "" && Get(o.table, Default(0)) == Some(Hop(o.gw, ETH)) && Default(FALLBACK_METRIC) !in o.table
    && (forall ip: string :: Host(ip) !in o.table)
    && (forall d | d in o.table :: o.table[d].dev != TUN_IFACE)
  }

  function Fresh(o: Original): Driver {
    Driver(None, None, 0, "", "", None, false, o.table, o.resolv)
  }

  /** Everything but routes to single hosts is as it was. */
  ghost predicate NetsRestored(t: Table, o: Original) {
    forall d: Dest :: !d.Host? ==> Get(t, d) == Get(o.table, d)
  }

  /** In socks5 mode everything but the fallback, the default and routes to single hosts is as it was. */
  ghost predicate Diverted(d: Driver, o: Original) {
    && (forall k: Dest :: !k.Host? && k != Default(0) && k != Default(FALLBACK_METRIC) ==> Get(d.table, k) == Get(o.table, k))
    && Get(d.table, Default(FALLBACK_METRIC)) == Some(Hop(o.gw, ETH))
    && Get(d.table, Host(d.proxyIP)) == Some(Hop(o.gw, ETH))
    && (d.engine ==> Get(d.table, Default(0)) == Some(Hop(TUN_PEER, TUN_IFACE)))
    && (Get(d.table, Default(0)).Some? ==> Get(d.table, Default(0)) == Some(Hop(TUN_PEER, TUN_IFACE)))
  }

  /** What holds after any Applies, failed ones included. */
  ghost predicate Sound(d: Driver, o: Original) {
    && (forall ip: string | Host(ip) in d.table :: d.table[Host(ip)] == Hop(o.gw, ETH))
    && if IsSocks5(d.applied)
       then d.gw == o.gw && d.proxyIP != "" && Diverted(d, o) && d.savedResolv == Some(o.resolv) && d.resolv == REDIRECTED_RESOLV
       else NetsRestored(d.table, o) && d.savedResolv == None && d.resolv == o.resolv && !d.engine
  }

  /** What holds besides, as long as no Apply fails. */
  ghost predicate Clean(d: Driver, o: Original) {
    if IsSocks5(d.applied)
    then forall ip: string | Host(ip) in d.table :: ip == d.proxyIP
    else d.table == o.table
  }

  /** resolv.conf can be written and a name does not resolve to nothing. Every other step of Apply may fail: resolving, each
      route command, the TCP check, the config file, the engine. Tearing down works. */
  predicate CommandsWork(a: Answer) {
    a.resolvOk && (a.ip.Some? ==> a.ip.value != "")
  }

  datatype Event = ApplyUplink(cfg: Uplink, a: Answer) | EngineDies(dropsRoutes: bool)

  function Step(d: Driver, e: Event): Driver {
    match e
    case ApplyUplink(cfg, a) => Apply(d, TriUnknown, cfg, a).d
    case EngineDies(drops) => d.(engine := false, table := if drops then WithoutTun(d.table) else d.table)
  }

  function Run(d: Driver, es: seq<Event>): Driver
    decreases |es|
  {
    if es == [] then d else Run(Step(d, es[0]), es[1..])
  }

  /** Tearing down puts back the original default route and resolv.conf, whatever the engine did. */
  lemma TeardownRestores(d: Driver, o: Original)
    requires Pristine(o) && Sound(d, o) && IsSocks5(d.applied)
    ensures Sound(Teardown(d), o)
    ensures Clean(d, o) ==> Teardown(d).table == o.table
  {
    var t := if d.engine then WithoutTun(d.table) else d.table;
    var r := Teardown(d).table;
    assert Get(t, Default(FALLBACK_METRIC)) == Some(Hop(o.gw, ETH)) && Get(t, Host(d.proxyIP)) == Some(Hop(o.gw, ETH));
    forall k: Dest | !k.Host? ensures Get(r, k) == Get(o.table, k) {
      assert Get(d.table, k) == Get(o.table, k) || k == Default(0) || k == Default(FALLBACK_METRIC);
    }
    if Clean(d, o) {
      forall k ensures Get(r, k) == Get(o.table, k) {}
      SameRoutes(r, o.table);
    }
  }

  lemma SameRoutes(a: Table, b: Table)
    requires forall d :: Get(a, d) == Get(b, d)
    ensures a == b
  {
    forall d | d in a ensures d in b && a[d] == b[d] { assert Get(a, d) == Get(b, d); }
    forall d | d in b ensures d in a { assert Get(a, d) == Get(b, d); }
  }

  lemma ApplySocks5Sound(d: Driver, udp: Tri, cfg: Uplink, a: Answer, o: Original)
    requires Pristine(o) && Sound(d, o) && !IsSocks5(d.applied) && cfg.mode == "socks5" && CommandsWork(a)
    ensures Sound(ApplySocks5(d, udp, cfg, a).d, o)
    ensures d.table == o.table && ApplySocks5(d, udp, cfg, a).ok ==> Clean(ApplySocks5(d, udp, cfg, a).d, o)
  {
    hide ApplyRoutes, DetectGateway, Teardown, RestoreHostRoutes, WithoutTun;
    GatewayIsFound(d, o);
    if a.ip.Some? && a.proxyRouteOk && a.tcpOk && a.configOk && a.engineOk && a.routesDone < 3 {
      RoutesAreTakenBack(d.(proxyIP := a.ip.value, gw := o.gw, engine := true), a.ip.value, a.routesDone, o);
    } else if a.ip.Some? {
      var t := d.table[Host(a.ip.value) := Hop(o.gw, ETH)];
      forall k: Dest | !k.Host? ensures Get(t, k) == Get(o.table, k) {
        assert Get(t, k) == Get(d.table, k);
      }
      if a.routesDone >= 3 { DivertedByApplyRoutes(t, a.ip.value, a.routesDone, o); }
      var after := ApplySocks5(d, udp, cfg, a).d;
      if ApplySocks5(d, udp, cfg, a).ok {
        assert after.table == ApplyRoutes(t, a.ip.value, o.gw, a.routesDone) && after.proxyIP == a.ip.value && after.engine;
      }
    }
  }

  /** Tearing down after a failed route command: nothing of the new proxy is left, and nothing else has changed. */
  lemma RoutesAreTakenBack(d: Driver, ip: string, done: nat, o: Original)
    requires Pristine(o) && Sound(d.(engine := false), o) && !IsSocks5(d.applied)
    requires d.engine && d.gw == o.gw && d.proxyIP == ip != "" && done < 3
    ensures var d' := d.(table := ApplyRoutes(d.table[Host(ip) := Hop(o.gw, ETH)], ip, o.gw, done));
            && Sound(Teardown(d'), o)
            && (d.table == o.table ==> Teardown(d').table == o.table)
  {
    var t := ApplyRoutes(d.table[Host(ip) := Hop(o.gw, ETH)], ip, o.gw, done);
    forall k ensures Get(WithoutTun(t), k) == Get(t, k) {
      if !k.Host? { assert Get(d.table, k) == Get(o.table, k); }
    }
    SameRoutes(WithoutTun(t), t);
    var r := Teardown(d.(table := t)).table;
    forall k ensures Get(r, k) == if k == Host(ip) then None else Get(d.table, k) {
      assert !k.Host? ==> Get(d.table, k) == Get(o.table, k);
    }
    if d.table == o.table {
      SameRoutes(r, o.table);
    }
  }

  lemma DivertedByApplyRoutes(t: Table, ip: string, done: nat, o: Original)
    requires done >= 3 && NetsRestored(t, o)
    ensures var r := ApplyRoutes(t, ip, o.gw, done);
            && (forall k: Dest :: !k.Host? && k != Default(0) && k != Default(FALLBACK_METRIC) ==> Get(r, k) == Get(o.table, k))
            && Get(r, Default(FALLBACK_METRIC)) == Some(Hop(o.gw, ETH))
            && Get(r, Host(ip)) == Some(Hop(o.gw, ETH))
            && Get(r, Default(0)) == Some(Hop(TUN_PEER, TUN_IFACE))
            && (forall h: string :: Get(r, Host(h)) == if h == ip then Some(Hop(o.gw, ETH)) else Get(t, Host(h)))
  {
    var r := ApplyRoutes(t, ip, o.gw, done);
    forall k: Dest | !k.Host? && k != Default(0) && k != Default(FALLBACK_METRIC) ensures Get(r, k) == Get(o.table, k) {
      assert Get(r, k) == Get(t, k);
    }
  }

  lemma ApplySound(d: Driver, udp: Tri, cfg: Uplink, a: Answer, o: Original)
    requires Pristine(o) && Sound(d, o) && CommandsWork(a)
    ensures Sound(Apply(d, udp, cfg, a).d, o)
    ensures Clean(d, o) && Apply(d, udp, cfg, a).ok ==> Clean(Apply(d, udp, cfg, a).d, o)
  {
    if IsSocks5(d.applied) {
      TeardownRestores(d, o);
    }
    if cfg.mode == "socks5" {
      ApplySocks5Sound(if IsSocks5(d.applied) then Teardown(d) else d, udp, cfg, a, o);
    }
  }

  lemma EngineDiesSound(d: Driver, drops: bool, o: Original)
    requires Pristine(o) && Sound(d, o)
    ensures Sound(Step(d, EngineDies(drops)), o)
    ensures Clean(d, o) ==> Clean(Step(d, EngineDies(drops)), o)
  {
    var t := WithoutTun(d.table);
    if IsSocks5(d.applied) {
      forall k: Dest | !k.Host? && k != Default(0) && k != Default(FALLBACK_METRIC) ensures Get(t, k) == Get(o.table, k) {
        assert Get(d.table, k) == Get(o.table, k);
      }
      assert Get(d.table, Default(0)).Some? ==> Get(d.table, Default(0)) == Some(Hop(TUN_PEER, TUN_IFACE));
    } else {
      forall k ensures Get(t, k) == Get(d.table, k) {
        if !k.Host? { assert Get(d.table, k) == Get(o.table, k); }
      }
      SameRoutes(t, d.table);
    }
  }

  ghost predicate AllCommandsWork(es: seq<Event>) {
    forall e | e in es && e.ApplyUplink? :: CommandsWork(e.a)
  }

  /** No Apply of the run returns an error. */
  ghost predicate NoFailedApply(d: Driver, es: seq<Event>)
    decreases |es|
  {
    es != [] ==>
      && (es[0].ApplyUplink? ==> Apply(d, TriUnknown, es[0].cfg, es[0].a).ok)
      && NoFailedApply(Step(d, es[0]), es[1..])
  }

  lemma {:induction false} RunIsSound(d: Driver, es: seq<Event>, o: Original)
    requires Pristine(o) && Sound(d, o) && AllCommandsWork(es)
    ensures Sound(Run(d, es), o)
    ensures Clean(d, o) && NoFailedApply(d, es) ==> Clean(Run(d, es), o)
    decreases |es|
  {
    if es == [] {
    } else {
      match es[0] {
        case ApplyUplink(cfg, a) => ApplySound(d, TriUnknown, cfg, a, o);
        case EngineDies(drops) => EngineDiesSound(d, drops, o);
      }
      RunIsSound(Step(d, es[0]), es[1..], o);
    }
  }

  /** Over any run of Applies, failed ones and engine deaths included, whenever the uplink is not socks5 the networks routed,
      the default route and resolv.conf are the originals; while it is, the default goes to the TUN peer or nowhere, and
      what is needed to return is kept. With no failed Apply, leaving socks5 restores the whole table. */
  lemma OriginalsComeBack(es: seq<Event>, o: Original)
    requires Pristine(o) && AllCommandsWork(es)
    ensures var d := Run(Fresh(o), es);
            && (!IsSocks5(d.applied) ==> NetsRestored(d.table, o) && d.resolv == o.resolv && !d.engine)
            && (!IsSocks5(d.applied) && NoFailedApply(Fresh(o), es) ==> d.table == o.table)
            && (IsSocks5(d.applied) ==> d.savedResolv == Some(o.resolv) && d.resolv == REDIRECTED_RESOLV && Diverted(d, o))
  {
    RunIsSound(Fresh(o), es, o);
  }

  /** A failed Apply leaks the proxy's host route exactly when it set it and failed before the other routes; once those are
      under way, a failure takes everything back. */
  lemma LeaksIffFailedAfterResolving(d: Driver, cfg: Uplink, a: Answer, o: Original)
    requires Pristine(o) && Sound(d, o) && Clean(d, o) && CommandsWork(a) && cfg.mode == "socks5"
    requires !(d.applied == Some(cfg) && d.engine)
    ensures var r := Apply(d, TriUnknown, cfg, a);
            r.d.table != o.table && !IsSocks5(r.d.applied) <==> a.ip.Some? && a.proxyRouteOk && !(a.tcpOk && a.configOk && a.engineOk)
  {
    if IsSocks5(d.applied) {
      TeardownRestores(d, o);
    }
    var d' := if IsSocks5(d.applied) then Teardown(d) else d;
    assert Get(o.table, Default(0)) == Some(Hop(o.gw, ETH));
    if a.ip.Some? {
      assert Host(a.ip.value) in o.table[Host(a.ip.value) := Hop(o.gw, ETH)];
      if a.proxyRouteOk && a.tcpOk && a.configOk && a.engineOk && a.routesDone < 3 {
        RoutesAreTakenBack(d'.(proxyIP := a.ip.value, gw := o.gw, engine := true), a.ip.value, a.routesDone, o);
      }
    }
  }

  // ---------- what Apply and WaitUDP answer ----------

  predicate AllWorks(a: Answer) {
    a.ip.Some? && a.proxyRouteOk && a.tcpOk && a.configOk && a.engineOk && a.routesDone >= 3
  }

  /** The reason of a socks5 uplink that could not be applied: the first of its steps that failed. */
  function FirstFailure(a: Answer): string {
    if a.ip.None? then "proxy_unreachable"
    else if !a.proxyRouteOk then "routes_failed"
    else if !a.tcpOk then "proxy_unreachable"
    else if !a.configOk then "config_failed"
    else if !a.engineOk then "engine_failed"
    else "routes_failed"
  }

  /** In every container that Applies have left restorable: host is always up and carries UDP; a socks5 uplink that is
      applied with a live engine is only asked whether its proxy answers; any other one is rebuilt, with a running engine,
      exactly when every step succeeds, and else is down for the reason of the first that failed. */
  lemma ApplyAnswers(d: Driver, udp: Tri, cfg: Uplink, a: Answer, o: Original)
    requires Pristine(o) && Sound(d, o)
    ensures var r := Apply(d, udp, cfg, a);
            && r.up.mode == cfg.mode
            && (cfg.mode == "host" ==>
                  r.ok && r.up == UplinkState("host", UplinkUp, TriTrue, "") && r.d.applied == Some(cfg) && !r.d.engine)
            && (cfg.mode != "host" && cfg.mode != "socks5" ==> !r.ok && r.d == d)
            && (cfg.mode == "socks5" && d.applied == Some(cfg) && d.engine ==>
                  && r.ok && r.d == d && (r.up.status == UplinkUp <==> a.tcpOk)
                  && r.up.reason == (if a.tcpOk then "" else "proxy_unreachable"))
            && (cfg.mode == "socks5" && !(d.applied == Some(cfg) && d.engine) ==>
                  && (r.ok <==> AllWorks(a))
                  && (r.ok ==> r.d.applied == Some(cfg) && r.d.engine && r.up.status == UplinkUp && r.up.reason == "")
                  && (!r.ok ==> !r.d.engine && r.up == UplinkState("socks5", UplinkDown, TriUnknown, FirstFailure(a))))
  {
    hide RestoreHostRoutes, WithoutTun, ApplySocks5, Sound, Pristine;
    var base := if IsSocks5(d.applied) then Teardown(d) else d;
    if IsSocks5(d.applied) {
      TeardownRestores(d, o);
    }
    RestIsEngineless(base, o);
    if cfg.mode == "socks5" {
      Socks5Answers(base, udp, cfg, a, o);
    }
  }

  lemma RestIsEngineless(d: Driver, o: Original)
    requires Sound(d, o) && !IsSocks5(d.applied)
    ensures !d.engine
  {
  }

  lemma Socks5Answers(d: Driver, udp: Tri, cfg: Uplink, a: Answer, o: Original)
    requires Pristine(o) && Sound(d, o) && !IsSocks5(d.applied) && cfg.mode == "socks5"
    ensures var r := ApplySocks5(d, udp, cfg, a);
            && r.up.mode == cfg.mode
            && (r.ok <==> AllWorks(a))
            && (r.ok ==> r.d.applied == Some(cfg) && r.d.engine && r.up.status == UplinkUp && r.up.reason == "")
            && (!r.ok ==> !r.d.engine && r.up == UplinkState("socks5", UplinkDown, TriUnknown, FirstFailure(a)))
  {
    hide RestoreHostRoutes, WithoutTun, ApplyRoutes, DetectGateway, Pristine, Sound;
    GatewayIsFound(d, o);
    RestIsEngineless(d, o);
  }

  lemma GatewayIsFound(d: Driver, o: Original)
    requires Pristine(o) && Sound(d, o) && !IsSocks5(d.applied)
    ensures DetectGateway(d.table) == Some(o.gw)
  {
    assert Get(d.table, Default(0)) == Get(o.table, Default(0));
  }

  /** And in a container that has lost its gateway a socks5 uplink is down for that reason, unless the proxy's name does not
      even resolve. */
  lemma NoGatewayIsReported(d: Driver, udp: Tri, cfg: Uplink, a: Answer)
    requires cfg.mode == "socks5" && a.ip.Some? && !IsSocks5(d.applied)
    requires Get(d.table, Default(0)).None? && Get(d.table, Default(FALLBACK_METRIC)).None?
    ensures var r := Apply(d, udp, cfg, a);
            !r.ok && r.up == UplinkState("socks5", UplinkDown, TriUnknown, "no_gateway") && r.d == d
  {
  }

  /** What WaitUDP answers at once, after the probe, and when it gives up. */
  lemma AwaitedUdpMeans(d: Driver, udp: Tri)
    ensures d.applied.None? ==> AwaitedUdp(d, udp, true) == TriUnknown
    ensures d.applied.Some? && (d.applied.value.mode == "host" || d.applied.value.socks5.udp == "on") ==>
              AwaitedUdp(d, udp, false) == TriTrue
    ensures d.applied.Some? && d.applied.value.mode != "host" && d.applied.value.socks5.udp == "off" ==>
              AwaitedUdp(d, udp, false) == TriFalse
    ensures d.applied.Some? && ProbesUdp(d.applied.value) && d.probeRun.Some? ==>
              AwaitedUdp(d, udp, true) == udp && AwaitedUdp(d, udp, false) == TriUnknown
  {
  }
}
