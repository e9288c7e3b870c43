/** The uplink driver as the agent runs it: an object that changes its own fields, the container's routes and resolv.conf,
    and the published snapshot, step by step. */
module UplinkManager {
  import opened Wrappers
  import opened Config
  import opened AgentState
  import opened UplinkDriver

  /** The container's network namespace and /etc/resolv.conf, as `ip route` and file writes see them. */
  class Container {
    var table: Table
    var resolv: string

    constructor (table: Table, resolv: string)
      ensures this.table == table && this.resolv == resolv
    {
      this.table, this.resolv := table, resolv;
    }

    method Replace(dest: Dest, hop: Hop)
      modifies this`table
      ensures table == old(table)[dest := hop]
    {
      table := table[dest := hop];
    }

    method Delete(dest: Dest, hop: Hop)
      modifies this`table
      ensures table == Del(old(table), dest, hop)
    {
      if dest in table && table[dest] == hop {
        table := table - {dest};
      }
    }
  }

  /** The snapshot store, as far as a single writer's updates show. */
  class Snapshot {
    var cur: State

    constructor (initial: State)
      ensures cur == initial
    {
      cur := initial;
    }

    method SetUdp(v: Tri)
      modifies this
      ensures cur == old(cur).(uplink := old(cur).uplink.(udp := v))
    {
      cur := cur.(uplink := cur.uplink.(udp := v));
    }
  }

  class Manager {
    const box: Container
    const st: Snapshot
    var applied: Option<Uplink>
    var probeRun: Option<nat>
    var nextProbe: nat
    var proxyIP: string
    var gw: string
    var savedResolv: Option<string>
    var engine: bool
    /** The probes whose `done` channel is closed. */
    var done: set<nat>

    constructor (box: Container, st: Snapshot)
      ensures this.box == box && this.st == st && done == {} && Abs() == Fresh(Original(box.table, "", box.resolv))
    {
      this.box, this.st := box, st;
      applied, probeRun, nextProbe, proxyIP, gw, savedResolv, engine := None, None, 0, "", "", None, false;
      done := {};
    }

    ghost function Abs(): Driver
      reads this, box
    {
      Driver(applied, probeRun, nextProbe, proxyIP, gw, savedResolv, engine, box.table, box.resolv)
    }

    method StopEngine()
      modifies this`engine, box`table
      ensures engine == false && box.table == if old(engine) then WithoutTun(old(box.table)) else old(box.table)
    {
      if engine {
        engine := false;
        box.table := WithoutTun(box.table);
      }
    }

    method RestoreRoutes()
      modifies box`table
      ensures box.table == RestoreHostRoutes(old(box.table), proxyIP, gw)
    {
      box.Replace(Default(0), Hop(gw, ETH));
      box.Delete(Default(FALLBACK_METRIC), Hop(gw, ETH));
      if proxyIP != "" {
        box.Delete(Host(proxyIP), Hop(gw, ETH));
      }
    }

    method TeardownLocked()
      modifies this, box
      ensures Abs() == Teardown(old(Abs())) && done == old(done)
    {
      StopEngine();
      if savedResolv.Some? {
        box.resolv := savedResolv.value;
        savedResolv := None;
      }
      if gw != "" {
        RestoreRoutes();
      }
      proxyIP := "";
      applied := None;
      probeRun := None;
    }

    /** The commands of applyRoutes, of which the first `done` succeed. */
    method RouteThroughProxy(ip: string, gateway: string, done: nat) returns (ok: bool)
      modifies box`table
      ensures box.table == ApplyRoutes(old(box.table), ip, gateway, done) && ok == (done >= 3)
    {
      if done == 0 {
        return false;
      }
      box.Replace(Host(ip), Hop(gateway, ETH));
      if done == 1 {
        return false;
      }
      box.Replace(Default(FALLBACK_METRIC), Hop(gateway, ETH));
      if done == 2 {
        return false;
      }
      box.Replace(Default(0), Hop(TUN_PEER, TUN_IFACE));
      ok := true;
    }

    method StartProbe()
      modifies this`probeRun, this`nextProbe, st
      ensures probeRun == Some(old(nextProbe)) && nextProbe == old(nextProbe) + 1
      ensures st.cur == old(st.cur).(uplink := old(st.cur).uplink.(udp := TriUnknown))
    {
      probeRun, nextProbe := Some(nextProbe), nextProbe + 1;
      st.SetUdp(TriUnknown);
    }

    /** Apply with the environment's answers `a`; the agent holds the manager's mutex throughout. */
    method Apply(cfg: Uplink, a: Answer) returns (up: UplinkState, ok: bool)
      modifies this, box, st
      ensures var r := UplinkDriver.Apply(old(Abs()), old(st.cur).uplink.udp, cfg, a);
              done == old(done) && Abs() == r.d && up == r.up && ok == r.ok && st.cur == old(st.cur).(uplink := old(st.cur).uplink.(udp := r.udp))
    {
      if cfg.mode == "host" {
        if applied.Some? && applied.value.mode == "socks5" {
          TeardownLocked();
        }
        applied := Some(cfg);
        probeRun := None;
        return UplinkState("host", UplinkUp, TriTrue, ""), true;
      }
      if cfg.mode != "socks5" {
        return UplinkState(cfg.mode, UplinkUnknown, TriUnknown, ""), false;
      }
      if applied == Some(cfg) && engine {
        up := UplinkState("socks5", if a.tcpOk then UplinkUp else UplinkDown, st.cur.uplink.udp, if a.tcpOk then "" else "proxy_unreachable");
        return up, true;
      }
      if applied.Some? && applied.value.mode == "socks5" {
        TeardownLocked();
      }
      up, ok := Setup(cfg, a);
    }

    method Setup(cfg: Uplink, a: Answer) returns (up: UplinkState, ok: bool)
      requires cfg.mode == "socks5"
      modifies this, box, st
      ensures var r := ApplySocks5(old(Abs()), old(st.cur).uplink.udp, cfg, a);
              done == old(done) && Abs() == r.d && up == r.up && ok == r.ok && st.cur == old(st.cur).(uplink := old(st.cur).uplink.(udp := r.udp))
    {
      hide RestoreHostRoutes, ApplyRoutes, WithoutTun, DetectGateway, Teardown, UplinkDriver.Divert, StartUdp;
      if a.ip.None? {
        return Down(cfg, "proxy_unreachable"), false;
      }
      var ip, gateway := a.ip.value, DetectGateway(box.table);
      if gateway.None? {
        return Down(cfg, "no_gateway"), false;
      }
      proxyIP, gw := ip, gateway.value;
      if !a.proxyRouteOk {
        return Down(cfg, "routes_failed"), false;
      }
      box.Replace(Host(ip), Hop(gw, ETH));
      if !a.tcpOk {
        return Down(cfg, "proxy_unreachable"), false;
      }
      if !a.configOk {
        return Down(cfg, "config_failed"), false;
      }
      if !a.engineOk {
        engine := false;
        return Down(cfg, "engine_failed"), false;
      }
      engine := true;
      up, ok := Divert(cfg, ip, a);
    }

    /** With the engine running: routes, resolver and the UDP verdict. */
    method Divert(cfg: Uplink, ip: string, a: Answer) returns (up: UplinkState, ok: bool)
      modifies this, box, st
      ensures var r := UplinkDriver.Divert(old(Abs()), old(st.cur).uplink.udp, cfg, ip, a);
              done == old(done) && Abs() == r.d && up == r.up && ok == r.ok && st.cur == old(st.cur).(uplink := old(st.cur).uplink.(udp := r.udp))
    {
      hide RestoreHostRoutes, ApplyRoutes, WithoutTun, Teardown;
      var routed := RouteThroughProxy(ip, gw, a.routesDone);
      if !routed {
        TeardownLocked();
        return Down(cfg, "routes_failed"), false;
      }
      if a.resolvOk {
        if savedResolv.None? {
          savedResolv := Some(box.resolv);
        }
        box.resolv := REDIRECTED_RESOLV;
      }
      applied := Some(cfg);
      up := UdpSupport(cfg);
      ok := true;
    }

    method UdpSupport(cfg: Uplink) returns (up: UplinkState)
      modifies this`probeRun, this`nextProbe, st
      ensures var r := StartUdp(old(Abs()), old(st.cur).uplink.udp, cfg);
              Abs() == r.d && up == r.up && st.cur == old(st.cur).(uplink := old(st.cur).uplink.(udp := r.udp))
    {
      up := UplinkState("socks5", UplinkUp, TriUnknown, "");
      if cfg.socks5.udp == "on" {
        up := up.(udp := TriTrue);
      } else if cfg.socks5.udp == "off" {
        up := up.(udp := TriFalse);
      } else {
        StartProbe();
      }
    }

    /** A probe that finishes publishes its result only while it is still the latest Apply's. */
    method PublishProbe(run: nat, supported: bool) returns (current: bool)
      modifies st, this`done
      ensures current == (probeRun == Some(run)) && done == old(done) + {run}
      ensures st.cur == if current && old(st.cur).uplink.mode == "socks5"
                        then old(st.cur).(uplink := old(st.cur).uplink.(udp := if supported then TriTrue else TriFalse))
                        else old(st.cur)
    {
      current := probeRun == Some(run);
      if current && st.cur.uplink.mode == "socks5" {
        st.SetUdp(if supported then TriTrue else TriFalse);
      }
      done := done + {run};
    }

    /** Waits for the latest Apply's probe; `inTime` is whether a finished one is noticed before the timeout. */
    method WaitUDP(inTime: bool) returns (v: Tri)
      ensures v == AwaitedUdp(Abs(), st.cur.uplink.udp, probeRun.Some? && probeRun.value in done && inTime)
    {
      if applied.None? {
        return TriUnknown;
      }
      if applied.value.mode == "host" || applied.value.socks5.udp == "on" {
        return TriTrue;
      }
      if applied.value.socks5.udp == "off" {
        return TriFalse;
      }
      if probeRun.None? || (probeRun.value in done && inTime) {
        return st.cur.uplink.udp;
      }
      v := TriUnknown;
    }
  }
}
