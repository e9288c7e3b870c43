/** The ExpressVPN daemon as a transition system: what its commands do in each state, and what it may do on its own. */
module Daemon {
  import opened Wrappers

  datatype RawState =
    | Disconnected
    | Connecting
    | Connected
    | Interrupted
    | Reconnecting
    | DisconnectingToReconnect
    | Disconnecting

  /** `pending` is the protocol of the next connection, `protocol` that of the current session; `sessions` counts
      arrivals in Connected by a new connection. */
  datatype Daemon = Daemon(state: RawState, location: string, pending: string, protocol: string, sessions: nat)

  /** One move the daemon makes by itself: a connection completes, is given up, drops or resumes. Nothing leaves
      Disconnected without a command. */
  predicate Moves(d: Daemon, d': Daemon) {
    match d.state
    case Disconnected => d' == d
    case Connecting => d' == d || d' == Established(d) || d' == d.(state := Reconnecting) || d' == d.(state := Disconnected)
    case Connected => d' == d || d' == d.(state := Interrupted) || d' == d.(state := Reconnecting) || d' == d.(state := Disconnected)
    case Interrupted => d' == d || d' == d.(state := Connected) || d' == d.(state := Reconnecting) || d' == d.(state := Disconnected)
    case Reconnecting => d' == d || d' == Established(d) || d' == d.(state := Disconnected)
    case DisconnectingToReconnect => d' == d || d' == d.(state := Reconnecting) || d' == d.(state := Disconnected)
    case Disconnecting => d' == d || d' == d.(state := Disconnected)
  }

  function Established(d: Daemon): Daemon {
    d.(state := Connected, protocol := d.pending, sessions := d.sessions + 1)
  }

  predicate IsPath(path: seq<Daemon>) {
    |path| > 0 && forall i | 0 <= i < |path| - 1 :: Moves(path[i], path[i + 1])
  }

  /** Any number of moves lead from `d` to `d'`. */
  ghost predicate Drifts(d: Daemon, d': Daemon) {
    exists path :: IsPath(path) && path[0] == d && path[|path| - 1] == d'
  }

  lemma DriftsStay(d: Daemon)
    ensures Drifts(d, d)
  {
    assert IsPath([d]);
  }

  lemma DriftsCompose(a: Daemon, b: Daemon, c: Daemon)
    requires Drifts(a, b) && Drifts(b, c)
    ensures Drifts(a, c)
  {
    var p :| IsPath(p) && p[0] == a && p[|p| - 1] == b;
    var q :| IsPath(q) && q[0] == b && q[|q| - 1] == c;
    var path := p + q[1..];
    forall i | 0 <= i < |path| - 1 ensures Moves(path[i], path[i + 1]) {
      if i >= |p| - 1 {
        assert path[i] == q[i - |p| + 1] && Moves(q[i - |p| + 1], q[i - |p| + 2]);
      } else {
        assert Moves(p[i], p[i + 1]);
      }
    }
    assert IsPath(path) && path[0] == a && path[|path| - 1] == c;
  }

  // ---------- commands ----------

  predicate Unchanging(d: Daemon, location: string) {
    d.state == Connected && (location == "" || location == d.location) && d.pending == d.protocol
  }

  predicate AcceptsConnect(s: RawState) {
    s == Connected || s == Disconnected
  }

  /** `connect`: a no-op on a session believed alive with nothing to change, the daemon's own reconnection on one with a
      change, a connection from Disconnected, and refused while the daemon is busy. */
  function AfterConnect(d: Daemon, location: string): Daemon {
    if Unchanging(d, location) then d
    else if d.state == Connected then
      d.(state := DisconnectingToReconnect, location := if location != "" then location else d.location)
    else if d.state == Disconnected then
      d.(state := Connecting, location := if location == "" then "smart" else location)
    else d
  }

  function AfterDisconnect(d: Daemon): Daemon {
    if d.state == Disconnected then d else d.(state := Disconnecting)
  }

  predicate AcceptsSet(s: RawState) {
    s != Reconnecting && s != DisconnectingToReconnect
  }

  function AfterSetProtocol(d: Daemon, protocol: string): Daemon {
    if AcceptsSet(d.state) then d.(pending := protocol) else d
  }

  // ---------- what makes a session new ----------

  /** `d` is on the way to, or in, a session later than number `since`, with these settings. */
  ghost predicate OnlyNewer(d: Daemon, since: nat, location: string, protocol: string) {
    && d.sessions >= since && d.location == location && d.pending == protocol
    && (d.state == Connected || d.state == Interrupted ==> d.sessions > since && d.protocol == protocol)
  }

  lemma {:induction false} PathKeepsNewer(path: seq<Daemon>, since: nat, location: string, protocol: string)
    requires IsPath(path) && OnlyNewer(path[0], since, location, protocol)
    ensures OnlyNewer(path[|path| - 1], since, location, protocol)
    decreases |path|
  {
    if |path| == 1 {
    } else {
      assert Moves(path[0], path[1]);
      forall i | 0 <= i < |path| - 2 ensures Moves(path[1..][i], path[1..][i + 1]) { assert Moves(path[i + 1], path[i + 2]); }
      PathKeepsNewer(path[1..], since, location, protocol);
    }
  }

  lemma DriftKeepsNewer(d: Daemon, d': Daemon, since: nat, location: string, protocol: string)
    requires OnlyNewer(d, since, location, protocol) && Drifts(d, d')
    ensures OnlyNewer(d', since, location, protocol)
  {
    var path :| IsPath(path) && path[0] == d && path[|path| - 1] == d';
    PathKeepsNewer(path, since, location, protocol);
  }

  lemma {:induction false} PathFromDisconnected(path: seq<Daemon>)
    requires IsPath(path) && path[0].state == Disconnected
    ensures path[|path| - 1] == path[0]
    decreases |path|
  {
    if |path| == 1 {
    } else {
      assert Moves(path[0], path[1]);
      forall i | 0 <= i < |path| - 2 ensures Moves(path[1..][i], path[1..][i + 1]) { assert Moves(path[i + 1], path[i + 2]); }
      PathFromDisconnected(path[1..]);
    }
  }

  /** An observed Disconnected still holds when the next command arrives, however late. */
  lemma DisconnectedStays(d: Daemon, d': Daemon)
    requires d.state == Disconnected && Drifts(d, d')
    ensures d' == d
  {
    var path :| IsPath(path) && path[0] == d && path[|path| - 1] == d';
    PathFromDisconnected(path);
  }

  lemma {:induction false} PathSessions(path: seq<Daemon>)
    requires IsPath(path)
    ensures path[|path| - 1].sessions >= path[0].sessions
    decreases |path|
  {
    if |path| == 1 {
    } else {
      assert Moves(path[0], path[1]);
      forall i | 0 <= i < |path| - 2 ensures Moves(path[1..][i], path[1..][i + 1]) { assert Moves(path[i + 1], path[i + 2]); }
      PathSessions(path[1..]);
    }
  }

  lemma DriftKeepsSessions(d: Daemon, d': Daemon)
    requires Drifts(d, d')
    ensures d'.sessions >= d.sessions
  {
    var path :| IsPath(path) && path[0] == d && path[|path| - 1] == d';
    PathSessions(path);
  }

  ghost predicate LeadsOnlyToNewSessions(d: Daemon, since: nat) {
    forall d' | Drifts(d, d') && d'.state == Connected :: d'.sessions > since
  }

  /** After an accepted `connect`, an observed Connected proves a new session exactly when the command was not a no-op:
      on a session believed alive with nothing to change, a dead session passes for a new one. */
  lemma ConnectIsNewIffNotNoop(d: Daemon, location: string)
    requires AcceptsConnect(d.state)
    ensures LeadsOnlyToNewSessions(AfterConnect(d, location), d.sessions) <==> !Unchanging(d, location)
  {
    var after := AfterConnect(d, location);
    if Unchanging(d, location) {
      DriftsStay(d);
    } else {
      forall d' | Drifts(after, d') && d'.state == Connected ensures d'.sessions > d.sessions {
        DriftKeepsNewer(after, d', d.sessions, after.location, after.pending);
      }
    }
  }

  // ---------- what the agent reads ----------

  datatype Connection = ConnDisconnected | ConnConnecting | ConnConnected | ConnReconnecting | ConnError

  function ParseConnectionState(raw: RawState): Connection {
    match raw
    case Disconnected => ConnDisconnected
    case Disconnecting => ConnDisconnected
    case Connecting => ConnConnecting
    case Connected => ConnConnected
    case Interrupted => ConnReconnecting
    case Reconnecting => ConnReconnecting
    case DisconnectingToReconnect => ConnReconnecting
  }

  /** Only Connected is shown as connected, only a daemon at rest or on its way there as disconnected, and none as an error. */
  lemma ShownAs(raw: RawState)
    ensures var shown := ParseConnectionState(raw);
            && (shown == ConnConnected <==> raw == Connected)
            && (shown == ConnDisconnected <==> raw in {Disconnected, Disconnecting})
            && (shown == ConnConnecting <==> raw == Connecting)
            && (shown == ConnReconnecting <==> raw in {Interrupted, Reconnecting, DisconnectingToReconnect})
  {
  }

  /** expressvpnctl's protocol names, with the API's. */
  const CLI_TO_API: map<string, string> := map[
    "auto" := "auto", "lightwayudp" := "lightway_udp", "lightwaytcp" := "lightway_tcp",
    "openvpnudp" := "openvpn_udp", "openvpntcp" := "openvpn_tcp", "wireguard" := "wireguard"]

  /** Those under which the daemon may send UDP. */
  const CLI_NEEDS_UDP := {"auto", "lightwayudp", "openvpnudp", "wireguard"}

  function ProtocolToAPI(cli: string): string {
    if cli in CLI_TO_API then CLI_TO_API[cli] else cli
  }

  /** The API's protocol names as expressvpnctl spells them; others pass through. */
  function ProtocolToCLI(api: string): string {
    if api == "lightway_udp" then "lightwayudp"
    else if api == "lightway_tcp" then "lightwaytcp"
    else if api == "openvpn_udp" then "openvpnudp"
    else if api == "openvpn_tcp" then "openvpntcp"
    else api
  }
}
