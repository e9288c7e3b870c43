/** The agent's published snapshot, as far as the control loop reads or writes it. */
module AgentState {
  import opened Wrappers
  import opened Daemon
  import Config

  datatype Tri = TriUnknown | TriTrue | TriFalse

  datatype UplinkStatus = UplinkUnknown | UplinkUp | UplinkDown | UplinkDegraded

  datatype UplinkState = UplinkState(mode: string, status: UplinkStatus, udp: Tri, reason: string)

  datatype ProtocolState = ProtocolState(requested: string, effective: string, reason: string)

  /** `desired` is true for connected; `lastError` is the error's code. */
  datatype State = State(desired: bool, conn: Connection, location: string, protocol: ProtocolState,
                         uplink: UplinkState, ksActive: bool, lastError: Option<string>)

  const UDP_PROTOCOLS := {"auto", "lightway_udp", "openvpn_udp", "wireguard"}

  /** The protocol handed to the daemon, and why it differs from the requested one ("" when it does not). */
  function EffectiveProtocol(requested: string, uplinkMode: string, udp: Tri): (string, string) {
    var requested := if requested == "" then "auto" else requested;
    if uplinkMode != "socks5" || requested !in UDP_PROTOCOLS then (requested, "")
    else match udp
      case TriTrue => (requested, "")
      case TriFalse => ("lightway_tcp", "uplink has no UDP")
      case TriUnknown => ("lightway_tcp", "uplink UDP support unknown")
  }

  /** The command line's name for a protocol is the one that stands for it, and needs UDP exactly when the protocol does. */
  lemma CliNameIsFaithful(api: string)
    requires api in Config.KNOWN_PROTOCOLS
    ensures ProtocolToCLI(api) in CLI_TO_API && ProtocolToAPI(ProtocolToCLI(api)) == api
    ensures ProtocolToCLI(api) in CLI_NEEDS_UDP <==> api in UDP_PROTOCOLS
  {
  }

  lemma ApiNameIsFaithful(cli: string)
    requires cli in CLI_TO_API
    ensures ProtocolToAPI(cli) in Config.KNOWN_PROTOCOLS && ProtocolToCLI(ProtocolToAPI(cli)) == cli
  {
  }

  /** The choice is the user's unless it needs UDP that a socks5 uplink is not known to carry; then it is one that needs
      none, and the reason says what is known. */
  lemma EffectiveMeans(requested: string, mode: string, udp: Tri)
    ensures var wanted := if requested == "" then "auto" else requested;
            var (effective, reason) := EffectiveProtocol(requested, mode, udp);
            && (effective != wanted <==> mode == "socks5" && udp != TriTrue && wanted in {"auto", "lightway_udp", "openvpn_udp", "wireguard"})
            && (effective != wanted ==> effective == "lightway_tcp")
            && (mode == "socks5" && udp != TriTrue ==> effective !in UDP_PROTOCOLS)
            && (reason == "" <==> effective == wanted)
            && (reason == "uplink has no UDP" <==> effective != wanted && udp == TriFalse)
            && (wanted in Config.KNOWN_PROTOCOLS ==> effective in Config.KNOWN_PROTOCOLS)
  {
  }
}
