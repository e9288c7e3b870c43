/** The driver of the ExpressVPN daemon: a connection is always a new session. Every command may be slow or fail, and the
    daemon moves on its own in between. */
module XvpnManager {
  import opened Wrappers
  import opened Daemon

  datatype DriverError =
    | ConnectFailed
    | DisconnectFailed
    | UnknownLocation
    | NotLoggedIn
    | DaemonNotReady
    | CliFailed
    | Cancelled

  datatype Command = SetProtocol(name: string) | ConnectTo(location: string) | Disconnect

  /** A state-changing command, the daemon that executed it, when, and the error it was answered with. */
  datatype Issued = Issued(command: Command, executedBy: Daemon, at: nat, answer: Option<DriverError>)

  /** The commands that only make sense in Disconnected. */
  predicate Opens(c: Command) {
    c.SetProtocol? || c.ConnectTo?
  }

  function Connects(journal: seq<Issued>): (r: seq<Issued>) {
    if journal == [] then []
    else if journal[0].command.ConnectTo? then [journal[0]] + Connects(journal[1..])
    else Connects(journal[1..])
  }

  lemma {:induction false} ConnectsAppend(a: seq<Issued>, e: Issued)
    ensures Connects(a + [e]) == if e.command.ConnectTo? then Connects(a) + [e] else Connects(a)
  {
    if a != [] {
      assert (a + [e])[1..] == a[1..] + [e];
      ConnectsAppend(a[1..], e);
    } else {
      assert a + [e] == [e];
    }
  }

  /** Durations in milliseconds; the agent runs with 45_000, 500, 15_000, 300 and 2_000. */
  datatype Timings = Timings(connectTimeout: nat, connectPoll: nat, disconnectTimeout: nat, disconnectPoll: nat, retryDelay: nat)

  const CONNECT_RETRIES := 3

  /** expressvpnctl, the daemon behind it and the clock. */
  class Ctl {
    var daemon: Daemon
    var now: nat
    /** Every state-changing command issued so far. */
    var journal: seq<Issued>
    /** The daemon at the latest answered `get connectionstate`. */
    var polled: Daemon
    /** The latest answer to `get connectionstate`, and all of them. */
    var raw: Option<RawState>
    var answers: seq<Option<RawState>>
    /** Whether the caller's context is known to be done. */
    var cancelled: bool

    constructor (daemon: Daemon)
      ensures this.daemon == daemon && journal == [] && now == 0 && !cancelled
    {
      this.daemon, polled, now, journal, raw, answers, cancelled := daemon, daemon, 0, [], None, [], false;
    }

    /** A look at the context; once done it stays so. */
    method IsCancelled() returns (c: bool)
      modifies this`cancelled
      ensures c == cancelled && (old(cancelled) ==> cancelled)
    {
      c := *;
      c := c || cancelled;
      cancelled := c;
    }

    method AnyMoves() returns (path: seq<Daemon>, more: nat)
    {
      path := *;
      var delay: int := *;
      more := if delay > 0 then delay else 0;
    }

    /** Time passes and the daemon makes any moves. */
    method Elapse(atLeast: nat)
      modifies this`daemon, this`now
      ensures Drifts(old(daemon), daemon) && now >= old(now) + atLeast
    {
      var path, more := AnyMoves();
      now := now + atLeast + more;
      if IsPath(path) && path[0] == daemon {
        daemon := path[|path| - 1];
      } else {
        DriftsStay(daemon);
      }
    }

    /** `get connectionstate`: None when the command fails. */
    method RawConnectionState() returns (raw: Option<RawState>)
      modifies this`daemon, this`now, this`polled, this`raw, this`answers
      ensures answers == old(answers) + [raw]
      ensures Drifts(old(daemon), daemon) && now >= old(now) && this.raw == raw
      ensures raw.Some? ==> polled == daemon && raw.value == daemon.state
      ensures raw.None? ==> polled == old(polled)
    {
      Elapse(0);
      raw := None;
      var fails: bool := *;
      if !fails {
        polled := daemon;
        raw := Some(daemon.state);
      }
      this.raw, answers := raw, answers + [raw];
    }

    method AnyFailure() returns (e: Option<DriverError>)
      ensures e.Some? ==> e.value in {UnknownLocation, NotLoggedIn, DaemonNotReady, CliFailed, Cancelled}
    {
      e := *;
      if e.Some? && e.value !in {UnknownLocation, NotLoggedIn, DaemonNotReady, CliFailed, Cancelled} {
        e := None;
      }
    }

    /** A state-changing command: it reaches the daemon or not, and its answer may be lost after it took effect. */
    method Execute(c: Command) returns (err: Option<DriverError>, ghost hit: Daemon)
      modifies this`daemon, this`now, this`journal
      ensures Drifts(old(daemon), hit) && now >= old(now)
      ensures journal == old(journal) + [Issued(c, hit, now, err)]
      ensures daemon == hit || daemon == Effect(c, hit)
      ensures err.None? ==> daemon == Effect(c, hit) && Accepted(c, hit.state)
      ensures err.Some? ==> err.value != ConnectFailed && err.value != DisconnectFailed
    {
      Elapse(0);
      var found := daemon;
      hit := found;
      err := AnyFailure();
      if err.None? && !Accepted(c, daemon.state) {
        err := Some(DaemonNotReady);
      } else {
        var reaches: bool := *;
        if reaches || err.None? {
          daemon := Effect(c, daemon);
        }
      }
      journal := journal + [Issued(c, found, now, err)];
    }
  }

  function Effect(c: Command, d: Daemon): Daemon {
    match c
    case SetProtocol(name) => AfterSetProtocol(d, name)
    case ConnectTo(location) => AfterConnect(d, location)
    case Disconnect => AfterDisconnect(d)
  }

  predicate Accepted(c: Command, s: RawState) {
    match c
    case SetProtocol(_) => AcceptsSet(s)
    case ConnectTo(_) => AcceptsConnect(s)
    case Disconnect => true
  }

  /** What one call of the driver may have added to the journal. */
  ghost predicate Opening(e: Issued, location: string, protocol: string) {
    Opens(e.command) ==>
      && e.executedBy.state == Disconnected
      && (e.command == ConnectTo(location) || (protocol != "" && e.command == SetProtocol(ProtocolToCLI(protocol))))
      && (e.command.ConnectTo? && protocol != "" ==> e.executedBy.pending == ProtocolToCLI(protocol))
  }

  ghost predicate AllOpening(journal: seq<Issued>, location: string, protocol: string) {
    forall e | e in journal :: Opening(e, location, protocol)
  }

  function Target(location: string): string {
    if location == "" then "smart" else location
  }

  class Manager {
    const ctl: Ctl
    const t: Timings
    /** When the current session was established, as shown to clients. */
    var connectedAt: Option<nat>

    constructor (ctl: Ctl, t: Timings)
      requires t.connectPoll > 0 && t.disconnectPoll > 0
      ensures this.ctl == ctl && this.t == t && Valid() && connectedAt == None
    {
      this.ctl, this.t, connectedAt := ctl, t, None;
    }

    ghost predicate Valid() {
      t.connectPoll > 0 && t.disconnectPoll > 0
    }

    method WaitConnected(timeout: nat) returns (err: Option<DriverError>)
      requires Valid()
      modifies ctl`daemon, ctl`now, ctl`polled, ctl`raw, ctl`answers, ctl`cancelled
      ensures old(ctl.answers) <= ctl.answers
      ensures Drifts(old(ctl.daemon), ctl.daemon) && ctl.now >= old(ctl.now)
      ensures err.None? ==> ctl.polled == ctl.daemon && ctl.polled.state == Connected
      ensures err.Some? ==>
                && ctl.raw != Some(Connected)
                && ((err == Some(Cancelled) && ctl.cancelled) || (err == Some(ConnectFailed) && ctl.now > old(ctl.now) + timeout))
    {
      DriftsStay(ctl.daemon);
      var deadline := ctl.now + timeout;
      while true
        invariant Drifts(old(ctl.daemon), ctl.daemon) && ctl.now >= old(ctl.now) && old(ctl.answers) <= ctl.answers
        decreases deadline + t.connectPoll - ctl.now
      {
        ghost var before := ctl.daemon;
        var raw := ctl.RawConnectionState();
        DriftsCompose(old(ctl.daemon), before, ctl.daemon);
        if raw.Some? && ParseConnectionState(raw.value) == ConnConnected {
          return None;
        }
        if ctl.now > deadline {
          return Some(ConnectFailed);
        }
        var cancelled := ctl.IsCancelled();
        if cancelled {
          return Some(Cancelled);
        }
        before := ctl.daemon;
        ctl.Elapse(t.connectPoll);
        DriftsCompose(old(ctl.daemon), before, ctl.daemon);
      }
    }

    method WaitDisconnected() returns (err: Option<DriverError>)
      requires Valid()
      modifies ctl`daemon, ctl`now, ctl`polled, ctl`raw, ctl`answers, ctl`cancelled
      ensures old(ctl.answers) <= ctl.answers
      ensures Drifts(old(ctl.daemon), ctl.daemon) && ctl.now >= old(ctl.now)
      ensures err.None? ==> ctl.daemon.state == Disconnected
      ensures err.Some? ==> ctl.raw != Some(Disconnected)
      ensures err.Some? ==> (err == Some(Cancelled) && ctl.cancelled) || (err == Some(DisconnectFailed) && ctl.now > old(ctl.now) + t.disconnectTimeout)
    {
      DriftsStay(ctl.daemon);
      var deadline := ctl.now + t.disconnectTimeout;
      while true
        invariant Drifts(old(ctl.daemon), ctl.daemon) && ctl.now >= old(ctl.now) && old(ctl.answers) <= ctl.answers
        decreases deadline + t.disconnectPoll - ctl.now
      {
        ghost var before := ctl.daemon;
        var raw := ctl.RawConnectionState();
        DriftsCompose(old(ctl.daemon), before, ctl.daemon);
        if raw == Some(Disconnected) {
          return None;
        }
        if ctl.now > deadline {
          return Some(DisconnectFailed);
        }
        var cancelled := ctl.IsCancelled();
        if cancelled {
          return Some(Cancelled);
        }
        before := ctl.daemon;
        ctl.Elapse(t.disconnectPoll);
        DriftsCompose(old(ctl.daemon), before, ctl.daemon);
      }
    }

    /** Disconnects and waits for exactly Disconnected: the command itself returns while still Disconnecting. */
    method DisconnectAndWait() returns (err: Option<DriverError>)
      requires Valid()
      modifies this`connectedAt, ctl
      ensures err.None? ==> ctl.daemon.state == Disconnected && connectedAt == None
      ensures err.Some? ==> Caused(err.value, old(ctl.journal), ctl.journal, ctl.now, ctl.cancelled, t)
      ensures err.Some? ==> err.value != ConnectFailed && (connectedAt == old(connectedAt) || connectedAt == None)
      ensures |ctl.journal| == |old(ctl.journal)| + 1 && ctl.journal[..|old(ctl.journal)|] == old(ctl.journal)
      ensures ctl.journal[|old(ctl.journal)|].command == Disconnect
      ensures Connects(ctl.journal) == Connects(old(ctl.journal)) && old(ctl.answers) <= ctl.answers
      ensures ctl.now >= old(ctl.now) && ctl.daemon.sessions >= old(ctl.daemon.sessions)
    {
      ghost var hit;
      err, hit := ctl.Execute(Disconnect);
      DriftKeepsSessions(old(ctl.daemon), hit);
      ConnectsAppend(old(ctl.journal), ctl.journal[|old(ctl.journal)|]);
      if err.Some? {
        return;
      }
      connectedAt := None;
      ghost var before := ctl.daemon;
      err := WaitDisconnected();
      DriftKeepsSessions(before, ctl.daemon);
    }

    /** Leaves a daemon alone that answers Disconnected, and disconnects any other. */
    method EnsureDisconnected() returns (err: Option<DriverError>)
      requires Valid()
      modifies this`connectedAt, ctl
      ensures err.None? ==> ctl.daemon.state == Disconnected
      ensures |ctl.answers| > |old(ctl.answers)|
      ensures ctl.answers[|old(ctl.answers)|] == Some(Disconnected) <==> ctl.journal == old(ctl.journal)
      ensures ctl.journal == old(ctl.journal) ==> err.None? && connectedAt == old(connectedAt)
      ensures err.Some? ==> err.value != ConnectFailed && Caused(err.value, old(ctl.journal), ctl.journal, ctl.now, ctl.cancelled, t)
      ensures connectedAt == old(connectedAt) || connectedAt == None
      ensures |ctl.journal| >= |old(ctl.journal)| && ctl.journal[..|old(ctl.journal)|] == old(ctl.journal)
      ensures forall e | e in ctl.journal[|old(ctl.journal)|..] :: e.command == Disconnect
      ensures Connects(ctl.journal) == Connects(old(ctl.journal))
      ensures ctl.now >= old(ctl.now) && ctl.daemon.sessions >= old(ctl.daemon.sessions)
    {
      var raw := ctl.RawConnectionState();
      DriftKeepsSessions(old(ctl.daemon), ctl.daemon);
      if raw == Some(Disconnected) {
        return None;
      }
      err := DisconnectAndWait();
    }

    /** A command to a daemon last seen in Disconnected finds it unchanged. */
    method ExecuteIdle(c: Command) returns (err: Option<DriverError>)
      requires ctl.daemon.state == Disconnected && Opens(c)
      modifies ctl`daemon, ctl`now, ctl`journal
      ensures ctl.journal == old(ctl.journal) + [Issued(c, old(ctl.daemon), ctl.now, err)]
      ensures Connects(ctl.journal) == if c.ConnectTo? then Connects(old(ctl.journal)) + [Issued(c, old(ctl.daemon), ctl.now, err)] else Connects(old(ctl.journal))
      ensures ctl.now >= old(ctl.now)
      ensures err.None? ==> ctl.daemon == Effect(c, old(ctl.daemon))
      ensures ctl.daemon == old(ctl.daemon) || ctl.daemon == Effect(c, old(ctl.daemon))
      ensures err.Some? ==> err.value != ConnectFailed
    {
      ghost var hit;
      err, hit := ctl.Execute(c);
      DisconnectedStays(old(ctl.daemon), hit);
      ConnectsAppend(old(ctl.journal), Issued(c, hit, ctl.now, err));
    }

    /** One pass of Connect's loop: disconnect, set the protocol, connect, wait. */
    method OneAttempt(location: string, protocol: string) returns (r: Attempt)
      requires Valid()
      modifies this`connectedAt, ctl
      ensures Extends(old(ctl.journal), ctl.journal) && AllOpening(ctl.journal[|old(ctl.journal)|..], location, protocol)
      ensures ctl.now >= old(ctl.now) && ctl.daemon.sessions >= old(ctl.daemon.sessions)
      ensures r.GiveUp? ==> r.error != ConnectFailed && Caused(r.error, old(ctl.journal), ctl.journal, ctl.now, ctl.cancelled, t)
      ensures r.GiveUp? ==> NoRetryMends(old(ctl.journal), ctl.journal)
      ensures r.Retry? ==> NotSeenConnected(ctl.journal, ctl.raw)
      ensures r.Retry? ==> Connects(ctl.journal) != [] && Retryable(Connects(ctl.journal)[|Connects(ctl.journal)| - 1])
      ensures AtMostOneConnect(old(ctl.journal), ctl.journal, old(ctl.now), ctl.now)
      ensures !r.GiveUp? ==> |Connects(ctl.journal)| == |Connects(old(ctl.journal))| + 1
      ensures r.Established? ==> NewSession(ctl.journal, ctl.polled, location, protocol)
      ensures r.Established? ==> ctl.daemon.sessions >= ctl.polled.sessions > old(ctl.daemon.sessions)
      ensures if r.Established? then connectedAt == Some(ctl.now) else connectedAt == old(connectedAt) || connectedAt == None
    {
      hide NewSession, Connects;
      var e := EnsureDisconnected();
      if e.Some? {
        return GiveUp(e.value);
      }
      ghost var journal := ctl.journal;
      assert AllOpening(journal[|old(ctl.journal)|..], location, protocol);
      if protocol != "" {
        e := ExecuteIdle(SetProtocol(ProtocolToCLI(protocol)));
        AllOpeningAppend(old(ctl.journal), journal, ctl.journal, location, protocol);
        if e.Some? {
          return GiveUp(e.value);
        }
        journal := ctl.journal;
      }
      r := OpenSession(location, protocol);
      AllOpeningAppend(old(ctl.journal), journal, ctl.journal, location, protocol);
    }

    /** The connect command and the wait for its session. */
    method OpenSession(location: string, protocol: string) returns (r: Attempt)
      requires Valid() && ctl.daemon.state == Disconnected
      requires protocol != "" ==> ctl.daemon.pending == ProtocolToCLI(protocol)
      modifies this`connectedAt, ctl
      ensures Extends(old(ctl.journal), ctl.journal) && AllOpening(ctl.journal[|old(ctl.journal)|..], location, protocol)
      ensures ctl.now >= old(ctl.now) && ctl.daemon.sessions >= old(ctl.daemon.sessions)
      ensures r.GiveUp? ==> r.error != ConnectFailed && Caused(r.error, old(ctl.journal), ctl.journal, ctl.now, ctl.cancelled, t)
      ensures r.GiveUp? ==> NoRetryMends(old(ctl.journal), ctl.journal)
      ensures r.Retry? ==> NotSeenConnected(ctl.journal, ctl.raw)
      ensures r.Retry? ==> Connects(ctl.journal) != [] && Retryable(Connects(ctl.journal)[|Connects(ctl.journal)| - 1])
      ensures AtMostOneConnect(old(ctl.journal), ctl.journal, old(ctl.now), ctl.now)
      ensures |Connects(ctl.journal)| == |Connects(old(ctl.journal))| + 1
      ensures r.Established? ==> NewSession(ctl.journal, ctl.polled, location, protocol)
      ensures r.Established? ==> ctl.daemon.sessions >= ctl.polled.sessions > old(ctl.daemon.sessions)
      ensures if r.Established? then connectedAt == Some(ctl.now) else connectedAt == old(connectedAt)
    {
      ghost var idle := ctl.daemon;
      var e := ExecuteIdle(ConnectTo(location));
      if e.None? {
        assert OnlyNewer(ctl.daemon, idle.sessions, Target(location), idle.pending);
        ghost var connecting := ctl.daemon;
        e := WaitConnected(t.connectTimeout);
        DriftKeepsNewer(connecting, ctl.daemon, idle.sessions, Target(location), idle.pending);
        if e.None? {
          AfterConnectCommands();
          connectedAt := Some(ctl.now);
          return Established;
        }
      }
      r := if e.value == UnknownLocation || e.value == NotLoggedIn then GiveUp(e.value) else Retry;
    }

    /** `get region` and `get pubip`: nothing but time. */
    method AfterConnectCommands()
      modifies ctl`daemon, ctl`now
      ensures ctl.now >= old(ctl.now) && ctl.daemon.sessions >= old(ctl.daemon.sessions)
    {
      ctl.Elapse(0);
      DriftKeepsSessions(old(ctl.daemon), ctl.daemon);
    }

    /** A new session at `location` under `protocol` ("" keeps the pending one), in at most three attempts. */
    method Connect(location: string, protocol: string) returns (err: Option<DriverError>)
      requires Valid()
      modifies this`connectedAt, ctl
      // `connect` and `set protocol` are executed in exactly Disconnected, with the requested settings.
      ensures Extends(old(ctl.journal), ctl.journal) && AllOpening(ctl.journal[|old(ctl.journal)|..], location, protocol)
      // At most three `connect`s, apart by a doubling delay; all three are spent before the driver gives up.
      ensures Paced(Connects(old(ctl.journal)), Connects(ctl.journal), t.retryDelay)
      ensures err == Some(ConnectFailed) ==> |Connects(ctl.journal)| == |Connects(old(ctl.journal))| + CONNECT_RETRIES
      // Any other error has its cause, and none of the retried `connect`s was answered with one that no retry mends.
      ensures err.Some? && err.value != ConnectFailed ==> Caused(err.value, old(ctl.journal), ctl.journal, ctl.now, ctl.cancelled, t)
      ensures Retried(Connects(old(ctl.journal)), Connects(ctl.journal), |Connects(ctl.journal)| - 1)
      // connect_failed: the last `connect` was answered with an error, or the last poll after it did not see Connected.
      ensures err == Some(ConnectFailed) ==> NotSeenConnected(ctl.journal, ctl.raw)
      // A `connect` that a retry may mend is retried: short of three, only the cancellation ends the call after one.
      ensures err.Some? && !ctl.cancelled && err.value != ConnectFailed ==> NoRetryMends(old(ctl.journal), ctl.journal)
      // Success is a session that existed neither at entry nor at this call's last `connect`, as the last poll saw it.
      ensures err.None? ==> NewSession(ctl.journal, ctl.polled, location, protocol)
      ensures err.None? ==> ctl.daemon.sessions >= ctl.polled.sessions > old(ctl.daemon.sessions)
      ensures err.None? ==> |Connects(ctl.journal)| > |Connects(old(ctl.journal))| && connectedAt == Some(ctl.now)
      ensures ctl.daemon.sessions >= old(ctl.daemon.sessions) && ctl.now >= old(ctl.now)
      ensures err.Some? ==> connectedAt == old(connectedAt) || connectedAt == None
    {
      hide Connects, Doubled, NewSession, AllOpening, Caused, Retried, Paced, NotSeenConnected, NoRetryMends;
      var attempt, delay := 1, t.retryDelay;
      DoubledSteps(t.retryDelay);
      NothingIssued(ctl.journal, location, protocol, t.retryDelay);
      RetriedBounds(Connects(ctl.journal), Connects(ctl.journal));
      while attempt <= CONNECT_RETRIES
        invariant 1 <= attempt <= CONNECT_RETRIES + 1
        invariant delay == Doubled(t.retryDelay, attempt - 1)
        invariant Kept(old(ctl.journal), ctl.journal, location, protocol, t.retryDelay)
        invariant |Connects(ctl.journal)| == |Connects(old(ctl.journal))| + attempt - 1
        invariant Retried(Connects(old(ctl.journal)), Connects(ctl.journal), |Connects(ctl.journal)|)
        invariant 1 < attempt <= CONNECT_RETRIES ==>
                    ctl.now >= Connects(ctl.journal)[|Connects(ctl.journal)| - 1].at + Doubled(t.retryDelay, attempt - 2)
        invariant ctl.daemon.sessions >= old(ctl.daemon.sessions) && ctl.now >= old(ctl.now)
        invariant connectedAt == old(connectedAt) || connectedAt == None
        invariant attempt > 1 ==> NotSeenConnected(ctl.journal, ctl.raw)
        decreases CONNECT_RETRIES + 1 - attempt
      {
        var r := NextAttempt(location, protocol, attempt, old(ctl.journal));
        match r {
          case Established => return None;
          case GiveUp(e) => return Some(e);
          case Retry =>
        }
        if attempt < CONNECT_RETRIES {
          var cancelled := Pause(delay);
          if cancelled {
            CancelledIsCause(old(ctl.journal), ctl.journal, ctl.now, t);
            RetriedBounds(Connects(old(ctl.journal)), Connects(ctl.journal));
            return Some(Cancelled);
          }
        }
        delay := delay * 2;
        attempt := attempt + 1;
      }
      err := Some(ConnectFailed);
      RetriedBounds(Connects(old(ctl.journal)), Connects(ctl.journal));
    }

    /** The attempt of that number in a call entered with journal `was`. */
    method NextAttempt(location: string, protocol: string, attempt: nat, ghost was: seq<Issued>) returns (r: Attempt)
      requires Valid() && 1 <= attempt <= CONNECT_RETRIES
      requires Kept(was, ctl.journal, location, protocol, t.retryDelay)
      requires |Connects(ctl.journal)| == |Connects(was)| + attempt - 1
      requires Retried(Connects(was), Connects(ctl.journal), |Connects(ctl.journal)|)
      requires attempt > 1 ==>
                 ctl.now >= Connects(ctl.journal)[|Connects(ctl.journal)| - 1].at + Doubled(t.retryDelay, attempt - 2)
      modifies this`connectedAt, ctl
      ensures Kept(was, ctl.journal, location, protocol, t.retryDelay)
      ensures !r.GiveUp? ==> |Connects(ctl.journal)| == |Connects(was)| + attempt
      ensures Retried(Connects(was), Connects(ctl.journal), |Connects(ctl.journal)| - 1)
      ensures r.Retry? ==> Retried(Connects(was), Connects(ctl.journal), |Connects(ctl.journal)|)
      ensures r.Retry? ==> ctl.now >= Connects(ctl.journal)[|Connects(ctl.journal)| - 1].at
      ensures r.GiveUp? ==> r.error != ConnectFailed && Caused(r.error, was, ctl.journal, ctl.now, ctl.cancelled, t)
      ensures r.GiveUp? ==> NoRetryMends(was, ctl.journal)
      ensures r.Retry? ==> NotSeenConnected(ctl.journal, ctl.raw)
      ensures r.Established? ==> NewSession(ctl.journal, ctl.polled, location, protocol)
      ensures r.Established? ==> ctl.daemon.sessions >= ctl.polled.sessions > old(ctl.daemon.sessions)
      ensures ctl.now >= old(ctl.now) && ctl.daemon.sessions >= old(ctl.daemon.sessions)
      ensures if r.Established? then connectedAt == Some(ctl.now) else connectedAt == old(connectedAt) || connectedAt == None
    {
      hide Connects, Doubled, NewSession, AllOpening, Caused, Retried;
      ghost var journal, start := ctl.journal, ctl.now;
      r := OneAttempt(location, protocol);
      AllOpeningAppend(was, journal, ctl.journal, location, protocol);
      PacedStep(Connects(was), Connects(journal), Connects(ctl.journal), t.retryDelay, start);
      RetriedStep(Connects(was), Connects(journal), Connects(ctl.journal));
      if r.GiveUp? {
        CausedSince(r.error, was, journal, ctl.journal, ctl.now, ctl.cancelled, t);
      }
    }

    /** The wait between two attempts, cut short when the caller's context is done. */
    method Pause(delay: nat) returns (cancelled: bool)
      modifies ctl`daemon, ctl`now, ctl`cancelled
      ensures cancelled ==> ctl.cancelled
      ensures !cancelled ==> ctl.now >= old(ctl.now) + delay
      ensures ctl.now >= old(ctl.now) && ctl.daemon.sessions >= old(ctl.daemon.sessions)
    {
      cancelled := ctl.IsCancelled();
      if !cancelled {
        ctl.Elapse(delay);
        DriftKeepsSessions(old(ctl.daemon), ctl.daemon);
      }
    }
  }

  /** What a call has kept so far: `connect` and `set protocol` issued as they should be, and the `connect`s paced. */
  ghost predicate Kept(was: seq<Issued>, journal: seq<Issued>, location: string, protocol: string, delay: nat) {
    && Extends(was, journal) && AllOpening(journal[|was|..], location, protocol)
    && Paced(Connects(was), Connects(journal), delay)
  }

  lemma NothingIssued(journal: seq<Issued>, location: string, protocol: string, delay: nat)
    ensures Kept(journal, journal, location, protocol, delay)
  {
  }

  /** What a call that issued the commands beyond `was` may answer with: its last command's own error, a disconnect that
      timed out, or the caller's cancellation. */
  ghost predicate Caused(e: DriverError, was: seq<Issued>, journal: seq<Issued>, now: nat, cancelled: bool, t: Timings) {
    || (e == Cancelled && cancelled)
    || (|journal| > |was| &&
        var last := journal[|journal| - 1];
        || last.answer == Some(e)
        || (e == DisconnectFailed && last.command == Disconnect && last.answer == None && now > last.at + t.disconnectTimeout))
  }

  /** The last of the commands beyond `was` is no `connect`, or one answered with an error that no retry mends. */
  ghost predicate NoRetryMends(was: seq<Issued>, journal: seq<Issued>) {
    |journal| > |was| && (journal[|journal| - 1].command.ConnectTo? ==> !Retryable(journal[|journal| - 1]))
  }

  ghost predicate NotSeenConnected(journal: seq<Issued>, raw: Option<RawState>) {
    journal != [] && (journal[|journal| - 1].answer.Some? || raw != Some(Connected))
  }

  predicate Retryable(c: Issued) {
    c.answer != Some(UnknownLocation) && c.answer != Some(NotLoggedIn)
  }

  ghost predicate Retried(was: seq<Issued>, connects: seq<Issued>, to: int) {
    forall i | |was| <= i < to && i < |connects| :: Retryable(connects[i])
  }

  lemma RetriedBounds(was: seq<Issued>, connects: seq<Issued>)
    ensures Retried(was, was, |was|)
    ensures Retried(was, connects, |connects|) ==> Retried(was, connects, |connects| - 1)
  {
  }

  lemma RetriedStep(was: seq<Issued>, mid: seq<Issued>, now: seq<Issued>)
    requires Retried(was, mid, |mid|) && |mid| >= |was|
    requires now == mid || (|now| == |mid| + 1 && now[..|mid|] == mid)
    ensures Retried(was, now, |now| - 1)
    ensures now != [] && Retryable(now[|now| - 1]) ==> Retried(was, now, |now|)
  {
    forall i | 0 <= i < |mid| ensures now[i] == mid[i] { assert now == mid || now[..|mid|][i] == mid[i]; }
  }

  lemma CausedSince(e: DriverError, was: seq<Issued>, mid: seq<Issued>, journal: seq<Issued>, now: nat, cancelled: bool, t: Timings)
    requires |mid| >= |was| && Caused(e, mid, journal, now, cancelled, t)
    ensures Caused(e, was, journal, now, cancelled, t)
  {
  }

  lemma CancelledIsCause(was: seq<Issued>, journal: seq<Issued>, now: nat, t: Timings)
    ensures Caused(Cancelled, was, journal, now, true, t)
  {
  }

  datatype Attempt = Established | Retry | GiveUp(error: DriverError)

  function Doubled(delay: nat, times: nat): nat {
    if times == 0 then delay else 2 * Doubled(delay, times - 1)
  }

  lemma DoubledSteps(delay: nat)
    ensures Doubled(delay, 0) == delay && forall n: nat :: Doubled(delay, n + 1) == 2 * Doubled(delay, n)
  {
  }

  ghost predicate Extends(was: seq<Issued>, now: seq<Issued>) {
    |now| >= |was| && now[..|was|] == was
  }

  lemma AllOpeningAppend(a: seq<Issued>, b: seq<Issued>, c: seq<Issued>, location: string, protocol: string)
    requires Extends(a, b) && Extends(b, c)
    requires AllOpening(b[|a|..], location, protocol) && AllOpening(c[|b|..], location, protocol)
    ensures Extends(a, c) && AllOpening(c[|a|..], location, protocol)
  {
    assert c[|a|..] == b[|a|..] + c[|b|..];
  }

  ghost predicate AtMostOneConnect(was: seq<Issued>, now: seq<Issued>, from: nat, to: nat) {
    || Connects(now) == Connects(was)
    || (|Connects(now)| == |Connects(was)| + 1 && Connects(now)[..|Connects(was)|] == Connects(was)
        && from <= Connects(now)[|Connects(was)|].at <= to)
  }

  /** At most three more `connect`s, the next one no sooner than the doubling delay allows. */
  ghost predicate Paced(was: seq<Issued>, now: seq<Issued>, delay: nat) {
    && |was| <= |now| <= |was| + CONNECT_RETRIES && now[..|was|] == was
    && forall i | |was| < i < |now| :: now[i].at >= now[i - 1].at + Doubled(delay, i - |was| - 1)
  }

  lemma PacedStep(was: seq<Issued>, mid: seq<Issued>, now: seq<Issued>, delay: nat, from: nat)
    requires Paced(was, mid, delay) && |mid| < |was| + CONNECT_RETRIES
    requires |mid| > |was| ==> from >= mid[|mid| - 1].at + Doubled(delay, |mid| - |was| - 1)
    requires now == mid || (|now| == |mid| + 1 && now[..|mid|] == mid && now[|mid|].at >= from)
    ensures Paced(was, now, delay)
  {
    forall i | 0 <= i < |mid| ensures now[i] == mid[i] { assert now == mid || now[..|mid|][i] == mid[i]; }
    assert mid[..|was|] == now[..|was|];
  }

  /** The polled daemon is connected, in a session that began after the last `connect`, with the requested settings. */
  ghost predicate NewSession(journal: seq<Issued>, polled: Daemon, location: string, protocol: string) {
    && |Connects(journal)| > 0
    && polled.state == Connected
    && polled.sessions > Connects(journal)[|Connects(journal)| - 1].executedBy.sessions
    && polled.location == Target(location)
    && polled.protocol == Connects(journal)[|Connects(journal)| - 1].executedBy.pending
    && (protocol != "" ==> polled.protocol == ProtocolToCLI(protocol))
  }
}
