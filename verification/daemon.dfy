/** The sequential logic of the relay daemon: the socket path daemon and
    client agree on, the status cache, the request dispatch with bounded
    retry, and the "smart" entry points that go through the daemon when
    it answers and drive the device directly otherwise. */
module Daemon {
  import opened Base
  import opened Codec
  import opened Client
  import opened Controller

  // ---------------------------------------------------------------------
  // Socket path

  /** port.replace('/', '_'). */
  function ReplaceSlash(port: string): (s: string)
    ensures |s| == |port|
    ensures forall i :: 0 <= i < |s| ==> s[i] == (if port[i] == '/' then '_' else port[i])
  {
    seq(|port|, i requires 0 <= i < |port| => if port[i] == '/' then '_' else port[i])
  }

  /** The file name of the daemon's Unix socket for a port. */
  function SocketName(port: string): string {
    "usb_relay_daemon_" + ReplaceSlash(port) + ".sock"
  }

  /** The socket path: the name inside the temporary directory. */
  function SocketPath(tempDir: string, port: string): (path: string)
    ensures |path| == |tempDir| + |port| + 23
    ensures path[..|tempDir|] == tempDir && path[|tempDir|] == '/'
  {
    tempDir + "/" + SocketName(port)
  }

  /** The socket stays inside the temporary directory: its name holds no
      '/', whatever the port name holds. */
  lemma SocketNameFlat(tempDir: string, port: string)
    ensures forall i :: 0 <= i < |SocketName(port)| ==> SocketName(port)[i] != '/'
    ensures SocketPath(tempDir, port)[..|tempDir| + 1] == tempDir + "/"
    ensures SocketPath(tempDir, port)[|tempDir| + 1..] == SocketName(port)
  {
    var name := SocketName(port);
    var prefix := "usb_relay_daemon_";
    assert name == prefix + ReplaceSlash(port) + ".sock";
    forall i | 0 <= i < |name|
      ensures name[i] != '/'
    {
      if i < |prefix| {
        assert name[i] == prefix[i];
      } else if i < |prefix| + |port| {
        assert name[i] == ReplaceSlash(port)[i - |prefix|];
      } else {
        assert name[i] == ".sock"[i - |prefix| - |port|];
      }
    }
    assert SocketPath(tempDir, port) == (tempDir + "/") + name;
  }

  /** Different ports without '_' in their names get different sockets. */
  lemma SocketPathInjective(tempDir: string, p: string, q: string)
    requires forall i :: 0 <= i < |p| ==> p[i] != '_'
    requires forall i :: 0 <= i < |q| ==> q[i] != '_'
    requires SocketPath(tempDir, p) == SocketPath(tempDir, q)
    ensures p == q
  {
    var prefix := tempDir + "/" + "usb_relay_daemon_";
    assert SocketPath(tempDir, p) == prefix + ReplaceSlash(p) + ".sock";
    assert SocketPath(tempDir, q) == prefix + ReplaceSlash(q) + ".sock";
    assert |p| == |q|;
    assert ReplaceSlash(p) == SocketPath(tempDir, p)[|prefix|..|prefix| + |p|];
    assert ReplaceSlash(q) == SocketPath(tempDir, q)[|prefix|..|prefix| + |q|];
    forall i | 0 <= i < |p|
      ensures p[i] == q[i]
    {
      assert ReplaceSlash(p)[i] == ReplaceSlash(q)[i];
    }
  }

  /** ...but '/' and '_' are not told apart: these two ports share one
      socket, so two daemons for them would unlink each other's. */
  lemma SocketPathCollision(tempDir: string)
    ensures SocketPath(tempDir, "/dev/tty_1") == SocketPath(tempDir, "/dev/tty/1")
  {
    assert ReplaceSlash("/dev/tty_1") == "_dev_tty_1";
    assert ReplaceSlash("/dev/tty/1") == "_dev_tty_1";
  }

  /** DaemonClient, for the path it connects to. */
  class DaemonClient {
    const port: string
    const socketPath: string

    constructor(tempDir: string, port: string)
      ensures this.port == port && socketPath == SocketPath(tempDir, port)
    {
      this.port := port;
      socketPath := SocketPath(tempDir, port);
    }
  }

  // ---------------------------------------------------------------------
  // Requests, replies and the status cache

  /** A decoded request: the command, the relay it names and, for
      set_relay, the state to set (None means toggle). */
  datatype Request = Request(command: string, relayId: int, state: Option<bool>)

  /** The reply dictionaries the daemon sends back. */
  datatype Reply =
    | Status(relayStates: seq<bool>, inputStates: seq<bool>, lastUpdate: int)
    | Done(success: bool)
    | Failed(error: Error)      // {"success": False, "error": str(e)}
    | UnknownCommand            // {"success": False, "error": "unknown command"}
  {
    /** response.get("success", False). */
    predicate Success() {
      Status? || (Done? && success)
    }
  }

  /** The cached states shown by get_status. */
  datatype Cache = Cache(relayStates: seq<bool>, inputStates: seq<bool>, lastUpdate: int)

  /** [False] * count for both lists, and time 0. */
  function InitialCache(count: int): (c: Cache)
    ensures |c.relayStates| == |c.inputStates| == (if count > 0 then count else 0)
    ensures forall i :: 0 <= i < |c.relayStates| ==> !c.relayStates[i] && !c.inputStates[i]
    ensures c.lastUpdate == 0
  {
    Cache(AllOf(count, false), AllOf(count, false), 0)
  }

  // ---------------------------------------------------------------------
  // Dispatch with retry

  const MaxRetries := 2

  /** One attempt's effect on the device (None while no controller exists)
      and what it returns or raises. */
  datatype Turn = Turn(device: Option<Ctl>, result: Result<Reply>)

  /** What _process_request_with_retry leaves and answers. */
  datatype Handled = Handled(device: Option<Ctl>, reply: Reply)

  /** set_relay: toggle when no state is given, else set it; the reply
      carries the controller's boolean. */
  function SetRelay(c: Ctl, cfg: Config, relayId: int, state: Option<bool>): (o: Outcome<Reply>)
    ensures var op := if state.None? then ToggleRelayOp(c, cfg, relayId) else SetRelayStateOp(c, cfg, relayId, state.value);
      && o.ctl == op.ctl
      && (o.result.Ok? <==> op.result.Ok?)
      && (o.result.Ok? ==> o.result.value == Done(op.result.value))
      && (o.result.Err? ==> o.result.error == op.result.error)
  {
    var op := if state.None? then ToggleRelayOp(c, cfg, relayId) else SetRelayStateOp(c, cfg, relayId, state.value);
    Outcome(op.ctl, if op.result.Err? then Err(op.result.error) else Ok(Done(op.result.value)))
  }

  /** pulse_relay: on, then off (the wait between them aside); the reply
      is success whatever the two writes returned, unless one raised. */
  function Pulse(c: Ctl, cfg: Config, relayId: int): (o: Outcome<Reply>)
    ensures var on := SetRelayStateOp(c, cfg, relayId, true);
      o.result.Ok? <==> on.result.Ok? && SetRelayStateOp(on.ctl, cfg, relayId, false).result.Ok?
    ensures o.result.Ok? ==> o.result.value == Done(true)
    ensures var on := SetRelayStateOp(c, cfg, relayId, true);
      on.result.Err? ==> o == Outcome(on.ctl, Err(on.result.error))
    ensures var on := SetRelayStateOp(c, cfg, relayId, true);
      var off := SetRelayStateOp(on.ctl, cfg, relayId, false);
      && (on.result.Ok? ==> o.ctl == off.ctl)
      && (on.result.Ok? && off.result.Err? ==> o.result == Err(off.result.error))
  {
    var on := SetRelayStateOp(c, cfg, relayId, true);
    if on.result.Err? then Outcome(on.ctl, Err(on.result.error))
    else
      var off := SetRelayStateOp(on.ctl, cfg, relayId, false);
      if off.result.Err? then Outcome(off.ctl, Err(off.result.error))
      else Outcome(off.ctl, Ok(Done(true)))
  }

  /** pulse_relay writes the switch-on and then the switch-off to the
      relay's coil, whatever the slave answered to the first write; only
      an exception stops it after the switch-on. */
  lemma DaemonPulseWritesOnThenOff(c: Ctl, cfg: Config, relayId: int)
    requires SetRelayStateOp(c, cfg, relayId, true).result.Ok?
    ensures var on := SetRelayStateOp(c, cfg, relayId, true);
      var off := SetRelayStateOp(on.ctl, cfg, relayId, false);
      var address := RelayAddress(cfg, relayId);
      && on.ctl.line.sent == c.line.sent + [Frame.BuildFrame(cfg.slaveId, WriteSingleCoilCode, SingleCoilRequest(address, true).value).value]
      && off.ctl.line.sent == on.ctl.line.sent + [Frame.BuildFrame(cfg.slaveId, WriteSingleCoilCode, SingleCoilRequest(address, false).value).value]
      && Pulse(c, cfg, relayId).ctl == off.ctl
  {
  }

  /** The body of one pass of the retry loop. */
  function Attempt(d: Option<Ctl>, cfg: Config, cache: Cache, req: Request): Turn {
    if req.command == "get_status" then
      Turn(d, Ok(Status(cache.relayStates, cache.inputStates, cache.lastUpdate)))
    else if req.command == "set_relay" then
      if d.None? then Turn(d, Err(AttributeError))
      else
        var o := SetRelay(d.value, cfg, req.relayId, req.state);
        Turn(Some(o.ctl), o.result)
    else if req.command == "pulse_relay" then
      if d.None? then Turn(d, Err(AttributeError))
      else
        var o := Pulse(d.value, cfg, req.relayId);
        Turn(Some(o.ctl), o.result)
    else
      Turn(d, Ok(UnknownCommand))
  }

  /** The loop from attempt number `attempt` on: the first attempt that
      does not raise answers; the last one's error is reported. */
  function Retry(d: Option<Ctl>, cfg: Config, cache: Cache, req: Request, attempt: nat): Handled
    requires attempt <= MaxRetries
    decreases MaxRetries - attempt
  {
    var t := Attempt(d, cfg, cache, req);
    if t.result.Ok? then Handled(t.device, t.result.value)
    else if attempt < MaxRetries then Retry(t.device, cfg, cache, req, attempt + 1)
    else Handled(t.device, Failed(t.result.error))
  }

  /** The loop written out: at most three attempts, each on the state the
      previous one left. */
  function ThreeAttempts(d: Option<Ctl>, cfg: Config, cache: Cache, req: Request): Handled {
    var t1 := Attempt(d, cfg, cache, req);
    if t1.result.Ok? then Handled(t1.device, t1.result.value)
    else
      var t2 := Attempt(t1.device, cfg, cache, req);
      if t2.result.Ok? then Handled(t2.device, t2.result.value)
      else
        var t3 := Attempt(t2.device, cfg, cache, req);
        if t3.result.Ok? then Handled(t3.device, t3.result.value)
        else Handled(t3.device, Failed(t3.result.error))
  }

  lemma RetryIsThreeAttempts(d: Option<Ctl>, cfg: Config, cache: Cache, req: Request)
    ensures Retry(d, cfg, cache, req, 0) == ThreeAttempts(d, cfg, cache, req)
  {
    var t1 := Attempt(d, cfg, cache, req);
    var t2 := Attempt(t1.device, cfg, cache, req);
    assert Retry(t2.device, cfg, cache, req, 2) == ThreeAttempts(d, cfg, cache, req) || t1.result.Ok? || t2.result.Ok?;
  }

  /** get_status answers from the cache, and an unknown command answers
      an error; neither touches the device. */
  lemma ReadOnlyCommands(d: Option<Ctl>, cfg: Config, cache: Cache, req: Request)
    requires req.command != "set_relay" && req.command != "pulse_relay"
    ensures Retry(d, cfg, cache, req, 0).device == d
    ensures req.command == "get_status" ==>
      Retry(d, cfg, cache, req, 0).reply == Status(cache.relayStates, cache.inputStates, cache.lastUpdate)
    ensures req.command != "get_status" ==> Retry(d, cfg, cache, req, 0).reply == UnknownCommand
  {
  }

  /** Without a controller, every device command fails three times. */
  lemma NoControllerFails(cfg: Config, cache: Cache, req: Request)
    requires req.command == "set_relay" || req.command == "pulse_relay"
    ensures Retry(None, cfg, cache, req, 0) == Handled(None, Failed(AttributeError))
  {
    RetryIsThreeAttempts(None, cfg, cache, req);
  }

  // ---------------------------------------------------------------------
  // Traffic bounds

  /** `after` is `before` with at most k more frames written. */
  predicate SentAtMost(before: Line, after: Line, k: nat) {
    |before.sent| <= |after.sent| <= |before.sent| + k && after.sent[..|before.sent|] == before.sent
  }

  lemma SetRelaySendsAtMostOne(c: Ctl, cfg: Config, relayId: int, state: bool)
    ensures SentAtMost(c.line, SetRelayStateOp(c, cfg, relayId, state).ctl.line, 1)
  {
    if Ready(c) {
      var address := RelayAddress(cfg, relayId);
      var request := SingleCoilRequest(address, state);
      if request.Ok? {
        ExchangeSendsAtMostOne(c.line, cfg.slaveId, WriteSingleCoilCode, request.value);
      }
    }
  }

  lemma GetRelaySendsAtMostOne(c: Ctl, cfg: Config, relayId: int)
    ensures SentAtMost(c.line, GetRelayStateOp(c, cfg, relayId).ctl.line, 1)
  {
    if Ready(c) {
      var address := RelayAddress(cfg, relayId);
      var request := ReadRequest(address, 1);
      if request.Ok? {
        ExchangeSendsAtMostOne(c.line, cfg.slaveId, ReadCoilsCode, request.value);
      }
    }
  }

  lemma SentAtMostTrans(a: Line, b: Line, c: Line, j: nat, k: nat)
    requires SentAtMost(a, b, j) && SentAtMost(b, c, k)
    ensures SentAtMost(a, c, j + k)
  {
    assert c.sent[..|a.sent|] == c.sent[..|b.sent|][..|a.sent|];
  }

  /** One attempt writes at most two frames (toggle: a read and a write;
      pulse: two writes) and creates or drops no controller. */
  lemma AttemptSendsAtMostTwo(c: Ctl, cfg: Config, cache: Cache, req: Request)
    ensures var t := Attempt(Some(c), cfg, cache, req);
      t.device.Some? && SentAtMost(c.line, t.device.value.line, 2)
  {
    var t := Attempt(Some(c), cfg, cache, req);
    if req.command == "set_relay" {
      if req.state.None? {
        var read := GetRelayStateOp(c, cfg, req.relayId);
        GetRelaySendsAtMostOne(c, cfg, req.relayId);
        if read.result.Ok? {
          SetRelaySendsAtMostOne(read.ctl, cfg, req.relayId, !read.result.value.state);
          SentAtMostTrans(c.line, read.ctl.line, t.device.value.line, 1, 1);
        }
      } else {
        SetRelaySendsAtMostOne(c, cfg, req.relayId, req.state.value);
      }
    } else if req.command == "pulse_relay" {
      var on := SetRelayStateOp(c, cfg, req.relayId, true);
      SetRelaySendsAtMostOne(c, cfg, req.relayId, true);
      if on.result.Ok? {
        SetRelaySendsAtMostOne(on.ctl, cfg, req.relayId, false);
        SentAtMostTrans(c.line, on.ctl.line, t.device.value.line, 1, 1);
      }
    }
  }

  /** A request writes at most six frames to the line, however its
      attempts fail. */
  lemma {:induction false} RetrySendsAtMostSix(c: Ctl, cfg: Config, cache: Cache, req: Request, attempt: nat)
    requires attempt <= MaxRetries
    ensures var h := Retry(Some(c), cfg, cache, req, attempt);
      h.device.Some? && SentAtMost(c.line, h.device.value.line, 2 * (MaxRetries + 1 - attempt))
    decreases MaxRetries - attempt
  {
    var t := Attempt(Some(c), cfg, cache, req);
    AttemptSendsAtMostTwo(c, cfg, cache, req);
    if t.result.Err? && attempt < MaxRetries {
      var h := Retry(t.device, cfg, cache, req, attempt + 1);
      RetrySendsAtMostSix(t.device.value, cfg, cache, req, attempt + 1);
      SentAtMostTrans(c.line, t.device.value.line, h.device.value.line, 2, 2 * (MaxRetries - attempt));
    }
  }

  // ---------------------------------------------------------------------
  // The daemon object

  class USBRelayDaemon {
    const port: string
    const slaveId: int
    const count: int
    const socketPath: string
    var controller: USBRelayController?
    var lastRelayStates: seq<bool>
    var lastInputStates: seq<bool>
    var lastStatusTime: int

    constructor(tempDir: string, port: string, slaveId: int, count: int)
      ensures this.port == port && this.slaveId == slaveId && this.count == count
      ensures socketPath == SocketPath(tempDir, port)
      ensures controller == null
      ensures Cached() == InitialCache(count)
    {
      this.port := port;
      this.slaveId := slaveId;
      this.count := count;
      socketPath := SocketPath(tempDir, port);
      controller := null;
      lastRelayStates := AllOf(count, false);
      lastInputStates := AllOf(count, false);
      lastStatusTime := 0;
    }

    function Cached(): Cache
      reads this
    {
      Cache(lastRelayStates, lastInputStates, lastStatusTime)
    }

    /** The objects the controller's state lives in. */
    function Footprint(): set<object>
      reads this
    {
      if controller != null then {controller.client} else {}
    }

    function Device(): Option<Ctl>
      reads this, controller, Footprint()
    {
      if controller != null then Some(controller.State()) else None
    }

    function Settings(): Config
      reads this
    {
      if controller != null then controller.Cfg() else Config(slaveId, 0x0000, 0x0000)
    }

    /** The device part of start: a new controller on the port, then
        connect; when that raises, stop disconnects it again. */
    method Start(opens: bool, replies: seq<seq<byte>>)
      modifies this
      ensures controller != null && fresh(controller) && fresh(controller.client)
      ensures Settings() == Config(slaveId, 0x0000, 0x0000)
      ensures var c := ConnectOp(Ctl(false, Line(None, [], replies)), opens);
        Device() == Some(if c.result.Ok? then c.ctl else DisconnectOp(c.ctl))
      ensures Cached() == old(Cached())
    {
      var created := new USBRelayController(port, slaveId, replies);
      controller := created;
      var r := created.Connect(opens);
      if r.Err? {
        created.Disconnect();
      }
    }

    method AttemptOnce(req: Request) returns (r: Result<Reply>)
      modifies Footprint()
      ensures Turn(Device(), r) == Attempt(old(Device()), Settings(), Cached(), req)
    {
      if req.command == "get_status" {
        return Ok(Status(lastRelayStates, lastInputStates, lastStatusTime));
      } else if req.command == "set_relay" {
        if controller == null {
          return Err(AttributeError);
        }
        var success;
        if req.state.None? {
          success := controller.ToggleRelay(req.relayId);
        } else {
          success := controller.SetRelayState(req.relayId, req.state.value);
        }
        if success.Err? {
          return Err(success.error);
        }
        r := Ok(Done(success.value));
      } else if req.command == "pulse_relay" {
        if controller == null {
          return Err(AttributeError);
        }
        var on := controller.TurnOnRelay(req.relayId);
        if on.Err? {
          return Err(on.error);
        }
        var off := controller.TurnOffRelay(req.relayId);
        if off.Err? {
          return Err(off.error);
        }
        r := Ok(Done(true));
      } else {
        r := Ok(UnknownCommand);
      }
    }

    method ProcessRequestWithRetry(req: Request) returns (reply: Reply)
      modifies Footprint()
      ensures Handled(Device(), reply) == Retry(old(Device()), Settings(), Cached(), req, 0)
    {
      var attempt := 0;
      while true
        invariant 0 <= attempt <= MaxRetries
        invariant Retry(Device(), Settings(), Cached(), req, attempt) == Retry(old(Device()), Settings(), Cached(), req, 0)
        decreases MaxRetries - attempt
      {
        var r := AttemptOnce(req);
        if r.Ok? {
          return r.value;
        }
        if attempt < MaxRetries {
          attempt := attempt + 1;
        } else {
          return Failed(r.error);
        }
      }
    }
  }
  // ---------------------------------------------------------------------
  // The smart entry points

  /** What the daemon side of a smart call comes to: no socket file, the
      daemon's reply to the request sent, or an exchange that raised. */
  datatype DaemonLink = NotRunning | Answer(reply: Reply) | Broken(error: Error)

  /** The request execute_relay_command_smart sends for an action. */
  function ActionRequest(relayId: int, action: string): (r: Option<Request>)
    ensures r.Some? <==> action in {"on", "off", "toggle", "pulse"}
    ensures r.Some? ==> r.value.relayId == relayId
    ensures action == "on" ==> r == Some(Request("set_relay", relayId, Some(true)))
    ensures action == "off" ==> r == Some(Request("set_relay", relayId, Some(false)))
    ensures action == "toggle" ==> r == Some(Request("set_relay", relayId, None))
    ensures action == "pulse" ==> r == Some(Request("pulse_relay", relayId, None))
  {
    if action == "on" then Some(Request("set_relay", relayId, Some(true)))
    else if action == "off" then Some(Request("set_relay", relayId, Some(false)))
    else if action == "toggle" then Some(Request("set_relay", relayId, None))
    else if action == "pulse" then Some(Request("pulse_relay", relayId, None))
    else None
  }

  /** The direct-mode action on a connected controller. */
  function DirectAction(c: Ctl, cfg: Config, relayId: int, action: string): Outcome<bool> {
    if action == "on" then SetRelayStateOp(c, cfg, relayId, true)
    else if action == "off" then SetRelayStateOp(c, cfg, relayId, false)
    else if action == "toggle" then ToggleRelayOp(c, cfg, relayId)
    else if action == "pulse" then PulseSequenceOp(c, cfg, relayId)
    else Outcome(c, Ok(false))
  }

  /** For on, off and toggle, the request the client sends makes the
      daemon do to its device what the direct path does to its own: the
      same writes, and "success" exactly when the direct call returns
      True; an exception is the same exception on both sides. */
  lemma DaemonRunsDirectAction(c: Ctl, cfg: Config, cache: Cache, relayId: int, action: string)
    requires action == "on" || action == "off" || action == "toggle"
    ensures var t := Attempt(Some(c), cfg, cache, ActionRequest(relayId, action).value);
      var o := DirectAction(c, cfg, relayId, action);
      && t.device == Some(o.ctl)
      && (t.result.Ok? <==> o.result.Ok?)
      && (o.result.Ok? ==> t.result.value.Success() == (o.result == Ok(true)))
      && (o.result.Err? ==> t.result == Err(o.result.error))
  {
    var req := ActionRequest(relayId, action).value;
    assert req.command == "set_relay";
  }

  /** When the direct action does not raise, the daemon's retry loop stops
      after its first attempt, and the smart call answers what the direct
      call would. */
  lemma DaemonAgreesWithDirect(c: Ctl, cfg: Config, cache: Cache, relayId: int, action: string,
                               slaveId: int, opens: bool, replies: seq<seq<byte>>)
    requires action == "on" || action == "off" || action == "toggle"
    requires DirectAction(c, cfg, relayId, action).result.Ok?
    ensures var h := Retry(Some(c), cfg, cache, ActionRequest(relayId, action).value, 0);
      var o := DirectAction(c, cfg, relayId, action);
      && h.device == Some(o.ctl)
      && SmartCommand(Answer(h.reply), slaveId, relayId, action, opens, replies) == (o.result == Ok(true))
  {
    DaemonRunsDirectAction(c, cfg, cache, relayId, action);
  }

  /** The controller a direct-mode call builds. */
  function Fresh(slaveId: int, replies: seq<seq<byte>>): (Ctl, Config) {
    (Ctl(false, Line(None, [], replies)), Config(slaveId, 0x0000, 0x0000))
  }

  /** `with USBRelayController(port, slave_id) as controller:` around an
      action: connect (a failure skips the block), run it, disconnect on
      the way out whatever happened. */
  function DirectRun(slaveId: int, relayId: int, action: string, opens: bool, replies: seq<seq<byte>>): (o: Outcome<bool>)
    ensures !o.ctl.connected && !Connected(o.ctl.line)
    ensures !opens ==> o == Outcome(Ctl(false, Line(None, [], replies)), Err(PortOpenFailed))
  {
    var (c0, cfg) := Fresh(slaveId, replies);
    var conn := ConnectOp(c0, opens);
    if conn.result.Err? then Outcome(conn.ctl, Err(conn.result.error))
    else
      var o := DirectAction(conn.ctl, cfg, relayId, action);
      Outcome(DisconnectOp(o.ctl), o.result)
  }

  /** execute_relay_command_smart: the daemon's "success" when it answers,
      False for an action it does not know, and otherwise the direct
      run's boolean, any exception reading as False. */
  function SmartCommand(link: DaemonLink, slaveId: int, relayId: int, action: string, opens: bool, replies: seq<seq<byte>>): bool {
    if !link.NotRunning? && ActionRequest(relayId, action).None? then false
    else if link.Answer? then link.reply.Success()
    else DirectRun(slaveId, relayId, action, opens, replies).result == Ok(true)
  }

  method ExecuteRelayCommandSmart(port: string, slaveId: int, relayId: int, action: string,
                                  link: DaemonLink, opens: bool, replies: seq<seq<byte>>)
    returns (ok: bool)
    ensures ok == SmartCommand(link, slaveId, relayId, action, opens, replies)
  {
    if !link.NotRunning? {
      var request := ActionRequest(relayId, action);
      if request.None? {
        return false;
      }
      if link.Answer? {
        return link.reply.Success();
      }
    }
    var controller := new USBRelayController(port, slaveId, replies);
    var connected := controller.Connect(opens);
    if connected.Err? {
      return false;
    }
    ghost var before := controller.State();
    var r: Result<bool>;
    if action == "on" {
      r := controller.TurnOnRelay(relayId);
    } else if action == "off" {
      r := controller.TurnOffRelay(relayId);
    } else if action == "toggle" {
      r := controller.ToggleRelay(relayId);
    } else if action == "pulse" {
      var sequence := new RelaySequence(controller);
      r := sequence.PulseRelay(relayId);
    } else {
      r := Ok(false);
    }
    assert Outcome(controller.State(), r) == DirectAction(before, controller.Cfg(), relayId, action);
    controller.Disconnect();
    ok := r == Ok(true);
  }

  /** An action the client does not know is False on both paths. */
  lemma UnknownActionFails(link: DaemonLink, slaveId: int, relayId: int, action: string, opens: bool, replies: seq<seq<byte>>)
    requires action !in {"on", "off", "toggle", "pulse"}
    ensures !SmartCommand(link, slaveId, relayId, action, opens, replies)
  {
  }

  /** Through the daemon a pulse reports success even when the slave
      refuses to switch the relay on; the direct path stops after that
      refusal, writes nothing more and reports False. */
  lemma PulsePathsDisagree(c: Ctl, cfg: Config, relayId: int)
    requires SetRelayStateOp(c, cfg, relayId, true).result == Ok(false)
    requires SetRelayStateOp(SetRelayStateOp(c, cfg, relayId, true).ctl, cfg, relayId, false).result.Ok?
    ensures Pulse(c, cfg, relayId).result == Ok(Done(true))
    ensures PulseSequenceOp(c, cfg, relayId) == SetRelayStateOp(c, cfg, relayId, true)
    ensures PulseSequenceOp(c, cfg, relayId).result == Ok(false)
  {
  }

  /** End to end: with no daemon and a slave that echoes the write,
      "on" writes exactly one frame, the single-coil write of 0xFF00 to
      the relay's coil, and reports True. */
  lemma DirectOnAcknowledged(slaveId: int, relayId: int, replies: seq<seq<byte>>)
    requires IsU8(slaveId) && IsU16(relayId - 1) && |replies| > 0
    requires replies[0]
      == Frame.BuildFrame(slaveId, WriteSingleCoilCode, SingleCoilRequest(relayId - 1, true).value).value
    ensures SmartCommand(NotRunning, slaveId, relayId, "on", true, replies)
    ensures DirectRun(slaveId, relayId, "on", true, replies).ctl.line.sent
      == [Frame.BuildFrame(slaveId, WriteSingleCoilCode, SingleCoilRequest(relayId - 1, true).value).value]
  {
    var (c0, cfg) := Fresh(slaveId, replies);
    var c := ConnectOp(c0, true).ctl;
    var address := relayId - 1;
    assert RelayAddress(cfg, relayId) == address;
    var request := SingleCoilRequest(address, true);
    WriteAcknowledged(c.line, slaveId, WriteSingleCoilCode, address, CoilValue(true), request.value);
    ExchangeSendsAtMostOne(c.line, slaveId, WriteSingleCoilCode, request.value);
  }

  /** [s.state for s in relay_states]. */
  function RelayFlags(list: seq<RelayState>): (flags: seq<bool>)
    ensures |flags| == |list|
    ensures forall i :: 0 <= i < |list| ==> flags[i] == list[i].state
  {
    seq(|list|, i requires 0 <= i < |list| => list[i].state)
  }

  function InputFlags(list: seq<InputState>): (flags: seq<bool>)
    ensures |flags| == |list|
    ensures forall i :: 0 <= i < |list| ==> flags[i] == list[i].state
  {
    seq(|list|, i requires 0 <= i < |list| => list[i].state)
  }

  /** get_status_smart's direct mode: all relays, then all inputs, each
      from number 1; `now` is the time.time() the reply carries. */
  function DirectStatus(slaveId: int, count: int, opens: bool, replies: seq<seq<byte>>, now: int): (o: Outcome<Reply>)
    ensures !o.ctl.connected && !Connected(o.ctl.line)
  {
    var (c0, cfg) := Fresh(slaveId, replies);
    var conn := ConnectOp(c0, opens);
    if conn.result.Err? then Outcome(conn.ctl, Err(conn.result.error))
    else
      var relays := GetRelayStatesOp(conn.ctl, cfg, 1, count);
      if relays.result.Err? then Outcome(DisconnectOp(relays.ctl), Err(relays.result.error))
      else
        var inputs := GetInputStatesOp(relays.ctl, cfg, 1, count);
        if inputs.result.Err? then Outcome(DisconnectOp(inputs.ctl), Err(inputs.result.error))
        else
          Outcome(DisconnectOp(inputs.ctl),
            Ok(Status(RelayFlags(relays.result.value), InputFlags(inputs.result.value), now)))
  }

  /** get_status_smart: the daemon's reply when it answers, else the
      direct reading, an exception becoming a failure reply. */
  function StatusSmart(link: DaemonLink, slaveId: int, count: int, opens: bool, replies: seq<seq<byte>>, now: int): Reply {
    if link.Answer? then link.reply
    else
      var o := DirectStatus(slaveId, count, opens, replies, now);
      if o.result.Ok? then o.result.value else Failed(o.result.error)
  }

  method GetStatusSmart(port: string, slaveId: int, count: int, link: DaemonLink,
                        opens: bool, replies: seq<seq<byte>>, now: int)
    returns (reply: Reply)
    ensures reply == StatusSmart(link, slaveId, count, opens, replies, now)
  {
    if link.Answer? {
      return link.reply;
    }
    var controller := new USBRelayController(port, slaveId, replies);
    var connected := controller.Connect(opens);
    if connected.Err? {
      return Failed(connected.error);
    }
    var relays := controller.GetAllRelayStates(count);
    if relays.Err? {
      controller.Disconnect();
      return Failed(relays.error);
    }
    var inputs := controller.GetAllInputStates(count);
    controller.Disconnect();
    if inputs.Err? {
      return Failed(inputs.error);
    }
    reply := Status(RelayFlags(relays.value), InputFlags(inputs.value), now);
  }

  /** A slave reporting coil states `relays` answers the read of all
      relays from relay 1 with them, and the reply is used up. */
  lemma RelaysFromDevice(c: Ctl, cfg: Config, relays: seq<bool>)
    requires Ready(c) && IsU8(cfg.slaveId) && cfg.relayStartAddress == 0 && |relays| <= 2040
    requires NextReply(c.line.incoming)
      == Frame.BuildFrame(cfg.slaveId, ReadCoilsCode, [((|relays| + 7) / 8) as byte] + PackBits(relays)).value
    ensures var r := GetRelayStatesOp(c, cfg, 1, |relays|);
      && r.result.Ok? && RelayFlags(r.result.value) == relays
      && Ready(r.ctl) && r.ctl.line.incoming == Rest(c.line.incoming)
  {
    ReadBitsFromDevice(c.line, cfg.slaveId, ReadCoilsCode, 0, relays);
  }

  lemma InputsFromDevice(c: Ctl, cfg: Config, inputs: seq<bool>)
    requires Ready(c) && IsU8(cfg.slaveId) && cfg.inputStartAddress == 0 && |inputs| <= 2040
    requires NextReply(c.line.incoming)
      == Frame.BuildFrame(cfg.slaveId, ReadDiscreteInputsCode, [((|inputs| + 7) / 8) as byte] + PackBits(inputs)).value
    ensures var r := GetInputStatesOp(c, cfg, 1, |inputs|);
      r.result.Ok? && InputFlags(r.result.value) == inputs
  {
    ReadBitsFromDevice(c.line, cfg.slaveId, ReadDiscreteInputsCode, 0, inputs);
  }

  /** End to end: with no daemon, a slave that reports relay states
      `relays` and input states `inputs` yields exactly those lists. */
  lemma StatusFromDevice(slaveId: int, relays: seq<bool>, inputs: seq<bool>, replies: seq<seq<byte>>, now: int)
    requires IsU8(slaveId) && |relays| == |inputs| <= 2040 && |replies| >= 2
    requires replies[0]
      == Frame.BuildFrame(slaveId, ReadCoilsCode, [((|relays| + 7) / 8) as byte] + PackBits(relays)).value
    requires replies[1]
      == Frame.BuildFrame(slaveId, ReadDiscreteInputsCode, [((|inputs| + 7) / 8) as byte] + PackBits(inputs)).value
    ensures StatusSmart(NotRunning, slaveId, |relays|, true, replies, now) == Status(relays, inputs, now)
  {
    var (c0, cfg) := Fresh(slaveId, replies);
    var c := ConnectOp(c0, true).ctl;
    RelaysFromDevice(c, cfg, relays);
    var r := GetRelayStatesOp(c, cfg, 1, |relays|);
    InputsFromDevice(r.ctl, cfg, inputs);
  }
}
