/**
 * The command dispatcher of the camera application (cam_app/fsw/src/cam_app_dispatch.c):
 * a message is routed by its message ID, then by its command code; each known command
 * passes a length check before its handler runs, and a failed check counts an error.
 *
 * The numeric values of the message IDs and command codes, and the sizes of the
 * command structures, come from headers that are not part of this model: the IDs and
 * codes are enumerations here, and the expected size of each command is a parameter
 * `sizes`. Route is the decision as a function; TaskPipe and ProcessGroundCommand are
 * the C functions as methods over the application state, proved to agree with
 * TaskPipeSpec.
 */
module CamDispatch {
  import opened Bytes
  import opened CamEvents
  import C = CamCmds

  /** CAM_APP_CMD_MID, CAM_APP_SEND_HK_MID, or any other message ID. */
  datatype MsgId = CmdMid | SendHkMid | OtherMid(value: nat)

  /** The command codes the ground-command switch knows. */
  datatype Command =
    | Noop | ResetCounters | Process | DisplayParam | ShotPeriod
    | ShotStart | ShotStop | SecurityStart | SecurityStop | SecurityKey

  datatype FcnCode = Known(cmd: Command) | Unknown(code: nat)

  /**
   * A command packet: its ID, code and actual length, and the payload fields the
   * handlers read (the period of ShotPeriod, the 32-byte key of SecurityKey).
   */
  datatype Message = Message(mid: MsgId, fcn: FcnCode, length: nat, period: uint16, key: C.KeyBytes)

  /** What the dispatcher does with a message. */
  datatype Action =
    | Invoke(cmd: Command)
    | RejectLength(cmd: Command)
    | RejectCode
    | Housekeeping
    | RejectMid

  /**
   * The routing decision of CAM_APP_TaskPipe and CAM_APP_ProcessGroundCommand: exactly
   * one action per message, a handler only for a ground command of known code and
   * matching length, housekeeping whatever the length.
   */
  function Route(msg: Message, sizes: Command -> nat): (a: Action)
    ensures a.Invoke? <==> msg.mid == CmdMid && msg.fcn.Known? && msg.length == sizes(msg.fcn.cmd)
    ensures a.RejectLength? <==> msg.mid == CmdMid && msg.fcn.Known? && msg.length != sizes(msg.fcn.cmd)
    ensures a.Invoke? || a.RejectLength? ==> a.cmd == msg.fcn.cmd
    ensures a == RejectCode <==> msg.mid == CmdMid && msg.fcn.Unknown?
    ensures a == Housekeeping <==> msg.mid == SendHkMid
    ensures a == RejectMid <==> msg.mid.OtherMid?
  {
    match msg.mid
    case CmdMid =>
      (match msg.fcn
       case Unknown(_) => RejectCode
       case Known(cmd) => if sizes(cmd) != msg.length then RejectLength(cmd) else Invoke(cmd))
    case SendHkMid => Housekeeping
    case OtherMid(_) => RejectMid
  }

  /** The handler of a command, as a function of the state. */
  function Handle(s: C.Ctl, cmd: Command, msg: Message): C.Ctl {
    match cmd
    case Noop => C.Noop(s)
    case ResetCounters => C.ResetCounters(s)
    case Process => C.Process(s)
    case DisplayParam => C.DisplayParam(s)
    case ShotPeriod => C.ShotPeriod(s, msg.period)
    case ShotStart => C.ShotStart(s)
    case ShotStop => C.ShotStop(s)
    case SecurityStart => C.SecurityStart(s)
    case SecurityStop => C.SecurityStop(s)
    case SecurityKey => C.SetKey(s, msg.key)
  }

  /** CAM_APP_VerifyCmdLength: whether the lengths agree, and the state afterwards. */
  function VerifyLength(s: C.Ctl, actual: nat, expected: nat): (r: (bool, C.Ctl))
    ensures r.0 <==> actual == expected
    ensures r.0 ==> r.1 == s
    ensures !r.0 ==> r.1.errCounter as int == (s.errCounter as int + 1) % 0x100
    ensures !r.0 ==> r.1 == s.(errCounter := r.1.errCounter, events := s.events + [Err(CmdLenErrEid)])
  {
    if expected != actual then
      (false, s.(errCounter := Inc8(s.errCounter), events := s.events + [Err(CmdLenErrEid)]))
    else
      (true, s)
  }

  function ProcessGroundCommandSpec(s: C.Ctl, msg: Message, sizes: Command -> nat): C.Ctl {
    match msg.fcn
    case Unknown(_) => s.(events := s.events + [Err(CcErrEid)])
    case Known(cmd) =>
      var (ok, t) := VerifyLength(s, msg.length, sizes(cmd));
      if ok then Handle(t, cmd, msg) else t
  }

  function TaskPipeSpec(s: C.Ctl, msg: Message, sizes: Command -> nat): C.Ctl {
    match msg.mid
    case CmdMid => ProcessGroundCommandSpec(s, msg, sizes)
    case SendHkMid => C.SendHk(s)
    case OtherMid(_) => s.(events := s.events + [Err(MidErrEid)])
  }

  // ---------------------------------------------------------------------------
  // Properties of the dispatcher
  // ---------------------------------------------------------------------------

  /** The effect of a message is the effect of its routing decision: at most one handler runs. */
  lemma TaskPipeFollowsRoute(s: C.Ctl, msg: Message, sizes: Command -> nat)
    ensures var t, a := TaskPipeSpec(s, msg, sizes), Route(msg, sizes);
      && (a.Invoke? ==> t == Handle(s, a.cmd, msg))
      && (a.RejectLength? ==> t == s.(errCounter := Inc8(s.errCounter), events := s.events + [Err(CmdLenErrEid)]))
      && (a == RejectCode ==> t == s.(events := s.events + [Err(CcErrEid)]))
      && (a == Housekeeping ==> t == C.SendHk(s))
      && (a == RejectMid ==> t == s.(events := s.events + [Err(MidErrEid)]))
  {
  }

  /**
   * A known command of the wrong length leaves the period, both flags, the key, the
   * workers and the command counter as they were; only the error counter moves.
   */
  lemma WrongLengthOnlyCountsError(s: C.Ctl, msg: Message, sizes: Command -> nat)
    requires Route(msg, sizes).RejectLength?
    ensures var t := TaskPipeSpec(s, msg, sizes);
      && t.errCounter as int == (s.errCounter as int + 1) % 0x100
      && t.cmdCounter == s.cmdCounter && t.period == s.period
      && t.stopCommand == s.stopCommand && t.securityCommand == s.securityCommand
      && t.key == s.key && t.workers == s.workers && t.handleLive == s.handleLive
      && t.files == s.files && t.hk == s.hk
  {
    TaskPipeFollowsRoute(s, msg, sizes);
  }

  /** An unknown command code raises an event and counts nothing. */
  lemma UnknownCodeCountsNothing(s: C.Ctl, msg: Message, sizes: Command -> nat)
    requires msg.mid == CmdMid && msg.fcn.Unknown?
    ensures TaskPipeSpec(s, msg, sizes) == s.(events := s.events + [Err(CcErrEid)])
  {
  }

  /** An unknown message ID raises an event and changes no counter. */
  lemma UnknownMidCountsNothing(s: C.Ctl, msg: Message, sizes: Command -> nat)
    requires msg.mid.OtherMid?
    ensures TaskPipeSpec(s, msg, sizes) == s.(events := s.events + [Err(MidErrEid)])
  {
  }

  /** The housekeeping request is served with no length check. */
  lemma HousekeepingSkipsLengthCheck(s: C.Ctl, msg: Message, sizes: Command -> nat, n: nat)
    requires msg.mid == SendHkMid
    ensures TaskPipeSpec(s, msg.(length := n), sizes) == TaskPipeSpec(s, msg, sizes) == C.SendHk(s)
  {
  }

  /**
   * The non-zero status ShotPeriodCmd returns is discarded: a well-formed period
   * command sets the period and never counts as an error.
   */
  lemma ShotPeriodNeverCountsError(s: C.Ctl, msg: Message, sizes: Command -> nat)
    requires Route(msg, sizes) == Invoke(ShotPeriod)
    ensures TaskPipeSpec(s, msg, sizes).period == msg.period
    ensures TaskPipeSpec(s, msg, sizes).errCounter == s.errCounter
  {
    TaskPipeFollowsRoute(s, msg, sizes);
  }

  /** Only a no-op or a reset command moves the command counter. */
  lemma {:induction false} CmdCounterMovers(s: C.Ctl, msg: Message, sizes: Command -> nat)
    requires TaskPipeSpec(s, msg, sizes).cmdCounter != s.cmdCounter
    ensures Route(msg, sizes) == Invoke(Noop) || Route(msg, sizes) == Invoke(ResetCounters)
  {
    TaskPipeFollowsRoute(s, msg, sizes);
    var a := Route(msg, sizes);
    if a.Invoke? {
      match a.cmd
      case Noop =>
      case ResetCounters =>
      case Process =>
      case DisplayParam =>
      case ShotPeriod =>
      case ShotStart =>
      case ShotStop =>
      case SecurityStart =>
      case SecurityStop =>
      case SecurityKey =>
    }
  }

  /** Only a length error or a reset command moves the error counter. */
  lemma {:induction false} ErrCounterMovers(s: C.Ctl, msg: Message, sizes: Command -> nat)
    requires TaskPipeSpec(s, msg, sizes).errCounter != s.errCounter
    ensures Route(msg, sizes).RejectLength? || Route(msg, sizes) == Invoke(ResetCounters)
  {
    TaskPipeFollowsRoute(s, msg, sizes);
  }

  /** Dispatching a message keeps the state consistent. */
  lemma TaskPipePreservesConsistent(s: C.Ctl, msg: Message, sizes: Command -> nat)
    requires C.Consistent(s)
    ensures C.Consistent(TaskPipeSpec(s, msg, sizes))
  {
    TaskPipeFollowsRoute(s, msg, sizes);
    C.HandlersPreserveConsistent(s, msg.period, msg.key);
  }

  // ---------------------------------------------------------------------------
  // The dispatcher over the application state
  // ---------------------------------------------------------------------------

  method VerifyCmdLength(app: C.CamApp, actual: nat, expected: nat) returns (ok: bool)
    requires app.Valid()
    modifies app
    ensures app.Valid()
    ensures (ok, app.State()) == VerifyLength(old(app.State()), actual, expected)
  {
    ok := true;
    if expected != actual {
      ok := false;
      app.errCounter := Inc8(app.errCounter);
      app.events := app.events + [Err(CmdLenErrEid)];
    }
  }

  /** Calls the handler of a command; its status is discarded, as the C switch does. */
  method InvokeHandler(app: C.CamApp, cmd: Command, msg: Message)
    requires app.Valid()
    modifies app, app.key
    ensures app.Valid()
    ensures app.State() == Handle(old(app.State()), cmd, msg)
  {
    var status: int;
    match cmd {
      case Noop => status := app.NoopCmd();
      case ResetCounters => status := app.ResetCountersCmd();
      case Process => status := app.ProcessCmd();
      case DisplayParam => status := app.DisplayParamCmd();
      case ShotPeriod => status := app.ShotPeriodCmd(msg.period);
      case ShotStart => status := app.ShotStartCmd();
      case ShotStop => status := app.ShotStopCmd();
      case SecurityStart => status := app.SecurityStartCmd();
      case SecurityStop => status := app.SecurityStopCmd();
      case SecurityKey => status := app.SecurityKeyCmd(msg.key);
    }
  }

  method ProcessGroundCommand(app: C.CamApp, msg: Message, sizes: Command -> nat)
    requires app.Valid()
    modifies app, app.key
    ensures app.Valid()
    ensures app.State() == ProcessGroundCommandSpec(old(app.State()), msg, sizes)
  {
    match msg.fcn {
      case Unknown(_) =>
        app.events := app.events + [Err(CcErrEid)];
      case Known(cmd) =>
        var ok := VerifyCmdLength(app, msg.length, sizes(cmd));
        if ok {
          InvokeHandler(app, cmd, msg);
        }
    }
  }

  method TaskPipe(app: C.CamApp, msg: Message, sizes: Command -> nat)
    requires app.Valid()
    modifies app, app.key
    ensures app.Valid()
    ensures app.State() == TaskPipeSpec(old(app.State()), msg, sizes)
  {
    match msg.mid {
      case CmdMid =>
        ProcessGroundCommand(app, msg, sizes);
      case SendHkMid =>
        var status := app.SendHkCmd();
      case OtherMid(_) =>
        app.events := app.events + [Err(MidErrEid)];
    }
  }
}
