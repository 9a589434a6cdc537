/**
 * The event identifiers of the camera application (cam_app/fsw/inc/cam_app_eventids.h)
 * and the events the handlers and the capture worker raise. The text of an event is
 * kept only for the key dumps of the security-key command; other texts are left out.
 */
module CamEvents {
  import opened Bytes

  datatype EventId =
    | ReservedEid | InitInfEid | CcErrEid | NoopInfEid | ResetInfEid | MidErrEid
    | CmdLenErrEid | PipeErrEid | ValueInfEid | CrPipeErrEid | SubHkErrEid
    | SubCmdErrEid | TableRegErrEid | ShotPeriodInfEid | ShotStartInfEid
    | ShotStopInfEid | SecurityStartInfEid | SecurityStopInfEid | SecurityKeyInfEid
    | SecurityProcessingInfEid

  /** Numeric value of each identifier. */
  function Code(e: EventId): (n: nat)
    ensures n < 20
  {
    match e
    case ReservedEid => 0
    case InitInfEid => 1
    case CcErrEid => 2
    case NoopInfEid => 3
    case ResetInfEid => 4
    case MidErrEid => 5
    case CmdLenErrEid => 6
    case PipeErrEid => 7
    case ValueInfEid => 8
    case CrPipeErrEid => 9
    case SubHkErrEid => 10
    case SubCmdErrEid => 11
    case TableRegErrEid => 12
    case ShotPeriodInfEid => 13
    case ShotStartInfEid => 14
    case ShotStopInfEid => 15
    case SecurityStartInfEid => 16
    case SecurityStopInfEid => 17
    case SecurityKeyInfEid => 18
    case SecurityProcessingInfEid => 19
  }

  /** No two identifiers share a code: the twenty identifiers are the numbers 0 to 19. */
  lemma CodeInjective(a: EventId, b: EventId)
    ensures Code(a) == Code(b) ==> a == b
  {
  }

  /** CFE_EVS_EventType_INFORMATION / CFE_EVS_EventType_ERROR. */
  datatype EventType = Information | Error

  /** One call of CFE_EVS_SendEvent. */
  datatype Event = Event(id: EventId, kind: EventType, text: seq<byte>)

  function Info(id: EventId): Event { Event(id, Information, []) }

  function Err(id: EventId): Event { Event(id, Error, []) }
}
