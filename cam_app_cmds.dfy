/**
 * The command handlers of the camera application and one iteration of its capture
 * worker (cam_app/fsw/src/cam_app_cmds.c).
 *
 * The handlers update a small set of globals: the command and error counters of
 * CAM_APP_Data and its housekeeping payload, `Period`, `Stop_Command`,
 * `Start_Security_Command` and `Global_Security_Key`. The class CamApp holds them as
 * fields and has one method per handler. Ctl is the same state as a value; the spec
 * functions below (Noop, ShotStart, Cycle, ...) say what each handler does to it, the
 * methods are proved to agree with them, and the lemmas state the properties.
 *
 * The pthread worker is represented by the number of threads started and not yet
 * joined (`workers`) and by whether the global `thread` handle names one of them
 * (`handleLive`). The capture worker's `while (1)` loop is modelled one iteration at
 * a time. The files it writes and reads are a map from path to contents. The camera
 * program, the clock and the outcome of `fopen` are parameters. The block cipher of
 * security.h is a pair of functions passed in (Cipher); its round trip is an
 * assumption stated by RoundTrips, never proved.
 */
module CamCmds {
  import opened Bytes
  import opened CommonFnc
  import opened CamEvents

  /** Size of `Global_Security_Key` and of the key payload. */
  const KeySize: nat := 32

  /** CFE_SUCCESS. */
  const Success: int := 0

  type KeyBytes = s: seq<byte> | |s| == KeySize witness seq(32, _ => 0)

  /** CAM_APP_HkTlm_Payload_t (the spare words are not modelled). */
  datatype HkPayload = HkPayload(commandErrorCounter: byte, commandCounter: byte)

  /** Everything the handlers and the worker read or write. */
  datatype Ctl = Ctl(
    cmdCounter: byte,
    errCounter: byte,
    hk: HkPayload,
    period: uint16,
    stopCommand: int,
    securityCommand: int,
    key: seq<byte>,
    workers: nat,
    handleLive: bool,
    events: seq<Event>,
    files: map<string, seq<byte>>)

  /** What every reachable state satisfies. */
  predicate Consistent(s: Ctl) {
    && |s.key| == KeySize
    && (s.handleLive ==> s.workers > 0)
    && (s.stopCommand == 0 || s.stopCommand == 1)
    && (s.securityCommand == 0 || s.securityCommand == 1)
  }

  /**
   * Start-up values: zero counters, `Period` 10, both flags 0, an all-zero key, no
   * worker. Nothing clears the photo directory at start-up, so the files are whatever
   * `photos` holds.
   */
  function Initial(photos: map<string, seq<byte>>): (s: Ctl)
    ensures Consistent(s)
    ensures s.period == 10 && s.workers == 0 && !s.handleLive
    ensures s.stopCommand == 0 && s.securityCommand == 0
    ensures forall i :: 0 <= i < |s.key| ==> s.key[i] == 0
    ensures s.files == photos && s.events == []
  {
    Ctl(0, 0, HkPayload(0, 0), 10, 0, 0, seq(KeySize, _ => 0), 0, false, [], photos)
  }

  // ---------------------------------------------------------------------------
  // Handlers, as functions of the state
  // ---------------------------------------------------------------------------

  function Noop(s: Ctl): Ctl {
    s.(cmdCounter := Inc8(s.cmdCounter), events := s.events + [Info(NoopInfEid)])
  }

  function ResetCounters(s: Ctl): Ctl {
    s.(cmdCounter := 0, errCounter := 0, events := s.events + [Info(ResetInfEid)])
  }

  /** Copies the counters into the housekeeping payload (the packet transmission is left out). */
  function SendHk(s: Ctl): Ctl {
    s.(hk := HkPayload(s.errCounter, s.cmdCounter))
  }

  /** CAM_APP_ProcessCmd only reads a table and writes the system log. */
  function Process(s: Ctl): Ctl {
    s
  }

  function DisplayParam(s: Ctl): Ctl {
    s.(events := s.events + [Info(ValueInfEid)])
  }

  function ShotPeriod(s: Ctl, p: uint16): Ctl {
    s.(period := p, events := s.events + [Info(ShotPeriodInfEid)])
  }

  /** Clears the stop flag and starts one more worker, whatever is already running. */
  function ShotStart(s: Ctl): Ctl {
    s.(stopCommand := 0, workers := s.workers + 1, handleLive := true,
       events := s.events + [Info(ShotStartInfEid)])
  }

  /**
   * Sets the stop flag and joins the thread the `thread` handle names, which is the
   * last one started. A handle already joined (or never set) reaps nothing.
   */
  function ShotStop(s: Ctl): Ctl {
    s.(stopCommand := 1,
       workers := if s.handleLive && s.workers > 0 then s.workers - 1 else s.workers,
       handleLive := false,
       events := s.events + [Info(ShotStopInfEid)])
  }

  function SecurityStart(s: Ctl): Ctl {
    s.(securityCommand := 1, events := s.events + [Info(SecurityStartInfEid)])
  }

  function SecurityStop(s: Ctl): Ctl {
    s.(securityCommand := 0, events := s.events + [Info(SecurityStopInfEid)])
  }

  /**
   * Stores the 32 payload bytes as the key, dumps the received and the stored key,
   * then compares the two and reports a match or a mismatch.
   */
  function SetKey(s: Ctl, k: KeyBytes): Ctl {
    var stored := k;
    s.(key := stored,
       events := s.events + [
         Event(SecurityKeyInfEid, Information, KeyString(k)),
         Event(SecurityKeyInfEid, Information, KeyString(stored)),
         if k == stored then Info(SecurityKeyInfEid) else Err(SecurityKeyInfEid)])
  }

  // ---------------------------------------------------------------------------
  // Properties of the handlers
  // ---------------------------------------------------------------------------

  /** Every handler keeps the state consistent. */
  lemma HandlersPreserveConsistent(s: Ctl, p: uint16, k: KeyBytes)
    requires Consistent(s)
    ensures Consistent(Noop(s)) && Consistent(ResetCounters(s)) && Consistent(SendHk(s))
    ensures Consistent(Process(s)) && Consistent(DisplayParam(s)) && Consistent(ShotPeriod(s, p))
    ensures Consistent(ShotStart(s)) && Consistent(ShotStop(s))
    ensures Consistent(SecurityStart(s)) && Consistent(SecurityStop(s)) && Consistent(SetKey(s, k))
  {
  }

  /** No-op bumps the command counter modulo 256 and changes nothing else but the event log. */
  lemma NoopOnlyCounts(s: Ctl)
    ensures Noop(s).cmdCounter as int == (s.cmdCounter as int + 1) % 0x100
    ensures Noop(s).(cmdCounter := s.cmdCounter, events := s.events) == s
    ensures s.cmdCounter == 255 ==> Noop(s).cmdCounter == 0
  {
  }

  /** Reset clears both counters; housekeeping reports the counters without changing them. */
  lemma CounterHandlers(s: Ctl)
    ensures ResetCounters(s).cmdCounter == 0 && ResetCounters(s).errCounter == 0
    ensures SendHk(s).hk.commandErrorCounter == s.errCounter && SendHk(s).hk.commandCounter == s.cmdCounter
    ensures SendHk(s).(hk := s.hk) == s
  {
  }

  /** The security commands set or clear the flag whatever the capture state, and touch nothing else. */
  lemma SecurityFlagHandlers(s: Ctl)
    ensures SecurityStart(s) == s.(securityCommand := 1, events := SecurityStart(s).events)
    ensures SecurityStop(s) == s.(securityCommand := 0, events := SecurityStop(s).events)
  {
  }

  /** Start then stop, from any consistent state, joins the worker just started. */
  lemma StartStopJoinsWorker(s: Ctl)
    requires Consistent(s)
    ensures ShotStop(ShotStart(s)).workers == s.workers
    ensures ShotStop(ShotStart(s)).stopCommand == 1 && !ShotStop(ShotStart(s)).handleLive
  {
  }

  /**
   * Start has no running-guard: from any state, two starts and a stop leave one
   * more worker unjoined than before, and a further stop cannot reach it because
   * the handle was overwritten.
   */
  lemma DoubleStartLeaksWorker(s: Ctl)
    ensures ShotStop(ShotStart(ShotStart(s))).workers == s.workers + 1
    ensures ShotStop(ShotStop(ShotStart(ShotStart(s)))).workers == s.workers + 1
  {
  }

  /** The key is the payload after the command, and the mismatch branch is never taken. */
  lemma SetKeyAlwaysVerified(s: Ctl, k: KeyBytes)
    ensures SetKey(s, k).key == k
    ensures |SetKey(s, k).events| == |s.events| + 3
    ensures SetKey(s, k).events[|s.events| + 2] == Info(SecurityKeyInfEid)
  {
  }

  // ---------------------------------------------------------------------------
  // The key dump of the security-key command
  // ---------------------------------------------------------------------------

  /** `%02x ` of every key byte in order: the text of a key dump. */
  function KeyString(k: seq<byte>): (r: seq<byte>)
    ensures |r| == 3 * |k|
  {
    if |k| == 0 then [] else KeyString(k[..|k| - 1]) + HexByte(k[|k| - 1]) + [32]
  }

  /**
   * The loop `sprintf(&buf[i * 3], "%02x ", k[i])` for i from `from` to |k| - 1 over a
   * buffer of |buf| bytes: each call stores two digits, a space and the terminating
   * NUL. None when a call stores outside the buffer.
   */
  function SprintfKeyDump(buf: seq<byte>, k: seq<byte>, from: nat): (r: Option<seq<byte>>)
    ensures r.None? <==> from < |k| && |buf| < 3 * |k| + 1
    ensures r.Some? ==> |r.value| == |buf|
    decreases |k| - from
  {
    if from >= |k| then Some(buf)
    else if 3 * from + 4 > |buf| then None
    else SprintfKeyDump(buf[..3 * from] + HexByte(k[from]) + [32, 0] + buf[3 * from + 4..], k, from + 1)
  }

  lemma {:induction false} KeyDumpOverflowsFrom(buf: seq<byte>, k: seq<byte>, from: nat)
    requires |k| == KeySize && |buf| == 3 * KeySize && from < |k|
    ensures SprintfKeyDump(buf, k, from) == None
    decreases |k| - from
  {
    if 3 * from + 4 <= |buf| {
      var next := buf[..3 * from] + HexByte(k[from]) + [32, 0] + buf[3 * from + 4..];
      KeyDumpOverflowsFrom(next, k, from + 1);
    }
  }

  /**
   * As written, the key dumps use 96-byte buffers: the NUL of the last `sprintf`
   * lands at index 96, one past the end.
   */
  lemma KeyDumpOverflows(k: KeyBytes)
    ensures SprintfKeyDump(seq(96, _ => 0), k, 0) == None
  {
    KeyDumpOverflowsFrom(seq(96, _ => 0), k, 0);
  }

  lemma {:induction false} KeyDumpFitsFrom(buf: seq<byte>, k: seq<byte>, from: nat)
    requires |buf| == 3 * |k| + 1 && from <= |k|
    requires buf[..3 * from] == KeyString(k[..from]) && buf[3 * from] == 0
    ensures SprintfKeyDump(buf, k, from) == Some(KeyString(k) + [0])
    decreases |k| - from
  {
    if from == |k| {
      assert k[..from] == k;
      assert buf == buf[..3 * from] + [buf[3 * from]];
    } else {
      var next := buf[..3 * from] + HexByte(k[from]) + [32, 0] + buf[3 * from + 4..];
      assert k[..from + 1][..from] == k[..from];
      assert next[..3 * (from + 1)] == buf[..3 * from] + HexByte(k[from]) + [32];
      KeyDumpFitsFrom(next, k, from + 1);
    }
  }

  /** With one more byte for the terminator, the dump holds the whole key text. */
  lemma KeyDumpFits(k: KeyBytes)
    ensures SprintfKeyDump(seq(3 * KeySize + 1, _ => 0), k, 0) == Some(KeyString(k) + [0])
  {
    KeyDumpFitsFrom(seq(3 * KeySize + 1, _ => 0), k, 0);
  }

  /** Key byte i is dumped at characters 3i, 3i+1 and 3i+2: two digits, then a space. */
  lemma {:induction false} KeyStringAt(k: seq<byte>, i: nat)
    requires i < |k|
    ensures KeyString(k)[3 * i] == HexByte(k[i])[0]
    ensures KeyString(k)[3 * i + 1] == HexByte(k[i])[1]
    ensures KeyString(k)[3 * i + 2] == 32
  {
    var init := k[..|k| - 1];
    if i < |k| - 1 {
      KeyStringAt(init, i);
      assert init[i] == k[i];
    }
  }

  /**
   * The key-dump loop over a 97-byte buffer: every byte becomes two lower-case digits
   * and a space, and the text is NUL-terminated inside the buffer.
   */
  method FormatKey(k: seq<byte>) returns (buf: array<byte>)
    ensures buf.Length == 3 * |k| + 1
    ensures buf[..] == KeyString(k) + [0]
  {
    buf := new byte[3 * |k| + 1](_ => 0);
    for i := 0 to |k|
      invariant forall j :: 0 <= j < 3 * i ==> buf[j] == KeyString(k)[j]
      invariant buf[3 * i] == 0
    {
      var h := HexByte(k[i]);
      KeyStringAt(k, i);
      buf[3 * i] := h[0];
      buf[3 * i + 1] := h[1];
      buf[3 * i + 2] := 32;
      buf[3 * i + 3] := 0;
    }
    assert buf[..] == KeyString(k) + [0];
  }

  // ---------------------------------------------------------------------------
  // One iteration of the capture worker (startloop)
  // ---------------------------------------------------------------------------

  /**
   * The block cipher of security.h, which is not part of this model: `encrypt` and
   * `decrypt` take a buffer and a key; keyLength is the size of the local key array.
   */
  datatype Cipher = Cipher(
    keyLength: nat,
    encrypt: (seq<byte>, seq<byte>) -> seq<byte>,
    decrypt: (seq<byte>, seq<byte>) -> seq<byte>)

  /** encrypt_data and decrypt_data work in place: the buffer keeps its size. */
  ghost predicate InPlace(c: Cipher) {
    && (forall data, key :: |c.encrypt(data, key)| == |data|)
    && (forall data, key :: |c.decrypt(data, key)| == |data|)
  }

  /**
   * ASSUMPTION about the cipher, not a proved fact: decryption under the same key
   * undoes encryption of a whole number of blocks (whatever the mode).
   */
  ghost predicate RoundTrips(c: Cipher) {
    forall data, key :: |data| % BlockSize == 0 ==> c.decrypt(c.encrypt(data, key), key) == data
  }

  /** The worker's local `byte key[Nk] = {0}`: the stored key is never used. */
  function ZeroKey(c: Cipher): (k: seq<byte>)
    ensures |k| == c.keyLength && forall i :: 0 <= i < |k| ==> k[i] == 0
  {
    seq(c.keyLength, _ => 0)
  }

  function OrigPath(ts: string): string {
    "/home/cansat/Photo/Original_Photo/photo_" + ts + ".jpeg"
  }

  function EncPath(ts: string): string {
    "/home/cansat/Photo/Encrypt_Photo/encrypted_photo_" + ts + ".enc"
  }

  function DecPath(ts: string): string {
    "/home/cansat/Photo/Decrypt_Photo/decrypted_photo_" + ts + ".jpeg"
  }

  /** The three artifacts of one timestamp are three different files. */
  lemma PathsDistinct(ts: string)
    ensures OrigPath(ts) != EncPath(ts) && OrigPath(ts) != DecPath(ts) && EncPath(ts) != DecPath(ts)
  {
    assert OrigPath(ts)[19] == 'O' && EncPath(ts)[19] == 'E' && DecPath(ts)[19] == 'D';
  }

  /**
   * How an iteration ends: the loop is left, the worker sleeps `Period` seconds, the
   * sleep is skipped by `continue` (the ciphertext could not be reloaded), or the C
   * code is undefined (unpadding a reloaded buffer whose last byte is out of range).
   */
  datatype Step = Exited | Slept(seconds: uint16) | Skipped | Undefined

  datatype CycleResult = CycleResult(state: Ctl, step: Step)

  /**
   * How the secured part of an iteration ends. UnpadUndefined: the C code's behaviour
   * is undefined, because `unpad_data` reads before an empty buffer or because
   * `write_image_data` writes from the null buffer `unpad_data` left.
   */
  datatype Ending = Completed | ReloadFailed | UnpadUndefined

  /** What the secured part of an iteration leaves behind. */
  datatype Secured = Secured(files: map<string, seq<byte>>, events: seq<Event>, ending: Ending)

  /** "Padding added", "encryption completed", then "saved" or the error "failed to open". */
  function SecureEvents(encOpenOk: bool): seq<Event> {
    [Info(SecurityProcessingInfEid), Info(SecurityProcessingInfEid),
     if encOpenOk then Info(SecurityProcessingInfEid) else Err(SecurityProcessingInfEid)]
  }

  /** The picture as read_image_data loads it: no file leaves the buffer empty. */
  function Picture(files: map<string, seq<byte>>, ts: string): seq<byte> {
    if OrigPath(ts) in files then files[OrigPath(ts)] else []
  }

  /** The padded picture encrypted under the all-zero key. */
  function Ciphertext(files: map<string, seq<byte>>, ts: string, c: Cipher): seq<byte> {
    c.encrypt(Pad(Picture(files, ts)), ZeroKey(c))
  }

  /** The first half of the secured part: pad, encrypt and write the hex text if the file opens. */
  function Store(files: map<string, seq<byte>>, ts: string, encOpenOk: bool, c: Cipher): map<string, seq<byte>> {
    if encOpenOk then files[EncPath(ts) := HexEncode(Ciphertext(files, ts, c))] else files
  }

  /**
   * The second half: reload and decode the hex text, decrypt, unpad and write the
   * decrypted copy if its file opens.
   */
  function Restore(written: map<string, seq<byte>>, events: seq<Event>, ts: string, decOpenOk: bool, c: Cipher): Secured {
    if EncPath(ts) !in written then Secured(written, events, ReloadFailed)
    else
      match Unpad(c.decrypt(HexDecode(written[EncPath(ts)]), ZeroKey(c)))
      case ReadsBeforeBuffer => Secured(written, events, UnpadUndefined)
      case NullBuffer => Secured(written, events, if decOpenOk then UnpadUndefined else Completed)
      case Shrunk(plain) =>
        Secured(if decOpenOk then written[DecPath(ts) := plain] else written, events, Completed)
  }

  /** The secured part of an iteration, from reading the picture back to writing the decrypted copy. */
  function Secure(files: map<string, seq<byte>>, ts: string, encOpenOk: bool, decOpenOk: bool, c: Cipher): Secured {
    Restore(Store(files, ts, encOpenOk, c), SecureEvents(encOpenOk), ts, decOpenOk, c)
  }

  /**
   * One iteration of startloop. `shot` is what the camera program wrote to the
   * original-photo path (None: it wrote nothing), `encOpenOk` and `decOpenOk` whether
   * the ciphertext and decrypted files could be opened for writing.
   */
  function Cycle(s: Ctl, ts: string, shot: Option<seq<byte>>, encOpenOk: bool, decOpenOk: bool, c: Cipher): CycleResult {
    if s.stopCommand == 1 then CycleResult(s, Exited)
    else
      var captured := if shot.Some? then s.files[OrigPath(ts) := shot.value] else s.files;
      if s.securityCommand != 1 then CycleResult(s.(files := captured), Slept(s.period))
      else
        var r := Secure(captured, ts, encOpenOk, decOpenOk, c);
        var step := match r.ending
          case Completed => Slept(s.period)
          case ReloadFailed => Skipped
          case UnpadUndefined => Undefined;
        CycleResult(s.(files := r.files, events := s.events + r.events), step)
  }

  /** Restoring writes only the decrypted copy: every other file is left as it was. */
  lemma RestoreKeepsOtherFiles(written: map<string, seq<byte>>, events: seq<Event>, ts: string, decOpenOk: bool, c: Cipher, p: string)
    requires p != DecPath(ts)
    ensures var r := Restore(written, events, ts, decOpenOk, c);
      (p in r.files <==> p in written) && (p in written ==> r.files[p] == written[p])
  {
  }

  /** When its file opens, the ciphertext's hex text is still there after the secured part. */
  lemma SecureStoresCiphertext(files: map<string, seq<byte>>, ts: string, decOpenOk: bool, c: Cipher)
    ensures var sec := Secure(files, ts, true, decOpenOk, c);
      EncPath(ts) in sec.files && sec.files[EncPath(ts)] == HexEncode(Ciphertext(files, ts, c))
  {
    PathsDistinct(ts);
    RestoreKeepsOtherFiles(Store(files, ts, true, c), SecureEvents(true), ts, decOpenOk, c, EncPath(ts));
  }

  /** The stop flag is read only at the top of an iteration; when set, nothing happens. */
  lemma CycleStopExits(s: Ctl, ts: string, shot: Option<seq<byte>>, encOpenOk: bool, decOpenOk: bool, c: Cipher)
    requires s.stopCommand == 1
    ensures Cycle(s, ts, shot, encOpenOk, decOpenOk, c) == CycleResult(s, Exited)
  {
  }

  /** With security off, an iteration only takes the picture and sleeps `Period`. */
  lemma CyclePlainCapture(s: Ctl, ts: string, img: seq<byte>, encOpenOk: bool, decOpenOk: bool, c: Cipher)
    requires s.stopCommand != 1 && s.securityCommand != 1
    ensures Cycle(s, ts, Some(img), encOpenOk, decOpenOk, c)
         == CycleResult(s.(files := s.files[OrigPath(ts) := img]), Slept(s.period))
  {
  }

  /** An iteration changes only the files and the event log. */
  lemma CycleTouchesOnlyFiles(s: Ctl, ts: string, shot: Option<seq<byte>>, encOpenOk: bool, decOpenOk: bool, c: Cipher)
    ensures var r := Cycle(s, ts, shot, encOpenOk, decOpenOk, c);
      r.state == s.(files := r.state.files, events := r.state.events)
  {
  }

  /** The key stored by the security-key command has no effect on an iteration. */
  lemma CycleIgnoresStoredKey(s: Ctl, k: seq<byte>, ts: string, shot: Option<seq<byte>>, encOpenOk: bool, decOpenOk: bool, c: Cipher)
    ensures var r, r' := Cycle(s, ts, shot, encOpenOk, decOpenOk, c), Cycle(s.(key := k), ts, shot, encOpenOk, decOpenOk, c);
      r'.state == r.state.(key := k) && r'.step == r.step
  {
    var s' := s.(key := k);
    if s.stopCommand != 1 && s.securityCommand == 1 {
      var captured := if shot.Some? then s.files[OrigPath(ts) := shot.value] else s.files;
      var sec := Secure(captured, ts, encOpenOk, decOpenOk, c);
      assert Cycle(s', ts, shot, encOpenOk, decOpenOk, c).state == s'.(files := sec.files, events := s.events + sec.events);
    }
  }

  /**
   * With security on, the ciphertext file holds the lower-case hex of the padded
   * picture encrypted under the all-zero key: 2 (n + p) digits for an n-byte picture
   * (32 digits for 10 bytes).
   */
  lemma CycleCiphertextFile(s: Ctl, ts: string, img: seq<byte>, decOpenOk: bool, c: Cipher)
    requires InPlace(c)
    requires s.stopCommand != 1 && s.securityCommand == 1
    ensures var r := Cycle(s, ts, Some(img), true, decOpenOk, c);
      && EncPath(ts) in r.state.files
      && r.state.files[EncPath(ts)] == HexEncode(c.encrypt(Pad(img), ZeroKey(c)))
      && |r.state.files[EncPath(ts)]| == 2 * (|img| + PadLength(|img|))
      && (|img| == 10 ==> |r.state.files[EncPath(ts)]| == 32)
  {
    var captured := s.files[OrigPath(ts) := img];
    assert Picture(captured, ts) == img;
    SecureStoresCiphertext(captured, ts, decOpenOk, c);
    assert |c.encrypt(Pad(img), ZeroKey(c))| == |Pad(img)|;
  }

  /**
   * Under the cipher assumption, a secured iteration with a picture and writable
   * files stores the picture, and its round-trip-decrypted copy equals the picture;
   * the worker then sleeps `Period`.
   */
  lemma CycleRoundTrip(s: Ctl, ts: string, img: seq<byte>, c: Cipher)
    requires RoundTrips(c)
    requires s.stopCommand != 1 && s.securityCommand == 1
    ensures var r := Cycle(s, ts, Some(img), true, true, c);
      && r.step == Slept(s.period)
      && OrigPath(ts) in r.state.files && r.state.files[OrigPath(ts)] == img
      && DecPath(ts) in r.state.files && r.state.files[DecPath(ts)] == img
  {
    PathsDistinct(ts);
    var key := ZeroKey(c);
    var ct := c.encrypt(Pad(img), key);
    HexDecodeEncode(ct);
    assert c.decrypt(HexDecode(HexEncode(ct)), key) == Pad(img);
    UnpadPad(img);
  }

  /**
   * When the ciphertext file can neither be written nor found, the iteration ends
   * with `continue` and does not sleep.
   */
  lemma CycleReloadFailureSkipsSleep(s: Ctl, ts: string, shot: Option<seq<byte>>, decOpenOk: bool, c: Cipher)
    requires s.stopCommand != 1 && s.securityCommand == 1 && EncPath(ts) !in s.files
    ensures Cycle(s, ts, shot, false, decOpenOk, c).step == Skipped
  {
    PathsDistinct(ts);
  }

  /**
   * When the decrypted text ends in a pad byte larger than the buffer (a stale
   * ciphertext file, say, when no fresh one could be written), `unpad_data` leaves a
   * null buffer. The iteration then writes nothing and still sleeps, unless the
   * decrypted file opens: the write from the null buffer is undefined.
   */
  lemma CycleOversizedPad(s: Ctl, ts: string, shot: Option<seq<byte>>, decOpenOk: bool, c: Cipher)
    requires s.stopCommand != 1 && s.securityCommand == 1 && EncPath(ts) in s.files
    requires Unpad(c.decrypt(HexDecode(s.files[EncPath(ts)]), ZeroKey(c))).NullBuffer?
    ensures var r := Cycle(s, ts, shot, false, decOpenOk, c);
      && r.step == (if decOpenOk then Undefined else Slept(s.period))
      && r.state.files == if shot.Some? then s.files[OrigPath(ts) := shot.value] else s.files
  {
    PathsDistinct(ts);
  }

  /** Sixteen bytes of 0xff, stored as 32 'f' characters, end in an oversized pad byte. */
  lemma AllOnesTextHasOversizedPad()
    ensures Unpad(HexDecode(seq(32, _ => 102 as byte))).NullBuffer?
  {
    var t: seq<byte> := seq(32, _ => 102 as byte);
    var d := HexDecode(t);
    assert d[15] == ToByte(StrtolHex2(t[30], t[31]));
  }

  // ---------------------------------------------------------------------------
  // The cipher calls, in place on the buffer
  // ---------------------------------------------------------------------------

  method EncryptData(data: array<byte>, key: seq<byte>, c: Cipher)
    requires InPlace(c)
    modifies data
    ensures data[..] == c.encrypt(old(data[..]), key)
  {
    var out := c.encrypt(data[..], key);
    forall i | 0 <= i < data.Length {
      data[i] := out[i];
    }
  }

  method DecryptData(data: array<byte>, key: seq<byte>, c: Cipher)
    requires InPlace(c)
    modifies data
    ensures data[..] == c.decrypt(old(data[..]), key)
  {
    var out := c.decrypt(data[..], key);
    forall i | 0 <= i < data.Length {
      data[i] := out[i];
    }
  }

  /** The `fprintf(encrypted_file, "%02x", data[i])` loop: the text written to the ciphertext file. */
  method WriteCiphertextHex(data: array<byte>) returns (text: seq<byte>)
    ensures text == HexEncode(data[..])
  {
    text := [];
    for i := 0 to data.Length
      invariant text == HexEncode(data[..i])
    {
      assert data[..i + 1] == data[..i] + [data[i]];
      HexEncodeAppend(data[..i], data[i]);
      text := text + HexByte(data[i]);
    }
    assert data[..data.Length] == data[..];
  }

  /**
   * The picture is read into a buffer, padded (one event) and encrypted in place
   * under the all-zero key (one event).
   */
  method EncryptPicture(files: map<string, seq<byte>>, ts: string, c: Cipher) returns (padded: array<byte>)
    requires InPlace(c)
    ensures fresh(padded) && padded[..] == Ciphertext(files, ts, c)
  {
    var img := if OrigPath(ts) in files then files[OrigPath(ts)] else [];
    var data := new byte[|img|](i requires 0 <= i < |img| => img[i]);
    assert data[..] == Picture(files, ts);
    var out, size := PadData(data, true);
    padded := out;
    EncryptData(padded, ZeroKey(c), c);  // byte key[Nk] = {0}
  }

  /**
   * The first half of the secured part of startloop over the worker's buffers: the
   * encrypted picture is written out as hex.
   */
  method StoreCiphertext(files: map<string, seq<byte>>, ts: string, encOpenOk: bool, c: Cipher)
    returns (fs: map<string, seq<byte>>, events: seq<Event>)
    requires InPlace(c)
    ensures fs == Store(files, ts, encOpenOk, c)
    ensures events == SecureEvents(encOpenOk)
  {
    var padded := EncryptPicture(files, ts, c);
    events := [Info(SecurityProcessingInfEid), Info(SecurityProcessingInfEid)];
    fs := files;
    if encOpenOk {
      var text := WriteCiphertextHex(padded);
      fs := fs[EncPath(ts) := text];
      events := events + [Info(SecurityProcessingInfEid)];
    } else {
      events := events + [Err(SecurityProcessingInfEid)];
    }
  }

  /**
   * The second half: the hex text is reloaded into a buffer, decrypted in place,
   * unpadded and written out.
   */
  method RestorePicture(written: map<string, seq<byte>>, events: seq<Event>, ts: string, decOpenOk: bool, c: Cipher)
    returns (r: Secured)
    requires InPlace(c)
    ensures r == Restore(written, events, ts, decOpenOk, c)
  {
    var reloaded := ReadEncryptedData(if EncPath(ts) in written then Some(written[EncPath(ts)]) else None);
    if reloaded.None? {
      return Secured(written, events, ReloadFailed);
    }
    var buf := reloaded.value;
    DecryptData(buf, ZeroKey(c), c);
    var plain := UnpadData(buf);
    if plain.None? {
      return Secured(written, events, UnpadUndefined);
    }
    var fs := written;
    if decOpenOk {  // write_image_data
      if plain.value == null {  // fwrite from the null buffer
        return Secured(written, events, UnpadUndefined);
      }
      fs := fs[DecPath(ts) := plain.value[..]];
    }
    r := Secured(fs, events, Completed);
  }

  /** The secured part of startloop: the picture is stored encrypted, then restored. */
  method SecureCapture(files: map<string, seq<byte>>, ts: string, encOpenOk: bool, decOpenOk: bool, c: Cipher)
    returns (r: Secured)
    requires InPlace(c)
    ensures r == Secure(files, ts, encOpenOk, decOpenOk, c)
  {
    var fs, events := StoreCiphertext(files, ts, encOpenOk, c);
    r := RestorePicture(fs, events, ts, decOpenOk, c);
  }

  // ---------------------------------------------------------------------------
  // The application state and its handlers
  // ---------------------------------------------------------------------------

  class CamApp {
    var cmdCounter: byte
    var errCounter: byte
    var hk: HkPayload
    var period: uint16
    var stopCommand: int
    var securityCommand: int
    const key: array<byte>
    var workers: nat
    var handleLive: bool
    var events: seq<Event>
    var files: map<string, seq<byte>>

    function State(): Ctl
      reads this, key
    {
      Ctl(cmdCounter, errCounter, hk, period, stopCommand, securityCommand, key[..],
          workers, handleLive, events, files)
    }

    ghost predicate Valid()
      reads this, key
    {
      Consistent(State())
    }

    /** `photos`: the photo directory as the application finds it. */
    constructor (photos: map<string, seq<byte>>)
      ensures Valid() && fresh(key)
      ensures State() == Initial(photos)
    {
      cmdCounter, errCounter, hk := 0, 0, HkPayload(0, 0);
      period, stopCommand, securityCommand := 10, 0, 0;
      key := new byte[KeySize](_ => 0);
      workers, handleLive := 0, false;
      events, files := [], photos;
      new;
      assert key[..] == seq(KeySize, _ => 0);
    }

    method NoopCmd() returns (status: int)
      requires Valid()
      modifies this
      ensures Valid() && State() == Noop(old(State())) && status == Success
    {
      cmdCounter := Inc8(cmdCounter);
      events := events + [Info(NoopInfEid)];
      status := Success;
    }

    method ResetCountersCmd() returns (status: int)
      requires Valid()
      modifies this
      ensures Valid() && State() == ResetCounters(old(State())) && status == Success
    {
      cmdCounter, errCounter := 0, 0;
      events := events + [Info(ResetInfEid)];
      status := Success;
    }

    method SendHkCmd() returns (status: int)
      requires Valid()
      modifies this
      ensures Valid() && State() == SendHk(old(State())) && status == Success
    {
      hk := HkPayload(errCounter, cmdCounter);
      status := Success;
    }

    method ProcessCmd() returns (status: int)
      requires Valid()
      ensures State() == Process(old(State())) && status == Success
    {
      status := Success;
    }

    method DisplayParamCmd() returns (status: int)
      requires Valid()
      modifies this
      ensures Valid() && State() == DisplayParam(old(State())) && status == Success
    {
      events := events + [Info(ValueInfEid)];
      status := Success;
    }

    /** Returns the new period, not CFE_SUCCESS. */
    method ShotPeriodCmd(p: uint16) returns (status: int)
      requires Valid()
      modifies this
      ensures Valid() && State() == ShotPeriod(old(State()), p) && status == p as int
    {
      events := events + [Info(ShotPeriodInfEid)];
      period := p;
      status := period as int;
    }

    method ShotStartCmd() returns (status: int)
      requires Valid()
      modifies this
      ensures Valid() && State() == ShotStart(old(State())) && status == Success
    {
      stopCommand := 0;
      workers, handleLive := workers + 1, true;
      events := events + [Info(ShotStartInfEid)];
      status := Success;
    }

    method ShotStopCmd() returns (status: int)
      requires Valid()
      modifies this
      ensures Valid() && State() == ShotStop(old(State())) && status == Success
    {
      stopCommand := 1;  // stoploop
      if handleLive {
        workers, handleLive := workers - 1, false;  // pthread_join(thread)
      }
      events := events + [Info(ShotStopInfEid)];
      status := Success;
    }

    method SecurityStartCmd() returns (status: int)
      requires Valid()
      modifies this
      ensures Valid() && State() == SecurityStart(old(State())) && status == Success
    {
      securityCommand := 1;
      events := events + [Info(SecurityStartInfEid)];
      status := Success;
    }

    method SecurityStopCmd() returns (status: int)
      requires Valid()
      modifies this
      ensures Valid() && State() == SecurityStop(old(State())) && status == Success
    {
      securityCommand := 0;
      events := events + [Info(SecurityStopInfEid)];
      status := Success;
    }

    method SecurityKeyCmd(payload: KeyBytes) returns (status: int)
      requires Valid()
      modifies this, key
      ensures Valid() && State() == SetKey(old(State()), payload) && status == Success
    {
      var received := FormatKey(payload);
      events := events + [Event(SecurityKeyInfEid, Information, received[..3 * KeySize])];
      forall i | 0 <= i < KeySize {  // memcpy
        key[i] := payload[i];
      }
      var stored := FormatKey(key[..]);
      events := events + [Event(SecurityKeyInfEid, Information, stored[..3 * KeySize])];
      var verified := key[..] == payload;  // memcmp
      events := events + [if verified then Info(SecurityKeyInfEid) else Err(SecurityKeyInfEid)];
      status := Success;
    }

    /** One iteration of the capture worker's loop. */
    method StartLoopIteration(ts: string, shot: Option<seq<byte>>, encOpenOk: bool, decOpenOk: bool, c: Cipher)
      returns (step: Step)
      requires Valid() && InPlace(c)
      modifies this
      ensures Valid()
      ensures CycleResult(State(), step) == Cycle(old(State()), ts, shot, encOpenOk, decOpenOk, c)
    {
      if stopCommand == 1 {
        return Exited;
      }
      if shot.Some? {  // libcamera-still writes the picture
        files := files[OrigPath(ts) := shot.value];
      }
      if securityCommand == 1 {
        var r := SecureCapture(files, ts, encOpenOk, decOpenOk, c);
        files, events := r.files, events + r.events;
        match r.ending {
          case ReloadFailed => return Skipped;  // continue: no sleep
          case UnpadUndefined => return Undefined;
          case Completed =>
        }
      }
      step := Slept(period);  // sleep(Period)
    }
  }
}
