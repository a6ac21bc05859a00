/** The iOS `DeviceFileManager` (DeviceFileManager.swift): a failable
    initialiser that checks the BLE identifier, an upload whose
    resolver/rejecter pair is kept for the library's delegate callbacks,
    status and hash requests whose replies are classified in a fixed order,
    progress events, and the log delegate's level filter. */
module IosDeviceFileManager {
  import opened Bridge
  import opened Octets
  import opened Progress
  import opened PromiseSlot

  // ------------------------------------------------------------------------
  // The BLE identifier

  predicate IsHexDigit(c: char)
  {
    '0' <= c <= '9' || 'a' <= c <= 'f' || 'A' <= c <= 'F'
  }

  /** What `UUID(uuidString:)` accepts: 32 hexadecimal digits of either case
      in groups of 8, 4, 4, 4 and 12, separated by hyphens. */
  predicate IsUuidString(s: string)
  {
    && |s| == 36
    && (forall i | 0 <= i < 36 :: (s[i] == '-') == (i == 8 || i == 13 || i == 18 || i == 23))
    && (forall i | 0 <= i < 36 && i != 8 && i != 13 && i != 18 && i != 23 :: IsHexDigit(s[i]))
  }

  // ------------------------------------------------------------------------
  // Classifying the replies

  /** What the library hands the status callback: the decoded response, if
      any, with its optional length and its return code. */
  datatype StatusResponse = StatusResponse(len: Option<nat>, returnCode: int)

  /** What the library hands the hash callback: the decoded response, if
      any, with its optional digest and its return code. */
  datatype HashResponse = HashResponse(output: Option<seq<uint8>>, returnCode: int)

  /** The status callback. `alive` is false when the manager has been
      released before the reply arrived: the weak reference is gone and the
      promise is left pending (None). Otherwise an error rejects, a length
      resolves (whatever the return code), then "no entry" resolves -1, and
      anything else rejects. */
  function StatusCompletion(alive: bool, response: Option<StatusResponse>, err: Option<Error>): (o: Option<Outcome>)
    ensures o.None? <==> !alive
    ensures alive && err.Some? ==> o == Some(Rejected(Coded("error", "failed to stat file", err)))
    ensures alive && err.None? ==>
      (o.value.Resolved? <==> response.Some? && (response.value.len.Some? || response.value.returnCode == NoEntry))
    ensures alive && err.None? && o.value.Rejected? ==> o.value.reason == Coded("error", "failed to stat file", None)
    ensures o.Some? && o.value.Resolved? && response.value.len.Some? ==> o.value.value == Int(response.value.len.value)
    ensures o.Some? && o.value.Resolved? && response.value.len.None? ==> o.value.value == Int(-1)
  {
    if !alive then None
    else if err.Some? then Some(Rejected(Coded("error", "failed to stat file", err)))
    else if response.Some? && response.value.len.Some? then Some(Resolved(Int(response.value.len.value)))
    else if response.Some? && response.value.returnCode == NoEntry then Some(Resolved(Int(-1)))
    else Some(Rejected(Coded("error", "failed to stat file", None)))
  }

  /** The hash callback: an error rejects, a digest resolves its lower-case
      hexadecimal rendering, then "no entry" resolves null, and anything else
      rejects; nothing when the manager has been released. */
  function HashCompletion(alive: bool, response: Option<HashResponse>, err: Option<Error>): (o: Option<Outcome>)
    ensures o.None? <==> !alive
    ensures alive && err.Some? ==> o == Some(Rejected(Coded("error", "failed to get file hash", err)))
    ensures alive && err.None? ==>
      (o.value.Resolved? <==> response.Some? && (response.value.output.Some? || response.value.returnCode == NoEntry))
    ensures alive && err.None? && o.value.Rejected? ==> o.value.reason == Coded("error", "failed to get hash of file", None)
    ensures o.Some? && o.value.Resolved? && response.value.output.Some? ==>
      o.value.value.Text? && Unhex(o.value.value.s) == Some(response.value.output.value)
    ensures o.Some? && o.value.Resolved? && response.value.output.None? ==> o.value.value == Null
  {
    if !alive then None
    else if err.Some? then Some(Rejected(Coded("error", "failed to get file hash", err)))
    else if response.Some? && response.value.output.Some? then
      IosHexRoundTrip(response.value.output.value);
      Some(Resolved(Text(IosHex(response.value.output.value))))
    else if response.Some? && response.value.returnCode == NoEntry then Some(Resolved(Null))
    else Some(Rejected(Coded("error", "failed to get hash of file", None)))
  }

  /** A response carrying a length is resolved with it even when its return
      code says "no entry", and a digest is rendered even then: the payload is
      looked at before the return code. */
  lemma PayloadBeforeReturnCode(len: nat, digest: seq<uint8>)
    ensures StatusCompletion(true, Some(StatusResponse(Some(len), NoEntry)), None) == Some(Resolved(Int(len)))
    ensures HashCompletion(true, Some(HashResponse(Some(digest), NoEntry)), None) == Some(Resolved(Text(IosHex(digest))))
  {
  }

  /** "Not found" is told apart from every real answer: status's -1 is no
      length, and hash's null is not the rendering of any digest. */
  lemma NotFoundIsDistinct(response: StatusResponse, digest: HashResponse)
    requires response.returnCode == NoEntry && digest.returnCode == NoEntry
    ensures StatusCompletion(true, Some(response), None) == Some(Resolved(Int(-1))) <==> response.len.None?
    ensures HashCompletion(true, Some(digest), None) == Some(Resolved(Null)) <==> digest.output.None?
  {
  }

  // ------------------------------------------------------------------------
  // The log delegate

  /** The library's `McuMgrLogLevel`, in increasing order of severity (its
      `error` level is called Severe here, apart from the Error datatype). */
  datatype LogLevel = Debug | Verbose | Info | Application | Warning | Severe

  /** The level's position in that order of severity (not the library's raw
      value, which only the order matters for here). */
  function Severity(level: LogLevel): nat
  {
    match level
    case Debug => 0
    case Verbose => 1
    case Info => 2
    case Application => 3
    case Warning => 4
    case Severe => 5
  }

  /** `FileManagerLogDelegate.log`: the message is printed (Some) unless its
      level is below `info`, that is, unless it is a debug or verbose one. */
  function Logged(msg: string, level: LogLevel): (printed: Option<string>)
    ensures printed.Some? <==> !(level == Debug || level == Verbose)
    ensures printed.Some? ==> printed.value == msg
  {
    if Severity(level) < Severity(Info) then None else Some(msg)
  }

  /** The filter is monotone: a message printed at one level would be printed
      at any more severe one. */
  lemma LoggedMonotone(msg: string, low: LogLevel, high: LogLevel)
    requires Severity(low) <= Severity(high)
    ensures Logged(msg, low).Some? ==> Logged(msg, high) == Some(msg)
  {
  }

  // ------------------------------------------------------------------------
  // The object

  /** Reading the file behind the URL: its bytes, or the thrown error's
      description. */
  datatype ReadResult = Read(data: seq<uint8>) | ReadFailed(description: string)

  const UriRejection: Outcome := Rejected(Coded("error", "failed to parse file uri as url", Some(NSError("", 200))))
  const StartRefused: Outcome := Rejected(Coded("error", "failed to start upload", None))
  const UploadCanceled: Outcome := Rejected(Coded("notice", "upload was canceled", None))

  function ReadRejection(description: string): Outcome
  {
    Rejected(Coded(description, description, Some(Failure(description))))
  }

  /** A second `upload` while the library still runs the first: the second
      promise is refused and then also receives the first upload's result,
      while the first promise is never settled. Storing the pair only once
      the library has accepted would settle each once. */
  lemma UploadWhileRunningSettlesTwice()
    ensures Settlements(RunAsWritten(Idle, StartRefused, InterleavedCalls(Resolved(Null))).effects)
         == [Settlement(2, StartRefused), Settlement(2, Resolved(Null))]
    ensures Settlements(Run(Idle, StartRefused, InterleavedCalls(Resolved(Null))).effects)
         == [Settlement(2, StartRefused), Settlement(1, Resolved(Null))]
  {
    StoringFirstWhileBusySettlesTwice(StartRefused, Resolved(Null));
  }

  // ------------------------------------------------------------------------
  // The upload as evidently intended

  /** What reaches an iOS manager's upload slot: an upload request with the
      outcome of its URL parse and of reading the file, or one of the
      delegate's terminal callbacks. */
  datatype UploadCall =
    | UploadRequest(p: PromiseId, uriParses: bool, read: ReadResult, targetFilePath: string)
    | DelegateCallback(o: Outcome)

  /** `upload` as evidently intended: the URL is parsed and the file read
      before anything is stored, a failure rejects the call's own promise,
      and the resolver/rejecter pair is stored only once the library accepts
      (it refuses while a transfer runs). Delegate callbacks settle as
      written. */
  function IntendedStep(g: Guard, c: UploadCall): (r: Guard)
    ensures c.UploadRequest? && (r.pending != g.pending || r.stored != g.stored) ==>
      c.uriParses && c.read.Read? && !g.pending && r.pending && r.stored == Some(c.p)
    ensures SameSlot(r, Step(g, StartRefused, SlotCall(c)))
  {
    match c
    case UploadRequest(p, uriParses, read, targetFilePath) =>
      if !uriParses then Decline(g, p, UriRejection)
      else if read.ReadFailed? then Decline(g, p, ReadRejection(read.description))
      else if g.pending then Decline(g, p, StartRefused)
      else
        SettlementsSnoc(g.effects, Sent(UploadFile(targetFilePath, read.data)));
        Guard(true, Some(p), g.effects + [Sent(UploadFile(targetFilePath, read.data))])
    case DelegateCallback(o) => Settle(g, o)
  }

  function IntendedRun(g: Guard, calls: seq<UploadCall>): Guard
    decreases |calls|
  {
    if calls == [] then g else IntendedRun(IntendedStep(g, calls[0]), calls[1..])
  }

  /** The same call on the generic slot: a failure before the library is
      asked is a declined request, the library's answer a guarded one. */
  function SlotCall(c: UploadCall): Call
  {
    match c
    case UploadRequest(p, uriParses, read, _) =>
      if !uriParses then Declined(p, UriRejection)
      else if read.ReadFailed? then Declined(p, ReadRejection(read.description))
      else Guarded(p)
    case DelegateCallback(o) => Callback(o)
  }

  function SlotCalls(calls: seq<UploadCall>): (r: seq<Call>)
    ensures |r| == |calls|
  {
    if calls == [] then [] else [SlotCall(calls[0])] + SlotCalls(calls[1..])
  }

  /** The promises the upload requests of a sequence carry, in order. */
  function UploadPromises(calls: seq<UploadCall>): (ps: seq<PromiseId>)
    ensures ps == Requested(SlotCalls(calls))
  {
    if calls == [] then []
    else
      var first := if calls[0].UploadRequest? then [calls[0].p] else [];
      assert SlotCalls(calls)[0] == SlotCall(calls[0]) && SlotCalls(calls)[1..] == SlotCalls(calls[1..]);
      first + UploadPromises(calls[1..])
  }

  /** Run over the intended uploads, the slot stays consistent. */
  lemma {:induction false} IntendedRunKeepsConsistent(g: Guard, h: Guard, calls: seq<UploadCall>)
    requires SameSlot(g, h) && Consistent(h) && FreshFor(h, SlotCalls(calls))
    ensures Consistent(IntendedRun(g, calls))
    decreases |calls|
  {
    SameSlotKeepsConsistent(g, h, SlotCalls(calls));
    if calls != [] {
      var cs := SlotCalls(calls);
      assert cs == [SlotCall(calls[0])] + SlotCalls(calls[1..]);
      StepKeepsConsistent(h, StartRefused, SlotCall(calls[0]), SlotCalls(calls[1..]));
      IntendedRunKeepsConsistent(IntendedStep(g, calls[0]), Step(h, StartRefused, SlotCall(calls[0])), calls[1..]);
    }
  }

  /** With the intended upload, whatever order uploads (failing or not) and
      delegate callbacks arrive in, as long as each upload brings its own
      promise, no promise is settled twice. */
  lemma IntendedUploadsSettleAtMostOnce(calls: seq<UploadCall>)
    requires forall i, j | 0 <= i < j < |UploadPromises(calls)| :: UploadPromises(calls)[i] != UploadPromises(calls)[j]
    ensures SettledAtMostOnce(IntendedRun(Idle, calls).effects)
  {
    assert UploadPromises(calls) == Requested(SlotCalls(calls));
    IntendedRunKeepsConsistent(Idle, Idle, calls);
  }

  /** The read-failure scenario with the intended upload: the second promise
      is rejected once and the first receives its transfer's result. */
  lemma IntendedReadFailureWhileRunning(data: seq<uint8>, targetFilePath: string, description: string)
    ensures var calls := [UploadRequest(1, true, Read(data), targetFilePath),
                          UploadRequest(2, true, ReadFailed(description), targetFilePath),
                          DelegateCallback(Resolved(Null))];
      Settlements(IntendedRun(Idle, calls).effects)
      == [Settlement(2, ReadRejection(description)), Settlement(1, Resolved(Null))]
  {
    var calls := [UploadRequest(1, true, Read(data), targetFilePath),
                  UploadRequest(2, true, ReadFailed(description), targetFilePath),
                  DelegateCallback(Resolved(Null))];
    var sent := Sent(UploadFile(targetFilePath, data));
    var refused := Settled(Settlement(2, ReadRejection(description)));
    var resolved := Settled(Settlement(1, Resolved(Null)));
    var g1 := IntendedStep(Idle, calls[0]);
    assert g1 == Guard(true, Some(1), [sent]);
    var g2 := IntendedStep(g1, calls[1]);
    assert g2 == Guard(true, Some(1), [sent, refused]);
    var g3 := IntendedStep(g2, calls[2]);
    assert g3 == Guard(false, Some(1), [sent, refused, resolved]);
    assert calls[1..][0] == calls[1] && calls[1..][1..][0] == calls[2] && calls[1..][1..][1..] == [];
    assert IntendedRun(g2, calls[1..][1..]) == g3;
    assert IntendedRun(Idle, calls) == IntendedRun(g1, calls[1..]) == IntendedRun(g2, calls[1..][1..]);
    assert Settlements([sent]) == [] by {
      SettlementsSnoc([], sent);
    }
    SettlementsSnoc([sent], refused);
    assert [sent] + [refused] == [sent, refused];
    SettlementsSnoc([sent, refused], resolved);
    assert [sent, refused] + [resolved] == g3.effects;
  }

  class DeviceFileManager {
    const id: string
    const bleId: string
    var uploadResolver: Option<PromiseId>
    var uploadRejecter: Option<PromiseId>
    var effects: seq<Effect>
    /** Whether the library's `FileSystemManager` is running a transfer: it
        refuses a new upload while one runs and calls exactly one terminal
        delegate method per transfer it started. */
    ghost var transferRunning: bool

    /** The resolver and rejecter always come from the same call; a running
        transfer has them. */
    ghost predicate Valid()
      reads this
    {
      && uploadResolver == uploadRejecter
      && (transferRunning ==> uploadResolver.Some?)
    }

    /** The upload promise slot, busy while the library runs a transfer. */
    ghost function State(): Guard
      reads this
    {
      Guard(transferRunning, uploadResolver, effects)
    }

    constructor (id: string, bleId: string)
      requires IsUuidString(bleId)
      ensures Valid() && this.id == id && this.bleId == bleId
      ensures uploadResolver == None && effects == [] && !transferRunning
    {
      this.id := id;
      this.bleId := bleId;
      uploadResolver := None;
      uploadRejecter := None;
      effects := [];
      transferRunning := false;
    }

    /** The failable `init?`: nil exactly when `bleId` is not a UUID. */
    static method Create(id: string, bleId: string) returns (m: DeviceFileManager?)
      ensures m == null <==> !IsUuidString(bleId)
      ensures m != null ==> fresh(m) && m.Valid() && m.id == id && m.bleId == bleId
      ensures m != null ==> m.uploadResolver == None && m.effects == [] && !m.transferRunning
    {
      if !IsUuidString(bleId) {
        return null;
      }
      m := new DeviceFileManager(id, bleId);
    }

    /** `upload`: an unparseable URI rejects before anything is stored; then
        the promise is stored, a failed read rejects with the error's
        description, and a library that refuses to start (it is already
        running a transfer: `accepted` is false) rejects "failed to start
        upload". Either way the stored pair is now the new promise's. */
    method Upload(p: PromiseId, uriParses: bool, read: ReadResult, targetFilePath: string, accepted: bool)
      requires Valid() && accepted == !transferRunning
      modifies this
      ensures Valid()
      ensures !uriParses ==>
        (uploadResolver == old(uploadResolver) && transferRunning == old(transferRunning)
         && effects == old(effects) + [Settled(Settlement(p, UriRejection))])
      ensures uriParses && read.ReadFailed? ==>
        (uploadResolver == Some(p) && transferRunning == old(transferRunning)
         && effects == old(effects) + [Settled(Settlement(p, ReadRejection(read.description)))])
      ensures uriParses && read.Read? && !accepted ==>
        State() == BeginStoringFirst(old(State()), p, StartRefused)
      ensures uriParses && read.Read? && accepted ==>
        State() == BeginStoringFirst(old(State()), p, StartRefused)
          .(effects := old(effects) + [Sent(UploadFile(targetFilePath, read.data))])
    {
      if !uriParses {
        effects := effects + [Settled(Settlement(p, UriRejection))];
        return;
      }
      uploadResolver := Some(p);
      uploadRejecter := Some(p);
      match read
      case ReadFailed(description) =>
        effects := effects + [Settled(Settlement(p, ReadRejection(description)))];
      case Read(data) =>
        if !accepted {
          effects := effects + [Settled(Settlement(p, StartRefused))];
          return;
        }
        effects := effects + [Sent(UploadFile(targetFilePath, data))];
        transferRunning := true;
    }

    /** `status`: the request goes to the library; its callback settles `p`. */
    method Status(p: PromiseId, filePath: string)
      modifies this`effects
      ensures effects == old(effects) + [Sent(StatusQuery(filePath))]
    {
      effects := effects + [Sent(StatusQuery(filePath))];
    }

    /** The status callback, with the manager still alive. */
    method StatusReplied(p: PromiseId, response: Option<StatusResponse>, err: Option<Error>)
      modifies this`effects
      ensures effects == old(effects) + [Settled(Settlement(p, StatusCompletion(true, response, err).value))]
    {
      var o := StatusCompletion(true, response, err);
      effects := effects + [Settled(Settlement(p, o.value))];
    }

    method Hash(p: PromiseId, filePath: string)
      modifies this`effects
      ensures effects == old(effects) + [Sent(HashQuery(filePath))]
    {
      effects := effects + [Sent(HashQuery(filePath))];
    }

    /** The hash callback, with the manager still alive. */
    method HashReplied(p: PromiseId, response: Option<HashResponse>, err: Option<Error>)
      modifies this`effects
      ensures effects == old(effects) + [Settled(Settlement(p, HashCompletion(true, response, err).value))]
    {
      var o := HashCompletion(true, response, err);
      effects := effects + [Settled(Settlement(p, o.value))];
    }

    method TearDown()
      modifies this`effects
      ensures effects == old(effects) + [TransferCancelRequested, TransportReleased]
    {
      effects := effects + [TransferCancelRequested, TransportReleased];
    }

    /** `uploadProgressDidChange`: an event only while the bridge is present,
        with the percentage on 64-bit `Int`s; an overflowing product or a zero
        size traps (`trapped`) before anything is sent. */
    method UploadProgressDidChange(bridgePresent: bool, bytesSent: int64, fileSize: int64) returns (trapped: bool)
      modifies this`effects
      ensures !bridgePresent ==> !trapped && effects == old(effects)
      ensures bridgePresent && SwiftPercent(bytesSent, fileSize).None? ==> trapped && effects == old(effects)
      ensures bridgePresent && SwiftPercent(bytesSent, fileSize).Some? ==>
        (!trapped && effects == old(effects) +
         [Emitted(ProgressEvent(FileUploadProgress, id, SwiftPercent(bytesSent, fileSize).value, None, None))])
    {
      if !bridgePresent {
        return false;
      }
      var percent := SwiftPercent(bytesSent, fileSize);
      if percent.None? {
        return true;
      }
      effects := effects + [Emitted(ProgressEvent(FileUploadProgress, id, percent.value, None, None))];
      trapped := false;
    }

    /** A terminal delegate method settles through the stored pair; the
        library calls one per transfer it started. */
    method Finish(o: Outcome)
      requires Valid() && transferRunning
      modifies this`effects, this`transferRunning
      ensures Valid() && State() == Settle(old(State()), o)
    {
      if uploadRejecter.Some? {
        effects := effects + [Settled(Settlement(uploadRejecter.value, o))];
      }
      transferRunning := false;
    }

    method UploadDidFail(err: Error)
      requires Valid() && transferRunning
      modifies this`effects, this`transferRunning
      ensures Valid() && State() == Settle(old(State()), Rejected(Coded("error", "failed to upload file", Some(err))))
    {
      Finish(Rejected(Coded("error", "failed to upload file", Some(err))));
    }

    method UploadDidCancel()
      requires Valid() && transferRunning
      modifies this`effects, this`transferRunning
      ensures Valid() && State() == Settle(old(State()), UploadCanceled)
    {
      Finish(UploadCanceled);
    }

    method UploadDidFinish()
      requires Valid() && transferRunning
      modifies this`effects, this`transferRunning
      ensures Valid() && State() == Settle(old(State()), Resolved(Null))
    {
      Finish(Resolved(Null));
    }
  }

  /** The same double settlement without any assumption about the library:
      while the first upload runs, a second upload whose file cannot be read
      still replaces the stored pair before it is rejected, so the first
      transfer's completion resolves the second, already rejected, promise
      (and the first promise is never settled). */
  method ReadFailureWhileRunningSettlesTwice(bleId: string, data: seq<uint8>, targetFilePath: string, description: string)
    returns (log: seq<Effect>)
    requires IsUuidString(bleId)
    ensures Settlements(log) == [Settlement(2, ReadRejection(description)), Settlement(2, Resolved(Null))]
  {
    var m := new DeviceFileManager("manager", bleId);
    m.Upload(1, true, Read(data), targetFilePath, true);
    m.Upload(2, true, ReadFailed(description), targetFilePath, false);
    m.UploadDidFinish();
    log := m.effects;
    var sent, refused, resolved := Sent(UploadFile(targetFilePath, data)),
      Settled(Settlement(2, ReadRejection(description))), Settled(Settlement(2, Resolved(Null)));
    assert log == [sent, refused, resolved];
    assert Settlements([sent]) == [] by {
      SettlementsSnoc([], sent);
    }
    SettlementsSnoc([sent], refused);
    SettlementsSnoc([sent, refused], resolved);
    assert [sent] + [refused] == [sent, refused];
    assert [sent, refused] + [resolved] == log;
  }
}
