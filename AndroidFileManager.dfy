/** The Android `FileManager` (FileManager.kt): one promise slot guarded by a
    busy flag, file-system requests handed to the mcumgr library, and the
    library's callbacks settling the stored promise through `withSafePromise`.

    Each method of the class is tied to the promise slot of PromiseSlot:
    `upload`, `status` and `hash` start guarded, `write` storing first, and
    every callback settles through the slot. */
module AndroidFileManager {
  import opened Bridge
  import opened Octets
  import opened Progress
  import opened PromiseSlot

  const BusyRejection: Outcome := Rejected(Thrown(Plain("file manager is busy")))
  const CanceledRejection: Outcome := Rejected(Thrown(Interrupted("file upload is canceled")))

  /** `write` while an upload is pending: the write's promise is rejected as
      busy and then also receives the upload's result, while the upload's
      promise is never settled. Guarded as `upload` is, each promise is
      settled once. */
  lemma WriteWhileBusySettlesTwice()
    ensures Settlements(RunAsWritten(Idle, BusyRejection, InterleavedCalls(Resolved(Null))).effects)
         == [Settlement(2, BusyRejection), Settlement(2, Resolved(Null))]
    ensures Settlements(Run(Idle, BusyRejection, InterleavedCalls(Resolved(Null))).effects)
         == [Settlement(2, BusyRejection), Settlement(1, Resolved(Null))]
  {
    StoringFirstWhileBusySettlesTwice(BusyRejection, Resolved(Null));
  }

  // ------------------------------------------------------------------------
  // Mapping the library's replies to promise outcomes

  /** What the library reports for a request: the decoded response, or the
      exception handed to `onError` (an `McuMgrErrorException` carries the
      device's return code). */
  datatype Reply<T> = Response(body: T) | ErrorReply(error: Error)

  predicate IsNoEntry<T>(r: Reply<T>)
  {
    r.ErrorReply? && r.error == McuReturnCode(NoEntry)
  }

  /** `status`'s callbacks: a response resolves its `len`, "no entry" resolves
      -1, any other error rejects with the library's exception. */
  function StatusOutcome(r: Reply<nat>): (o: Outcome)
    ensures o.Resolved? <==> !r.ErrorReply? || IsNoEntry(r)
    ensures o.Resolved? ==> o.value.Int? && (o.value.n == -1 <==> IsNoEntry(r))
    ensures r.Response? ==> o.value.n == r.body
    ensures o.Rejected? ==> o.reason == Thrown(Mcu(r.error))
  {
    match r
    case Response(len) => Resolved(Int(len))
    case ErrorReply(e) => if e == McuReturnCode(NoEntry) then Resolved(Int(-1)) else Rejected(Thrown(Mcu(e)))
  }

  /** `hash`'s callbacks: a response resolves the digest as lower-case hex,
      "no entry" resolves null, any other error rejects. */
  function HashOutcome(r: Reply<seq<int8>>): (o: Outcome)
    ensures o.Resolved? <==> !r.ErrorReply? || IsNoEntry(r)
    ensures o == Resolved(Null) <==> IsNoEntry(r)
    ensures r.Response? ==> o.value.Text? && Unhex(o.value.s) == Some(UnsignedAll(r.body))
    ensures o.Rejected? ==> o.reason == Thrown(Mcu(r.error))
  {
    match r
    case Response(output) =>
      AndroidHexRoundTrip(output);
      Resolved(Text(AndroidHex(output)))
    case ErrorReply(e) => if e == McuReturnCode(NoEntry) then Resolved(Null) else Rejected(Thrown(Mcu(e)))
  }

  /** "Not found" is told apart from every real answer: status's -1 is no
      file length, and hash's null is not even the rendering of an empty digest. */
  lemma NotFoundIsDistinct(len: nat, digest: seq<int8>)
    ensures StatusOutcome(ErrorReply(McuReturnCode(NoEntry))) != StatusOutcome(Response(len))
    ensures HashOutcome(ErrorReply(McuReturnCode(NoEntry))) != HashOutcome(Response(digest))
  {
  }

  // ------------------------------------------------------------------------
  // The write path's byte conversion

  /** The bytes `write` hands to the uploader. */
  function TruncateAll(data: seq<int32>): seq<int8>
  {
    seq(|data|, i requires 0 <= i < |data| => ToByte(data[i]))
  }

  /** The loop of `write`: a byte array as long as the input, element i being
      input i truncated to a byte. */
  method ToByteArray(data: seq<int32>) returns (bytes: array<int8>)
    ensures bytes.Length == |data|
    ensures forall i | 0 <= i < |data| :: bytes[i] == ToByte(data[i])
  {
    bytes := new int8[|data|];
    for i := 0 to |data|
      invariant forall k | 0 <= k < i :: bytes[k] == ToByte(data[k])
    {
      bytes[i] := ToByte(data[i]);
    }
  }

  /** The device receives the low octet of each integer written. */
  lemma WrittenOctets(data: seq<int32>)
    ensures |UnsignedAll(TruncateAll(data))| == |data|
    ensures forall i | 0 <= i < |data| :: UnsignedAll(TruncateAll(data))[i] == data[i] % 0x100
  {
  }

  // ------------------------------------------------------------------------
  // The object

  class FileManager {
    const id: string
    var transferController: Option<ControllerId>
    var unsafePromise: Option<PromiseId>
    var promisePending: bool
    var effects: seq<Effect>

    ghost predicate Valid()
      reads this
    {
      promisePending ==> unsafePromise.Some?
    }

    function State(): Guard
      reads this
    {
      Guard(promisePending, unsafePromise, effects)
    }

    constructor (id: string)
      ensures Valid() && this.id == id
      ensures State() == Guard(false, None, []) && transferController == None
    {
      this.id := id;
      transferController := None;
      unsafePromise := None;
      promisePending := false;
      effects := [];
    }

    method WithSafePromise(o: Outcome)
      requires Valid()
      modifies this`promisePending, this`effects
      ensures Valid() && State() == Settle(old(State()), o)
    {
      if unsafePromise.Some? && promisePending {
        promisePending := false;
        effects := effects + [Settled(Settlement(unsafePromise.value, o))];
      }
    }

    /** `upload`: the file's bytes (None when the content resolver gives no
        stream) and the target path (None when null) come from outside; a
        missing one throws after the promise has been stored, leaving the
        manager pending. */
    method Upload(p: PromiseId, source: Option<seq<int8>>, uploadFilePath: Option<string>,
                  controller: ControllerId) returns (thrown: Option<Exception>)
      requires Valid()
      modifies this
      ensures Valid()
      ensures old(promisePending) ==>
        (State() == Begin(old(State()), p, BusyRejection) && transferController == old(transferController) && thrown == None)
      ensures !old(promisePending) && (source.None? || uploadFilePath.None?) ==>
        (State() == Begin(old(State()), p, BusyRejection) && transferController == old(transferController)
         && thrown == Some(NullPointer))
      ensures !old(promisePending) && source.Some? && uploadFilePath.Some? ==>
        (State() == Begin(old(State()), p, BusyRejection).(effects := old(effects) + [Sent(UploadFile(uploadFilePath.value, source.value))])
         && transferController == Some(controller) && thrown == None)
    {
      if promisePending {
        effects := effects + [Settled(Settlement(p, BusyRejection))];
        return None;
      }
      promisePending := true;
      unsafePromise := Some(p);
      if source.None? || uploadFilePath.None? {
        return Some(NullPointer);
      }
      effects := effects + [Sent(UploadFile(uploadFilePath.value, source.value))];
      transferController := Some(controller);
      thrown := None;
    }

    /** `write`, as written: the busy rejection falls through, so the write
        starts anyway and its (already rejected) promise replaces the pending one. */
    method Write(p: PromiseId, data: seq<int32>, filePath: string, controller: ControllerId)
      requires Valid()
      modifies this
      ensures Valid() && promisePending && unsafePromise == Some(p)
      ensures effects == BeginStoringFirst(old(State()), p, BusyRejection).effects + [Sent(UploadFile(filePath, TruncateAll(data)))]
      ensures transferController == Some(controller)
    {
      if promisePending {
        effects := effects + [Settled(Settlement(p, BusyRejection))];
      }
      promisePending := true;
      unsafePromise := Some(p);
      var bytes := ToByteArray(data);
      assert bytes[..] == TruncateAll(data);
      effects := effects + [Sent(UploadFile(filePath, bytes[..]))];
      transferController := Some(controller);
    }

    method Status(p: PromiseId, filePath: string)
      requires Valid()
      modifies this`promisePending, this`unsafePromise, this`effects
      ensures Valid()
      ensures old(promisePending) ==> State() == Begin(old(State()), p, BusyRejection)
      ensures !old(promisePending) ==>
        State() == Begin(old(State()), p, BusyRejection).(effects := old(effects) + [Sent(StatusQuery(filePath))])
    {
      if promisePending {
        effects := effects + [Settled(Settlement(p, BusyRejection))];
        return;
      }
      promisePending := true;
      unsafePromise := Some(p);
      effects := effects + [Sent(StatusQuery(filePath))];
    }

    /** The status callback's `onResponse` / `onError`. */
    method OnStatusReply(r: Reply<nat>)
      requires Valid()
      modifies this`promisePending, this`effects
      ensures Valid() && State() == Settle(old(State()), StatusOutcome(r))
    {
      WithSafePromise(StatusOutcome(r));
    }

    method Hash(p: PromiseId, filePath: string)
      requires Valid()
      modifies this`promisePending, this`unsafePromise, this`effects
      ensures Valid()
      ensures old(promisePending) ==> State() == Begin(old(State()), p, BusyRejection)
      ensures !old(promisePending) ==>
        State() == Begin(old(State()), p, BusyRejection).(effects := old(effects) + [Sent(HashQuery(filePath))])
    {
      if promisePending {
        effects := effects + [Settled(Settlement(p, BusyRejection))];
        return;
      }
      promisePending := true;
      unsafePromise := Some(p);
      effects := effects + [Sent(HashQuery(filePath))];
    }

    /** The hash callback's `onResponse` / `onError`. */
    method OnHashReply(r: Reply<seq<int8>>)
      requires Valid()
      modifies this`promisePending, this`effects
      ensures Valid() && State() == Settle(old(State()), HashOutcome(r))
    {
      WithSafePromise(HashOutcome(r));
    }

    method CancelUpload()
      modifies this`effects
      ensures effects == old(effects) + (if transferController.Some? then [TransferCancelRequested] else [])
    {
      if transferController.Some? {
        effects := effects + [TransferCancelRequested];
      }
    }

    method TearDown()
      modifies this`effects
      ensures effects == old(effects)
        + (if transferController.Some? then [TransferCancelRequested] else []) + [TransportReleased]
    {
      CancelUpload();
      effects := effects + [TransportReleased];
    }

    /** `onUploadProgressChanged`: the percentage on 32-bit `Int`s, as written;
        a zero total throws before anything is emitted. */
    method OnUploadProgressChanged(current: int32, total: int32) returns (thrown: Option<Exception>)
      modifies this`effects
      ensures KotlinPercent(current, total).None? ==> thrown == Some(Arithmetic) && effects == old(effects)
      ensures KotlinPercent(current, total).Some? ==>
        (thrown == None && effects == old(effects) +
         [Emitted(ProgressEvent(FileUploadProgress, id, KotlinPercent(current, total).value, Some(current), Some(total)))])
    {
      var percent := KotlinPercent(current, total);
      if percent.None? {
        return Some(Arithmetic);
      }
      effects := effects + [Emitted(ProgressEvent(FileUploadProgress, id, percent.value, Some(current), Some(total)))];
      thrown := None;
    }

    method OnUploadFailed(error: Error)
      requires Valid()
      modifies this`promisePending, this`effects
      ensures Valid() && State() == Settle(old(State()), Rejected(Thrown(Mcu(error))))
    {
      WithSafePromise(Rejected(Thrown(Mcu(error))));
    }

    method OnUploadCanceled()
      requires Valid()
      modifies this`promisePending, this`effects
      ensures Valid() && State() == Settle(old(State()), CanceledRejection)
    {
      WithSafePromise(CanceledRejection);
    }

    method OnUploadCompleted()
      requires Valid()
      modifies this`promisePending, this`effects
      ensures Valid() && State() == Settle(old(State()), Resolved(Null))
    {
      WithSafePromise(Resolved(Null));
    }
  }

  // ------------------------------------------------------------------------
  // The guarded calls together

  /** A call reaching a manager through its guarded entry points (`upload`,
      `status`, `hash`) or one of the library's callbacks. */
  datatype ManagerCall =
    | UploadCall(p: PromiseId, source: Option<seq<int8>>, uploadFilePath: Option<string>, controller: ControllerId)
    | StatusCall(p: PromiseId, filePath: string)
    | HashCall(p: PromiseId, filePath: string)
    | StatusReplied(status: Reply<nat>)
    | HashReplied(hash: Reply<seq<int8>>)
    | UploadFailed(error: Error)
    | UploadCanceled
    | UploadCompleted

  /** The same call on the generic slot. */
  function SlotCall(c: ManagerCall): Call
  {
    match c
    case UploadCall(p, _, _, _) => Guarded(p)
    case StatusCall(p, _) => Guarded(p)
    case HashCall(p, _) => Guarded(p)
    case StatusReplied(r) => Callback(StatusOutcome(r))
    case HashReplied(r) => Callback(HashOutcome(r))
    case UploadFailed(e) => Callback(Rejected(Thrown(Mcu(e))))
    case UploadCanceled => Callback(CanceledRejection)
    case UploadCompleted => Callback(Resolved(Null))
  }

  function SlotCalls(calls: seq<ManagerCall>): (r: seq<Call>)
    ensures |r| == |calls|
  {
    if calls == [] then [] else [SlotCall(calls[0])] + SlotCalls(calls[1..])
  }

  /** One call on the manager moves its slot as the generic guarded step
      does, up to the requests it sends. */
  method Apply(m: FileManager, c: ManagerCall)
    requires m.Valid()
    modifies m
    ensures m.Valid() && SameSlot(m.State(), Step(old(m.State()), BusyRejection, SlotCall(c)))
  {
    ghost var g := m.State();
    match c
    case UploadCall(p, source, path, controller) =>
      var _ := m.Upload(p, source, path, controller);
      if !g.pending && source.Some? && path.Some? {
        OtherEffect(g.effects, Sent(UploadFile(path.value, source.value)));
      }
    case StatusCall(p, path) =>
      m.Status(p, path);
      if !g.pending {
        OtherEffect(g.effects, Sent(StatusQuery(path)));
      }
    case HashCall(p, path) =>
      m.Hash(p, path);
      if !g.pending {
        OtherEffect(g.effects, Sent(HashQuery(path)));
      }
    case StatusReplied(r) => m.OnStatusReply(r);
    case HashReplied(r) => m.OnHashReply(r);
    case UploadFailed(e) => m.OnUploadFailed(e);
    case UploadCanceled => m.OnUploadCanceled();
    case UploadCompleted => m.OnUploadCompleted();
  }

  /** Driving a manager through any sequence of its guarded calls, each
      request with a promise of its own, settles no promise twice. */
  method Drive(m: FileManager, calls: seq<ManagerCall>)
    requires m.Valid() && Consistent(m.State()) && FreshFor(m.State(), SlotCalls(calls))
    modifies m
    ensures m.Valid() && Consistent(m.State())
  {
    for i := 0 to |calls|
      invariant m.Valid() && Consistent(m.State()) && FreshFor(m.State(), SlotCalls(calls[i..]))
    {
      assert calls[i..][0] == calls[i] && calls[i..][1..] == calls[i + 1..];
      assert SlotCalls(calls[i..]) == [SlotCall(calls[i])] + SlotCalls(calls[i + 1..]);
      ghost var g := m.State();
      StepKeepsConsistent(g, BusyRejection, SlotCall(calls[i]), SlotCalls(calls[i + 1..]));
      Apply(m, calls[i]);
      SameSlotKeepsConsistent(m.State(), Step(g, BusyRejection, SlotCall(calls[i])), SlotCalls(calls[i + 1..]));
    }
  }
}
