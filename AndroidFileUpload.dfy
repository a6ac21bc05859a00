/** The Android `FileUpload` (FileUpload.kt): a one-shot upload whose promise
    is settled at most once, guarded by the `promiseComplete` latch, and whose
    terminal callbacks release the transport before settling. */
module AndroidFileUpload {
  import opened Bridge
  import opened Progress

  // ------------------------------------------------------------------------
  // The latch as values

  /** `unsafePromise`, `promiseComplete` and everything done so far. */
  datatype Latch = Latch(stored: Option<PromiseId>, complete: bool, effects: seq<Effect>)

  const CanceledRejection: Outcome := Rejected(Thrown(Interrupted("file upload is canceled")))

  /** `withSafePromise`: settles the stored promise unless the latch has
      closed, closing it first. */
  function Settle(l: Latch, o: Outcome): Latch
  {
    if l.stored.Some? && !l.complete then
      Latch(l.stored, true, l.effects + [Settled(Settlement(l.stored.value, o))])
    else l
  }

  /** A terminal callback (`onUploadFailed`, `onUploadCanceled`,
      `onUploadCompleted`): release the transport, then settle. */
  function Terminal(l: Latch, o: Outcome): Latch
  {
    Settle(l.(effects := l.effects + [TransportReleased]), o)
  }

  /** A call reaching the latch: `start` storing a promise, or a terminal callback. */
  datatype Call = Start(p: PromiseId) | Finished(o: Outcome)

  function Step(l: Latch, c: Call): Latch
  {
    match c
    case Start(p) => l.(stored := Some(p))
    case Finished(o) => Terminal(l, o)
  }

  function Run(l: Latch, calls: seq<Call>): Latch
    decreases |calls|
  {
    if calls == [] then l else Run(Step(l, calls[0]), calls[1..])
  }

  /** A terminal callback appends the release and then at most the one
      settlement of the stored promise. */
  lemma ReleaseBeforeSettle(l: Latch, o: Outcome)
    ensures Terminal(l, o).effects == l.effects + [TransportReleased]
      + (if l.stored.Some? && !l.complete then [Settled(Settlement(l.stored.value, o))] else [])
  {
  }

  /** Before `start` has stored a promise, a terminal callback settles nothing
      and leaves the latch open. */
  lemma NothingSettledBeforeStart(l: Latch, o: Outcome)
    requires l.stored.None?
    ensures Settlements(Terminal(l, o).effects) == Settlements(l.effects)
    ensures !Terminal(l, o).complete == !l.complete
  {
    OtherEffect(l.effects, TransportReleased);
  }

  /** One call adds a settlement only by closing the latch. */
  lemma StepSettlements(l: Latch, c: Call)
    ensures l.complete ==> Step(l, c).complete
    ensures |Settlements(Step(l, c).effects)| ==
      |Settlements(l.effects)| + (if !l.complete && Step(l, c).complete then 1 else 0)
  {
    match c
    case Start(p) =>
    case Finished(o) =>
      var released := l.effects + [TransportReleased];
      OtherEffect(l.effects, TransportReleased);
      if l.stored.Some? && !l.complete {
        SettlementsSnoc(released, Settled(Settlement(l.stored.value, o)));
      }
  }

  /** However many times `start` and the terminal callbacks are called, and
      in whatever order, the upload settles at most one promise, and none
      once the latch has closed. */
  lemma {:induction false} SettledAtMostOnce(l: Latch, calls: seq<Call>)
    ensures |Settlements(Run(l, calls).effects)| <= |Settlements(l.effects)| + (if l.complete then 0 else 1)
    ensures l.complete ==> Run(l, calls).complete
    decreases |calls|
  {
    if calls != [] {
      StepSettlements(l, calls[0]);
      SettledAtMostOnce(Step(l, calls[0]), calls[1..]);
    }
  }

  /** After `start`, the first terminal callback settles the promise `start`
      stored, with that callback's outcome. */
  lemma FirstTerminalSettles(l: Latch, p: PromiseId, o: Outcome)
    requires !l.complete
    ensures var l' := Run(l, [Start(p), Finished(o)]);
      l'.complete && Settlements(l'.effects) == Settlements(l.effects) + [Settlement(p, o)]
  {
    var released := l.effects + [TransportReleased];
    OtherEffect(l.effects, TransportReleased);
    SettlementsSnoc(released, Settled(Settlement(p, o)));
    assert Run(l, [Start(p), Finished(o)]) == Run(Step(l, Start(p)), [Finished(o)]);
  }

  // ------------------------------------------------------------------------
  // The object

  class FileUpload {
    const id: string
    const uploadFilePath: Option<string>
    var transferController: Option<ControllerId>
    var unsafePromise: Option<PromiseId>
    var promiseComplete: bool
    var effects: seq<Effect>

    function State(): Latch
      reads this
    {
      Latch(unsafePromise, promiseComplete, effects)
    }

    constructor (id: string, uploadFilePath: Option<string>)
      ensures this.id == id && this.uploadFilePath == uploadFilePath
      ensures State() == Latch(None, false, []) && transferController == None
    {
      this.id := id;
      this.uploadFilePath := uploadFilePath;
      transferController := None;
      unsafePromise := None;
      promiseComplete := false;
      effects := [];
    }

    method WithSafePromise(o: Outcome)
      modifies this`promiseComplete, this`effects
      ensures State() == Settle(old(State()), o)
    {
      if unsafePromise.Some? && !promiseComplete {
        promiseComplete := true;
        effects := effects + [Settled(Settlement(unsafePromise.value, o))];
      }
    }

    /** `start`: stores the promise, then reads the file (None when the content
        resolver gives no stream) and hands it to the library; a missing stream
        or path throws after the promise is stored. */
    method Start(p: PromiseId, source: Option<seq<int8>>, controller: ControllerId) returns (thrown: Option<Exception>)
      modifies this`unsafePromise, this`effects, this`transferController
      ensures State() == Step(old(State()), Call.Start(p)).(effects := effects)
      ensures source.None? || uploadFilePath.None? ==>
        (thrown == Some(NullPointer) && effects == old(effects) && transferController == old(transferController))
      ensures source.Some? && uploadFilePath.Some? ==>
        (thrown == None && transferController == Some(controller)
         && effects == old(effects) + [Sent(UploadFile(uploadFilePath.value, source.value))])
    {
      unsafePromise := Some(p);
      if source.None? || uploadFilePath.None? {
        return Some(NullPointer);
      }
      effects := effects + [Sent(UploadFile(uploadFilePath.value, source.value))];
      transferController := Some(controller);
      thrown := None;
    }

    method Cancel()
      modifies this`effects
      ensures effects == old(effects) + (if transferController.Some? then [TransferCancelRequested] else [])
    {
      if transferController.Some? {
        effects := effects + [TransferCancelRequested];
      }
    }

    /** `onUploadProgressChanged`: the percentage on 32-bit `Int`s, tagged with
        the upload's id; a zero total throws before anything is emitted. */
    method OnUploadProgressChanged(current: int32, total: int32) returns (thrown: Option<Exception>)
      modifies this`effects
      ensures KotlinPercent(current, total).None? ==> thrown == Some(Arithmetic) && effects == old(effects)
      ensures KotlinPercent(current, total).Some? ==>
        (thrown == None && effects == old(effects) +
         [Emitted(ProgressEvent(FileUploadProgress, id, KotlinPercent(current, total).value, None, None))])
    {
      var percent := KotlinPercent(current, total);
      if percent.None? {
        return Some(Arithmetic);
      }
      effects := effects + [Emitted(ProgressEvent(FileUploadProgress, id, percent.value, None, None))];
      thrown := None;
    }

    method OnUploadFailed(error: Error)
      modifies this`promiseComplete, this`effects
      ensures State() == Terminal(old(State()), Rejected(Thrown(Mcu(error))))
    {
      effects := effects + [TransportReleased];
      WithSafePromise(Rejected(Thrown(Mcu(error))));
    }

    method OnUploadCanceled()
      modifies this`promiseComplete, this`effects
      ensures State() == Terminal(old(State()), CanceledRejection)
    {
      effects := effects + [TransportReleased];
      WithSafePromise(CanceledRejection);
    }

    method OnUploadCompleted()
      modifies this`promiseComplete, this`effects
      ensures State() == Terminal(old(State()), Resolved(Null))
    {
      effects := effects + [TransportReleased];
      WithSafePromise(Resolved(Null));
    }
  }
}
