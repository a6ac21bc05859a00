/** Values that cross the React Native bridge, shared by the Android and the
    iOS halves of the module: promises and how they are settled, the requests
    handed to the mcumgr libraries, the events pushed to JavaScript, and the
    ordered log of everything a native object does to the outside world. */
module Bridge {

  datatype Option<+T> = None | Some(value: T)

  /** Kotlin `Byte`, Kotlin `Int`, Swift `UInt8` and Swift `Int` (64-bit). */
  type int8 = x: int | -0x80 <= x < 0x80
  type int32 = x: int | -0x8000_0000 <= x < 0x8000_0000
  type uint8 = x: int | 0 <= x < 0x100
  type int64 = x: int | -0x8000_0000_0000_0000 <= x < 0x8000_0000_0000_0000

  /** A JavaScript promise handed to a native method (Android `Promise`, iOS
      resolver/rejecter pair); distinct calls carry distinct identities. */
  type PromiseId = nat

  /** The `TransferController` the mcumgr library hands back for an upload. */
  type ControllerId = nat

  /** "No such entry", the SMP return code the library calls NO_ENTRY /
      `.noEntry` (MGMT_ERR_ENOENT in the mcumgr protocol). */
  const NoEntry: int := 5

  /** An error produced below the bridge. */
  datatype Error =
    | McuReturnCode(rc: int)            // the device answered with a non-zero return code
    | NSError(domain: string, code: int) // an error object built by the Swift code itself
    | Failure(description: string)      // a transport, timeout or I/O failure

  /** A Kotlin throwable. */
  datatype Exception =
    | Plain(message: string)            // `Exception(message)`
    | Interrupted(message: string)      // `InterruptedException(message)`
    | Mcu(error: Error)                 // an `McuMgrException` from the library
    | NullPointer                       // the `!!` operator on null
    | Arithmetic                        // integer division by zero

  /** Why a promise was rejected: Android rejects with a throwable, iOS with
      a code, a message and an optional error. */
  datatype Reason =
    | Thrown(exception: Exception)
    | Coded(code: string, message: string, cause: Option<Error>)

  /** What JavaScript receives: `null`, a number or a string. */
  datatype Value = Null | Int(n: int) | Text(s: string)

  datatype Outcome = Resolved(value: Value) | Rejected(reason: Reason)

  datatype Settlement = Settlement(promise: PromiseId, outcome: Outcome)

  /** A request handed to the mcumgr library (which does the framing). The
      data holds the byte values as the platform's byte type holds them. */
  datatype Request =
    | UploadFile(path: string, data: seq<int>)
    | StatusQuery(path: string)
    | HashQuery(path: string)
    | Issued(command: Command)

  /** The one-shot device commands of the iOS module. */
  datatype Command = ResetDevice | EraseImage | ConfirmImage

  /** A progress event; the Android file manager also reports the byte counts. */
  datatype ProgressEvent = ProgressEvent(
    name: string, id: string, progress: int,
    bytesSent: Option<int>, totalSize: Option<int>)

  const FileUploadProgress: string := "fileUploadProgress"

  /** One observable action of a native object, in the order it happened. */
  datatype Effect =
    | Settled(settlement: Settlement)   // resolve or reject called on a promise
    | Sent(request: Request)            // a request handed to the library
    | Emitted(event: ProgressEvent)     // an event pushed to JavaScript
    | TransferCancelRequested           // `cancel()` on the transfer controller
    | TransportReleased                 // `release()` / `close()` on the transport

  /** The settlements in a log, in order. */
  function Settlements(log: seq<Effect>): seq<Settlement>
  {
    if log == [] then []
    else
      var last := log[|log| - 1];
      Settlements(log[..|log| - 1]) + (if last.Settled? then [last.settlement] else [])
  }

  /** The promises a log has settled. */
  function SettledPromises(log: seq<Effect>): set<PromiseId>
  {
    set s | s in Settlements(log) :: s.promise
  }

  /** No promise is settled twice in the log. */
  predicate SettledAtMostOnce(log: seq<Effect>)
  {
    var s := Settlements(log);
    forall i, j | 0 <= i < j < |s| :: s[i].promise != s[j].promise
  }

  /** Settling a promise appends exactly that settlement; any other effect
      leaves the settlements alone. */
  lemma SettlementsSnoc(log: seq<Effect>, e: Effect)
    ensures Settlements(log + [e]) == Settlements(log) + (if e.Settled? then [e.settlement] else [])
  {
    assert (log + [e])[..|log + [e]| - 1] == log;
  }

  /** Appending the settlement of a promise not yet settled keeps every
      promise settled at most once. */
  lemma SettleFresh(log: seq<Effect>, s: Settlement)
    requires SettledAtMostOnce(log)
    requires s.promise !in SettledPromises(log)
    ensures SettledAtMostOnce(log + [Settled(s)])
    ensures SettledPromises(log + [Settled(s)]) == SettledPromises(log) + {s.promise}
  {
    SettlementsSnoc(log, Settled(s));
    var old_ := Settlements(log);
    var new_ := Settlements(log + [Settled(s)]);
    assert new_ == old_ + [s];
    forall i, j | 0 <= i < j < |new_| ensures new_[i].promise != new_[j].promise {
      if j == |old_| {
        assert new_[i] in old_;
      }
    }
  }

  /** An effect that settles nothing leaves the settlements unchanged. */
  lemma OtherEffect(log: seq<Effect>, e: Effect)
    requires !e.Settled?
    ensures Settlements(log + [e]) == Settlements(log)
    ensures SettledAtMostOnce(log + [e]) == SettledAtMostOnce(log)
    ensures SettledPromises(log + [e]) == SettledPromises(log)
  {
    SettlementsSnoc(log, e);
  }
}
