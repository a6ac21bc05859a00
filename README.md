# react-native-mcu-manager bridge, modelled in Dafny

This project models the native halves of the react-native-mcu-manager
bridge, the code between JavaScript and the mcumgr libraries
(`io.runtime.mcumgr` on Android, `iOSMcuManagerLibrary` on iOS):

- **Android `FileManager`**: one promise slot (`promisePending`,
  `unsafePromise`). While a request is pending, a new one is rejected as busy.
  `withSafePromise` settles the pending promise at most once. The module also
  covers the status and hash result mapping, the hexadecimal rendering of
  digests, the progress percentage and the `write` byte conversion.
- **Android `FileUpload`**: a one-shot upload whose `promiseComplete` latch
  lets only the first terminal callback settle. Each callback releases the
  transport first.
- **iOS `DeviceFileManager`**: the failable initialiser and the upload start
  checks. It keeps the resolver/rejecter pair for the delegate callbacks and
  classifies status and hash replies in a fixed order. It also covers progress
  events and the log-level filter.
- **The bridge modules** (`McuManagerModule.kt`, `McuManager.swift`): the
  id-keyed tables of file managers and upgrades. Android refuses a duplicate
  id and iOS replaces the entry. Lookups of an unknown id are guarded. iOS
  also has the one-shot device commands.

Each native object is a Dafny `class` with the source's fields. What an object
does to the outside world goes into an ordered log `effects`. The log records
settling a promise, sending a request to the library, emitting an event,
cancelling a transfer and releasing a transport. The promise slot shared by
both file managers is also stated as values in `PromiseSlot`. The slot's
methods are tied to those values, and lemmas there prove what the slot
promises over any sequence of calls.

Modules, one file each: `Bridge` (shared values and the effect log),
`Octets` (bytes and hexadecimal), `Progress` (the percentage on each
platform), `PromiseSlot`, `AndroidFileManager`, `AndroidFileUpload`,
`IosDeviceFileManager`, `Registry` (table operations), `Upgrades` (a
stand-in for `DeviceUpgrade`), `AndroidModule`, `IosModule` and
`CrossPlatform` (Android and iOS agree on status and hash).

The class methods follow the code as written, including the defects listed
under Findings. The intended behaviour is stated beside them and proved:
the guarded start `PromiseSlot.Begin` and the widened percentage
`Progress.WidePercent`.

## Model

| member | source | states |
|---|---|---|
| Octets.ToByte | android/src/main/java/uk/co/playerdata/reactnativemcumanager/FileManager.kt:85 | keeps the low eight bits of an `Int` as a signed `Byte`: same value modulo 256, unchanged when already in byte range |
| Octets.Unsigned | android/src/main/java/uk/co/playerdata/reactnativemcumanager/FileManager.kt:142 | the value `%02x` prints for a signed `Byte`: congruent modulo 256, in 0..255, unchanged when non-negative |
| Octets.AndroidHex | android/src/main/java/uk/co/playerdata/reactnativemcumanager/FileManager.kt:141-142 | the hash string has exactly two characters per digest byte, all lower-case hexadecimal digits |
| Octets.AndroidHexRoundTrip | android/src/main/java/uk/co/playerdata/reactnativemcumanager/FileManager.kt:141-142 | reading the hash string back as digit pairs gives every digest byte, unsigned, in order: the rendering loses nothing |
| Octets.IosHexMatchesAndroid | ios/DeviceFileManager.swift:101 | upper-case `%02X` digits lower-cased equal Java's `%02x` of the signed bytes, so both platforms render a digest identically |
| Octets.IosHexRoundTrip | ios/DeviceFileManager.swift:101 | the iOS rendering reads back to the digest bytes |
| Octets.HexDistinguishesDigests | android/src/main/java/uk/co/playerdata/reactnativemcumanager/FileManager.kt:141-142 | on either platform two digests render as the same string only when they are the same bytes |
| Progress.Percent | android/src/main/java/uk/co/playerdata/reactnativemcumanager/FileManager.kt:169 | the intended percentage rounded down: r*total <= current*100 < (r+1)*total, and at most 100 while current <= total |
| Progress.Wrap32 | android/src/main/java/uk/co/playerdata/reactnativemcumanager/FileManager.kt:169 | Kotlin `Int` arithmetic: congruent modulo 2^32 and exact inside the 32-bit range |
| Progress.TruncDiv | android/src/main/java/uk/co/playerdata/reactnativemcumanager/FileManager.kt:169 | integer division truncating toward zero for every sign of dividend and divisor, never larger in magnitude than the dividend |
| Progress.KotlinPercent | android/src/main/java/uk/co/playerdata/reactnativemcumanager/FileManager.kt:169 | `current * 100 / total` on 32-bit `Int`s fails (ArithmeticException) exactly when total is zero |
| Progress.KotlinPercentExact | android/src/main/java/uk/co/playerdata/reactnativemcumanager/FileManager.kt:169 | up to 21,474,836 bytes sent the Kotlin expression is the intended percentage |
| Progress.KotlinPercentOverflows | android/src/main/java/uk/co/playerdata/reactnativemcumanager/FileManager.kt:169 | for a finished upload of 21,474,837 bytes the Kotlin expression gives -99 where the intended percentage is 100 |
| Progress.WidePercent | android/src/main/java/uk/co/playerdata/reactnativemcumanager/FileManager.kt:169 | the widened computation fails only on a zero total and gives the intended percentage, within 0..100, for every 0 <= current <= total |
| Progress.KotlinAgreesWithWide | android/src/main/java/uk/co/playerdata/reactnativemcumanager/FileManager.kt:169 | wherever the product does not overflow the Kotlin expression equals the widened one |
| Progress.SwiftPercent | ios/DeviceFileManager.swift:135 | `bytesSent * 100 / fileSize` on 64-bit `Int`s: no value exactly when the size is zero or the product leaves the 64-bit range (the `Int.min / -1` trap cannot arise, as no multiple of 100 is `Int.min`); otherwise the truncating quotient, which is the intended percentage for 0 <= bytesSent <= fileSize |
| Progress.PlatformsAgree | android/src/main/java/uk/co/playerdata/reactnativemcumanager/FileUpload.kt:54 | up to the 32-bit bound Android and iOS report the same percentage |
| PromiseSlot.BusyLeavesSlotAlone | android/src/main/java/uk/co/playerdata/reactnativemcumanager/FileManager.kt:54-57 | a guarded request while pending rejects its own promise with the refusal and leaves the flag and the stored promise as they were |
| PromiseSlot.StoringFirstReplacesStored | android/src/main/java/uk/co/playerdata/reactnativemcumanager/FileManager.kt:75-80 | the write path while pending rejects its promise and still makes it the stored one |
| PromiseSlot.SettleSettlesStored | android/src/main/java/uk/co/playerdata/reactnativemcumanager/FileManager.kt:41-48 | `withSafePromise` settles exactly the stored promise when pending and clears the flag, and changes nothing otherwise |
| PromiseSlot.SettleOnlyOnce | android/src/main/java/uk/co/playerdata/reactnativemcumanager/FileManager.kt:41-48 | a second callback after a settlement changes nothing |
| PromiseSlot.CallbackKeepsConsistent | android/src/main/java/uk/co/playerdata/reactnativemcumanager/FileManager.kt:41-60 | a callback settles only the stored promise, and only while it is pending, so no promise is settled twice and later requests stay fresh |
| PromiseSlot.RequestKeepsConsistent | android/src/main/java/uk/co/playerdata/reactnativemcumanager/FileManager.kt:41-60 | a guarded request either rejects its own fresh promise (busy) or stores it, keeping every settled promise settled once |
| PromiseSlot.StepKeepsConsistent | android/src/main/java/uk/co/playerdata/reactnativemcumanager/FileManager.kt:41-60 | one guarded request or callback keeps every promise settled at most once and the pending one unsettled |
| PromiseSlot.DeclinedKeepsConsistent | ios/DeviceFileManager.swift:40-43 | a request rejected before it reaches the slot settles only its own fresh promise and leaves the stored one alone |
| PromiseSlot.SameSlotKeepsConsistent | android/src/main/java/uk/co/playerdata/reactnativemcumanager/FileManager.kt:41-60 | effects that settle nothing (requests sent, transfers cancelled) do not affect at-most-once settlement |
| PromiseSlot.RunKeepsConsistent | android/src/main/java/uk/co/playerdata/reactnativemcumanager/FileManager.kt:41-60 | over any sequence of guarded requests (each with its own promise) and callbacks, no promise is settled twice |
| PromiseSlot.SettledAtMostOnceFromIdle | android/src/main/java/uk/co/playerdata/reactnativemcumanager/FileManager.kt:41-60 | from a new manager, each promise is settled at most once |
| PromiseSlot.InterleavedAsWritten | android/src/main/java/uk/co/playerdata/reactnativemcumanager/FileManager.kt:75-80 | as written, write during a pending request leaves the write's promise stored and settled twice |
| PromiseSlot.InterleavedGuarded | android/src/main/java/uk/co/playerdata/reactnativemcumanager/FileManager.kt:54-57 | guarded, the same calls settle the write's promise as busy and the first promise with the result |
| PromiseSlot.StoringFirstWhileBusySettlesTwice | android/src/main/java/uk/co/playerdata/reactnativemcumanager/FileManager.kt:75-80 | the storing-first start settles one promise twice and another never; the guarded start settles each once |
| PromiseSlot.AsWrittenAgreesWhenIdle | android/src/main/java/uk/co/playerdata/reactnativemcumanager/FileManager.kt:72-80 | when write is only called on an idle manager the code as written behaves as the guarded contract |
| AndroidFileManager.WriteWhileBusySettlesTwice | android/src/main/java/uk/co/playerdata/reactnativemcumanager/FileManager.kt:75-80 | write during an upload: the write's promise gets "busy" and then the upload's result; the upload's promise is never settled |
| AndroidFileManager.StatusOutcome | android/src/main/java/uk/co/playerdata/reactnativemcumanager/FileManager.kt:106-118 | status resolves the length for a response, -1 exactly for NO_ENTRY, and rejects with the library's exception otherwise |
| AndroidFileManager.HashOutcome | android/src/main/java/uk/co/playerdata/reactnativemcumanager/FileManager.kt:136-154 | hash resolves a hex string that reads back to the digest, null exactly for NO_ENTRY, and rejects with the exception otherwise |
| AndroidFileManager.NotFoundIsDistinct | android/src/main/java/uk/co/playerdata/reactnativemcumanager/FileManager.kt:112-114 | the "not found" answers (-1, null) differ from every answer to an existing file |
| AndroidFileManager.ToByteArray | android/src/main/java/uk/co/playerdata/reactnativemcumanager/FileManager.kt:82-86 | the byte array is as long as the input and element i is input i truncated to a byte |
| AndroidFileManager.WrittenOctets | android/src/main/java/uk/co/playerdata/reactnativemcumanager/FileManager.kt:82-86 | the device receives the low octet (input mod 256) of each integer written |
| AndroidFileManager.FileManager.constructor | android/src/main/java/uk/co/playerdata/reactnativemcumanager/FileManager.kt:24-39 | a new manager is idle, with no promise and no transfer controller |
| AndroidFileManager.FileManager.WithSafePromise | android/src/main/java/uk/co/playerdata/reactnativemcumanager/FileManager.kt:41-48 | the manager's slot steps as PromiseSlot.Settle |
| AndroidFileManager.FileManager.Upload | android/src/main/java/uk/co/playerdata/reactnativemcumanager/FileManager.kt:50-70 | guarded start; a missing stream or path throws after the promise is stored; otherwise the file goes to the library and the controller is kept |
| AndroidFileManager.FileManager.Write | android/src/main/java/uk/co/playerdata/reactnativemcumanager/FileManager.kt:72-91 | storing-first start as written, then the truncated bytes go to the library |
| AndroidFileManager.FileManager.Status | android/src/main/java/uk/co/playerdata/reactnativemcumanager/FileManager.kt:93-104 | guarded start, then the status request |
| AndroidFileManager.FileManager.OnStatusReply | android/src/main/java/uk/co/playerdata/reactnativemcumanager/FileManager.kt:105-120 | settles the stored promise with StatusOutcome through withSafePromise |
| AndroidFileManager.FileManager.Hash | android/src/main/java/uk/co/playerdata/reactnativemcumanager/FileManager.kt:123-134 | guarded start, then the SHA-256 request |
| AndroidFileManager.FileManager.OnHashReply | android/src/main/java/uk/co/playerdata/reactnativemcumanager/FileManager.kt:135-155 | settles the stored promise with HashOutcome through withSafePromise |
| AndroidFileManager.FileManager.CancelUpload | android/src/main/java/uk/co/playerdata/reactnativemcumanager/FileManager.kt:158-160 | cancels the transfer when there is a controller, and does nothing otherwise |
| AndroidFileManager.FileManager.TearDown | android/src/main/java/uk/co/playerdata/reactnativemcumanager/FileManager.kt:162-165 | cancels any transfer, then releases the transport |
| AndroidFileManager.FileManager.OnUploadProgressChanged | android/src/main/java/uk/co/playerdata/reactnativemcumanager/FileManager.kt:167-180 | emits the 32-bit percentage with the byte counts; a zero total throws and emits nothing |
| AndroidFileManager.FileManager.OnUploadFailed | android/src/main/java/uk/co/playerdata/reactnativemcumanager/FileManager.kt:182-184 | rejects the pending promise with the library's exception, at most once |
| AndroidFileManager.FileManager.OnUploadCanceled | android/src/main/java/uk/co/playerdata/reactnativemcumanager/FileManager.kt:186-188 | rejects the pending promise with "file upload is canceled", at most once |
| AndroidFileManager.FileManager.OnUploadCompleted | android/src/main/java/uk/co/playerdata/reactnativemcumanager/FileManager.kt:190-192 | resolves the pending promise with null, at most once |
| AndroidFileManager.Apply | android/src/main/java/uk/co/playerdata/reactnativemcumanager/FileManager.kt:41-156 | each guarded call on the manager (upload, status, hash, a reply or upload callback) moves its slot as the generic guarded step does, up to the requests it sends |
| AndroidFileManager.Drive | android/src/main/java/uk/co/playerdata/reactnativemcumanager/FileManager.kt:41-192 | driving a manager through any sequence of its guarded calls, each with its own promise, keeps it consistent: no promise is settled twice |
| AndroidFileUpload.ReleaseBeforeSettle | android/src/main/java/uk/co/playerdata/reactnativemcumanager/FileUpload.kt:64-77 | every terminal callback releases the transport before it settles, and settles at most the stored promise |
| AndroidFileUpload.NothingSettledBeforeStart | android/src/main/java/uk/co/playerdata/reactnativemcumanager/FileUpload.kt:29-39 | before start stores a promise a terminal callback settles nothing and leaves the latch open |
| AndroidFileUpload.StepSettlements | android/src/main/java/uk/co/playerdata/reactnativemcumanager/FileUpload.kt:29-36 | one call adds a settlement only by closing the latch, and a closed latch stays closed |
| AndroidFileUpload.SettledAtMostOnce | android/src/main/java/uk/co/playerdata/reactnativemcumanager/FileUpload.kt:29-36 | over any sequence of starts and terminal callbacks the upload settles at most one promise, none once complete |
| AndroidFileUpload.FirstTerminalSettles | android/src/main/java/uk/co/playerdata/reactnativemcumanager/FileUpload.kt:38-39 | after start, the first terminal callback settles start's promise with its own outcome |
| AndroidFileUpload.FileUpload.constructor | android/src/main/java/uk/co/playerdata/reactnativemcumanager/FileUpload.kt:15-27 | a new upload has no promise, an open latch and no controller |
| AndroidFileUpload.FileUpload.WithSafePromise | android/src/main/java/uk/co/playerdata/reactnativemcumanager/FileUpload.kt:29-36 | the latch steps as AndroidFileUpload.Settle |
| AndroidFileUpload.FileUpload.Start | android/src/main/java/uk/co/playerdata/reactnativemcumanager/FileUpload.kt:38-46 | stores the promise; a missing stream or path throws; otherwise the file goes to the library and the controller is kept |
| AndroidFileUpload.FileUpload.Cancel | android/src/main/java/uk/co/playerdata/reactnativemcumanager/FileUpload.kt:48-50 | cancels the transfer when there is a controller, and does nothing otherwise |
| AndroidFileUpload.FileUpload.OnUploadProgressChanged | android/src/main/java/uk/co/playerdata/reactnativemcumanager/FileUpload.kt:52-62 | emits the 32-bit percentage tagged with the upload's id; a zero total throws |
| AndroidFileUpload.FileUpload.OnUploadFailed | android/src/main/java/uk/co/playerdata/reactnativemcumanager/FileUpload.kt:64-67 | releases the transport, then rejects with the error through the latch |
| AndroidFileUpload.FileUpload.OnUploadCanceled | android/src/main/java/uk/co/playerdata/reactnativemcumanager/FileUpload.kt:69-72 | releases the transport, then rejects with an interruption through the latch |
| AndroidFileUpload.FileUpload.OnUploadCompleted | android/src/main/java/uk/co/playerdata/reactnativemcumanager/FileUpload.kt:74-77 | releases the transport, then resolves null through the latch |
| IosDeviceFileManager.StatusCompletion | ios/DeviceFileManager.swift:66-85 | nothing once the manager is gone; an error rejects; a length resolves before the return code is looked at; then noEntry resolves -1; otherwise reject |
| IosDeviceFileManager.HashCompletion | ios/DeviceFileManager.swift:91-111 | nothing once the manager is gone; an error rejects; a digest resolves hex that reads back to it; then noEntry resolves null; otherwise reject |
| IosDeviceFileManager.PayloadBeforeReturnCode | ios/DeviceFileManager.swift:75-80 | a response with a payload is resolved with it even when its return code is noEntry |
| IosDeviceFileManager.NotFoundIsDistinct | ios/DeviceFileManager.swift:78-81 | with noEntry, -1 and null are returned exactly when the payload is missing |
| IosDeviceFileManager.Logged | ios/DeviceFileManager.swift:122-128 | a message is printed, unchanged, exactly when its level is not debug or verbose |
| IosDeviceFileManager.LoggedMonotone | ios/DeviceFileManager.swift:123 | a message printed at one level would be printed at any more severe one |
| IosDeviceFileManager.UploadWhileRunningSettlesTwice | ios/DeviceFileManager.swift:45-57 | a second upload during a running one: the second promise is refused and then gets the first upload's result; the first is never settled |
| IosDeviceFileManager.ReadFailureWhileRunningSettlesTwice | ios/DeviceFileManager.swift:45-60 | through the manager's own methods: upload 1 accepted, upload 2 whose file cannot be read, then upload 1 finishes; promise 2 is rejected and then resolved |
| IosDeviceFileManager.IntendedStep | ios/DeviceFileManager.swift:38-60 | the upload as intended: a URL or read failure, or a refused start, rejects the call's own promise and leaves the stored pair alone; the pair changes only when the library accepts on an idle manager; it moves as the generic guarded slot does |
| IosDeviceFileManager.UploadPromises | ios/DeviceFileManager.swift:38-60 | the promises an upload sequence brings are exactly those its slot requests carry |
| IosDeviceFileManager.IntendedRunKeepsConsistent | ios/DeviceFileManager.swift:38-60 | over any sequence of intended uploads (failing or not) and delegate callbacks, the slot stays consistent |
| IosDeviceFileManager.IntendedUploadsSettleAtMostOnce | ios/DeviceFileManager.swift:38-60 | with the intended upload, any sequence of uploads with promises of their own and delegate callbacks settles no promise twice |
| IosDeviceFileManager.IntendedReadFailureWhileRunning | ios/DeviceFileManager.swift:45-60 | the read-failure scenario with the intended upload: promise 2 is rejected once and promise 1 gets its transfer's result |
| IosDeviceFileManager.DeviceFileManager.constructor | ios/DeviceFileManager.swift:23-36 | a new manager has no stored resolver or rejecter and no transfer |
| IosDeviceFileManager.DeviceFileManager.Create | ios/DeviceFileManager.swift:23-36 | the failable initialiser gives nil exactly when the BLE id is not a UUID string |
| IosDeviceFileManager.DeviceFileManager.Upload | ios/DeviceFileManager.swift:38-62 | a bad URI rejects and stores nothing; then the pair is stored; a read error rejects with its description; a refused start rejects; else the file goes to the library |
| IosDeviceFileManager.DeviceFileManager.Status | ios/DeviceFileManager.swift:64-66 | the status request goes to the library |
| IosDeviceFileManager.DeviceFileManager.StatusReplied | ios/DeviceFileManager.swift:66-85 | the call's promise is settled with StatusCompletion |
| IosDeviceFileManager.DeviceFileManager.Hash | ios/DeviceFileManager.swift:89-91 | the SHA-256 request goes to the library |
| IosDeviceFileManager.DeviceFileManager.HashReplied | ios/DeviceFileManager.swift:91-111 | the call's promise is settled with HashCompletion |
| IosDeviceFileManager.DeviceFileManager.TearDown | ios/DeviceFileManager.swift:115-118 | cancels the transfer, then closes the transport |
| IosDeviceFileManager.DeviceFileManager.UploadProgressDidChange | ios/DeviceFileManager.swift:133-143 | an event only with a bridge, carrying the 64-bit percentage and the id; an overflow or zero size traps |
| IosDeviceFileManager.DeviceFileManager.UploadDidFail | ios/DeviceFileManager.swift:145-147 | rejects the stored promise with "failed to upload file" and the error |
| IosDeviceFileManager.DeviceFileManager.UploadDidCancel | ios/DeviceFileManager.swift:149-151 | rejects the stored promise with the "notice" code |
| IosDeviceFileManager.DeviceFileManager.UploadDidFinish | ios/DeviceFileManager.swift:153-155 | resolves the stored promise with nil |
| CrossPlatform.StatusAgrees | ios/DeviceFileManager.swift:71-84 | for the same device answer, status resolves on Android exactly when on iOS, with the same value |
| CrossPlatform.HashAgrees | ios/DeviceFileManager.swift:96-110 | for the same device answer, hash resolves on Android exactly when on iOS, with the same string |
| Registry.InsertNew | android/src/main/java/uk/co/playerdata/reactnativemcumanager/McuManagerModule.kt:123-129 | a present id is refused and the table unchanged; a new id gains the entry and every other entry stays |
| Registry.Assign | ios/McuManager.swift:99 | a value replaces whatever the id held, nil removes the id, and every other entry stays |
| Registry.Remove | android/src/main/java/uk/co/playerdata/reactnativemcumanager/McuManagerModule.kt:201 | only the given id goes; every other entry stays |
| Registry.InsertNewThenRemove | android/src/main/java/uk/co/playerdata/reactnativemcumanager/McuManagerModule.kt:123-129 | creating under a new id and destroying it gives back the table |
| Registry.DuplicateIds | ios/McuManager.swift:98-100 | on a present id Android refuses while iOS replaces the entry, or removes it when the value is nil |
| Registry.AssignNoneIsRemove | ios/McuManager.swift:144 | assigning nil is removing |
| AndroidModule.McuManagerModule.constructor | android/src/main/java/uk/co/playerdata/reactnativemcumanager/McuManagerModule.kt:22-27 | both tables start empty |
| AndroidModule.McuManagerModule.CreateFileManager | android/src/main/java/uk/co/playerdata/reactnativemcumanager/McuManagerModule.kt:114-130 | throws without an adapter; throws on a present id with the table unchanged; otherwise inserts a new idle manager |
| AndroidModule.McuManagerModule.CancelUpload | android/src/main/java/uk/co/playerdata/reactnativemcumanager/McuManagerModule.kt:132-138 | an absent id throws at the dereference; otherwise the manager cancels its transfer, and its busy flag, stored promise and controller are unchanged |
| AndroidModule.McuManagerModule.UploadFile | android/src/main/java/uk/co/playerdata/reactnativemcumanager/McuManagerModule.kt:140-152 | an absent id rejects "file manager ID not present" and then throws; otherwise the manager's new state is exactly what its upload leaves: busy rejection, or the promise stored and then a NullPointerException for a missing stream or path, or the upload request sent with the controller kept |
| AndroidModule.McuManagerModule.WriteFile | android/src/main/java/uk/co/playerdata/reactnativemcumanager/McuManagerModule.kt:154-165 | an absent id rejects and throws; a null array or path throws and leaves the manager untouched; otherwise the promise is stored, a busy rejection is logged first when one was pending, and the truncated bytes are sent |
| AndroidModule.McuManagerModule.StatFile | android/src/main/java/uk/co/playerdata/reactnativemcumanager/McuManagerModule.kt:167-173 | an absent id rejects and throws; a null path throws and leaves the manager untouched; otherwise a busy manager rejects the promise, and an idle one stores it and sends the status request |
| AndroidModule.McuManagerModule.GetFileHash | android/src/main/java/uk/co/playerdata/reactnativemcumanager/McuManagerModule.kt:175-181 | an absent id rejects and throws; a null path throws and leaves the manager untouched; otherwise a busy manager rejects the promise, and an idle one stores it and sends the hash request |
| AndroidModule.McuManagerModule.ResetFileManager | android/src/main/java/uk/co/playerdata/reactnativemcumanager/McuManagerModule.kt:183-191 | tears the manager down and keeps its entry, with its busy flag, stored promise and controller unchanged; an absent id does nothing |
| AndroidModule.McuManagerModule.DestroyFileManager | android/src/main/java/uk/co/playerdata/reactnativemcumanager/McuManagerModule.kt:193-202 | tears the manager down, then removes only its id; an absent id does nothing |
| AndroidModule.McuManagerModule.CreateUpgrade | android/src/main/java/uk/co/playerdata/reactnativemcumanager/McuManagerModule.kt:204-224 | throws without an adapter or on a present id; otherwise inserts a new upgrade |
| AndroidModule.McuManagerModule.RunUpgrade | android/src/main/java/uk/co/playerdata/reactnativemcumanager/McuManagerModule.kt:226-233 | an absent id rejects "update ID not present" and then throws; otherwise the upgrade starts with the promise and its cancellations are unchanged |
| AndroidModule.McuManagerModule.CancelUpgrade | android/src/main/java/uk/co/playerdata/reactnativemcumanager/McuManagerModule.kt:235-243 | an absent id does nothing; otherwise the upgrade is cancelled once and its runs are unchanged |
| AndroidModule.McuManagerModule.DestroyUpgrade | android/src/main/java/uk/co/playerdata/reactnativemcumanager/McuManagerModule.kt:245-254 | cancels once (runs unchanged), then removes only that id; an absent id does nothing |
| IosModule.SupportedEvents | ios/McuManager.swift:18-24 | exactly three event names: "uploadProgress", "upgradeStateChanged" and the file managers' "fileUploadProgress" |
| IosModule.CommandOutcome | ios/McuManager.swift:37-46 | a command resolves nil exactly when there is no error, and otherwise rejects with the command's code and the error |
| IosModule.CommandCodesDistinct | ios/McuManager.swift:41 | rejections of different commands carry different codes |
| IosModule.RNMcuManager.constructor | ios/McuManager.swift:11-16 | both dictionaries start empty |
| IosModule.RNMcuManager.CreateFileManager | ios/McuManager.swift:97-100 | assigns the failable initialiser's result: replaces any entry, removes the id when the BLE id is not a UUID |
| IosModule.RNMcuManager.UploadFile | ios/McuManager.swift:102-111 | an unknown id rejects "ID_NOT_FOUND" and calls no manager; otherwise the manager's new state for each branch of its upload: URI rejection with the pair kept, pair replaced then read rejection, pair replaced then refused start, or pair replaced and the upload sent |
| IosModule.RNMcuManager.StatFile | ios/McuManager.swift:113-122 | an unknown id rejects "ID_NOT_FOUND"; otherwise the status request is sent and the manager's upload pair and transfer state are unchanged |
| IosModule.RNMcuManager.GetFileHash | ios/McuManager.swift:124-133 | an unknown id rejects "ID_NOT_FOUND"; otherwise the hash request is sent and the manager's upload pair and transfer state are unchanged |
| IosModule.RNMcuManager.DestroyFileManager | ios/McuManager.swift:135-145 | tears the manager down, then removes only its id; an unknown id does nothing |
| IosModule.RNMcuManager.CreateUpgrade | ios/McuManager.swift:147-150 | assigns a new upgrade, replacing any under the id |
| IosModule.RNMcuManager.RunUpgrade | ios/McuManager.swift:152-160 | an unknown id rejects "ID_NOT_FOUND"; otherwise the upgrade starts with the promise and its cancellations are unchanged |
| IosModule.RNMcuManager.CancelUpgrade | ios/McuManager.swift:162-169 | an unknown id does nothing; otherwise the upgrade is cancelled once and its runs are unchanged |
| IosModule.RNMcuManager.DestroyUpgrade | ios/McuManager.swift:171-179 | cancels once (runs unchanged), then removes only that id; an unknown id does nothing |
| IosModule.RNMcuManager.IssueCommand | ios/McuManager.swift:26-95 | reset, erase and confirm reject "failed to parse uuid" before any transport when the id is not a UUID, and otherwise send the command |
| IosModule.RNMcuManager.CommandCompleted | ios/McuManager.swift:37-46 | the command's transport is closed before the promise is settled with CommandOutcome |

## Left out

- AndroidFileManager.FileManager.Write: takes the array's elements as integers. `ReadableArray.getInt` (FileManager.kt:85) converts a JavaScript number to `Int` with Java's saturating, truncating cast; that conversion is not modelled.
- Reading the source file (Android content resolver, iOS `FileHandle`) is I/O. Its result is a parameter: the bytes, or none for a missing stream (Android), or the error's description (iOS).
- The BLE transport (connect, await, the 60-second timeouts, logging switches) and device lookup by MAC address or UUID are I/O. Creating a manager or an upgrade does not model the device.
- Android `eraseImage`, `confirmImage` and `reset` (McuManagerModule.kt:33-112) connect and await a transport synchronously. That is I/O throughout, so they are left out. Their iOS counterparts are modelled up to the transport.
- SMP framing, CBOR, chunking, offsets and retries belong to the mcumgr libraries. The library is reduced to requests in the effect log and to its callbacks (response or error, progress, failed, canceled, completed) as methods.
- `DeviceUpgrade` is not part of this model. `Upgrades.DeviceUpgrade` only records the promises it is started with and how often it is cancelled.
- React promise and event delivery is reduced to `Settled` and `Emitted` entries of the log. Android's `updateProgressCB` and `upgradeStateCB` forward upgrade events and are left out with `DeviceUpgrade`.
- The `@Synchronized` lock on `withSafePromise` is modelled by running calls one at a time. The at-most-once property is proved for every interleaving of whole calls.
- iOS status and hash callbacks hold the manager weakly. The model states the "manager gone" case in the pure classification (`alive`). The class methods model the callback while the manager is alive.
- The NO_ENTRY return code is the library's constant: 5, MGMT_ERR_ENOENT in the mcumgr protocol. The levels of `McuMgrLogLevel` are taken in their order of severity (debug, verbose, info, application, warning, error); their raw values are not modelled, since the log filter depends only on that order.
- AndroidFileManager.FileManager.Upload: "no stream" (`source` is None) folds two cases together. A missing file makes `openInputStream` throw `FileNotFoundException`, which the model reports as the same NullPointerException; the manager is left in the same state either way. A null URI string throws inside `Uri.parse` (McuManagerModule.kt:150) before any manager is touched, and the model has no input for it.
- IosDeviceFileManager.IsUuidString: approximates Foundation's `UUID(uuidString:)` as the 8-4-4-4-12 hexadecimal form of either case.
- IosDeviceFileManager.DeviceFileManager.Upload: the URL parse is a parameter. `URL(string:)` is not modelled.
- IosDeviceFileManager.DeviceFileManager.Upload: a library that refuses to start is modelled by its documented condition, another transfer running (the ghost `transferRunning`). The delegate methods require a running transfer, which is the library's protocol.
- Octets.Lowercased: lower-cases ASCII letters only, the only letters a hexadecimal rendering contains.
- Progress.SwiftPercent: a Swift overflow or division trap is modelled as "no value". The process aborting is not modelled.
- Log output (`Log.d`, `print`) other than the iOS log delegate's filter is not modelled.
- When iOS `createFileManager` replaces an existing manager, the old manager is not torn down. The model records the replacement and nothing about the old manager's transport.

## Findings

| source | as written | input that shows it | evidently intended | confidence | as-written member | corrected member |
|---|---|---|---|---|---|---|
| android/src/main/java/uk/co/playerdata/reactnativemcumanager/FileManager.kt:75-80 | `write` rejects a busy call but does not return, so the rejected promise becomes the pending one | upload with promise 1, write with promise 2 while it is pending, then the upload completes: promise 2 is settled twice (busy, then null) and promise 1 never | return after the busy rejection, as `upload`, `status` and `hash` do | not executed | AndroidFileManager.WriteWhileBusySettlesTwice | PromiseSlot.RunKeepsConsistent |
| ios/DeviceFileManager.swift:45-60 | `upload` stores the resolver/rejecter before the file is read, so a read failure replaces the running upload's pair before rejecting | upload with promise 1 (accepted), upload with promise 2 whose file cannot be read while the first still runs, then the first finishes: promise 2 is rejected and then resolved, and promise 1 is never settled | store the pair only once the library has accepted the upload | not executed | IosDeviceFileManager.ReadFailureWhileRunningSettlesTwice | IosDeviceFileManager.IntendedUploadsSettleAtMostOnce |
| ios/DeviceFileManager.swift:45-57 | `upload` stores the resolver/rejecter before the library is asked, so a refused start replaces the running upload's pair | upload with promise 1, upload with promise 2 while the library still runs the first (it refuses), then the first finishes: promise 2 is rejected and then resolved, and promise 1 is never settled | store the pair only once the library has accepted the upload | not executed; relies on the library refusing an upload while a transfer runs | IosDeviceFileManager.UploadWhileRunningSettlesTwice | IosDeviceFileManager.IntendedUploadsSettleAtMostOnce |
| android/src/main/java/uk/co/playerdata/reactnativemcumanager/FileManager.kt:169 | `current * 100 / total` multiplies 32-bit `Int`s, which wraps for current above 21,474,836 (the same expression is at FileUpload.kt:54) | current = total = 21,474,837: the event reports -99 instead of 100 | widen to `Long` before multiplying | not executed | Progress.KotlinPercentOverflows | Progress.WidePercent |
