/** The two file managers answer JavaScript alike: for the same device
    answer, a status or hash request resolves on Android exactly when it
    resolves on iOS, and with the same value. Only the rejections differ
    (Android passes the library's exception, iOS a code and a message). */
module CrossPlatform {
  import opened Bridge
  import opened Octets
  import AndroidFileManager
  import IosDeviceFileManager

  /** What the device answers to a status or hash request: the payload, or a
      return code without one. */
  datatype Answer<T> = Answered(body: T) | ReturnCode(rc: int)

  /** The Android library reports a return code as an `McuMgrErrorException`. */
  function AndroidReply<T>(a: Answer<T>): AndroidFileManager.Reply<T>
  {
    match a
    case Answered(b) => AndroidFileManager.Response(b)
    case ReturnCode(rc) => AndroidFileManager.ErrorReply(McuReturnCode(rc))
  }

  /** The iOS library hands over the decoded response and no error. */
  function IosStatus(a: Answer<nat>): Option<IosDeviceFileManager.StatusResponse>
  {
    match a
    case Answered(len) => Some(IosDeviceFileManager.StatusResponse(Some(len), 0))
    case ReturnCode(rc) => Some(IosDeviceFileManager.StatusResponse(None, rc))
  }

  /** iOS sees the digest's bytes unsigned. */
  function IosHash(a: Answer<seq<int8>>): Option<IosDeviceFileManager.HashResponse>
  {
    match a
    case Answered(digest) => Some(IosDeviceFileManager.HashResponse(Some(UnsignedAll(digest)), 0))
    case ReturnCode(rc) => Some(IosDeviceFileManager.HashResponse(None, rc))
  }

  lemma StatusAgrees(a: Answer<nat>)
    ensures var android := AndroidFileManager.StatusOutcome(AndroidReply(a));
      var ios := IosDeviceFileManager.StatusCompletion(true, IosStatus(a), None).value;
      && (android.Resolved? <==> ios.Resolved?)
      && (android.Resolved? ==> android == ios)
  {
  }

  lemma HashAgrees(a: Answer<seq<int8>>)
    ensures var android := AndroidFileManager.HashOutcome(AndroidReply(a));
      var ios := IosDeviceFileManager.HashCompletion(true, IosHash(a), None).value;
      && (android.Resolved? <==> ios.Resolved?)
      && (android.Resolved? ==> android == ios)
  {
    if a.Answered? {
      IosHexMatchesAndroid(a.body);
    }
  }
}
