/** The iOS bridge module (McuManager.swift): the `fileManagers` and
    `upgrades` dictionaries, the React methods that assign, look up and
    remove their entries, the declared events, and the one-shot device
    commands `reset`, `eraseImage` and `confirmImage`. */
module IosModule {
  import opened Bridge
  import opened Registry
  import opened Upgrades
  import opened PromiseSlot
  import IosDeviceFileManager

  type DeviceFileManager = IosDeviceFileManager.DeviceFileManager

  const FileManagerNotFound: Outcome := Rejected(Coded("ID_NOT_FOUND", "File manager object not found", None))
  const UpgradeNotFound: Outcome := Rejected(Coded("ID_NOT_FOUND", "Upgrade object not found", None))
  const UuidRejection: Outcome := Rejected(Coded("error", "failed to parse uuid", Some(NSError("", 200))))

  /** `supportedEvents`: the event names the module may send, among them the
      one every file manager's progress events carry. */
  function SupportedEvents(): (events: seq<string>)
    ensures |events| == 3
    ensures "uploadProgress" in events && "upgradeStateChanged" in events && FileUploadProgress in events
  {
    ["uploadProgress", "upgradeStateChanged", FileUploadProgress]
  }

  /** The rejection code of each device command. */
  function ErrorCode(c: Command): string
  {
    match c
    case ResetDevice => "RESET_ERR"
    case EraseImage => "ERASE_ERR"
    case ConfirmImage => "CONFIRM_ERR"
  }

  /** A device command's completion: an error rejects with the command's code
      and the error's description, otherwise the promise resolves nil. */
  function CommandOutcome(c: Command, err: Option<Error>, description: string): (o: Outcome)
    ensures o.Resolved? <==> err.None?
    ensures o.Resolved? ==> o.value == Null
    ensures o.Rejected? ==> o.reason.Coded? && o.reason.code == ErrorCode(c) && o.reason.cause == err
  {
    if err.Some? then Rejected(Coded(ErrorCode(c), description, err)) else Resolved(Null)
  }

  /** A rejected command can be told from the others by its code. */
  lemma CommandCodesDistinct(c1: Command, c2: Command, e1: Error, e2: Error, d1: string, d2: string)
    requires c1 != c2
    ensures CommandOutcome(c1, Some(e1), d1) != CommandOutcome(c2, Some(e2), d2)
  {
  }

  class RNMcuManager {
    var upgrades: map<string, DeviceUpgrade>
    var fileManagers: map<string, DeviceFileManager>
    /** What the module does itself (rejections, transports it opens and
        closes), in order. */
    var effects: seq<Effect>

    /** Every manager is in a valid state, and no two ids share one. */
    ghost predicate Valid()
      reads this, fileManagers.Values
    {
      && (forall id | id in fileManagers :: fileManagers[id].Valid())
      && (forall a, b | a in fileManagers && b in fileManagers && a != b :: fileManagers[a] != fileManagers[b])
    }

    constructor ()
      ensures Valid() && upgrades == map[] && fileManagers == map[] && effects == []
    {
      upgrades := map[];
      fileManagers := map[];
      effects := [];
    }

    /** `createFileManager`: assigns the result of the failable initialiser,
        so an existing entry is replaced (without being torn down) and an
        invalid `bleId` removes the id. */
    method CreateFileManager(id: string, bleId: string)
      requires Valid()
      modifies this`fileManagers
      ensures Valid()
      ensures !IosDeviceFileManager.IsUuidString(bleId) ==> fileManagers == Assign(old(fileManagers), id, None)
      ensures IosDeviceFileManager.IsUuidString(bleId) ==>
        && id in fileManagers && fresh(fileManagers[id])
        && fileManagers == Assign(old(fileManagers), id, Some(fileManagers[id]))
        && fileManagers[id].id == id && fileManagers[id].bleId == bleId && fileManagers[id].State() == Idle
    {
      var m := IosDeviceFileManager.DeviceFileManager.Create(id, bleId);
      fileManagers := Assign(fileManagers, id, if m == null then None else Some(m));
    }

    /** `uploadFile`: an unknown id rejects "ID_NOT_FOUND" and calls no
        manager; otherwise the manager's `upload` runs. */
    method UploadFile(fid: string, p: PromiseId, uriParses: bool, read: IosDeviceFileManager.ReadResult,
                      targetFilePath: string, accepted: bool)
      requires Valid()
      requires fid in fileManagers ==> accepted == !fileManagers[fid].transferRunning
      modifies this`effects, if fid in fileManagers then {fileManagers[fid]} else {}
      ensures Valid()
      ensures fid !in fileManagers ==> effects == old(effects) + [Settled(Settlement(p, FileManagerNotFound))]
      ensures fid in fileManagers ==> effects == old(effects)
      ensures fid in fileManagers && !uriParses ==>
        && fileManagers[fid].uploadResolver == old(fileManagers[fid].uploadResolver)
        && fileManagers[fid].transferRunning == old(fileManagers[fid].transferRunning)
        && fileManagers[fid].effects == old(fileManagers[fid].effects) + [Settled(Settlement(p, IosDeviceFileManager.UriRejection))]
      ensures fid in fileManagers && uriParses && read.ReadFailed? ==>
        && fileManagers[fid].uploadResolver == Some(p)
        && fileManagers[fid].transferRunning == old(fileManagers[fid].transferRunning)
        && fileManagers[fid].effects
           == old(fileManagers[fid].effects) + [Settled(Settlement(p, IosDeviceFileManager.ReadRejection(read.description)))]
      ensures fid in fileManagers && uriParses && read.Read? && !accepted ==>
        fileManagers[fid].State() == BeginStoringFirst(old(fileManagers[fid].State()), p, IosDeviceFileManager.StartRefused)
      ensures fid in fileManagers && uriParses && read.Read? && accepted ==>
        fileManagers[fid].State()
        == BeginStoringFirst(old(fileManagers[fid].State()), p, IosDeviceFileManager.StartRefused)
           .(effects := old(fileManagers[fid].effects) + [Sent(Request.UploadFile(targetFilePath, read.data))])
    {
      if fid !in fileManagers {
        effects := effects + [Settled(Settlement(p, FileManagerNotFound))];
        return;
      }
      fileManagers[fid].Upload(p, uriParses, read, targetFilePath, accepted);
    }

    /** `statFile`: an unknown id rejects; otherwise the request is sent. */
    method StatFile(fid: string, p: PromiseId, filePath: string)
      requires Valid()
      modifies this`effects, if fid in fileManagers then {fileManagers[fid]} else {}
      ensures Valid()
      ensures fid !in fileManagers ==> effects == old(effects) + [Settled(Settlement(p, FileManagerNotFound))]
      ensures fid in fileManagers ==>
        effects == old(effects)
        && fileManagers[fid].effects == old(fileManagers[fid].effects) + [Sent(StatusQuery(filePath))]
      ensures fid in fileManagers ==>
        && fileManagers[fid].uploadResolver == old(fileManagers[fid].uploadResolver)
        && fileManagers[fid].uploadRejecter == old(fileManagers[fid].uploadRejecter)
        && fileManagers[fid].transferRunning == old(fileManagers[fid].transferRunning)
    {
      if fid !in fileManagers {
        effects := effects + [Settled(Settlement(p, FileManagerNotFound))];
        return;
      }
      fileManagers[fid].Status(p, filePath);
    }

    /** `getFileHash`: an unknown id rejects; otherwise the request is sent. */
    method GetFileHash(fid: string, p: PromiseId, filePath: string)
      requires Valid()
      modifies this`effects, if fid in fileManagers then {fileManagers[fid]} else {}
      ensures Valid()
      ensures fid !in fileManagers ==> effects == old(effects) + [Settled(Settlement(p, FileManagerNotFound))]
      ensures fid in fileManagers ==>
        effects == old(effects)
        && fileManagers[fid].effects == old(fileManagers[fid].effects) + [Sent(HashQuery(filePath))]
      ensures fid in fileManagers ==>
        && fileManagers[fid].uploadResolver == old(fileManagers[fid].uploadResolver)
        && fileManagers[fid].uploadRejecter == old(fileManagers[fid].uploadRejecter)
        && fileManagers[fid].transferRunning == old(fileManagers[fid].transferRunning)
    {
      if fid !in fileManagers {
        effects := effects + [Settled(Settlement(p, FileManagerNotFound))];
        return;
      }
      fileManagers[fid].Hash(p, filePath);
    }

    /** `destroyFileManager`: tears the manager down, then removes only its
        id; an unknown id does nothing. */
    method DestroyFileManager(id: string)
      requires Valid()
      modifies this`fileManagers, if id in fileManagers then {fileManagers[id]} else {}
      ensures Valid()
      ensures fileManagers == Remove(old(fileManagers), id)
      ensures id in old(fileManagers) ==>
        old(fileManagers)[id].effects == old(fileManagers[id].effects) + [TransferCancelRequested, TransportReleased]
      ensures forall k | k in fileManagers :: unchanged(fileManagers[k])
    {
      if id !in fileManagers {
        return;
      }
      fileManagers[id].TearDown();
      fileManagers := Remove(fileManagers, id);
    }

    /** `createUpgrade`: assigns a new upgrade, replacing any under the id. */
    method CreateUpgrade(id: string)
      modifies this`upgrades
      ensures id in upgrades && fresh(upgrades[id]) && upgrades[id].id == id
      ensures upgrades == Assign(old(upgrades), id, Some(upgrades[id]))
    {
      var u := new DeviceUpgrade(id);
      upgrades := Assign(upgrades, id, Some(u));
    }

    /** `runUpgrade`: an unknown id rejects "ID_NOT_FOUND". */
    method RunUpgrade(id: string, p: PromiseId)
      modifies this`effects, if id in upgrades then {upgrades[id]} else {}
      ensures id !in upgrades ==> effects == old(effects) + [Settled(Settlement(p, UpgradeNotFound))]
      ensures id in upgrades ==>
        && effects == old(effects)
        && upgrades[id].runs == old(upgrades[id].runs) + [p] && upgrades[id].cancels == old(upgrades[id].cancels)
    {
      if id !in upgrades {
        effects := effects + [Settled(Settlement(p, UpgradeNotFound))];
        return;
      }
      upgrades[id].StartUpgrade(p);
    }

    /** `cancelUpgrade`: an unknown id does nothing. */
    method CancelUpgrade(id: string)
      modifies if id in upgrades then {upgrades[id]} else {}
      ensures id in upgrades ==>
        upgrades[id].cancels == old(upgrades[id].cancels) + 1 && upgrades[id].runs == old(upgrades[id].runs)
    {
      if id !in upgrades {
        return;
      }
      upgrades[id].Cancel();
    }

    /** `destroyUpgrade`: cancels, then removes only that id; an unknown id
        does nothing. */
    method DestroyUpgrade(id: string)
      modifies this`upgrades, if id in upgrades then {upgrades[id]} else {}
      ensures upgrades == Remove(old(upgrades), id)
      ensures id in old(upgrades) ==>
        old(upgrades)[id].cancels == old(upgrades[id].cancels) + 1 && old(upgrades)[id].runs == old(upgrades[id].runs)
    {
      if id !in upgrades {
        return;
      }
      upgrades[id].Cancel();
      upgrades := Remove(upgrades, id);
    }

    /** `reset`, `eraseImage`, `confirmImage`: an identifier that is not a UUID
        rejects before any transport exists; otherwise the command is sent
        over a transport of its own. */
    method IssueCommand(c: Command, p: PromiseId, bleId: string)
      modifies this`effects
      ensures !IosDeviceFileManager.IsUuidString(bleId) ==> effects == old(effects) + [Settled(Settlement(p, UuidRejection))]
      ensures IosDeviceFileManager.IsUuidString(bleId) ==> effects == old(effects) + [Sent(Issued(c))]
    {
      if !IosDeviceFileManager.IsUuidString(bleId) {
        effects := effects + [Settled(Settlement(p, UuidRejection))];
        return;
      }
      effects := effects + [Sent(Issued(c))];
    }

    /** A command's completion: the transport is closed first, then the
        promise is settled. */
    method CommandCompleted(c: Command, p: PromiseId, err: Option<Error>, description: string)
      modifies this`effects
      ensures effects == old(effects) + [TransportReleased, Settled(Settlement(p, CommandOutcome(c, err, description)))]
    {
      effects := effects + [TransportReleased, Settled(Settlement(p, CommandOutcome(c, err, description)))];
    }
  }
}
