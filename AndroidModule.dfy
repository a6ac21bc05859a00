/** The Android bridge module (McuManagerModule.kt): the `fileManagers` and
    `upgrades` tables, and the React methods that create, look up and
    destroy their entries. A method that throws is modelled by returning the
    exception; React then reports it, and the call's own promise is left as
    the method left it. */
module AndroidModule {
  import opened Bridge
  import opened Registry
  import opened Upgrades
  import opened PromiseSlot
  import AndroidFileManager

  type FileManager = AndroidFileManager.FileManager

  const NoAdapter: Exception := Plain("No bluetooth adapter")
  const FileManagerNotPresent: Outcome := Rejected(Thrown(Plain("file manager ID not present")))
  const UpdateNotPresent: Outcome := Rejected(Thrown(Plain("update ID not present")))

  class McuManagerModule {
    /** Whether `BluetoothAdapter.getDefaultAdapter()` found an adapter. */
    const adapterPresent: bool
    var upgrades: map<string, DeviceUpgrade>
    var fileManagers: map<string, FileManager>
    /** The promises the module settles itself, in order. */
    var effects: seq<Effect>

    /** Every manager is in a valid state, and no two ids share one. */
    ghost predicate Valid()
      reads this, fileManagers.Values
    {
      && (forall id | id in fileManagers :: fileManagers[id].Valid())
      && (forall a, b | a in fileManagers && b in fileManagers && a != b :: fileManagers[a] != fileManagers[b])
    }

    constructor (adapterPresent: bool)
      ensures Valid() && this.adapterPresent == adapterPresent
      ensures upgrades == map[] && fileManagers == map[] && effects == []
    {
      this.adapterPresent := adapterPresent;
      upgrades := map[];
      fileManagers := map[];
      effects := [];
    }

    /** `createFileManager`: throws without an adapter, throws on an id
        already present (the table unchanged), otherwise inserts a new idle
        manager under the id. */
    method CreateFileManager(id: string) returns (thrown: Option<Exception>)
      requires Valid()
      modifies this`fileManagers
      ensures Valid()
      ensures !adapterPresent ==> thrown == Some(NoAdapter) && fileManagers == old(fileManagers)
      ensures adapterPresent && id in old(fileManagers) ==>
        thrown == Some(Plain("file manager ID already present")) && fileManagers == old(fileManagers)
      ensures adapterPresent && id !in old(fileManagers) ==>
        && thrown == None && id in fileManagers && fresh(fileManagers[id])
        && Some(fileManagers) == InsertNew(old(fileManagers), id, fileManagers[id])
        && fileManagers[id].id == id && fileManagers[id].State() == Idle
    {
      if !adapterPresent {
        return Some(NoAdapter);
      }
      if id in fileManagers {
        return Some(Plain("file manager ID already present"));
      }
      var m := new AndroidFileManager.FileManager(id);
      fileManagers := InsertNew(fileManagers, id, m).value;
      thrown := None;
    }

    /** `cancelUpload`: an absent id is only logged, and the `!!` that follows
        throws. */
    method CancelUpload(fid: string) returns (thrown: Option<Exception>)
      modifies if fid in fileManagers then {fileManagers[fid]} else {}
      ensures fid !in fileManagers ==> thrown == Some(NullPointer)
      ensures fid in fileManagers ==>
        (thrown == None
         && fileManagers[fid].effects == old(fileManagers[fid].effects)
            + (if fileManagers[fid].transferController.Some? then [TransferCancelRequested] else []))
      ensures fid in fileManagers ==>
        && fileManagers[fid].promisePending == old(fileManagers[fid].promisePending)
        && fileManagers[fid].unsafePromise == old(fileManagers[fid].unsafePromise)
        && fileManagers[fid].transferController == old(fileManagers[fid].transferController)
    {
      if fid !in fileManagers {
        return Some(NullPointer);
      }
      fileManagers[fid].CancelUpload();
      thrown := None;
    }

    /** `uploadFile`: an absent id rejects the promise and then throws at the
        `!!`; otherwise the manager's `upload` runs. */
    method UploadFile(fid: string, p: PromiseId, source: Option<seq<int8>>, targetFilePath: Option<string>,
                      controller: ControllerId) returns (thrown: Option<Exception>)
      requires Valid()
      modifies this`effects, if fid in fileManagers then {fileManagers[fid]} else {}
      ensures Valid()
      ensures fid !in fileManagers ==>
        thrown == Some(NullPointer) && effects == old(effects) + [Settled(Settlement(p, FileManagerNotPresent))]
      ensures fid in fileManagers ==> effects == old(effects)
      ensures fid in fileManagers && old(fileManagers[fid].promisePending) ==>
        && thrown == None
        && fileManagers[fid].State() == Begin(old(fileManagers[fid].State()), p, AndroidFileManager.BusyRejection)
        && fileManagers[fid].transferController == old(fileManagers[fid].transferController)
      ensures fid in fileManagers && !old(fileManagers[fid].promisePending) && (source.None? || targetFilePath.None?) ==>
        && thrown == Some(NullPointer)
        && fileManagers[fid].State() == Begin(old(fileManagers[fid].State()), p, AndroidFileManager.BusyRejection)
        && fileManagers[fid].transferController == old(fileManagers[fid].transferController)
      ensures fid in fileManagers && !old(fileManagers[fid].promisePending) && source.Some? && targetFilePath.Some? ==>
        && thrown == None
        && fileManagers[fid].State()
           == Begin(old(fileManagers[fid].State()), p, AndroidFileManager.BusyRejection)
              .(effects := old(fileManagers[fid].effects) + [Sent(Request.UploadFile(targetFilePath.value, source.value))])
        && fileManagers[fid].transferController == Some(controller)
    {
      if fid !in fileManagers {
        effects := effects + [Settled(Settlement(p, FileManagerNotPresent))];
        return Some(NullPointer);
      }
      thrown := fileManagers[fid].Upload(p, source, targetFilePath, controller);
    }

    /** `writeFile`: an absent id rejects and throws; a null array or path
        throws at its `!!` before the manager is called. */
    method WriteFile(fid: string, p: PromiseId, data: Option<seq<int32>>, filePath: Option<string>,
                     controller: ControllerId) returns (thrown: Option<Exception>)
      requires Valid()
      modifies this`effects, if fid in fileManagers then {fileManagers[fid]} else {}
      ensures Valid()
      ensures fid !in fileManagers ==>
        thrown == Some(NullPointer) && effects == old(effects) + [Settled(Settlement(p, FileManagerNotPresent))]
      ensures fid in fileManagers ==> effects == old(effects)
      ensures fid in fileManagers && (data.None? || filePath.None?) ==>
        thrown == Some(NullPointer) && unchanged(fileManagers[fid])
      ensures fid in fileManagers && data.Some? && filePath.Some? ==>
        && thrown == None && fileManagers[fid].unsafePromise == Some(p) && fileManagers[fid].promisePending
        && fileManagers[fid].effects
           == BeginStoringFirst(old(fileManagers[fid].State()), p, AndroidFileManager.BusyRejection).effects
              + [Sent(Request.UploadFile(filePath.value, AndroidFileManager.TruncateAll(data.value)))]
        && fileManagers[fid].transferController == Some(controller)
    {
      if fid !in fileManagers {
        effects := effects + [Settled(Settlement(p, FileManagerNotPresent))];
        return Some(NullPointer);
      }
      if data.None? || filePath.None? {
        return Some(NullPointer);
      }
      fileManagers[fid].Write(p, data.value, filePath.value, controller);
      thrown := None;
    }

    /** `statFile`: as `writeFile`, with the manager's `status`. */
    method StatFile(fid: string, p: PromiseId, filePath: Option<string>) returns (thrown: Option<Exception>)
      requires Valid()
      modifies this`effects, if fid in fileManagers then {fileManagers[fid]} else {}
      ensures Valid()
      ensures fid !in fileManagers ==>
        thrown == Some(NullPointer) && effects == old(effects) + [Settled(Settlement(p, FileManagerNotPresent))]
      ensures fid in fileManagers ==> effects == old(effects)
      ensures fid in fileManagers && filePath.None? ==>
        thrown == Some(NullPointer) && unchanged(fileManagers[fid])
      ensures fid in fileManagers && filePath.Some? ==>
        thrown == None && fileManagers[fid].transferController == old(fileManagers[fid].transferController)
      ensures fid in fileManagers && filePath.Some? && old(fileManagers[fid].promisePending) ==>
        fileManagers[fid].State() == Begin(old(fileManagers[fid].State()), p, AndroidFileManager.BusyRejection)
      ensures fid in fileManagers && filePath.Some? && !old(fileManagers[fid].promisePending) ==>
        fileManagers[fid].State()
        == Begin(old(fileManagers[fid].State()), p, AndroidFileManager.BusyRejection)
           .(effects := old(fileManagers[fid].effects) + [Sent(StatusQuery(filePath.value))])
    {
      if fid !in fileManagers {
        effects := effects + [Settled(Settlement(p, FileManagerNotPresent))];
        return Some(NullPointer);
      }
      if filePath.None? {
        return Some(NullPointer);
      }
      fileManagers[fid].Status(p, filePath.value);
      thrown := None;
    }

    /** `getFileHash`: as `statFile`, with the manager's `hash`. */
    method GetFileHash(fid: string, p: PromiseId, filePath: Option<string>) returns (thrown: Option<Exception>)
      requires Valid()
      modifies this`effects, if fid in fileManagers then {fileManagers[fid]} else {}
      ensures Valid()
      ensures fid !in fileManagers ==>
        thrown == Some(NullPointer) && effects == old(effects) + [Settled(Settlement(p, FileManagerNotPresent))]
      ensures fid in fileManagers ==> effects == old(effects)
      ensures fid in fileManagers && filePath.None? ==>
        thrown == Some(NullPointer) && unchanged(fileManagers[fid])
      ensures fid in fileManagers && filePath.Some? ==>
        thrown == None && fileManagers[fid].transferController == old(fileManagers[fid].transferController)
      ensures fid in fileManagers && filePath.Some? && old(fileManagers[fid].promisePending) ==>
        fileManagers[fid].State() == Begin(old(fileManagers[fid].State()), p, AndroidFileManager.BusyRejection)
      ensures fid in fileManagers && filePath.Some? && !old(fileManagers[fid].promisePending) ==>
        fileManagers[fid].State()
        == Begin(old(fileManagers[fid].State()), p, AndroidFileManager.BusyRejection)
           .(effects := old(fileManagers[fid].effects) + [Sent(HashQuery(filePath.value))])
    {
      if fid !in fileManagers {
        effects := effects + [Settled(Settlement(p, FileManagerNotPresent))];
        return Some(NullPointer);
      }
      if filePath.None? {
        return Some(NullPointer);
      }
      fileManagers[fid].Hash(p, filePath.value);
      thrown := None;
    }

    /** `resetFileManager`: tears the manager down and keeps its entry; an
        absent id does nothing. */
    method ResetFileManager(id: string)
      requires Valid()
      modifies if id in fileManagers then {fileManagers[id]} else {}
      ensures Valid()
      ensures id in fileManagers ==>
        (fileManagers[id].effects == old(fileManagers[id].effects)
         + (if fileManagers[id].transferController.Some? then [TransferCancelRequested] else [])
         + [TransportReleased])
      ensures id in fileManagers ==>
        && fileManagers[id].promisePending == old(fileManagers[id].promisePending)
        && fileManagers[id].unsafePromise == old(fileManagers[id].unsafePromise)
        && fileManagers[id].transferController == old(fileManagers[id].transferController)
      ensures forall k | k in fileManagers && k != id :: unchanged(fileManagers[k])
    {
      if id !in fileManagers {
        return;
      }
      fileManagers[id].TearDown();
    }

    /** `destroyFileManager`: tears the manager down, then removes only its
        id; an absent id does nothing. */
    method DestroyFileManager(id: string)
      requires Valid()
      modifies this`fileManagers, if id in fileManagers then {fileManagers[id]} else {}
      ensures Valid()
      ensures fileManagers == Remove(old(fileManagers), id)
      ensures id in old(fileManagers) ==>
        (old(fileManagers)[id].effects == old(fileManagers[id].effects)
         + (if old(fileManagers)[id].transferController.Some? then [TransferCancelRequested] else [])
         + [TransportReleased])
      ensures forall k | k in fileManagers :: unchanged(fileManagers[k])
    {
      if id !in fileManagers {
        return;
      }
      fileManagers[id].TearDown();
      fileManagers := Remove(fileManagers, id);
    }

    /** `createUpgrade`: throws without an adapter, throws on an id already
        present, otherwise inserts a new upgrade. */
    method CreateUpgrade(id: string) returns (thrown: Option<Exception>)
      modifies this`upgrades
      ensures !adapterPresent ==> thrown == Some(NoAdapter) && upgrades == old(upgrades)
      ensures adapterPresent && id in old(upgrades) ==>
        thrown == Some(Plain("Update ID already present")) && upgrades == old(upgrades)
      ensures adapterPresent && id !in old(upgrades) ==>
        && thrown == None && id in upgrades && fresh(upgrades[id])
        && Some(upgrades) == InsertNew(old(upgrades), id, upgrades[id])
        && upgrades[id].id == id
    {
      if !adapterPresent {
        return Some(NoAdapter);
      }
      if id in upgrades {
        return Some(Plain("Update ID already present"));
      }
      var u := new DeviceUpgrade(id);
      upgrades := InsertNew(upgrades, id, u).value;
      thrown := None;
    }

    /** `runUpgrade`: an absent id rejects and then throws at the `!!`. */
    method RunUpgrade(id: string, p: PromiseId) returns (thrown: Option<Exception>)
      modifies this`effects, if id in upgrades then {upgrades[id]} else {}
      ensures id !in upgrades ==>
        thrown == Some(NullPointer) && effects == old(effects) + [Settled(Settlement(p, UpdateNotPresent))]
      ensures id in upgrades ==>
        && thrown == None && effects == old(effects)
        && upgrades[id].runs == old(upgrades[id].runs) + [p] && upgrades[id].cancels == old(upgrades[id].cancels)
    {
      if id !in upgrades {
        effects := effects + [Settled(Settlement(p, UpdateNotPresent))];
        return Some(NullPointer);
      }
      upgrades[id].StartUpgrade(p);
      thrown := None;
    }

    /** `cancelUpgrade`: an absent id does nothing. */
    method CancelUpgrade(id: string)
      modifies if id in upgrades then {upgrades[id]} else {}
      ensures id in upgrades ==>
        upgrades[id].cancels == old(upgrades[id].cancels) + 1 && upgrades[id].runs == old(upgrades[id].runs)
    {
      if id !in upgrades {
        return;
      }
      upgrades[id].Cancel();
    }

    /** `destroyUpgrade`: cancels, then removes only that id; an absent id
        does nothing. */
    method DestroyUpgrade(id: string)
      modifies this`upgrades, if id in upgrades then {upgrades[id]} else {}
      ensures upgrades == Remove(old(upgrades), id)
      ensures id in old(upgrades) ==>
        old(upgrades)[id].cancels == old(upgrades[id].cancels) + 1 && old(upgrades)[id].runs == old(upgrades[id].runs)
    {
      if id !in upgrades {
        return;
      }
      upgrades[id].Cancel();
      upgrades := Remove(upgrades, id);
    }
  }
}
