/** A stand-in for `DeviceUpgrade`, whose firmware-upgrade workflow is not
    part of this model: it keeps only what the bridge modules do to it, the
    promises it is asked to run with and how often it is cancelled. */
module Upgrades {
  import opened Bridge

  class DeviceUpgrade {
    const id: string
    var runs: seq<PromiseId>
    var cancels: nat

    constructor (id: string)
      ensures this.id == id && runs == [] && cancels == 0
    {
      this.id := id;
      runs := [];
      cancels := 0;
    }

    /** `startUpgrade(promise)`: the workflow settles the promise later. */
    method StartUpgrade(p: PromiseId)
      modifies this`runs
      ensures runs == old(runs) + [p]
    {
      runs := runs + [p];
    }

    method Cancel()
      modifies this`cancels
      ensures cancels == old(cancels) + 1
    {
      cancels := cancels + 1;
    }
  }
}
