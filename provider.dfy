/** The VM lifecycle (`V86Provider`): the emulator held by the application, the status it
    reports, and the four operations that move between them, driving the emulator adapter
    and the snapshot store in a fixed order. */
module Lifecycle {
  import opened Base
  import opened Emulator
  import opened Storage
  import opened Controls

  /** The machine every start and restore builds: 512 MiB of memory and the Alpine root
      file system served over 9p. */
  const DefaultConfig: Config := Config(512, "/alpine/alpine-fs.json", "/alpine/alpine-rootfs-flat/")

  /** The one snapshot id save and restore use. */
  const SnapshotId: string := "default"

  class V86Provider {
    var emulator: V86Emulator?
    var status: Status
    const opfs: OPFSManager

    constructor ()
      ensures emulator == null && status == Stopped && fresh(opfs) && opfs.root == null
      ensures Valid()
    {
      emulator := null;
      status := Stopped;
      opfs := new OPFSManager();
    }

    /** What the operations keep: a held emulator has an engine instance, and the status
        `running` is only reported with an emulator held. */
    predicate Valid()
      reads this, emulator
    {
      && (emulator != null ==> emulator.instance != null)
      && (status == Running ==> emulator != null)
    }

    /** `start()`: nothing when an emulator is held; otherwise `starting`, a new adapter
        for the default machine, and, once the engine has started, that adapter held and
        `running`. A rejected start ends in `error` with no emulator stored; a start that
        never settles leaves `starting`. */
    method Start(engineLoaded: bool, boot: Boot)
      requires Valid()
      modifies this
      ensures old(emulator) != null ==> emulator == old(emulator) && status == old(status)
      ensures old(emulator) == null && (!engineLoaded || boot == ConstructorThrows) ==>
                emulator == null && status == Error
      ensures old(emulator) == null && engineLoaded && boot == NeverStarts ==>
                emulator == null && status == Starting
      ensures old(emulator) == null && engineLoaded && boot == Booted ==>
                && emulator != null && fresh(emulator) && status == Running
                && emulator.config == DefaultConfig && emulator.serialListeners == []
                && emulator.instance != null && fresh(emulator.instance)
                && emulator.instance.calls == [] && emulator.instance.memoryBytes == 512 * MiB
      ensures Valid()
    {
      if emulator != null {
        return;
      }
      status := Starting;
      var vm := new V86Emulator(DefaultConfig);
      var r := vm.Start(engineLoaded, boot);
      match r {
        case Resolved =>
          emulator := vm;
          status := Running;
        case Rejected(_) =>
          status := Error;
        case Pending =>
      }
    }

    /** `stop()`: with an emulator, stop it, drop it and report `stopped`; without one,
        nothing at all, whatever the status. */
    method Stop()
      requires Valid()
      modifies this, emulator, if emulator != null then {emulator.instance} else {}
      ensures emulator == null
      ensures old(emulator) == null ==> status == old(status)
      ensures old(emulator) != null ==>
                && status == Stopped
                && old(emulator).instance == null
                && old(emulator).serialListeners == old(emulator.serialListeners)
                && (old(emulator.instance) != null ==>
                      old(emulator.instance).calls == old(emulator.instance.calls) + [Halt, Destroy])
      ensures Valid()
    {
      if emulator != null {
        emulator.Stop();
        emulator := null;
        status := Stopped;
      }
    }

    /** `saveState()`: nothing without an emulator; otherwise `saving`, then initialise the
        store, take the engine's snapshot and write it under the fixed id. Success reports
        `running` again; any failure reports `error` and keeps the emulator. */
    method SaveState(fs: OriginPrivateFS?, reply: Option<Bytes>, writeFails: bool)
      requires Valid()
      modifies this, opfs, fs, if emulator != null then {emulator.instance} else {}
      ensures emulator == old(emulator)
      ensures old(emulator) == null ==>
                && status == old(status) && opfs.root == old(opfs.root)
                && (fs != null ==> fs.entries == old(fs.entries))
      ensures old(emulator) != null && fs == null ==>
                && status == Error && opfs.root == old(opfs.root)
                && (emulator.instance != null ==> emulator.instance.calls == old(emulator.instance.calls))
      ensures old(emulator) != null && fs != null ==>
                && opfs.root == fs
                && (emulator.instance != null ==>
                      emulator.instance.calls == old(emulator.instance.calls) + [SaveRequest])
      ensures old(emulator) != null && fs != null && (emulator.instance == null || reply.None?) ==>
                status == Error && fs.entries == old(fs.entries)
      ensures old(emulator) != null && fs != null && emulator.instance != null && reply.Some? ==>
                && (!Writable(old(fs.entries), SnapshotId) ==>
                      status == Error && fs.entries == old(fs.entries))
                && (Writable(old(fs.entries), SnapshotId) && writeFails ==>
                      status == Error && fs.entries == Touched(old(fs.entries), SnapshotId))
                && (Writable(old(fs.entries), SnapshotId) && !writeFails ==>
                      status == Running && fs.entries == Put(old(fs.entries), SnapshotId, File(reply.value)))
      ensures Valid()
    {
      if emulator == null {
        return;
      }
      status := Saving;
      var init := opfs.Init(fs);
      if init.Fail? {
        status := Error;
        return;
      }
      var state := emulator.SaveState(reply);
      if state.Failure? {
        status := Error;
        return;
      }
      var saved := opfs.SaveVMState(SnapshotId, state.value, writeFails);
      if saved.Failure? {
        status := Error;
        return;
      }
      status := Running;
    }

    /** `restoreState()`: `restoring`, initialise the store and load the fixed id; without a
        snapshot report `stopped`. Otherwise start a new adapter for the default machine,
        hand it the snapshot, and hold it as `running`. Any failure reports `error`. The
        emulator held before is neither consulted nor stopped: it lies outside `modifies`,
        so it is left exactly as it was. */
    method RestoreState(fs: OriginPrivateFS?, engineLoaded: bool, boot: Boot, accepted: bool)
      requires Valid()
      modifies this, opfs
      ensures fs == null ==> status == Error && emulator == old(emulator) && opfs.root == old(opfs.root)
      ensures fs != null ==> opfs.root == fs
      ensures fs != null && Load(fs.entries, SnapshotId).None? ==>
                status == Stopped && emulator == old(emulator)
      ensures fs != null && Load(fs.entries, SnapshotId).Some? ==>
                && ((!engineLoaded || boot == ConstructorThrows) ==>
                      status == Error && emulator == old(emulator))
                && (engineLoaded && boot == NeverStarts ==>
                      status == Restoring && emulator == old(emulator))
                && (engineLoaded && boot == Booted && !accepted ==>
                      status == Error && emulator == old(emulator))
                && (engineLoaded && boot == Booted && accepted ==>
                      && status == Running && emulator != null && fresh(emulator)
                      && emulator.config == DefaultConfig && emulator.serialListeners == []
                      && emulator.instance != null && fresh(emulator.instance)
                      && emulator.instance.calls == [RestoreFrom(Load(fs.entries, SnapshotId).value)])
      ensures Valid()
    {
      status := Restoring;
      var init := opfs.Init(fs);
      if init.Fail? {
        status := Error;
        return;
      }
      var loaded := opfs.LoadVMState(SnapshotId);
      var state := loaded.value;
      if state.None? {
        status := Stopped;
        return;
      }
      var vm := new V86Emulator(DefaultConfig);
      var started := vm.Start(engineLoaded, boot);
      if started.Rejected? {
        status := Error;
        return;
      }
      if started.Pending? {
        return;
      }
      var restored := vm.RestoreState(state.value, accepted);
      if restored.Fail? {
        status := Error;
        return;
      }
      emulator := vm;
      status := Running;
    }
  }

  /** The path the controls allow: start, save, stop, restore. Each step is enabled by the
      status the previous one left, and the restored machine receives exactly the bytes
      that were saved, since save and restore share the fixed id. */
  method SaveStopRestore(fs: OriginPrivateFS, snapshot: Bytes)
      returns (provider: V86Provider, afterStart: Status, afterSave: Status, afterStop: Status)
    requires Writable(fs.entries, SnapshotId)
    modifies fs
    ensures SaveEnabled(afterStart) && StopEnabled(afterSave) && RestoreEnabled(afterStop)
    ensures provider.status == Running && provider.emulator != null && provider.emulator.instance != null
    ensures provider.emulator.instance.calls == [RestoreFrom(snapshot)]
    ensures fs.entries == Put(old(fs.entries), SnapshotId, File(snapshot))
  {
    provider := new V86Provider();
    provider.Start(true, Booted);
    afterStart := provider.status;
    EnabledControls(afterStart);
    provider.SaveState(fs, Some(snapshot), false);
    afterSave := provider.status;
    EnabledControls(afterSave);
    provider.Stop();
    afterStop := provider.status;
    EnabledControls(afterStop);
    LoadAfterPut(old(fs.entries), SnapshotId, snapshot);
    provider.RestoreState(fs, true, Booted, true);
  }

  /** A save the engine rejects leaves the emulator held in `error`. The controls then offer
      Start, which does nothing because an emulator is held; with no snapshot stored,
      Restore reports `stopped` with the old engine still held and never halted, and Start
      still does nothing. Stop is never offered on the way. */
  method RejectedSaveWedges(fs: OriginPrivateFS) returns (provider: V86Provider, afterSave: Status)
    requires Load(fs.entries, SnapshotId).None?
    modifies fs
    ensures fs.entries == old(fs.entries)
    ensures afterSave == Error && StartEnabled(afterSave) && !StopEnabled(afterSave)
    ensures provider.status == Stopped && StartEnabled(provider.status) && !StopEnabled(provider.status)
    ensures provider.emulator != null && provider.emulator.instance != null
    ensures provider.emulator.instance.calls == [SaveRequest]
    ensures provider.Valid() && Wedged(provider, fs)
  {
    provider := new V86Provider();
    provider.Start(true, Booted);
    provider.SaveState(fs, None, false);
    afterSave := provider.status;
    EnabledControls(afterSave);
    provider.Start(true, Booted);
    provider.RestoreState(fs, true, Booted, true);
    provider.Start(true, Booted);
    EnabledControls(provider.status);
  }

  /** A click on one of the controls the panel offers after a rejected save, with the engine's
      behaviour on that click and, for Restore, whether the browser grants storage access. */
  datatype Click =
    | StartClick(engineLoaded: bool, boot: Boot)
    | RestoreClick(available: bool, engineLoaded: bool, boot: Boot, accepted: bool)

  /** The wedged situation: an emulator is held, the status is `stopped` or `error`, and no
      snapshot is stored under the fixed id. */
  predicate Wedged(provider: V86Provider, fs: OriginPrivateFS)
    reads provider, fs
  {
    && provider.emulator != null
    && (provider.status == Stopped || provider.status == Error)
    && Load(fs.entries, SnapshotId).None?
  }

  /** Once wedged, the panel offers Start and Restore and nothing else, and every sequence of
      those clicks keeps the provider wedged on the same, never-halted engine. */
  method StayWedged(provider: V86Provider, fs: OriginPrivateFS, clicks: seq<Click>)
    requires provider.Valid() && Wedged(provider, fs)
    modifies provider, provider.opfs
    ensures provider.Valid() && Wedged(provider, fs)
    ensures provider.emulator == old(provider.emulator)
    ensures provider.emulator.instance == old(provider.emulator.instance)
    ensures provider.emulator.instance.calls == old(provider.emulator.instance.calls)
    ensures fs.entries == old(fs.entries)
    ensures StartEnabled(provider.status) && RestoreEnabled(provider.status)
    ensures !SaveEnabled(provider.status) && !StopEnabled(provider.status)
  {
    for i := 0 to |clicks|
      invariant provider.Valid() && Wedged(provider, fs)
      invariant provider.emulator == old(provider.emulator)
    {
      match clicks[i]
      case StartClick(loaded, boot) =>
        provider.Start(loaded, boot);
      case RestoreClick(available, loaded, boot, accepted) =>
        provider.RestoreState(if available then fs else null, loaded, boot, accepted);
    }
    EnabledControls(provider.status);
  }

  /** A save the engine rejects, then Restore (offered in `error`) from an earlier snapshot:
      the restored machine runs while the first engine, never halted, is still alive. */
  method RejectedSaveThenRestore(fs: OriginPrivateFS)
      returns (provider: V86Provider, first: V86Emulator, afterSave: Status)
    requires Load(fs.entries, SnapshotId).Some?
    modifies fs
    ensures fs.entries == old(fs.entries)
    ensures afterSave == Error && RestoreEnabled(afterSave)
    ensures provider.status == Running && provider.emulator != null && provider.emulator != first
    ensures first.instance != null && first.instance.calls == [SaveRequest]
    ensures provider.emulator.instance != null && provider.emulator.instance != first.instance
    ensures provider.emulator.instance.calls == [RestoreFrom(Load(fs.entries, SnapshotId).value)]
  {
    provider := new V86Provider();
    provider.Start(true, Booted);
    first := provider.emulator;
    provider.SaveState(fs, None, false);
    afterSave := provider.status;
    EnabledControls(afterSave);
    provider.RestoreState(fs, true, Booted, true);
  }
}
