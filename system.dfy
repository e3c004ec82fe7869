/**
 * The tracker connection (src/tracker/system.rs): a background worker that
 * receives VMC packets and folds them into shared tracking data, started by
 * `connect` and stopped by `disconnect`.
 *
 * The worker thread itself (socket, packet decoding, panic boundary) is not
 * modelled. Its join handle is a value that records the address the worker
 * was started with and whether the thread has finished; `WorkerStops` is the
 * environment step in which the thread ends on its own.
 */
module System {
  import opened Wrappers
  import opened Tracker

  /** The per-axis values of one tracked bone. */
  type BoneAxes = map<InputBoneKind, real>

  /** The accumulated tracking data (`VmcData`): blendshape weights and bone values by name. */
  datatype VmcData = VmcData(blends: map<string, real>, bones: map<string, BoneAxes>)

  /** `VmcData::default()`: nothing received yet. */
  const DefaultData := VmcData(map[], map[])

  /** The join handle of a spawned worker. */
  datatype WorkerHandle = WorkerHandle(addr: string, finished: bool)

  /** Returned by `connect` when a worker handle is already held. */
  datatype AlreadyConnectedError = AlreadyConnectedError

  class TrackerSystem {
    var joinHandle: Option<WorkerHandle>
    var abort: bool
    var data: VmcData

    /** `TrackerSystem::new()`: no worker, abort flag clear, no data. */
    constructor ()
      ensures joinHandle == Option.None && !abort && data == DefaultData
      ensures !Active()
    {
      joinHandle := Option.None;
      abort := false;
      data := DefaultData;
    }

    /** `active()`: a worker handle is held and its thread has not finished. */
    predicate Active()
      reads this
    {
      match joinHandle
      case None => false
      case Some(h) => !h.finished
    }

    /** `reset()`: the data goes back to its default whatever the connection state. */
    method Reset()
      modifies this`data
      ensures data == DefaultData
      ensures joinHandle == old(joinHandle) && abort == old(abort)
      ensures Active() == old(Active())
    {
      data := DefaultData;
    }

    /**
     * `disconnect()`: without a handle, nothing happens. With one, the abort flag
     * is raised, the worker is joined, and the handle is gone.
     */
    method Disconnect()
      modifies this`joinHandle, this`abort
      ensures old(joinHandle).None? ==> joinHandle == old(joinHandle) && abort == old(abort)
      ensures old(joinHandle).Some? ==> joinHandle.None? && abort
      ensures joinHandle.None? && !Active()
      ensures data == old(data)
    {
      if joinHandle.Some? {
        abort := true;
        // `handle.join()`: the worker sees the flag within one receive
        // timeout and returns; its handle is dropped.
        joinHandle := Option.None;
      }
    }

    /**
     * `connect(addr)`: refused while a handle is held, even one whose thread has
     * already finished; otherwise the abort flag is cleared and a worker bound
     * to `addr` is started.
     */
    method Connect(addr: string) returns (r: Result<(), AlreadyConnectedError>)
      modifies this`joinHandle, this`abort
      ensures old(joinHandle).Some? ==> r == Err(AlreadyConnectedError)
      ensures old(joinHandle).Some? ==> joinHandle == old(joinHandle) && abort == old(abort)
      ensures old(joinHandle).None? ==> r == Ok(())
      ensures old(joinHandle).None? ==> joinHandle == Some(WorkerHandle(addr, false)) && !abort && Active()
      ensures data == old(data)
    {
      if joinHandle.Some? {
        return Err(AlreadyConnectedError);
      }
      abort := false;
      joinHandle := Some(WorkerHandle(addr, false));
      r := Ok(());
    }

    /**
     * The worker thread ends by itself: it saw the abort flag, could not bind
     * its socket, or caught a panic. The handle stays until `disconnect`.
     */
    method WorkerStops()
      modifies this`joinHandle
      ensures joinHandle.None? == old(joinHandle).None?
      ensures joinHandle.Some? ==> joinHandle == Some(old(joinHandle).value.(finished := true))
      ensures !Active()
    {
      if joinHandle.Some? {
        joinHandle := Some(joinHandle.value.(finished := true));
      }
    }
  }

  /**
   * The lifecycle end to end: a second `connect` is refused and leaves the first
   * worker running; a worker that died still blocks `connect` until
   * `disconnect`; after `disconnect` a new `connect` succeeds.
   */
  method Lifecycle(a: string, b: string)
  {
    var t := new TrackerSystem();
    t.Disconnect();
    assert !t.Active() && t.joinHandle.None? && !t.abort;
    var r := t.Connect(a);
    assert r.Ok? && t.Active();
    r := t.Connect(b);
    assert r.Err? && t.Active() && t.joinHandle == Some(WorkerHandle(a, false));
    t.WorkerStops();
    r := t.Connect(b);
    assert r.Err? && !t.Active();
    t.Disconnect();
    assert t.abort;
    r := t.Connect(b);
    assert r.Ok? && t.Active() && !t.abort;
  }
}
