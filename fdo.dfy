/** The function driver object (fdo.c): the PnP state with its previous-state
    memory, the device and system power states, the power-up and power-down
    sequences around the frontend and the debug and suspend interfaces, and the
    dispatch of PnP, power and HID IOCTL IRPs. */
module Fdo {
  import opened NtStatus
  import opened Io
  import opened ReadCache
  import opened Xenbus
  import Vkbd
  import Frontend

  /** DEVICE_PNP_STATE. */
  datatype PnpState =
    | Invalid | Present | Enumerated | Added | Started | StopPending | Stopped
    | RemovePending | SurpriseRemovePending | Deleted

  /** DEVICE_POWER_STATE. */
  datatype DevicePower =
    PowerDeviceUnspecified | PowerDeviceD0 | PowerDeviceD1 | PowerDeviceD2 | PowerDeviceD3

  /** SYSTEM_POWER_STATE. */
  datatype SystemPower =
    | PowerSystemUnspecified | PowerSystemWorking | PowerSystemSleeping1 | PowerSystemSleeping2
    | PowerSystemSleeping3 | PowerSystemHibernate | PowerSystemShutdown

  /** PowerActionShutdown, the first shutdown action of POWER_ACTION
      (None, Reserved, Sleep, Hibernate, Shutdown, ...). */
  const PowerActionShutdown: nat := 4

  /** The PnP minor functions the FDO handles itself, and all others. */
  datatype PnpMinor =
    | Start | QueryStop | CancelStop | Stop | QueryRemove | SurpriseRemove | Remove | CancelRemove
    | OtherPnp(code: nat)

  /** A power IRP: IRP_MN_SET_POWER for a device or a system power state,
      with its shutdown type (a POWER_ACTION), or any other minor function. */
  datatype PowerRequest =
    | SetDevicePower(device: DevicePower, action: nat)
    | SetSystemPower(system: SystemPower, action: nat)
    | OtherPower(code: nat)

  /** The HID IOCTLs FdoDispatchControl knows, and all others. */
  datatype ControlCode =
    | GetDeviceAttributes | GetDeviceDescriptor | GetReportDescriptor | GetFeature
    | SetFeature | WriteReport | ReadReport | OtherControl(code: nat)

  /** DevicePnpState together with PreviousDevicePnpState. */
  datatype Pnp = Pnp(current: PnpState, previous: PnpState)

  /** __FdoSetDevicePnpState, which asserts that Deleted is never left. */
  function SetPnp(p: Pnp, state: PnpState): Pnp
    requires p.current != Deleted || state == Deleted
  {
    Pnp(state, p.current)
  }

  /** __FdoRestoreDevicePnpState: back to the previous state only from `state`. */
  function RestorePnp(p: Pnp, state: PnpState): Pnp
  {
    if p.current == state then Pnp(p.previous, p.previous) else p
  }

  /** The minor functions whose handler sets a state other than Deleted. */
  predicate Revives(m: PnpMinor) {
    m.Start? || m.QueryStop? || m.Stop? || m.QueryRemove? || m.SurpriseRemove?
  }

  /** The PnP state after a PnP IRP; `started` says whether FdoStartDevice
      powered the device up. A deleted device stays deleted, and every
      handler records the state it leaves. */
  function PnpAfter(p: Pnp, m: PnpMinor, started: bool): (r: Pnp)
    requires p.current != Deleted || !Revives(m)
    ensures p.current == Deleted ==> r.current == Deleted
    ensures m.Remove? ==> r == Pnp(Deleted, p.current)
    ensures Revives(m) && r != p ==> r.previous == p.current
  {
    match m
    case Start => if started then SetPnp(p, Started) else p
    case QueryStop => SetPnp(p, StopPending)
    case CancelStop => RestorePnp(p, StopPending)
    case Stop => SetPnp(p, Stopped)
    case QueryRemove => SetPnp(p, RemovePending)
    case SurpriseRemove => SetPnp(p, SurpriseRemovePending)
    case Remove => SetPnp(p, Deleted)
    case CancelRemove => RestorePnp(p, RemovePending)
    case OtherPnp(_) => p
  }

  /** A cancel right after its query puts the device back in the state it was
      in before the query. */
  lemma {:induction false} CancelUndoesQuery(p: Pnp, started: bool)
    requires p.current != Deleted
    ensures PnpAfter(PnpAfter(p, QueryStop, started), CancelStop, started).current == p.current
    ensures PnpAfter(PnpAfter(p, QueryRemove, started), CancelRemove, started).current == p.current
  {
    assert PnpAfter(p, QueryStop, started) == Pnp(StopPending, p.current);
    assert PnpAfter(p, QueryRemove, started) == Pnp(RemovePending, p.current);
  }

  /** Restoring is idempotent, and a no-op away from the pending state. */
  lemma RestoreSpec(p: Pnp, state: PnpState)
    ensures RestorePnp(RestorePnp(p, state), state) == RestorePnp(p, state)
    ensures p.current != state ==> RestorePnp(p, state) == p
    ensures p.current == state ==> RestorePnp(p, state).current == p.previous
  {
  }

  /** FdoPauseData on the cache state: the cached IRPs completed with
      STATUS_DEVICE_NOT_READY, oldest first, and the slots emptied. */
  function Paused(c: CacheState): CacheState
  {
    CacheState(EmptySlots(), c.log + NotReady(Queue(c.slots)))
  }

  /** Pausing keeps the cache well formed and completes nothing a second
      time when repeated. */
  lemma PausedSpec(c: CacheState)
    requires WellFormed(c)
    ensures WellFormed(Paused(c))
    ensures Queue(Paused(c).slots) == [] && Paused(Paused(c)) == Paused(c)
  {
    PauseKeeps(c, Queue(c.slots));
    assert NotReady([]) == [];
    assert c.log + NotReady(Queue(c.slots)) + [] == c.log + NotReady(Queue(c.slots));
  }

  /** FdoDispatchPower on the data path: Some(true) resumes, Some(false)
      pauses, None leaves it alone. Only IRP_MN_SET_POWER with a shutdown type
      below PowerActionShutdown acts: a device request resumes for D0 and
      pauses for every other state, a system request pauses for
      PowerSystemShutdown only. */
  function PowerEffect(r: PowerRequest): (e: Option<bool>)
  {
    match r
    case SetDevicePower(device, action) =>
      if action >= PowerActionShutdown then None else Some(device == PowerDeviceD0)
    case SetSystemPower(system, action) =>
      if action < PowerActionShutdown && system == PowerSystemShutdown then Some(false) else None
    case OtherPower(_) => None
  }

  /** Whether the cache accepts reads, and its state, after a power IRP. */
  function Powered(r: PowerRequest, enabled: bool, c: CacheState): (bool, CacheState)
  {
    match PowerEffect(r)
    case None => (enabled, c)
    case Some(resume) => if resume then (true, c) else (false, Paused(c))
  }

  /** Delivering the same power IRP twice has the effect of delivering it
      once, a power IRP never completes an IRP the cache does not hold, and
      only a device D0 request turns reads back on. */
  lemma PoweredSpec(r: PowerRequest, enabled: bool, c: CacheState)
    requires WellFormed(c)
    ensures var (e, c') := Powered(r, enabled, c);
      Powered(r, e, c') == (e, c') && WellFormed(c')
      && (c' == c || c' == Paused(c))
      && (e && !enabled ==> r.SetDevicePower? && r.device == PowerDeviceD0 && r.action < PowerActionShutdown)
      && (r.OtherPower? ==> (e, c') == (enabled, c))
  {
    PausedSpec(c);
  }

  /** The IOCTL_HID_READ_REPORT case of FdoDispatchControl as written:
      __FdoCache never answers STATUS_PENDING, so the IRP is completed with
      the cache's answer and Information 0 even when the cache kept it. */
  function ReadAsWritten(enabled: bool, c: CacheState, irp: Irp): (Status, CacheState)
  {
    var (status, slots) := Cached(enabled, c.slots, irp);
    (status, CacheState(slots, c.log + [Completion(irp, status, 0, NoData)]))
  }

  /** With the cache enabled and empty, a read dispatched as written is
      cached and completed at once; the next report completes the same IRP a
      second time. */
  lemma ReadAsWrittenCompletesTwice(c: CacheState, irp: Irp, payload: Payload, length: nat)
    requires WellFormed(c) && Fresh(c, irp) && Queue(c.slots) == []
    ensures var (s1, c1) := ReadAsWritten(true, c, irp);
      var (s2, c2) := ReadCompleted(c1, payload, length);
      s1 == Success && Queue(c1.slots) == [irp] && !NotCompleted(c1.log, irp)
      && s2 == Success && !AtMostOnce(c2.log)
  {
    CachedSpec(true, c.slots, irp);
    var (s1, c1) := ReadAsWritten(true, c, irp);
    assert c1.log[|c.log|].irp == irp;
    UncachedSpec(c1.slots);
    var c2 := ReadCompleted(c1, payload, length).1;
    assert c2.log == c1.log + [Completion(irp, Success, length, payload)];
    assert c2.log[|c.log|].irp == c2.log[|c.log| + 1].irp;
  }

  /** Completing an IRP the driver has not seen keeps the cache well formed. */
  lemma CompletedFresh(c: CacheState, x: Completion)
    requires WellFormed(c) && Fresh(c, x.irp)
    ensures WellFormed(CacheState(c.slots, c.log + [x]))
  {
    AppendFresh(c.log, x);
  }

  class Fdo {
    var pnp: PnpState
    var previousPnp: PnpState
    var devicePower: DevicePower
    var systemPower: SystemPower
    /** DebugCallback is registered. */
    var debugCallback: bool
    /** SuspendCallback is registered. */
    var suspendCallback: bool
    const frontend: Frontend.Frontend
    /** Irps[] and Enabled, with the I/O manager that completes the IRPs. */
    const cache: IrpCache
    const env: Env

    /** The frontend is consistent, shares the FDO's cache and environment,
        and the debug callback is registered exactly while it is connected. */
    ghost predicate Wired()
      reads this, frontend, frontend.Model(), cache, cache.irps, cache.io, env
    {
      frontend.cache == cache && frontend.env == env && frontend.Valid()
      && (debugCallback <==> frontend.connected)
    }

    /** The device is in D0 or D3; in D0 the frontend is connected and the
        suspend callback registered, in D3 neither. */
    ghost predicate Valid()
      reads this, frontend, frontend.Model(), cache, cache.irps, cache.io, env
    {
      Wired() && (devicePower == PowerDeviceD0 || devicePower == PowerDeviceD3)
      && (frontend.connected <==> devicePower == PowerDeviceD0)
      && (suspendCallback <==> devicePower == PowerDeviceD0)
    }

    function PnpStates(): Pnp
      reads this
    {
      Pnp(pnp, previousPnp)
    }

    twostate predicate SameStates()
      reads this
    {
      pnp == old(pnp) && previousPnp == old(previousPnp) && devicePower == old(devicePower)
      && systemPower == old(systemPower)
    }

    /** IoSkipCurrentIrpStackLocation and IoCallDriver: the IRP goes down the
        stack and its status comes back; nothing is completed here. */
    twostate predicate Forwarded(irp: Irp, status: Status)
      reads cache, cache.io
    {
      cache.io.forwarded == old(cache.io.forwarded) + [irp] && cache.io.lower == Rest(old(cache.io.lower))
      && status == Next(old(cache.io.lower))
    }

    constructor (frontend: Frontend.Frontend, cache: IrpCache, env: Env)
      ensures pnp == Added && previousPnp == Invalid
      ensures systemPower == PowerSystemShutdown && devicePower == PowerDeviceD3
      ensures !debugCallback && !suspendCallback
      ensures this.frontend == frontend && this.cache == cache && this.env == env
    {
      pnp := Added;
      previousPnp := Invalid;
      systemPower := PowerSystemShutdown;
      devicePower := PowerDeviceD3;
      debugCallback := false;
      suspendCallback := false;
      this.frontend := frontend;
      this.cache := cache;
      this.env := env;
    }

    /** FdoCreate: the zeroed FDO in Added, PowerSystemShutdown and
        PowerDeviceD3, with an empty disabled cache and a disconnected
        frontend; STATUS_NO_MEMORY when the frontend cannot be created. */
    static method Create(io: IoManager, env: Env) returns (status: Status, fdo: Fdo?)
      requires AtMostOnce(io.completions) && env.pending == None
      modifies env
      ensures status == Success <==> fdo != null
      ensures status == Success || status == NoMemory
      ensures fdo != null ==>
                fresh(fdo) && fresh(fdo.cache) && fdo.Valid() && fdo.cache.io == io && fdo.env == env
                && fdo.pnp == Added && fdo.systemPower == PowerSystemShutdown && fdo.devicePower == PowerDeviceD3
                && !fdo.cache.enabled && fdo.cache.irps[..] == EmptySlots() && !fdo.frontend.connected
      ensures env.trace == old(env.trace)
    {
      var cache := new IrpCache(io);
      var f;
      status, f := Frontend.Frontend.Create(cache, env);
      if status != Success {
        return status, null;
      }
      fdo := new Fdo(f, cache, env);
    }

    /** __FdoSetDevicePnpState. */
    method SetDevicePnpState(state: PnpState)
      requires pnp != Deleted || state == Deleted
      modifies this
      ensures PnpStates() == SetPnp(old(PnpStates()), state)
      ensures devicePower == old(devicePower) && systemPower == old(systemPower)
      ensures debugCallback == old(debugCallback) && suspendCallback == old(suspendCallback)
    {
      previousPnp := pnp;
      pnp := state;
    }

    /** __FdoRestoreDevicePnpState. */
    method RestoreDevicePnpState(state: PnpState)
      modifies this
      ensures PnpStates() == RestorePnp(old(PnpStates()), state)
      ensures devicePower == old(devicePower) && systemPower == old(systemPower)
      ensures debugCallback == old(debugCallback) && suspendCallback == old(suspendCallback)
    {
      if pnp == state {
        pnp := previousPnp;
      }
    }

    /** IoCompleteRequest of an IRP the driver has not completed or cached. */
    method CompleteIrp(irp: Irp, status: Status, information: nat, payload: Payload)
      requires Valid() && Fresh(cache.State(), irp)
      modifies cache.io
      ensures Valid()
      ensures cache.io.completions == old(cache.io.completions) + [Completion(irp, status, information, payload)]
      ensures cache.io.forwarded == old(cache.io.forwarded) && cache.io.lower == old(cache.io.lower)
    {
      CompletedFresh(cache.State(), Completion(irp, status, information, payload));
      cache.io.Complete(Completion(irp, status, information, payload));
    }

    /** IoSkipCurrentIrpStackLocation and IoCallDriver. */
    method Forward(irp: Irp) returns (status: Status)
      requires Valid()
      modifies cache.io
      ensures Valid() && Forwarded(irp, status)
      ensures cache.io.completions == old(cache.io.completions)
    {
      status := cache.io.CallLower(irp);
    }

    /** __FdoD3ToD0: the debug interface acquired and its callback
        registered, then the frontend enabled; a failure undoes the steps
        before it, latest first. */
    method AttachFrontend() returns (status: Status, ghost d: seq<Action>)
      requires Wired() && !frontend.connected
      modifies this, frontend, env
      ensures Wired() && SameStates() && suspendCallback == old(suspendCallback) && fresh(frontend.Model())
      ensures status == Success || !NtSuccess(status)
      ensures status == Success <==> frontend.connected
      ensures status == Success ==> Attached(old(env.trace), env.trace, d, Enabled())
      ensures status != Success ==> AttachFailed(old(env.trace), env.trace, d)
    {
      ghost var t0 := env.trace;
      env.Emit(DebugAcquire);
      status := env.Register(DebugRegister);
      if !NtSuccess(status) {
        env.Emit(DebugRelease);
        d := [];
        DebugFailedTrace(t0, env.trace);
        return;
      }
      ghost var t1 := env.trace;
      ghost var protocol, read, o;
      status, d, protocol, read, o := frontend.Enable();
      if status != Success {
        ghost var t2 := env.trace;
        env.Emit(DebugDeregister);
        env.Emit(DebugRelease);
        EnableFailedTrace(t0, t1, d, t2, env.trace);
        return;
      }
      AttachedTrace(t0, t1, d, env.trace);
      debugCallback := true;
    }

    /** What an enabled frontend holds. */
    ghost function Enabled(): set<Resource>
      reads this, frontend, frontend.context
    {
      if frontend.context == null || frontend.context.evtchn.None? then {}
      else Frontend.EnabledResources(frontend.context.grantRef, frontend.context.evtchn.value)
    }

    /** __FdoD0ToD3: the frontend disabled, then the debug callback
        deregistered and the debug interface released. */
    method DetachFrontend() returns (ghost u: seq<Action>)
      requires Wired() && frontend.connected
      modifies this, frontend, frontend.Model(), env
      ensures Wired() && !frontend.connected && SameStates() && suspendCallback == old(suspendCallback)
      ensures Detached(old(env.trace), env.trace, u, old(Enabled()))
    {
      ghost var q;
      u, q := frontend.Disable();
      ghost var t1 := env.trace;
      env.Emit(DebugDeregister);
      debugCallback := false;
      env.Emit(DebugRelease);
      DetachedTrace(old(env.trace), u, t1, env.trace);
    }

    /** FdoD3ToD0, which asserts D3: __FdoD3ToD0, then the suspend interface
        acquired and its callback registered, and only then D0. When the
        suspend registration fails the suspend interface is released and the
        frontend powered down again. */
    method PowerUp() returns (status: Status, ghost d: seq<Action>, ghost u: seq<Action>)
      requires Valid() && devicePower == PowerDeviceD3
      modifies this, frontend, env
      ensures Valid()
      ensures pnp == old(pnp) && previousPnp == old(previousPnp) && systemPower == old(systemPower)
      ensures status == Success || !NtSuccess(status)
      ensures status == Success <==> devicePower == PowerDeviceD0
      ensures status == Success ==> PoweredUp(old(env.trace), env.trace, d, Enabled())
      ensures status != Success ==> PowerUpFailed(old(env.trace), env.trace, d, u)
    {
      u := [];
      status, d := AttachFrontend();
      if status != Success {
        return;
      }
      ghost var t1 := env.trace;
      ghost var e := Enabled();
      env.Emit(SuspendAcquire);
      var registered := env.Register(SuspendRegister);
      if !NtSuccess(registered) {
        env.Emit(SuspendRelease);
        ghost var t2 := env.trace;
        u := DetachFrontend();
        status := registered;
        SuspendFailedTrace(old(env.trace), d, e, t1, t2, u, env.trace);
        return;
      }
      suspendCallback := true;
      devicePower := PowerDeviceD0;
      PoweredUpTrace(old(env.trace), d, e, t1, env.trace);
    }

    /** FdoD0ToD3, which asserts D0: D3 first, then the suspend callback
        deregistered and the suspend interface released, then __FdoD0ToD3. */
    method PowerDown() returns (ghost u: seq<Action>)
      requires Valid() && devicePower == PowerDeviceD0
      modifies this, frontend, frontend.Model(), env
      ensures Valid() && devicePower == PowerDeviceD3
      ensures pnp == old(pnp) && previousPnp == old(previousPnp) && systemPower == old(systemPower)
      ensures PoweredDown(old(env.trace), env.trace, u, old(Enabled()))
    {
      devicePower := PowerDeviceD3;
      env.Emit(SuspendDeregister);
      suspendCallback := false;
      env.Emit(SuspendRelease);
      ghost var t1 := env.trace;
      u := DetachFrontend();
      PoweredDownTrace(old(env.trace), t1, u, old(Enabled()), env.trace);
    }

    /** FdoSuspendCallback, run after the domain resumed from suspend:
        __FdoD0ToD3 then __FdoD3ToD0, leaving the power states and the
        suspend callback alone. The source only asserts that the power-up
        succeeds; when it does not, the device is left disconnected in D0. */
    method SuspendCallback() returns (status: Status, ghost u: seq<Action>, ghost mid: seq<Action>, ghost d: seq<Action>)
      requires Valid() && devicePower == PowerDeviceD0
      modifies this, frontend, frontend.Model(), env
      ensures Wired() && SameStates() && suspendCallback
      ensures status == Success || !NtSuccess(status)
      ensures status == Success <==> frontend.connected
      ensures status == Success ==> Valid()
      ensures Detached(old(env.trace), mid, u, old(Enabled()))
      ensures status == Success ==> Attached(mid, env.trace, d, Enabled())
      ensures status != Success ==> AttachFailed(mid, env.trace, d)
    {
      u := DetachFrontend();
      mid := env.trace;
      status, d := AttachFrontend();
    }

    /** FdoStartDevice: the IRP forwarded and waited for; then
        PowerSystemWorking and FdoD3ToD0, which power the device up, then
        reads resumed and Started. On a power-up failure the system state
        goes back to PowerSystemShutdown and the PnP state is left alone. The
        IRP is completed in every case, with the status returned. */
    method StartDevice(irp: Irp) returns (status: Status, ghost started: bool)
      requires Valid() && devicePower == PowerDeviceD3 && pnp != Deleted && Fresh(cache.State(), irp)
      modifies this, frontend, env, cache, cache.io
      ensures Valid()
      ensures cache.io.forwarded == old(cache.io.forwarded) + [irp] && cache.io.lower == Rest(old(cache.io.lower))
      ensures cache.io.completions == old(cache.io.completions) + [Completion(irp, status, 0, NoData)]
      ensures cache.irps[..] == old(cache.irps[..])
      ensures !NtSuccess(Next(old(cache.io.lower))) ==>
                !started && status == Next(old(cache.io.lower)) && systemPower == old(systemPower)
      ensures started ==>
                status == Next(old(cache.io.lower)) && NtSuccess(status)
                && devicePower == PowerDeviceD0 && systemPower == PowerSystemWorking && cache.enabled
                && PnpStates() == SetPnp(old(PnpStates()), Started)
      ensures !started ==>
                !NtSuccess(status) && devicePower == PowerDeviceD3 && PnpStates() == old(PnpStates())
                && cache.enabled == old(cache.enabled)
      ensures NtSuccess(Next(old(cache.io.lower))) && !started ==> systemPower == PowerSystemShutdown
    {
      started := false;
      status := cache.io.CallLower(irp);
      if !NtSuccess(status) {
        CompleteIrp(irp, status, 0, NoData);
        return;
      }
      systemPower := PowerSystemWorking;
      var powered;
      ghost var d, u;
      powered, d, u := PowerUp();
      if powered != Success {
        systemPower := PowerSystemShutdown;
        status := powered;
        CompleteIrp(irp, status, 0, NoData);
        return;
      }
      cache.ResumeData();
      SetDevicePnpState(Started);
      started := true;
      CompleteIrp(irp, status, 0, NoData);
    }

    /** FdoQueryStopDevice. */
    method QueryStopDevice(irp: Irp) returns (status: Status)
      requires Valid() && pnp != Deleted
      modifies this, cache.io
      ensures Valid() && Forwarded(irp, status) && cache.io.completions == old(cache.io.completions)
      ensures PnpStates() == SetPnp(old(PnpStates()), StopPending)
      ensures devicePower == old(devicePower) && systemPower == old(systemPower)
    {
      SetDevicePnpState(StopPending);
      status := Forward(irp);
    }

    /** FdoCancelStopDevice. */
    method CancelStopDevice(irp: Irp) returns (status: Status)
      requires Valid()
      modifies this, cache.io
      ensures Valid() && Forwarded(irp, status) && cache.io.completions == old(cache.io.completions)
      ensures PnpStates() == RestorePnp(old(PnpStates()), StopPending)
      ensures devicePower == old(devicePower) && systemPower == old(systemPower)
    {
      RestoreDevicePnpState(StopPending);
      status := Forward(irp);
    }

    /** FdoStopDevice: FdoD0ToD3 (which asserts D0), PowerSystemShutdown,
        reads paused, Stopped. */
    method StopDevice(irp: Irp) returns (status: Status, ghost u: seq<Action>)
      requires Valid() && devicePower == PowerDeviceD0 && pnp != Deleted
      modifies this, frontend, frontend.Model(), env, cache, cache.irps, cache.io
      ensures Valid() && Forwarded(irp, status)
      ensures devicePower == PowerDeviceD3 && systemPower == PowerSystemShutdown
      ensures PnpStates() == SetPnp(old(PnpStates()), Stopped)
      ensures !cache.enabled && cache.State() == Paused(old(cache.State()))
      ensures PoweredDown(old(env.trace), env.trace, u, old(Enabled()))
    {
      u := PowerDown();
      systemPower := PowerSystemShutdown;
      cache.PauseData();
      SetDevicePnpState(Stopped);
      status := Forward(irp);
    }

    /** FdoQueryRemoveDevice. */
    method QueryRemoveDevice(irp: Irp) returns (status: Status)
      requires Valid() && pnp != Deleted
      modifies this, cache.io
      ensures Valid() && Forwarded(irp, status) && cache.io.completions == old(cache.io.completions)
      ensures PnpStates() == SetPnp(old(PnpStates()), RemovePending)
      ensures devicePower == old(devicePower) && systemPower == old(systemPower)
    {
      SetDevicePnpState(RemovePending);
      status := Forward(irp);
    }

    /** FdoCancelRemoveDevice. */
    method CancelRemoveDevice(irp: Irp) returns (status: Status)
      requires Valid()
      modifies this, cache.io
      ensures Valid() && Forwarded(irp, status) && cache.io.completions == old(cache.io.completions)
      ensures PnpStates() == RestorePnp(old(PnpStates()), RemovePending)
      ensures devicePower == old(devicePower) && systemPower == old(systemPower)
    {
      RestoreDevicePnpState(RemovePending);
      status := Forward(irp);
    }

    /** FdoSurpriseRemoval: only the state changes; power and reads stay. */
    method SurpriseRemoval(irp: Irp) returns (status: Status)
      requires Valid() && pnp != Deleted
      modifies this, cache.io
      ensures Valid() && Forwarded(irp, status) && cache.io.completions == old(cache.io.completions)
      ensures PnpStates() == SetPnp(old(PnpStates()), SurpriseRemovePending)
      ensures devicePower == old(devicePower) && systemPower == old(systemPower)
    {
      SetDevicePnpState(SurpriseRemovePending);
      status := Forward(irp);
    }

    /** FdoRemoveDevice: in D0, reads paused, FdoD0ToD3 and
        PowerSystemShutdown; in any case Deleted, the IRP forwarded and the
        FDO destroyed. */
    method RemoveDevice(irp: Irp) returns (status: Status, ghost u: seq<Action>)
      requires Valid()
      modifies this, frontend, frontend.Model(), env, cache, cache.irps, cache.io
      ensures Valid() && Forwarded(irp, status)
      ensures PnpStates() == SetPnp(old(PnpStates()), Deleted)
      ensures devicePower == PowerDeviceD3 && !frontend.connected && frontend.backendPath == None
      ensures old(devicePower) == PowerDeviceD0 ==>
                systemPower == PowerSystemShutdown
                && !cache.enabled && cache.State() == Paused(old(cache.State()))
                && PoweredDown(old(env.trace), env.trace, u, old(Enabled()))
      ensures old(devicePower) != PowerDeviceD0 ==>
                systemPower == old(systemPower) && cache.enabled == old(cache.enabled)
                && cache.State() == old(cache.State()) && env.trace == old(env.trace)
    {
      u := [];
      if devicePower == PowerDeviceD0 {
        u := Quiesce();
      }
      SetDevicePnpState(Deleted);
      status := Forward(irp);
      Destroy();
    }

    /** The D0 part of FdoRemoveDevice: reads paused, FdoD0ToD3 and
        PowerSystemShutdown. */
    method Quiesce() returns (ghost u: seq<Action>)
      requires Valid() && devicePower == PowerDeviceD0
      modifies this, frontend, frontend.Model(), env, cache, cache.irps, cache.io
      ensures Valid() && devicePower == PowerDeviceD3 && systemPower == PowerSystemShutdown
      ensures PnpStates() == old(PnpStates())
      ensures !cache.enabled && cache.State() == Paused(old(cache.State()))
      ensures cache.io.forwarded == old(cache.io.forwarded) && cache.io.lower == old(cache.io.lower)
      ensures PoweredDown(old(env.trace), env.trace, u, old(Enabled()))
    {
      cache.PauseData();
      u := PowerDown();
      systemPower := PowerSystemShutdown;
    }

    /** FdoDestroy, which asserts Deleted: FrontendDestroy. */
    method Destroy()
      requires Valid() && pnp == Deleted && devicePower == PowerDeviceD3
      modifies frontend
      ensures Valid() && !frontend.connected && frontend.backendPath == None
    {
      frontend.Destroy();
    }

    /** FdoDispatchPnp: the eight handled minor functions go to their
        handlers, every other one down the stack. */
    method DispatchPnp(m: PnpMinor, irp: Irp) returns (status: Status, ghost started: bool)
      requires Valid()
      requires Revives(m) ==> pnp != Deleted
      requires m.Start? ==> devicePower == PowerDeviceD3 && Fresh(cache.State(), irp)
      requires m.Stop? ==> devicePower == PowerDeviceD0
      modifies this, frontend, frontend.Model(), env, cache, cache.irps, cache.io
      ensures Valid()
      ensures PnpStates() == PnpAfter(old(PnpStates()), m, started)
      ensures cache.io.forwarded == old(cache.io.forwarded) + [irp]
      ensures !m.Start? ==> status == Next(old(cache.io.lower))
      ensures m.Start? ==> (started <==> devicePower == PowerDeviceD0)
      ensures m.Stop? || m.Remove? ==> devicePower == PowerDeviceD3
    {
      started := false;
      ghost var u;
      match m
      case Start => status, started := StartDevice(irp);
      case QueryStop => status := QueryStopDevice(irp);
      case CancelStop => status := CancelStopDevice(irp);
      case Stop => status, u := StopDevice(irp);
      case QueryRemove => status := QueryRemoveDevice(irp);
      case SurpriseRemove => status := SurpriseRemoval(irp);
      case Remove => status, u := RemoveDevice(irp);
      case CancelRemove => status := CancelRemoveDevice(irp);
      case OtherPnp(_) => status := Forward(irp);
    }

    /** FdoDispatchPower: the data path resumed or paused as PowerEffect
        says, and the IRP always forwarded. */
    method DispatchPower(r: PowerRequest, irp: Irp) returns (status: Status)
      requires Valid()
      modifies cache, cache.irps, cache.io
      ensures Valid() && Forwarded(irp, status)
      ensures (cache.enabled, cache.State()) == Powered(r, old(cache.enabled), old(cache.State()))
    {
      var effect := PowerEffect(r);
      if effect == Some(true) {
        cache.ResumeData();
      } else if effect == Some(false) {
        cache.PauseData();
      }
      status := Forward(irp);
    }

    /** FdoDispatchControl with the read case corrected: a read IRP the cache
        takes stays pending until a report completes it from the cache, and
        FrontendReadReport is then asked to deliver any pending report; a read
        the cache refuses is completed with the refusal. Every other IOCTL is
        completed at once with the frontend's answer, and an unknown one with
        STATUS_NOT_SUPPORTED. */
    method DispatchControl(code: ControlCode, irp: Irp, length: nat) returns (status: Status)
      requires Valid() && Fresh(cache.State(), irp)
      modifies frontend.Model(), cache.irps, cache.io
      ensures Valid()
      ensures cache.io.forwarded == old(cache.io.forwarded) && cache.io.lower == old(cache.io.lower)
      ensures !code.ReadReport? ==>
                var r := Answer(code, length);
                status == r.status && cache.irps[..] == old(cache.irps[..])
                && cache.io.completions == old(cache.io.completions) + [Completion(irp, r.status, r.information, r.payload)]
      ensures code.ReadReport? ==>
                var (cached, slots) := Cached(cache.enabled, old(cache.irps[..]), irp);
                (cached != Success ==>
                   status == cached && cache.State() == CacheState(slots, old(cache.io.completions) + [Completion(irp, cached, 0, NoData)]))
                && (cached == Success ==>
                      status == Pending
                      && (!frontend.connected ==> cache.State() == CacheState(slots, old(cache.io.completions)))
                      && (frontend.connected ==>
                            frontend.context.InputState()
                            == Vkbd.ReadReported(old(frontend.context.InputState()).(cache := CacheState(slots, old(cache.io.completions)))).1))
    {
      if code.ReadReport? {
        status := Read(irp);
        return;
      }
      var r := Answer(code, length);
      AnswerSpec(code, length);
      status := r.status;
      CompleteIrp(irp, r.status, r.information, r.payload);
    }

    /** The reply FdoDispatchControl completes a non-read IOCTL with:
        the frontend's reply for the three descriptor getters and
        IOCTL_HID_GET_FEATURE, the frontend's status and Information 0 for
        IOCTL_HID_SET_FEATURE and IOCTL_HID_WRITE_REPORT, and
        STATUS_NOT_SUPPORTED for an unknown code. */
    function Answer(code: ControlCode, length: nat): Vkbd.Reply
      requires !code.ReadReport?
      reads this, frontend
    {
      match code
      case GetDeviceAttributes => frontend.GetDeviceAttributes(length)
      case GetDeviceDescriptor => frontend.GetDeviceDescriptor(length)
      case GetReportDescriptor => frontend.GetReportDescriptor(length)
      case GetFeature => frontend.GetFeature(length)
      case SetFeature => Vkbd.Reply(frontend.SetFeature(length), 0, NoData)
      case WriteReport => Vkbd.Reply(frontend.WriteReport(length), 0, NoData)
      case OtherControl(_) => Vkbd.Reply(NotSupported, 0, NoData)
    }

    /** A non-read IOCTL is never left pending: STATUS_DEVICE_NOT_READY
        exactly when the frontend is not connected, known to the device model
        otherwise, and STATUS_NOT_SUPPORTED for every code vkbd has no
        answer for. */
    lemma AnswerSpec(code: ControlCode, length: nat)
      requires !code.ReadReport?
      ensures Answer(code, length).status != Pending
      ensures code.OtherControl? ==> Answer(code, length) == Vkbd.Reply(NotSupported, 0, NoData)
      ensures !code.OtherControl? ==> (Answer(code, length).status == DeviceNotReady <==> !frontend.connected)
      ensures frontend.connected && (code.GetFeature? || code.SetFeature? || code.WriteReport?) ==>
                Answer(code, length) == Vkbd.Reply(NotSupported, 0, NoData)
    {
      Vkbd.DescriptorRepliesSpec(length);
    }

    /** The corrected IOCTL_HID_READ_REPORT case. */
    method Read(irp: Irp) returns (status: Status)
      requires Valid() && Fresh(cache.State(), irp)
      modifies frontend.Model(), cache.irps, cache.io
      ensures Valid()
      ensures cache.io.forwarded == old(cache.io.forwarded) && cache.io.lower == old(cache.io.lower)
      ensures var (cached, slots) := Cached(cache.enabled, old(cache.irps[..]), irp);
                (cached != Success ==>
                   status == cached && cache.State() == CacheState(slots, old(cache.io.completions) + [Completion(irp, cached, 0, NoData)]))
                && (cached == Success ==>
                      status == Pending
                      && (!frontend.connected ==> cache.State() == CacheState(slots, old(cache.io.completions)))
                      && (frontend.connected ==>
                            frontend.context.InputState()
                            == Vkbd.ReadReported(old(frontend.context.InputState()).(cache := CacheState(slots, old(cache.io.completions)))).1))
    {
      CachedKeeps(cache.State(), cache.enabled, irp);
      CachedSpec(cache.enabled, cache.irps[..], irp);
      status := cache.Cache(irp);
      if status != Success {
        CompleteIrp(irp, status, 0, NoData);
        return;
      }
      var delivered := frontend.ReadReport();
      status := Pending;
    }

    /** The IOCTL_HID_READ_REPORT case of FdoDispatchControl as written, with
        the branch that would call FrontendReadReport unreachable. */
    method ReadReportAsWritten(irp: Irp) returns (status: Status)
      requires Valid() && Fresh(cache.State(), irp)
      modifies cache.irps, cache.io
      ensures (status, cache.State()) == ReadAsWritten(cache.enabled, old(cache.State()), irp)
    {
      CachedSpec(cache.enabled, cache.irps[..], irp);
      status := cache.Cache(irp);
      if status == Pending {
        assert false;
      }
      cache.io.Complete(Completion(irp, status, 0, NoData));
    }
  }

  /** A successful __FdoD3ToD0 after `before`: the debug interface and
      callback, then an enable `d` that holds `e`. */
  ghost predicate Attached(before: seq<Action>, t: seq<Action>, d: seq<Action>, e: set<Resource>) {
    t == before + [DebugAcquire, DebugRegister] + d && Held({}, d) == e
  }

  /** A failed __FdoD3ToD0: the interface released after a failed
      registration, or the callback deregistered and the interface released
      after a failed enable `d` that holds nothing. */
  ghost predicate AttachFailed(before: seq<Action>, t: seq<Action>, d: seq<Action>) {
    (t == before + [DebugAcquire, DebugRelease] && d == [])
    || (t == before + [DebugAcquire, DebugRegister] + d + [DebugDeregister, DebugRelease] && Held({}, d) == {})
  }

  /** __FdoD0ToD3: a disable `u` that gives back `e`, then the debug callback
      and interface, latest first. */
  ghost predicate Detached(before: seq<Action>, t: seq<Action>, u: seq<Action>, e: set<Resource>) {
    t == before + u + [DebugDeregister, DebugRelease] && Held(e, u) == {}
  }

  /** A successful FdoD3ToD0. */
  ghost predicate PoweredUp(before: seq<Action>, t: seq<Action>, d: seq<Action>, e: set<Resource>) {
    t == before + [DebugAcquire, DebugRegister] + d + [SuspendAcquire, SuspendRegister] && Held({}, d) == e
  }

  /** A failed FdoD3ToD0: __FdoD3ToD0 failed, or the suspend registration
      failed and everything before it was undone, latest first. */
  ghost predicate PowerUpFailed(before: seq<Action>, t: seq<Action>, d: seq<Action>, u: seq<Action>) {
    AttachFailed(before, t, d)
    || (t == before + [DebugAcquire, DebugRegister] + d + [SuspendAcquire, SuspendRelease]
               + u + [DebugDeregister, DebugRelease]
        && Held(Held({}, d), u) == {})
  }

  /** FdoD0ToD3: the suspend callback and interface, then __FdoD0ToD3. */
  ghost predicate PoweredDown(before: seq<Action>, t: seq<Action>, u: seq<Action>, e: set<Resource>) {
    t == before + [SuspendDeregister, SuspendRelease] + u + [DebugDeregister, DebugRelease] && Held(e, u) == {}
  }

  lemma DebugFailedTrace(t0: seq<Action>, t: seq<Action>)
    requires t == t0 + [DebugAcquire] + [] + [DebugRelease]
    ensures AttachFailed(t0, t, [])
  {
    assert t == t0 + [DebugAcquire, DebugRelease];
  }

  lemma EnableFailedTrace(t0: seq<Action>, t1: seq<Action>, d: seq<Action>, t2: seq<Action>, t: seq<Action>)
    requires t1 == t0 + [DebugAcquire] + [DebugRegister] && t2 == t1 + d && Held({}, d) == {}
    requires t == t2 + [DebugDeregister] + [DebugRelease]
    ensures AttachFailed(t0, t, d)
  {
    assert t1 == t0 + [DebugAcquire, DebugRegister];
    assert t == t0 + [DebugAcquire, DebugRegister] + d + [DebugDeregister, DebugRelease];
  }

  lemma AttachedTrace(t0: seq<Action>, t1: seq<Action>, d: seq<Action>, t: seq<Action>)
    requires t1 == t0 + [DebugAcquire] + [DebugRegister] && t == t1 + d
    ensures t == t0 + [DebugAcquire, DebugRegister] + d
  {
    assert t1 == t0 + [DebugAcquire, DebugRegister];
  }

  lemma DetachedTrace(t0: seq<Action>, u: seq<Action>, t1: seq<Action>, t: seq<Action>)
    requires t1 == t0 + u && t == t1 + [DebugDeregister] + [DebugRelease]
    ensures t == t0 + u + [DebugDeregister, DebugRelease]
  {
  }

  lemma SuspendFailedTrace(t0: seq<Action>, d: seq<Action>, e: set<Resource>, t1: seq<Action>, t2: seq<Action>,
                           u: seq<Action>, t: seq<Action>)
    requires Attached(t0, t1, d, e)
    requires t2 == t1 + [SuspendAcquire] + [] + [SuspendRelease]
    requires Detached(t2, t, u, e)
    ensures PowerUpFailed(t0, t, d, u)
  {
    assert t2 == t0 + [DebugAcquire, DebugRegister] + d + [SuspendAcquire, SuspendRelease];
  }

  lemma PoweredUpTrace(t0: seq<Action>, d: seq<Action>, e: set<Resource>, t1: seq<Action>, t: seq<Action>)
    requires Attached(t0, t1, d, e)
    requires t == t1 + [SuspendAcquire] + [SuspendRegister]
    ensures PoweredUp(t0, t, d, e)
  {
    assert t == t0 + [DebugAcquire, DebugRegister] + d + [SuspendAcquire, SuspendRegister];
  }

  lemma PoweredDownTrace(t0: seq<Action>, t1: seq<Action>, u: seq<Action>, e: set<Resource>, t: seq<Action>)
    requires t1 == t0 + [SuspendDeregister] + [SuspendRelease]
    requires Detached(t1, t, u, e)
    ensures PoweredDown(t0, t, u, e)
  {
    assert t == t0 + [SuspendDeregister, SuspendRelease] + u + [DebugDeregister, DebugRelease];
  }
}
