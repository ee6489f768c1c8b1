/** The read-IRP cache of the FDO (__FdoCache, __FdoUncache, FdoCompleteRead,
    FdoPauseData, FdoResumeData): four slots used as a FIFO of pending
    IOCTL_HID_READ_REPORT IRPs, filled at the first empty slot and drained from
    the first occupied slot with a left shift. */
module ReadCache {
  import opened NtStatus
  import opened Io
  import opened Shift

  /** MAXIRPCACHE. */
  const MaxIrpCache: nat := 4

  type Slots = seq<Option<Irp>>

  /** Empty slots only follow occupied ones. */
  predicate Dense(s: Slots) {
    forall i, j :: 0 <= i < j < |s| && s[i].None? ==> s[j].None?
  }

  /** The occupied prefix of the slots, oldest first. */
  function Queue(s: Slots): (q: seq<Irp>)
    ensures |q| <= |s|
    ensures forall i :: 0 <= i < |q| ==> s[i] == Some(q[i])
    ensures |q| < |s| ==> s[|q|].None?
  {
    if s == [] || s[0].None? then [] else [s[0].value] + Queue(s[1..])
  }

  /** The first occupied slot, or |s|. */
  function FirstUsed(s: Slots): (k: nat)
    ensures k <= |s|
    ensures forall i :: 0 <= i < k ==> s[i].None?
    ensures k < |s| ==> s[k].Some?
  {
    if s == [] then 0
    else if s[0].Some? then 0
    else 1 + FirstUsed(s[1..])
  }

  /** __FdoCache on the slots. */
  function Cached(enabled: bool, s: Slots, irp: Irp): (Status, Slots)
  {
    if !enabled then (DeviceNotReady, s)
    else if |Queue(s)| == |s| then (Unsuccessful, s)
    else (Success, s[|Queue(s)| := Some(irp)])
  }

  /** __FdoUncache on the slots. */
  function Uncached(s: Slots): (Option<Irp>, Slots)
  {
    var k := FirstUsed(s);
    if k == |s| then (None, s)
    else (s[k], Removed(s, k, None))
  }

  /** A disabled cache refuses the IRP; an enabled one queues it behind the
      others, or refuses it when full. The slots stay dense, and the status is
      never STATUS_PENDING. */
  lemma CachedSpec(enabled: bool, s: Slots, irp: Irp)
    requires Dense(s)
    ensures Cached(enabled, s, irp).0 in {DeviceNotReady, Unsuccessful, Success}
    ensures !enabled ==> Cached(enabled, s, irp) == (DeviceNotReady, s)
    ensures enabled && |Queue(s)| == |s| ==> Cached(enabled, s, irp) == (Unsuccessful, s)
    ensures enabled && |Queue(s)| < |s| ==> Cached(enabled, s, irp).0 == Success
    ensures enabled && |Queue(s)| < |s| ==> Queue(Cached(enabled, s, irp).1) == Queue(s) + [irp]
    ensures |Cached(enabled, s, irp).1| == |s| && Dense(Cached(enabled, s, irp).1)
  {
    if enabled && |Queue(s)| < |s| {
      var r := s[|Queue(s)| := Some(irp)];
      QueueOfPrefix(r, Queue(s) + [irp]);
    }
  }

  /** An empty cache yields nothing; otherwise the oldest IRP comes out and the
      others move up one slot, the last slot becoming empty. */
  lemma UncachedSpec(s: Slots)
    requires Dense(s)
    ensures Queue(s) == [] ==> Uncached(s) == (None, s)
    ensures Queue(s) != [] ==> Uncached(s).0 == Some(Queue(s)[0])
    ensures Queue(s) != [] ==> Queue(Uncached(s).1) == Queue(s)[1..] && Uncached(s).1[|s| - 1].None?
    ensures |Uncached(s).1| == |s| && Dense(Uncached(s).1)
  {
    var q := Queue(s);
    if q == [] {
      if s != [] {
        assert s[0].None?;
      }
    } else {
      assert FirstUsed(s) == 0;
      var r := Removed(s, 0, None);
      QueueOfPrefix(r, q[1..]);
    }
  }

  /** A dense slot array whose first |q| slots hold q, and nothing after, has
      queue q. */
  lemma {:induction false} QueueOfPrefix(s: Slots, q: seq<Irp>)
    requires |q| <= |s|
    requires forall i :: 0 <= i < |q| ==> s[i] == Some(q[i])
    requires forall i :: |q| <= i < |s| ==> s[i].None?
    ensures Queue(s) == q && Dense(s)
  {
    if q != [] {
      QueueOfPrefix(s[1..], q[1..]);
    }
  }

  /** Caching b into a cache with room and then uncaching yields the IRP at the
      head of the queue: the oldest cached IRP is the first one completed. */
  lemma FifoOrder(s: Slots, b: Irp)
    requires Dense(s) && |Queue(s)| < |s|
    ensures Uncached(Cached(true, s, b).1).0 == Some(if Queue(s) == [] then b else Queue(s)[0])
  {
    CachedSpec(true, s, b);
    UncachedSpec(Cached(true, s, b).1);
  }

  /** The cache together with the completion log of the I/O manager. */
  datatype CacheState = CacheState(slots: Slots, log: seq<Completion>)

  /** Four dense slots holding distinct IRPs none of which was completed yet,
      and a log in which no IRP appears twice. */
  predicate WellFormed(c: CacheState) {
    |c.slots| == MaxIrpCache && Dense(c.slots) && Distinct(Queue(c.slots))
    && AtMostOnce(c.log)
    && forall i :: 0 <= i < |Queue(c.slots)| ==> NotCompleted(c.log, Queue(c.slots)[i])
  }

  /** An IRP the driver has not seen before: neither cached nor completed. */
  predicate Fresh(c: CacheState, irp: Irp) {
    NotCompleted(c.log, irp) && irp !in Queue(c.slots)
  }

  /** FdoCompleteRead: completes the oldest cached IRP with the report. */
  function ReadCompleted(c: CacheState, payload: Payload, length: nat): (Status, CacheState)
  {
    var (irp, slots) := Uncached(c.slots);
    if irp.None? then (DeviceNotReady, c)
    else (Success, CacheState(slots, c.log + [Completion(irp.value, Success, length, payload)]))
  }

  /** With nothing cached nothing is completed; otherwise the oldest IRP is
      completed with STATUS_SUCCESS, the report and Information = length, and
      the cache keeps its invariant. */
  lemma ReadCompletedSpec(c: CacheState, payload: Payload, length: nat)
    requires WellFormed(c)
    ensures Queue(c.slots) == [] ==> ReadCompleted(c, payload, length) == (DeviceNotReady, c)
    ensures Queue(c.slots) != [] ==> ReadCompleted(c, payload, length).0 == Success
    ensures Queue(c.slots) != [] ==> ReadCompleted(c, payload, length).1.log
                                     == c.log + [Completion(Queue(c.slots)[0], Success, length, payload)]
    ensures Queue(c.slots) != [] ==> Queue(ReadCompleted(c, payload, length).1.slots) == Queue(c.slots)[1..]
    ensures WellFormed(ReadCompleted(c, payload, length).1)
  {
    UncachedSpec(c.slots);
    var q := Queue(c.slots);
    if q != [] {
      TailStaysFresh(c.log, q, Completion(q[0], Success, length, payload));
    }
  }

  /** After the head of the queue is completed, the rest of the queue is still
      not completed. */
  lemma TailStaysFresh(log: seq<Completion>, q: seq<Irp>, c: Completion)
    requires q != [] && Distinct(q) && c.irp == q[0]
    requires forall i :: 0 <= i < |q| ==> NotCompleted(log, q[i])
    ensures Distinct(q[1..]) && AtMostOnce(log) ==> AtMostOnce(log + [c])
    ensures forall i :: 0 <= i < |q[1..]| ==> NotCompleted(log + [c], q[1..][i])
  {
    forall i | 0 <= i < |q[1..]|
      ensures NotCompleted(log + [c], q[1..][i])
    {
      assert q[1..][i] == q[i + 1] && q[i + 1] != q[0];
    }
  }

  /** __FdoCache with the log: the invariant survives caching a fresh IRP. */
  lemma CachedKeeps(c: CacheState, enabled: bool, irp: Irp)
    requires WellFormed(c) && Fresh(c, irp)
    ensures WellFormed(CacheState(Cached(enabled, c.slots, irp).1, c.log))
  {
    CachedSpec(enabled, c.slots, irp);
  }

  /** The completions FdoPauseData makes: one STATUS_DEVICE_NOT_READY per cached
      IRP, oldest first. */
  function NotReady(q: seq<Irp>): (r: seq<Completion>)
    ensures |r| == |q|
    ensures forall i :: 0 <= i < |q| ==> r[i] == Completion(q[i], DeviceNotReady, 0, NoData)
  {
    if q == [] then [] else [Completion(q[0], DeviceNotReady, 0, NoData)] + NotReady(q[1..])
  }

  function EmptySlots(): (s: Slots)
    ensures |s| == MaxIrpCache && Queue(s) == [] && Dense(s)
  {
    [None, None, None, None]
  }

  class IrpCache {
    /** Irps[MAXIRPCACHE]. */
    const irps: array<Option<Irp>>
    /** Enabled: whether read IRPs are accepted. */
    var enabled: bool
    const io: IoManager

    ghost predicate Valid()
      reads this, irps, io
    {
      irps.Length == MaxIrpCache && WellFormed(State())
    }

    function State(): CacheState
      reads this, irps, io
    {
      CacheState(irps[..], io.completions)
    }

    /** The zeroed cache of a new FDO: disabled and empty. */
    constructor (io: IoManager)
      requires AtMostOnce(io.completions)
      ensures Valid() && !enabled && irps[..] == EmptySlots() && this.io == io && fresh(irps)
    {
      irps := new Option<Irp>[MaxIrpCache](_ => None);
      enabled := false;
      this.io := io;
      new;
      assert irps[..] == EmptySlots();
    }

    /** __FdoCache. */
    method Cache(irp: Irp) returns (status: Status)
      modifies irps
      ensures (status, irps[..]) == Cached(enabled, old(irps[..]), irp)
    {
      if !enabled {
        return DeviceNotReady;
      }
      status := Unsuccessful;
      for i := 0 to irps.Length
        invariant forall j :: 0 <= j < i ==> irps[j].Some?
        invariant irps[..] == old(irps[..])
      {
        if irps[i].None? {
          assert |Queue(irps[..])| == i;
          irps[i] := Some(irp);
          return Success;
        }
      }
      assert |Queue(irps[..])| == irps.Length;
    }

    /** __FdoUncache. */
    method Uncache() returns (irp: Option<Irp>)
      modifies irps
      ensures (irp, irps[..]) == Uncached(old(irps[..]))
    {
      for i := 0 to irps.Length
        invariant forall j :: 0 <= j < i ==> irps[j].None?
        invariant irps[..] == old(irps[..])
      {
        if irps[i].Some? {
          assert FirstUsed(irps[..]) == i;
          irp := irps[i];
          ShiftOut(irps, i, None);
          return;
        }
      }
      assert FirstUsed(irps[..]) == irps.Length;
      irp := None;
    }

    /** FdoCompleteRead: completes the oldest cached IRP with a copy of the
        report. Enabled is not consulted. */
    method CompleteRead(payload: Payload, length: nat) returns (status: Status)
      modifies irps, io
      ensures (status, State()) == ReadCompleted(old(State()), payload, length)
      ensures io.forwarded == old(io.forwarded) && io.lower == old(io.lower)
    {
      var irp := Uncache();
      if irp.None? {
        return DeviceNotReady;
      }
      io.Complete(Completion(irp.value, Success, length, payload));
      status := Success;
    }

    /** FdoPauseData: stops accepting reads and completes every cached IRP,
        oldest first, with STATUS_DEVICE_NOT_READY. */
    method PauseData()
      requires Valid()
      modifies this, irps, io
      ensures Valid() && !enabled
      ensures irps[..] == EmptySlots()
      ensures io.completions == old(io.completions) + NotReady(old(Queue(irps[..])))
      ensures io.forwarded == old(io.forwarded) && io.lower == old(io.lower)
    {
      enabled := false;
      ghost var c := State();
      DrainAll();
      PauseKeeps(c, Queue(c.slots));
    }

    /** The for (;;) loop of FdoPauseData. */
    method DrainAll()
      requires irps.Length == MaxIrpCache && Dense(irps[..])
      modifies irps, io
      ensures irps[..] == EmptySlots()
      ensures io.completions == old(io.completions) + NotReady(old(Queue(irps[..])))
      ensures io.forwarded == old(io.forwarded) && io.lower == old(io.lower)
    {
      ghost var q0 := Queue(irps[..]);
      ghost var done: seq<Irp> := [];
      while true
        invariant irps.Length == MaxIrpCache && Dense(irps[..])
        invariant q0 == done + Queue(irps[..])
        invariant io.completions == old(io.completions) + NotReady(done)
        invariant io.forwarded == old(io.forwarded) && io.lower == old(io.lower)
        decreases |Queue(irps[..])|
      {
        PauseStep(irps[..], done, q0);
        var irp := Uncache();
        if irp.None? {
          break;
        }
        io.Complete(Completion(irp.value, DeviceNotReady, 0, NoData));
        assert io.completions == old(io.completions) + NotReady(done + [irp.value]) by {
          AppendAssoc(old(io.completions), NotReady(done), Completion(irp.value, DeviceNotReady, 0, NoData));
        }
        done := done + [irp.value];
      }
      AllEmpty(irps[..]);
    }

    /** FdoResumeData. */
    method ResumeData()
      modifies this
      ensures enabled
    {
      enabled := true;
    }
  }

  /** One round of the FdoPauseData loop. */
  lemma PauseStep(s: Slots, done: seq<Irp>, q0: seq<Irp>)
    requires Dense(s) && q0 == done + Queue(s)
    ensures Uncached(s).0.None? ==> Queue(s) == [] && Uncached(s).1 == s
    ensures Uncached(s).0.Some? ==> Dense(Uncached(s).1) && |Uncached(s).1| == |s|
    ensures Uncached(s).0.Some? ==> q0 == (done + [Uncached(s).0.value]) + Queue(Uncached(s).1)
    ensures Uncached(s).0.Some? ==> |Queue(Uncached(s).1)| < |Queue(s)|
    ensures Uncached(s).0.Some? ==> NotReady(done + [Uncached(s).0.value])
                                    == NotReady(done) + [Completion(Uncached(s).0.value, DeviceNotReady, 0, NoData)]
  {
    UncachedSpec(s);
    if Queue(s) != [] {
      var q := Queue(s);
      assert done + q == (done + [q[0]]) + q[1..];
    }
  }

  lemma AppendAssoc(a: seq<Completion>, b: seq<Completion>, c: Completion)
    ensures (a + b) + [c] == a + (b + [c])
  {
  }

  lemma AllEmpty(s: Slots)
    requires |s| == MaxIrpCache && Dense(s) && Queue(s) == []
    ensures s == EmptySlots()
  {
  }

  /** Completing every cached IRP once keeps each IRP completed at most once. */
  lemma PauseKeeps(c: CacheState, q: seq<Irp>)
    requires WellFormed(c) && q == Queue(c.slots)
    ensures WellFormed(CacheState(EmptySlots(), c.log + NotReady(q)))
  {
    var log := c.log + NotReady(q);
    forall i, j | 0 <= i < j < |log|
      ensures log[i].irp != log[j].irp
    {
      if j >= |c.log| {
        assert log[j].irp == q[j - |c.log|];
        if i >= |c.log| {
          assert log[i].irp == q[i - |c.log|];
        } else {
          assert NotCompleted(c.log, q[j - |c.log|]);
        }
      }
    }
  }
}
