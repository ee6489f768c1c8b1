/** The XENBUS interfaces the driver calls (STORE, GNTTAB, EVTCHN, DEBUG,
    SUSPEND) and pool allocation, as one scripted environment:

    - every call that can fail takes the next status of `outcomes` (an
      exhausted script answers STATUS_SUCCESS);
    - every effect that outlives the call is appended to `trace`;
    - the XenStore is a map from (path, key) to values, with at most one open
      transaction whose writes become visible on a successful commit;
    - the backend's writes to its `state` key while the frontend waits are the
      scripted `observations`, each with the milliseconds it took to arrive. */
module Xenbus {
  import opened NtStatus

  /** XenbusState (io/xenbus.h). */
  const Unknown: nat := 0
  const Initialising: nat := 1
  const InitWait: nat := 2
  const Initialised: nat := 3
  const Connected: nat := 4
  const Closing: nat := 5
  const Closed: nat := 6
  const Reconfiguring: nat := 7
  const Reconfigured: nat := 8

  /** XenbusStateName: the trace name of a state. */
  function StateName(state: nat): (name: string)
    ensures state <= Reconfigured ==> name != "<UNKNOWN>"
    ensures state > Reconfigured ==> name == "<UNKNOWN>"
  {
    match state
    case 0 => "Unknown"
    case 1 => "Initialising"
    case 2 => "InitWait"
    case 3 => "Initialised"
    case 4 => "Connected"
    case 5 => "Closing"
    case 6 => "Closed"
    case 7 => "Reconfiguring"
    case 8 => "Reconfigured"
    case _ => "<UNKNOWN>"
  }

  /** Distinct states have distinct names. */
  lemma StateNamesDistinct(s: nat, t: nat)
    requires s <= Reconfigured && t <= Reconfigured && s != t
    ensures StateName(s) != StateName(t)
  {
  }

  /** The frontend's store directory (FdoGetStorePath). */
  const FrontendPath: string := "device/vkbd/0"

  datatype Node = Node(path: string, key: string)

  /** A store value: a number written with "%u" or a string. */
  datatype Value = Num(n: nat) | Text(s: string)

  /** strtoul of a store value. */
  function Number(v: Value): nat {
    match v
    case Num(n) => n
    case Text(_) => 0
  }

  /** A store value read as a path. */
  function PathOf(v: Value): string {
    match v
    case Text(s) => s
    case Num(_) => ""
  }

  /** The backend rewrote its state key to `state`; `elapsed` milliseconds
      passed before the frontend saw it. */
  datatype Observation = Observation(state: nat, elapsed: nat)

  /** The effects of foreign calls, in the order they happen. */
  datatype Action =
    | SharedAlloc | SharedFree
    | GrantGet(ref: nat) | GrantPermit(ref: nat, domain: nat)
    | GrantRevoke(ref: nat) | GrantPut(ref: nat)
    | EvtchnOpen(port: nat, domain: nat) | EvtchnClose(port: nat)
    | ContextAlloc | ContextFree
    | StoreAcquire | StoreRelease
    | StoreWrite(node: Node, value: Value)
    | TransactionStart | TransactionEnd(commit: bool)
    | Watch(path: string) | Unwatch(path: string)
    | DebugAcquire | DebugRegister | DebugDeregister | DebugRelease
    | SuspendAcquire | SuspendRegister | SuspendDeregister | SuspendRelease

  /** Actions that hold nothing once they are over: store writes, and watches
      and transactions each given back by the very next action. */
  predicate Quiet(t: seq<Action>)
    decreases |t|
  {
    if t == [] then true
    else if t[0].StoreWrite? then Quiet(t[1..])
    else
      |t| >= 2
      && ((t[0].Watch? && t[1] == Unwatch(t[0].path)) || (t[0] == TransactionStart && t[1].TransactionEnd?))
      && Quiet(t[2..])
  }

  /** A run of watches on `path`, each one removed before the next is set. */
  predicate Watches(t: seq<Action>, path: string) {
    |t| % 2 == 0 && forall i :: 0 <= i < |t| ==> t[i] == if i % 2 == 0 then Watch(path) else Unwatch(path)
  }

  /** Grant references and event channel ports are never 0. */
  type Handle = n: nat | n > 0 witness 1

  /** What a caller holds between an acquiring call and the call that gives
      it back. */
  datatype Resource =
    | SharedPage | Grant(ref: nat) | Access(ref: nat) | Port(port: nat) | ContextMemory
    | StoreReference | WatchOn(path: string) | OpenTransaction
    | DebugReference | DebugCallback | SuspendReference | SuspendCallback

  /** The resource an action takes, if any. */
  function Acquires(a: Action): Option<Resource> {
    match a
    case SharedAlloc => Some(SharedPage)
    case GrantGet(r) => Some(Grant(r))
    case GrantPermit(r, _) => Some(Access(r))
    case EvtchnOpen(p, _) => Some(Port(p))
    case ContextAlloc => Some(ContextMemory)
    case StoreAcquire => Some(StoreReference)
    case Watch(path) => Some(WatchOn(path))
    case TransactionStart => Some(OpenTransaction)
    case DebugAcquire => Some(DebugReference)
    case DebugRegister => Some(DebugCallback)
    case SuspendAcquire => Some(SuspendReference)
    case SuspendRegister => Some(SuspendCallback)
    case _ => None
  }

  /** The resource an action gives back, if any. */
  function Releases(a: Action): Option<Resource> {
    match a
    case SharedFree => Some(SharedPage)
    case GrantPut(r) => Some(Grant(r))
    case GrantRevoke(r) => Some(Access(r))
    case EvtchnClose(p) => Some(Port(p))
    case ContextFree => Some(ContextMemory)
    case StoreRelease => Some(StoreReference)
    case Unwatch(path) => Some(WatchOn(path))
    case TransactionEnd(_) => Some(OpenTransaction)
    case DebugRelease => Some(DebugReference)
    case DebugDeregister => Some(DebugCallback)
    case SuspendRelease => Some(SuspendReference)
    case SuspendDeregister => Some(SuspendCallback)
    case _ => None
  }

  /** The call that gives back what `a` took. */
  function ReleaseOf(a: Action): (r: Action)
    ensures Acquires(a).Some? ==> Releases(r) == Acquires(a) && Acquires(r).None?
  {
    match a
    case SharedAlloc => SharedFree
    case GrantGet(r) => GrantPut(r)
    case GrantPermit(r, _) => GrantRevoke(r)
    case EvtchnOpen(p, _) => EvtchnClose(p)
    case ContextAlloc => ContextFree
    case StoreAcquire => StoreRelease
    case Watch(path) => Unwatch(path)
    case TransactionStart => TransactionEnd(false)
    case DebugAcquire => DebugRelease
    case DebugRegister => DebugDeregister
    case SuspendAcquire => SuspendRelease
    case SuspendRegister => SuspendDeregister
    case _ => a
  }

  function Step(held: set<Resource>, a: Action): set<Resource> {
    if Acquires(a).Some? then held + {Acquires(a).value}
    else if Releases(a).Some? then held - {Releases(a).value}
    else held
  }

  /** What is held after the actions of a trace, starting from `held`. */
  function Held(held: set<Resource>, t: seq<Action>): set<Resource>
    decreases |t|
  {
    if t == [] then held else Held(Step(held, t[0]), t[1..])
  }

  /** The releases of the acquisitions of t, latest first. */
  function Unwind(t: seq<Action>): (r: seq<Action>)
    ensures |r| == |t|
    ensures forall i :: 0 <= i < |t| ==> r[i] == ReleaseOf(t[|t| - 1 - i])
  {
    if t == [] then [] else Unwind(t[1..]) + [ReleaseOf(t[0])]
  }

  /** Every action of t takes a resource, each a different one, none of them
      in `held`. */
  predicate FreshAcquisitions(held: set<Resource>, t: seq<Action>) {
    (forall i :: 0 <= i < |t| ==> Acquires(t[i]).Some? && Acquires(t[i]).value !in held)
    && (forall i, j :: 0 <= i < j < |t| ==> Acquires(t[i]) != Acquires(t[j]))
  }

  lemma {:induction false} HeldAppend(held: set<Resource>, a: seq<Action>, b: seq<Action>)
    ensures Held(held, a + b) == Held(Held(held, a), b)
    decreases |a|
  {
    if a != [] {
      assert (a + b)[1..] == a[1..] + b;
      HeldAppend(Step(held, a[0]), a[1..], b);
    } else {
      assert a + b == b;
    }
  }

  /** Undoing a run of acquisitions in reverse order gives back exactly what
      they took: the caller ends up holding what it held before. */
  lemma {:induction false} UnwindReleases(held: set<Resource>, t: seq<Action>)
    requires FreshAcquisitions(held, t)
    ensures Held(held, t + Unwind(t)) == held
    decreases |t|
  {
    if t != [] {
      var x := t[0];
      var r := Acquires(x).value;
      assert FreshAcquisitions(held + {r}, t[1..]) by {
        forall i | 0 <= i < |t[1..]|
          ensures Acquires(t[1..][i]).value != r
        {
          assert Acquires(t[0]) != Acquires(t[i + 1]);
        }
      }
      UnwindReleases(held + {r}, t[1..]);
      assert t + Unwind(t) == [x] + ((t[1..] + Unwind(t[1..])) + [ReleaseOf(x)]);
      HeldAppend(held + {r}, t[1..] + Unwind(t[1..]), [ReleaseOf(x)]);
      assert Held(held + {r}, [ReleaseOf(x)]) == (held + {r}) - {r};
    }
  }

  /** A run of fresh acquisitions holds every resource it took. */
  lemma {:induction false} AcquiredHeld(held: set<Resource>, t: seq<Action>)
    requires FreshAcquisitions(held, t)
    ensures Held(held, t) == held + set i | 0 <= i < |t| :: Acquires(t[i]).value
    decreases |t|
  {
    if t != [] {
      var r := Acquires(t[0]).value;
      assert FreshAcquisitions(held + {r}, t[1..]) by {
        forall i | 0 <= i < |t[1..]|
          ensures Acquires(t[1..][i]).value != r
        {
          assert Acquires(t[0]) != Acquires(t[i + 1]);
        }
      }
      AcquiredHeld(held + {r}, t[1..]);
      var all := set i | 0 <= i < |t| :: Acquires(t[i]).value;
      var rest := set i | 0 <= i < |t[1..]| :: Acquires(t[1..][i]).value;
      assert all == {r} + rest by {
        forall y | y in all ensures y in {r} + rest {
          var i :| 0 <= i < |t| && Acquires(t[i]).value == y;
          if i > 0 { assert Acquires(t[1..][i - 1]).value == y; }
        }
        forall y | y in rest ensures y in all {
          var i :| 0 <= i < |t[1..]| && Acquires(t[1..][i]).value == y;
          assert Acquires(t[i + 1]).value == y;
        }
      }
    }
  }

  /** Holding no watch and no open transaction. */
  predicate Idle(held: set<Resource>) {
    forall r :: r in held ==> !r.WatchOn? && !r.OpenTransaction?
  }

  lemma HeldPair(held: set<Resource>, a: Action, b: Action)
    ensures Held(held, [a, b]) == Step(Step(held, a), b)
  {
    assert [a, b][1..] == [b];
    assert [b][1..] == [];
    calc {
      Held(held, [a, b]);
      Held(Step(held, a), [b]);
      Held(Step(Step(held, a), b), []);
    }
  }

  /** A watch or a transaction given back at once leaves an idle holder as it was. */
  lemma PairHeld(held: set<Resource>, a: Action, b: Action)
    requires Idle(held)
    requires (a.Watch? && b == Unwatch(a.path)) || (a == TransactionStart && b.TransactionEnd?)
    ensures Held(held, [a, b]) == held
  {
    HeldPair(held, a, b);
  }

  /** A quiet run leaves an idle holder holding what it held. */
  lemma {:induction false} QuietHeld(held: set<Resource>, t: seq<Action>)
    requires Idle(held) && Quiet(t)
    ensures Held(held, t) == held
    decreases |t|
  {
    if t != [] {
      if t[0].StoreWrite? {
        QuietHeld(held, t[1..]);
      } else {
        assert t == t[..2] + t[2..];
        HeldAppend(held, t[..2], t[2..]);
        assert t[..2] == [t[0], t[1]];
        PairHeld(held, t[0], t[1]);
        QuietHeld(held, t[2..]);
      }
    }
  }

  lemma {:induction false} QuietAppend(a: seq<Action>, b: seq<Action>)
    requires Quiet(a) && Quiet(b)
    ensures Quiet(a + b)
    decreases |a|
  {
    if a == [] {
      assert a + b == b;
    } else if a[0].StoreWrite? {
      assert (a + b)[1..] == a[1..] + b;
      QuietAppend(a[1..], b);
    } else {
      assert (a + b)[2..] == a[2..] + b;
      QuietAppend(a[2..], b);
    }
  }

  lemma {:induction false} WatchesQuiet(t: seq<Action>, path: string)
    requires Watches(t, path)
    ensures Quiet(t)
    decreases |t|
  {
    if t != [] {
      assert t[1] == Unwatch(path);
      assert Watches(t[2..], path) by {
        forall i | 0 <= i < |t[2..]|
          ensures t[2..][i] == if i % 2 == 0 then Watch(path) else Unwatch(path)
        {
          assert t[2..][i] == t[i + 2];
        }
      }
      WatchesQuiet(t[2..], path);
    }
  }

  lemma WatchesAppend(t: seq<Action>, path: string)
    requires Watches(t, path)
    ensures Watches(t + [Watch(path), Unwatch(path)], path)
  {
    var r := t + [Watch(path), Unwatch(path)];
    forall i | 0 <= i < |r|
      ensures r[i] == if i % 2 == 0 then Watch(path) else Unwatch(path)
    {
      if i < |t| {
        assert r[i] == t[i];
      }
    }
  }

  /** Writing a key inside `s` leaves the store outside `s` as it was. */
  lemma WriteOutside(m: map<Node, Value>, n: Node, v: Value, s: set<Node>)
    requires n in s
    ensures m[n := v] - s == m - s
  {
    assert forall k :: k in m[n := v] - s <==> k in m - s;
  }

  lemma WidenOutside(m1: map<Node, Value>, m2: map<Node, Value>, s: set<Node>, s': set<Node>)
    requires m1 - s == m2 - s && s <= s'
    ensures m1 - s' == m2 - s'
  {
    forall k | k in m1 - s'
      ensures k in m2 - s' && (m1 - s')[k] == (m2 - s')[k]
    {
      assert k in m1 - s;
    }
    forall k | k in m2 - s'
      ensures k in m1 - s'
    {
      assert k in m2 - s;
    }
  }

  lemma KeptOutside(m1: map<Node, Value>, m2: map<Node, Value>, s: set<Node>, n: Node)
    requires m1 - s == m2 - s && n !in s && n in m1
    ensures n in m2 && m2[n] == m1[n]
  {
    assert n in m1 - s;
  }

  class Env {
    var outcomes: seq<Status>
    var trace: seq<Action>
    /** The store as other domains see it. */
    var nodes: map<Node, Value>
    /** The writes of the open transaction, if one is open. */
    var pending: Option<map<Node, Value>>
    var observations: seq<Observation>
    /** Milliseconds since boot (KeQuerySystemTime). */
    var clock: nat
    /** The grant reference and event channel port the next Get/Open hands out. */
    var nextRef: Handle
    var nextPort: Handle

    constructor (outcomes: seq<Status>, nodes: map<Node, Value>, observations: seq<Observation>)
      ensures this.outcomes == outcomes && this.nodes == nodes && this.observations == observations
      ensures trace == [] && pending == None && clock == 0 && nextRef == 1 && nextPort == 1
    {
      this.outcomes := outcomes;
      this.nodes := nodes;
      this.observations := observations;
      trace := [];
      pending := None;
      clock := 0;
      nextRef := 1;
      nextPort := 1;
    }

    twostate predicate SameStore()
      reads this
    {
      nodes == old(nodes) && pending == old(pending)
    }

    twostate predicate SameClock()
      reads this
    {
      observations == old(observations) && clock == old(clock)
    }

    twostate predicate SameHandles()
      reads this
    {
      nextRef == old(nextRef) && nextPort == old(nextPort)
    }

    /** Takes the status of the next fallible call from the script. */
    method Outcome() returns (status: Status)
      modifies this
      ensures status == Next(old(outcomes)) && outcomes == Rest(old(outcomes))
      ensures trace == old(trace) && SameStore() && SameClock() && SameHandles()
    {
      status := Next(outcomes);
      outcomes := Rest(outcomes);
    }

    /** A call that cannot fail, for instance a free, a revoke or a release. */
    method Emit(a: Action)
      modifies this
      ensures trace == old(trace) + [a]
      ensures outcomes == old(outcomes) && SameStore() && SameClock() && SameHandles()
    {
      trace := trace + [a];
    }

    /** DEBUG(Register) or SUSPEND(Register): a fallible call that, when it
        succeeds, takes what `a` acquires. */
    method Register(a: Action) returns (status: Status)
      modifies this
      ensures status == Next(old(outcomes)) && outcomes == Rest(old(outcomes))
      ensures trace == old(trace) + (if NtSuccess(status) then [a] else [])
      ensures SameStore() && SameClock() && SameHandles()
    {
      status := Outcome();
      if NtSuccess(status) {
        trace := trace + [a];
      }
    }

    /** ExAllocatePoolWithTag: fails when the script says so. */
    method Allocate() returns (ok: bool)
      modifies this
      ensures ok <==> Next(old(outcomes)) == Success
      ensures outcomes == Rest(old(outcomes))
      ensures trace == old(trace) && SameStore() && SameClock() && SameHandles()
    {
      var status := Outcome();
      ok := status == Success;
    }

    /** GNTTAB(Get). */
    method GrantGet() returns (status: Status, ref: nat)
      modifies this
      ensures status == Next(old(outcomes)) && outcomes == Rest(old(outcomes))
      ensures NtSuccess(status) ==> ref == old(nextRef) && nextRef == old(nextRef) + 1
                                    && trace == old(trace) + [Action.GrantGet(ref)]
      ensures !NtSuccess(status) ==> ref == 0 && nextRef == old(nextRef) && trace == old(trace)
      ensures ref != 0 <==> NtSuccess(status)
      ensures nextPort == old(nextPort) && SameStore() && SameClock()
    {
      status := Outcome();
      if NtSuccess(status) {
        ref := nextRef;
        nextRef := nextRef + 1;
        trace := trace + [Action.GrantGet(ref)];
      } else {
        ref := 0;
      }
    }

    /** GNTTAB(PermitForeignAccess). */
    method GrantPermit(ref: nat, domain: nat) returns (status: Status)
      modifies this
      ensures status == Next(old(outcomes)) && outcomes == Rest(old(outcomes))
      ensures trace == old(trace) + (if NtSuccess(status) then [Action.GrantPermit(ref, domain)] else [])
      ensures SameStore() && SameClock() && SameHandles()
    {
      status := Outcome();
      if NtSuccess(status) {
        trace := trace + [Action.GrantPermit(ref, domain)];
      }
    }

    /** EVTCHN(Open) of an unbound port for the backend domain; NULL on failure. */
    method EvtchnOpen(domain: nat) returns (port: Option<nat>)
      modifies this
      ensures outcomes == Rest(old(outcomes))
      ensures port.Some? <==> Next(old(outcomes)) == Success
      ensures port.Some? ==> port.value == old(nextPort) && nextPort == old(nextPort) + 1
                             && trace == old(trace) + [Action.EvtchnOpen(port.value, domain)]
      ensures port.None? ==> nextPort == old(nextPort) && trace == old(trace)
      ensures nextRef == old(nextRef) && SameStore() && SameClock()
    {
      var status := Outcome();
      if status == Success {
        port := Some(nextPort);
        nextPort := nextPort + 1;
        trace := trace + [Action.EvtchnOpen(port.value, domain)];
      } else {
        port := None;
      }
    }

    /** STORE(Read) outside a transaction. */
    method StoreRead(node: Node) returns (status: Status, value: Option<Value>)
      modifies this
      ensures outcomes == Rest(old(outcomes))
      ensures !NtSuccess(Next(old(outcomes))) ==> status == Next(old(outcomes)) && value == None
      ensures NtSuccess(Next(old(outcomes))) && node in nodes ==> status == Next(old(outcomes)) && value == Some(nodes[node])
      ensures NtSuccess(Next(old(outcomes))) && node !in nodes ==> status == ObjectNameNotFound && value == None
      ensures NtSuccess(status) <==> value.Some?
      ensures trace == old(trace) && SameStore() && SameClock() && SameHandles()
    {
      status := Outcome();
      if !NtSuccess(status) {
        value := None;
      } else if node in nodes {
        value := Some(nodes[node]);
      } else {
        status := ObjectNameNotFound;
        value := None;
      }
    }

    /** STORE(Printf) outside a transaction. */
    method StoreWrite(node: Node, value: Value) returns (status: Status)
      modifies this
      ensures status == Next(old(outcomes)) && outcomes == Rest(old(outcomes))
      ensures NtSuccess(status) ==> nodes == old(nodes)[node := value] && trace == old(trace) + [Action.StoreWrite(node, value)]
      ensures !NtSuccess(status) ==> nodes == old(nodes) && trace == old(trace)
      ensures pending == old(pending) && SameClock() && SameHandles()
    {
      status := Outcome();
      if NtSuccess(status) {
        nodes := nodes[node := value];
        trace := trace + [Action.StoreWrite(node, value)];
      }
    }

    /** STORE(TransactionStart). */
    method TransactionBegin() returns (status: Status)
      requires pending == None
      modifies this
      ensures status == Next(old(outcomes)) && outcomes == Rest(old(outcomes))
      ensures NtSuccess(status) ==> pending == Some(map[]) && trace == old(trace) + [TransactionStart]
      ensures !NtSuccess(status) ==> pending == None && trace == old(trace)
      ensures nodes == old(nodes) && SameClock() && SameHandles()
    {
      status := Outcome();
      if NtSuccess(status) {
        pending := Some(map[]);
        trace := trace + [TransactionStart];
      }
    }

    /** STORE(Printf) inside the open transaction. */
    method TransactionWrite(node: Node, value: Value) returns (status: Status)
      requires pending.Some?
      modifies this
      ensures status == Next(old(outcomes)) && outcomes == Rest(old(outcomes))
      ensures NtSuccess(status) ==> pending == Some(old(pending).value[node := value])
      ensures !NtSuccess(status) ==> pending == old(pending)
      ensures nodes == old(nodes) && trace == old(trace) && SameClock() && SameHandles()
    {
      status := Outcome();
      if NtSuccess(status) {
        pending := Some(pending.value[node := value]);
      }
    }

    /** STORE(TransactionEnd, TRUE): on success the transaction's writes become
        visible together; STATUS_RETRY (a conflicting update) or any other
        failure discards them. */
    method TransactionCommit() returns (status: Status)
      requires pending.Some?
      modifies this
      ensures status == Next(old(outcomes)) && outcomes == Rest(old(outcomes))
      ensures NtSuccess(status) ==> nodes == old(nodes) + old(pending).value
      ensures !NtSuccess(status) ==> nodes == old(nodes)
      ensures pending == None && trace == old(trace) + [TransactionEnd(true)]
      ensures SameClock() && SameHandles()
    {
      status := Outcome();
      if NtSuccess(status) {
        nodes := nodes + pending.value;
      }
      pending := None;
      trace := trace + [TransactionEnd(true)];
    }

    /** STORE(TransactionEnd, FALSE): discards the transaction. */
    method TransactionAbort()
      requires pending.Some?
      modifies this
      ensures pending == None && nodes == old(nodes) && trace == old(trace) + [TransactionEnd(false)]
      ensures outcomes == old(outcomes) && SameClock() && SameHandles()
    {
      pending := None;
      trace := trace + [TransactionEnd(false)];
    }

    /** STORE(Watch) on the backend's state key. */
    method Watch(path: string) returns (status: Status)
      modifies this
      ensures status == Next(old(outcomes)) && outcomes == Rest(old(outcomes))
      ensures trace == old(trace) + (if NtSuccess(status) then [Action.Watch(path)] else [])
      ensures SameStore() && SameClock() && SameHandles()
    {
      status := Outcome();
      if NtSuccess(status) {
        trace := trace + [Action.Watch(path)];
      }
    }

    /** The inner wait of __FrontendWaitState: 999 polls of the watch event, a
        millisecond apart. Either the backend's next write arrives, or a second
        passes with nothing. */
    method Wait(path: string)
      modifies this
      ensures old(observations) == [] ==> observations == [] && clock == old(clock) + 1000 && nodes == old(nodes)
      ensures old(observations) != [] ==>
                observations == old(observations)[1..]
                && clock == old(clock) + old(observations)[0].elapsed
                && nodes == old(nodes)[Node(path, "state") := Num(old(observations)[0].state)]
      ensures outcomes == old(outcomes) && trace == old(trace) && pending == old(pending) && SameHandles()
    {
      if observations == [] {
        clock := clock + 1000;
      } else {
        clock := clock + observations[0].elapsed;
        nodes := nodes[Node(path, "state") := Num(observations[0].state)];
        observations := observations[1..];
      }
    }
  }
}
