/** The Xenbus frontend (frontend.c): the state handshake with the backend
    over the store, the device model's lifecycle around it, and the Connected
    guard in front of every HID operation. The device model is the vkbd
    context; the Operations table is reduced to whether it has been filled. */
module Frontend {
  import opened NtStatus
  import opened Io
  import opened ReadCache
  import opened Xenbus
  import Vkbd

  /** __FrontendWaitState gives up after this many milliseconds. */
  const WaitTimeout: nat := 120000

  /** BackendDomain is a USHORT. */
  const DomainModulus: nat := 0x1_0000

  /** The keys the frontend reads and writes under its own store path. */
  const StateNode: Node := Node(FrontendPath, "state")
  const BackendNode: Node := Node(FrontendPath, "backend")
  const BackendIdNode: Node := Node(FrontendPath, "backend-id")
  const ProtocolNode: Node := Node(FrontendPath, "protocol")

  /** The key the backend publishes its state under. */
  function BackendState(path: string): Node {
    Node(path, "state")
  }

  /** What an enabled frontend holds: the store interface, the vkbd context and
      what Vkbd_Connect took. */
  function EnabledResources(ref: nat, port: nat): set<Resource> {
    {StoreReference, ContextMemory, SharedPage, Grant(ref), Access(ref), Port(port)}
  }

  /** The Connected guard of the HID operations: the device model's reply, or
      STATUS_DEVICE_NOT_READY with nothing copied. */
  function Guarded(connected: bool, r: Vkbd.Reply): Vkbd.Reply {
    if connected then r else Vkbd.Reply(DeviceNotReady, 0, NoData)
  }

  /** The resources held after a single action. */
  lemma HeldOne(held: set<Resource>, a: Action)
    ensures Held(held, [a]) == Step(held, a)
  {
    assert [a][1..] == [];
  }

  /** An acquisition, a quiet run and a release. */
  lemma HeldBracket(held: set<Resource>, a: Action, t: seq<Action>, b: Action)
    requires Quiet(t) && Idle(Step(held, a))
    ensures Held(held, [a] + t + [b]) == Step(Step(held, a), b)
  {
    assert ([a] + t)[1..] == t;
    QuietHeld(Step(held, a), t);
    assert Held(held, [a] + t) == Step(held, a);
    HeldAppend(held, [a] + t, [b]);
    HeldOne(Step(held, a), b);
  }

  /** The acquisitions FrontendEnable makes before __FrontendConnect. */
  lemma PreparedHeld(q: seq<Action>)
    requires Quiet(q)
    ensures Held({}, [StoreAcquire] + q + [ContextAlloc]) == {StoreReference, ContextMemory}
  {
    assert Step({}, StoreAcquire) == {StoreReference};
    HeldBracket({}, StoreAcquire, q, ContextAlloc);
  }

  /** The trace of a FrontendEnable that failed before the context existed. */
  lemma ReleasedTrace(before: seq<Action>, q: seq<Action>, t: seq<Action>)
    requires Quiet(q) && t == before + [StoreAcquire] + q + [StoreRelease]
    ensures t == before + ([StoreAcquire] + q + [StoreRelease])
    ensures Held({}, [StoreAcquire] + q + [StoreRelease]) == {}
  {
    ClosedThenReleased(q);
  }

  /** The trace of FrontendEnable when the context has just been created. */
  lemma PreparedTrace(before: seq<Action>, q: seq<Action>, t: seq<Action>)
    requires Quiet(q) && t == before + [StoreAcquire] + q + [ContextAlloc]
    ensures t == before + ([StoreAcquire] + q + [ContextAlloc])
    ensures Held({}, [StoreAcquire] + q + [ContextAlloc]) == {StoreReference, ContextMemory}
  {
    PreparedHeld(q);
  }

  /** A failure of FrontendEnable before the context exists gives back the
      store interface: nothing is held. */
  lemma ClosedThenReleased(q: seq<Action>)
    requires Quiet(q)
    ensures Held({}, [StoreAcquire] + q + [StoreRelease]) == {}
  {
    assert Step({}, StoreAcquire) == {StoreReference};
    HeldBracket({}, StoreAcquire, q, StoreRelease);
  }

  /** The resources of a successful Vkbd_Connect are none of those held before it. */
  lemma PreparedFresh(ref: nat, port: nat, domain: nat)
    ensures FreshAcquisitions({StoreReference, ContextMemory}, Vkbd.ConnectActions(ref, port, domain))
  {
  }

  /** Vkbd_Connect, once the store interface and the context are held. */
  lemma ConnectedHeld(ref: nat, port: nat, domain: nat)
    ensures Held({StoreReference, ContextMemory}, Vkbd.ConnectActions(ref, port, domain)) == EnabledResources(ref, port)
    ensures Held(EnabledResources(ref, port), Vkbd.Teardown(ref, port)) == {StoreReference, ContextMemory}
  {
    var h := {StoreReference, ContextMemory};
    PreparedFresh(ref, port, domain);
    Vkbd.ConnectReleases(h, ref, port, domain, 4);
    assert h + {SharedPage, Grant(ref), Access(ref), Port(port)} == EnabledResources(ref, port);
    HeldAppend(h, Vkbd.ConnectActions(ref, port, domain), Vkbd.Teardown(ref, port));
  }

  /** A successful FrontendEnable holds the store interface, the context and the
      four resources of Vkbd_Connect. */
  lemma EnabledHeld(q1: seq<Action>, ref: nat, port: nat, domain: nat, q2: seq<Action>)
    requires Quiet(q1) && Quiet(q2)
    ensures Held({}, [StoreAcquire] + q1 + [ContextAlloc] + Vkbd.ConnectActions(ref, port, domain) + q2)
            == EnabledResources(ref, port)
  {
    var p := [StoreAcquire] + q1 + [ContextAlloc];
    var t := Vkbd.ConnectActions(ref, port, domain);
    PreparedHeld(q1);
    ConnectedHeld(ref, port, domain);
    HeldAppend({}, p, t);
    HeldAppend({}, p + t, q2);
    QuietHeld(EnabledResources(ref, port), q2);
  }

  /** A successful FrontendEnable: p holds the store interface and the context,
      and c, what __FrontendConnect added, took the resources of Vkbd_Connect. */
  lemma LaunchedHeld(p: seq<Action>, c: seq<Action>, ref: nat, port: nat)
    requires Held({}, p) == {StoreReference, ContextMemory}
    requires Held({StoreReference, ContextMemory}, c) == EnabledResources(ref, port)
    ensures Held({}, p + c) == EnabledResources(ref, port)
  {
    HeldAppend({}, p, c);
  }

  /** A failure of FrontendEnable after the context exists: c, what
      __FrontendConnect left, gives back everything it took; then the context
      and the store interface go, and nothing is held. */
  lemma ConnectFailedHeld(p: seq<Action>, c: seq<Action>)
    requires Held({}, p) == {StoreReference, ContextMemory}
    requires Held({StoreReference, ContextMemory}, c) == {StoreReference, ContextMemory}
    ensures Held({}, p + c + [ContextFree, StoreRelease]) == {}
  {
    HeldAppend({}, p, c);
    HeldAppend({}, p + c, [ContextFree, StoreRelease]);
    HeldPair({StoreReference, ContextMemory}, ContextFree, StoreRelease);
  }

  /** What __FrontendConnect leaves when it fails: either a rolled-back
      Vkbd_Connect, or a full one, a quiet run and Vkbd_Disconnect. Either way
      a holder of the store interface and the context is left as it was. */
  lemma ConnectFailureHeld(ref: nat, port: nat, domain: nat, k: nat, q: seq<Action>)
    requires k < 4 && Quiet(q)
    ensures Held({StoreReference, ContextMemory}, Vkbd.RolledBack(Vkbd.ConnectActions(ref, port, domain), k))
            == {StoreReference, ContextMemory}
    ensures Held({StoreReference, ContextMemory}, Vkbd.ConnectActions(ref, port, domain) + q + Vkbd.Teardown(ref, port))
            == {StoreReference, ContextMemory}
  {
    var h := {StoreReference, ContextMemory};
    var t := Vkbd.ConnectActions(ref, port, domain);
    PreparedFresh(ref, port, domain);
    Vkbd.ConnectReleases(h, ref, port, domain, k);
    ConnectedHeld(ref, port, domain);
    HeldAppend(h, t, q);
    QuietHeld(EnabledResources(ref, port), q);
    HeldAppend(h, t + q, Vkbd.Teardown(ref, port));
  }

  /** The trace of __FrontendClose: the two steps one after the other. */
  lemma ClosedTrace(t0: seq<Action>, q1: seq<Action>, t1: seq<Action>, q2: seq<Action>, t: seq<Action>,
                    w1: seq<Action>, w2: seq<Action>)
    requires t1 == t0 + q1 && t == t1 + q2 && Quiet(q1) && Quiet(q2)
    requires q1 == [StoreWrite(StateNode, Num(Closing))] + w1
    requires q2 == [] || q2 == [StoreWrite(StateNode, Num(Closed))] + w2
    ensures t == t0 + (q1 + q2) && Quiet(q1 + q2)
    ensures q2 == [] ==> q1 + q2 == q1
    ensures q2 != [] ==> q1 + q2 == [StoreWrite(StateNode, Num(Closing))] + w1 + [StoreWrite(StateNode, Num(Closed))] + w2
  {
    QuietAppend(q1, q2);
  }

  /** The store apart from its "state" keys, the only keys the handshake
      writes or the backend is seen to change. */
  ghost function Settled(m: map<Node, Value>): map<Node, Value> {
    map n | n in m && n.key != "state" :: m[n]
  }

  /** Changes confined to "state" keys leave the settled store as it was. */
  lemma SettledOutside(m1: map<Node, Value>, m2: map<Node, Value>, path: string)
    requires m1 - {StateNode, BackendState(path)} == m2 - {StateNode, BackendState(path)}
    ensures Settled(m1) == Settled(m2)
  {
    var s := {StateNode, BackendState(path)};
    forall n | n in Settled(m1)
      ensures n in Settled(m2) && Settled(m1)[n] == Settled(m2)[n]
    {
      assert n in m1 - s;
    }
    forall n | n in Settled(m2)
      ensures n in Settled(m1)
    {
      assert n in m2 - s;
    }
  }

  /** A key other than "state" is present and valued alike in two stores with
      the same settled part. */
  lemma SettledKeeps(m1: map<Node, Value>, m2: map<Node, Value>, n: Node)
    requires Settled(m1) == Settled(m2) && n.key != "state"
    ensures n in m1 <==> n in m2
    ensures n in m1 ==> m1[n] == m2[n]
  {
    if n in m1 {
      assert n in Settled(m1);
    }
    if n in m2 {
      assert n in Settled(m2);
    }
  }

  /** How a failure of the handshake is accounted for by the environment: a
      status the script answered, STATUS_NO_MEMORY for an allocation the script
      refused, STATUS_OBJECT_NAME_NOT_FOUND for a key found `missing`, or
      STATUS_UNSUCCESSFUL once the wait has `timedOut`. */
  ghost predicate Explained(status: Status, script: seq<Status>, missing: bool, timedOut: bool) {
    status in script || (status == NoMemory && Failing(script))
    || (status == ObjectNameNotFound && missing) || (status == Unsuccessful && timedOut)
  }

  /** An account of a failure stays one for a longer script, more missing
      keys and a longer wait. */
  lemma ExplainedWidens(status: Status, rest: seq<Status>, script: seq<Status>, m: bool, m': bool, t: bool, t': bool)
    requires Explained(status, rest, m, t) && Suffix(rest, script) && (m ==> m') && (t ==> t')
    ensures Explained(status, script, m', t')
  {
    if status in rest {
      SuffixIn(status, rest, script);
    } else if status == NoMemory && Failing(rest) {
      FailingSuffix(rest, script);
    }
  }

  /** A failed __FrontendWaitState that began with script `o` at time `c`,
      accounted for in a longer script and a wait that began at `c0`. */
  lemma WaitExplained(status: Status, o: seq<Status>, script: seq<Status>, missing: bool, c: nat, c0: nat, clock: nat)
    requires status in o || (status == ObjectNameNotFound && missing) || (status == Unsuccessful && clock >= c + WaitTimeout)
    requires Suffix(o, script) && c >= c0
    ensures Explained(status, script, missing, clock >= c0 + WaitTimeout)
  {
    if status in o {
      SuffixIn(status, o, script);
    }
  }

  /** The answer of STORE(Read) to the script `o` for a key that is `present`
      in the store or not. */
  function StoreAnswer(o: seq<Status>, present: bool): Status {
    if NtSuccess(Next(o)) && !present then ObjectNameNotFound else Next(o)
  }

  /** The protocol FrontendEnable chooses: the value of the "protocol" key
      when its read succeeds, else 0. */
  function ProtocolOf(read: Status, nodes: map<Node, Value>): nat {
    if NtSuccess(read) && ProtocolNode in nodes then Number(nodes[ProtocolNode]) else 0
  }

  /** The trace of the publication `q` followed by the handshake `a`, and
      on failure the teardown `r`. */
  lemma NegotiatedTrace(t0: seq<Action>, q: seq<Action>, t1: seq<Action>, a: seq<Action>, r: seq<Action>, t: seq<Action>)
    requires t1 == t0 + q
    ensures t == t1 + a ==> t == t0 + (q + a)
    ensures t == t1 + a + r ==> t == t0 + (q + a) + r
  {
  }

  /** Regrouping of the connect trace, kept apart so that the methods that
      build the trace do not reason about concatenation themselves. */
  lemma Regroup(a: seq<Action>, b: seq<Action>, c: seq<Action>)
    ensures a + b + c == a + (b + c)
  {
  }

  /** The same regrouping for the connect trace followed by its teardown. */
  lemma Regroup3(a: seq<Action>, b: seq<Action>, c: seq<Action>, d: seq<Action>)
    ensures a + b + c + d == a + (b + c + d)
  {
  }

  /** The trace of FrontendDisable, which gives back everything an enabled
      frontend holds. */
  lemma DisabledTrace(from: seq<Action>, ref: nat, port: nat, q: seq<Action>, t: seq<Action>)
    requires Quiet(q) && t == from + Vkbd.Teardown(ref, port) + [ContextFree] + q + [StoreRelease]
    ensures t == from + (Vkbd.Teardown(ref, port) + [ContextFree] + q + [StoreRelease])
    ensures Held(EnabledResources(ref, port), Vkbd.Teardown(ref, port) + [ContextFree] + q + [StoreRelease]) == {}
  {
    DisabledHeld(ref, port, q);
  }

  /** FrontendDisable gives back everything an enabled frontend holds. */
  lemma DisabledHeld(ref: nat, port: nat, q: seq<Action>)
    requires Quiet(q)
    ensures Held(EnabledResources(ref, port), Vkbd.Teardown(ref, port) + [ContextFree] + q + [StoreRelease]) == {}
  {
    var h := {StoreReference, ContextMemory};
    var down := Vkbd.Teardown(ref, port);
    ConnectedHeld(ref, port, 0);
    HeldAppend(EnabledResources(ref, port), down, [ContextFree] + q + [StoreRelease]);
    assert Step(h, ContextFree) == {StoreReference};
    HeldBracket(h, ContextFree, q, StoreRelease);
    assert down + [ContextFree] + q + [StoreRelease] == down + ([ContextFree] + q + [StoreRelease]);
  }

  class Frontend {
    var connected: bool
    var backendPath: Option<string>
    var backendDomain: nat
    /** Operations has been filled in by VkbdInitialize. */
    var operations: bool
    var context: Vkbd.Vkbd?
    /** The FDO's read cache, which FrontendCompleteRead leads to. */
    const cache: IrpCache
    const env: Env

    ghost function Model(): set<object>
      reads this
    {
      if context == null then {} else {context, context.keys}
    }

    /** A context exists exactly while connected, and then it is connected to
        the backend and shares this frontend's cache and environment. */
    ghost predicate Valid()
      reads this, Model(), cache, cache.irps, cache.io, env
    {
      backendDomain < DomainModulus && cache.Valid() && env.pending == None
      && (connected <==> context != null) && operations == connected
      && (context != null ==>
            context.cache == cache && context.env == env && context.Valid()
            && context.shared.Some? && context.evtchn.Some?)
    }

    /** A key the handshake reads is missing from `nodes`: the backend's path
        or domain, or the backend's state. */
    ghost predicate KeyMissing(nodes: map<Node, Value>)
      reads this
    {
      BackendNode !in nodes || BackendIdNode !in nodes
      || (backendPath.Some? && BackendState(backendPath.value) !in nodes)
    }

    constructor (cache: IrpCache, env: Env)
      ensures !connected && backendPath == None && backendDomain == 0 && !operations && context == null
      ensures this.cache == cache && this.env == env
    {
      connected := false;
      backendPath := None;
      backendDomain := 0;
      operations := false;
      context := null;
      this.cache := cache;
      this.env := env;
    }

    /** FrontendCreate: STATUS_NO_MEMORY when the frontend cannot be allocated. */
    static method Create(cache: IrpCache, env: Env) returns (status: Status, f: Frontend?)
      requires cache.Valid() && env.pending == None
      modifies env
      ensures status == Success <==> f != null
      ensures status == Success || status == NoMemory
      ensures f != null ==> fresh(f) && f.Valid() && f.cache == cache && f.env == env
                            && !f.connected && f.backendPath == None
      ensures env.outcomes == Rest(old(env.outcomes)) && env.trace == old(env.trace)
      ensures env.SameStore() && env.SameClock() && env.SameHandles()
    {
      var ok := env.Allocate();
      if !ok {
        return NoMemory, null;
      }
      f := new Frontend(cache, env);
      status := Success;
    }

    /** FrontendDestroy. */
    method Destroy()
      modifies this
      ensures !connected && backendPath == None && backendDomain == 0
      ensures operations == old(operations) && context == old(context)
    {
      connected := false;
      backendPath := None;
      backendDomain := 0;
    }

    /** __FrontendSetState: the frontend's state key, outside any transaction. */
    method SetState(state: nat) returns (status: Status)
      modifies env
      ensures status == Next(old(env.outcomes)) && env.outcomes == Rest(old(env.outcomes))
      ensures NtSuccess(status) ==>
                env.nodes == old(env.nodes)[StateNode := Num(state)]
                && env.trace == old(env.trace) + [StoreWrite(StateNode, Num(state))]
      ensures !NtSuccess(status) ==> env.nodes == old(env.nodes) && env.trace == old(env.trace)
      ensures env.pending == old(env.pending) && env.SameClock() && env.SameHandles()
    {
      status := env.StoreWrite(StateNode, Num(state));
    }

    /** __FrontendWaitState: watch the backend's state key until it holds a
        state other than `from`, for at most WaitTimeout milliseconds. Success
        exactly when the state changed; the watch, once set, is always removed. */
    method WaitState(from: nat) returns (status: Status, state: nat, ghost w: seq<Action>)
      requires backendPath.Some?
      modifies env
      ensures status == Success <==> state != from
      ensures status == Success || !NtSuccess(status)
      ensures status == Success ==>
                BackendState(backendPath.value) in env.nodes
                && state == Number(env.nodes[BackendState(backendPath.value)])
      ensures status == Unsuccessful && Unsuccessful !in old(env.outcomes) ==>
                env.clock >= old(env.clock) + WaitTimeout
      ensures status == Success && BackendState(backendPath.value) in old(env.nodes)
              && Number(old(env.nodes)[BackendState(backendPath.value)]) == from ==>
                |env.observations| < |old(env.observations)|
      ensures !NtSuccess(status) ==>
                status in old(env.outcomes)
                || (status == ObjectNameNotFound && BackendState(backendPath.value) !in env.nodes)
                || (status == Unsuccessful && env.clock >= old(env.clock) + WaitTimeout)
      ensures |env.observations| <= |old(env.observations)| && env.clock >= old(env.clock)
      ensures Suffix(env.outcomes, old(env.outcomes))
      ensures w == (if NtSuccess(Next(old(env.outcomes))) then [Watch(backendPath.value), Unwatch(backendPath.value)] else [])
      ensures env.trace == old(env.trace) + w
      ensures env.nodes - {BackendState(backendPath.value)} == old(env.nodes) - {BackendState(backendPath.value)}
      ensures env.pending == old(env.pending) && env.SameHandles()
    {
      var path := backendPath.value;
      var node := BackendState(path);
      state := from;
      SuffixRest(env.outcomes, env.outcomes);
      status := env.Watch(path);
      if !NtSuccess(status) {
        w := [];
        return;
      }
      w := [Watch(path), Unwatch(path)];
      var start := env.clock;
      var delta: nat := 0;
      while state == from && delta < WaitTimeout
        invariant env.clock >= start == old(env.clock) && delta == env.clock - start
        invariant state != from ==> node in env.nodes && state == Number(env.nodes[node])
        invariant |env.observations| <= |old(env.observations)|
        invariant |env.observations| == |old(env.observations)| ==> env.nodes == old(env.nodes)
        invariant env.nodes - {node} == old(env.nodes) - {node}
        invariant Unsuccessful !in old(env.outcomes) ==> Unsuccessful !in env.outcomes
        invariant Suffix(env.outcomes, old(env.outcomes))
        invariant env.trace == old(env.trace) + [Watch(path)]
        invariant env.pending == old(env.pending) && env.SameHandles()
        decreases |env.observations|, WaitTimeout - delta
      {
        env.Wait(path);
        var value;
        SuffixRest(env.outcomes, old(env.outcomes));
        status, value := env.StoreRead(node);
        if !NtSuccess(status) {
          env.Emit(Unwatch(path));
          return;
        }
        state := Number(value.value);
        delta := env.clock - start;
      }
      env.Emit(Unwatch(path));
      if state == from {
        return Unsuccessful, state, w;
      }
      status := Success;
    }

    /** The do-while loops of __FrontendClose: wait until the backend's state
        is one of `targets`. */
    method AwaitState(from: nat, targets: set<nat>) returns (status: Status, state: nat, ghost w: seq<Action>)
      requires backendPath.Some?
      modifies env
      ensures status == Success || !NtSuccess(status)
      ensures status == Success ==>
                state in targets && BackendState(backendPath.value) in env.nodes
                && state == Number(env.nodes[BackendState(backendPath.value)])
      ensures !NtSuccess(status) ==>
                Explained(status, old(env.outcomes), BackendState(backendPath.value) !in env.nodes,
                          env.clock >= old(env.clock) + WaitTimeout)
      ensures Suffix(env.outcomes, old(env.outcomes)) && env.clock >= old(env.clock)
      ensures Watches(w, backendPath.value) && env.trace == old(env.trace) + w
      ensures env.nodes - {BackendState(backendPath.value)} == old(env.nodes) - {BackendState(backendPath.value)}
      ensures env.pending == old(env.pending) && env.SameHandles()
    {
      var path := backendPath.value;
      var node := BackendState(path);
      status, state, w := Success, from, [];
      var first := true;
      while first || (status == Success && state !in targets)
        invariant status == Success || !NtSuccess(status)
        invariant !first && status == Success ==> node in env.nodes && state == Number(env.nodes[node])
        invariant !NtSuccess(status) ==>
                    Explained(status, old(env.outcomes), node !in env.nodes, env.clock >= old(env.clock) + WaitTimeout)
        invariant Suffix(env.outcomes, old(env.outcomes)) && env.clock >= old(env.clock)
        invariant Watches(w, path) && env.trace == old(env.trace) + w
        invariant env.nodes - {node} == old(env.nodes) - {node}
        invariant env.pending == old(env.pending) && env.SameHandles()
        decreases |env.observations| + (if first then 2 else if status == Success then 1 else 0)
      {
        ghost var w';
        ghost var o, c := env.outcomes, env.clock;
        status, state, w' := WaitState(state);
        first := false;
        SuffixTrans(env.outcomes, o, old(env.outcomes));
        if !NtSuccess(status) {
          WaitExplained(status, o, old(env.outcomes), node !in env.nodes, c, old(env.clock), env.clock);
        }
        if w' != [] {
          WatchesAppend(w, path);
        }
        w := w + w';
      }
    }

    /** __FrontendUpdatePaths with the allocation failure reported as
        STATUS_NO_MEMORY: the backend's path and domain are re-read, the
        domain truncated to 16 bits. */
    method UpdatePaths() returns (status: Status)
      modifies this, env
      ensures status == Success || !NtSuccess(status)
      ensures status == Success ==>
                BackendNode in old(env.nodes) && BackendIdNode in old(env.nodes)
                && backendPath == Some(PathOf(old(env.nodes)[BackendNode]))
                && backendDomain == Number(old(env.nodes)[BackendIdNode]) % DomainModulus
      ensures !NtSuccess(Next(old(env.outcomes))) ==>
                status == Next(old(env.outcomes)) && backendPath == old(backendPath) && backendDomain == old(backendDomain)
      ensures NtSuccess(Next(old(env.outcomes))) && BackendNode !in old(env.nodes) ==>
                status == ObjectNameNotFound && backendPath == old(backendPath) && backendDomain == old(backendDomain)
      ensures NtSuccess(Next(old(env.outcomes))) && BackendNode in old(env.nodes)
              && Next(Rest(old(env.outcomes))) != Success ==>
                status == NoMemory && backendPath == None
      ensures NtSuccess(Next(old(env.outcomes))) && BackendNode in old(env.nodes)
              && Next(Rest(old(env.outcomes))) == Success ==>
                backendPath == Some(PathOf(old(env.nodes)[BackendNode]))
                && (var id := StoreAnswer(Rest(Rest(old(env.outcomes))), BackendIdNode in old(env.nodes));
                    status == (if NtSuccess(id) then Success else id))
                && (status != Success ==> backendDomain == old(backendDomain))
      ensures !NtSuccess(status) ==> Explained(status, old(env.outcomes), KeyMissing(env.nodes), false)
      ensures Suffix(env.outcomes, old(env.outcomes))
      ensures backendDomain == old(backendDomain) || backendDomain < DomainModulus
      ensures connected == old(connected) && operations == old(operations) && context == old(context)
      ensures env.trace == old(env.trace) && env.SameStore() && env.SameClock() && env.SameHandles()
    {
      var value;
      ghost var o0 := env.outcomes;
      SuffixRest(o0, o0);
      status, value := env.StoreRead(BackendNode);
      if !NtSuccess(status) {
        return;
      }
      ghost var o1 := env.outcomes;
      SuffixRest(o1, o0);
      var ok := env.Allocate();
      if !ok {
        backendPath := None;
        return NoMemory;
      }
      backendPath := Some(PathOf(value.value));
      ghost var o2 := env.outcomes;
      SuffixRest(o2, o0);
      status, value := env.StoreRead(BackendIdNode);
      if !NtSuccess(status) {
        return;
      }
      backendDomain := Number(value.value) % DomainModulus;
      status := Success;
    }

    /** __FrontendUpdatePaths as written: when the copy of the path cannot be
        allocated, BackendPath is left NULL and the status of the preceding
        successful read is returned. */
    method UpdatePathsAsWritten() returns (status: Status)
      modifies this, env
      ensures NtSuccess(Next(old(env.outcomes))) && BackendNode in old(env.nodes)
              && Next(Rest(old(env.outcomes))) != Success ==>
                NtSuccess(status) && backendPath == None
      ensures env.trace == old(env.trace) && env.SameStore() && env.SameClock() && env.SameHandles()
    {
      var value;
      status, value := env.StoreRead(BackendNode);
      if !NtSuccess(status) {
        return;
      }
      var ok := env.Allocate();
      if !ok {
        backendPath := None;
        return;
      }
      backendPath := Some(PathOf(value.value));
      status, value := env.StoreRead(BackendIdNode);
      if !NtSuccess(status) {
        return;
      }
      backendDomain := Number(value.value) % DomainModulus;
      status := Success;
    }

    /** __FrontendClose: write Closing, wait for Closing or Closed, write
        Closed, wait for Closed; the first failing step ends it. */
    method Close() returns (status: Status, ghost q: seq<Action>, ghost seen: nat, ghost w1: seq<Action>, ghost w2: seq<Action>)
      modifies this, env
      ensures status == Success || !NtSuccess(status)
      ensures Quiet(q) && env.trace == old(env.trace) + q
      ensures status == Success ==>
                backendPath.Some? && (seen == Closing || seen == Closed)
                && BackendState(backendPath.value) in env.nodes
                && Number(env.nodes[BackendState(backendPath.value)]) == Closed
                && Watches(w1, backendPath.value) && Watches(w2, backendPath.value)
                && q == [StoreWrite(StateNode, Num(Closing))] + w1 + [StoreWrite(StateNode, Num(Closed))] + w2
      ensures !NtSuccess(Next(old(env.outcomes))) ==> status == Next(old(env.outcomes)) && q == []
      ensures status != Success ==>
                q == []
                || (backendPath.Some? && Watches(w1, backendPath.value)
                    && (q == [StoreWrite(StateNode, Num(Closing))] + w1
                        || ((seen == Closing || seen == Closed) && Watches(w2, backendPath.value)
                            && q == [StoreWrite(StateNode, Num(Closing))] + w1 + [StoreWrite(StateNode, Num(Closed))] + w2)))
      ensures !NtSuccess(status) ==>
                Explained(status, old(env.outcomes), KeyMissing(env.nodes), env.clock >= old(env.clock) + WaitTimeout)
      ensures Suffix(env.outcomes, old(env.outcomes)) && env.clock >= old(env.clock)
      ensures Settled(env.nodes) == Settled(old(env.nodes))
      ensures backendDomain == old(backendDomain) || backendDomain < DomainModulus
      ensures connected == old(connected) && operations == old(operations) && context == old(context)
      ensures env.pending == old(env.pending) && env.SameHandles()
    {
      q, seen, w1, w2 := [], 0, [], [];
      status := UpdatePaths();
      if status != Success {
        ExplainedWidens(status, old(env.outcomes), old(env.outcomes), KeyMissing(env.nodes), KeyMissing(env.nodes),
                        false, env.clock >= old(env.clock) + WaitTimeout);
        return;
      }
      ghost var o0 := env.outcomes;
      status, q, seen, w1, w2 := CloseSteps();
      SuffixTrans(env.outcomes, o0, old(env.outcomes));
      if !NtSuccess(status) {
        ExplainedWidens(status, o0, old(env.outcomes), BackendState(backendPath.value) !in env.nodes, KeyMissing(env.nodes),
                        env.clock >= old(env.clock) + WaitTimeout, env.clock >= old(env.clock) + WaitTimeout);
      }
    }

    /** The two steps of __FrontendClose once the paths are known. */
    method CloseSteps() returns (status: Status, ghost q: seq<Action>, ghost seen: nat, ghost w1: seq<Action>, ghost w2: seq<Action>)
      requires backendPath.Some?
      modifies env
      ensures status == Success || !NtSuccess(status)
      ensures Quiet(q) && env.trace == old(env.trace) + q
      ensures status == Success ==>
                (seen == Closing || seen == Closed)
                && BackendState(backendPath.value) in env.nodes
                && Number(env.nodes[BackendState(backendPath.value)]) == Closed
                && Watches(w1, backendPath.value) && Watches(w2, backendPath.value)
                && q == [StoreWrite(StateNode, Num(Closing))] + w1 + [StoreWrite(StateNode, Num(Closed))] + w2
      ensures status != Success ==>
                q == []
                || (Watches(w1, backendPath.value)
                    && (q == [StoreWrite(StateNode, Num(Closing))] + w1
                        || ((seen == Closing || seen == Closed) && Watches(w2, backendPath.value)
                            && q == [StoreWrite(StateNode, Num(Closing))] + w1 + [StoreWrite(StateNode, Num(Closed))] + w2)))
      ensures !NtSuccess(status) ==>
                Explained(status, old(env.outcomes), BackendState(backendPath.value) !in env.nodes,
                          env.clock >= old(env.clock) + WaitTimeout)
      ensures Suffix(env.outcomes, old(env.outcomes)) && env.clock >= old(env.clock)
      ensures Settled(env.nodes) == Settled(old(env.nodes))
      ensures env.pending == old(env.pending) && env.SameHandles()
    {
      seen, w1, w2 := 0, [], [];
      var state, last;
      ghost var q1, q2;
      ghost var n0 := env.nodes;
      status, state, q1, w1 := Announce(Closing, Unknown, {Closing, Closed});
      SettledOutside(n0, env.nodes, backendPath.value);
      seen := state;
      q := q1;
      if status != Success {
        return;
      }
      ghost var t1, n1, o1, c1 := env.trace, env.nodes, env.outcomes, env.clock;
      status, last, q2, w2 := Announce(Closed, state, {Closed});
      SettledOutside(n1, env.nodes, backendPath.value);
      SuffixTrans(env.outcomes, o1, old(env.outcomes));
      if !NtSuccess(status) {
        ExplainedWidens(status, o1, old(env.outcomes), BackendState(backendPath.value) !in env.nodes,
                        BackendState(backendPath.value) !in env.nodes,
                        env.clock >= c1 + WaitTimeout, env.clock >= old(env.clock) + WaitTimeout);
      }
      ClosedTrace(old(env.trace), q1, t1, q2, env.trace, w1, w2);
      q := q1 + q2;
    }

    /** A step of the handshake: write `write` as the frontend's state, then
        wait, from `from`, until the backend's state is one of `targets`. */
    method Announce(write: nat, from: nat, targets: set<nat>)
      returns (status: Status, state: nat, ghost q: seq<Action>, ghost w: seq<Action>)
      requires backendPath.Some?
      modifies env
      ensures status == Success || !NtSuccess(status)
      ensures Quiet(q) && env.trace == old(env.trace) + q
      ensures status == Success ==>
                state in targets && BackendState(backendPath.value) in env.nodes
                && state == Number(env.nodes[BackendState(backendPath.value)])
                && Watches(w, backendPath.value) && q == [StoreWrite(StateNode, Num(write))] + w
      ensures !NtSuccess(Next(old(env.outcomes))) ==> status == Next(old(env.outcomes)) && q == []
      ensures NtSuccess(Next(old(env.outcomes))) ==>
                Watches(w, backendPath.value) && q == [StoreWrite(StateNode, Num(write))] + w
      ensures !NtSuccess(status) ==>
                Explained(status, old(env.outcomes), BackendState(backendPath.value) !in env.nodes,
                          env.clock >= old(env.clock) + WaitTimeout)
      ensures Suffix(env.outcomes, old(env.outcomes)) && env.clock >= old(env.clock)
      ensures env.nodes - {StateNode, BackendState(backendPath.value)}
              == old(env.nodes) - {StateNode, BackendState(backendPath.value)}
      ensures env.pending == old(env.pending) && env.SameHandles()
    {
      q, w, state := [], [], from;
      var outside := {StateNode, BackendState(backendPath.value)};
      SuffixRest(env.outcomes, env.outcomes);
      status := SetState(write);
      if NtSuccess(status) {
        WriteOutside(old(env.nodes), StateNode, Num(write), outside);
        ghost var nodes, o := env.nodes, env.outcomes;
        status, state, w := AwaitState(from, targets);
        SuffixTrans(env.outcomes, o, old(env.outcomes));
        if !NtSuccess(status) {
          ExplainedWidens(status, o, old(env.outcomes), BackendState(backendPath.value) !in env.nodes,
                          BackendState(backendPath.value) !in env.nodes,
                          env.clock >= old(env.clock) + WaitTimeout, env.clock >= old(env.clock) + WaitTimeout);
        }
        WidenOutside(env.nodes, nodes, {BackendState(backendPath.value)}, outside);
        WatchesQuiet(w, backendPath.value);
        q := [StoreWrite(StateNode, Num(write))] + w;
        assert q[1..] == w;
        assert env.trace == old(env.trace) + q by {
          assert env.trace == (old(env.trace) + [StoreWrite(StateNode, Num(write))]) + w;
        }
      }
    }

    /** The transaction loop of __FrontendConnect: Vkbd_WriteStore inside a
        transaction, retried while the commit answers STATUS_RETRY; a failed
        write aborts the transaction and a new one is started. The loop ends
        when a transaction cannot be started or a commit answers anything but
        STATUS_RETRY. */
    method Publish() returns (status: Status, ghost q: seq<Action>, ghost last: seq<Action>)
      requires context != null && context.env == env && context.evtchn.Some? && env.pending == None
      modifies env
      ensures Quiet(q) && env.trace == old(env.trace) + q
      ensures |last| <= |q| && q[|q| - |last|..] == last
      ensures last == [] || last == [TransactionStart, TransactionEnd(true)]
      ensures last == [] ==> !NtSuccess(status)
      ensures last == [TransactionStart, TransactionEnd(true)] ==> status != Retry
      ensures NtSuccess(status) ==>
                last == [TransactionStart, TransactionEnd(true)]
                && Vkbd.EvtchnNode in env.nodes && env.nodes[Vkbd.EvtchnNode] == Num(context.evtchn.value)
                && Vkbd.GnttabNode in env.nodes && env.nodes[Vkbd.GnttabNode] == Num(context.grantRef)
      ensures !NtSuccess(status) ==> env.nodes == old(env.nodes)
      ensures env.pending == None && env.SameClock() && env.SameHandles()
    {
      q := [];
      while true
        invariant env.pending == None && Quiet(q) && env.trace == old(env.trace) + q
        invariant env.nodes == old(env.nodes)
        invariant env.SameClock() && env.SameHandles()
        decreases |env.outcomes|
      {
        var again;
        ghost var pair;
        status, again, pair := Attempt();
        PairQuiet(q, pair);
        q := q + pair;
        assert q[|q| - |pair|..] == pair;
        if !again {
          last := pair;
          break;
        }
      }
    }

    /** One round of the transaction loop; `again` when the loop goes round once more. */
    method Attempt() returns (status: Status, again: bool, ghost pair: seq<Action>)
      requires context != null && context.env == env && context.evtchn.Some? && env.pending == None
      modifies env
      ensures again ==> |env.outcomes| < |old(env.outcomes)|
      ensures pair == [] <==> !NtSuccess(Next(old(env.outcomes)))
      ensures pair == [] ==> !again && status == Next(old(env.outcomes))
      ensures pair == [TransactionStart, TransactionEnd(false)] ==> again && !NtSuccess(status)
      ensures pair == [TransactionStart, TransactionEnd(true)] ==> (again <==> status == Retry)
      ensures !NtSuccess(status) ==> env.nodes == old(env.nodes)
      ensures !again && NtSuccess(status) ==>
                Vkbd.EvtchnNode in env.nodes && env.nodes[Vkbd.EvtchnNode] == Num(context.evtchn.value)
                && Vkbd.GnttabNode in env.nodes && env.nodes[Vkbd.GnttabNode] == Num(context.grantRef)
      ensures pair == [] || pair == [TransactionStart, TransactionEnd(false)] || pair == [TransactionStart, TransactionEnd(true)]
      ensures env.trace == old(env.trace) + pair
      ensures env.pending == None && env.SameClock() && env.SameHandles()
    {
      status := env.TransactionBegin();
      if !NtSuccess(status) {
        return status, false, [];
      }
      var written := context.WriteStore();
      if !NtSuccess(written) {
        env.TransactionAbort();
        return written, true, [TransactionStart, TransactionEnd(false)];
      }
      status := env.TransactionCommit();
      again := status == Retry;
      pair := [TransactionStart, TransactionEnd(true)];
    }

    /** __FrontendConnect: Vkbd_Connect, the store publication, then Connected
        written and the backend's answer awaited; Connected is the only
        acceptable answer. A failure after Vkbd_Connect calls Vkbd_Disconnect. */
    method Connect() returns (status: Status, ghost q: seq<Action>)
      requires context != null && context.Valid() && context.env == env && context.cache == cache
      requires context.shared == None && context.grantRef == 0 && context.evtchn == None
      requires env.pending == None
      modifies this, env, context
      ensures status == Success || !NtSuccess(status)
      ensures context == old(context) && connected == old(connected) && operations == old(operations)
      ensures context.Valid() && env.pending == None && Quiet(q)
      ensures backendDomain == old(backendDomain) || backendDomain < DomainModulus
      ensures status == Success ==>
                backendPath.Some? && BackendState(backendPath.value) in env.nodes
                && Number(env.nodes[BackendState(backendPath.value)]) == Connected
                && context.shared.Some? && context.grantRef == old(env.nextRef) && context.evtchn == Some(old(env.nextPort))
                && Vkbd.EvtchnNode in env.nodes && env.nodes[Vkbd.EvtchnNode] == Num(context.evtchn.value)
                && Vkbd.GnttabNode in env.nodes && env.nodes[Vkbd.GnttabNode] == Num(context.grantRef)
                && env.trace == old(env.trace) + Vkbd.ConnectActions(old(env.nextRef), old(env.nextPort), backendDomain) + q
      ensures status != Success ==>
                context.shared == None && context.grantRef == 0 && context.evtchn == None
                && ((exists k :: 0 <= k < 4 && env.trace
                       == old(env.trace) + Vkbd.RolledBack(Vkbd.ConnectActions(old(env.nextRef), old(env.nextPort), backendDomain), k))
                    || env.trace == old(env.trace) + Vkbd.ConnectActions(old(env.nextRef), old(env.nextPort), backendDomain)
                                    + q + Vkbd.Teardown(old(env.nextRef), old(env.nextPort)))
    {
      q := [];
      status := UpdatePaths();
      if status != Success {
        Vkbd.ConnectRollbacks(env.nextRef, env.nextPort, backendDomain);
        assert env.trace == old(env.trace) + Vkbd.RolledBack(Vkbd.ConnectActions(env.nextRef, env.nextPort, backendDomain), 0);
        return;
      }
      status := context.Connect(backendDomain);
      if status != Success {
        return;
      }
      status, q := Negotiate();
    }

    /** __FrontendConnect once Vkbd_Connect has succeeded: publication and the
        Connected handshake, with Vkbd_Disconnect on any failure. */
    method Negotiate() returns (status: Status, ghost q: seq<Action>)
      requires context != null && context.env == env && backendPath.Some?
      requires context.shared.Some? && context.evtchn.Some? && env.pending == None
      modifies env, context
      ensures status == Success || !NtSuccess(status)
      ensures Quiet(q) && env.pending == None && context.SameReports()
      ensures status == Success ==>
                context.shared == old(context.shared) && context.grantRef == old(context.grantRef)
                && context.evtchn == old(context.evtchn)
                && env.trace == old(env.trace) + q
                && BackendState(backendPath.value) in env.nodes
                && Number(env.nodes[BackendState(backendPath.value)]) == Connected
                && Vkbd.EvtchnNode in env.nodes && env.nodes[Vkbd.EvtchnNode] == Num(context.evtchn.value)
                && Vkbd.GnttabNode in env.nodes && env.nodes[Vkbd.GnttabNode] == Num(context.grantRef)
      ensures status != Success ==>
                context.shared == None && context.grantRef == 0 && context.evtchn == None
                && env.trace == old(env.trace) + q + Vkbd.Teardown(old(context.grantRef), old(context.evtchn.value))
      ensures env.SameHandles()
    {
      ghost var last;
      status, q, last := Publish();
      if !NtSuccess(status) {
        context.Disconnect();
        return;
      }
      ghost var t1 := env.trace;
      ghost var a;
      status, a := Handshake();
      QuietAppend(q, a);
      NegotiatedTrace(old(env.trace), q, t1, a, Vkbd.Teardown(old(context.grantRef), old(context.evtchn.value)), env.trace);
      q := q + a;
    }

    /** The Connected handshake of __FrontendConnect once the store publication
        is committed, with Vkbd_Disconnect when it fails; the published
        entries survive it. */
    method Handshake() returns (status: Status, ghost q: seq<Action>)
      requires context != null && context.env == env && backendPath.Some?
      requires context.shared.Some? && context.evtchn.Some? && env.pending == None
      requires Vkbd.EvtchnNode in env.nodes && env.nodes[Vkbd.EvtchnNode] == Num(context.evtchn.value)
      requires Vkbd.GnttabNode in env.nodes && env.nodes[Vkbd.GnttabNode] == Num(context.grantRef)
      modifies env, context
      ensures status == Success || !NtSuccess(status)
      ensures Quiet(q) && env.pending == None && context.SameReports()
      ensures status == Success ==>
                context.shared == old(context.shared) && context.grantRef == old(context.grantRef)
                && context.evtchn == old(context.evtchn)
                && env.trace == old(env.trace) + q
                && BackendState(backendPath.value) in env.nodes
                && Number(env.nodes[BackendState(backendPath.value)]) == Connected
                && Vkbd.EvtchnNode in env.nodes && env.nodes[Vkbd.EvtchnNode] == Num(context.evtchn.value)
                && Vkbd.GnttabNode in env.nodes && env.nodes[Vkbd.GnttabNode] == Num(context.grantRef)
      ensures status != Success ==>
                context.shared == None && context.grantRef == 0 && context.evtchn == None
                && env.trace == old(env.trace) + q + Vkbd.Teardown(old(context.grantRef), old(context.evtchn.value))
      ensures env.SameHandles()
    {
      ghost var wait, seen;
      status, q, wait, seen := AwaitConnected();
      if status != Success {
        context.Disconnect();
        return;
      }
      var outside := {StateNode, BackendState(backendPath.value)};
      KeptOutside(old(env.nodes), env.nodes, outside, Vkbd.EvtchnNode);
      KeptOutside(old(env.nodes), env.nodes, outside, Vkbd.GnttabNode);
    }

    /** The tail of __FrontendConnect: Connected written, then one wait for the
        backend's state to leave Unknown; Connected is the only acceptable
        answer, anything else is STATUS_INVALID_PARAMETER. */
    method AwaitConnected() returns (status: Status, ghost q: seq<Action>, ghost wait: Status, ghost seen: nat)
      requires backendPath.Some?
      modifies env
      ensures status == Success || !NtSuccess(status)
      ensures Quiet(q) && env.trace == old(env.trace) + q
      ensures !NtSuccess(Next(old(env.outcomes))) ==> status == Next(old(env.outcomes)) && q == []
      ensures NtSuccess(Next(old(env.outcomes))) && !NtSuccess(wait) ==>
                status == wait
                && Explained(wait, old(env.outcomes), KeyMissing(env.nodes), env.clock >= old(env.clock) + WaitTimeout)
      ensures Suffix(env.outcomes, old(env.outcomes))
      ensures NtSuccess(Next(old(env.outcomes))) && NtSuccess(wait) ==>
                seen != Unknown && BackendState(backendPath.value) in env.nodes
                && seen == Number(env.nodes[BackendState(backendPath.value)])
                && (seen == Connected ==> status == Success)
                && (seen != Connected ==> status == InvalidParameter)
      ensures status == Success ==>
                BackendState(backendPath.value) in env.nodes
                && Number(env.nodes[BackendState(backendPath.value)]) == Connected
      ensures env.nodes - {StateNode, BackendState(backendPath.value)}
              == old(env.nodes) - {StateNode, BackendState(backendPath.value)}
      ensures env.pending == old(env.pending) && env.SameHandles()
    {
      q, wait, seen := [], Success, Unknown;
      var outside := {StateNode, BackendState(backendPath.value)};
      SuffixRest(env.outcomes, env.outcomes);
      status := SetState(Connected);
      if !NtSuccess(status) {
        return;
      }
      WriteOutside(old(env.nodes), StateNode, Num(Connected), outside);
      ghost var nodes, o := env.nodes, env.outcomes;
      var state;
      ghost var w;
      status, state, w := WaitState(Unknown);
      wait, seen := status, state;
      SuffixTrans(env.outcomes, o, old(env.outcomes));
      if !NtSuccess(wait) {
        WaitExplained(wait, o, old(env.outcomes), KeyMissing(env.nodes), old(env.clock), old(env.clock), env.clock);
      }
      WidenOutside(env.nodes, nodes, {BackendState(backendPath.value)}, outside);
      if w != [] {
        assert Watches(w, backendPath.value);
        WatchesQuiet(w, backendPath.value);
      }
      q := [StoreWrite(StateNode, Num(Connected))] + w;
      assert q[1..] == w;
      assert env.trace == old(env.trace) + q by {
        assert env.trace == (old(env.trace) + [StoreWrite(StateNode, Num(Connected))]) + w;
      }
      if status != Success {
        return;
      }
      if state != Connected {
        return InvalidParameter, q, wait, seen;
      }
    }

    /** FrontendEnable: with the store interface acquired, the frontend is
        closed, the protocol key chosen (a missing or unreadable key means 0,
        the only protocol there is, vkbd), the Operations table filled, the
        context created and __FrontendConnect run. Each failure undoes what
        came before it, so that a failed enable holds nothing and a
        successful one holds exactly the store interface, the context and the
        resources of Vkbd_Connect. */
    method Enable() returns (status: Status, ghost d: seq<Action>, ghost protocol: Option<nat>, ghost read: Status,
                             ghost o: seq<Status>)
      requires Valid() && !connected
      modifies this, env
      ensures Valid() && fresh(Model())
      ensures status == Success <==> connected
      ensures status == Success || !NtSuccess(status)
      ensures env.trace == old(env.trace) + d
      ensures status == Success ==>
                Held({}, d) == EnabledResources(context.grantRef, context.evtchn.value)
                && protocol == Some(0) && backendPath.Some? && BackendState(backendPath.value) in env.nodes
                && Number(env.nodes[BackendState(backendPath.value)]) == Connected
      ensures status != Success ==> Held({}, d) == {}
      ensures protocol.Some? ==> protocol.value == ProtocolOf(read, old(env.nodes))
      ensures protocol.Some? ==> Suffix(o, old(env.outcomes)) && read == StoreAnswer(o, ProtocolNode in old(env.nodes))
      ensures protocol.Some? && protocol.value != 0 ==> status == InvalidParameter
      ensures protocol.None? ==>
                status != Success
                && Explained(status, old(env.outcomes), KeyMissing(env.nodes), env.clock >= old(env.clock) + WaitTimeout)
    {
      ghost var q;
      status, q, protocol, read, o := Prepare();
      if status != Success {
        d := [StoreAcquire] + q + [StoreRelease];
        ClosedThenReleased(q);
        return;
      }
      status, d := Start(old(env.trace), q);
    }

    /** FrontendEnable up to VkbdInitialize: the store interface acquired, the
        frontend closed and the protocol chosen; on failure the store
        interface is released again. */
    method Prepare() returns (status: Status, ghost q: seq<Action>, ghost protocol: Option<nat>, ghost read: Status,
                              ghost o: seq<Status>)
      requires Valid() && !connected
      modifies this, env
      ensures Valid() && !connected && context == null
      ensures status == Success || !NtSuccess(status)
      ensures Quiet(q)
      ensures status == Success ==> env.trace == old(env.trace) + [StoreAcquire] + q && protocol == Some(0)
      ensures status != Success ==> env.trace == old(env.trace) + [StoreAcquire] + q + [StoreRelease]
      ensures protocol.Some? ==> protocol.value == ProtocolOf(read, old(env.nodes))
      ensures protocol.Some? && NtSuccess(read) ==> ProtocolNode in old(env.nodes)
      ensures protocol.Some? ==>
                Suffix(o, old(env.outcomes)) && env.outcomes == Rest(o)
                && read == StoreAnswer(o, ProtocolNode in old(env.nodes))
      ensures protocol.Some? && protocol.value != 0 ==> status == InvalidParameter
      ensures protocol.None? ==>
                status != Success
                && Explained(status, old(env.outcomes), KeyMissing(env.nodes), env.clock >= old(env.clock) + WaitTimeout)
    {
      env.Emit(StoreAcquire);
      ghost var seen, w1, w2;
      status, q, seen, w1, w2 := Close();
      protocol, read, o := None, Success, env.outcomes;
      if !NtSuccess(status) {
        env.Emit(StoreRelease);
        return;
      }
      SettledKeeps(old(env.nodes), env.nodes, ProtocolNode);
      var found, value := env.StoreRead(ProtocolNode);
      read := found;
      var p := if NtSuccess(found) then Number(value.value) else 0;
      protocol := Some(p);
      if p != 0 {
        env.Emit(StoreRelease);
        return InvalidParameter, q, protocol, read, o;
      }
      status := Success;
    }

    /** FrontendEnable from VkbdInitialize on, once the frontend is closed:
        `before` is the trace before the store interface was acquired and `q`
        what closing the frontend wrote. */
    method Start(ghost before: seq<Action>, ghost q: seq<Action>) returns (status: Status, ghost d: seq<Action>)
      requires Valid() && !connected && Quiet(q) && env.trace == before + [StoreAcquire] + q
      modifies this, env
      ensures Valid() && fresh(Model())
      ensures status == Success <==> connected
      ensures status == Success || !NtSuccess(status)
      ensures env.trace == before + d
      ensures status == Success ==>
                Held({}, d) == EnabledResources(context.grantRef, context.evtchn.value)
                && backendPath.Some? && BackendState(backendPath.value) in env.nodes
                && Number(env.nodes[BackendState(backendPath.value)]) == Connected
      ensures status != Success ==> Held({}, d) == {}
    {
      operations := true;
      var v;
      status, v := Vkbd.Vkbd.Create(cache, env);
      if status != Success {
        operations := false;
        env.Emit(StoreRelease);
        d := [StoreAcquire] + q + [StoreRelease];
        ReleasedTrace(before, q, env.trace);
        return;
      }
      context := v;
      ghost var p := [StoreAcquire] + q + [ContextAlloc];
      PreparedTrace(before, q, env.trace);
      status, d := Run(before, p);
    }

    /** FrontendEnable once the context exists: __FrontendConnect, and the
        fail4 path when it fails. `p` is what the enable added so far. */
    method Run(ghost before: seq<Action>, ghost p: seq<Action>) returns (status: Status, ghost d: seq<Action>)
      requires context != null && context.Valid() && context.env == env && context.cache == cache
      requires context.shared == None && context.grantRef == 0 && context.evtchn == None
      requires !connected && operations && backendDomain < DomainModulus && cache.Valid() && env.pending == None
      requires env.trace == before + p && Held({}, p) == {StoreReference, ContextMemory}
      modifies this, env, context, context.keys
      ensures Valid() && (context == null || context == old(context))
      ensures status == Success <==> connected
      ensures status == Success || !NtSuccess(status)
      ensures env.trace == before + d
      ensures status == Success ==>
                Held({}, d) == EnabledResources(context.grantRef, context.evtchn.value)
                && backendPath.Some? && BackendState(backendPath.value) in env.nodes
                && Number(env.nodes[BackendState(backendPath.value)]) == Connected
      ensures status != Success ==> Held({}, d) == {}
    {
      ghost var c;
      status, c := Launch();
      assert env.trace == before + (p + c);
      if status != Success {
        Abandon();
        d := p + c + [ContextFree, StoreRelease];
        ConnectFailedHeld(p, c);
        return;
      }
      connected := true;
      d := p + c;
      LaunchedHeld(p, c, context.grantRef, context.evtchn.value);
    }

    /** The fail4 path of FrontendEnable: the context destroyed, the
        Operations table cleared and the store interface released. */
    method Abandon()
      requires context != null && context.Valid() && context.env == env && context.cache == cache
      requires !connected && backendDomain < DomainModulus && cache.Valid() && env.pending == None
      modifies this, env, context, context.keys
      ensures Valid() && !connected && context == null
      ensures env.trace == old(env.trace) + [ContextFree, StoreRelease]
    {
      context.Destroy();
      context := null;
      operations := false;
      env.Emit(StoreRelease);
    }

    /** __FrontendConnect as FrontendEnable sees it: `c` is what it added to
        the trace, and it leaves a holder of the store interface and the
        context with those two and, on success, what Vkbd_Connect took. */
    method Launch() returns (status: Status, ghost c: seq<Action>)
      requires context != null && context.Valid() && context.env == env && context.cache == cache
      requires context.shared == None && context.grantRef == 0 && context.evtchn == None
      requires env.pending == None
      modifies this, env, context
      ensures context == old(context) && connected == old(connected) && operations == old(operations)
      ensures context.Valid() && env.pending == None
      ensures backendDomain == old(backendDomain) || backendDomain < DomainModulus
      ensures status == Success || !NtSuccess(status)
      ensures env.trace == old(env.trace) + c
      ensures status == Success ==>
                context.shared.Some? && context.evtchn.Some?
                && Held({StoreReference, ContextMemory}, c) == EnabledResources(context.grantRef, context.evtchn.value)
                && backendPath.Some? && BackendState(backendPath.value) in env.nodes
                && Number(env.nodes[BackendState(backendPath.value)]) == Connected
      ensures status != Success ==>
                context.shared == None && context.grantRef == 0 && context.evtchn == None
                && Held({StoreReference, ContextMemory}, c) == {StoreReference, ContextMemory}
    {
      ghost var ref, port := env.nextRef, env.nextPort;
      ghost var q;
      status, q := Connect();
      ghost var t := Vkbd.ConnectActions(ref, port, backendDomain);
      if status == Success {
        c := t + q;
        Regroup(old(env.trace), t, q);
        ConnectedHeld(ref, port, backendDomain);
        HeldAppend({StoreReference, ContextMemory}, t, q);
        QuietHeld(EnabledResources(ref, port), q);
      } else if exists k :: 0 <= k < 4 && env.trace == old(env.trace) + Vkbd.RolledBack(t, k) {
        ghost var k :| 0 <= k < 4 && env.trace == old(env.trace) + Vkbd.RolledBack(t, k);
        c := Vkbd.RolledBack(t, k);
        ConnectFailureHeld(ref, port, backendDomain, k, q);
      } else {
        c := t + q + Vkbd.Teardown(ref, port);
        Regroup3(old(env.trace), t, q, Vkbd.Teardown(ref, port));
        ConnectFailureHeld(ref, port, backendDomain, 0, q);
      }
    }

    /** FrontendDisable: Vkbd_Disconnect, the context destroyed, the frontend
        closed (whatever that answers) and the store interface released;
        nothing an enabled frontend held is left. */
    method Disable() returns (ghost d: seq<Action>, ghost q: seq<Action>)
      requires Valid() && connected
      modifies this, env, context, context.keys
      ensures Valid() && !connected && !operations && context == null
      ensures env.trace == old(env.trace) + d
      ensures Quiet(q) && d == Vkbd.Teardown(old(context.grantRef), old(context.evtchn.value)) + [ContextFree] + q + [StoreRelease]
      ensures Held(EnabledResources(old(context.grantRef), old(context.evtchn.value)), d) == {}
    {
      ghost var ref, port := context.grantRef, context.evtchn.value;
      context.Disconnect();
      context.Destroy();
      context := null;
      operations := false;
      var closed;
      ghost var seen, w1, w2;
      closed, q, seen, w1, w2 := Close();
      env.Emit(StoreRelease);
      connected := false;
      d := Vkbd.Teardown(ref, port) + [ContextFree] + q + [StoreRelease];
      DisabledTrace(old(env.trace), ref, port, q, env.trace);
    }

    /** FrontendGetDeviceAttributes: STATUS_DEVICE_NOT_READY unless connected,
        else the device model's reply. */
    function GetDeviceAttributes(length: nat): (r: Vkbd.Reply)
      reads this
      ensures r.status == DeviceNotReady <==> !connected
      ensures connected ==> r == Vkbd.GetDeviceAttributes(length)
    {
      Guarded(connected, Vkbd.GetDeviceAttributes(length))
    }

    /** FrontendGetDeviceDescriptor. */
    function GetDeviceDescriptor(length: nat): (r: Vkbd.Reply)
      reads this
      ensures r.status == DeviceNotReady <==> !connected
      ensures connected ==> r == Vkbd.GetDeviceDescriptor(length)
    {
      Guarded(connected, Vkbd.GetDeviceDescriptor(length))
    }

    /** FrontendGetReportDescriptor. */
    function GetReportDescriptor(length: nat): (r: Vkbd.Reply)
      reads this
      ensures r.status == DeviceNotReady <==> !connected
      ensures connected ==> r == Vkbd.GetReportDescriptor(length)
    {
      Guarded(connected, Vkbd.GetReportDescriptor(length))
    }

    /** FrontendGetFeature: feature reports are not supported by vkbd. */
    function GetFeature(length: nat): (r: Vkbd.Reply)
      reads this
      ensures r.status == (if connected then NotSupported else DeviceNotReady)
      ensures r.information == 0 && r.payload == NoData
    {
      Guarded(connected, Vkbd.Unsupported(length))
    }

    /** FrontendSetFeature. */
    function SetFeature(length: nat): (status: Status)
      reads this
      ensures status == (if connected then NotSupported else DeviceNotReady)
    {
      Guarded(connected, Vkbd.Unsupported(length)).status
    }

    /** FrontendWriteReport: output reports are not supported by vkbd. */
    function WriteReport(length: nat): (status: Status)
      reads this
      ensures status == (if connected then NotSupported else DeviceNotReady)
    {
      Guarded(connected, Vkbd.Unsupported(length)).status
    }

    /** FrontendReadReport: Vkbd_ReadReport when connected; otherwise
        STATUS_DEVICE_NOT_READY and the cache is left alone. */
    method ReadReport() returns (status: Status)
      requires Valid()
      modifies context, cache.irps, cache.io
      ensures Valid()
      ensures !connected ==> status == DeviceNotReady && cache.State() == old(cache.State())
      ensures connected ==> (status, context.InputState()) == Vkbd.ReadReported(old(context.InputState()))
      ensures connected ==> context.SameConnection()
      ensures cache.io.forwarded == old(cache.io.forwarded) && cache.io.lower == old(cache.io.lower)
    {
      if !connected {
        return DeviceNotReady;
      }
      Vkbd.ReadReportSpec(context.InputState());
      status := context.ReadReport();
    }

    /** FrontendCompleteRead: straight through to FdoCompleteRead. */
    method CompleteRead(payload: Payload, length: nat) returns (status: Status)
      requires Valid()
      modifies cache.irps, cache.io
      ensures Valid()
      ensures (status, cache.State()) == ReadCompleted(old(cache.State()), payload, length)
    {
      ReadCompletedSpec(cache.State(), payload, length);
      status := cache.CompleteRead(payload, length);
    }
  }

  lemma PairQuiet(q: seq<Action>, pair: seq<Action>)
    requires Quiet(q)
    requires pair == [] || pair == [TransactionStart, TransactionEnd(false)] || pair == [TransactionStart, TransactionEnd(true)]
    ensures Quiet(q + pair)
  {
    if pair != [] {
      assert pair[2..] == [];
    }
    QuietAppend(q, pair);
  }
}
