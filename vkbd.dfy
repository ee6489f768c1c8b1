/** The VKBD device model: the keyboard and mouse reports built from the
    events of the shared in-ring (VkbdPoll, VkbdEvent, __UpdateKeyState,
    __UpdateMouState, __Complete), the read path of the HID class driver
    (__Check, Vkbd_ReadReport), the grant, event channel and shared page of
    a connection (Vkbd_Connect, Vkbd_WriteStore, Vkbd_Disconnect) and the
    constant descriptors (Vkbd_Get*). */
module Vkbd {
  import opened NtStatus
  import opened Hid
  import opened Io
  import opened Usage
  import KeyArray
  import opened ReadCache
  import opened Xenbus

  /** XENKBD_IN_RING_LEN of io/kbdif.h: the in-ring is the 2048-byte area at
      offset 1024 of the shared page, holding 40-byte events. */
  const RingLength: nat := 51
  /** in_cons and in_prod are 32-bit counters that wrap. */
  const IndexModulus: nat := 0x1_0000_0000

  /** union xenkbd_in_event, by its type byte: XENKBD_TYPE_MOTION (1),
      XENKBD_TYPE_KEY (2), XENKBD_TYPE_POS (3) and any other type. */
  datatype InEvent =
    | Motion(relX: int, relY: int, relZ: int)
    | Key(pressed: nat, keycode: nat)
    | Pos(absX: int, absY: int, relZ: int)
    | Other(kind: nat)

  /** struct xenkbd_page: the consumer and producer counters and the ring. */
  datatype Page = Page(inCons: nat, inProd: nat, ring: seq<InEvent>)

  predicate PageOk(p: Page) {
    p.inCons < IndexModulus && p.inProd < IndexModulus && |p.ring| == RingLength
  }

  /** A page as __VkbdAllocate returns it: zero-filled. */
  const ZeroPage: Page := Page(0, 0, seq(RingLength, _ => Other(0)))

  /** The events the backend has produced and the frontend not yet consumed,
      in production order: the entries XENKBD_IN_RING_REF(in_cons + k). */
  function Unconsumed(p: Page): (events: seq<InEvent>)
    requires PageOk(p)
    ensures |events| < IndexModulus
  {
    seq((p.inProd - p.inCons) % IndexModulus,
        k requires 0 <= k => p.ring[((p.inCons + k) % IndexModulus) % RingLength])
  }

  /** The KeyState and MouState records, the two pending flags and the read
      cache of the FDO, which completing a report changes. */
  datatype Input = Input(keyboard: KeyboardReport, mouse: MouseReport,
                         keyPending: bool, mouPending: bool, cache: CacheState)

  /** What the event path keeps: six dense duplicate-free key slots, the mouse
      inside the ranges of the report descriptor and a well-formed cache. */
  predicate Good(s: Input) {
    |s.keyboard.keys| == KeySlots && KeyArray.WellFormed(s.keyboard.keys)
    && 0 <= s.mouse.x <= AxisMax && 0 <= s.mouse.y <= AxisMax
    && WheelMin <= s.mouse.z <= WheelMax
    && WellFormed(s.cache)
  }

  /** __Complete: hand the report to the oldest waiting read IRP; when there is
      none, remember that the report is pending. */
  function Delivered(c: CacheState, pending: bool, payload: Payload, length: nat): (CacheState, bool)
  {
    var (status, c') := ReadCompleted(c, payload, length);
    (c', pending || !NtSuccess(status))
  }

  /** With a read IRP waiting the report completes it and the flag is left as
      it was; without one nothing is completed and the flag is set. The flag is
      never cleared, and the cache keeps its invariant. */
  lemma DeliveredSpec(c: CacheState, pending: bool, payload: Payload, length: nat)
    requires WellFormed(c)
    ensures Queue(c.slots) == [] ==> Delivered(c, pending, payload, length) == (c, true)
    ensures Queue(c.slots) != [] ==>
              Delivered(c, pending, payload, length).1 == pending
              && Delivered(c, pending, payload, length).0.log
                 == c.log + [Completion(Queue(c.slots)[0], Success, length, payload)]
              && Queue(Delivered(c, pending, payload, length).0.slots) == Queue(c.slots)[1..]
    ensures WellFormed(Delivered(c, pending, payload, length).0)
  {
    ReadCompletedSpec(c, payload, length);
  }

  /** __UpdateKeyState. */
  function KeyStep(s: Input, pressed: bool, code: nat): (r: Input)
    requires |s.keyboard.keys| > 0
    ensures |r.keyboard.keys| == |s.keyboard.keys|
  {
    match UsageType(code)
    case MouseButton(bit) => ButtonStep(s, bit, pressed)
    case KeyboardModifier(bit) => ModifierStep(s, bit, pressed)
    case KeyboardKey(usage) => ArrayStep(s, usage, pressed)
    case Unmapped => s
  }

  /** The MOUSE_BUTTON case of __UpdateKeyState. */
  function ButtonStep(s: Input, bit: bv8, pressed: bool): (r: Input)
    ensures r.keyboard == s.keyboard
  {
    var (buttons, changed) := UpdateBit(s.mouse.buttons, bit, pressed);
    if !changed then s
    else
      var mouse := s.mouse.(buttons := buttons);
      var (c, p) := Delivered(s.cache, s.mouPending, MouseData(mouse), MouseReportLength);
      s.(mouse := mouse, mouPending := p, cache := c)
  }

  /** The KEYBOARD_MODIFIER case of __UpdateKeyState. */
  function ModifierStep(s: Input, bit: bv8, pressed: bool): (r: Input)
    ensures r.keyboard.keys == s.keyboard.keys
  {
    var (modifiers, changed) := UpdateBit(s.keyboard.modifiers, bit, pressed);
    if !changed then s
    else
      var keyboard := s.keyboard.(modifiers := modifiers);
      var (c, p) := Delivered(s.cache, s.keyPending, KeyboardData(keyboard), KeyboardReportLength);
      s.(keyboard := keyboard, keyPending := p, cache := c)
  }

  /** The KEYBOARD_KEY case of __UpdateKeyState. */
  function ArrayStep(s: Input, usage: bv8, pressed: bool): (r: Input)
    requires |s.keyboard.keys| > 0
    ensures |r.keyboard.keys| == |s.keyboard.keys|
  {
    var (keys, changed) := KeyArray.Update(s.keyboard.keys, usage, pressed);
    if !changed then s
    else
      var keyboard := s.keyboard.(keys := keys);
      var (c, p) := Delivered(s.cache, s.keyPending, KeyboardData(keyboard), KeyboardReportLength);
      s.(keyboard := keyboard, keyPending := p, cache := c)
  }

  /** __UpdateMouState: the clamped absolute position and wheel. */
  function PosStep(s: Input, x: int, y: int, z: int): Input
  {
    var x' := Limit(x, 0, AxisMax);
    var y' := Limit(y, 0, AxisMax);
    var z' := Limit(z, WheelMin, WheelMax);
    if x' == s.mouse.x && y' == s.mouse.y && z' == s.mouse.z then s
    else
      var mouse := s.mouse.(x := x', y := y', z := z');
      var (c, p) := Delivered(s.cache, s.mouPending, MouseData(mouse), MouseReportLength);
      s.(mouse := mouse, mouPending := p, cache := c)
  }

  /** VkbdEvent: key and absolute-position events; the others are ignored. */
  function EventStep(s: Input, e: InEvent): (r: Input)
    requires |s.keyboard.keys| > 0
    ensures |r.keyboard.keys| == |s.keyboard.keys|
  {
    match e
    case Key(pressed, code) => KeyStep(s, pressed != 0, code)
    case Pos(x, y, z) => PosStep(s, x, y, z)
    case _ => s
  }

  /** The events handed to VkbdEvent one by one, in order. */
  function Drained(s: Input, events: seq<InEvent>): (r: Input)
    requires |s.keyboard.keys| > 0
    ensures |r.keyboard.keys| == |s.keyboard.keys|
    decreases |events|
  {
    if events == [] then s
    else EventStep(Drained(s, events[..|events| - 1]), events[|events| - 1])
  }

  /** A code of no type changes nothing and completes nothing. */
  lemma UnmappedIgnored(s: Input, pressed: bool, code: nat)
    requires |s.keyboard.keys| > 0 && UsageType(code) == Unmapped
    ensures KeyStep(s, pressed, code) == s
  {
  }

  /** A mouse button code changes the one button bit and nothing of the
      keyboard report. The bit ends as `pressed` says and the other buttons
      keep theirs; when the bit already was as `pressed` says, the state is
      unchanged and no report is completed. */
  lemma ButtonSpec(s: Input, pressed: bool, code: nat)
    requires |s.keyboard.keys| > 0 && 0x110 <= code <= 0x114
    ensures var r := KeyStep(s, pressed, code);
      var bit := Bit(code - 0x110);
      r.keyboard == s.keyboard && r.keyPending == s.keyPending
      && r.mouse == s.mouse.(buttons := r.mouse.buttons)
      && r.mouse.buttons & bit == (if pressed then bit else 0)
      && r.mouse.buttons & !bit == s.mouse.buttons & !bit
      && (r.mouse.buttons == s.mouse.buttons ==> r == s)
  {
    var bit := Bit(code - 0x110);
    BitIsSingle(code - 0x110);
    assert KeyStep(s, pressed, code) == ButtonStep(s, bit, pressed);
    ButtonStepFrame(s, bit, pressed);
    UpdateBitOthers(s.mouse.buttons, bit, pressed);
    UpdateBitChanges(s.mouse.buttons, bit, pressed);
  }

  /** ButtonStep changes the buttons as __UpdateBit says and nothing else,
      and nothing at all when __UpdateBit reports no change. */
  lemma ButtonStepFrame(s: Input, bit: bv8, pressed: bool)
    ensures var r := ButtonStep(s, bit, pressed);
      r.keyboard == s.keyboard && r.keyPending == s.keyPending
      && r.mouse == s.mouse.(buttons := UpdateBit(s.mouse.buttons, bit, pressed).0)
      && (!UpdateBit(s.mouse.buttons, bit, pressed).1 ==> r == s)
  {
  }

  /** A modifier code changes the one modifier bit and nothing else of the
      reports; when the bit already was as `pressed` says, the state is
      unchanged and no report is completed. */
  lemma ModifierSpec(s: Input, pressed: bool, code: nat)
    requires |s.keyboard.keys| > 0 && 0xE0 <= code <= 0xE7
    ensures var r := KeyStep(s, pressed, code);
      var bit := Bit(code - 0xE0);
      r.mouse == s.mouse && r.mouPending == s.mouPending
      && r.keyboard == s.keyboard.(modifiers := r.keyboard.modifiers)
      && r.keyboard.modifiers & bit == (if pressed then bit else 0)
      && r.keyboard.modifiers & !bit == s.keyboard.modifiers & !bit
      && (r.keyboard.modifiers == s.keyboard.modifiers ==> r == s)
  {
    var bit := Bit(code - 0xE0);
    BitIsSingle(code - 0xE0);
    assert KeyStep(s, pressed, code) == ModifierStep(s, bit, pressed);
    ModifierStepFrame(s, bit, pressed);
    UpdateBitOthers(s.keyboard.modifiers, bit, pressed);
    UpdateBitChanges(s.keyboard.modifiers, bit, pressed);
  }

  /** ModifierStep changes the modifiers as __UpdateBit says and nothing
      else, and nothing at all when __UpdateBit reports no change. */
  lemma ModifierStepFrame(s: Input, bit: bv8, pressed: bool)
    ensures var r := ModifierStep(s, bit, pressed);
      r.mouse == s.mouse && r.mouPending == s.mouPending
      && r.keyboard == s.keyboard.(modifiers := UpdateBit(s.keyboard.modifiers, bit, pressed).0)
      && (!UpdateBit(s.keyboard.modifiers, bit, pressed).1 ==> r == s)
  {
  }

  /** A keyboard key code updates the key slots as __UpdateArray does and
      nothing else of the reports; a press of a held key or a release of a key
      not held completes nothing. */
  lemma KeySpec(s: Input, pressed: bool, code: nat)
    requires Good(s) && UsageType(code).KeyboardKey?
    ensures var r := KeyStep(s, pressed, code);
      var usage := UsageType(code).usage;
      r.mouse == s.mouse && r.mouPending == s.mouPending
      && r.keyboard == s.keyboard.(keys := KeyArray.Update(s.keyboard.keys, usage, pressed).0)
      && (pressed ==> usage in r.keyboard.keys)
      && (!pressed ==> usage !in r.keyboard.keys)
      && (r.keyboard == s.keyboard ==> r == s)
  {
    var usage := UsageType(code).usage;
    if pressed {
      KeyArray.PressSpec(s.keyboard.keys, usage);
    } else {
      KeyArray.ReleaseSpec(s.keyboard.keys, usage);
    }
  }

  /** A position event never touches the buttons or the keyboard; the stored
      position is the clamped one, and an event whose clamped position equals
      the stored one changes nothing and completes nothing. */
  lemma PosSpec(s: Input, x: int, y: int, z: int)
    ensures var r := PosStep(s, x, y, z);
      r.keyboard == s.keyboard && r.keyPending == s.keyPending
      && r.mouse.buttons == s.mouse.buttons && r.mouse.reportId == s.mouse.reportId
      && r.mouse.x == Limit(x, 0, AxisMax) && r.mouse.y == Limit(y, 0, AxisMax)
      && r.mouse.z == Limit(z, WheelMin, WheelMax)
      && (r.mouse == s.mouse ==> r == s)
  {
  }

  /** Every event keeps the invariant and never clears a pending flag. */
  lemma EventKeeps(s: Input, e: InEvent)
    requires Good(s)
    ensures Good(EventStep(s, e))
    ensures s.keyPending ==> EventStep(s, e).keyPending
    ensures s.mouPending ==> EventStep(s, e).mouPending
  {
    match e
    case Key(pressed, code) =>
      match UsageType(code) {
        case MouseButton(bit) => ButtonKeeps(s, bit, pressed != 0);
        case KeyboardModifier(bit) => ModifierKeeps(s, bit, pressed != 0);
        case KeyboardKey(usage) => KeysKeep(s, usage, pressed != 0);
        case Unmapped =>
      }
    case Pos(x, y, z) => PosKeeps(s, x, y, z);
    case _ =>
  }

  lemma ButtonKeeps(s: Input, bit: bv8, pressed: bool)
    requires Good(s)
    ensures Good(ButtonStep(s, bit, pressed))
    ensures s.keyPending ==> ButtonStep(s, bit, pressed).keyPending
    ensures s.mouPending ==> ButtonStep(s, bit, pressed).mouPending
  {
    DeliveredKeeps(s.cache);
  }

  lemma ModifierKeeps(s: Input, bit: bv8, pressed: bool)
    requires Good(s)
    ensures Good(ModifierStep(s, bit, pressed))
    ensures s.keyPending ==> ModifierStep(s, bit, pressed).keyPending
    ensures s.mouPending ==> ModifierStep(s, bit, pressed).mouPending
  {
    DeliveredKeeps(s.cache);
  }

  lemma KeysKeep(s: Input, usage: bv8, pressed: bool)
    requires Good(s) && usage != 0
    ensures Good(ArrayStep(s, usage, pressed))
    ensures s.keyPending ==> ArrayStep(s, usage, pressed).keyPending
    ensures s.mouPending ==> ArrayStep(s, usage, pressed).mouPending
  {
    if pressed {
      KeyArray.PressSpec(s.keyboard.keys, usage);
    } else {
      KeyArray.ReleaseSpec(s.keyboard.keys, usage);
    }
    DeliveredKeeps(s.cache);
  }

  lemma PosKeeps(s: Input, x: int, y: int, z: int)
    requires Good(s)
    ensures Good(PosStep(s, x, y, z))
    ensures s.keyPending ==> PosStep(s, x, y, z).keyPending
    ensures s.mouPending ==> PosStep(s, x, y, z).mouPending
  {
    DeliveredKeeps(s.cache);
  }

  lemma DeliveredKeeps(c: CacheState)
    requires WellFormed(c)
    ensures forall pending, payload, length :: WellFormed(Delivered(c, pending, payload, length).0)
  {
    forall pending, payload, length
      ensures WellFormed(Delivered(c, pending, payload, length).0)
    {
      DeliveredSpec(c, pending, payload, length);
    }
  }

  /** Draining any sequence of events keeps the invariant and the pending flags. */
  lemma {:induction false} DrainedKeeps(s: Input, events: seq<InEvent>)
    requires Good(s)
    ensures Good(Drained(s, events))
    ensures s.keyPending ==> Drained(s, events).keyPending
    ensures s.mouPending ==> Drained(s, events).mouPending
    decreases |events|
  {
    if events != [] {
      DrainedKeeps(s, events[..|events| - 1]);
      EventKeeps(Drained(s, events[..|events| - 1]), events[|events| - 1]);
    }
  }

  /** Draining in two rounds is draining the concatenation. */
  lemma {:induction false} DrainedAppend(s: Input, a: seq<InEvent>, b: seq<InEvent>)
    requires |s.keyboard.keys| > 0
    ensures Drained(s, a + b) == Drained(Drained(s, a), b)
    decreases |b|
  {
    if b == [] {
      assert a + b == a;
    } else {
      assert (a + b)[..|a + b| - 1] == a + b[..|b| - 1];
      DrainedAppend(s, a, b[..|b| - 1]);
    }
  }

  /** __Check on the keyboard (KeyPending, KeyState) or the mouse (MouPending,
      MouState) report: STATUS_PENDING when the report is not pending, else
      the status of delivering it, the flag being cleared only on success. */
  function Checked(s: Input, keyboard: bool): (Status, Input)
  {
    if keyboard then
      if !s.keyPending then (Pending, s)
      else
        var (status, c) := ReadCompleted(s.cache, KeyboardData(s.keyboard), KeyboardReportLength);
        (status, s.(cache := c, keyPending := status != Success))
    else
      if !s.mouPending then (Pending, s)
      else
        var (status, c) := ReadCompleted(s.cache, MouseData(s.mouse), MouseReportLength);
        (status, s.(cache := c, mouPending := status != Success))
  }

  /** Vkbd_ReadReport: the keyboard check, then the mouse check. */
  function ReadReported(s: Input): (Status, Input)
  {
    var (status, r) := Checked(s, true);
    if status != Pending then (status, r)
    else
      var (status', r') := Checked(r, false);
      if status' != Pending then (status', r') else (Pending, r')
  }

  /** STATUS_PENDING exactly when no report is pending. A pending report is
      delivered, the keyboard's before the mouse's, as the current record (not
      a snapshot of the moment it became pending) to the oldest cached IRP; with
      no IRP cached the read fails with STATUS_DEVICE_NOT_READY and nothing
      changes. */
  lemma ReadReportSpec(s: Input)
    requires WellFormed(s.cache)
    ensures var (status, r) := ReadReported(s);
      (status == Pending <==> !s.keyPending && !s.mouPending)
      && (status == Pending ==> r == s)
      && (status != Pending && Queue(s.cache.slots) == [] ==> status == DeviceNotReady && r == s)
      && (status != Pending && Queue(s.cache.slots) != [] ==>
            status == Success && Queue(r.cache.slots) == Queue(s.cache.slots)[1..]
            && r.cache.log == s.cache.log + [Completion(Queue(s.cache.slots)[0], Success,
                 if s.keyPending then KeyboardReportLength else MouseReportLength,
                 if s.keyPending then KeyboardData(s.keyboard) else MouseData(s.mouse))]
            && (if s.keyPending then !r.keyPending && r.mouPending == s.mouPending
                else !r.mouPending && r.keyPending == s.keyPending))
      && r.keyboard == s.keyboard && r.mouse == s.mouse && WellFormed(r.cache)
  {
    ReadCompletedSpec(s.cache, KeyboardData(s.keyboard), KeyboardReportLength);
    ReadCompletedSpec(s.cache, MouseData(s.mouse), MouseReportLength);
    if !s.keyPending {
      assert Checked(s, true) == (Pending, s);
    }
  }

  /** The reply of a descriptor request: status, IoStatus.Information and what
      was copied to the buffer. */
  datatype Reply = Reply(status: Status, information: nat, payload: Payload)

  /** Copy a constant structure of `size` bytes into a buffer of `length` bytes. */
  function CopyOut(length: nat, size: nat, payload: Payload): Reply {
    if length < size then Reply(InvalidBufferSize, 0, NoData)
    else Reply(Success, size, payload)
  }

  /** Vkbd_GetDeviceAttributes. */
  function GetDeviceAttributes(length: nat): Reply {
    CopyOut(length, DeviceAttributesSize, AttributesData(VkbdAttributes))
  }

  /** Vkbd_GetDeviceDescriptor. */
  function GetDeviceDescriptor(length: nat): Reply {
    CopyOut(length, HidDescriptorSize, DescriptorData(VkbdDescriptor))
  }

  /** Vkbd_GetReportDescriptor. */
  function GetReportDescriptor(length: nat): Reply {
    CopyOut(length, ReportDescriptorSize, ReportDescriptorData)
  }

  /** Vkbd_GetFeature, Vkbd_SetFeature, Vkbd_WriteReport. */
  function Unsupported(length: nat): (r: Reply)
    ensures r.status == NotSupported && r.information == 0 && r.payload == NoData
  {
    Reply(NotSupported, 0, NoData)
  }

  /** A buffer shorter than the structure gets STATUS_INVALID_BUFFER_SIZE and
      nothing; a long enough one gets the structure and Information = its size.
      The HID descriptor's size fields agree with the attributes and the report
      descriptor the other two requests return. */
  lemma DescriptorRepliesSpec(length: nat)
    ensures var a := GetDeviceAttributes(length);
      (a.status == Success <==> length >= DeviceAttributesSize)
      && (a.status == Success ==> a.information == DeviceAttributesSize
                                  && a.payload.AttributesData? && a.payload.attributes.size == a.information)
      && (a.status != Success ==> a == Reply(InvalidBufferSize, 0, NoData))
    ensures var d := GetDeviceDescriptor(length);
      (d.status == Success <==> length >= HidDescriptorSize)
      && (d.status == Success ==> d.information == HidDescriptorSize
                                  && d.payload.DescriptorData? && d.payload.descriptor.length == d.information
                                  && d.payload.descriptor.reportLength
                                     == GetReportDescriptor(ReportDescriptorSize).information)
      && (d.status != Success ==> d == Reply(InvalidBufferSize, 0, NoData))
    ensures var g := GetReportDescriptor(length);
      (g.status == Success <==> length >= ReportDescriptorSize)
      && (g.status == Success ==> g == Reply(Success, ReportDescriptorSize, ReportDescriptorData))
      && (g.status != Success ==> g == Reply(InvalidBufferSize, 0, NoData))
  {
  }

  /** The keys Vkbd_WriteStore writes under the frontend's store path. */
  const EvtchnNode: Node := Node(FrontendPath, "evtchn")
  const GnttabNode: Node := Node(FrontendPath, "gnttab")

  /** The calls Vkbd_Connect makes, in order, when all succeed. */
  function ConnectActions(ref: nat, port: nat, domain: nat): (t: seq<Action>)
    ensures FreshAcquisitions({}, t) && |t| == 4
  {
    [SharedAlloc, Action.GrantGet(ref), Action.GrantPermit(ref, domain), Action.EvtchnOpen(port, domain)]
  }

  /** A step of Vkbd_Connect that failed after the first k steps succeeded:
      those k, then their undoing in reverse order. */
  function RolledBack(t: seq<Action>, k: nat): seq<Action>
    requires k <= |t|
  {
    t[..k] + Unwind(t[..k])
  }

  /** The calls Vkbd_Disconnect makes, in order. */
  function Teardown(ref: nat, port: nat): seq<Action> {
    [EvtchnClose(port), GrantRevoke(ref), GrantPut(ref), SharedFree]
  }

  /** The traces of Vkbd_Connect's failures, written out. */
  lemma ConnectRollbacks(ref: nat, port: nat, domain: nat)
    ensures var t := ConnectActions(ref, port, domain);
      && RolledBack(t, 0) == []
      && RolledBack(t, 1) == [SharedAlloc, SharedFree]
      && RolledBack(t, 2) == [SharedAlloc, Action.GrantGet(ref), GrantPut(ref), SharedFree]
      && RolledBack(t, 3) == [SharedAlloc, Action.GrantGet(ref), Action.GrantPermit(ref, domain),
                              GrantRevoke(ref), GrantPut(ref), SharedFree]
      && t[1..] == [Action.GrantGet(ref), Action.GrantPermit(ref, domain), Action.EvtchnOpen(port, domain)]
  {
  }

  /** Every failure of Vkbd_Connect gives back everything it took; a success
      holds the page, the grant, the backend's access and the port, and
      Vkbd_Disconnect gives them all back. */
  lemma ConnectReleases(held: set<Resource>, ref: nat, port: nat, domain: nat, k: nat)
    requires k <= 4 && FreshAcquisitions(held, ConnectActions(ref, port, domain))
    ensures Held(held, RolledBack(ConnectActions(ref, port, domain), k)) == held
    ensures Held(held, ConnectActions(ref, port, domain)) == held + {SharedPage, Grant(ref), Access(ref), Port(port)}
    ensures Teardown(ref, port) == Unwind(ConnectActions(ref, port, domain))
    ensures Held(held, ConnectActions(ref, port, domain) + Teardown(ref, port)) == held
  {
    var t := ConnectActions(ref, port, domain);
    UnwindReleases(held, t);
    assert FreshAcquisitions(held, t[..k]);
    UnwindReleases(held, t[..k]);
    AcquiredHeld(held, t);
    var all := set i | 0 <= i < |t| :: Acquires(t[i]).value;
    assert Acquires(t[0]).value == SharedPage && Acquires(t[1]).value == Grant(ref);
    assert Acquires(t[2]).value == Access(ref) && Acquires(t[3]).value == Port(port);
    assert all == {SharedPage, Grant(ref), Access(ref), Port(port)};
  }

  /** The XENHID_VKBD context. */
  class Vkbd {
    /** KeyState.Keys. */
    const keys: array<bv8>
    /** KeyState.ReportId and KeyState.Modifiers. */
    var keyReportId: bv8
    var modifiers: bv8
    /** MouState. */
    var mouse: MouseReport
    var keyPending: bool
    var mouPending: bool
    /** Shared (NULL when disconnected), GrantRef, Evtchn (its port). */
    var shared: Option<Page>
    var grantRef: nat
    var evtchn: Option<nat>
    /** The read cache of the FDO that FrontendGetFdo leads to. */
    const cache: IrpCache
    const env: Env

    function Keyboard(): KeyboardReport
      reads this, keys
    {
      KeyboardReport(keyReportId, modifiers, keys[..])
    }

    function InputState(): Input
      reads this, keys, cache, cache.irps, cache.io
    {
      Input(Keyboard(), mouse, keyPending, mouPending, cache.State())
    }

    ghost predicate Valid()
      reads this, keys, cache, cache.irps, cache.io
    {
      keys.Length == KeySlots && Separate() && cache.irps.Length == MaxIrpCache && Good(InputState())
      && (shared.Some? ==> PageOk(shared.value))
    }

    /** The key slots are not the cache's slots. */
    ghost predicate Separate() {
      (keys as object) != (cache.irps as object)
    }

    /** Nothing but the reports, the pending flags and the cache changed. */
    twostate predicate SameConnection()
      reads this, cache.io
    {
      shared == old(shared) && grantRef == old(grantRef) && evtchn == old(evtchn)
      && cache.io.forwarded == old(cache.io.forwarded) && cache.io.lower == old(cache.io.lower)
    }

    /** The zero-filled context of Vkbd_Create with the report ids set. */
    constructor (cache: IrpCache, env: Env)
      ensures keys.Length == KeySlots && keys[..] == [0, 0, 0, 0, 0, 0] && fresh(keys)
      ensures keyReportId == KeyboardReportId && modifiers == 0
      ensures mouse == MouseReport(MouseReportId, 0, 0, 0, 0) && !keyPending && !mouPending
      ensures shared == None && grantRef == 0 && evtchn == None
      ensures this.cache == cache && this.env == env && Separate()
    {
      keys := new bv8[KeySlots](_ => 0);
      keyReportId := KeyboardReportId;
      modifiers := 0;
      mouse := MouseReport(MouseReportId, 0, 0, 0, 0);
      keyPending := false;
      mouPending := false;
      shared := None;
      grantRef := 0;
      evtchn := None;
      this.cache := cache;
      this.env := env;
      new;
      assert keys[..] == [0, 0, 0, 0, 0, 0];
    }

    /** Vkbd_Create: STATUS_NO_MEMORY when the context cannot be allocated. */
    static method Create(cache: IrpCache, env: Env) returns (status: Status, v: Vkbd?)
      requires cache.Valid()
      modifies env
      ensures status == Success <==> v != null
      ensures status == Success || status == NoMemory
      ensures v != null ==> fresh(v) && fresh(v.keys) && v.Valid() && v.cache == cache && v.env == env
                            && v.shared == None && v.grantRef == 0 && v.evtchn == None
                            && !v.keyPending && !v.mouPending
                            && v.Keyboard() == KeyboardReport(KeyboardReportId, 0, [0, 0, 0, 0, 0, 0])
                            && v.mouse == MouseReport(MouseReportId, 0, 0, 0, 0)
                            && env.trace == old(env.trace) + [ContextAlloc]
      ensures v == null ==> env.trace == old(env.trace)
      ensures env.outcomes == Rest(old(env.outcomes)) && env.SameStore() && env.SameClock() && env.SameHandles()
    {
      var ok := env.Allocate();
      if !ok {
        return NoMemory, null;
      }
      env.Emit(ContextAlloc);
      v := new Vkbd(cache, env);
      assert KeyArray.WellFormed(v.keys[..]);
      status := Success;
    }

    /** Vkbd_Destroy: the reports are zeroed and the context freed. */
    method Destroy()
      modifies this, keys, env
      ensures forall i :: 0 <= i < keys.Length ==> keys[i] == 0
      ensures keyReportId == 0 && modifiers == 0 && mouse == MouseReport(0, 0, 0, 0, 0)
      ensures keyPending == old(keyPending) && mouPending == old(mouPending)
      ensures shared == old(shared) && grantRef == old(grantRef) && evtchn == old(evtchn)
      ensures env.trace == old(env.trace) + [ContextFree]
      ensures env.outcomes == old(env.outcomes) && env.SameStore() && env.SameClock() && env.SameHandles()
    {
      keyReportId := 0;
      modifiers := 0;
      forall i | 0 <= i < keys.Length {
        keys[i] := 0;
      }
      mouse := MouseReport(0, 0, 0, 0, 0);
      env.Emit(ContextFree);
    }

    /** __Complete on the keyboard (KeyState, KeyPending) or the mouse
        (MouState, MouPending) report. */
    method Complete(keyboard: bool)
      requires Separate()
      modifies this, cache.irps, cache.io
      ensures keyboard ==>
                (cache.State(), keyPending) == Delivered(old(cache.State()), old(keyPending),
                  KeyboardData(KeyboardReport(keyReportId, modifiers, keys[..])), KeyboardReportLength)
                && mouPending == old(mouPending)
      ensures !keyboard ==>
                (cache.State(), mouPending) == Delivered(old(cache.State()), old(mouPending),
                  MouseData(mouse), MouseReportLength)
                && keyPending == old(keyPending)
      ensures keyReportId == old(keyReportId) && modifiers == old(modifiers) && mouse == old(mouse)
      ensures SameConnection()
    {
      var status;
      if keyboard {
        var report := KeyboardReport(keyReportId, modifiers, keys[..]);
        status := cache.CompleteRead(KeyboardData(report), KeyboardReportLength);
        if !NtSuccess(status) {
          keyPending := true;
        }
      } else {
        status := cache.CompleteRead(MouseData(mouse), MouseReportLength);
        if !NtSuccess(status) {
          mouPending := true;
        }
      }
    }

    /** __UpdateKeyState. */
    method UpdateKeyState(pressed: bool, code: nat)
      requires keys.Length == KeySlots && Separate()
      modifies this, keys, cache.irps, cache.io
      ensures InputState() == KeyStep(old(InputState()), pressed, code)
      ensures SameConnection()
    {
      match UsageType(code)
      case MouseButton(bit) => UpdateButtons(bit, pressed);
      case KeyboardModifier(bit) => UpdateModifiers(bit, pressed);
      case KeyboardKey(usage) => UpdateKeys(usage, pressed);
      case Unmapped =>
    }

    method UpdateButtons(bit: bv8, pressed: bool)
      requires Separate()
      modifies this, cache.irps, cache.io
      ensures InputState() == ButtonStep(old(InputState()), bit, pressed)
      ensures SameConnection()
    {
      var (buttons, changed) := UpdateBit(mouse.buttons, bit, pressed);
      if !changed {
        return;
      }
      mouse := mouse.(buttons := buttons);
      Complete(false);
    }

    method UpdateModifiers(bit: bv8, pressed: bool)
      requires Separate()
      modifies this, cache.irps, cache.io
      ensures InputState() == ModifierStep(old(InputState()), bit, pressed)
      ensures SameConnection()
    {
      var (bits, changed) := UpdateBit(modifiers, bit, pressed);
      if !changed {
        return;
      }
      modifiers := bits;
      Complete(true);
    }

    method UpdateKeys(usage: bv8, pressed: bool)
      requires keys.Length == KeySlots && Separate()
      modifies this, keys, cache.irps, cache.io
      ensures InputState() == ArrayStep(old(InputState()), usage, pressed)
      ensures SameConnection()
    {
      var changed := KeyArray.UpdateArray(keys, usage, pressed);
      if !changed {
        return;
      }
      Complete(true);
    }

    /** __UpdateMouState. */
    method UpdateMouState(x: int, y: int, z: int)
      requires Separate()
      modifies this, cache.irps, cache.io
      ensures InputState() == PosStep(old(InputState()), x, y, z)
      ensures SameConnection()
    {
      var x' := Limit(x, 0, AxisMax);
      var y' := Limit(y, 0, AxisMax);
      var z' := Limit(z, WheelMin, WheelMax);
      if x' == mouse.x && y' == mouse.y && z' == mouse.z {
        return;
      }
      mouse := mouse.(x := x', y := y', z := z');
      Complete(false);
    }

    /** VkbdEvent. */
    method Event(e: InEvent)
      requires keys.Length == KeySlots && Separate()
      modifies this, keys, cache.irps, cache.io
      ensures InputState() == EventStep(old(InputState()), e)
      ensures SameConnection()
    {
      match e
      case Key(pressed, code) => UpdateKeyState(pressed != 0, code);
      case Pos(x, y, z) => UpdateMouState(x, y, z);
      case _ =>
    }

    /** The reports and the pending flags are as they were. */
    twostate predicate SameReports()
      reads this
    {
      keyReportId == old(keyReportId) && modifiers == old(modifiers) && mouse == old(mouse)
      && keyPending == old(keyPending) && mouPending == old(mouPending)
    }

    /** Vkbd_Connect: the shared page, a grant reference for it, the backend's
        access to it and an event channel, in that order; a failing step gives
        back what the earlier ones took, latest first. */
    method Connect(domain: nat) returns (status: Status)
      requires shared == None && grantRef == 0 && evtchn == None
      modifies this, env
      ensures status == Success || !NtSuccess(status)
      ensures status == Success ==>
                shared == Some(ZeroPage) && grantRef == old(env.nextRef) && evtchn == Some(old(env.nextPort))
                && env.trace == old(env.trace) + ConnectActions(old(env.nextRef), old(env.nextPort), domain)
      ensures status != Success ==>
                shared == None && grantRef == 0 && evtchn == None
                && exists k :: 0 <= k < 4 && env.trace
                     == old(env.trace) + RolledBack(ConnectActions(old(env.nextRef), old(env.nextPort), domain), k)
      ensures SameReports() && env.SameStore() && env.SameClock()
    {
      ghost var t := ConnectActions(env.nextRef, env.nextPort, domain);
      ConnectRollbacks(env.nextRef, env.nextPort, domain);
      var ok := env.Allocate();
      if !ok {
        assert env.trace == old(env.trace) + RolledBack(t, 0);
        return NoMemory;
      }
      env.Emit(SharedAlloc);
      shared := Some(ZeroPage);
      status := ConnectGrant(domain);
      if status != Success {
        env.Emit(SharedFree);
        shared := None;
        assert env.trace == old(env.trace) + RolledBack(t, 1) || env.trace == old(env.trace) + RolledBack(t, 2)
            || env.trace == old(env.trace) + RolledBack(t, 3);
      }
    }

    /** The grant steps of Vkbd_Connect, the page being held. */
    method ConnectGrant(domain: nat) returns (status: Status)
      requires grantRef == 0 && evtchn == None
      modifies this, env
      ensures status == Success || !NtSuccess(status)
      ensures status == Success ==>
                grantRef == old(env.nextRef) && evtchn == Some(old(env.nextPort))
                && env.trace == old(env.trace) + ConnectActions(old(env.nextRef), old(env.nextPort), domain)[1..]
      ensures status != Success ==>
                grantRef == 0 && evtchn == None
                && (env.trace == old(env.trace)
                    || env.trace == old(env.trace) + [Action.GrantGet(old(env.nextRef)), GrantPut(old(env.nextRef))]
                    || env.trace == old(env.trace) + [Action.GrantGet(old(env.nextRef)), Action.GrantPermit(old(env.nextRef), domain),
                                                      GrantRevoke(old(env.nextRef)), GrantPut(old(env.nextRef))])
      ensures shared == old(shared) && SameReports() && env.SameStore() && env.SameClock()
    {
      var ref;
      status, ref := env.GrantGet();
      if !NtSuccess(status) {
        return;
      }
      grantRef := ref;
      status := ConnectAccess(domain);
      if status != Success {
        env.Emit(GrantPut(grantRef));
        grantRef := 0;
      }
    }

    /** The backend's access and the event channel, for Vkbd_Connect. */
    method ConnectAccess(domain: nat) returns (status: Status)
      requires evtchn == None
      modifies this, env
      ensures status == Success || !NtSuccess(status)
      ensures status == Success ==>
                evtchn == Some(old(env.nextPort))
                && env.trace == old(env.trace) + [Action.GrantPermit(grantRef, domain), Action.EvtchnOpen(old(env.nextPort), domain)]
      ensures status != Success ==>
                evtchn == None
                && (env.trace == old(env.trace)
                    || env.trace == old(env.trace) + [Action.GrantPermit(grantRef, domain), GrantRevoke(grantRef)])
      ensures grantRef == old(grantRef) && shared == old(shared) && SameReports()
      ensures env.SameStore() && env.SameClock()
    {
      status := env.GrantPermit(grantRef, domain);
      if !NtSuccess(status) {
        return;
      }
      var port := env.EvtchnOpen(domain);
      if port.None? {
        env.Emit(GrantRevoke(grantRef));
        return Unsuccessful;
      }
      evtchn := port;
      status := Success;
    }

    /** Vkbd_WriteStore: the port, then the grant reference, in decimal under
        the frontend's store path, inside the caller's transaction. */
    method WriteStore() returns (status: Status)
      requires evtchn.Some? && env.pending.Some?
      modifies env
      ensures NtSuccess(status) ==>
                env.pending == Some(old(env.pending.value)[EvtchnNode := Num(evtchn.value)][GnttabNode := Num(grantRef)])
      ensures !NtSuccess(status) ==>
                env.pending == old(env.pending) || env.pending == Some(old(env.pending.value)[EvtchnNode := Num(evtchn.value)])
      ensures old(env.outcomes) == [] ==> status == Success && env.outcomes == []
      ensures !NtSuccess(status) ==> status in old(env.outcomes)
      ensures Suffix(env.outcomes, old(env.outcomes)) && |env.outcomes| <= |old(env.outcomes)|
      ensures env.nodes == old(env.nodes) && env.trace == old(env.trace) && env.SameClock() && env.SameHandles()
    {
      SuffixRest(env.outcomes, env.outcomes);
      status := env.TransactionWrite(EvtchnNode, Num(evtchn.value));
      if !NtSuccess(status) {
        return;
      }
      ghost var o := env.outcomes;
      SuffixRest(o, old(env.outcomes));
      status := env.TransactionWrite(GnttabNode, Num(grantRef));
      SuffixLength(env.outcomes, old(env.outcomes));
    }

    /** Vkbd_Disconnect: the event channel, the backend's access, the grant
        reference and the page are given back, the reverse of Vkbd_Connect. */
    method Disconnect()
      requires shared.Some? && evtchn.Some?
      modifies this, env
      ensures shared == None && grantRef == 0 && evtchn == None
      ensures env.trace == old(env.trace) + Teardown(old(grantRef), old(evtchn.value))
      ensures SameReports() && env.outcomes == old(env.outcomes)
      ensures env.SameStore() && env.SameClock() && env.SameHandles()
    {
      env.Emit(EvtchnClose(evtchn.value));
      evtchn := None;
      env.Emit(GrantRevoke(grantRef));
      env.Emit(GrantPut(grantRef));
      grantRef := 0;
      env.Emit(SharedFree);
      shared := None;
    }

    /** __Check. */
    method Check(keyboard: bool) returns (status: Status)
      requires Separate()
      modifies this, cache.irps, cache.io
      ensures (status, InputState()) == Checked(old(InputState()), keyboard)
      ensures SameConnection()
    {
      status := Pending;
      if keyboard {
        if keyPending {
          status := cache.CompleteRead(KeyboardData(Keyboard()), KeyboardReportLength);
          if status == Success {
            keyPending := false;
          }
        }
      } else {
        if mouPending {
          status := cache.CompleteRead(MouseData(mouse), MouseReportLength);
          if status == Success {
            mouPending := false;
          }
        }
      }
    }

    /** Vkbd_ReadReport. */
    method ReadReport() returns (status: Status)
      requires Separate()
      modifies this, cache.irps, cache.io
      ensures (status, InputState()) == ReadReported(old(InputState()))
      ensures SameConnection()
    {
      status := Check(true);
      if status != Pending {
        return;
      }
      status := Check(false);
      if status != Pending {
        return;
      }
      return Pending;
    }

    /** VkbdPoll: every event between in_cons and in_prod is handed to
        VkbdEvent once, in order, and in_cons then advertises them consumed;
        the loop ends when a fresh read finds nothing new. */
    method Poll()
      requires Valid() && shared.Some?
      modifies this, keys, cache.irps, cache.io
      ensures Valid()
      ensures InputState() == Drained(old(InputState()), Unconsumed(old(shared.value)))
      ensures shared == Some(old(shared.value).(inCons := old(shared.value).inProd))
      ensures grantRef == old(grantRef) && evtchn == old(evtchn)
      ensures cache.io.forwarded == old(cache.io.forwarded) && cache.io.lower == old(cache.io.lower)
    {
      ghost var s0 := InputState();
      ghost var p0 := shared.value;
      while true
        invariant shared.Some? && PageOk(shared.value)
        invariant (shared.value == p0 && InputState() == s0)
               || (shared.value == p0.(inCons := p0.inProd) && InputState() == Drained(s0, Unconsumed(p0)))
        invariant grantRef == old(grantRef) && evtchn == old(evtchn)
        invariant cache.io.forwarded == old(cache.io.forwarded) && cache.io.lower == old(cache.io.lower)
        decreases if shared.value.inCons == shared.value.inProd then 0 else 1
      {
        var cons := shared.value.inCons;
        var prod := shared.value.inProd;
        if cons == prod {
          break;
        }
        cons := Consume(cons, prod);
        shared := Some(shared.value.(inCons := cons));
      }
      DrainedKeeps(s0, Unconsumed(p0));
      if p0.inCons == p0.inProd {
        assert Unconsumed(p0) == [];
      }
    }

    /** The inner loop of VkbdPoll, from Cons up to Prod. */
    method Consume(cons: nat, prod: nat) returns (next: nat)
      requires shared.Some? && PageOk(shared.value)
      requires cons == shared.value.inCons && prod == shared.value.inProd
      requires keys.Length == KeySlots && Separate()
      modifies this, keys, cache.irps, cache.io
      ensures next == prod
      ensures InputState() == Drained(old(InputState()), Unconsumed(old(shared.value)))
      ensures SameConnection()
    {
      ghost var events := Unconsumed(shared.value);
      ghost var s0 := InputState();
      ghost var k := 0;
      next := cons;
      while next != prod
        invariant 0 <= k <= |events| && next == (cons + k) % IndexModulus
        invariant InputState() == Drained(s0, events[..k])
        invariant SameConnection()
        decreases |events| - k
      {
        IndexWraps(cons, prod, k);
        var e := shared.value.ring[next % RingLength];
        assert e == events[k];
        next := (next + 1) % IndexModulus;
        Event(e);
        assert events[..k + 1][..k] == events[..k];
        k := k + 1;
      }
      IndexWraps(cons, prod, k);
      assert events[..k] == events;
    }
  }

  /** The counter reaches in_prod after exactly (in_prod - in_cons) mod 2^32
      increments. */
  lemma IndexWraps(cons: nat, prod: nat, k: nat)
    requires cons < IndexModulus && prod < IndexModulus && k <= (prod - cons) % IndexModulus
    ensures (cons + k) % IndexModulus == prod <==> k == (prod - cons) % IndexModulus
    ensures ((cons + k) % IndexModulus + 1) % IndexModulus == (cons + k + 1) % IndexModulus
  {
  }
}
