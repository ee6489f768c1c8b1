/** Classification of Linux input key codes (__UsasgeType): keyboard keys map to
    usages of the Keyboard/Keypad page (0x07, section 10 of the HID Usage Tables
    1.12), the eight raw codes 0xE0-0xE7 to modifier bits, BTN_LEFT..BTN_TASK
    (0x110-0x114) to mouse button bits, and everything else to nothing. */
module Usage {

  datatype Usage =
    | Unmapped
    | MouseButton(bit: bv8)
    | KeyboardModifier(bit: bv8)
    | KeyboardKey(usage: bv8)

  /** The single-bit mask 1 << n. */
  function Bit(n: nat): bv8
    requires n < 8
  {
    (1 as bv8) << n
  }

  /** The Linux codes of left/right Ctrl, Shift, Alt and Meta. */
  const LinuxModifierCodes: set<nat> := {29, 42, 54, 56, 97, 100, 125, 126}

  /** __UsasgeType: the keyboard keys, then the modifiers, then the mouse
      buttons of the one switch statement. */
  function UsageType(code: nat): (u: Usage)
    ensures u.KeyboardKey? ==> u.usage != 0
    ensures u.KeyboardModifier? <==> 0xE0 <= code <= 0xE7
    ensures u.KeyboardModifier? ==> u.bit == Bit(code - 0xE0)
    ensures u.MouseButton? <==> 0x110 <= code <= 0x114
    ensures u.MouseButton? ==> u.bit == Bit(code - 0x110)
    ensures code == 0 || 195 <= code < 0xE0 || 0xE7 < code < 0x110 || 0x114 < code ==> u == Unmapped
  {
    var key := KeyUsage(code);
    if key != 0 then KeyboardKey(key)
    else match code
      case 0xE0 => KeyboardModifier(0x01)
      case 0xE1 => KeyboardModifier(0x02)
      case 0xE2 => KeyboardModifier(0x04)
      case 0xE3 => KeyboardModifier(0x08)
      case 0xE4 => KeyboardModifier(0x10)
      case 0xE5 => KeyboardModifier(0x20)
      case 0xE6 => KeyboardModifier(0x40)
      case 0xE7 => KeyboardModifier(0x80)
      case 0x110 => MouseButton(0x01)
      case 0x111 => MouseButton(0x02)
      case 0x112 => MouseButton(0x04)
      case 0x113 => MouseButton(0x08)
      case 0x114 => MouseButton(0x10)
      case _ => Unmapped
  }

  /** The Linux Ctrl, Shift, Alt and Meta codes are classified as keyboard keys
      carrying the modifier usages 0xE0-0xE7, not as modifier bits. */
  lemma LinuxModifiersAreKeys(code: nat)
    requires code in LinuxModifierCodes
    ensures UsageType(code).KeyboardKey? && 0xE0 <= UsageType(code).usage <= 0xE7
  {
  }

  /** The KEYBOARD_KEY entries of the switch; 0 for a code that is not one. */
  function KeyUsage(code: nat): (usage: bv8)
    ensures code == 0 || 195 <= code ==> usage == 0
  {
    match code
    case 1 => 0x29
    case 2 => 0x1E
    case 3 => 0x1F
    case 4 => 0x20
    case 5 => 0x21
    case 6 => 0x22
    case 7 => 0x23
    case 8 => 0x24
    case 9 => 0x25
    case 10 => 0x26
    case 11 => 0x27
    case 12 => 0x2D
    case 13 => 0x2E
    case 14 => 0x2A
    case 15 => 0x2B
    case 16 => 0x14
    case 17 => 0x1A
    case 18 => 0x08
    case 19 => 0x15
    case 20 => 0x17
    case 21 => 0x1C
    case 22 => 0x18
    case 23 => 0x0C
    case 24 => 0x12
    case 25 => 0x13
    case 26 => 0x2F
    case 27 => 0x30
    case 28 => 0x28
    case 29 => 0xE0
    case 30 => 0x04
    case 31 => 0x16
    case 32 => 0x07
    case 33 => 0x09
    case 34 => 0x0A
    case 35 => 0x0B
    case 36 => 0x0D
    case 37 => 0x0E
    case 38 => 0x0F
    case 39 => 0x33
    case 40 => 0x34
    case 41 => 0x35
    case 42 => 0xE1
    case 43 => 0x31
    case 44 => 0x1D
    case 45 => 0x1B
    case 46 => 0x06
    case 47 => 0x19
    case 48 => 0x05
    case 49 => 0x11
    case 50 => 0x10
    case 51 => 0x36
    case 52 => 0x37
    case 53 => 0x38
    case 54 => 0xE5
    case 55 => 0x55
    case 56 => 0xE2
    case 57 => 0x2C
    case 58 => 0x39
    case 59 => 0x3A
    case 60 => 0x3B
    case 61 => 0x3C
    case 62 => 0x3D
    case 63 => 0x3E
    case 64 => 0x3F
    case 65 => 0x40
    case 66 => 0x41
    case 67 => 0x42
    case 68 => 0x43
    case 69 => 0x53
    case 70 => 0x47
    case 71 => 0x5F
    case 72 => 0x60
    case 73 => 0x61
    case 74 => 0x56
    case 75 => 0x5C
    case 76 => 0x5D
    case 77 => 0x5E
    case 78 => 0x57
    case 79 => 0x59
    case 80 => 0x5A
    case 81 => 0x5B
    case 82 => 0x62
    case 83 => 0x63
    case 85 => 0x87
    case 86 => 0x32
    case 87 => 0x44
    case 88 => 0x45
    case 89 => 0x88
    case 90 => 0x89
    case 91 => 0x8A
    case 92 => 0x8B
    case 93 => 0x8C
    case 94 => 0x8D
    case 96 => 0x58
    case 97 => 0xE4
    case 98 => 0x54
    case 99 => 0x46
    case 100 => 0xE6
    case 102 => 0x4A
    case 103 => 0x52
    case 104 => 0x4B
    case 105 => 0x50
    case 106 => 0x4F
    case 107 => 0x4D
    case 108 => 0x51
    case 109 => 0x4E
    case 110 => 0x49
    case 111 => 0x4C
    case 113 => 0x7F
    case 114 => 0x81
    case 115 => 0x80
    case 116 => 0x66
    case 117 => 0x86
    case 118 => 0xD7
    case 119 => 0x48
    case 121 => 0x85
    case 122 => 0x8E
    case 123 => 0x8F
    case 124 => 0x90
    case 125 => 0xE3
    case 126 => 0xE7
    case 127 => 0x65
    case 131 => 0x7A
    case 133 => 0x7C
    case 135 => 0x7D
    case 137 => 0x7B
    case 138 => 0x75
    case 139 => 0x76
    case 179 => 0xB6
    case 180 => 0xB7
    case 182 => 0x79
    case 183 => 0x68
    case 184 => 0x69
    case 185 => 0x6A
    case 186 => 0x6B
    case 187 => 0x6C
    case 188 => 0x6D
    case 189 => 0x6E
    case 190 => 0x6F
    case 191 => 0x70
    case 192 => 0x71
    case 193 => 0x72
    case 194 => 0x73
    case _ => 0
  }

  /** A mask with exactly one bit set. */
  predicate SingleBit(b: bv8) {
    b == 0x01 || b == 0x02 || b == 0x04 || b == 0x08 || b == 0x10 || b == 0x20 || b == 0x40 || b == 0x80
  }

  /** __UpdateBit: sets (pressed) or clears the bit of the mask, and reports
      whether the mask changed. The by-reference parameter of the C function is
      modelled as the returned mask. */
  function UpdateBit(bits: bv8, bit: bv8, pressed: bool): (r: (bv8, bool))
    ensures SingleBit(bit) ==> (r.1 <==> ((bits & bit != 0) != pressed))
    ensures SingleBit(bit) ==> r.0 & bit == (if pressed then bit else 0)
    ensures !r.1 ==> r.0 == bits
  {
    if pressed then
      if bits & bit != 0 then (bits, false) else (bits | bit, true)
    else
      if bits & bit == 0 then (bits, false) else (bits & !bit, true)
  }

  /** __UpdateBit leaves every other bit of the mask as it was. */
  lemma UpdateBitOthers(bits: bv8, bit: bv8, pressed: bool)
    ensures UpdateBit(bits, bit, pressed).0 & !bit == bits & !bit
  {
    var m := UpdateBit(bits, bit, pressed).0;
    if pressed && bits & bit == 0 {
      assert m == bits | bit;
      OrKeepsOthers(bits, bit);
    } else if !pressed && bits & bit != 0 {
      assert m == bits & !bit;
      AndNotKeepsOthers(bits, bit);
    }
  }

  /** __UpdateBit reports a change only when the mask did change. */
  lemma UpdateBitChanges(bits: bv8, bit: bv8, pressed: bool)
    requires SingleBit(bit)
    ensures UpdateBit(bits, bit, pressed).1 ==> UpdateBit(bits, bit, pressed).0 != bits
  {
  }

  /** 1 << n is a single-bit mask. */
  lemma BitIsSingle(n: nat)
    requires n < 8
    ensures SingleBit(Bit(n))
  {
    if n == 0 {
    } else if n == 1 {
    } else if n == 2 {
    } else if n == 3 {
    } else if n == 4 {
    } else if n == 5 {
    } else if n == 6 {
    } else {
    }
  }

  lemma OrKeepsOthers(bits: bv8, bit: bv8)
    ensures (bits | bit) & !bit == bits & !bit
  {
  }

  lemma AndNotKeepsOthers(bits: bv8, bit: bv8)
    ensures (bits & !bit) & !bit == bits & !bit
  {
  }

  /** __Limit: clamps val to [min, max]. */
  function Limit(val: int, min: int, max: int): (r: int)
    ensures min <= max ==> min <= r <= max
    ensures min <= val <= max ==> r == val
    ensures val < min ==> r == min
    ensures min <= max && val > max ==> r == max
  {
    if val < min then min
    else if val > max then max
    else val
  }
}
