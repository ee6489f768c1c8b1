/** The HID records the driver hands to the HID class driver: the two input
    reports (XENHID_KEYBOARD, XENHID_MOUSE) and the constant descriptors. */
module Hid {

  /** XENHID_KEYBOARD: report id 1, modifier bit mask, six key usages. */
  datatype KeyboardReport = KeyboardReport(reportId: bv8, modifiers: bv8, keys: seq<bv8>)

  /** XENHID_MOUSE: report id 2, button bit mask, absolute X and Y (USHORT) and
      the wheel (CHAR). */
  datatype MouseReport = MouseReport(reportId: bv8, buttons: bv8, x: int, y: int, z: int)

  const KeyboardReportId: bv8 := 1
  const MouseReportId: bv8 := 2

  /** Number of key slots in the keyboard report. */
  const KeySlots: nat := 6

  /** sizeof(XENHID_KEYBOARD): 1 + 1 + 6 bytes. */
  const KeyboardReportLength: nat := 8
  /** sizeof(XENHID_MOUSE): 1 + 1 + 2 + 2 + 1 bytes, padded to the 2-byte
      alignment of its USHORT members. */
  const MouseReportLength: nat := 8

  /** Coordinate ranges of the report descriptor: X and Y in 0..32767, Z in -127..127. */
  const AxisMax: int := 32767
  const WheelMin: int := -127
  const WheelMax: int := 127

  /** HID_DEVICE_ATTRIBUTES as Vkbd_DeviceAttributes fills it. */
  datatype DeviceAttributes = DeviceAttributes(size: nat, vendorId: nat, productId: nat, version: nat)

  /** HID_DESCRIPTOR as Vkbd_DeviceDescriptor fills it: one descriptor entry
      of type 0x22 (report descriptor) with the report descriptor's length. */
  datatype HidDescriptor = HidDescriptor(
    length: nat, descriptorType: nat, hidVersion: nat, country: nat,
    numDescriptors: nat, reportType: nat, reportLength: nat)

  /** sizeof(HID_DEVICE_ATTRIBUTES): ULONG Size, three USHORTs and USHORT Reserved[11]. */
  const DeviceAttributesSize: nat := 32
  /** sizeof(HID_DESCRIPTOR), a packed structure. */
  const HidDescriptorSize: nat := 9
  /** sizeof(Vkbd_ReportDescriptor): the byte count of VKBD_REPORT_DESCRIPTOR. */
  const ReportDescriptorSize: nat := 113

  const VkbdAttributes := DeviceAttributes(DeviceAttributesSize, 0xBEEF, 0xFEED, 0x0101)
  const VkbdDescriptor := HidDescriptor(HidDescriptorSize, 0x09, 0x0101, 0x00, 0x01, 0x22, ReportDescriptorSize)
}
