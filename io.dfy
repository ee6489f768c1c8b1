/** The part of the I/O manager the driver talks to: completing an IRP
    (IoCompleteRequest) and passing one down the stack (IoCallDriver). An IRP is
    an opaque identity; a completion is recorded as an entry of a log. */
module Io {
  import opened NtStatus
  import opened Hid

  /** An IRP, identified by an opaque number. */
  type Irp = nat

  /** What the driver copied into the IRP's buffer before completing it. */
  datatype Payload =
    | NoData
    | KeyboardData(keyboard: KeyboardReport)
    | MouseData(mouse: MouseReport)
    | AttributesData(attributes: DeviceAttributes)
    | DescriptorData(descriptor: HidDescriptor)
    | ReportDescriptorData

  /** One IoCompleteRequest: the IRP, IoStatus.Status, IoStatus.Information and
      the buffer contents. */
  datatype Completion = Completion(irp: Irp, status: Status, information: nat, payload: Payload)

  /** The IRP has no entry in the log. */
  predicate NotCompleted(log: seq<Completion>, irp: Irp) {
    forall i :: 0 <= i < |log| ==> log[i].irp != irp
  }

  /** No IRP was completed twice. */
  predicate AtMostOnce(log: seq<Completion>) {
    forall i, j :: 0 <= i < j < |log| ==> log[i].irp != log[j].irp
  }

  predicate Distinct(s: seq<Irp>) {
    forall i, j :: 0 <= i < j < |s| ==> s[i] != s[j]
  }

  /** Appending the completion of an IRP not yet completed keeps every IRP
      completed at most once. */
  lemma AppendFresh(log: seq<Completion>, c: Completion)
    requires AtMostOnce(log) && NotCompleted(log, c.irp)
    ensures AtMostOnce(log + [c])
  {
  }

  class IoManager {
    /** Every IRP this driver completed, in order. */
    var completions: seq<Completion>
    /** Every IRP this driver passed to the lower device object, in order. */
    var forwarded: seq<Irp>
    /** The statuses the lower device object will return, in order. */
    var lower: seq<Status>

    constructor (lower: seq<Status>)
      ensures completions == [] && forwarded == [] && this.lower == lower
    {
      completions := [];
      forwarded := [];
      this.lower := lower;
    }

    /** IoCompleteRequest. */
    method Complete(c: Completion)
      modifies this
      ensures completions == old(completions) + [c]
      ensures forwarded == old(forwarded) && lower == old(lower)
    {
      completions := completions + [c];
    }

    /** IoCallDriver on the lower device object; also stands for the synchronous
        forward, whose status is the one the lower driver completed the IRP with. */
    method CallLower(irp: Irp) returns (status: Status)
      modifies this
      ensures status == Next(old(lower)) && lower == Rest(old(lower))
      ensures forwarded == old(forwarded) + [irp]
      ensures completions == old(completions)
    {
      status := Next(lower);
      lower := Rest(lower);
      forwarded := forwarded + [irp];
    }
  }
}
