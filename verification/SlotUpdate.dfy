/** The A/B firmware update of a device (`_run_update` and `_stream_file_to_device`, controller/em_api.py),
    over the device's own files, with the link to the device free to fail at every step. */
module SlotUpdate {
  import opened Commands
  import opened Options
  import opened Pcm

  type Bytes = seq<Byte>

  datatype Slot = A | B

  /** What /data/local/bin/server is: a link to a slot, or the legacy layout, a file (or nothing). */
  datatype Server = Link(slot: Slot) | Legacy(file: Option<Bytes>)

  datatype Disk = Disk(server: Server, a: Option<Bytes>, b: Option<Bytes>, partA: Option<Bytes>, partB: Option<Bytes>)

  function Other(s: Slot): Slot {
    if s == A then B else A
  }

  function InSlot(d: Disk, s: Slot): Option<Bytes> {
    if s == A then d.a else d.b
  }

  function PartOf(d: Disk, s: Slot): Option<Bytes> {
    if s == A then d.partA else d.partB
  }

  function WithSlot(d: Disk, s: Slot, content: Option<Bytes>): Disk {
    if s == A then d.(a := content) else d.(b := content)
  }

  function WithPart(d: Disk, s: Slot, content: Option<Bytes>): Disk {
    if s == A then d.(partA := content) else d.(partB := content)
  }

  /** What a reboot would start. */
  function Boots(d: Disk): Option<Bytes> {
    match d.server
    case Link(s) => InSlot(d, s)
    case Legacy(file) => file
  }

  // ---- The link to the device

  datatype Tools = NoAnswer | NoDecoder | NoDigest | Complete

  /** Everything the controller does not decide: how far each command gets, what bytes arrive, what is free. */
  datatype Weather = Weather(
    online: bool,
    detect: Reach,          // the readlink, and on a legacy layout the whole migration
    copied: Option<Bytes>,  // what an interrupted migration left in slot A
    freeMb: Option<int>,
    tools: Tools,
    landed: Option<Bytes>,  // what the transfer left in the .part, None when it never ran
    confirmed: bool,        // TRANSFER_OK came back
    verify: Reach,
    drops: bool,            // a wait that hears nothing ends in a lost link, not in its timeout
    flip: Reach)

  datatype Stage = Offline | Migration | Space | Shell | Decoder | DigestTool | Send | Corrupt | Verify | Error

  /** `Restarted`: the flip was sent; whether it ran shows only in what reconnects. */
  datatype Ending = Failed(stage: Stage) | Restarted

  // ---- The device

  class Device {
    const md5: Bytes -> Bytes
    var disk: Disk
    /** Every state the files have been in. */
    ghost var trace: seq<Disk>

    constructor (md5: Bytes -> Bytes, disk: Disk)
      ensures this.md5 == md5 && this.disk == disk && trace == [disk]
    {
      this.md5, this.disk, this.trace := md5, disk, [disk];
    }

    method Become(d: Disk)
      modifies this
      ensures disk == d && trace == old(trace) + [d]
    {
      disk := d;
      trace := trace + [d];
    }

    /** The active slot, migrating a legacy layout to slot A first. */
    method DetectSlot(w: Weather) returns (active: Option<Slot>)
      modifies this
      ensures old(disk).server.Link? ==> disk == old(disk) && trace == old(trace)
                                         && active == if w.detect.RunHeard? then Some(old(disk).server.slot) else None
      ensures old(disk).server.Legacy? ==> |old(trace)| <= |trace| && trace[..|old(trace)|] == old(trace)
      ensures old(disk).server.Legacy? ==>
                forall i :: |old(trace)| <= i < |trace| ==> Migrating(old(disk), trace[i])
      ensures old(disk).server.Legacy? ==> disk == old(disk) || Migrating(old(disk), disk)
      ensures old(disk).server.Legacy? && active.Some? ==> active == Some(A) && disk.server == Link(A)
      ensures active.Some? <==> Detected(old(disk), w)
    {
      if disk.server.Link? {
        return if w.detect.RunHeard? then Some(disk.server.slot) else None;
      }
      var legacy := disk.server.file;
      if w.detect.NotRun? {
        if w.copied.Some? && legacy.Some? {
          Become(disk.(a := w.copied));
        }
        return None;
      }
      if legacy.None? {
        return None;
      }
      Become(disk.(a := legacy));
      Become(disk.(server := Link(A)));
      active := if w.detect.RunHeard? then Some(A) else None;
    }

    /** Send to `slot`.part, verify there, and only then move it into the slot. None is success. */
    method StreamToSlot(binary: Bytes, slot: Slot, w: Weather) returns (stopped: Option<Stage>)
      modifies this
      ensures |old(trace)| <= |trace| && trace[..|old(trace)|] == old(trace)
      ensures forall i :: |old(trace)| <= i < |trace| ==> Staging(old(disk), slot, md5, md5(binary), trace[i])
      ensures disk == old(disk) || Staging(old(disk), slot, md5, md5(binary), disk)
      ensures stopped.None? ==> InSlot(disk, slot).Some? && md5(InSlot(disk, slot).value) == md5(binary)
      ensures stopped.Some? ==> stopped.value in {Shell, Decoder, DigestTool, Send, Corrupt, Verify, Error}
      ensures stopped.None? <==> Promoted(md5, binary, w) && w.verify.RunHeard?
      ensures stopped.None? ==> InSlot(disk, slot) == w.landed
      ensures stopped == Some(Decoder) <==> w.tools.NoDecoder?
      ensures stopped == Some(DigestTool) <==> w.tools.NoDigest?
      ensures stopped == Some(Corrupt) <==>
                && w.tools.Complete? && w.landed.Some? && w.confirmed && w.verify.RunHeard?
                && md5(w.landed.value) != md5(binary)
      ensures w.tools.Complete? && w.landed.Some? && w.confirmed && !w.verify.NotRun? ==> PartOf(disk, slot).None?
      ensures stopped.Some? ==>
                InSlot(disk, slot) == if Promoted(md5, binary, w) then w.landed else InSlot(old(disk), slot)
      ensures stopped.Some? && Promoted(md5, binary, w) ==> stopped == Some(if w.drops then Error else Verify)
    {
      if w.tools.NoAnswer? {
        return Some(if w.drops then Error else Shell);
      }
      if w.tools.NoDecoder? {
        return Some(Decoder);
      }
      if w.tools.NoDigest? {
        return Some(DigestTool);
      }
      if w.landed.Some? {
        Become(WithPart(disk, slot, w.landed));
      }
      if w.landed.None? || !w.confirmed {
        return Some(if w.drops then Error else Send);
      }
      if w.verify.NotRun? {
        return Some(if w.drops then Error else Verify);
      }
      var part := w.landed.value;
      if md5(part) == md5(binary) {
        Become(WithPart(WithSlot(disk, slot, Some(part)), slot, None));
        return if w.verify.RunHeard? then None else Some(if w.drops then Error else Verify);
      }
      Become(WithPart(disk, slot, None));
      stopped := Some(if w.verify.RunHeard? then Corrupt else if w.drops then Error else Verify);
    }

    /** One update. In every state the files pass through, a reboot starts what it would have started before,
        or bytes with the new binary's digest. */
    method RunUpdate(binary: Bytes, w: Weather) returns (ending: Ending)
      modifies this
      ensures |old(trace)| <= |trace| && trace[..|old(trace)|] == old(trace)
      ensures forall i :: |old(trace)| <= i < |trace| ==> Safe(old(disk), md5, md5(binary), trace[i])
      ensures disk == old(disk) || Safe(old(disk), md5, md5(binary), disk)
      ensures ending.Failed? ==> Boots(disk) == Boots(old(disk))
      ensures old(disk).server.Link? && ending.Failed?
              && !(ending.stage in {Verify, Error} && Promoted(md5, binary, w)) ==>
                InSlot(disk, Other(old(disk).server.slot)) == InSlot(old(disk), Other(old(disk).server.slot))
      ensures ending.Failed? && ending.stage in {Offline, Migration, Space} ==>
                disk == old(disk).(a := disk.a, server := disk.server) && (old(disk).server.Link? ==> disk == old(disk))
      ensures ending == Failed(Offline) <==> !w.online
      ensures ending == Failed(Migration) <==> w.online && !Detected(old(disk), w)
      ensures ending == Failed(Space) <==>
                w.online && Detected(old(disk), w) && w.freeMb.Some? && w.freeMb.value < |binary| * 2 / 1048576 + 8
      ensures ending.Restarted? <==>
                && w.online && Detected(old(disk), w)
                && (w.freeMb.None? || w.freeMb.value >= |binary| * 2 / 1048576 + 8)
                && Promoted(md5, binary, w) && w.verify.RunHeard?
      ensures ending.Restarted? && !w.flip.NotRun? ==> md5(w.landed.value) == md5(binary) && Boots(disk) == w.landed
      ensures ending.Restarted? && !w.flip.NotRun? ==>
                disk.server == Link(if old(disk).server.Link? then Other(old(disk).server.slot) else B)
      ensures ending.Restarted? && w.flip.NotRun? ==> Boots(disk) == Boots(old(disk))
    {
      if !w.online {
        return Failed(Offline);
      }
      ghost var d0, want, start := disk, md5(binary), |trace|;
      var active := DetectSlot(w);
      forall i | start <= i < |trace| ensures Safe(d0, md5, want, trace[i]) {
        MigratingIsSafe(d0, md5, want, trace[i]);
      }
      if disk != d0 {
        MigratingIsSafe(d0, md5, want, disk);
      }
      if active.None? {
        return Failed(Migration);
      }
      var spare := Other(active.value);
      if w.freeMb.Some? && w.freeMb.value < |binary| * 2 / 1048576 + 8 {
        return Failed(Space);
      }
      ghost var d1, middle := disk, |trace|;
      var stopped := StreamToSlot(binary, spare, w);
      forall i | middle <= i < |trace| ensures Safe(d0, md5, want, trace[i]) {
        StagingIsSafe(d0, d1, active.value, md5, want, trace[i]);
      }
      if disk != d1 {
        StagingIsSafe(d0, d1, active.value, md5, want, disk);
      }
      if stopped.Some? {
        return Failed(stopped.value);
      }
      if !w.flip.NotRun? {
        FlipIsSafe(d0, disk, active.value, md5, want);
        Become(disk.(server := Link(spare)));
      }
      ending := Restarted;
    }
  }

  /** The active slot could be told: the device answered, and had a binary to migrate if it had no link. */
  predicate Detected(d: Disk, w: Weather) {
    w.detect.RunHeard? && (d.server.Link? || d.server.file.Some?)
  }

  /** The verified move ran on the device. */
  predicate Promoted(md5: Bytes -> Bytes, binary: Bytes, w: Weather) {
    && w.tools.Complete? && w.landed.Some? && w.confirmed && !w.verify.NotRun?
    && md5(w.landed.value) == md5(binary)
  }

  // ---- Any number of updates

  /** A reboot starts the original binary, or one whose digest is that of an update's payload. */
  ghost predicate BootsOneOf(d0: Disk, md5: Bytes -> Bytes, runs: seq<(Bytes, Weather)>, d: Disk) {
    Boots(d) == Boots(d0)
    || exists k :: 0 <= k < |runs| && Boots(d).Some? && md5(Boots(d).value) == md5(runs[k].0)
  }

  /** Over every series of updates, at every moment, the device boots something it was meant to run. */
  method RunUpdates(device: Device, runs: seq<(Bytes, Weather)>)
    modifies device
    ensures |old(device.trace)| <= |device.trace|
    ensures forall i :: |old(device.trace)| <= i < |device.trace| ==>
                        BootsOneOf(old(device.disk), device.md5, runs, device.trace[i])
    ensures BootsOneOf(old(device.disk), device.md5, runs, device.disk)
  {
    ghost var d0, start := device.disk, |device.trace|;
    for k := 0 to |runs|
      invariant start <= |device.trace|
      invariant forall i :: start <= i < |device.trace| ==> BootsOneOf(d0, device.md5, runs, device.trace[i])
      invariant BootsOneOf(d0, device.md5, runs, device.disk)
    {
      ghost var d1, middle := device.disk, |device.trace|;
      ghost var before := device.trace;
      var ending := device.RunUpdate(runs[k].0, runs[k].1);
      forall i | start <= i < |device.trace| ensures BootsOneOf(d0, device.md5, runs, device.trace[i]) {
        if i < middle {
          assert device.trace[i] == before[i];
        } else {
          SafeBoots(d0, d1, device.md5, runs, k, device.trace[i]);
        }
      }
      if device.disk != d1 {
        SafeBoots(d0, d1, device.md5, runs, k, device.disk);
      }
    }
  }

  lemma SafeBoots(d0: Disk, d1: Disk, md5: Bytes -> Bytes, runs: seq<(Bytes, Weather)>, k: nat, d: Disk)
    requires k < |runs| && BootsOneOf(d0, md5, runs, d1) && Safe(d1, md5, md5(runs[k].0), d)
    ensures BootsOneOf(d0, md5, runs, d)
  {
  }

  // ---- The states an update may pass through

  /** Only slot A is written, and `server` turns to it only once it holds what `server` held. */
  ghost predicate Migrating(d0: Disk, d: Disk) {
    && d0.server.Legacy? && d0.server.file.Some?
    && d == d0.(a := d.a, server := d.server)
    && (d.server == d0.server || (d.server == Link(A) && d.a == d0.server.file))
  }

  /** Only this slot and its .part are written, the slot only with the wanted digest. */
  ghost predicate Staging(d0: Disk, slot: Slot, md5: Bytes -> Bytes, want: Bytes, d: Disk) {
    && d == WithPart(WithSlot(d0, slot, InSlot(d, slot)), slot, PartOf(d, slot))
    && (InSlot(d, slot) == InSlot(d0, slot) || (InSlot(d, slot).Some? && md5(InSlot(d, slot).value) == want))
  }

  ghost predicate Safe(d0: Disk, md5: Bytes -> Bytes, want: Bytes, d: Disk) {
    && (Boots(d) == Boots(d0) || (Boots(d).Some? && md5(Boots(d).value) == want))
    && (if d0.server.Link? then KeepsActive(d0, md5, want, d) else KeepsLegacy(d0, d))
  }

  /** A legacy layout stays as it was until slot A holds its binary, which then stays there to roll back to. */
  ghost predicate KeepsLegacy(d0: Disk, d: Disk)
    requires d0.server.Legacy?
  {
    d.server == d0.server || (d.server.Link? && d.a == d0.server.file)
  }

  /** The slot that was active is never written, nor its .part; the other holds what it did or the new bytes. */
  ghost predicate KeepsActive(d0: Disk, md5: Bytes -> Bytes, want: Bytes, d: Disk)
    requires d0.server.Link?
  {
    var active, spare := d0.server.slot, Other(d0.server.slot);
    && d.server.Link?
    && InSlot(d, active) == InSlot(d0, active) && PartOf(d, active) == PartOf(d0, active)
    && (InSlot(d, spare) == InSlot(d0, spare) || (InSlot(d, spare).Some? && md5(InSlot(d, spare).value) == want))
    && (d.server.slot == active || (InSlot(d, spare).Some? && md5(InSlot(d, spare).value) == want))
  }

  lemma MigratingIsSafe(d0: Disk, md5: Bytes -> Bytes, want: Bytes, d: Disk)
    requires Migrating(d0, d)
    ensures Safe(d0, md5, want, d) && Boots(d) == Boots(d0)
  {
  }

  /** The layout once the active slot is known. */
  ghost predicate Settled(d0: Disk, d1: Disk, active: Slot) {
    d1.server == Link(active) && (d1 == d0 || Migrating(d0, d1))
  }

  lemma StagingIsSafe(d0: Disk, d1: Disk, active: Slot, md5: Bytes -> Bytes, want: Bytes, d: Disk)
    requires Settled(d0, d1, active) && Staging(d1, Other(active), md5, want, d)
    ensures Safe(d0, md5, want, d) && Boots(d) == Boots(d0) && d.server == Link(active)
  {
  }

  lemma FlipIsSafe(d0: Disk, d: Disk, active: Slot, md5: Bytes -> Bytes, want: Bytes)
    requires Safe(d0, md5, want, d) && d.server == Link(active) && (d0.server.Link? ==> d0.server.slot == active)
    requires InSlot(d, Other(active)).Some? && md5(InSlot(d, Other(active)).value) == want
    ensures Safe(d0, md5, want, d.(server := Link(Other(active))))
  {
  }
}
