/** The USB drive helpers of libs/utils (usbstick.ts): the status read
    from the kiosk's drive list and the guarded mount and unmount
    commands. The kiosk itself is an object holding the reported drives
    and the log of commands sent to it; what the kiosk then does to the
    drive is outside this model. */
module UsbDrive {
  import opened Wrappers

  const FlushIoDelayMs := 10000

  datatype UsbDriveStatus = NotAvailable | Absent | Present | Mounted | RecentlyEjected | Ejecting

  datatype Drive = Drive(deviceName: string, mountPoint: Option<string>)

  datatype KioskCommand = MountCommand(mountName: string) | UnmountCommand(unmountName: string)

  /** A mount point counts only when it is a non-empty string. */
  predicate IsMounted(d: Drive) {
    d.mountPoint.Some? && d.mountPoint.value != ""
  }

  /** getDevice: the first reported drive; `drives` is None without a kiosk. */
  function GetDevice(drives: Option<seq<Drive>>): (r: Option<Drive>)
    ensures r.Some? <==> drives.Some? && |drives.value| > 0
    ensures r.Some? ==> r.value == drives.value[0]
  {
    if drives.Some? && |drives.value| > 0 then Some(drives.value[0]) else None
  }

  /** getDevicePath: the first drive's mount point, if any. */
  function GetDevicePath(drives: Option<seq<Drive>>): (r: Option<string>)
    ensures r.Some? <==> drives.Some? && |drives.value| > 0 && drives.value[0].mountPoint.Some?
    ensures r.Some? ==> r == drives.value[0].mountPoint
  {
    match GetDevice(drives)
    case None => None
    case Some(d) => d.mountPoint
  }

  /** getStatus, decided in the order: no kiosk, no drive, mounted, present. */
  function GetStatus(drives: Option<seq<Drive>>): (r: UsbDriveStatus)
    ensures r == NotAvailable <==> drives.None?
    ensures r == Absent <==> drives.Some? && |drives.value| == 0
    ensures r == Mounted <==> drives.Some? && |drives.value| > 0 && IsMounted(drives.value[0])
    ensures r == Present <==> drives.Some? && |drives.value| > 0 && !IsMounted(drives.value[0])
  {
    if drives.None? then NotAvailable
    else
      match GetDevice(drives)
      case None => Absent
      case Some(d) => if IsMounted(d) then Mounted else Present
  }

  /** The two transient statuses belong to the app, never to the drive. */
  lemma GetStatusNeverTransient(drives: Option<seq<Drive>>)
    ensures GetStatus(drives) != RecentlyEjected && GetStatus(drives) != Ejecting
  {
  }

  /** Only the first drive is consulted. */
  lemma OnlyFirstDriveMatters(first: Drive, rest: seq<Drive>, other: seq<Drive>)
    ensures GetStatus(Some([first] + rest)) == GetStatus(Some([first] + other))
    ensures GetDevicePath(Some([first] + rest)) == GetDevicePath(Some([first] + other))
  {
  }

  class Kiosk {
    /** None when the browser has no kiosk. */
    var drives: Option<seq<Drive>>
    var commands: seq<KioskCommand>

    constructor(reported: Option<seq<Drive>>)
      ensures drives == reported && commands == []
    {
      drives := reported;
      commands := [];
    }

    function Status(): UsbDriveStatus
      reads this
    {
      GetStatus(drives)
    }

    /** doMount: a mount for the first drive when it exists and is not
        mounted; otherwise nothing. */
    method DoMount()
      modifies this
      ensures drives == old(drives)
      ensures GetDevice(drives).Some? && !IsMounted(GetDevice(drives).value) ==>
        commands == old(commands) + [MountCommand(GetDevice(drives).value.deviceName)]
      ensures GetDevice(drives).None? || IsMounted(GetDevice(drives).value) ==> commands == old(commands)
    {
      var device := GetDevice(drives);
      if device.None? || IsMounted(device.value) {
        return;
      }
      commands := commands + [MountCommand(device.value.deviceName)];
    }

    /** doUnmount: an unmount only for a mounted first drive, followed by
        the flush delay, which is returned in milliseconds (0 when nothing
        was done). */
    method DoUnmount() returns (delayMs: nat)
      modifies this
      ensures drives == old(drives)
      ensures GetDevice(drives).Some? && IsMounted(GetDevice(drives).value) ==>
        commands == old(commands) + [UnmountCommand(GetDevice(drives).value.deviceName)] && delayMs == FlushIoDelayMs
      ensures !(GetDevice(drives).Some? && IsMounted(GetDevice(drives).value)) ==> commands == old(commands) && delayMs == 0
    {
      var device := GetDevice(drives);
      if !(device.Some? && IsMounted(device.value)) {
        return 0;
      }
      commands := commands + [UnmountCommand(device.value.deviceName)];
      delayMs := FlushIoDelayMs;
    }
  }

  /** A command is sent only for the drive status that admits it: mount
      for Present, unmount for Mounted. */
  lemma CommandsMatchStatus(drives: Option<seq<Drive>>)
    ensures GetDevice(drives).Some? && !IsMounted(GetDevice(drives).value) <==> GetStatus(drives) == Present
    ensures GetDevice(drives).Some? && IsMounted(GetDevice(drives).value) <==> GetStatus(drives) == Mounted
  {
  }
}
