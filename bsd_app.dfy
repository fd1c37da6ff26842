/** The ballot scanning device's app state (apps/bsd/src/AppRoot.tsx): USB
    eject, poll and displayed status, the `isScanning` flag, pending batch
    deletes, loading an election from an admin card, and the derived export
    gating and ballot count. Responses of the scan service and of the card
    reader are parameters. */
module BsdApp {
  import opened Wrappers
  import opened Seqs
  import opened UsbDrive

  datatype Batch = Batch(id: int, count: int, endedAt: Option<string>)
  datatype Adjudication = Adjudication(remaining: int, adjudicated: int)
  datatype ScanStatus = ScanStatus(electionHash: Option<string>, batches: seq<Batch>, adjudication: Adjudication)

  /** An election as loaded from a card; its contents are not inspected. */
  datatype BsdElection = BsdElection(electionData: string)

  const InitialScanStatus := ScanStatus(None, [], Adjudication(0, 0))

  /** A batch with no truthy `endedAt` is still being scanned. */
  predicate Unfinished(b: Batch) {
    b.endedAt.None? || b.endedAt.value == ""
  }

  /** The value `isScanning` takes from a newly fetched status. */
  predicate ScanningIn(status: ScanStatus) {
    status.adjudication.remaining == 0 && exists i :: 0 <= i < |status.batches| && Unfinished(status.batches[i])
  }

  /** displayUsbStatus. */
  function DisplayUsbStatus(usbStatus: UsbDriveStatus, recentlyEjected: bool): (r: UsbDriveStatus)
    ensures recentlyEjected && usbStatus != Ejecting ==> r == RecentlyEjected
    ensures !(recentlyEjected && usbStatus != Ejecting) ==> r == usbStatus
  {
    if recentlyEjected && usbStatus != Ejecting then RecentlyEjected else usbStatus
  }

  /** For any status the drive reports, "recently ejected" is displayed
      exactly when the flag is set and no eject is in progress. */
  lemma DisplayRecentlyEjectedIff(drives: Option<seq<Drive>>, recentlyEjected: bool)
    ensures DisplayUsbStatus(GetStatus(drives), recentlyEjected) == RecentlyEjected <==> recentlyEjected
  {
    GetStatusNeverTransient(drives);
  }

  /** Export is disabled while ballots await adjudication or before any
      batch exists. */
  function ExportDisabled(status: ScanStatus): bool {
    status.adjudication.remaining > 0 || |status.batches| == 0
  }

  const AdjudicationPendingTitle := "You cannot export results until all ballots have been adjudicated."
  const NoBallotsTitle := "You cannot export results until you have scanned at least 1 ballot."

  /** exportButtonTitle: present exactly when export is disabled, the
      adjudication message first. */
  function ExportButtonTitle(status: ScanStatus): (r: Option<string>)
    ensures r.Some? <==> ExportDisabled(status)
    ensures status.adjudication.remaining > 0 ==> r == Some(AdjudicationPendingTitle)
    ensures status.adjudication.remaining <= 0 && |status.batches| == 0 ==> r == Some(NoBallotsTitle)
  {
    if status.adjudication.remaining > 0 then Some(AdjudicationPendingTitle)
    else if |status.batches| == 0 then Some(NoBallotsTitle)
    else None
  }

  /** The eject screen is shown while ballots await adjudication and no
      scan is running. */
  function ShowEjectScreen(status: ScanStatus, isScanning: bool): bool {
    status.adjudication.remaining > 0 && !isScanning
  }

  /** The eject screen and an enabled export button never coincide. */
  lemma EjectScreenDisablesExport(status: ScanStatus, isScanning: bool)
    requires ShowEjectScreen(status, isScanning)
    ensures ExportDisabled(status) && ExportButtonTitle(status) == Some(AdjudicationPendingTitle)
  {
  }

  /** The dashboard's batches: those not being deleted, in order. */
  function VisibleBatches(batches: seq<Batch>, pendingDeleteBatchIds: seq<int>): (r: seq<Batch>)
    ensures IsSubsequence(r, batches)
    ensures forall i :: 0 <= i < |r| ==> r[i].id !in pendingDeleteBatchIds
    ensures forall i :: 0 <= i < |batches| && batches[i].id !in pendingDeleteBatchIds ==> batches[i] in r
  {
    var shown := (b: Batch) => b.id !in pendingDeleteBatchIds;
    FilterIsSubsequence(batches, shown);
    Filter(batches, shown)
  }

  /** `batches.reduce((prev, next) => prev + next.count, 0)`. */
  function CountFrom(batches: seq<Batch>, acc: int): int {
    if batches == [] then acc else CountFrom(batches[1..], acc + batches[0].count)
  }

  function ExportBallotCount(batches: seq<Batch>): int {
    CountFrom(batches, 0)
  }

  /** The batch counts, summed from the right. */
  function TotalCount(batches: seq<Batch>): int {
    if batches == [] then 0 else batches[0].count + TotalCount(batches[1..])
  }

  lemma {:induction false} CountFromIsTotal(batches: seq<Batch>, acc: int)
    ensures CountFrom(batches, acc) == acc + TotalCount(batches)
  {
    if batches != [] {
      CountFromIsTotal(batches[1..], acc + batches[0].count);
    }
  }

  lemma {:induction false} TotalCountAppend(a: seq<Batch>, b: seq<Batch>)
    ensures TotalCount(a + b) == TotalCount(a) + TotalCount(b)
  {
    if a != [] {
      assert (a + b)[1..] == a[1..] + b;
      TotalCountAppend(a[1..], b);
    } else {
      assert a + b == b;
    }
  }

  /** The export count is the sum of the batch counts: adding a batch adds
      its count. */
  lemma ExportBallotCountAppend(batches: seq<Batch>, b: Batch)
    ensures ExportBallotCount(batches) == TotalCount(batches)
    ensures ExportBallotCount(batches + [b]) == ExportBallotCount(batches) + b.count
  {
    CountFromIsTotal(batches, 0);
    CountFromIsTotal(batches + [b], 0);
    TotalCountAppend(batches, [b]);
  }

  class App {
    var usbStatus: UsbDriveStatus
    var recentlyEjected: bool
    var status: ScanStatus
    var electionHash: Option<string>
    var isScanning: bool
    var pendingDeleteBatchIds: seq<int>
    var election: Option<BsdElection>
    var loadingElection: bool
    var electionJustLoaded: bool

    constructor()
      ensures usbStatus == Absent && !recentlyEjected && status == InitialScanStatus && electionHash.None?
      ensures !isScanning && pendingDeleteBatchIds == [] && election.None? && !loadingElection && !electionJustLoaded
    {
      usbStatus := Absent;
      recentlyEjected := false;
      status := InitialScanStatus;
      electionHash := None;
      isScanning := false;
      pendingDeleteBatchIds := [];
      election := None;
      loadingElection := false;
      electionJustLoaded := false;
    }

    function Display(): UsbDriveStatus
      reads this
    {
      DisplayUsbStatus(usbStatus, recentlyEjected)
    }

    /** doEject: status `ejecting`, the flag set, then an unmount; the
        flush delay is returned. */
    method DoEject(kiosk: Kiosk) returns (delayMs: nat)
      modifies this, kiosk
      ensures usbStatus == Ejecting && recentlyEjected
      ensures Display() == Ejecting
      ensures kiosk.drives == old(kiosk.drives)
      ensures GetStatus(kiosk.drives) == Mounted ==>
        kiosk.commands == old(kiosk.commands) + [UnmountCommand(GetDevice(kiosk.drives).value.deviceName)] && delayMs == FlushIoDelayMs
      ensures GetStatus(kiosk.drives) != Mounted ==> kiosk.commands == old(kiosk.commands) && delayMs == 0
      ensures status == old(status) && electionHash == old(electionHash) && isScanning == old(isScanning)
      ensures pendingDeleteBatchIds == old(pendingDeleteBatchIds) && election == old(election)
      ensures loadingElection == old(loadingElection) && electionJustLoaded == old(electionJustLoaded)
    {
      usbStatus := Ejecting;
      recentlyEjected := true;
      CommandsMatchStatus(kiosk.drives);
      delayMs := kiosk.DoUnmount();
    }

    /** One USB poll: record the drive's status; a present drive is mounted
        unless it was recently ejected; any other status clears the flag. */
    method PollUsb(kiosk: Kiosk)
      modifies this, kiosk
      ensures usbStatus == GetStatus(kiosk.drives) && kiosk.drives == old(kiosk.drives)
      ensures usbStatus == Present ==> recentlyEjected == old(recentlyEjected)
      ensures usbStatus != Present ==> !recentlyEjected
      ensures usbStatus == Present && !old(recentlyEjected) ==>
        kiosk.commands == old(kiosk.commands) + [MountCommand(GetDevice(kiosk.drives).value.deviceName)]
      ensures !(usbStatus == Present && !old(recentlyEjected)) ==> kiosk.commands == old(kiosk.commands)
      ensures status == old(status) && electionHash == old(electionHash) && isScanning == old(isScanning)
      ensures pendingDeleteBatchIds == old(pendingDeleteBatchIds) && election == old(election)
      ensures loadingElection == old(loadingElection) && electionJustLoaded == old(electionJustLoaded)
    {
      var usbDriveStatus := kiosk.Status();
      usbStatus := usbDriveStatus;
      CommandsMatchStatus(kiosk.drives);
      if usbDriveStatus == Present {
        if !recentlyEjected {
          kiosk.DoMount();
        }
      } else {
        recentlyEjected := false;
      }
    }

    /** The effect that closes the "configured" screen once the drive shows
        as recently ejected. */
    method ClearElectionJustLoaded()
      modifies this
      ensures electionJustLoaded == (old(electionJustLoaded) && Display() != RecentlyEjected)
      ensures usbStatus == old(usbStatus) && recentlyEjected == old(recentlyEjected) && status == old(status)
      ensures electionHash == old(electionHash) && isScanning == old(isScanning)
      ensures pendingDeleteBatchIds == old(pendingDeleteBatchIds) && election == old(election)
      ensures loadingElection == old(loadingElection)
    {
      if electionJustLoaded && Display() == RecentlyEjected {
        electionJustLoaded := false;
      }
    }

    /** updateStatus with the fetched status, or the error the fetch threw.
        `isScanning` is recomputed only when the status differs from the
        previous one (statuses are compared as values, as their JSON texts
        are); a failed fetch clears it. */
    method UpdateStatus(fetched: Result<ScanStatus, string>)
      modifies this
      ensures fetched.Err? ==> !isScanning && status == old(status) && electionHash == old(electionHash)
      ensures fetched.Ok? ==> status == fetched.value && electionHash == fetched.value.electionHash
      ensures fetched.Ok? && fetched.value == old(status) ==> isScanning == old(isScanning)
      ensures fetched.Ok? && fetched.value != old(status) ==> (isScanning <==> ScanningIn(fetched.value))
      ensures usbStatus == old(usbStatus) && recentlyEjected == old(recentlyEjected)
      ensures pendingDeleteBatchIds == old(pendingDeleteBatchIds) && election == old(election)
      ensures loadingElection == old(loadingElection) && electionJustLoaded == old(electionJustLoaded)
    {
      if fetched.Err? {
        isScanning := false;
        return;
      }
      var newStatus := fetched.value;
      electionHash := newStatus.electionHash;
      if status != newStatus {
        isScanning := ScanningIn(newStatus);
        status := newStatus;
      }
    }

    /** scanBatch with the service's reply: its status, or the error the
        request threw (which is only logged). */
    method ScanBatch(reply: Result<string, string>)
      modifies this
      ensures isScanning <==> !(reply.Ok? && reply.value != "ok")
      ensures usbStatus == old(usbStatus) && recentlyEjected == old(recentlyEjected) && status == old(status)
      ensures electionHash == old(electionHash) && pendingDeleteBatchIds == old(pendingDeleteBatchIds)
      ensures election == old(election) && loadingElection == old(loadingElection) && electionJustLoaded == old(electionJustLoaded)
    {
      isScanning := true;
      if reply.Ok? && reply.value != "ok" {
        isScanning := false;
      }
    }

    /** continueScanning. */
    method ContinueScanning()
      modifies this
      ensures isScanning
      ensures usbStatus == old(usbStatus) && recentlyEjected == old(recentlyEjected) && status == old(status)
      ensures electionHash == old(electionHash) && pendingDeleteBatchIds == old(pendingDeleteBatchIds)
      ensures election == old(election) && loadingElection == old(loadingElection) && electionJustLoaded == old(electionJustLoaded)
    {
      isScanning := true;
    }

    /** The first half of deleteBatch, before the request: the id is
        appended to the pending list, which hides the batch. */
    method BeginDeleteBatch(id: int)
      modifies this
      ensures pendingDeleteBatchIds == old(pendingDeleteBatchIds) + [id]
      ensures forall i :: 0 <= i < |VisibleBatches(status.batches, pendingDeleteBatchIds)| ==>
        VisibleBatches(status.batches, pendingDeleteBatchIds)[i].id != id
      ensures usbStatus == old(usbStatus) && recentlyEjected == old(recentlyEjected) && status == old(status)
      ensures electionHash == old(electionHash) && isScanning == old(isScanning)
      ensures election == old(election) && loadingElection == old(loadingElection) && electionJustLoaded == old(electionJustLoaded)
    {
      pendingDeleteBatchIds := pendingDeleteBatchIds + [id];
    }

    /** The second half, after the request whatever its outcome: every
        occurrence of the id leaves the pending list, the rest stay in order. */
    method EndDeleteBatch(id: int)
      modifies this
      ensures pendingDeleteBatchIds == Filter(old(pendingDeleteBatchIds), (x: int) => x != id)
      ensures id !in pendingDeleteBatchIds
      ensures forall x :: x in old(pendingDeleteBatchIds) && x != id ==> x in pendingDeleteBatchIds
      ensures usbStatus == old(usbStatus) && recentlyEjected == old(recentlyEjected) && status == old(status)
      ensures electionHash == old(electionHash) && isScanning == old(isScanning)
      ensures election == old(election) && loadingElection == old(loadingElection) && electionJustLoaded == old(electionJustLoaded)
    {
      pendingDeleteBatchIds := Filter(pendingDeleteBatchIds, (x: int) => x != id);
    }

    /** processCardData: an admin card loads an election only when none is
        loaded, the card carries a long value and no load is running.
        `cardElection` is what reading the card's long value gave, or the
        error it threw, which leaves the load flag set. */
    method ProcessCardData(cardType: string, longValueExists: bool, cardElection: Result<Option<BsdElection>, string>)
      returns (r: Result<(), string>)
      modifies this
      ensures var loads := cardType == "admin" && old(election).None? && longValueExists && !old(loadingElection);
        && (!loads ==> r.Ok? && election == old(election) && loadingElection == old(loadingElection))
        && (loads && cardElection.Ok? ==> r.Ok? && election == cardElection.value && !loadingElection)
        && (loads && cardElection.Err? ==> r == Err(cardElection.error) && election == old(election) && loadingElection)
      ensures usbStatus == old(usbStatus) && recentlyEjected == old(recentlyEjected) && status == old(status)
      ensures electionHash == old(electionHash) && isScanning == old(isScanning)
      ensures pendingDeleteBatchIds == old(pendingDeleteBatchIds) && electionJustLoaded == old(electionJustLoaded)
    {
      if cardType == "admin" {
        if election.None? {
          if longValueExists && !loadingElection {
            loadingElection := true;
            if cardElection.Err? {
              return Err(cardElection.error);
            }
            election := cardElection.value;
            loadingElection := false;
          }
        }
      }
      r := Ok(());
    }
  }
}
