/**
 * The application shell: the notification list shown by the bell, the
 * session's list of materials already alerted for low stock, and the
 * materials subscription that raises one alert per low-stock material per
 * session.
 */
module App {
  import opened Common
  import opened Seqs
  import opened Materials

  datatype Kind = Success | Error

  /** The text of a notification; the low-stock alert names brand, name and stock. */
  datatype Message =
    | LowStockAlert(brand: string, name: string, stockInGrams: real)
    | Text(text: string)

  datatype Notification = Notification(message: Message, kind: Kind)

  /** The alert raised for a material. */
  function AlertFor(m: Material): Notification {
    Notification(LowStockAlert(m.brand, m.name, m.stockInGrams), Error)
  }

  /** The outcome of one pass over a snapshot: the alerted ids and the alerts raised, in order. */
  datatype Alerts = Alerts(notified: seq<DocId>, raised: seq<Notification>)

  /** The `forEach` over a snapshot, material after material. */
  function ScanSnapshot(notified: seq<DocId>, snapshot: seq<MaterialEntry>): Alerts {
    if snapshot == [] then Alerts(notified, [])
    else
      var before := ScanSnapshot(notified, snapshot[..|snapshot| - 1]);
      var e := snapshot[|snapshot| - 1];
      if IsLowStock(e.material) && e.id !in before.notified
      then Alerts(before.notified + [e.id], before.raised + [AlertFor(e.material)])
      else before
  }

  /** A material raises an alert exactly when it is low on stock and not yet alerted. */
  lemma ScanStep(notified: seq<DocId>, snapshot: seq<MaterialEntry>, e: MaterialEntry)
    ensures var before := ScanSnapshot(notified, snapshot);
            var after := ScanSnapshot(notified, snapshot + [e]);
            (IsLowStock(e.material) && e.id !in before.notified <==> |after.raised| == |before.raised| + 1)
            && (after.raised == before.raised || after.raised == before.raised + [AlertFor(e.material)])
  {
    assert (snapshot + [e])[..|snapshot|] == snapshot;
  }

  /**
   * The ids only grow, one id per alert; every low-stock material of the
   * snapshot ends up alerted; and a list without repeats stays so.
   */
  lemma {:induction false} ScanSnapshotProperties(notified: seq<DocId>, snapshot: seq<MaterialEntry>)
    ensures var r := ScanSnapshot(notified, snapshot);
            |r.notified| == |notified| + |r.raised| && r.notified[..|notified|] == notified
    ensures var r := ScanSnapshot(notified, snapshot);
            forall i :: 0 <= i < |snapshot| && IsLowStock(snapshot[i].material) ==> snapshot[i].id in r.notified
    ensures NoDup(notified) ==> NoDup(ScanSnapshot(notified, snapshot).notified)
  {
    if snapshot != [] {
      var p := snapshot[..|snapshot| - 1];
      ScanSnapshotProperties(notified, p);
      var before := ScanSnapshot(notified, p);
      var r := ScanSnapshot(notified, snapshot);
      assert r.notified[..|before.notified|] == before.notified;
      forall i | 0 <= i < |snapshot| && IsLowStock(snapshot[i].material) ensures snapshot[i].id in r.notified {
        if i < |p| {
          assert snapshot[i] == p[i] && p[i].id in before.notified;
        }
      }
    }
  }

  /** A second pass over the same snapshot raises nothing. */
  lemma RescanRaisesNothing(notified: seq<DocId>, snapshot: seq<MaterialEntry>)
    ensures var r := ScanSnapshot(notified, snapshot);
            ScanSnapshot(r.notified, snapshot).raised == []
  {
    var r := ScanSnapshot(notified, snapshot);
    ScanSnapshotProperties(notified, snapshot);
    RescanNoAlerts(r.notified, snapshot, |snapshot|);
    assert snapshot[..|snapshot|] == snapshot;
  }

  lemma {:induction false} RescanNoAlerts(notified: seq<DocId>, snapshot: seq<MaterialEntry>, n: nat)
    requires n <= |snapshot|
    requires forall i :: 0 <= i < |snapshot| && IsLowStock(snapshot[i].material) ==> snapshot[i].id in notified
    ensures ScanSnapshot(notified, snapshot[..n]) == Alerts(notified, [])
  {
    if n > 0 {
      RescanNoAlerts(notified, snapshot, n - 1);
      assert snapshot[..n][..n - 1] == snapshot[..n - 1];
    }
  }

  class NotificationCenter {
    /** The signed-in uid, if any. */
    var userId: Option<string>
    var userName: string
    var isLoading: bool
    var notifications: seq<Notification>
    /** `notifiedMaterialsRef`: ids alerted for low stock in this session. */
    var notified: seq<DocId>
    /** The last materials snapshot, handed to the other screens. */
    var materials: seq<MaterialEntry>

    constructor (saved: seq<Notification>)
      ensures userId == None && userName == "" && isLoading
      ensures notifications == saved && notified == [] && materials == []
    {
      userId := None;
      userName := "";
      isLoading := true;
      notifications := saved;
      notified := [];
      materials := [];
    }

    /** `onAuthStateChanged`: a sign-in starts a new alert session. */
    method OnAuthChanged(user: Option<string>, displayName: string)
      modifies this
      ensures userId == user && !isLoading
      ensures user.Some? ==> notified == [] && userName == (if displayName != "" then displayName else "Usuario")
      ensures user.None? ==> notified == old(notified) && userName == ""
      ensures notifications == old(notifications) && materials == old(materials)
    {
      userId := user;
      if user.Some? {
        userName := if displayName != "" then displayName else "Usuario";
        notified := [];
      } else {
        userName := "";
      }
      isLoading := false;
    }

    /** `addNotification`: append at the end. */
    method AddNotification(n: Notification)
      modifies this
      ensures notifications == old(notifications) + [n]
      ensures userId == old(userId) && userName == old(userName) && notified == old(notified) && materials == old(materials)
    {
      notifications := notifications + [n];
    }

    /** `clearNotifications`. */
    method ClearNotifications()
      modifies this
      ensures notifications == []
      ensures userId == old(userId) && userName == old(userName) && notified == old(notified) && materials == old(materials)
    {
      notifications := [];
    }

    /** The materials subscription callback; there is no subscription while signed out. */
    method OnMaterialsSnapshot(snapshot: seq<MaterialEntry>)
      modifies this
      ensures old(userId).None? ==> notifications == old(notifications) && notified == old(notified) && materials == old(materials)
      ensures old(userId).Some? ==>
                var r := ScanSnapshot(old(notified), snapshot);
                materials == snapshot && notified == r.notified && notifications == old(notifications) + r.raised
      ensures userId == old(userId) && userName == old(userName)
    {
      if userId.None? {
        return;
      }
      materials := snapshot;
      ghost var raised: seq<Notification> := [];
      ghost var start := notifications;
      var i := 0;
      while i < |snapshot|
        invariant 0 <= i <= |snapshot|
        invariant ScanSnapshot(old(notified), snapshot[..i]) == Alerts(notified, raised)
        invariant notifications == start + raised
        invariant userId == old(userId) && userName == old(userName) && materials == snapshot
      {
        var e := snapshot[i];
        assert snapshot[..i + 1][..i] == snapshot[..i];
        if IsLowStock(e.material) && e.id !in notified {
          AddNotification(AlertFor(e.material));
          raised := raised + [AlertFor(e.material)];
          notified := notified + [e.id];
        }
        i := i + 1;
      }
      assert snapshot[..|snapshot|] == snapshot;
    }
  }

  /** The alerted ids after a sign-in followed by a run of snapshots. */
  function SessionNotified(snapshots: seq<seq<MaterialEntry>>): seq<DocId> {
    if snapshots == [] then []
    else ScanSnapshot(SessionNotified(snapshots[..|snapshots| - 1]), snapshots[|snapshots| - 1]).notified
  }

  /** Within a session each material is alerted at most once: the session's id list never repeats. */
  lemma {:induction false} SessionAlertsOnce(snapshots: seq<seq<MaterialEntry>>)
    ensures NoDup(SessionNotified(snapshots))
  {
    if snapshots != [] {
      SessionAlertsOnce(snapshots[..|snapshots| - 1]);
      ScanSnapshotProperties(SessionNotified(snapshots[..|snapshots| - 1]), snapshots[|snapshots| - 1]);
    }
  }
}
