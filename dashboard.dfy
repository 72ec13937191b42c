/**
 * The dashboard (frontend/src/pages/Dashboard.tsx): three counters over a
 * store snapshot, the five most recent alerts, and the camera name shown
 * beside each of them.
 */
module Dashboard {
  import opened Types
  import Incidents

  /** `cameras.filter(c => c.status === "online")` (frontend/src/pages/Dashboard.tsx:13). */
  function OnlineCameras(cameras: seq<Camera>): (r: seq<Camera>)
    ensures |r| <= |cameras|
    ensures forall c :: c in r ==> c in cameras && c.status == Online
  {
    if cameras == [] then []
    else if cameras[0].status == Online then [cameras[0]] + OnlineCameras(cameras[1..])
    else OnlineCameras(cameras[1..])
  }

  /** Every online camera is counted. */
  lemma {:induction false} OnlineCamerasComplete(cameras: seq<Camera>, c: Camera)
    requires c in cameras && c.status == Online
    ensures c in OnlineCameras(cameras)
  {
    if cameras[0] != c {
      OnlineCamerasComplete(cameras[1..], c);
    }
  }

  /**
   * The filter keeps every online camera as often as it occurs and drops
   * every other one, in list order, so the card's count is exact.
   */
  lemma {:induction false} OnlineCamerasExact(cameras: seq<Camera>, c: Camera)
    ensures Count(OnlineCameras(cameras), c) == (if c.status == Online then Count(cameras, c) else 0)
    ensures IsSubsequence(OnlineCameras(cameras), cameras)
  {
    if cameras != [] {
      OnlineCamerasExact(cameras[1..], c);
      var rest := OnlineCameras(cameras[1..]);
      if cameras[0].status == Online {
        assert ([cameras[0]] + rest)[1..] == rest;
      } else {
        assert cameras == [cameras[0]] + cameras[1..];
        assert IsSubsequence(rest, [cameras[0]] + cameras[1..]) by {
          assert ([cameras[0]] + cameras[1..])[1..] == cameras[1..];
        }
      }
    }
  }

  /** `alerts.filter(a => a.status === s).length`. */
  function CountWithStatus(alerts: seq<Alert>, s: AlertStatus): (n: nat)
    ensures n <= |alerts|
  {
    |Incidents.FilterAlerts(alerts, Incidents.OnlyStatus(s))|
  }

  /** A stat card: the counted value over the total. */
  datatype Stat = Stat(name: string, value: nat, total: nat)

  /** The three cards (frontend/src/pages/Dashboard.tsx:10-29). */
  function Stats(cameras: seq<Camera>, alerts: seq<Alert>): (r: seq<Stat>)
    ensures |r| == 3
    ensures r[0] == Stat("Active Cameras", |OnlineCameras(cameras)|, |cameras|)
    ensures r[1] == Stat("Open Alerts", CountWithStatus(alerts, New), |alerts|)
    ensures r[2] == Stat("Resolved Incidents", CountWithStatus(alerts, Resolved), |alerts|)
    ensures forall i :: 0 <= i < |r| ==> r[i].value <= r[i].total
  {
    [
      Stat("Active Cameras", |OnlineCameras(cameras)|, |cameras|),
      Stat("Open Alerts", CountWithStatus(alerts, New), |alerts|),
      Stat("Resolved Incidents", CountWithStatus(alerts, Resolved), |alerts|)
    ]
  }

  /** Open and resolved alerts are disjoint, so together they never exceed the total. */
  lemma {:induction false} OpenPlusResolvedAtMostTotal(alerts: seq<Alert>)
    ensures CountWithStatus(alerts, New) + CountWithStatus(alerts, Resolved) <= |alerts|
  {
    if alerts != [] {
      OpenPlusResolvedAtMostTotal(alerts[1..]);
    }
  }

  /** `alerts.slice(0, 5)` (frontend/src/pages/Dashboard.tsx:75). */
  function RecentAlerts(alerts: seq<Alert>): (r: seq<Alert>)
    ensures |r| == if |alerts| < 5 then |alerts| else 5
    ensures forall i :: 0 <= i < |r| ==> r[i] == alerts[i]
  {
    if |alerts| < 5 then alerts else alerts[..5]
  }

  /** Because alerts are prepended, a newly added alert heads the recent list and pushes the oldest of the five out. */
  lemma RecentAfterAdd(a: Alert, alerts: seq<Alert>)
    ensures RecentAlerts([a] + alerts) == [a] + RecentAlerts(alerts)[..if |alerts| < 4 then |alerts| else 4]
  {
    var r := RecentAlerts([a] + alerts);
    var k := if |alerts| < 4 then |alerts| else 4;
    assert |r| == k + 1;
    assert forall i :: 1 <= i < |r| ==> r[i] == alerts[i - 1];
  }

  /**
   * `cameras.find(c => c.id === alert.cameraId)`: the first camera with that
   * id; an alert without a camera id matches none (frontend/src/pages/Dashboard.tsx:83).
   */
  function FindCamera(cameras: seq<Camera>, cameraId: Option<string>): (r: Option<nat>)
    ensures r.None? <==> cameraId.None? || forall i :: 0 <= i < |cameras| ==> cameras[i].id != cameraId.value
    ensures r.Some? ==> r.value < |cameras| && cameraId.Some? && cameras[r.value].id == cameraId.value
    ensures r.Some? ==> forall j :: 0 <= j < r.value ==> cameras[j].id != cameraId.value
  {
    if cameraId.None? || cameras == [] then None
    else if cameras[0].id == cameraId.value then Some(0)
    else
      match FindCamera(cameras[1..], cameraId)
      case None => None
      case Some(i) => Some(i + 1)
  }

  /** The name shown on a recent alert's card, if a camera matches. */
  function CameraName(cameras: seq<Camera>, alert: Alert): (name: Option<string>)
    ensures name.Some? <==> exists c :: c in cameras && Some(c.id) == alert.cameraId
    ensures name.Some? ==>
      FindCamera(cameras, alert.cameraId).Some? && name.value == cameras[FindCamera(cameras, alert.cameraId).value].name
  {
    match FindCamera(cameras, alert.cameraId)
    case None => None
    case Some(i) => Some(cameras[i].name)
  }
}
