/**
 * The backend's request rules (backend/reciever.py): the detection
 * classifier behind POST /api/alert, the camera health mapping, the field
 * checks of the camera endpoints and the pagination offset. JSON bodies are
 * maps from keys to the few value shapes the handlers distinguish; the
 * database is an append-only table of alert rows.
 */
module Receiver {
  import opened Types

  /** A JSON value as far as the handlers look at it. */
  datatype Value = Text(s: string) | Labels(items: seq<string>) | Other

  /** A parsed JSON request body. */
  type Body = map<string, Value>

  /** Labels that count as a threat (backend/reciever.py:139-142). */
  const RelevantObjects: seq<string> := [
    "aggressor", "blood", "hand", "knife_deploy", "knife_weapon", "person",
    "stabbing", "victim", "handgun", "pistol", "rifle", "shotgun", "violence"
  ]

  /** Labels that make an alert high severity (backend/reciever.py:149). */
  const HighSeverityObjects: seq<string> := ["handgun", "pistol", "rifle", "shotgun", "violence"]

  /** Labels that make an alert a weapon alert (backend/reciever.py:152). */
  const WeaponObjects: seq<string> := ["handgun", "pistol", "rifle", "shotgun", "knife_weapon", "knife_deploy"]

  // ---------------------------------------------------------------------
  // Lower-casing and the threat filter
  // ---------------------------------------------------------------------

  function LowerChar(c: char): char
  {
    if 'A' <= c <= 'Z' then (c as int + 32) as char else c
  }

  /** Lower-casing of ASCII letters; every other character is kept. */
  function Lower(s: string): (r: string)
    ensures |r| == |s|
    ensures forall i :: 0 <= i < |s| ==> r[i] == LowerChar(s[i])
  {
    if s == [] then [] else [LowerChar(s[0])] + Lower(s[1..])
  }

  /** The lower-cased labels, in input order. */
  function LowerAll(detections: seq<string>): (r: seq<string>)
    ensures |r| == |detections|
    ensures forall i :: 0 <= i < |r| ==> r[i] == Lower(detections[i])
  {
    if detections == [] then [] else [Lower(detections[0])] + LowerAll(detections[1..])
  }

  /**
   * The list comprehension that keeps the lower-cased labels found in the
   * whitelist (backend/reciever.py:144).
   */
  function DetectedThreats(detections: seq<string>): (r: seq<string>)
    ensures |r| <= |detections|
    ensures forall t :: t in r ==> t in RelevantObjects
  {
    if detections == [] then []
    else
      var o := Lower(detections[0]);
      if o in RelevantObjects then [o] + DetectedThreats(detections[1..]) else DetectedThreats(detections[1..])
  }

  /** The filter works label by label: it distributes over concatenation, so input order is kept. */
  lemma {:induction false} DetectedThreatsAppend(a: seq<string>, b: seq<string>)
    ensures DetectedThreats(a + b) == DetectedThreats(a) + DetectedThreats(b)
  {
    if a == [] {
      assert a + b == b;
    } else {
      assert (a + b)[0] == a[0];
      assert (a + b)[1..] == a[1..] + b;
      DetectedThreatsAppend(a[1..], b);
    }
  }

  /** The result keeps exactly the lower-cased labels in the whitelist, duplicates included, in input order. */
  lemma {:induction false} DetectedThreatsExact(detections: seq<string>, t: string)
    ensures Count(DetectedThreats(detections), t) == (if t in RelevantObjects then Count(LowerAll(detections), t) else 0)
    ensures IsSubsequence(DetectedThreats(detections), LowerAll(detections))
  {
    if detections != [] {
      DetectedThreatsExact(detections[1..], t);
      var o := Lower(detections[0]);
      var rest := DetectedThreats(detections[1..]);
      assert LowerAll(detections) == [o] + LowerAll(detections[1..]);
      assert ([o] + LowerAll(detections[1..]))[1..] == LowerAll(detections[1..]);
      if o in RelevantObjects {
        assert DetectedThreats(detections) == [o] + rest;
        assert ([o] + rest)[1..] == rest;
      } else {
        assert DetectedThreats(detections) == rest;
        SubsequenceSkip(rest, o, LowerAll(detections[1..]));
      }
    }
  }

  lemma SubsequenceSkip<T>(a: seq<T>, x: T, b: seq<T>)
    requires IsSubsequence(a, b)
    ensures IsSubsequence(a, [x] + b)
  {
    assert ([x] + b)[1..] == b;
  }

  /** Any `any(obj in found for obj in keys)` test of the handler. */
  function AnyIn(keys: seq<string>, found: seq<string>): (r: bool)
    ensures r <==> exists k :: k in keys && k in found
  {
    if keys == [] then false else keys[0] in found || AnyIn(keys[1..], found)
  }

  /** Severity of a non-empty threat list (backend/reciever.py:149). */
  function AlertSeverity(threats: seq<string>): (r: Severity)
    ensures r == High <==> exists k :: k in HighSeverityObjects && k in threats
    ensures r == Medium <==> forall k :: k in HighSeverityObjects ==> k !in threats
    ensures r != Low
  {
    if AnyIn(HighSeverityObjects, threats) then High else Medium
  }

  datatype AlertType = Weapon | Threat

  /** Alert type of a non-empty threat list (backend/reciever.py:152-155). */
  function AlertKind(threats: seq<string>): (r: AlertType)
    ensures r == Weapon <==> exists k :: k in WeaponObjects && k in threats
  {
    if AnyIn(WeaponObjects, threats) then Weapon else Threat
  }

  // The two examples below pin their input with a `requires` instead of
  // writing the literal in the `ensures`, which keeps the solver from
  // unfolding the recursive definitions on the literal itself.

  /** The two keyword sets overlap without either containing the other: `violence` alone is high but not a weapon. */
  lemma ViolenceAloneIsHighThreat(threats: seq<string>)
    requires threats == ["violence"]
    ensures AlertSeverity(threats) == High && AlertKind(threats) == Threat
  {
    assert "violence" in HighSeverityObjects;
  }

  /** ... and `knife_weapon` alone is a weapon but only medium. */
  lemma KnifeWeaponAloneIsMediumWeapon(threats: seq<string>)
    requires threats == ["knife_weapon"]
    ensures AlertSeverity(threats) == Medium && AlertKind(threats) == Weapon
  {
    assert "knife_weapon" in WeaponObjects;
  }

  // ---------------------------------------------------------------------
  // The stored message and its inverse
  // ---------------------------------------------------------------------

  /** Python's `", ".join(items)`: of comma-free items, one fewer separator than items. */
  function Join(items: seq<string>): (r: string)
    ensures (forall t :: t in items ==> ',' !in t) ==> Count(r, ',') == if items == [] then 0 else |items| - 1
  {
    if |items| == 0 then ""
    else if |items| == 1 then items[0]
    else
      var tail := Join(items[1..]);
      CountAppend(items[0], ", ", ',');
      CountAppend(items[0] + ", ", tail, ',');
      items[0] + ", " + tail
  }

  const MessagePrefix: string := "Detected: "

  /** Text stored in the alerts table (backend/reciever.py:164). */
  function AlertMessage(threats: seq<string>): (m: string)
    ensures |m| >= |MessagePrefix| && m[..|MessagePrefix|] == MessagePrefix
  {
    MessagePrefix + Join(threats)
  }

  /** Splits on ", ": the reader of the stored message. */
  function SplitItems(s: string): (r: seq<string>)
    ensures |r| >= 1
    decreases |s|
  {
    if s == [] then [""]
    else if |s| >= 2 && s[0] == ',' && s[1] == ' ' then [""] + SplitItems(s[2..])
    else
      var rest := SplitItems(s[1..]);
      [[s[0]] + rest[0]] + rest[1..]
  }

  /** Recovers the threat list from a stored message, if it has the prefix. */
  function ParseMessage(m: string): Option<seq<string>>
  {
    if |m| >= |MessagePrefix| && m[..|MessagePrefix|] == MessagePrefix
    then Some(SplitItems(m[|MessagePrefix|..]))
    else None
  }

  lemma {:induction false} SplitItemsPrefix(x: string, s: string)
    requires ',' !in x
    ensures SplitItems(x + s) == [x + SplitItems(s)[0]] + SplitItems(s)[1..]
    decreases |x|
  {
    if x == [] {
      var r := SplitItems(s);
      assert x + s == s && x + r[0] == r[0];
      assert r == [r[0]] + r[1..];
    } else {
      var xs := x + s;
      assert xs[0] == x[0] && xs[0] != ',';
      assert xs[1..] == x[1..] + s;
      SplitItemsPrefix(x[1..], s);
      assert [x[0]] + (x[1..] + SplitItems(s)[0]) == x + SplitItems(s)[0];
    }
  }

  /** Joining comma-free items and splitting again gives the items back. */
  lemma {:induction false} SplitJoin(items: seq<string>)
    requires |items| >= 1
    requires forall t :: t in items ==> ',' !in t
    ensures SplitItems(Join(items)) == items
  {
    if |items| == 1 {
      SplitItemsPrefix(items[0], "");
      assert items[0] + "" == items[0];
    } else {
      var tail := Join(items[1..]);
      SplitJoin(items[1..]);
      var sep := ", " + tail;
      assert SplitItems(sep) == [""] + SplitItems(tail) by {
        assert sep[2..] == tail;
      }
      assert Join(items) == items[0] + sep;
      SplitItemsPrefix(items[0], sep);
      calc {
        SplitItems(Join(items));
        SplitItems(items[0] + sep);
        [items[0] + SplitItems(sep)[0]] + SplitItems(sep)[1..];
        { assert SplitItems(sep)[0] == "" && SplitItems(sep)[1..] == items[1..]; }
        [items[0] + ""] + items[1..];
        { assert items[0] + "" == items[0]; }
        items;
      }
    }
  }

  lemma WhitelistCommaFree()
    ensures forall t :: t in RelevantObjects ==> ',' !in t
  {
  }

  /** The stored message of any alert names exactly the detected threats, in order. */
  lemma {:induction false} MessageRoundTrip(threats: seq<string>)
    requires threats != []
    requires forall t :: t in threats ==> t in RelevantObjects
    ensures ParseMessage(AlertMessage(threats)) == Some(threats)
  {
    WhitelistCommaFree();
    SplitJoin(threats);
    var m := AlertMessage(threats);
    assert m[|MessagePrefix|..] == Join(threats);
  }

  // ---------------------------------------------------------------------
  // POST /api/alert
  // ---------------------------------------------------------------------

  /** A row of the alerts table; its id is assigned by the database. */
  datatype AlertRow = AlertRow(message: string, severity: Severity, alertType: AlertType, timestamp: string)

  datatype AddAlertReply =
    | BadRequest(error: string)
    | NoThreats
    | AlertAdded(detections: seq<string>, row: AlertRow)
    | ServerError(error: string)
  {
    function StatusCode(): int
    {
      match this
      case BadRequest(_) => 400
      case NoThreats => 200
      case AlertAdded(_, _) => 201
      case ServerError(_) => 500
    }
  }

  /**
   * What the handler decides before touching the database
   * (backend/reciever.py:130-157, 164).
   */
  function ClassifyAlert(body: Body, timestamp: string): (r: AddAlertReply)
    ensures "detections" !in body ==> r == BadRequest("Detections are required")
    ensures "detections" in body && !body["detections"].Labels? ==> r == BadRequest("Detections should be a list")
    ensures r.BadRequest? <==> "detections" !in body || !body["detections"].Labels?
    ensures r.NoThreats? <==> "detections" in body && body["detections"].Labels? && DetectedThreats(body["detections"].items) == []
    ensures r.AlertAdded? <==> "detections" in body && body["detections"].Labels? && DetectedThreats(body["detections"].items) != []
    ensures r.AlertAdded? ==>
      && r.detections == DetectedThreats(body["detections"].items)
      && r.row.message == AlertMessage(r.detections)
      && ParseMessage(r.row.message) == Some(r.detections)
      && r.row.severity == AlertSeverity(r.detections)
      && r.row.alertType == AlertKind(r.detections)
      && r.row.timestamp == timestamp
    ensures !r.ServerError?
  {
    if "detections" !in body then BadRequest("Detections are required")
    else if !body["detections"].Labels? then BadRequest("Detections should be a list")
    else
      var threats := DetectedThreats(body["detections"].items);
      if threats == [] then NoThreats
      else
        MessageRoundTrip(threats);
        AlertAdded(threats, AlertRow(AlertMessage(threats), AlertSeverity(threats), AlertKind(threats), timestamp))
  }

  /** The alerts table: rows are only ever appended. */
  class AlertTable {
    var rows: seq<AlertRow>

    /** A freshly created table (backend/reciever.py:28-36); a database file left by an earlier run is not modelled. */
    constructor ()
      ensures rows == []
    {
      rows := [];
    }

    /**
     * POST /api/alert. The clock reading is a parameter, and so is the
     * outcome of the insert (None when it succeeds, the error text when the
     * database raises).
     */
    method PostAlert(body: Body, timestamp: string, insertFault: Option<string>) returns (reply: AddAlertReply)
      modifies this
      ensures var decided := ClassifyAlert(body, timestamp);
        reply == (if decided.AlertAdded? && insertFault.Some? then ServerError(insertFault.value) else decided)
      ensures rows == (if reply.AlertAdded? then old(rows) + [reply.row] else old(rows))
      ensures |rows| == |old(rows)| + (if reply.StatusCode() == 201 then 1 else 0)
    {
      reply := ClassifyAlert(body, timestamp);
      if reply.AlertAdded? {
        if insertFault.Some? {
          reply := ServerError(insertFault.value);
        } else {
          rows := rows + [reply.row];
        }
      }
    }
  }

  // ---------------------------------------------------------------------
  // Camera health, camera endpoints, pagination
  // ---------------------------------------------------------------------

  /** Outcome of the health request: an HTTP status code, or an exception raised by the client. */
  datatype HttpOutcome = Responded(statusCode: int) | RequestRaised

  datatype Health = HealthOnline | HealthUnreachable | HealthOffline

  /** backend/reciever.py:43-50 */
  function CheckCameraHealth(outcome: HttpOutcome): (h: Health)
    ensures h == HealthOnline <==> outcome == Responded(200)
    ensures h == HealthUnreachable <==> outcome.Responded? && outcome.statusCode != 200
    ensures h == HealthOffline <==> outcome == RequestRaised
  {
    match outcome
    case Responded(code) => if code == 200 then HealthOnline else HealthUnreachable
    case RequestRaised => HealthOffline
  }

  /** The camera fields the endpoints know, in the order the handlers list them. */
  const CameraFields: seq<string> := ["name", "streamUrl", "location"]

  /** The `(key, value)` pairs in `order` whose key is present in the body, in that order. */
  function PickFields(order: seq<string>, body: Body): (u: seq<(string, Value)>)
    ensures |u| <= |order|
    ensures forall p :: p in u ==> p.0 in order && p.0 in body && p.1 == body[p.0]
    ensures forall k :: k in order && k in body ==> (k, body[k]) in u
  {
    if order == [] then []
    else if order[0] in body then [(order[0], body[order[0]])] + PickFields(order[1..], body)
    else PickFields(order[1..], body)
  }

  datatype UpdateReply = NoValidFields | ApplyUpdates(updates: seq<(string, Value)>)

  /** The field selection of PUT /api/cameras/<id> (backend/reciever.py:99-103). */
  function UpdateCamera(body: Body): (r: UpdateReply)
    ensures r.NoValidFields? <==> forall k :: k in CameraFields ==> k !in body
    ensures r.ApplyUpdates? ==> r.updates != [] && r.updates == PickFields(CameraFields, body)
  {
    var updates := PickFields(CameraFields, body);
    if updates == [] then NoValidFields
    else
      assert updates[0] in updates;
      ApplyUpdates(updates)
  }

  /** Every update key is a camera field present in the body; keys outside the three fields are dropped. */
  lemma UpdateKeysAreCameraFields(body: Body, key: string, v: Value)
    requires UpdateCamera(body).ApplyUpdates?
    ensures (key, v) in UpdateCamera(body).updates <==> key in CameraFields && key in body && v == body[key]
  {
  }

  /** Python's `all(key in data for key in keys)`. */
  function AllPresent(keys: seq<string>, body: Body): (r: bool)
    ensures r <==> forall k :: k in keys ==> k in body
  {
    keys == [] || (keys[0] in body && AllPresent(keys[1..], body))
  }

  datatype AddCameraReply = MissingFields | CameraAccepted(name: Value, streamUrl: Value, location: Value)

  /** The required-field check of POST /api/cameras (backend/reciever.py:55-57, 64). */
  function AddCamera(body: Body): (r: AddCameraReply)
    ensures r.MissingFields? <==> exists k :: k in CameraFields && k !in body
    ensures r.CameraAccepted? ==> r == CameraAccepted(body["name"], body["streamUrl"], body["location"])
  {
    if AllPresent(CameraFields, body) then CameraAccepted(body["name"], body["streamUrl"], body["location"])
    else MissingFields
  }

  /** Row window of GET /api/cameras: `page` defaults to 1 and `per_page` to 10 (backend/reciever.py:74-76). */
  datatype Window = Window(limit: int, offset: int)

  function PageWindow(page: Option<int>, perPage: Option<int>): (w: Window)
    ensures page == None && perPage == None ==> w == Window(10, 0)
  {
    var p := if page.Some? then page.value else 1;
    var n := if perPage.Some? then perPage.value else 10;
    Window(n, (p - 1) * n)
  }

  /** Consecutive pages are adjacent windows of the same size: page p+1 starts where page p ends. */
  lemma PagesTile(page: int, perPage: int)
    ensures PageWindow(Some(page + 1), Some(perPage)).offset == PageWindow(Some(page), Some(perPage)).offset + perPage
    ensures PageWindow(Some(1), Some(perPage)).offset == 0
  {
  }
}
