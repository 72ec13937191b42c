# AI crime-detection monitor — a Dafny model of its rules

This project models the rule sets of a camera-monitoring system: a Flask
backend that classifies detected object labels into alerts, and a React client
that polls an alert feed, keeps an in-memory incident store, polls camera
health and shows dashboard counters. Rendering, HTTP, SQL and timers are
abstracted away. Each network outcome and each clock reading is an input value.

Modules, one per source file:

- `Types` (types.dfy): the records of `src/types/index.ts`: alert status, severity, camera status, `Alert`, `Camera` and `User`. It also holds two sequence notions: order-preserving subsequence and occurrence count.
- `Receiver` (receiver.dfy): `backend/reciever.py`. It covers the threat filter, severity, alert type and stored message of `add_alert`, the outcome mapping of `check_camera_health`, the field checks of `add_camera` and `update_camera`, and the page window of `get_cameras`. The alerts table is an append-only class.
- `Store` (store.dfy): `src/store/index.ts`. The store is a class whose methods replace one field each. The new alert sequences are pure functions.
- `Incidents` (incidents.dfy): `src/pages/Incidents.tsx`. It covers the feed-message→alert rule, the tick applied to the store, the status filter and the first-underscore display label.
- `LiveView` (live_view.dfy): `frontend/src/pages/LiveView.tsx`. It covers the camera list and the `cameraId → string` status map. Probe results are applied one by one in arrival order.
- `Dashboard` (dashboard.dfy): `frontend/src/pages/Dashboard.tsx`. It covers the three counters, the recent-alerts slice and the camera-name lookup.

Facts about the code that the model follows:

- The client's alert rule is an exact comparison with `"Cell phone detected!"`. Every alert it creates is `high`.
- A failed camera probe writes the empty string, so the badge shows nothing.
- The client's health request is sent without a timeout.
- Alerts created by the poller carry a numeric id, type `cell_phone_detected` and no camera id. All three lie outside the declared `Alert` type. The model gives ids a datatype (`NumId | TextId`), so JavaScript's strict `===` becomes datatype equality.

Observations the model makes explicit:

- No store operation ever writes `cameras`. Every method of `Store.AppStore` ensures it is unchanged, so in the model, where the dashboard reads the store of `src/store/index.ts`, the "Active Cameras" card stays 0/0 from the initial state. The dashboard's own store module, `frontend/src/store`, is not part of this model.
- Poller-created alerts have no `cameraId`, so `Dashboard.CameraName` gives no name for them.

## Model

| member | source | states |
|---|---|---|
| `Receiver.Lower` | backend/reciever.py:144 | lower-casing keeps the length and maps each character independently |
| `Receiver.DetectedThreats` | backend/reciever.py:144 | the threat list is no longer than the input and every element is in the 13-label whitelist |
| `Receiver.DetectedThreatsAppend` | backend/reciever.py:144 | the filter distributes over concatenation, so each label is judged on its own and input order is kept |
| `Receiver.DetectedThreatsExact` | backend/reciever.py:139-144 | each whitelisted label occurs in the result exactly as often as its lower-cased form occurs in the input, other labels never; the result is an order-preserving subsequence of the lower-cased input |
| `Receiver.AnyIn` | backend/reciever.py:149-152 | `any(k in found for k in keys)` holds iff some keyword is among the found labels |
| `Receiver.AlertSeverity` | backend/reciever.py:149 | severity is high iff a threat is one of handgun, pistol, rifle, shotgun, violence, otherwise medium; never low |
| `Receiver.AlertKind` | backend/reciever.py:151-155 | the type is weapon iff a threat is one of handgun, pistol, rifle, shotgun, knife_weapon, knife_deploy, otherwise threat |
| `Receiver.ViolenceAloneIsHighThreat` | backend/reciever.py:149-155 | `violence` alone gives severity high and type threat |
| `Receiver.KnifeWeaponAloneIsMediumWeapon` | backend/reciever.py:149-155 | `knife_weapon` alone gives severity medium and type weapon |
| `Receiver.Join` | backend/reciever.py:164 | a `", "`-join of comma-free items holds one comma fewer than there are items |
| `Receiver.AlertMessage` | backend/reciever.py:164 | the stored message starts with `Detected: ` |
| `Receiver.SplitJoin` | backend/reciever.py:164 | splitting a `", "`-join of comma-free labels on `", "` gives the labels back |
| `Receiver.MessageRoundTrip` | backend/reciever.py:164 | the stored message of any non-empty whitelisted threat list parses back to exactly that list, in order |
| `Receiver.ClassifyAlert` | backend/reciever.py:130-157 | 400 iff `detections` is missing or not a list, each case with its own error; "No threats detected" iff it is a list and no label survives; 201-bound iff some label survives, and then the reply carries exactly the surviving threats, the stored message is `Detected: ` with them joined and parses back to them, and severity, type and timestamp come from the rules above; never 500 before the insert |
| `Receiver.AlertTable.constructor` | backend/reciever.py:28-36 | a freshly created alerts table holds no rows |
| `Receiver.AlertTable.PostAlert` | backend/reciever.py:159-174 | exactly one row, the reply's row, is appended iff the reply's status code is 201; a 400, a 200 or a failing insert (500) leaves the table unchanged |
| `Receiver.CheckCameraHealth` | backend/reciever.py:43-50 | `online` iff the response status is 200, `unreachable` iff there is a response with another code, `offline` iff the request raised |
| `Receiver.PickFields` | backend/reciever.py:100 | the selected pairs are exactly the listed fields present in the body, with the body's values |
| `Receiver.UpdateCamera` | backend/reciever.py:99-103 | 400 "No valid fields" iff none of name, streamUrl, location is in the body; otherwise the non-empty selection in that field order |
| `Receiver.UpdateKeysAreCameraFields` | backend/reciever.py:100 | a pair is an update iff its key is one of the three fields, present in the body, with the body's value |
| `Receiver.AllPresent` | backend/reciever.py:56 | `all(key in data ...)` holds iff every required key is in the body |
| `Receiver.AddCamera` | backend/reciever.py:55-57 | the camera is rejected iff one of name, streamUrl, location is missing; otherwise the row takes the three body values |
| `Receiver.PageWindow` | backend/reciever.py:74-76 | without query arguments the window is 10 rows at offset 0 |
| `Receiver.PagesTile` | backend/reciever.py:76 | page 1 starts at offset 0 and page p+1 starts `per_page` rows after page p |
| `Store.WithStatus` | src/store/index.ts:21-23 | the status update keeps the number of alerts |
| `Store.WithStatusAt` | src/store/index.ts:21-23 | at every position a matching alert gets the new status with all other fields kept, and any other alert is untouched |
| `Store.WithStatusEverywhere` | src/store/index.ts:21-23 | the same, for all positions at once |
| `Store.WithStatusKeepsOrder` | src/store/index.ts:19-24 | the update keeps the length and the id at every position |
| `Store.UnknownIdIsNoOp` | src/store/index.ts:21-23 | an id no alert carries leaves the sequence unchanged |
| `Store.WithStatusIdempotent` | src/store/index.ts:19-24 | applying the same update twice equals applying it once |
| `Store.AfterAddsIsNewestFirst` | src/store/index.ts:18 | a run of `addAlert` calls yields the added alerts reversed, in front of the old sequence |
| `Store.ThreeInsertions` | src/store/index.ts:18 | adding A, B, C to the empty store gives [C, B, A] |
| `Store.AppStore.constructor` | src/store/index.ts:14-16 | the initial state has no user and empty cameras and alerts |
| `Store.AppStore.SetUser` | src/store/index.ts:17 | only `user` changes |
| `Store.AppStore.AddAlert` | src/store/index.ts:18 | the alert is prepended: length grows by one, the old sequence is the tail, nothing else changes |
| `Store.AppStore.UpdateAlertStatus` | src/store/index.ts:19-24 | `alerts` becomes the status update of the old sequence, with the same length; user and cameras are unchanged |
| `Incidents.CellPhoneAlert` | src/pages/Incidents.tsx:18-24 | the created alert has the clock's numeric id and ISO time, type `cell_phone_detected`, severity high, status new and no camera |
| `Incidents.IncomingAlert` | src/pages/Incidents.tsx:15-27 | an alert is produced iff the fetch succeeded and the message is exactly "Cell phone detected!"; it has type `cell_phone_detected`, severity high, status new, the clock's id and time and no camera |
| `Incidents.OnlyTheExactMessageMatches` | src/pages/Incidents.tsx:16 | "Gun detected!", "No threat detected" and the message with a trailing space add nothing |
| `Incidents.PollTick` | src/pages/Incidents.tsx:12-28 | a tick prepends the produced alert, or leaves the store unchanged on any other message or a failed fetch |
| `Incidents.TickAlerts` | src/pages/Incidents.tsx:15-25 | one tick adds exactly one alert iff its fetch carried the exact message, and that alert is the cell-phone alert of the tick's clock readings; otherwise none |
| `Incidents.AfterTicks` | src/pages/Incidents.tsx:12-28 | a run of ticks never removes alerts and adds at most one per tick |
| `Incidents.PollTicks` | src/pages/Incidents.tsx:12-28 | firing the timer once per tick leaves the store's alerts equal to the run function `AfterTicks` of the old alerts; user and cameras are unchanged |
| `Incidents.EveryMatchingTickAddsOne` | src/pages/Incidents.tsx:12-25 | after a run of ticks the store has grown by exactly the number of matching ticks, with no deduplication |
| `Incidents.TicksKeepOlderAlerts` | src/pages/Incidents.tsx:12-25 | ticks only prepend: the earlier alerts remain, in order, as the tail |
| `Incidents.FilterAlerts` | src/pages/Incidents.tsx:33-35 | the filtered list is no longer than the store's and holds only alerts of the store that pass the filter |
| `Incidents.FilterAllIsIdentity` | src/pages/Incidents.tsx:33-35 | with filter "all" the list is the store sequence |
| `Incidents.FilterIsExact` | src/pages/Incidents.tsx:33-35 | every passing alert is kept as often as it occurs, every other one is dropped, as an order-preserving subsequence |
| `Incidents.ReplaceFirst` | src/pages/Incidents.tsx:87 | the replacement keeps the length |
| `Incidents.ReplaceFirstCount` | src/pages/Incidents.tsx:87 | exactly one occurrence of the character disappears, unless there is none |
| `Incidents.ReplaceFirstAbsent` | src/pages/Incidents.tsx:87 | a string without the character is unchanged |
| `Incidents.ReplaceFirstAt` | src/pages/Incidents.tsx:87 | only the first occurrence is replaced; everything before and after it is kept |
| `Incidents.DisplayLabel` | src/pages/Incidents.tsx:87-105 | the label keeps the length, has exactly one underscore fewer than the value when it has one, and is the value itself when it has none |
| `Incidents.DisplayedType` | src/pages/Incidents.tsx:87 | `cell_phone_detected` is shown as `cell phone_detected` |
| `Incidents.DisplayedStatus` | src/pages/Incidents.tsx:105 | `false_positive` is shown as `false positive` |
| `LiveView.WrittenValue` | frontend/src/pages/LiveView.tsx:35-40 | a success writes the response's `camera_status`, a failure writes `""` |
| `LiveView.ApplyCompletion` | frontend/src/pages/LiveView.tsx:35-40 | a result sets its own camera's entry and keeps every other entry |
| `LiveView.ApplyAll` | frontend/src/pages/LiveView.tsx:32-42 | results applied in arrival order never drop an entry, and the last arrival's value is the entry of its camera |
| `LiveView.LastWriterWins` | frontend/src/pages/LiveView.tsx:35-40 | after a run of results, a camera's entry is the value of its latest result; without a result it is as before, present or absent |
| `LiveView.ApplyAllKeys` | frontend/src/pages/LiveView.tsx:35-40 | the keys afterwards are the old keys plus one per reporting camera |
| `LiveView.CycleCoversCameras` | frontend/src/pages/LiveView.tsx:32-41 | when every listed camera has reported, every listed camera has an entry |
| `LiveView.ShowsOnline` | frontend/src/pages/LiveView.tsx:115-119 | the badge shows only for a camera with an entry, and never for the failure value `""`, for `offline`, `unreachable` or a differently cased `Online` |
| `LiveView.BadgeAfterCycle` | frontend/src/pages/LiveView.tsx:115-119 | the Online badge shows iff the camera's latest result was a success with exactly "online"; a failure or any other value shows nothing |
| `LiveView.LiveViewState.constructor` | frontend/src/pages/LiveView.tsx:7-12 | the camera list and the status map start empty |
| `LiveView.LiveViewState.FetchCameras` | frontend/src/pages/LiveView.tsx:17-24 | a successful fetch replaces the camera list, a failed one leaves it unchanged; statuses are untouched |
| `LiveView.LiveViewState.ProbeRequests` | frontend/src/pages/LiveView.tsx:31-34 | one request per listed camera, in list order, to its `/api/health` address |
| `LiveView.LiveViewState.ApplyProbe` | frontend/src/pages/LiveView.tsx:35-40 | one result updates the status map by the rule above and leaves the camera list alone |
| `LiveView.LiveViewState.ApplyProbes` | frontend/src/pages/LiveView.tsx:32-42 | results applied in arrival order give the folded status map |
| `Dashboard.OnlineCameras` | frontend/src/pages/Dashboard.tsx:13 | the counted cameras are online cameras of the list, no more than the total |
| `Dashboard.OnlineCamerasComplete` | frontend/src/pages/Dashboard.tsx:13 | every online camera is counted |
| `Dashboard.OnlineCamerasExact` | frontend/src/pages/Dashboard.tsx:13 | every online camera is kept as often as it occurs and every other camera is dropped, as an order-preserving subsequence, so the "Active Cameras" value is exact |
| `Dashboard.CountWithStatus` | frontend/src/pages/Dashboard.tsx:19-26 | a status count is at most the number of alerts |
| `Dashboard.Stats` | frontend/src/pages/Dashboard.tsx:10-29 | the three cards count online cameras, `new` alerts and `resolved` alerts, and each value is at most its total |
| `Dashboard.OpenPlusResolvedAtMostTotal` | frontend/src/pages/Dashboard.tsx:19-26 | open plus resolved alerts never exceed the total, because the two statuses are disjoint |
| `Dashboard.RecentAlerts` | frontend/src/pages/Dashboard.tsx:75 | the recent list is the first min(5, n) alerts in store order |
| `Dashboard.RecentAfterAdd` | frontend/src/pages/Dashboard.tsx:75 | a newly added alert heads the recent list, followed by the four (or fewer) previous newest |
| `Dashboard.FindCamera` | frontend/src/pages/Dashboard.tsx:83 | the result is the first camera whose id equals the alert's camera id; there is none iff the alert has no camera id or no camera matches |
| `Dashboard.CameraName` | frontend/src/pages/Dashboard.tsx:83 | a name is shown iff some camera's id equals the alert's camera id, and it is the name of the first such camera |

## Left out

- Flask routing, CORS, SQLite and the database schema set-up. Persistence is modelled only as the append-only alerts table. Camera rows are not stored; `add_camera` and `update_camera` are modelled up to the values they would write.
- The per-key `UPDATE` loop of `update_camera` is not modelled. It names the column `streamUrl` while the table's column is `stream_url`, so any update that includes `streamUrl` would make SQLite raise. The handler would then answer 500 after rolling back.
- `get_cameras`: the `LIMIT`/`OFFSET` query and the per-row health probe are SQL and network I/O. Conversion of the query arguments with `int()`, which raises on non-numeric text, is also left out.
- `get_alerts` and `delete_camera` are pure SQL.
- Receiver.Lower: only ASCII letters are lower-cased. Python's `str.lower` also folds other Unicode letters, some of them to ASCII (the Kelvin sign becomes `k`).
- Detection labels that are not strings are not modelled. `.lower()` raises on them. A body that is not JSON at all is also left out.
- JSON bodies that are valid but not objects (`null`, a boolean, a number, an array, a string) are not modelled: `Receiver.Body` is a map. `null`, booleans and numbers make the first key test raise (backend/reciever.py:56, 100, 131), and Flask answers 500. Arrays and strings pass the key test as a membership or substring test, so they get the handler's own 400 (backend/reciever.py:56-57, 100-103, 131-132) unless they contain the key text. Then the lookup raises: at lines 100 and 134 Flask answers 500, and at line 64 the lookup sits inside the handler's `try`, which answers 500 itself.
- The HTTP requests (`requests.get` with its 3-second timeout, `fetch`, `axios.get`) are inputs: a status code or a raised exception, a fetched body or a failure.
- The timers are left out: `setInterval`, `clearInterval`, the 1 s and 10 s periods and teardown on unmount. Only single steps and runs of steps are modelled.
- The concurrency of `forEach(async ...)` is captured only as an arbitrary arrival order of results. Cancellation is not modelled.
- `Date.now()`, `new Date().toISOString()` and `datetime.now()` are parameters.
- A health response without a `camera_status` field writes JavaScript `undefined`. The model's `Answered` always carries a string.
- Rendering: JSX, layout toggles, the fullscreen fallback chain, the map widget and cache-busting image URLs. Also the location, description and snapshot fields, which no modelled rule reads.
- The static pages (Login, Settings, the other LiveView), the navigation layout and the route guard.
