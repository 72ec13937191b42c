/**
 * The incident page (src/pages/Incidents.tsx): the once-a-second poll that
 * turns the feed's `{message}` into at most one alert, the status filter
 * over the store's alerts, and the label shown for `type` and `status`.
 */
module Incidents {
  import opened Types
  import Store

  // ---------------------------------------------------------------------
  // Ingestion
  // ---------------------------------------------------------------------

  /**
   * One poll of the alert feed: the request or the JSON parse failed, or a
   * body arrived whose `message` is a string (Some) or is absent or not a
   * string (None).
   */
  datatype FeedTick = FetchFailed | Fetched(message: Option<string>)

  /** The only message that creates an alert (src/pages/Incidents.tsx:16). */
  const CellPhoneMessage: string := "Cell phone detected!"

  /** The alert created for it; the clock readings are parameters (src/pages/Incidents.tsx:18-24). */
  function CellPhoneAlert(now: int, isoTime: string): (a: Alert)
    ensures a.id == NumId(now) && a.timestamp == isoTime && a.cameraId == None
    ensures a.kind == "cell_phone_detected" && a.severity == High && a.status == New
  {
    Alert(NumId(now), None, isoTime, "cell_phone_detected", High, New)
  }

  /** The poll callback's decision (src/pages/Incidents.tsx:15-27). */
  function IncomingAlert(tick: FeedTick, now: int, isoTime: string): (r: Option<Alert>)
    ensures r.Some? <==> tick == Fetched(Some(CellPhoneMessage))
    ensures r.Some? ==> r.value.kind == "cell_phone_detected" && r.value.severity == High && r.value.status == New
    ensures r.Some? ==> r.value.id == NumId(now) && r.value.timestamp == isoTime && r.value.cameraId == None
  {
    match tick
    case FetchFailed => None
    case Fetched(m) => if m == Some(CellPhoneMessage) then Some(CellPhoneAlert(now, isoTime)) else None
  }

  /** Other "... detected" texts, and a message that merely contains the marker, add nothing. */
  lemma OnlyTheExactMessageMatches(now: int, isoTime: string)
    ensures IncomingAlert(Fetched(Some("Gun detected!")), now, isoTime) == None
    ensures IncomingAlert(Fetched(Some("No threat detected")), now, isoTime) == None
    ensures IncomingAlert(Fetched(Some("Cell phone detected! ")), now, isoTime) == None
    ensures IncomingAlert(Fetched(Some("Cell phone detected!")), now, isoTime).Some?
  {
    assert "Cell phone detected! " != CellPhoneMessage by {
      assert |"Cell phone detected! "| != |CellPhoneMessage|;
    }
  }

  /** One timer tick: the callback runs against the store (src/pages/Incidents.tsx:12-28). */
  method PollTick(store: Store.AppStore, tick: FeedTick, now: int, isoTime: string)
    modifies store
    ensures var r := IncomingAlert(tick, now, isoTime);
      store.alerts == if r.Some? then [r.value] + old(store.alerts) else old(store.alerts)
    ensures store.user == old(store.user) && store.cameras == old(store.cameras)
  {
    var r := IncomingAlert(tick, now, isoTime);
    if r.Some? {
      store.AddAlert(r.value);
    }
  }

  /** A clock reading and a feed outcome: everything one tick depends on. */
  datatype Tick = Tick(feed: FeedTick, now: int, isoTime: string)

  /** What one tick adds: the produced alert, or nothing. */
  function TickAlerts(t: Tick): (added: seq<Alert>)
    ensures |added| <= 1
    ensures |added| == 1 <==> t.feed == Fetched(Some(CellPhoneMessage))
    ensures added != [] ==> added[0] == CellPhoneAlert(t.now, t.isoTime)
  {
    match IncomingAlert(t.feed, t.now, t.isoTime)
    case Some(a) => [a]
    case None => []
  }

  /**
   * The alert sequence after a run of ticks, applied in order: the fold of
   * `PollTick`'s postcondition, as `PollTicks` shows.
   */
  function AfterTicks(alerts: seq<Alert>, ticks: seq<Tick>): (r: seq<Alert>)
    ensures |alerts| <= |r| <= |alerts| + |ticks|
    decreases |ticks|
  {
    if ticks == [] then alerts else AfterTicks(TickAlerts(ticks[0]) + alerts, ticks[1..])
  }

  /** The timer firing once per tick of a run, each time against the same store. */
  method PollTicks(store: Store.AppStore, ticks: seq<Tick>)
    modifies store
    ensures store.alerts == AfterTicks(old(store.alerts), ticks)
    ensures store.user == old(store.user) && store.cameras == old(store.cameras)
  {
    assert ticks[0..] == ticks;
    for i := 0 to |ticks|
      invariant AfterTicks(store.alerts, ticks[i..]) == AfterTicks(old(store.alerts), ticks)
      invariant store.user == old(store.user) && store.cameras == old(store.cameras)
    {
      ghost var before := store.alerts;
      PollTick(store, ticks[i].feed, ticks[i].now, ticks[i].isoTime);
      assert store.alerts == TickAlerts(ticks[i]) + before;
      assert ticks[i..][0] == ticks[i] && ticks[i..][1..] == ticks[i + 1..];
    }
  }

  /** Number of ticks whose feed carried the exact message. */
  function MatchingTicks(ticks: seq<Tick>): (n: nat)
    ensures n <= |ticks|
  {
    if ticks == [] then 0
    else (if ticks[0].feed == Fetched(Some(CellPhoneMessage)) then 1 else 0) + MatchingTicks(ticks[1..])
  }

  /** No deduplication: every matching tick adds exactly one alert, every other tick none. */
  lemma {:induction false} EveryMatchingTickAddsOne(alerts: seq<Alert>, ticks: seq<Tick>)
    ensures |AfterTicks(alerts, ticks)| == |alerts| + MatchingTicks(ticks)
    decreases |ticks|
  {
    if ticks != [] {
      EveryMatchingTickAddsOne(TickAlerts(ticks[0]) + alerts, ticks[1..]);
    }
  }

  /** Ticks only prepend: what a run of ticks adds ends up in front of the alerts that were there. */
  lemma {:induction false} TicksKeepOlderAlerts(alerts: seq<Alert>, ticks: seq<Tick>)
    ensures AfterTicks(alerts, ticks) == AfterTicks([], ticks) + alerts
    decreases |ticks|
  {
    if ticks != [] {
      var added := TickAlerts(ticks[0]);
      assert added + [] == added;
      TicksKeepOlderAlerts(added + alerts, ticks[1..]);
      TicksKeepOlderAlerts(added, ticks[1..]);
      assert (AfterTicks([], ticks[1..]) + added) + alerts == AfterTicks([], ticks[1..]) + (added + alerts);
    }
  }

  // ---------------------------------------------------------------------
  // The status filter
  // ---------------------------------------------------------------------

  /** The drop-down value: every status, or one of them. */
  datatype StatusFilter = AllStatuses | OnlyStatus(status: AlertStatus)

  predicate Passes(a: Alert, filter: StatusFilter)
  {
    filter == AllStatuses || a.status == filter.status
  }

  /** `alerts.filter(alert => filter === "all" || alert.status === filter)` (src/pages/Incidents.tsx:33-35). */
  function FilterAlerts(alerts: seq<Alert>, filter: StatusFilter): (r: seq<Alert>)
    ensures |r| <= |alerts|
    ensures forall a :: a in r ==> a in alerts && Passes(a, filter)
  {
    if alerts == [] then []
    else if Passes(alerts[0], filter) then [alerts[0]] + FilterAlerts(alerts[1..], filter)
    else FilterAlerts(alerts[1..], filter)
  }

  /** With "all" the list shown is the store's list. */
  lemma {:induction false} FilterAllIsIdentity(alerts: seq<Alert>)
    ensures FilterAlerts(alerts, AllStatuses) == alerts
  {
    if alerts != [] {
      FilterAllIsIdentity(alerts[1..]);
      assert alerts == [alerts[0]] + alerts[1..];
    }
  }

  /**
   * The filter keeps exactly the alerts that pass, each as often as it
   * occurs, as an order-preserving subsequence.
   */
  lemma {:induction false} FilterIsExact(alerts: seq<Alert>, filter: StatusFilter, a: Alert)
    ensures Count(FilterAlerts(alerts, filter), a) == (if Passes(a, filter) then Count(alerts, a) else 0)
    ensures IsSubsequence(FilterAlerts(alerts, filter), alerts)
  {
    if alerts != [] {
      FilterIsExact(alerts[1..], filter, a);
      var rest := FilterAlerts(alerts[1..], filter);
      if Passes(alerts[0], filter) {
        assert ([alerts[0]] + rest)[1..] == rest;
      } else {
        assert alerts == [alerts[0]] + alerts[1..];
        assert IsSubsequence(rest, [alerts[0]] + alerts[1..]) by {
          assert ([alerts[0]] + alerts[1..])[1..] == alerts[1..];
        }
      }
    }
  }

  // ---------------------------------------------------------------------
  // Display labels
  // ---------------------------------------------------------------------

  /** JavaScript's `s.replace(from, to)` with a one-character string pattern: only the first occurrence. */
  function ReplaceFirst(s: string, from: char, to: char): (r: string)
    ensures |r| == |s|
  {
    if s == [] then []
    else if s[0] == from then [to] + s[1..]
    else [s[0]] + ReplaceFirst(s[1..], from, to)
  }

  /** Exactly one occurrence disappears, unless there is none. */
  lemma {:induction false} ReplaceFirstCount(s: string, from: char, to: char)
    requires from != to
    ensures Count(ReplaceFirst(s, from, to), from) == if from in s then Count(s, from) - 1 else 0
  {
    if s != [] {
      if s[0] == from {
        assert ([to] + s[1..])[1..] == s[1..];
      } else {
        var rest := ReplaceFirst(s[1..], from, to);
        ReplaceFirstCount(s[1..], from, to);
        assert ([s[0]] + rest)[1..] == rest;
        assert s == [s[0]] + s[1..];
      }
    }
  }

  /** Without an occurrence nothing changes. */
  lemma {:induction false} ReplaceFirstAbsent(s: string, from: char, to: char)
    requires from !in s
    ensures ReplaceFirst(s, from, to) == s
  {
    if s != [] {
      assert from !in s[1..];
      ReplaceFirstAbsent(s[1..], from, to);
      assert s == [s[0]] + s[1..];
    }
  }

  /** The first occurrence, at `i`, is replaced and every later character is kept as it was. */
  lemma {:induction false} ReplaceFirstAt(s: string, from: char, to: char, i: nat)
    requires i < |s| && s[i] == from && from !in s[..i]
    ensures ReplaceFirst(s, from, to) == s[..i] + [to] + s[i + 1..]
  {
    if i == 0 {
      assert s[..0] == [];
    } else {
      assert s[0] in s[..i];
      assert s[1..][..i - 1] == s[1..i];
      assert from !in s[1..][..i - 1];
      ReplaceFirstAt(s[1..], from, to, i - 1);
      assert [s[0]] + s[1..i] == s[..i];
      assert s[1..][i..] == s[i + 1..];
    }
  }

  /** The label shown for an alert's `type` or `status` (src/pages/Incidents.tsx:87, 105). */
  function DisplayLabel(s: string): (r: string)
    ensures |r| == |s|
    ensures Count(r, '_') == if '_' in s then Count(s, '_') - 1 else 0
    ensures '_' !in s ==> r == s
  {
    var r := ReplaceFirst(s, '_', ' ');
    ReplaceFirstCount(s, '_', ' ');
    if '_' in s then r else ReplaceFirstAbsent(s, '_', ' '); r
  }

  // The two examples below pin their input with a `requires` instead of
  // writing the literal in the `ensures`, which keeps the solver from
  // unfolding `ReplaceFirst` on the literal itself.

  /** Only the first underscore of a type becomes a space. */
  lemma DisplayedType(t: string)
    requires t == "cell_phone_detected"
    ensures DisplayLabel(t) == "cell phone_detected"
  {
    var before, after := t[..4], t[5..];
    assert before == "cell" && t[4] == '_' && after == "phone_detected";
    assert '_' !in before;
    ReplaceFirstAt(t, '_', ' ', 4);
    assert before + [' '] + after == "cell phone_detected";
  }

  /** A status with one underscore is shown with a space. */
  lemma DisplayedStatus(s: string)
    requires s == "false_positive"
    ensures DisplayLabel(s) == "false positive"
  {
    var before, after := s[..5], s[6..];
    assert before == "false" && s[5] == '_' && after == "positive";
    assert '_' !in before;
    ReplaceFirstAt(s, '_', ' ', 5);
    assert before + [' '] + after == "false positive";
  }
}
