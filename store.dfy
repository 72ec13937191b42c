/**
 * The client's state container (src/store/index.ts): the signed-in user,
 * the cameras and the alerts, newest alert first. Each `set` call replaces
 * one field; the new alert sequence is computed by a pure expression.
 */
module Store {
  import opened Types

  /** `alerts.map(alert => alert.id === alertId ? { ...alert, status } : alert)` (src/store/index.ts:21-23). */
  function WithStatus(alerts: seq<Alert>, alertId: AlertId, status: AlertStatus): (r: seq<Alert>)
    ensures |r| == |alerts|
  {
    if alerts == [] then []
    else
      var head := if alerts[0].id == alertId then alerts[0].(status := status) else alerts[0];
      [head] + WithStatus(alerts[1..], alertId, status)
  }

  /**
   * Position by position: a matching alert gets the new status and keeps
   * every other field, any other alert is untouched.
   */
  lemma {:induction false} WithStatusAt(alerts: seq<Alert>, alertId: AlertId, status: AlertStatus, i: nat)
    requires i < |alerts|
    ensures |WithStatus(alerts, alertId, status)| == |alerts|
    ensures WithStatus(alerts, alertId, status)[i] ==
      if alerts[i].id == alertId then alerts[i].(status := status) else alerts[i]
  {
    if i > 0 {
      WithStatusAt(alerts[1..], alertId, status, i - 1);
    }
  }

  lemma {:induction false} WithStatusEverywhere(alerts: seq<Alert>, alertId: AlertId, status: AlertStatus)
    ensures forall i :: 0 <= i < |alerts| ==>
      WithStatus(alerts, alertId, status)[i] == (if alerts[i].id == alertId then alerts[i].(status := status) else alerts[i])
  {
    forall i | 0 <= i < |alerts|
      ensures WithStatus(alerts, alertId, status)[i] ==
        if alerts[i].id == alertId then alerts[i].(status := status) else alerts[i]
    {
      WithStatusAt(alerts, alertId, status, i);
    }
  }

  /** The ids, and so the order of the alerts, are kept. */
  lemma {:induction false} WithStatusKeepsOrder(alerts: seq<Alert>, alertId: AlertId, status: AlertStatus)
    ensures var r := WithStatus(alerts, alertId, status);
      |r| == |alerts| && forall i :: 0 <= i < |alerts| ==> r[i].id == alerts[i].id
  {
    WithStatusEverywhere(alerts, alertId, status);
  }

  /** An id that no alert carries is a silent no-op. */
  lemma {:induction false} UnknownIdIsNoOp(alerts: seq<Alert>, alertId: AlertId, status: AlertStatus)
    requires forall a :: a in alerts ==> a.id != alertId
    ensures WithStatus(alerts, alertId, status) == alerts
  {
    WithStatusEverywhere(alerts, alertId, status);
  }

  /** Applying the same update twice equals applying it once. */
  lemma {:induction false} WithStatusIdempotent(alerts: seq<Alert>, alertId: AlertId, status: AlertStatus)
    ensures WithStatus(WithStatus(alerts, alertId, status), alertId, status) == WithStatus(alerts, alertId, status)
  {
    var once := WithStatus(alerts, alertId, status);
    WithStatusEverywhere(alerts, alertId, status);
    WithStatusEverywhere(once, alertId, status);
  }

  /**
   * The alert sequence after `addAlert` has been called with each of
   * `added`, in order: the fold of `AppStore.AddAlert`'s postcondition
   * `alerts == [a] + old(alerts)`.
   */
  function AfterAdds(alerts: seq<Alert>, added: seq<Alert>): seq<Alert>
    decreases |added|
  {
    if added == [] then alerts else AfterAdds([added[0]] + alerts, added[1..])
  }

  function Reversed(s: seq<Alert>): (r: seq<Alert>)
    ensures |r| == |s|
  {
    if s == [] then [] else Reversed(s[1..]) + [s[0]]
  }

  /** Prepending is newest-first: the added alerts appear in reverse order, in front of the old ones. */
  lemma {:induction false} AfterAddsIsNewestFirst(alerts: seq<Alert>, added: seq<Alert>)
    ensures AfterAdds(alerts, added) == Reversed(added) + alerts
    decreases |added|
  {
    if added != [] {
      AfterAddsIsNewestFirst([added[0]] + alerts, added[1..]);
      assert Reversed(added[1..]) + ([added[0]] + alerts) == (Reversed(added[1..]) + [added[0]]) + alerts;
    }
  }

  /** Inserting A, then B, then C into an empty store gives [C, B, A]. */
  lemma ThreeInsertions(a: Alert, b: Alert, c: Alert)
    ensures AfterAdds([], [a, b, c]) == [c, b, a]
  {
    AfterAddsIsNewestFirst([], [a, b, c]);
    assert [a, b, c][1..] == [b, c];
    assert [b, c][1..] == [c];
    assert [c][1..] == [];
    assert Reversed([c]) == [c];
    assert Reversed([b, c]) == [c, b];
  }

  /** The application state of src/store/index.ts:4-11. */
  class AppStore {
    var user: Option<User>
    var cameras: seq<Camera>
    var alerts: seq<Alert>

    /** src/store/index.ts:14-16 */
    constructor ()
      ensures user == None && cameras == [] && alerts == []
    {
      user := None;
      cameras := [];
      alerts := [];
    }

    /** src/store/index.ts:17 */
    method SetUser(u: Option<User>)
      modifies this
      ensures user == u
      ensures cameras == old(cameras) && alerts == old(alerts)
    {
      user := u;
    }

    /** src/store/index.ts:18 */
    method AddAlert(a: Alert)
      modifies this
      ensures alerts == [a] + old(alerts)
      ensures |alerts| == |old(alerts)| + 1 && alerts[0] == a && alerts[1..] == old(alerts)
      ensures user == old(user) && cameras == old(cameras)
    {
      alerts := [a] + alerts;
    }

    /** src/store/index.ts:19-24 */
    method UpdateAlertStatus(alertId: AlertId, status: AlertStatus)
      modifies this
      ensures alerts == WithStatus(old(alerts), alertId, status)
      ensures |alerts| == |old(alerts)|
      ensures user == old(user) && cameras == old(cameras)
    {
      alerts := WithStatus(alerts, alertId, status);
    }
  }
}
