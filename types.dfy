/**
 * Shared vocabulary of the monitoring client: the records the store keeps
 * (src/types/index.ts) and two generic sequence notions used by several
 * components.
 */
module Types {

  datatype Option<T> = None | Some(value: T)

  /** Lifecycle of an alert as the operator moves it along (src/types/index.ts:26). */
  datatype AlertStatus = New | Reviewing | Resolved | FalsePositive

  /** Severity tier of an alert (src/types/index.ts:23); the backend only ever uses Medium and High. */
  datatype Severity = Low | Medium | High

  /** Camera status as the store declares it (src/types/index.ts:14). */
  datatype CameraStatus = Online | Offline

  datatype Role = Admin | SecurityStaff | Operator

  datatype User = User(id: string, email: string, role: Role)

  /** A store camera; its map location is not used by any modelled rule. */
  datatype Camera = Camera(id: string, name: string, status: CameraStatus, url: string)

  /**
   * Alert identifiers. The type declares a string, but the incident poller
   * creates numeric ones; JavaScript's `===` never equates a number with a
   * string, which is exactly datatype equality here.
   */
  datatype AlertId = NumId(n: int) | TextId(s: string)

  /**
   * An alert record. `kind` is the free-form `type` field; `cameraId` is
   * None for alerts that carry no camera (JavaScript `undefined`).
   */
  datatype Alert = Alert(
    id: AlertId,
    cameraId: Option<string>,
    timestamp: string,
    kind: string,
    severity: Severity,
    status: AlertStatus)

  /** `a` can be obtained from `b` by deleting elements: same order, duplicates kept. */
  predicate IsSubsequence<T(==)>(a: seq<T>, b: seq<T>)
    decreases |b|
  {
    a == [] || (b != [] && ((a[0] == b[0] && IsSubsequence(a[1..], b[1..])) || IsSubsequence(a, b[1..])))
  }

  /** Number of occurrences of `x` in `s`. */
  function Count<T(==)>(s: seq<T>, x: T): (n: nat)
    ensures n <= |s|
    ensures n == 0 <==> x !in s
  {
    if s == [] then 0 else (if s[0] == x then 1 else 0) + Count(s[1..], x)
  }

  lemma {:induction false} CountAppend<T>(a: seq<T>, b: seq<T>, x: T)
    ensures Count(a + b, x) == Count(a, x) + Count(b, x)
  {
    if a == [] {
      assert a + b == b;
    } else {
      assert (a + b)[1..] == a[1..] + b;
      CountAppend(a[1..], b, x);
    }
  }
}
