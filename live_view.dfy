/**
 * The live view (frontend/src/pages/LiveView.tsx): the camera list fetched
 * from the backend and the `cameraId -> string` status map that every
 * health probe result overwrites one key of. Probe results arrive in any
 * order; each is applied as one functional update `prev => ({...prev, [id]: v})`.
 */
module LiveView {
  import opened Types

  /** A camera as the backend lists it (frontend/src/pages/LiveView.tsx:7-9). */
  datatype CameraEntry = CameraEntry(id: int, name: string, streamUrl: string)

  /** Outcome of one health request: a response body's `camera_status`, or a rejected request. */
  datatype ProbeResult = Answered(cameraStatus: string) | ProbeFailed

  /** A probe result for one camera, as it lands. */
  datatype Completion = Completion(cameraId: int, result: ProbeResult)

  /** The value a result writes (frontend/src/pages/LiveView.tsx:37, 40). */
  function WrittenValue(r: ProbeResult): (v: string)
    ensures r.ProbeFailed? ==> v == ""
    ensures r.Answered? ==> v == r.cameraStatus
  {
    match r
    case Answered(s) => s
    case ProbeFailed => ""
  }

  /** One state update: only the entry of its own camera changes. */
  function ApplyCompletion(statuses: map<int, string>, c: Completion): (m: map<int, string>)
    ensures m.Keys == statuses.Keys + {c.cameraId}
    ensures m[c.cameraId] == WrittenValue(c.result)
    ensures forall k :: k in statuses && k != c.cameraId ==> m[k] == statuses[k]
  {
    statuses[c.cameraId := WrittenValue(c.result)]
  }

  /** The map after a run of completions, in arrival order: no entry is dropped, and the last arrival is visible. */
  function ApplyAll(statuses: map<int, string>, cs: seq<Completion>): (m: map<int, string>)
    ensures statuses.Keys <= m.Keys
    ensures cs != [] ==> cs[|cs| - 1].cameraId in m && m[cs[|cs| - 1].cameraId] == WrittenValue(cs[|cs| - 1].result)
  {
    if cs == [] then statuses else ApplyCompletion(ApplyAll(statuses, cs[..|cs| - 1]), cs[|cs| - 1])
  }

  /** The result of the last completion for camera `id`, if any. */
  function LastResultFor(cs: seq<Completion>, id: int): (r: Option<ProbeResult>)
    ensures r.None? <==> forall i :: 0 <= i < |cs| ==> cs[i].cameraId != id
  {
    if cs == [] then None
    else if cs[|cs| - 1].cameraId == id then Some(cs[|cs| - 1].result)
    else LastResultFor(cs[..|cs| - 1], id)
  }

  /**
   * Last writer wins: the entry for `id` is the value of the latest
   * completion for `id`; without one it is what it was before, present or not.
   */
  lemma {:induction false} LastWriterWins(statuses: map<int, string>, cs: seq<Completion>, id: int)
    ensures var m := ApplyAll(statuses, cs);
      match LastResultFor(cs, id)
      case Some(r) => id in m && m[id] == WrittenValue(r)
      case None => (id in m <==> id in statuses) && (id in m ==> m[id] == statuses[id])
  {
    if cs != [] {
      LastWriterWins(statuses, cs[..|cs| - 1], id);
    }
  }

  /** The keys after a run of completions: the old ones and one per camera that reported. */
  lemma {:induction false} ApplyAllKeys(statuses: map<int, string>, cs: seq<Completion>)
    ensures ApplyAll(statuses, cs).Keys == statuses.Keys + set c | c in cs :: c.cameraId
  {
    if cs != [] {
      var init := cs[..|cs| - 1];
      ApplyAllKeys(statuses, init);
      assert cs == init + [cs[|cs| - 1]];
      assert (set c | c in cs :: c.cameraId) == (set c | c in init :: c.cameraId) + {cs[|cs| - 1].cameraId};
    }
  }

  /** After a cycle in which every listed camera reported, every listed camera has an entry. */
  lemma CycleCoversCameras(statuses: map<int, string>, cameras: seq<CameraEntry>, cs: seq<Completion>)
    requires forall c :: c in cameras ==> exists r :: Completion(c.id, r) in cs
    ensures forall c :: c in cameras ==> c.id in ApplyAll(statuses, cs)
  {
    ApplyAllKeys(statuses, cs);
    forall c | c in cameras
      ensures c.id in ApplyAll(statuses, cs)
    {
      var r :| Completion(c.id, r) in cs;
      assert c.id in set d | d in cs :: d.cameraId;
    }
  }

  /** "Online" is shown only for the exact value "online"; a missing entry shows nothing (frontend/src/pages/LiveView.tsx:115-119). */
  predicate ShowsOnline(statuses: map<int, string>, id: int)
    ensures ShowsOnline(statuses, id) ==> id in statuses
    ensures id in statuses && statuses[id] in {"", "offline", "Online", "unreachable"} ==> !ShowsOnline(statuses, id)
  {
    id in statuses && statuses[id] == "online"
  }

  /** After a cycle in which every listed camera reported, the badge of each follows its latest result. */
  lemma {:induction false} BadgeAfterCycle(statuses: map<int, string>, cs: seq<Completion>, id: int, r: ProbeResult)
    requires LastResultFor(cs, id) == Some(r)
    ensures ShowsOnline(ApplyAll(statuses, cs), id) <==> r == Answered("online")
  {
    LastWriterWins(statuses, cs, id);
  }

  /** The address each probe of a cycle targets (frontend/src/pages/LiveView.tsx:34). */
  function HealthUrl(c: CameraEntry): string
  {
    c.streamUrl + "/api/health"
  }

  /** The live view's state: the camera list and the status map. */
  class LiveViewState {
    var cameras: seq<CameraEntry>
    var statuses: map<int, string>

    /** Both start empty (frontend/src/pages/LiveView.tsx:7-12). */
    constructor ()
      ensures cameras == [] && statuses == map[]
    {
      cameras := [];
      statuses := map[];
    }

    /** `fetchCameras`: a failed request leaves the list as it was (frontend/src/pages/LiveView.tsx:17-24). */
    method FetchCameras(response: Option<seq<CameraEntry>>)
      modifies this
      ensures cameras == (if response.Some? then response.value else old(cameras))
      ensures statuses == old(statuses)
    {
      if response.Some? {
        cameras := response.value;
      }
    }

    /**
     * The `forEach` of `fetchCameraStatuses`: one request per camera of the
     * current list, in list order (frontend/src/pages/LiveView.tsx:31-34).
     */
    method ProbeRequests() returns (requests: seq<(int, string)>)
      ensures |requests| == |cameras|
      ensures forall i :: 0 <= i < |cameras| ==> requests[i] == (cameras[i].id, HealthUrl(cameras[i]))
    {
      requests := [];
      for i := 0 to |cameras|
        invariant |requests| == i
        invariant forall j :: 0 <= j < i ==> requests[j] == (cameras[j].id, HealthUrl(cameras[j]))
      {
        requests := requests + [(cameras[i].id, HealthUrl(cameras[i]))];
      }
    }

    /** One result lands (frontend/src/pages/LiveView.tsx:35-40). */
    method ApplyProbe(c: Completion)
      modifies this
      ensures statuses == ApplyCompletion(old(statuses), c)
      ensures cameras == old(cameras)
    {
      statuses := statuses[c.cameraId := WrittenValue(c.result)];
    }

    /** Results land one after another, in whatever order the requests complete. */
    method ApplyProbes(cs: seq<Completion>)
      modifies this
      ensures statuses == ApplyAll(old(statuses), cs)
      ensures cameras == old(cameras)
    {
      var i := 0;
      while i < |cs|
        invariant 0 <= i <= |cs|
        invariant statuses == ApplyAll(old(statuses), cs[..i])
        invariant cameras == old(cameras)
      {
        assert cs[..i + 1][..i] == cs[..i];
        ApplyProbe(cs[i]);
        i := i + 1;
      }
      assert cs[..|cs|] == cs;
    }
  }
}
