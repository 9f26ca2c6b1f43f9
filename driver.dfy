/**
 * The application's single interface to the driver: it initialises the
 * driver, keeps the list of attached camera ids, and creates camera objects
 * by id.
 */
module QhyDriver {
  import opened Sdk
  import opened Text
  import opened CameraFormats
  import opened CameraSpec
  import opened QhyCamera

  /** The driver answered the id query for index `j`. */
  predicate IdOk(sdk: Sdk, j: nat) {
    sdk.cameraId(j).status == QhyccdSuccess
  }

  /** The id read from the buffer for index `j`: up to its first NUL, as a C string is read. */
  function IdAt(sdk: Sdk, j: nat): string {
    TruncateAtNul(sdk.cameraId(j).name)
  }

  /** The indices below `n` whose id query succeeds, in increasing order. */
  function OkIndices(sdk: Sdk, n: nat): (indices: seq<nat>)
    ensures |indices| <= n
    ensures forall k :: 0 <= k < |indices| ==> indices[k] < n && IdOk(sdk, indices[k])
    ensures forall j :: 0 <= j < n && IdOk(sdk, j) ==> j in indices
    ensures forall p, q :: 0 <= p < q < |indices| ==> indices[p] < indices[q]
  {
    if n == 0 then [] else OkIndices(sdk, n - 1) + (if IdOk(sdk, n - 1) then [n - 1] else [])
  }

  /** The camera list `populateCameraList()` builds from `count` indices. */
  function CameraIds(sdk: Sdk, count: nat): seq<string>
  {
    if count == 0 then []
    else CameraIds(sdk, count - 1) + (if IdOk(sdk, count - 1) then [IdAt(sdk, count - 1)] else [])
  }

  /**
   * The camera list holds exactly the ids of the indices whose query
   * succeeded, one per index and in increasing index order, so it is never
   * longer than the count; no id in it holds a NUL.
   */
  lemma {:induction false} CameraIdsFromOkIndices(sdk: Sdk, count: nat)
    ensures var ids := CameraIds(sdk, count);
      var indices := OkIndices(sdk, count);
      && |ids| == |indices| <= count
      && (forall k :: 0 <= k < |ids| ==> ids[k] == IdAt(sdk, indices[k]))
      && (forall k :: 0 <= k < |ids| ==> '\0' !in ids[k])
  {
    if count > 0 {
      CameraIdsFromOkIndices(sdk, count - 1);
    }
  }

  /** An id is listed exactly when some index below the count reads as it. */
  lemma CameraIdsMembership(sdk: Sdk, count: nat, name: string)
    ensures name in CameraIds(sdk, count) <==> exists j :: 0 <= j < count && IdOk(sdk, j) && IdAt(sdk, j) == name
  {
    var ids := CameraIds(sdk, count);
    var indices := OkIndices(sdk, count);
    CameraIdsFromOkIndices(sdk, count);
    if name in ids {
      var k :| 0 <= k < |ids| && ids[k] == name;
      assert IdOk(sdk, indices[k]) && IdAt(sdk, indices[k]) == name;
    }
    if j :| 0 <= j < count && IdOk(sdk, j) && IdAt(sdk, j) == name {
      var k :| 0 <= k < |indices| && indices[k] == j;
      assert ids[k] == name;
    }
  }

  /** The driver object: whether it is ready, and the ids of the attached cameras. */
  class Driver {
    var cameras: seq<string>
    var ready: bool

    /** A driver not yet initialised, with no cameras listed. */
    constructor ()
      ensures cameras == [] && !ready
    {
      cameras := [];
      ready := false;
    }

    /** `cameras()`: the stored list, unchanged. */
    method Cameras() returns (list: seq<string>)
      ensures list == cameras
    {
      list := cameras;
    }

    /** `isReady()`. */
    method IsReady() returns (r: bool)
      ensures r == ready
    {
      r := ready;
    }

    /**
     * `cameraNamed()`: a new camera for any name, listed or not; its id is the
     * name as far as its first NUL, which is all of a listed name.
     */
    method CameraNamed(name: string) returns (camera: Camera)
      ensures fresh(camera)
      ensures camera.id == TruncateAtNul(name) && camera.model == ModelName(camera.id)
      ensures camera.State() == InitialState
      ensures '\0' !in name ==> camera.id == name
    {
      camera := new Camera(TruncateAtNul(name));
    }

    /** `initialize()`: ready exactly when the driver's resources came up, and only then is the list rebuilt. */
    method Initialize(sdk: Sdk) returns (ok: bool)
      modifies this
      ensures ok == ready
      ensures ready <==> sdk.initResource == QhyccdSuccess
      ensures cameras == if ready then CameraIds(sdk, sdk.scan as nat) else old(cameras)
    {
      var result := sdk.initResource;
      if result == QhyccdSuccess {
        PopulateCameraList(sdk);
        ready := true;
      } else {
        ready := false;
      }
      ok := ready;
    }

    /** `populateCameraList()`: the old list is dropped and every index the scan counts is asked. */
    method PopulateCameraList(sdk: Sdk)
      modifies this
      ensures cameras == CameraIds(sdk, sdk.scan as nat)
      ensures ready == old(ready)
    {
      cameras := [];
      var connectedCameraCount := sdk.scan as nat;
      var cameraIndex: nat := 0;
      while cameraIndex < connectedCameraCount
        invariant cameraIndex <= connectedCameraCount
        invariant cameras == CameraIds(sdk, cameraIndex)
        invariant ready == old(ready)
      {
        var reply := sdk.cameraId(cameraIndex);
        if reply.status == QhyccdSuccess {
          cameras := cameras + [TruncateAtNul(reply.name)];
        }
        cameraIndex := cameraIndex + 1;
      }
    }
  }
}
