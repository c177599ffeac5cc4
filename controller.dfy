/**
 * The view controller's state and the three places that change it: loading the map's
 * point cloud when the view appears, and the completion of a localization started by
 * the Localize button. ARKit, the engine and the map file are outside the model: what
 * they return arrives as parameters.
 */
module Controller {
  import opened Wrappers
  import opened Geometry
  import opened Pose
  import opened Stats
  import opened PointCloud

  /** The part of an `ARFrame` the handler reads: the camera's transform, as an `SCNMatrix4`. */
  datatype Frame = Frame(cameraTransform: Matrix4)

  /** The `SCNNode` that shows the map's points. */
  class PointCloudNode {
    var transform: Matrix4
    const points: seq<Vec3>

    /** A fresh node starts at the identity transform. */
    constructor (points: seq<Vec3>)
      ensures transform == Identity && this.points == points
    {
      transform := Identity;
      this.points := points;
    }
  }

  class ViewController {
    var pointCloudNode: PointCloudNode?
    var stats: LocalizerStats
    /** The map handles of the localizations completed so far, oldest first. */
    ghost var handles: seq<int>

    ghost predicate Valid()
      reads this
    {
      stats == Replay(handles) && 0 <= stats.successes <= stats.attempts
    }

    constructor ()
      ensures Valid() && handles == []
      ensures stats == LocalizerStats(0, 0) && pointCloudNode == null
    {
      pointCloudNode := null;
      stats := Initial;
      handles := [];
    }

    /**
     * `viewWillAppear`: `mapHandle` is what loading the bundled map returned (None when
     * the file is missing or unreadable), `buffer` and `num` what the engine wrote into
     * the `3 * MaxNumPoints` floats and returned. A node is made only for a valid handle.
     */
    method ViewWillAppear(mapHandle: Option<int>, buffer: array<real>, num: int)
      requires Valid()
      requires buffer.Length == 3 * MaxNumPoints
      requires num <= 3 * MaxNumPoints
      modifies this`pointCloudNode
      ensures Valid()
      ensures mapHandle.Some? && mapHandle.value >= 0 ==>
        && pointCloudNode != null && fresh(pointCloudNode)
        && pointCloudNode.transform == Identity
        && |pointCloudNode.points| == PointCount(num)
        && Flatten(pointCloudNode.points) == buffer[..3 * PointCount(num)]
      ensures !(mapHandle.Some? && mapHandle.value >= 0) ==> pointCloudNode == old(pointCloudNode)
    {
      if mapHandle.Some? && mapHandle.value >= 0 {
        ReadsStayInBuffer(num, MaxNumPoints);
        var p := ExtractPoints(buffer, num);
        pointCloudNode := new PointCloudNode(p);
      }
    }

    /**
     * The completion handler of `didTapLocalize`: count the attempt; on a non-negative
     * handle re-anchor the point cloud (if there is one) at `inverse(m) * camera` and
     * count the success.
     */
    method CompleteLocalization(locInfo: LocalizeInfo, camera: Matrix4, ops: SceneKitOps)
      requires Valid()
      modifies this`stats, this`handles, pointCloudNode
      ensures Valid()
      ensures handles == old(handles) + [locInfo.handle]
      ensures stats == Record(old(stats), locInfo.handle)
      ensures pointCloudNode == old(pointCloudNode)
      ensures pointCloudNode != null ==>
        pointCloudNode.transform ==
          if locInfo.handle >= 0 then AnchorTransform(ops, PoseMatrix(locInfo), camera)
          else old(pointCloudNode.transform)
    {
      stats := stats.(attempts := stats.attempts + 1);
      if locInfo.handle >= 0 {
        var m := PoseMatrix(locInfo);
        if pointCloudNode != null {
          pointCloudNode.transform := ops.mult(ops.invert(m), camera);
        }
        stats := stats.(successes := stats.successes + 1);
      }
      assert stats == Record(old(stats), locInfo.handle);
      handles := handles + [locInfo.handle];
      assert handles[..|handles| - 1] == old(handles);
      assert Replay(handles) == Record(Replay(old(handles)), locInfo.handle);
      SuccessesNeverExceedAttempts(handles);
    }

    /**
     * `didTapLocalize`: with a current frame whose pixel format is the expected bi-planar
     * one, the engine's result reaches the completion handler with that frame's camera;
     * otherwise nothing changes.
     */
    method DidTapLocalize(frame: Option<Frame>, pixelFormatOk: bool, locInfo: LocalizeInfo, ops: SceneKitOps)
      requires Valid()
      modifies this`stats, this`handles, pointCloudNode
      ensures Valid()
      ensures pointCloudNode == old(pointCloudNode)
      ensures frame.Some? && pixelFormatOk ==>
        handles == old(handles) + [locInfo.handle] && stats == Record(old(stats), locInfo.handle)
      ensures !(frame.Some? && pixelFormatOk) ==> handles == old(handles) && stats == old(stats)
      ensures pointCloudNode != null ==>
        pointCloudNode.transform ==
          if frame.Some? && pixelFormatOk && locInfo.handle >= 0
          then AnchorTransform(ops, PoseMatrix(locInfo), frame.value.cameraTransform)
          else old(pointCloudNode.transform)
    {
      if frame.Some? && pixelFormatOk {
        CompleteLocalization(locInfo, frame.value.cameraTransform, ops);
      }
    }
  }
}
