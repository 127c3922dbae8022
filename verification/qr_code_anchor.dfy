/**
 * QRCodeAnchor: an object that follows one QR code. A remote call sets the
 * code it follows and an offset (position plus rotation, optionally levelled);
 * every QRCodeUpdated event puts it back on the code's recorded pose and
 * applies the offset again.
 */
module Anchoring {
  import opened Wrappers
  import opened Geometry
  import opened QRTracking

  /** QRCodeOffsetData as MessagePack delivers it; the arrays may be null or short. */
  datatype QRCodeOffsetData = QRCodeOffsetData(qrText: Option<string>, pos: Option<seq<real>>,
                                               rot: Option<seq<real>>, fixZAxis: bool)

  /** How a call ended: with a return value, or with an exception. */
  datatype CallOutcome = Returned(message: string) | Threw

  /** ApplyOffset on a pose: add the offset position in world space, post-multiply the offset rotation. */
  function Offset(pose: Pose, offsetPosition: Vec3, offsetRotation: Quaternion): Pose {
    Pose(Add(pose.position, offsetPosition), Product(pose.rotation, offsetRotation))
  }

  /** The pose after k applications of ApplyOffset. */
  function OffsetTimes(pose: Pose, offsetPosition: Vec3, offsetRotation: Quaternion, k: nat): Pose {
    if k == 0 then pose else Offset(OffsetTimes(pose, offsetPosition, offsetRotation, k - 1), offsetPosition, offsetRotation)
  }

  /** ApplyOffset accumulates: after k applications the anchor has moved by k times the offset. */
  lemma {:induction false} OffsetAccumulates(pose: Pose, offsetPosition: Vec3, offsetRotation: Quaternion, k: nat)
    ensures OffsetTimes(pose, offsetPosition, offsetRotation, k).position ==
            Add(pose.position, Scale(k as real, offsetPosition))
  {
    if k > 0 {
      OffsetAccumulates(pose, offsetPosition, offsetRotation, k - 1);
    }
  }

  /** Hence ApplyOffset is not idempotent once the offset position is non-zero. */
  lemma OffsetNotIdempotent(pose: Pose, offsetPosition: Vec3, offsetRotation: Quaternion)
    requires offsetPosition != Zero
    ensures Offset(Offset(pose, offsetPosition, offsetRotation), offsetPosition, offsetRotation) !=
            Offset(pose, offsetPosition, offsetRotation)
  {
  }

  /**
   * The fixZAxis rotation: the quaternion given by four components, levelled
   * by the rule the scene manager uses for markers.
   */
  function LevelledOffsetRotation(x: real, y: real, z: real, w: real): (q: Quaternion)
    ensures q.LookRotation? && q.upwards == WorldUp && q.forward.y == 0.0
  {
    LevelledRotation(RotateByComponents(x, y, z, w, WorldForward), RotateByComponents(x, y, z, w, WorldUp))
  }

  /** Levelling an offset that only turns about the vertical axis keeps where it faces. */
  lemma LevelledYawOffset(y: real, w: real)
    requires y * y + w * w == 1.0
    ensures LevelledOffsetRotation(0.0, y, 0.0, w) ==
            LookRotation(RotateByComponents(0.0, y, 0.0, w, WorldForward), WorldUp)
  {
    YawOnlyRotationKeepsFacing(y, w);
  }

  class QRCodeAnchor {
    var trackedID: Option<string>
    var offsetPosition: Vec3
    var offsetRotation: Quaternion
    var fixZAxis: bool
    /** The anchor's transform. */
    var position: Vec3
    var rotation: Quaternion

    function CurrentPose(): Pose
      reads this
    {
      Pose(position, rotation)
    }

    constructor (trackedID: Option<string>, fixZAxis: bool, pose: Pose)
      ensures this.trackedID == trackedID && this.fixZAxis == fixZAxis && CurrentPose() == pose
      ensures offsetPosition == Zero && offsetRotation == Identity
    {
      this.trackedID := trackedID;
      this.fixZAxis := fixZAxis;
      offsetPosition := Zero;
      offsetRotation := Identity;
      position := pose.position;
      rotation := pose.rotation;
    }

    /** ApplyOffset: the offset is added on top of the current pose. */
    method ApplyOffset()
      modifies this
      ensures CurrentPose() == Offset(old(CurrentPose()), offsetPosition, offsetRotation)
      ensures trackedID == old(trackedID) && fixZAxis == old(fixZAxis)
      ensures offsetPosition == old(offsetPosition) && offsetRotation == old(offsetRotation)
    {
      position := Add(position, offsetPosition);
      rotation := Product(rotation, offsetRotation);
    }

    /**
     * SetOffset: records the followed code, the offset position from Pos[0..2]
     * and the offset rotation from Rot[0..3] (levelled when FixZAxis is set),
     * then applies the offset on top of the current pose. A null or short
     * array throws at the field that reads it, after the earlier fields were
     * written.
     */
    method SetOffset(data: QRCodeOffsetData) returns (outcome: CallOutcome)
      modifies this
      ensures trackedID == data.qrText
      ensures data.pos.None? || |data.pos.value| < 3 ==>
                && outcome == Threw
                && offsetPosition == old(offsetPosition) && offsetRotation == old(offsetRotation)
                && fixZAxis == old(fixZAxis) && CurrentPose() == old(CurrentPose())
      ensures data.pos.Some? && |data.pos.value| >= 3 ==>
                offsetPosition == Vec3(data.pos.value[0], data.pos.value[1], data.pos.value[2])
      ensures data.pos.Some? && |data.pos.value| >= 3 && (data.rot.None? || |data.rot.value| < 4) ==>
                && outcome == Threw
                && offsetRotation == old(offsetRotation) && fixZAxis == old(fixZAxis)
                && CurrentPose() == old(CurrentPose())
      ensures data.pos.Some? && |data.pos.value| >= 3 && data.rot.Some? && |data.rot.value| >= 4 ==>
                var r := data.rot.value;
                && outcome == Returned("Offset applied")
                && fixZAxis == data.fixZAxis
                && offsetRotation == (if data.fixZAxis then LevelledOffsetRotation(r[0], r[1], r[2], r[3])
                                      else Components(r[0], r[1], r[2], r[3]))
                && CurrentPose() == Offset(old(CurrentPose()), offsetPosition, offsetRotation)
    {
      trackedID := data.qrText;
      if data.pos.None? || |data.pos.value| < 3 {
        return Threw;
      }
      var pos := data.pos.value;
      offsetPosition := Vec3(pos[0], pos[1], pos[2]);
      if data.rot.None? || |data.rot.value| < 4 {
        return Threw;
      }
      var rot := data.rot.value;
      offsetRotation := Components(rot[0], rot[1], rot[2], rot[3]);
      fixZAxis := data.fixZAxis;
      if fixZAxis {
        var currentForward := RotateByComponents(rot[0], rot[1], rot[2], rot[3], WorldForward);
        var currentUp := RotateByComponents(rot[0], rot[1], rot[2], rot[3], WorldUp);
        offsetRotation := LevelledRotation(currentForward, currentUp);
      }
      ApplyOffset();
      outcome := Returned("Offset applied");
    }

    /**
     * ApplyScenePose, the QRCodeUpdated handler: without a followed code, or
     * when the code is not in the event's dictionary, nothing happens;
     * otherwise the anchor is reset to the code's recorded pose and the offset
     * applied once, whatever its previous pose.
     */
    method ApplyScenePose(qrPoseData: map<string, QRCodeData>)
      modifies this
      ensures trackedID == old(trackedID) && fixZAxis == old(fixZAxis)
      ensures offsetPosition == old(offsetPosition) && offsetRotation == old(offsetRotation)
      ensures trackedID.None? || trackedID == Some("") || trackedID.value !in qrPoseData ==>
                CurrentPose() == old(CurrentPose())
      ensures trackedID.Some? && trackedID != Some("") && trackedID.value in qrPoseData ==>
                CurrentPose() == Offset(qrPoseData[trackedID.value].worldPose, offsetPosition, offsetRotation)
    {
      if trackedID.None? || trackedID == Some("") {
        return;
      }
      if trackedID.value !in qrPoseData {
        return;
      }
      var data := qrPoseData[trackedID.value];
      position := data.worldPose.position;
      rotation := data.worldPose.rotation;
      ApplyOffset();
    }
  }
}
