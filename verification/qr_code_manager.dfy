/**
 * The tracked-code registry: QRCodeManager keeps two dictionaries keyed by
 * QR payload, filled and emptied by the tracker's "trackable added" and
 * "trackable removed" callbacks, and a tracking flag stored in the mixed
 * reality utility kit's tracker configuration.
 */
module QRTracking {
  import opened Wrappers
  import opened Geometry

  datatype TrackableType = QRCode | Keyboard | Unknown

  /**
   * A trackable reported by the tracker. Its kind and payload are fixed; its
   * transform is moved by the engine while the marker is tracked.
   */
  class Trackable {
    const trackableType: TrackableType
    const markerPayload: Option<string>
    /**
     * The marker's transform as the engine last reported it. The engine moves
     * it between frames; nothing in this model writes it, so it is constant
     * here.
     */
    const position: Vec3
    const rotation: Quaternion
    /** The transform's forward and up axes (rotation applied to the unit axes). */
    const forward: Vec3
    const up: Vec3

    constructor (trackableType: TrackableType, markerPayload: Option<string>,
                 position: Vec3, rotation: Quaternion, forward: Vec3, up: Vec3)
      ensures this.trackableType == trackableType && this.markerPayload == markerPayload
      ensures this.position == position && this.rotation == rotation
      ensures this.forward == forward && this.up == up
    {
      this.trackableType := trackableType;
      this.markerPayload := markerPayload;
      this.position := position;
      this.rotation := rotation;
      this.forward := forward;
      this.up := up;
    }
  }

  /** QRCodeData: a payload and the world pose copied when the code was added. */
  datatype QRCodeData = QRCodeData(payload: Option<string>, worldPose: Pose)

  /** C#'s bool.ToString(). */
  function BoolText(b: bool): string {
    if b then "True" else "False"
  }

  class QRCodeManager {
    var trackedQRCodes: map<string, Trackable>
    var qrCodeData: map<string, QRCodeData>
    /** Whether the manager has its MRUK instance. */
    var mrukPresent: bool
    /** The QR-code-tracking switch of MRUK's tracker configuration. */
    var qrCodeTrackingEnabled: bool
    /** Whether QRCodeUpdated has at least one subscriber. */
    var hasSubscribers: bool

    /** Both dictionaries have the same keys, and each record's payload is its key. */
    ghost predicate Valid()
      reads this
    {
      && trackedQRCodes.Keys == qrCodeData.Keys
      && (forall p | p in qrCodeData :: qrCodeData[p].payload == Some(p))
    }

    /** The TrackingEnabled getter: false without MRUK, otherwise the tracker's switch. */
    predicate TrackingEnabled()
      reads this
      ensures TrackingEnabled() ==> mrukPresent
      ensures mrukPresent ==> (TrackingEnabled() <==> qrCodeTrackingEnabled)
    {
      mrukPresent && qrCodeTrackingEnabled
    }

    constructor (mrukPresent: bool, qrCodeTrackingEnabled: bool, hasSubscribers: bool)
      ensures Valid()
      ensures trackedQRCodes == map[] && qrCodeData == map[]
      ensures this.mrukPresent == mrukPresent && this.qrCodeTrackingEnabled == qrCodeTrackingEnabled
      ensures this.hasSubscribers == hasSubscribers
    {
      trackedQRCodes := map[];
      qrCodeData := map[];
      this.mrukPresent := mrukPresent;
      this.qrCodeTrackingEnabled := qrCodeTrackingEnabled;
      this.hasSubscribers := hasSubscribers;
    }

    /**
     * Update: raises QRCodeUpdated with the data dictionary when tracking is
     * enabled, someone subscribed and at least one code is known.
     */
    method Update() returns (raised: Option<map<string, QRCodeData>>)
      ensures raised.Some? <==> TrackingEnabled() && hasSubscribers && |qrCodeData| > 0
      ensures raised.Some? ==> raised.value == qrCodeData
    {
      if !TrackingEnabled() {
        return None;
      }
      if hasSubscribers && |qrCodeData| > 0 {
        raised := Some(qrCodeData);
      } else {
        raised := None;
      }
    }

    /**
     * OnTrackableAdded: ignores anything but a QR code with a payload;
     * otherwise records the trackable and a copy of its current pose under
     * the payload, replacing any earlier entry.
     */
    method OnTrackableAdded(trackable: Trackable)
      requires Valid()
      modifies this
      ensures Valid()
      ensures trackable.trackableType != QRCode || trackable.markerPayload.None? ==>
                trackedQRCodes == old(trackedQRCodes) && qrCodeData == old(qrCodeData)
      ensures trackable.trackableType == QRCode && trackable.markerPayload.Some? ==>
                var p := trackable.markerPayload.value;
                && trackedQRCodes == old(trackedQRCodes)[p := trackable]
                && qrCodeData == old(qrCodeData)[p := QRCodeData(Some(p), Pose(trackable.position, trackable.rotation))]
      ensures mrukPresent == old(mrukPresent) && qrCodeTrackingEnabled == old(qrCodeTrackingEnabled)
      ensures hasSubscribers == old(hasSubscribers)
    {
      if trackable.trackableType != QRCode {
        return;
      }
      if trackable.markerPayload.None? {
        return;
      }
      var p := trackable.markerPayload.value;
      trackedQRCodes := trackedQRCodes[p := trackable];
      qrCodeData := qrCodeData[p := QRCodeData(Some(p), Pose(trackable.position, trackable.rotation))];
    }

    /**
     * OnTrackableRemoved: ignores anything but a QR code; otherwise deletes
     * the payload from both dictionaries (absent keys are no-ops). A null
     * payload makes Dictionary.Remove throw before anything changes: `ok`
     * is false then.
     */
    method OnTrackableRemoved(trackable: Trackable) returns (ok: bool)
      requires Valid()
      modifies this
      ensures Valid()
      ensures ok <==> trackable.trackableType != QRCode || trackable.markerPayload.Some?
      ensures trackable.trackableType != QRCode || !ok ==>
                trackedQRCodes == old(trackedQRCodes) && qrCodeData == old(qrCodeData)
      ensures trackable.trackableType == QRCode && ok ==>
                var p := trackable.markerPayload.value;
                trackedQRCodes == old(trackedQRCodes) - {p} && qrCodeData == old(qrCodeData) - {p}
      ensures mrukPresent == old(mrukPresent) && qrCodeTrackingEnabled == old(qrCodeTrackingEnabled)
      ensures hasSubscribers == old(hasSubscribers)
    {
      if trackable.trackableType != QRCode {
        return true;
      }
      if trackable.markerPayload.None? {
        return false;
      }
      var p := trackable.markerPayload.value;
      trackedQRCodes := trackedQRCodes - {p};
      qrCodeData := qrCodeData - {p};
      ok := true;
    }

    /** The TrackingEnabled setter: without MRUK it does nothing. */
    method SetTrackingEnabled(value: bool)
      modifies this
      ensures mrukPresent == old(mrukPresent)
      ensures qrCodeTrackingEnabled == if mrukPresent then value else old(qrCodeTrackingEnabled)
      ensures trackedQRCodes == old(trackedQRCodes) && qrCodeData == old(qrCodeData)
      ensures hasSubscribers == old(hasSubscribers)
    {
      if !mrukPresent {
        return;
      }
      qrCodeTrackingEnabled := value;
    }

    /**
     * ToggleQRTracking: negates TrackingEnabled (which stays false without
     * MRUK) and reports the new state.
     */
    method ToggleQRTracking(message: Option<string>) returns (status: string)
      modifies this
      ensures TrackingEnabled() == (mrukPresent && !old(TrackingEnabled()))
      ensures status == "QR Tracking enabled: " + BoolText(TrackingEnabled())
      ensures mrukPresent == old(mrukPresent) && hasSubscribers == old(hasSubscribers)
      ensures trackedQRCodes == old(trackedQRCodes) && qrCodeData == old(qrCodeData)
    {
      SetTrackingEnabled(!TrackingEnabled());
      status := "QR Tracking enabled: " + BoolText(TrackingEnabled());
    }
  }
}
