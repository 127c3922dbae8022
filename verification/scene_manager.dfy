/**
 * MQ3SceneManager (QRTracking/Scripts): keeps the name-keyed scene
 * configuration, installs a new one from the toggle service's payload, and
 * each frame moves the scene object bound to every tracked QR code.
 */
module SceneManagement {
  import opened Wrappers
  import opened Geometry
  import opened SceneConfig
  import opened QRTracking

  /** The scene objects SimSceneSpawner knows, by scene name, with their world poses. */
  class SceneSpawner {
    var objectPoses: map<string, Pose>

    constructor (objectPoses: map<string, Pose>)
      ensures this.objectPoses == objectPoses
    {
      this.objectPoses := objectPoses;
    }
  }

  /** The scene objects of the spawner instance, none when there is no instance. */
  function ObjectPoses(spawner: SceneSpawner?): map<string, Pose>
    reads spawner
  {
    if spawner == null then map[] else spawner.objectPoses
  }

  /** The pose SetPosAndRot gives a scene object for a trackable's current transform. */
  function ScenePose(trackable: Trackable, data: SceneData): Pose
  {
    AnchorPlacement(trackable.position, trackable.forward, trackable.up, data.position, data.rotation)
  }

  /** Adding a fresh key keeps every value that was there. */
  lemma ValuesGrow<K, V>(m: map<K, V>, k: K, v: V)
    requires k !in m
    ensures m.Values <= m[k := v].Values
  {
    forall x | x in m.Values
      ensures x in m[k := v].Values
    {
      var q :| q in m && m[q] == x;
      assert m[k := v][q] == x;
    }
  }

  /** The tracked payloads some scene of the table is bound to. */
  ghost function BoundCodes(config: map<string, SceneData>, tracked: map<string, Trackable>): set<string>
  {
    set q | q in tracked && HasSceneFor(config, q)
  }

  /** Only the scenes in `moved` may have changed pose; no scene object appeared or went away. */
  ghost predicate Unmoved(before: map<string, Pose>, after: map<string, Pose>, moved: set<string>)
  {
    && after.Keys == before.Keys
    && forall s | s in after && s !in moved :: after[s] == before[s]
  }

  /** Moving one more scene, if it exists, keeps `Unmoved` with that scene added to `moved`. */
  lemma UnmovedStep(before: map<string, Pose>, after: map<string, Pose>, moved: set<string>, s: string, p: Pose)
    requires Unmoved(before, after, moved)
    ensures Unmoved(before, if s in after then after[s := p] else after, moved + {s})
  {
  }

  /**
   * Every dispatched payload names a scene bound to it, and that scene's
   * object, when the spawner has one, stands where the payload's marker puts it.
   */
  ghost predicate Positioned(config: map<string, SceneData>, tracked: map<string, Trackable>,
                             dispatched: map<string, string>, poses: map<string, Pose>)
  {
    forall q | q in dispatched ::
      && q in tracked && dispatched[q] in config && config[dispatched[q]].qrCode == Some(q)
      && (dispatched[q] in poses ==> poses[dispatched[q]] == ScenePose(tracked[q], config[dispatched[q]]))
  }

  /** Placing one more payload's scene keeps the earlier placements: their scenes are bound to other payloads. */
  lemma PositionedInsert(config: map<string, SceneData>, tracked: map<string, Trackable>,
                         dispatched: map<string, string>, poses: map<string, Pose>, qrName: string, s: string)
    requires Positioned(config, tracked, dispatched, poses)
    requires qrName in tracked && qrName !in dispatched
    requires s in config && config[s].qrCode == Some(qrName)
    ensures Positioned(config, tracked, dispatched[qrName := s],
                       if s in poses then poses[s := ScenePose(tracked[qrName], config[s])] else poses)
  {
  }

  class MQ3SceneManager {
    var qrCodeManager: QRCodeManager?
    var sceneConfig: map<string, SceneData>
    /** The tables NewSceneConfig was raised with, oldest first. */
    var raisedConfigs: seq<map<string, SceneData>>

    /** Every entry's Name is its key. */
    ghost predicate Valid()
      reads this
    {
      forall k | k in sceneConfig :: sceneConfig[k].name == Some(k)
    }

    constructor (qrCodeManager: QRCodeManager?)
      ensures Valid()
      ensures this.qrCodeManager == qrCodeManager && sceneConfig == map[] && raisedConfigs == []
    {
      this.qrCodeManager := qrCodeManager;
      sceneConfig := map[];
      raisedConfigs := [];
    }

    /**
     * ParseAndConvert, after deserialisation: a blank payload, one the JSON
     * library rejects and a null list give the empty table; otherwise the
     * items are stored by name in order, unnamed ones skipped, until an item
     * throws, and the table built so far is returned.
     */
    method ParseAndConvert(json: Option<string>, parsed: Deserialized) returns (result: map<string, SceneData>)
      ensures result == ParsedConfig(json, parsed)
    {
      result := map[];
      if IsNullOrWhiteSpace(json) {
        return;
      }
      match parsed
      case Malformed =>
        return;
      case NullList =>
        return;
      case Items(items) =>
        var i := 0;
        while i < |items|
          invariant 0 <= i <= FirstThrow(items)
          invariant result == SceneTable(items[..i])
        {
          var item := items[i];
          if item.None? {
            break;
          }
          if IsNullOrEmpty(item.value.name) {
            assert items[..i + 1][..i] == items[..i];
            i := i + 1;
            continue;
          }
          if item.value.offset.None? {
            break;
          }
          var sceneData := item.value.offset.value.ToSceneData(item.value.name, item.value.qrCode);
          result := result[item.value.name.value := sceneData];
          assert items[..i + 1][..i] == items[..i];
          i := i + 1;
        }
    }

    /**
     * getSceneNameFromQrName: some scene whose QrCode is the payload, or null
     * exactly when there is none.
     */
    method GetSceneNameFromQrName(qrName: string) returns (sceneName: Option<string>)
      ensures sceneName.Some? ==> sceneName.value in sceneConfig && sceneConfig[sceneName.value].qrCode == Some(qrName)
      ensures sceneName.None? <==> !HasSceneFor(sceneConfig, qrName)
    {
      var remaining := sceneConfig.Keys;
      while remaining != {}
        invariant remaining <= sceneConfig.Keys
        invariant forall s | s in sceneConfig && s !in remaining :: sceneConfig[s].qrCode != Some(qrName)
        decreases remaining
      {
        var s :| s in remaining;
        if sceneConfig[s].qrCode == Some(qrName) {
          return Some(s);
        }
        remaining := remaining - {s};
      }
      return None;
    }

    /**
     * UpdateRawOffset: the scene's entry is replaced by the converted offset,
     * keeping its QR binding, and NewSceneConfig is raised. An unknown scene
     * name makes the dictionary indexer throw before anything changes.
     */
    method UpdateRawOffset(sceneName: string, offset: RawOffset) returns (found: bool)
      requires Valid()
      modifies this
      ensures Valid()
      ensures found <==> sceneName in old(sceneConfig)
      ensures found ==> sceneConfig == WithRawOffset(old(sceneConfig), sceneName, offset)
      ensures found ==> raisedConfigs == old(raisedConfigs) + [sceneConfig]
      ensures !found ==> sceneConfig == old(sceneConfig) && raisedConfigs == old(raisedConfigs)
      ensures qrCodeManager == old(qrCodeManager)
    {
      if sceneName !in sceneConfig {
        return false;
      }
      var current := sceneConfig[sceneName];
      var sceneData := offset.ToSceneData(Some(sceneName), current.qrCode);
      sceneConfig := sceneConfig[sceneName := sceneData];
      raisedConfigs := raisedConfigs + [sceneConfig];
      found := true;
    }

    /**
     * SetPosAndRot: without a spawner instance the lookup throws (`threw`)
     * before anything moves; a scene the spawner does not know is left
     * alone; otherwise its object is placed by the levelled marker pose and
     * the scene's offset.
     */
    method SetPosAndRot(trackable: Trackable, sceneName: string, spawner: SceneSpawner?) returns (threw: bool)
      requires sceneName in sceneConfig
      modifies spawner
      ensures threw <==> spawner == null
      ensures ObjectPoses(spawner) ==
              if sceneName in old(ObjectPoses(spawner))
              then old(ObjectPoses(spawner))[sceneName := ScenePose(trackable, sceneConfig[sceneName])]
              else old(ObjectPoses(spawner))
    {
      if spawner == null {
        return true;
      }
      threw := false;
      if sceneName !in spawner.objectPoses {
        return;
      }
      var qua := LookRotation(LevelledDirection(trackable.forward, trackable.up), WorldUp);
      var sceneData := sceneConfig[sceneName];
      var pose := Pose(Add(trackable.position, sceneData.position), Product(qua, Euler(sceneData.rotation)));
      spawner.objectPoses := spawner.objectPoses[sceneName := pose];
    }

    /**
     * ToggleQRTracking: installs the parsed payload unconditionally (so a
     * malformed payload clears the configuration), raises NewSceneConfig,
     * then toggles tracking on the QR-code manager if there is one.
     */
    method ToggleQRTracking(message: Option<string>, parsed: Deserialized) returns (status: string)
      modifies this, qrCodeManager
      ensures Valid()
      ensures sceneConfig == ParsedConfig(message, parsed)
      ensures raisedConfigs == old(raisedConfigs) + [sceneConfig]
      ensures qrCodeManager == old(qrCodeManager)
      ensures qrCodeManager == null ==> status == "No QRCodeManager available"
      ensures qrCodeManager != null ==>
                && qrCodeManager.TrackingEnabled() ==
                   (qrCodeManager.mrukPresent && !old(qrCodeManager.TrackingEnabled()))
                && status == "QR Tracking enabled: " + BoolText(qrCodeManager.TrackingEnabled())
                && qrCodeManager.mrukPresent == old(qrCodeManager.mrukPresent)
                && qrCodeManager.hasSubscribers == old(qrCodeManager.hasSubscribers)
                && qrCodeManager.trackedQRCodes == old(qrCodeManager.trackedQRCodes)
                && qrCodeManager.qrCodeData == old(qrCodeManager.qrCodeData)
    {
      var config := ParseAndConvert(message, parsed);
      sceneConfig := config;
      if parsed.Items? {
        SceneTableNames(parsed.items[..FirstThrow(parsed.items)]);
      }
      raisedConfigs := raisedConfigs + [sceneConfig];
      if qrCodeManager != null {
        status := qrCodeManager.ToggleQRTracking(message);
        return;
      }
      status := "No QRCodeManager available";
    }

    /**
     * Update: nothing without a manager or with tracking off; otherwise every
     * tracked code bound to a scene moves that scene's object, and codes
     * bound to no scene are skipped. `dispatched` records, per code, the
     * scene it was dispatched to. Without a spawner instance the first code
     * bound to a scene throws, which ends the frame's pass (`aborted`).
     */
    method Update(spawner: SceneSpawner?) returns (dispatched: map<string, string>, aborted: bool)
      modifies spawner
      ensures ObjectPoses(spawner).Keys == old(ObjectPoses(spawner)).Keys
      ensures forall s | s in ObjectPoses(spawner) && s !in dispatched.Values ::
                ObjectPoses(spawner)[s] == old(ObjectPoses(spawner))[s]
      ensures qrCodeManager == null || !qrCodeManager.TrackingEnabled() ==>
                dispatched == map[] && !aborted && ObjectPoses(spawner) == old(ObjectPoses(spawner))
      ensures qrCodeManager != null && qrCodeManager.TrackingEnabled() ==>
                var tracked := qrCodeManager.trackedQRCodes;
                var bound := BoundCodes(sceneConfig, tracked);
                && dispatched.Keys <= bound
                && (forall q | q in dispatched ::
                      dispatched[q] in sceneConfig && sceneConfig[dispatched[q]].qrCode == Some(q))
                && (forall q | q in dispatched && dispatched[q] in ObjectPoses(spawner) ::
                      ObjectPoses(spawner)[dispatched[q]] == ScenePose(tracked[q], sceneConfig[dispatched[q]]))
                && (aborted <==> spawner == null && bound != {})
                && (!aborted ==> dispatched.Keys == bound)
                && (aborted ==> |dispatched| == 1)
    {
      dispatched, aborted := map[], false;
      if qrCodeManager == null || !qrCodeManager.TrackingEnabled() {
        return;
      }
      var tracked := qrCodeManager.trackedQRCodes;
      ghost var bound := BoundCodes(sceneConfig, tracked);
      var remaining := tracked.Keys;
      while remaining != {}
        invariant remaining <= tracked.Keys
        invariant !aborted
        invariant dispatched.Keys == bound - remaining
        invariant spawner == null ==> dispatched == map[]
        invariant Positioned(sceneConfig, tracked, dispatched, ObjectPoses(spawner))
        invariant ObjectPoses(spawner).Keys == old(ObjectPoses(spawner)).Keys
        invariant forall s | s in ObjectPoses(spawner) && s !in dispatched.Values ::
                    ObjectPoses(spawner)[s] == old(ObjectPoses(spawner))[s]
        decreases remaining
      {
        var qrName :| qrName in remaining;
        var sceneName := GetSceneNameFromQrName(qrName);
        assert qrName in bound <==> sceneName.Some?;
        if sceneName.Some? {
          PositionedInsert(sceneConfig, tracked, dispatched, ObjectPoses(spawner), qrName, sceneName.value);
          var threw := SetPosAndRot(tracked[qrName], sceneName.value, spawner);
          ValuesGrow(dispatched, qrName, sceneName.value);
          dispatched := dispatched[qrName := sceneName.value];
          if threw {
            aborted := true;
            return;
          }
        }
        remaining := remaining - {qrName};
      }
    }
  }
}
