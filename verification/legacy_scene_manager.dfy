/**
 * The earlier MQ3SceneManager (Assets/MQ3SceneManager.cs): the same table,
 * without a Name in its entries, with the coordinate conversion written inline
 * in the parsing loop, a scene-object lookup inside that loop, and no null
 * check on the scene object in SetPosAndRot.
 */
module LegacySceneManagement {
  import opened Wrappers
  import opened Geometry
  import opened SceneConfig
  import opened QRTracking
  import opened SceneManagement

  /** SceneData of the earlier variant: QR binding, position, Euler rotation. */
  datatype LegacySceneData = LegacySceneData(qrCode: Option<string>, position: Vec3, rotation: Vec3)

  /** An entry of the newer table without its Name. */
  function Strip(d: SceneData): LegacySceneData {
    LegacySceneData(d.qrCode, d.position, d.rotation)
  }

  function StripTable(table: map<string, SceneData>): map<string, LegacySceneData> {
    map k | k in table :: Strip(table[k])
  }

  lemma StripInsert(table: map<string, SceneData>, k: string, d: SceneData)
    ensures StripTable(table[k := d]) == StripTable(table)[k := Strip(d)]
  {
  }

  /** One more element of the list extends the table by at most its own entry. */
  lemma SceneTableStep(items: seq<Option<RawJsonSceneItem>>, i: nat)
    requires i < |items|
    ensures SceneTable(items[..i + 1]) ==
            if Stored(items[i]) then SceneTable(items[..i])[items[i].value.name.value := Converted(items[i])]
            else SceneTable(items[..i])
  {
    assert items[..i + 1][..i] == items[..i];
  }

  /** The conversion written inline in ParseAndConvert: the same as RawOffset.ToSceneData. */
  function InlineConversion(offset: RawOffset, qrCode: Option<string>): (d: LegacySceneData)
    ensures forall name: Option<string> :: d == Strip(offset.ToSceneData(name, qrCode))
  {
    var finalPos := Vec3(-offset.y, offset.z, offset.x);
    var finalRot := Vec3(offset.rotY, -offset.rotZ, -offset.rotX);
    LegacySceneData(qrCode, finalPos, finalRot)
  }

  /**
   * How many elements the loop gets through: it stops on an element that
   * throws, and, when the scene-object lookup after each insertion throws
   * (no spawner), right after the first stored element.
   */
  function LegacyStop(items: seq<Option<RawJsonSceneItem>>, spawnerPresent: bool): (n: nat)
    ensures n <= |items|
  {
    if items == [] || Throws(items[0]) then 0
    else if Stored(items[0]) && !spawnerPresent then 1
    else 1 + LegacyStop(items[1..], spawnerPresent)
  }

  /** The result of the earlier ParseAndConvert. */
  function LegacyParsedConfig(json: Option<string>, parsed: Deserialized, spawnerPresent: bool): map<string, LegacySceneData>
  {
    if IsNullOrWhiteSpace(json) then map[]
    else
      match parsed
      case Malformed => map[]
      case NullList => map[]
      case Items(items) => StripTable(SceneTable(items[..LegacyStop(items, spawnerPresent)]))
  }

  /** With the scene-object lookup succeeding, the loop stops exactly where the newer one does. */
  lemma {:induction false} LegacyStopWithSpawner(items: seq<Option<RawJsonSceneItem>>)
    ensures LegacyStop(items, true) == FirstThrow(items)
  {
    if items != [] && !Throws(items[0]) {
      LegacyStopWithSpawner(items[1..]);
    }
  }

  /** With the scene-object lookup succeeding, both variants build the same table, up to the Name field. */
  lemma LegacyAgreesWithCurrent(json: Option<string>, parsed: Deserialized)
    ensures LegacyParsedConfig(json, parsed, true) == StripTable(ParsedConfig(json, parsed))
  {
    if parsed.Items? {
      LegacyStopWithSpawner(parsed.items);
    }
  }

  /**
   * Without a spawner the loop stops where the newer one does, or earlier,
   * right after the first stored element: none before that one is stored.
   */
  lemma {:induction false} LegacyStopNoSpawner(items: seq<Option<RawJsonSceneItem>>)
    ensures LegacyStop(items, false) <= FirstThrow(items)
    ensures LegacyStop(items, false) == FirstThrow(items) ||
            (LegacyStop(items, false) > 0 && Stored(items[LegacyStop(items, false) - 1]))
    ensures forall j | 0 <= j && j + 1 < LegacyStop(items, false) :: !Stored(items[j])
  {
    if items != [] && !Throws(items[0]) && !Stored(items[0]) {
      LegacyStopNoSpawner(items[1..]);
      var m := LegacyStop(items[1..], false);
      if m > 0 {
        assert items[1..][m - 1] == items[m];
      }
      forall j | 0 <= j && j + 1 < LegacyStop(items, false)
        ensures !Stored(items[j])
      {
        if j > 0 {
          assert items[j] == items[1..][j - 1];
        }
      }
    }
  }

  /**
   * Without a spawner the earlier ParseAndConvert keeps at most one scene,
   * however many named items the payload lists.
   */
  lemma LegacyWithoutSpawnerKeepsOneScene(json: Option<string>, parsed: Deserialized)
    ensures |LegacyParsedConfig(json, parsed, false)| <= 1
  {
    if !IsNullOrWhiteSpace(json) && parsed.Items? {
      var items := parsed.items;
      var n := LegacyStop(items, false);
      var prefix := items[..n];
      var table := SceneTable(prefix);
      assert StripTable(table).Keys == table.Keys;
      if n == 0 {
        assert prefix == [];
      } else {
        LegacyStopNoSpawner(items);
        forall k | k in table
          ensures Stored(prefix[n - 1]) && k == prefix[n - 1].value.name.value
        {
          SceneTableKeys(prefix, k);
          var i :| 0 <= i < |prefix| && Stored(prefix[i]) && prefix[i].value.name == Some(k);
          assert prefix[i] == items[i];
        }
        if table.Keys != {} {
          var k :| k in table;
          assert table.Keys == {k};
        }
      }
    }
  }

  /**
   * Two items with different names: the earlier variant without a spawner
   * keeps only the first, the newer one keeps both.
   */
  lemma LegacyTruncatesWithoutSpawner(json: Option<string>, a: RawJsonSceneItem, b: RawJsonSceneItem)
    requires !IsNullOrWhiteSpace(json)
    requires Stored(Some(a)) && Stored(Some(b)) && a.name != b.name
    ensures LegacyParsedConfig(json, Items([Some(a), Some(b)]), false).Keys == {a.name.value}
    ensures ParsedConfig(json, Items([Some(a), Some(b)])).Keys == {a.name.value, b.name.value}
  {
    var items := [Some(a), Some(b)];
    assert LegacyStop(items, false) == 1;
    assert items[1..][1..] == [];
    assert FirstThrow(items) == 2;
    assert items[..1][..0] == [];
    assert items[..2] == items && items[..2][..1] == items[..1];
    assert SceneTable(items[..1]).Keys == {a.name.value};
    assert StripTable(SceneTable(items[..1])).Keys == SceneTable(items[..1]).Keys;
  }

  predicate LegacyHasSceneFor(config: map<string, LegacySceneData>, qrName: string) {
    exists s | s in config :: config[s].qrCode == Some(qrName)
  }

  /** The tracked payloads some scene of the table is bound to. */
  ghost function LegacyBoundCodes(config: map<string, LegacySceneData>, tracked: map<string, Trackable>): set<string>
  {
    set q | q in tracked && LegacyHasSceneFor(config, q)
  }

  /** The pose the earlier SetPosAndRot gives a scene object. */
  function LegacyScenePose(trackable: Trackable, data: LegacySceneData): Pose
  {
    AnchorPlacement(trackable.position, trackable.forward, trackable.up, data.position, data.rotation)
  }

  /**
   * Every dispatched payload names a scene bound to it, and that scene's
   * object stands where the payload's marker puts it.
   */
  ghost predicate Placed(config: map<string, LegacySceneData>, tracked: map<string, Trackable>,
                         dispatched: map<string, string>, poses: map<string, Pose>)
  {
    forall q | q in dispatched ::
      && q in tracked && dispatched[q] in config && config[dispatched[q]].qrCode == Some(q)
      && dispatched[q] in poses && poses[dispatched[q]] == LegacyScenePose(tracked[q], config[dispatched[q]])
  }

  /** Placing one more payload's scene keeps the earlier placements: their scenes are bound to other payloads. */
  lemma PlacedInsert(config: map<string, LegacySceneData>, tracked: map<string, Trackable>,
                     dispatched: map<string, string>, poses: map<string, Pose>, qrName: string, s: string)
    requires Placed(config, tracked, dispatched, poses)
    requires qrName in tracked && qrName !in dispatched
    requires s in config && config[s].qrCode == Some(qrName) && s in poses
    ensures Placed(config, tracked, dispatched[qrName := s], poses[s := LegacyScenePose(tracked[qrName], config[s])])
  {
  }

  class LegacySceneManager {
    var qrCodeManager: QRCodeManager?
    var sceneConfig: map<string, LegacySceneData>
    /** The tables NewSceneConfig was raised with, oldest first. */
    var raisedConfigs: seq<map<string, LegacySceneData>>

    constructor (qrCodeManager: QRCodeManager?)
      ensures this.qrCodeManager == qrCodeManager && sceneConfig == map[] && raisedConfigs == []
    {
      this.qrCodeManager := qrCodeManager;
      sceneConfig := map[];
      raisedConfigs := [];
    }

    /**
     * ParseAndConvert of the earlier variant. `spawnerPresent` says whether
     * the scene-object lookup logged after each insertion finds a spawner
     * instance; without one it throws and the table built so far (including
     * the item just inserted) is returned.
     */
    method ParseAndConvert(json: Option<string>, parsed: Deserialized, spawnerPresent: bool)
      returns (result: map<string, LegacySceneData>)
      ensures result == LegacyParsedConfig(json, parsed, spawnerPresent)
    {
      result := map[];
      if IsNullOrWhiteSpace(json) {
        return;
      }
      match parsed
      case Malformed =>
        return;
      case NullList =>
        return;
      case Items(items) =>
        var i := 0;
        while i < |items|
          invariant 0 <= i <= |items|
          invariant LegacyStop(items, spawnerPresent) == i + LegacyStop(items[i..], spawnerPresent)
          invariant result == StripTable(SceneTable(items[..i]))
        {
          var item := items[i];
          assert items[i..][1..] == items[i + 1..];
          SceneTableStep(items, i);
          if item.None? {
            break;
          }
          if IsNullOrEmpty(item.value.name) {
            i := i + 1;
            continue;
          }
          if item.value.offset.None? {
            break;
          }
          var sceneData := InlineConversion(item.value.offset.value, item.value.qrCode);
          StripInsert(SceneTable(items[..i]), item.value.name.value, Converted(item));
          result := result[item.value.name.value := sceneData];
          i := i + 1;
          if !spawnerPresent {
            break;
          }
        }
    }

    /** getSceneNameFromQrName: some scene bound to the payload, or null exactly when there is none. */
    method GetSceneNameFromQrName(qrName: string) returns (sceneName: Option<string>)
      ensures sceneName.Some? ==> sceneName.value in sceneConfig && sceneConfig[sceneName.value].qrCode == Some(qrName)
      ensures sceneName.None? <==> !LegacyHasSceneFor(sceneConfig, qrName)
    {
      var remaining := sceneConfig.Keys;
      while remaining != {}
        invariant remaining <= sceneConfig.Keys
        invariant forall s | s in sceneConfig && s !in remaining :: sceneConfig[s].qrCode != Some(qrName)
        decreases remaining
      {
        var s :| s in remaining;
        if sceneConfig[s].qrCode == Some(qrName) {
          return Some(s);
        }
        remaining := remaining - {s};
      }
      return None;
    }

    /**
     * SetPosAndRot of the earlier variant: there is no null check, so a
     * missing spawner instance, or a scene the spawner does not know, throws
     * (`threw`) before anything moves.
     */
    method SetPosAndRot(trackable: Trackable, sceneName: string, spawner: SceneSpawner?) returns (threw: bool)
      requires sceneName in sceneConfig
      modifies spawner
      ensures threw <==> spawner == null || sceneName !in old(ObjectPoses(spawner))
      ensures ObjectPoses(spawner) ==
              if threw then old(ObjectPoses(spawner))
              else old(ObjectPoses(spawner))[sceneName := LegacyScenePose(trackable, sceneConfig[sceneName])]
    {
      if spawner == null || sceneName !in spawner.objectPoses {
        return true;
      }
      var qua := LookRotation(LevelledDirection(trackable.forward, trackable.up), WorldUp);
      var sceneData := sceneConfig[sceneName];
      var pose := Pose(Add(trackable.position, sceneData.position), Product(qua, Euler(sceneData.rotation)));
      spawner.objectPoses := spawner.objectPoses[sceneName := pose];
      threw := false;
    }

    /**
     * ToggleQRTracking: installs the parsed payload unconditionally, raises
     * NewSceneConfig, then toggles tracking on the manager if there is one.
     */
    method ToggleQRTracking(message: Option<string>, parsed: Deserialized, spawnerPresent: bool) returns (status: string)
      modifies this, qrCodeManager
      ensures sceneConfig == LegacyParsedConfig(message, parsed, spawnerPresent)
      ensures raisedConfigs == old(raisedConfigs) + [sceneConfig]
      ensures qrCodeManager == old(qrCodeManager)
      ensures qrCodeManager == null ==> status == "No QRCodeManager available"
      ensures qrCodeManager != null ==>
                && qrCodeManager.TrackingEnabled() ==
                   (qrCodeManager.mrukPresent && !old(qrCodeManager.TrackingEnabled()))
                && status == "QR Tracking enabled: " + BoolText(qrCodeManager.TrackingEnabled())
                && qrCodeManager.mrukPresent == old(qrCodeManager.mrukPresent)
                && qrCodeManager.hasSubscribers == old(qrCodeManager.hasSubscribers)
                && qrCodeManager.trackedQRCodes == old(qrCodeManager.trackedQRCodes)
                && qrCodeManager.qrCodeData == old(qrCodeManager.qrCodeData)
    {
      var config := ParseAndConvert(message, parsed, spawnerPresent);
      sceneConfig := config;
      raisedConfigs := raisedConfigs + [sceneConfig];
      if qrCodeManager != null {
        status := qrCodeManager.ToggleQRTracking(message);
        return;
      }
      status := "No QRCodeManager available";
    }

    /**
     * Update of the earlier variant: like the current one, except that a
     * tracked code bound to a scene without a scene object, or any code bound
     * to a scene when there is no spawner instance, throws, which ends the
     * frame's pass (`aborted`) with the codes handled so far.
     */
    method Update(spawner: SceneSpawner?) returns (dispatched: map<string, string>, aborted: bool)
      modifies spawner
      ensures ObjectPoses(spawner).Keys == old(ObjectPoses(spawner)).Keys
      ensures forall s | s in ObjectPoses(spawner) && s !in dispatched.Values ::
                ObjectPoses(spawner)[s] == old(ObjectPoses(spawner))[s]
      ensures qrCodeManager == null || !qrCodeManager.TrackingEnabled() ==>
                dispatched == map[] && !aborted && ObjectPoses(spawner) == old(ObjectPoses(spawner))
      ensures qrCodeManager != null && qrCodeManager.TrackingEnabled() ==>
                var tracked := qrCodeManager.trackedQRCodes;
                && dispatched.Keys <= LegacyBoundCodes(sceneConfig, tracked)
                && (forall q | q in dispatched ::
                      dispatched[q] in sceneConfig && sceneConfig[dispatched[q]].qrCode == Some(q))
                && (forall q | q in dispatched && dispatched[q] in ObjectPoses(spawner) ::
                      ObjectPoses(spawner)[dispatched[q]] == LegacyScenePose(tracked[q], sceneConfig[dispatched[q]]))
                && (!aborted ==> dispatched.Keys == LegacyBoundCodes(sceneConfig, tracked))
                && (!aborted ==> forall q | q in dispatched :: dispatched[q] in ObjectPoses(spawner))
                && (aborted ==> exists q | q in dispatched :: dispatched[q] !in ObjectPoses(spawner))
    {
      dispatched, aborted := map[], false;
      if qrCodeManager == null || !qrCodeManager.TrackingEnabled() {
        return;
      }
      var tracked := qrCodeManager.trackedQRCodes;
      ghost var bound := LegacyBoundCodes(sceneConfig, tracked);
      var remaining := tracked.Keys;
      ghost var poses := ObjectPoses(spawner);
      while remaining != {}
        invariant remaining <= tracked.Keys
        invariant !aborted
        invariant dispatched.Keys == bound - remaining
        invariant poses == ObjectPoses(spawner)
        invariant Placed(sceneConfig, tracked, dispatched, poses)
        invariant Unmoved(old(ObjectPoses(spawner)), poses, dispatched.Values)
        decreases remaining
      {
        var qrName :| qrName in remaining;
        var sceneName := GetSceneNameFromQrName(qrName);
        assert qrName in bound <==> sceneName.Some?;
        if sceneName.Some? {
          var s := sceneName.value;
          ghost var pose := LegacyScenePose(tracked[qrName], sceneConfig[s]);
          var threw := SetPosAndRot(tracked[qrName], s, spawner);
          UnmovedStep(old(ObjectPoses(spawner)), poses, dispatched.Values, s, pose);
          ValuesGrow(dispatched, qrName, s);
          if threw {
            dispatched := dispatched[qrName := s];
            aborted := true;
            return;
          }
          PlacedInsert(sceneConfig, tracked, dispatched, poses, qrName, s);
          dispatched := dispatched[qrName := s];
          poses := poses[s := pose];
        }
        remaining := remaining - {qrName};
      }
    }
  }
}
