/**
 * The scene configuration: offsets in the robotics convention as they arrive
 * in JSON, their engine-convention form, and the name-keyed table that the
 * scene managers build from a deserialised list.
 *
 * Robotics convention (REP 103): x forward, y left, z up, right-handed.
 * Engine convention: x side, y up, z forward, left-handed.
 */
module SceneConfig {
  import opened Wrappers
  import opened Geometry

  /** An offset in the robotics convention; rotations are Euler angles in degrees. */
  datatype RawOffset = RawOffset(x: real, y: real, z: real, rotX: real, rotY: real, rotZ: real)
  {
    /**
     * RawOffset.ToSceneData: the offset in the engine convention. Engine
     * forward (z) is robotics forward (x), engine up (y) is robotics up (z),
     * engine side (x) is the negated robotics side (y); pitch, yaw and roll
     * move the same way, with the handedness flip negating yaw and roll.
     */
    function ToSceneData(name: Option<string>, qrCode: Option<string>): (d: SceneData)
      ensures d.name == name && d.qrCode == qrCode
      ensures d.position.z == x && d.position.y == z && d.position.x == -y
      ensures d.rotation.x == rotY && d.rotation.y == -rotZ && d.rotation.z == -rotX
      ensures d.ToRawJsonItem() == RawJsonSceneItem(name, qrCode, Some(this))
    {
      SceneData(name, qrCode, Vec3(-y, z, x), Vec3(rotY, -rotZ, -rotX))
    }
  }

  /** One element of the JSON list; C# leaves any of the three fields null when absent. */
  datatype RawJsonSceneItem = RawJsonSceneItem(name: Option<string>, qrCode: Option<string>, offset: Option<RawOffset>)

  /** One scene's configuration in the engine convention (position, Euler rotation). */
  datatype SceneData = SceneData(name: Option<string>, qrCode: Option<string>, position: Vec3, rotation: Vec3)
  {
    /**
     * SceneData.ToRawJsonItem: back to the robotics convention. Mapping the
     * produced offset forward again gives this position and rotation.
     */
    function ToRawJsonItem(): (item: RawJsonSceneItem)
      ensures item.name == name && item.qrCode == qrCode && item.offset.Some?
      ensures var o := item.offset.value;
              Vec3(-o.y, o.z, o.x) == position && Vec3(o.rotY, -o.rotZ, -o.rotX) == rotation
    {
      RawJsonSceneItem(name, qrCode, Some(RawOffset(position.z, -position.x, position.y,
                                                    -rotation.z, rotation.x, -rotation.y)))
    }
  }

  /** Converting to the robotics convention and back gives the same scene data. */
  lemma SceneDataRoundTrip(d: SceneData)
    ensures d.ToRawJsonItem().offset.value.ToSceneData(d.name, d.qrCode) == d
  {
  }

  /** char.IsWhiteSpace: the Unicode space, line and paragraph separators, U+0009..U+000D and U+0085. */
  predicate IsWhiteSpace(c: char) {
    || c == ' ' || ('\t' <= c <= '\r') || c == '\U{85}' || c == '\U{A0}' || c == '\U{1680}'
    || ('\U{2000}' <= c <= '\U{200A}') || c == '\U{2028}' || c == '\U{2029}' || c == '\U{202F}'
    || c == '\U{205F}' || c == '\U{3000}'
  }

  /** string.IsNullOrWhiteSpace. */
  predicate IsNullOrWhiteSpace(s: Option<string>) {
    s.None? || forall i | 0 <= i < |s.value| :: IsWhiteSpace(s.value[i])
  }

  /** string.IsNullOrEmpty. */
  predicate IsNullOrEmpty(s: Option<string>) {
    s.None? || s.value == ""
  }

  /**
   * What the JSON library returns for a payload: it throws, it returns null,
   * or it returns a list whose elements may themselves be null.
   */
  datatype Deserialized = Malformed | NullList | Items(items: seq<Option<RawJsonSceneItem>>)

  /** The loop body throws on this element: a null element, or a named item whose offset is null. */
  predicate Throws(item: Option<RawJsonSceneItem>) {
    item.None? || (!IsNullOrEmpty(item.value.name) && item.value.offset.None?)
  }

  /** The loop body stores this element under its name. */
  predicate Stored(item: Option<RawJsonSceneItem>) {
    item.Some? && !IsNullOrEmpty(item.value.name) && item.value.offset.Some?
  }

  /** The entry stored for an element. */
  function Converted(item: Option<RawJsonSceneItem>): SceneData
    requires Stored(item)
  {
    item.value.offset.value.ToSceneData(item.value.name, item.value.qrCode)
  }

  /** The index of the first element on which the loop throws (|items| when none does). */
  function FirstThrow(items: seq<Option<RawJsonSceneItem>>): (n: nat)
    ensures n <= |items|
    ensures forall j | 0 <= j < n :: !Throws(items[j])
    ensures n < |items| ==> Throws(items[n])
  {
    if items == [] then 0
    else if Throws(items[0]) then 0
    else 1 + FirstThrow(items[1..])
  }

  /** The table after running the loop body over `items` in order. */
  function SceneTable(items: seq<Option<RawJsonSceneItem>>): map<string, SceneData>
  {
    if items == [] then map[]
    else
      var table := SceneTable(items[..|items| - 1]);
      var item := items[|items| - 1];
      if Stored(item) then table[item.value.name.value := Converted(item)] else table
  }

  /** The result of ParseAndConvert for a payload and what the JSON library made of it. */
  function ParsedConfig(json: Option<string>, parsed: Deserialized): map<string, SceneData>
  {
    if IsNullOrWhiteSpace(json) then map[]
    else
      match parsed
      case Malformed => map[]
      case NullList => map[]
      case Items(items) => SceneTable(items[..FirstThrow(items)])
  }

  /** The keys of the table are exactly the names of the stored elements; none is empty. */
  lemma {:induction false} SceneTableKeys(items: seq<Option<RawJsonSceneItem>>, k: string)
    ensures k in SceneTable(items) <==>
            exists i | 0 <= i < |items| :: Stored(items[i]) && items[i].value.name == Some(k)
    ensures k in SceneTable(items) ==> k != ""
  {
    if items != [] {
      var init := items[..|items| - 1];
      SceneTableKeys(init, k);
      if k in SceneTable(init) {
        var i :| 0 <= i < |init| && Stored(init[i]) && init[i].value.name == Some(k);
        assert items[i] == init[i];
      }
      if exists i | 0 <= i < |items| :: Stored(items[i]) && items[i].value.name == Some(k) {
        var i :| 0 <= i < |items| && Stored(items[i]) && items[i].value.name == Some(k);
        if i < |init| {
          assert init[i] == items[i];
        }
      }
    }
  }

  /** An element stored under a name that no later stored element reuses is what the table holds for that name. */
  lemma {:induction false} SceneTableLastWins(items: seq<Option<RawJsonSceneItem>>, i: nat)
    requires i < |items| && Stored(items[i])
    requires forall j | i < j < |items| :: Stored(items[j]) ==> items[j].value.name != items[i].value.name
    ensures items[i].value.name.value in SceneTable(items)
    ensures SceneTable(items)[items[i].value.name.value] == Converted(items[i])
  {
    if i < |items| - 1 {
      var init := items[..|items| - 1];
      assert init[i] == items[i];
      SceneTableLastWins(init, i);
    }
  }

  /** Every entry carries its own key as its name. */
  lemma {:induction false} SceneTableNames(items: seq<Option<RawJsonSceneItem>>)
    ensures forall k | k in SceneTable(items) :: SceneTable(items)[k].name == Some(k)
  {
    if items != [] {
      SceneTableNames(items[..|items| - 1]);
    }
  }

  /** Blank payloads, payloads the library rejects and a null list all give the empty table. */
  lemma ParsedConfigEmpty(json: Option<string>, parsed: Deserialized)
    requires IsNullOrWhiteSpace(json) || parsed.Malformed? || parsed.NullList?
    ensures ParsedConfig(json, parsed) == map[]
  {
  }

  /** Some entry of the table is bound to this QR payload. */
  predicate HasSceneFor(config: map<string, SceneData>, qrName: string) {
    exists s | s in config :: config[s].qrCode == Some(qrName)
  }

  /**
   * The table after UpdateRawOffset: the named entry gets the new offset and
   * its own name, keeps its QR binding, and no other entry changes.
   */
  function WithRawOffset(config: map<string, SceneData>, sceneName: string, offset: RawOffset): (c: map<string, SceneData>)
    requires sceneName in config
    ensures c.Keys == config.Keys
    ensures c[sceneName].name == Some(sceneName) && c[sceneName].qrCode == config[sceneName].qrCode
    ensures c[sceneName].ToRawJsonItem().offset == Some(offset)
    ensures forall k | k in config && k != sceneName :: c[k] == config[k]
  {
    config[sceneName := offset.ToSceneData(Some(sceneName), config[sceneName].qrCode)]
  }

  /**
   * Where SetPosAndRot puts a scene object: at the marker position plus the
   * configured position, added in world space (not rotated by the marker),
   * facing the levelled marker direction and then turned by the configured
   * Euler rotation, post-multiplied.
   */
  function AnchorPlacement(markerPosition: Vec3, forward: Vec3, up: Vec3, position: Vec3, rotation: Vec3): (p: Pose)
    ensures Sub(p.position, markerPosition) == position
    ensures p.rotation == Product(LevelledRotation(forward, up), Euler(rotation))
  {
    Pose(Add(markerPosition, position), Product(LevelledRotation(forward, up), Euler(rotation)))
  }

  /**
   * For a marker whose forward and up axes form a rigid frame, the placed
   * object looks along a horizontal direction of squared length at least
   * 0.0001, with world up as its up: the fallback never hands LookRotation
   * a degenerate direction.
   */
  lemma PlacementFacesHorizontally(markerPosition: Vec3, forward: Vec3, up: Vec3,
                                    position: Vec3, rotation: Vec3)
    requires OrthonormalPair(forward, up)
    ensures var look := AnchorPlacement(markerPosition, forward, up, position, rotation).rotation.lhs;
            && look.LookRotation?
            && look.upwards == WorldUp
            && look.forward.y == 0.0
            && SqrMagnitude(look.forward) >= DegenerateSqrMagnitude
  {
    LevelledDirectionNonDegenerate(forward, up);
  }

  /** The placed position does not depend on the marker's orientation. */
  lemma PlacementIgnoresOrientation(markerPosition: Vec3, f1: Vec3, u1: Vec3, f2: Vec3, u2: Vec3,
                                    position: Vec3, rotation: Vec3)
    ensures AnchorPlacement(markerPosition, f1, u1, position, rotation).position ==
            AnchorPlacement(markerPosition, f2, u2, position, rotation).position
  {
  }
}
