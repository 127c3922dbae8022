# QR-marker anchoring, modelled in Dafny

This project models the anchoring core of the IRIS Meta Quest 3 client. That core keeps virtual scene
objects aligned with physical QR codes seen by the headset. It has four parts:

- **Scene configuration** (`MQ3SceneManager`, in two versions). A JSON list of scene offsets arrives
  in the robotics convention (x forward, y left, z up, right-handed, as in ROS REP 103). It is
  converted to the engine's convention (x side, y up, z forward, left-handed) and kept in a table
  keyed by scene name. A reverse lookup maps a QR payload to a scene. Each frame, every tracked code
  that is bound to a scene moves that scene's object. The object is placed at the marker position
  plus the configured position, facing the marker's levelled direction turned by the configured
  Euler rotation.
- **Tracked-code registry** (`QRCodeManager`). Two dictionaries keyed by payload hold the tracked
  trackables and a copy of their poses. They are updated when a trackable is added or removed. A
  tracking switch is toggled remotely. Each frame, the manager notifies subscribers when tracking is
  on and at least one code is known.
- **Anchors** (`QRCodeAnchor`). A remote call sets the code an anchor follows and an offset. The
  offset rotation is optionally levelled. Every notification resets the anchor to the code's
  recorded pose and applies the offset again.
- **The levelling rule**, shared by both. The facing direction is the marker's forward axis
  projected onto the horizontal plane. When that is shorter than 0.01 (squared length below
  0.0001), the up axis projected the same way is used instead.

Files, one Dafny module each:

- `wrappers.dfy`: `Option`, which stands for C#'s null.
- `geometry.dfy`: vectors over `real`, the symbolic `Quaternion`, and the levelling rule with its
  properties.
- `scene_config.dfy`: the offset conversions, the table that parsing builds (as functions), the
  per-entry offset update, and where a scene object is placed.
- `qr_code_manager.dfy`: the `QRCodeManager` class and the engine's trackables.
- `scene_manager.dfy`: the `MQ3SceneManager` class of `Assets/IRISMetaQuest3/QRTracking/Scripts`,
  and the spawner's scene objects.
- `legacy_scene_manager.dfy`: the earlier `Assets/MQ3SceneManager.cs`, with its differences proved
  against the newer one.
- `qr_code_anchor.dfy`: the `QRCodeAnchor` class.

Conventions used throughout:

- **Exceptions** are modelled as outcomes, never as preconditions:
  - a null list element or a null offset ends the parsing loop, and the table built so far is kept;
  - an unknown scene name in `UpdateRawOffset` changes nothing;
  - a short or null array in `SetOffset` stops after the fields already written;
  - the earlier scene manager's null scene object ends that frame's pass;
  - in both scene managers, a missing `SimSceneSpawner.Instance` makes the first code bound to a
    scene throw, which ends that frame's pass.
- **Rotations** are terms: a raw-component quaternion, `LookRotation`, `Euler` or a product. This
  keeps the engine's quaternion library uninterpreted. Quaternion-times-vector on a raw-component
  quaternion is the rotation-matrix formula.
- **Engine objects**:
  - A trackable is an object with a fixed payload and transform.
  - The spawner's scene objects are a map from scene name to pose.
  - Raising an event is recorded as appending the new table to `raisedConfigs`, or as a returned
    value.

The model adds no behaviour the code lacks:

- There is no cache of last-known marker poses and no queue of configuration updates. With
  tracking off, `Update` simply returns.
- A payload the JSON library rejects installs an empty table. The previous table is not kept.
- When both the forward and the up axis are vertical, there is no third fallback direction.
- Only the list schema with a `name` field is read.
- The configured position is added in world space. It is not rotated into the marker's frame.

## Model

| member | source | states |
|---|---|---|
| SceneConfig.RawOffset.ToSceneData | Assets/IRISMetaQuest3/QRTracking/Scripts/MQ3SceneManager.cs:48-71 | engine position is (-y, z, x) and engine rotation is (rotY, -rotZ, -rotX); name and QR code are copied; converting back yields exactly this offset |
| SceneConfig.SceneData.ToRawJsonItem | Assets/IRISMetaQuest3/QRTracking/Scripts/MQ3SceneManager.cs:86-105 | copies name and QR code, always gives an offset, and that offset maps forward to this position and rotation |
| SceneConfig.SceneDataRoundTrip | Assets/IRISMetaQuest3/QRTracking/Scripts/MQ3SceneManager.cs:86-105 | converting scene data to the robotics convention and back returns the same scene data |
| SceneConfig.FirstThrow | Assets/IRISMetaQuest3/QRTracking/Scripts/MQ3SceneManager.cs:201-216 | the index where the parsing loop throws: a null element, or a named item with a null offset; no element before it throws |
| SceneConfig.ParsedConfigEmpty | Assets/IRISMetaQuest3/QRTracking/Scripts/MQ3SceneManager.cs:192-199 | a null, empty or whitespace payload, a payload the library rejects, and a null list all give the empty table |
| SceneConfig.SceneTableKeys | Assets/IRISMetaQuest3/QRTracking/Scripts/MQ3SceneManager.cs:201-208 | a name is a key exactly when some stored item carries it (unnamed items skipped); no key is empty |
| SceneConfig.SceneTableLastWins | Assets/IRISMetaQuest3/QRTracking/Scripts/MQ3SceneManager.cs:206-208 | the entry under a name is the conversion of the last item carrying that name |
| SceneConfig.SceneTableNames | Assets/IRISMetaQuest3/QRTracking/Scripts/MQ3SceneManager.cs:206-208 | every entry's Name is its own key |
| SceneConfig.WithRawOffset | Assets/IRISMetaQuest3/QRTracking/Scripts/MQ3SceneManager.cs:136-141 | the key set is unchanged; the named entry gets the new offset (read back as the same raw offset), its own name and its old QR code; every other entry is unchanged |
| SceneConfig.AnchorPlacement | Assets/IRISMetaQuest3/QRTracking/Scripts/MQ3SceneManager.cs:163-170 | the object sits at the marker position plus the configured position, added in world space; its rotation is the levelled look rotation times the configured Euler rotation |
| SceneConfig.PlacementFacesHorizontally | Assets/IRISMetaQuest3/QRTracking/Scripts/MQ3SceneManager.cs:150-170 | for a marker whose forward and up axes are orthonormal, the placed object looks along a horizontal direction of squared length at least 0.0001 with world up as up |
| SceneConfig.PlacementIgnoresOrientation | Assets/IRISMetaQuest3/QRTracking/Scripts/MQ3SceneManager.cs:165-169 | the placed position does not depend on the marker's orientation |
| Geometry.ProjectOnPlane | Assets/IRISMetaQuest3/QRTracking/Scripts/MQ3SceneManager.cs:154 | the projection is orthogonal to a non-zero normal; a zero normal leaves the vector as it is |
| Geometry.HorizontalProjection | Assets/IRISMetaQuest3/QRTracking/Scripts/MQ3SceneManager.cs:154-159 | projecting onto the plane with normal world-up drops the vertical component and nothing else |
| Geometry.LevelledDirection | Assets/IRISMetaQuest3/QRTracking/Scripts/MQ3SceneManager.cs:150-160 | the direction is horizontal; it is forward flattened when that has squared length at least 0.0001, and up flattened otherwise |
| Geometry.LevelledDirectionNonDegenerate | Assets/IRISMetaQuest3/QRTracking/Scripts/MQ3SceneManager.cs:156-163 | for a marker's orthonormal forward and up axes, the direction handed to LookRotation always has squared length at least 0.0001 |
| Geometry.RotateByComponents | Assets/IRISMetaQuest3/QRTracking/Scripts/QRCodeAnchor.cs:39-43 | the identity quaternion leaves a vector unchanged; a rotation about the vertical axis keeps its height |
| Geometry.YawOnlyRotationKeepsFacing | Assets/IRISMetaQuest3/QRTracking/Scripts/QRCodeAnchor.cs:37-46 | levelling a unit rotation about the vertical axis returns its rotated forward axis unchanged |
| QRTracking.QRCodeManager.TrackingEnabled | Assets/IRISMetaQuest3/QRTracking/Scripts/QRCodeManager.cs:130-132 | tracking reads as enabled only with MRUK present, and then exactly when the tracker's QR switch is on |
| QRTracking.QRCodeManager.constructor | Assets/IRISMetaQuest3/QRTracking/Scripts/QRCodeManager.cs:47-48 | both dictionaries start empty, so the registry invariant holds |
| QRTracking.QRCodeManager.Update | Assets/IRISMetaQuest3/QRTracking/Scripts/QRCodeManager.cs:66-76 | QRCodeUpdated is raised, with the data dictionary, exactly when tracking is enabled, someone subscribed and at least one code is known |
| QRTracking.QRCodeManager.OnTrackableAdded | Assets/IRISMetaQuest3/QRTracking/Scripts/QRCodeManager.cs:91-116 | non-QR trackables and null payloads change nothing; otherwise both dictionaries get or overwrite the payload's entry, the record's payload is its key, and the key sets stay equal |
| QRTracking.QRCodeManager.OnTrackableRemoved | Assets/IRISMetaQuest3/QRTracking/Scripts/QRCodeManager.cs:118-128 | a QR trackable's payload is deleted from both dictionaries and nothing else is; absent keys are no-ops; a null payload throws before any change; the key sets stay equal |
| QRTracking.QRCodeManager.SetTrackingEnabled | Assets/IRISMetaQuest3/QRTracking/Scripts/QRCodeManager.cs:133-142 | without MRUK the setter does nothing; otherwise it stores the value |
| QRTracking.QRCodeManager.ToggleQRTracking | Assets/IRISMetaQuest3/QRTracking/Scripts/QRCodeManager.cs:145-151 | tracking becomes the negation of its old state (it stays off without MRUK) and the reply is "QR Tracking enabled: " followed by the new state |
| SceneManagement.MQ3SceneManager.constructor | Assets/IRISMetaQuest3/QRTracking/Scripts/MQ3SceneManager.cs:18 | the table starts empty, so every entry's name is its key |
| SceneManagement.MQ3SceneManager.ParseAndConvert | Assets/IRISMetaQuest3/QRTracking/Scripts/MQ3SceneManager.cs:186-219 | the loop returns the table of the stored items before the first throwing element, after the blank-payload, rejected-payload and null-list cases |
| SceneManagement.MQ3SceneManager.GetSceneNameFromQrName | Assets/IRISMetaQuest3/QRTracking/Scripts/MQ3SceneManager.cs:221-229 | a returned name is a key whose QR code is the payload; null is returned exactly when no entry has that QR code |
| SceneManagement.MQ3SceneManager.UpdateRawOffset | Assets/IRISMetaQuest3/QRTracking/Scripts/MQ3SceneManager.cs:136-143 | for a known scene the table becomes WithRawOffset of the old one and NewSceneConfig is raised with it; an unknown scene changes nothing |
| SceneManagement.MQ3SceneManager.SetPosAndRot | Assets/IRISMetaQuest3/QRTracking/Scripts/MQ3SceneManager.cs:145-171 | a missing spawner throws (`threw`) and nothing moves; a scene without an object is left alone; otherwise exactly that object moves to AnchorPlacement of the marker and the scene's offset |
| SceneManagement.MQ3SceneManager.ToggleQRTracking | Assets/IRISMetaQuest3/QRTracking/Scripts/MQ3SceneManager.cs:173-184 | the parsed table is installed even when parsing failed, NewSceneConfig is raised with it, then tracking is toggled; without a manager the reply is "No QRCodeManager available" |
| SceneManagement.MQ3SceneManager.Update | Assets/IRISMetaQuest3/QRTracking/Scripts/MQ3SceneManager.cs:118-134 | nothing moves without a manager or with tracking off; otherwise the pass aborts exactly when there is no spawner and some tracked code is bound to a scene, and then only that one code was dispatched; without an abort exactly the tracked codes bound to a scene are dispatched; each dispatched scene's object is at its marker's placement, and other objects and the object set stay unchanged |
| LegacySceneManagement.InlineConversion | Assets/MQ3SceneManager.cs:164-177 | the inline conversion equals the newer ToSceneData, up to the Name field |
| LegacySceneManagement.LegacyStop | Assets/MQ3SceneManager.cs:150-196 | the earlier loop never passes the end of the list |
| LegacySceneManagement.LegacyStopWithSpawner | Assets/MQ3SceneManager.cs:150-191 | with a spawner present, the earlier loop stops exactly where the newer one does |
| LegacySceneManagement.LegacyAgreesWithCurrent | Assets/MQ3SceneManager.cs:133-199 | with a spawner present, the earlier ParseAndConvert builds the newer table without Name fields, including the blank and null-list cases |
| LegacySceneManagement.LegacyStopNoSpawner | Assets/MQ3SceneManager.cs:188-190 | without a spawner, the earlier loop stops no later than the newer one, and where it stops earlier it stops right after a stored item; no element before the last one reached is stored |
| LegacySceneManagement.LegacyWithoutSpawnerKeepsOneScene | Assets/MQ3SceneManager.cs:188-196 | without a spawner, the earlier ParseAndConvert keeps at most one scene |
| LegacySceneManagement.LegacyTruncatesWithoutSpawner | Assets/MQ3SceneManager.cs:188-196 | two items with different names: the earlier variant keeps only the first, the newer one keeps both |
| LegacySceneManagement.LegacySceneManager.constructor | Assets/MQ3SceneManager.cs:19 | the table starts empty |
| LegacySceneManagement.LegacySceneManager.ParseAndConvert | Assets/MQ3SceneManager.cs:133-199 | the loop returns the stripped table of the stored items before LegacyStop, which also ends right after the first stored item when the spawner lookup throws |
| LegacySceneManagement.LegacySceneManager.GetSceneNameFromQrName | Assets/MQ3SceneManager.cs:201-209 | a returned name is a key whose QR code is the payload; null is returned exactly when there is none |
| LegacySceneManagement.LegacySceneManager.SetPosAndRot | Assets/MQ3SceneManager.cs:87-118 | it throws exactly when the spawner is missing or the scene has no object, and then nothing moves; otherwise exactly that object moves to its placement |
| LegacySceneManagement.LegacySceneManager.ToggleQRTracking | Assets/MQ3SceneManager.cs:120-131 | the parsed table is installed and raised before tracking is toggled; without a manager the reply is "No QRCodeManager available" |
| LegacySceneManagement.LegacySceneManager.Update | Assets/MQ3SceneManager.cs:68-85 | as the newer Update, except that a missing spawner or a scene without an object aborts the pass: then some dispatched scene lacks an object and only codes handled so far were dispatched; without an abort every dispatched scene has its object at its marker's placement |
| Anchoring.OffsetAccumulates | Assets/IRISMetaQuest3/QRTracking/Scripts/QRCodeAnchor.cs:53-57 | after k applications of ApplyOffset the anchor has moved by k times the offset position |
| Anchoring.OffsetNotIdempotent | Assets/IRISMetaQuest3/QRTracking/Scripts/QRCodeAnchor.cs:53-57 | with a non-zero offset position, applying the offset twice differs from applying it once |
| Anchoring.LevelledOffsetRotation | Assets/IRISMetaQuest3/QRTracking/Scripts/QRCodeAnchor.cs:37-46 | the levelled offset rotation looks along a horizontal direction with world-up as up |
| Anchoring.LevelledYawOffset | Assets/IRISMetaQuest3/QRTracking/Scripts/QRCodeAnchor.cs:37-46 | an offset rotation about the vertical axis alone keeps its facing when levelled |
| Anchoring.QRCodeAnchor.constructor | Assets/IRISMetaQuest3/QRTracking/Scripts/QRCodeAnchor.cs:20-23 | the offset starts as zero position and identity rotation |
| Anchoring.QRCodeAnchor.ApplyOffset | Assets/IRISMetaQuest3/QRTracking/Scripts/QRCodeAnchor.cs:53-57 | the offset position is added in world space and the offset rotation post-multiplied; the offset itself is unchanged |
| Anchoring.QRCodeAnchor.SetOffset | Assets/IRISMetaQuest3/QRTracking/Scripts/QRCodeAnchor.cs:31-50 | the followed code is always set; a null or short position array throws with nothing else changed; a null or short rotation array throws after the offset position is set; otherwise the offset rotation is set (levelled when fixZAxis is set), the offset is applied on top of the current pose, and the reply is "Offset applied" |
| Anchoring.QRCodeAnchor.ApplyScenePose | Assets/IRISMetaQuest3/QRTracking/Scripts/QRCodeAnchor.cs:60-75 | without a followed code, or when the code is not in the dictionary, nothing changes; otherwise the pose is the code's recorded pose plus the offset, whatever the previous pose, so repeating the call with the same data gives the same pose |

## Left out

- JSON deserialisation (Newtonsoft) and MessagePack are library code. `ParseAndConvert` takes the
  library's result as a `Deserialized` value: rejected, null list, or a list with nullable
  elements.
- Floating point: vectors are over `real` and 0.0001f is the exact real 0.0001. The conversions
  only negate and reorder, so they are exact. Quaternion arithmetic is not modelled beyond its
  construction terms.
- The engine: transforms, `Instantiate`/`Destroy` of the QR prefab, `Debug.Log` and `OnEnable`
  listener registration.
  - `OnTrackableAdded` and `OnTrackableRemoved` assume that the engine calls between their two
    dictionary updates do not throw. In `OnTrackableAdded` these are the prefab's `Instantiate` and
    `Initialize`; a throw there would leave `_trackedQRCodes` with a key that `_qrCodeData` lacks.
    In `OnTrackableRemoved` they are the `Anchor.Uuid` log line and `Destroy`; a throw there would
    leave `_qrCodeData` with a key that `_trackedQRCodes` lacks.
- `QRCodeManager.Instance` is assumed to be the manager at hand. `HasPermissions` and `IsSupported`
  are not part of this model.
- Service registration (`IRISService`, `ServiceManager`) and event subscription are left out.
  Raising an event is recorded in `raisedConfigs` or returned. In the code, subscribers run
  synchronously inside the call; the model treats them as running after it, so it does not capture
  their re-entry into the managers.
- Aliasing is not captured. `UpdateRawOffset` mutates the dictionary object that subscribers
  received earlier, whereas `raisedConfigs` holds values.
- A null `sceneName` or `offset` passed to `UpdateRawOffset` is not modelled; the model takes
  non-null ones. A null value stored in the table is not modelled either: parsing never stores one.
- The marker transform is a snapshot. The engine moves it between frames, and nothing in the
  modelled code writes it.
- SceneManagement.MQ3SceneManager.GetSceneNameFromQrName: returns some key whose QR code matches,
  not the first in the dictionary's enumeration order, which the model does not fix.
- LegacySceneManagement.LegacySceneManager.GetSceneNameFromQrName: same as above, some matching key
  rather than the first in enumeration order.
- SceneManagement.MQ3SceneManager.Update: visits the tracked codes in an unspecified order. When
  the pass aborts for want of a spawner, which code was dispatched depends on that order.
- LegacySceneManagement.LegacySceneManager.Update: when the pass aborts, which codes were already
  handled depends on the same unspecified order.

## Findings

| source | as written | input that shows it | evidently intended | confidence | as-written member | corrected member |
|---|---|---|---|---|---|---|
| Assets/MQ3SceneManager.cs:188-196 | after each insertion a log line dereferences `SimSceneSpawner.Instance`; without a spawner this throws, the catch returns the partial table, and the payload's later scenes are lost | a payload listing scenes "a" and "b", both with offsets, parsed while no spawner exists | every named item is stored whether or not a spawner exists, as the newer scene manager does | medium, not executed | LegacySceneManagement.LegacyTruncatesWithoutSpawner | SceneConfig.SceneTableKeys |
