# Game-logic bookkeeping of the game engine, in Dafny

This project models three small pieces of the game engine's logic layer and
proves what they promise:

- **The scene's debug-property list** (`SCA_IScene`, `SCA_DebugProp`): an
  ordered list of (object, property name) entries that the engine draws as
  on-screen diagnostics. It holds at most `DEBUG_MAX_DISPLAY` = 100 entries,
  and every entry holds one reference on its object. `SceneDebug.Scene` is a
  class whose fields are the list (`debugList`) and the references it holds
  per object (`heldRefs`). Its invariant `Valid()` says the list is within
  capacity, every entry names an object, and the references held on each
  object equal that object's number of entries. Every mutating method keeps
  `Valid()`, so the cap and the reference balance hold after any sequence of
  calls. The pure functions that say what each removal leaves behind, and
  the lemmas about them, are in module `DebugProps`.
- **The NAND controller's trigger** (`SCA_NANDController::Trigger`): the
  output is true iff some linked sensor is false. That value is queued with
  the logic manager once for every linked actuator, in link order.
  The sensor states are a `seq<bool>`. The logic manager's queue of
  `AddActiveActuator` calls is a sequence that `Trigger` extends.
- **The sound actuator's event state machine** (`KX_SoundActuator`):
  positive and negative events and the six play modes drive the playing
  flag (`m_isplaying`) and the audio handle (`m_handle`).
  - The audio library is abstract. The sound is a presence flag. A handle is
    a value holding its status (`Invalid`, `Playing`, `Paused`, `Stopped`),
    its loop count and whether it plays the ping-pong version of the sound.
  - What the audio device returns when asked to play is an input (`device`):
    either no handle, or a handle with the status the device reports.
  - Every handle the actuator stops is appended to a log (`stopped`), so
    "stopped and dropped" can be told apart from "left playing".
  - Each transition is a pure function over `ActuatorState`
    (`AfterPlay`, `AfterUpdate`, `AfterStart`, `AfterPause`, `AfterStop`).
    Each method of the class `SoundActuator` is proved to leave exactly the
    state its function gives.

Files: `optional.dfy` (the `Option` type standing for nullable pointers),
`debug_props.dfy`, `scene.dfy`, `nand_controller.dfy`, `sound_actuator.dfy`.

Notes on the code as written:

- `AddDebugProperty` does no duplicate check, so the same pair can appear
  twice; `DebugProps.AddThenRemove` shows what a later removal then does.
- Each entry takes a counted reference (`AddRef`, `SCA_IScene.cpp:115`) and
  gives it back in its destructor (`SCA_IScene.cpp:37-41`).
- `SCA_IScene.cpp` contains unresolved merge-conflict markers around
  `PropertyInDebugList`, `AddDebugProperty` and `RemoveDebugProperty`. The
  model has one signature for each, taking the name as a `std::string`, as
  `SCA_IScene.h:64-69` declares them.

## Model

| member | source | states |
|---|---|---|
| `DebugProps.Release` | source/gameengine/GameLogic/SCA_IScene.cpp:32-41 | Destroying an entry releases one reference on its object and none on any other; a default-constructed entry (no object) releases nothing. |
| `DebugProps.ReleaseDefault` | source/gameengine/GameLogic/SCA_IScene.cpp:32-41 | A default-constructed entry holds no object, and destroying it changes no reference count. |
| `DebugProps.AddRef` | source/gameengine/GameLogic/SCA_IScene.cpp:115 | Taking a reference raises the count on that object by one and leaves every other object's count alone. |
| `DebugProps.RemoveFirst` | source/gameengine/GameLogic/SCA_IScene.cpp:128-141 | If no entry is the pair (o, n), the list is unchanged; if some entry is, the list gets exactly one entry shorter. |
| `DebugProps.RemoveFirstAt` | source/gameengine/GameLogic/SCA_IScene.cpp:129-140 | The entry removed is the FIRST (o, n) pair: the result is the list with that position cut out and everything else in its original order. |
| `DebugProps.RemoveFirstOccurrences` | source/gameengine/GameLogic/SCA_IScene.cpp:134-136 | Removing a pair lowers the entry count of `o` by one exactly when the pair was present, and leaves every other object's count alone. |
| `DebugProps.RemoveFirstEmbeds` | source/gameengine/GameLogic/SCA_IScene.cpp:129-140 | The list after the removal is a subsequence of the list before it (order kept). |
| `DebugProps.Without` | source/gameengine/GameLogic/SCA_IScene.cpp:143-156 | After removing an object's entries, no entry for that object remains, and the list is shorter by exactly the number of entries it had. |
| `DebugProps.WithoutEmbeds` | source/gameengine/GameLogic/SCA_IScene.cpp:145-155 | The entries that remain keep their original relative order. |
| `DebugProps.WithoutKeepsOthers` | source/gameengine/GameLogic/SCA_IScene.cpp:145-155 | No other object loses an entry. |
| `DebugProps.WithoutKeepsProperties` | source/gameengine/GameLogic/SCA_IScene.cpp:145-155 | Every (x, n) pair of another object is present afterwards iff it was present before. |
| `DebugProps.WithoutAbsent` | source/gameengine/GameLogic/SCA_IScene.cpp:145-155 | Removing the entries of an object that has none is a no-op. |
| `DebugProps.AddThenRemove` | source/gameengine/GameLogic/SCA_IScene.cpp:112-140 | Appending (o, n) and then removing (o, n) gives back the original list when the pair was absent. When it was already present, the earlier copy goes and the new entry stays, because the add does no duplicate check. |
| `DebugProps.OccurrencesErase` | source/gameengine/GameLogic/SCA_IScene.cpp:135-136 | Erasing one entry lowers its object's entry count by exactly one and no other count. |
| `DebugProps.OccurrencesPositive` | source/gameengine/GameLogic/SCA_IScene.cpp:91-102 | An object has at least one entry iff some entry refers to it. |
| `SceneDebug.Scene.constructor` | source/gameengine/GameLogic/SCA_IScene.cpp:44-46 | A new scene has an empty debug list and holds no references. |
| `SceneDebug.Scene.AddDebugProperty` | source/gameengine/GameLogic/SCA_IScene.cpp:111-119 | Below 100 entries: appends (o, name) at the end, leaves all earlier entries unchanged, takes one reference on o, and afterwards the pair is in the list. It does no duplicate check, so the length grows by one even when the pair is already there. At 100 entries it changes nothing. |
| `SceneDebug.Scene.PropertyInDebugList` | source/gameengine/GameLogic/SCA_IScene.cpp:68-89 | True iff some entry matches both object and name; a true answer implies `ObjectInDebugList` is true too. The list is not changed. |
| `SceneDebug.Scene.ObjectInDebugList` | source/gameengine/GameLogic/SCA_IScene.cpp:91-102 | True iff some entry refers to the object. The list is not changed. |
| `SceneDebug.Scene.RemoveDebugProperty` | source/gameengine/GameLogic/SCA_IScene.cpp:128-141 | Deletes only the first entry matching both object and name, keeps the order of the rest, and releases exactly that entry's reference. Nothing matching means no change. |
| `SceneDebug.Scene.RemoveObjectDebugProperties` | source/gameengine/GameLogic/SCA_IScene.cpp:143-156 | Deletes every entry for the object, keeps the order of the others, leaves `ObjectInDebugList(o)` false and no reference held on o, and leaves the references on other objects unchanged. |
| `SceneDebug.Scene.RemoveAllDebugProperties` | source/gameengine/GameLogic/SCA_IScene.cpp:53-61 | Empties the list. Every reference it held is given back once per entry, so none remains. |
| `SceneDebug.Scene.Destroy` | source/gameengine/GameLogic/SCA_IScene.cpp:48-51 | Destroying the scene leaves no entries, and each held reference is released exactly once. |
| `NandController.SensorResult` | source/gameengine/GameLogic/SCA_NANDController.cpp:62-70 | The scan with early exit yields true iff some linked sensor is false (NOT of the AND of all inputs). So it is false with no sensors and false when all sensors are true. |
| `NandController.LaterSensorsIgnored` | source/gameengine/GameLogic/SCA_NANDController.cpp:64-70 | Once a prefix of the sensors contains a false one, the sensors after it do not affect the result. |
| `NandController.Trigger` | source/gameengine/GameLogic/SCA_NANDController.cpp:59-75 | Queues exactly one activation per linked actuator, in link order, each with the same NAND value; what was already queued is unchanged. The sensor and actuator lists are values and are not modified. |
| `SoundActuation.DropHandle` | source/gameengine/Ketsji/KX_SoundActuator.cpp:100-103 | Any existing handle is stopped (logged) and then dropped; with no handle nothing changes. |
| `SoundActuation.AfterPlay` | source/gameengine/Ketsji/KX_SoundActuator.cpp:97-158 | Any old handle is stopped and dropped first. With no sound, play returns there and the playing flag is unchanged. Otherwise the flag ends true. A new handle has loop count -1 exactly in LOOPEND, LOOPSTOP, LOOPBIDIRECTIONAL and LOOPBIDIRECTIONAL_STOP, and ping-pong only in the two bidirectional modes; PLAYSTOP and PLAYEND never loop. |
| `SoundActuation.AfterUpdate` | source/gameengine/Ketsji/KX_SoundActuator.cpp:176-288 | Update always clears the pending events; with no sound it returns false and changes nothing else. A negative event: the three `*_STOP` modes stop and drop the playing handle, LOOPEND and LOOPBIDIRECTIONAL set its loop count to 0 and keep it, PLAYEND leaves it; nothing is started and the flag ends false. A positive event plays the sound only when the flag is false; no event starts or stops nothing. With a sound, the result is true iff a handle is playing afterwards, and a false result leaves the flag false. |
| `SoundActuation.AfterStart` | source/gameengine/Ketsji/KX_SoundActuator.cpp:348-365 | A playing handle is left alone, a paused one is resumed (same handle, now playing), and anything else plays the sound afresh. A live handle is never stopped. With a sound and a device that plays, the sound ends up playing. |
| `SoundActuation.AfterPause` | source/gameengine/Ketsji/KX_SoundActuator.cpp:367-377 | A playing handle becomes paused; afterwards nothing is audible and nothing else changes. |
| `SoundActuation.AfterStop` | source/gameengine/Ketsji/KX_SoundActuator.cpp:379-392 | stopSound always leaves no handle, stops the one there was, and leaves the playing flag alone. |
| `SoundActuation.HeldPulsePlaysOnce` | source/gameengine/Ketsji/KX_SoundActuator.cpp:181-249 | While a positive event persists and the sound keeps playing, a second Update does not play it again (sounds are not played twice). |
| `SoundActuation.PulseThenReleaseStops` | source/gameengine/Ketsji/KX_SoundActuator.cpp:195-249 | In a `*_STOP` mode, a negative event after the pulse that started the sound stops exactly that handle, and Update then returns false with the flag cleared. |
| `SoundActuation.SoundActuator.constructor` | source/gameengine/Ketsji/KX_SoundActuator.cpp:59-80 | A new actuator has no handle, is not playing and has no pending events. |
| `SoundActuation.SoundActuator.StopHandle` | source/gameengine/Ketsji/KX_SoundActuator.cpp:100-103 | Leaves exactly the state `DropHandle` gives. |
| `SoundActuation.SoundActuator.Play` | source/gameengine/Ketsji/KX_SoundActuator.cpp:97-158 | Leaves exactly the state `AfterPlay` gives. |
| `SoundActuation.SoundActuator.Update` | source/gameengine/Ketsji/KX_SoundActuator.cpp:176-288 | Returns the result and leaves the state that `AfterUpdate` gives. |
| `SoundActuation.SoundActuator.StartSound` | source/gameengine/Ketsji/KX_SoundActuator.cpp:348-365 | Leaves exactly the state `AfterStart` gives. |
| `SoundActuation.SoundActuator.PauseSound` | source/gameengine/Ketsji/KX_SoundActuator.cpp:367-377 | Leaves exactly the state `AfterPause` gives. |
| `SoundActuation.SoundActuator.StopSound` | source/gameengine/Ketsji/KX_SoundActuator.cpp:379-392 | Leaves exactly the state `AfterStop` gives. |
| `SoundActuation.SoundActuator.Destroy` | source/gameengine/Ketsji/KX_SoundActuator.cpp:84-95 | The destructor stops the handle, if any, and frees the sound. |

## Left out

- The frame scheduler in `KX_KetsjiEngine.h` is not part of this model: the file holds only declarations, and its timing state is floating point.
- The GPU effects manager in `RAS_EeveeEffectsManager.h` is not part of this model: it wraps a foreign renderer and only its header is present.
- `SCA_IScene`'s pure-virtual object operations (`AddReplicaObject`, `RemoveObject`, `DelayedRemoveObject`, `ReplaceMesh`) have no bodies and are not modelled.
- `GetDebugProperties` hands out a mutable reference to the list; changes made through it from outside are not modelled.
- `RemoveObjectDebugProperties` reuses its iterator after `erase` (`SCA_IScene.cpp:150-152`). The model gives the loop its evident meaning: every match is removed.
- Null object arguments are not modelled: an object is always a real identity. In the code, `ObjectInDebugList`, `PropertyInDebugList` and `RemoveObjectDebugProperties` given a null object find nothing, while `AddDebugProperty` given one dereferences it (`SCA_IScene.cpp:115`).
- Object identities are natural numbers, and the reference counts are those taken by the debug list only; references held elsewhere are not modelled.
- `SCA_NANDController::GetReplica` and the scripting type tables are not modelled.
- Sound actuator:
  - Not modelled: the 3D listener maths in `Update` (`KX_SoundActuator.cpp:255-276`), the 3D, volume and pitch settings applied to a new handle (floating point), replica copying, and the scripting type tables, getters and setters.
  - The unused `curtime` argument of `Update` is dropped.
  - `IsNegativeEvent()` and `RemoveAllEvents()` belong to `SCA_IActuator`, which is not part of this model. They are taken as "negative event and no positive event" and "clear both events".
  - Handle status is read from the model's handle. The audio thread changing a status between two reads within one `Update` is not modelled.
  - The audio library's pause and resume are taken to act only on a playing and on a paused handle, respectively. A new handle starts with loop count 0 unless `play` sets -1.
  - The play-mode switches' `default:` branches are unreachable: the mode is one of the six values (the scripting setter bounds it the same way).
- `SoundActuation.AfterUpdate`: "a negative event leaves the playing flag false" and "a false result leaves it false" are stated only when a sound is present. Without a sound, `Update` returns before touching the flag (`KX_SoundActuator.cpp:189-190`).
