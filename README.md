# CourseWork3 scene core in Dafny

CourseWork3 is a small deferred-shading OpenGL renderer. This project models the part of it that
is logic rather than GPU plumbing:

- **Scene loading** (`SceneLoading`). The lights file is read block by block: a type line
  (`directional`, `point` or `spot`) followed by the block's vector and number lines. Each light
  is range-checked (position, colour, attenuation, angles) and built. The objects file is read in
  four-line records: position, rotation, scale, then model path. Position and scale are checked.
  One model is imported per model directory, and objects whose paths share a directory share
  that model. The loading methods read the files through a `LineStream` class. They are proved
  against the pure readers `ReadLights` and `ReadObjects`. Round-trip and error-reporting lemmas
  are proved about those readers.
- **Lights** (`Lights`). Point and spot lights are classes whose constructors and setters default
  bad attenuation coefficients to 1.0, and whose angle setters clamp to [0, 90]. A directional
  light is a plain value.
- **The light manager** (`LightManagement`). This is the keyboard state machine that selects a
  light kind and a light of that kind, moves the selected light along an axis, and changes the
  shared movement speed within [0, 10]. Selection is specified by pure functions on a
  `Selection` value. The `LightManager` class's methods are proved against them, and the
  functions' inverse and range properties are proved as lemmas.
- **Objects, movable lights, models and meshes** (`Objects`, `MovableLights`, `Models`,
  `Meshes`).
  - An object stores its transform and a shared model reference.
  - A movable light moves by a fixed speed times the time step.
  - A model collects its meshes in pre-order over the imported node tree, converts each mesh's
    vertices, indices and textures, and keeps a per-model texture cache keyed by path.
    A file not yet cached is loaded with the type of the slot being read, which is the first
    slot that lists it. A cached file is reused as it was first loaded, type included, even when
    a later mesh lists it in another slot.
  - Drawing a mesh binds texture `i` to unit `i`. It names it through the sampler
    `texture_<type><k>`, where `k` counts textures of that type from 1, and then resets every
    unit it used.

The importer (Assimp), the texture loader (stb_image and GL) and the GPU are represented as
follows:

- the importer is a function parameter from a path to an optional imported scene;
- the texture loader is a function parameter from a path and a directory to a texture id;
- the GPU is a `GlState` value holding texture units, uniforms and draw calls.

The program's fatal exits become a `LoadError` result.

## Model

| member | source | states |
|---|---|---|
| `SceneLoading.CheckRangeVec3` | CourseWork3/src/SceneLoader.cpp:202-211 | true exactly when every component lies in the closed interval [left, right] |
| `SceneLoading.CheckAttenuation` | CourseWork3/src/SceneLoader.cpp:221-229 | true exactly when no coefficient is negative and at least one is positive (the sum of squares is positive) |
| `SceneLoading.CheckAngles` | CourseWork3/src/SceneLoader.cpp:231-240 | true exactly when 0 < cutOff < outerCutOff < 90, all strict |
| `SceneLoading.CheckScale` | CourseWork3/src/SceneLoader.cpp:242-248 | true exactly when all three components are strictly positive |
| `SceneLoading.ValidatorExamples` | CourseWork3/src/SceneLoader.cpp:6-11 | (45,45) and (0,60) fail the angle check and (30,60) passes; all-zero attenuation fails; range bounds are inclusive; a zero scale component fails |
| `SceneLoading.NumbersOf` | CourseWork3/src/SceneLoader.cpp:134 | a number line yields its first k values exactly when it has at least k of them |
| `SceneLoading.Vec3RoundTrip` | CourseWork3/src/SceneLoader.cpp:191-200 | a vector written as a line is read back unchanged |
| `SceneLoading.LineStream.constructor` | CourseWork3/src/SceneLoader.cpp:21-23 | the stream holds the file's lines and starts at the first |
| `SceneLoading.LineStream.GetLine` | CourseWork3/src/SceneLoader.cpp:29 | returns the current line and advances by one; at the end returns nothing and stays |
| `SceneLoading.LineStream.GetNumbers` | CourseWork3/src/SceneLoader.cpp:134-136 | reads k numbers from the current line and advances past it |
| `SceneLoading.LineStream.GetVec3` | CourseWork3/src/SceneLoader.cpp:191-200 | reads one vector from the current line and advances past it |
| `SceneLoading.KindOf` | CourseWork3/src/SceneLoader.cpp:31-41 | a line names a light kind exactly when it is one of the words `point`, `spot`, `directional` |
| `SceneLoading.ReadBlock` | CourseWork3/src/SceneLoader.cpp:29-46 | an accepted block fits in the remaining lines, type line included |
| `SceneLoading.DecodeRenderedBlock` | CourseWork3/src/SceneLoader.cpp:115-174 | a block written out is recognised by its type line and decoded back to itself |
| `SceneLoading.AcceptedZeroConstantIsReplaced` | CourseWork3/src/SceneLoader.cpp:138-143 | a point light accepted with constant 0 has another positive coefficient and is built with constant 1.0; attenuation (0, 0, 1) is accepted |
| `SceneLoading.ReadRenderedLights` | CourseWork3/src/SceneLoader.cpp:27-49 | reading valid blocks followed by more lines yields those blocks, then whatever the rest yields, counting on from the right ordinal |
| `SceneLoading.LightsRoundTrip` | CourseWork3/src/SceneLoader.cpp:27-49 | a lights file made of valid blocks is read back as exactly those blocks in file order |
| `SceneLoading.FailingBlockReported` | CourseWork3/src/SceneLoader.cpp:42-46 | the first block that fails its checks stops the load with its kind and its 1-based ordinal among all blocks |
| `SceneLoading.LoadDirectionalLight` | CourseWork3/src/SceneLoader.cpp:115-124 | reads colour and direction; good exactly when the colour is in range; the direction is not checked |
| `SceneLoading.LoadPointLight` | CourseWork3/src/SceneLoader.cpp:126-145 | builds the light from the three lines, even when it fails; good exactly when position, colour and attenuation pass |
| `SceneLoading.LoadSpotLight` | CourseWork3/src/SceneLoader.cpp:147-174 | as for point lights, with the direction line and the angle line, and the angle check as well |
| `SceneLoading.ReadLightsFrom` | CourseWork3/src/SceneLoader.cpp:29-41 | an unknown type line is reported as such; a known one is decoded from the lines that follow it |
| `SceneLoading.LoadLights` | CourseWork3/src/SceneLoader.cpp:19-49 | fails exactly when the lights reader fails, with the same error; otherwise each list holds its kind's lights in file order, built from the blocks; all lights are new and distinct |
| `SceneLoading.LoadNextBlock` | CourseWork3/src/SceneLoader.cpp:29-47 | reads one type line and its block: an unknown type or a failing block makes the reader's result that error; otherwise the block joins those read so far and the light lists stay built from them and free of repeated lights |
| `SceneLoading.AddDirectory` | CourseWork3/src/SceneLoader.cpp:86-94 | the directory is registered once: appended when new, the list unchanged when known |
| `SceneLoading.ReadObject` | CourseWork3/src/SceneLoader.cpp:74-94 | an accepted record spans four lines: three vectors giving its position, rotation and scale, then its path; its position lies in [-1000, 1000] and its scale is positive; its directory already has a model or the import succeeds |
| `SceneLoading.ObjectChecksPrecedeImport` | CourseWork3/src/SceneLoader.cpp:78-80 | an out-of-range position gives `WrongModelPosition` with the record's number; otherwise a non-positive scale gives `WrongScale`; either way the outcome is the same whatever the importer returns |
| `SceneLoading.ReadObjectsValidated` | CourseWork3/src/SceneLoader.cpp:72-95 | every record of a successfully read objects file has a position in [-1000, 1000] and a positive scale |
| `SceneLoading.ObjectRoundTrip` | CourseWork3/src/SceneLoader.cpp:74-94 | a rendered record with a valid position and scale reads back as itself for any rotation, when its model is loaded or imports |
| `SceneLoading.ObjectsRoundTrip` | CourseWork3/src/SceneLoader.cpp:72-95 | valid records whose models import are read back from their rendering, in order |
| `SceneLoading.RegistryDistinct` | CourseWork3/src/SceneLoader.cpp:86-94 | the model directories are pairwise distinct and every record's directory is among them |
| `SceneLoading.FirstIndex` | CourseWork3/src/SceneLoader.cpp:176-189 | the smallest index holding the value, or -1 exactly when it is absent |
| `SceneLoading.GetModelIndex` | CourseWork3/src/SceneLoader.cpp:176-189 | returns the first model whose directory equals the path's directory, or -1 when there is none |
| `SceneLoading.LoadObjectRecord` | CourseWork3/src/SceneLoader.cpp:74-94 | reads one record as the reader does, imports a model only for a new directory, and returns the model's index |
| `SceneLoading.LoadRecords` | CourseWork3/src/SceneLoader.cpp:72-95 | fails exactly when the objects reader fails, with its error; the models' directories are the records' directories in first-seen order, and every model index is in range |
| `SceneLoading.BuildObjects` | CourseWork3/src/SceneLoader.cpp:97-101 | object i carries record i's position, rotation and scale and refers to `models[modelIndexes[i]]` |
| `SceneLoading.LoadObjects` | CourseWork3/src/SceneLoader.cpp:64-101 | distinct model directories; one object per record, built from it; two objects share a model exactly when their paths share a directory |
| `SceneLoading.SharedModelsFollowDirectories` | CourseWork3/src/SceneLoader.cpp:86-100 | with one model per directory, two objects share a model exactly when their paths' directories agree, and each object's model has its path's directory |
| `SceneLoading.LoadScene` | CourseWork3/src/SceneLoader.cpp:13-113 | lights are loaded first and their error wins; the load succeeds exactly when both files read. On success the light lists are built from the light blocks. The models have distinct directories, in first-seen order. There is one object per record, built from it. Its model is in the list and has the record's directory, and two objects share a model exactly when their directories agree |
| `Lights.DefaultConstant` | CourseWork3/src/PointLight.cpp:7-8 | a non-positive constant becomes 1.0, a positive one is kept; the result is positive |
| `Lights.DefaultNonNegative` | CourseWork3/src/PointLight.cpp:9-12 | a negative linear or quadratic coefficient becomes 1.0, others are kept; the result is non-negative |
| `Lights.DefaultingIdempotent` | CourseWork3/include/Lights/PointLight.h:21-23 | applying an attenuation setter's rule twice gives the same value as once |
| `Lights.ClampAngle` | CourseWork3/src/SpotLight.cpp:28-36 | the angle clamped to [0, 90]; values inside are kept |
| `Lights.ClampAngleIdempotent` | CourseWork3/src/SpotLight.cpp:38-46 | clamping twice is clamping once |
| `Lights.PointLight.constructor` | CourseWork3/src/PointLight.cpp:3-18 | position and colour stored as given, attenuation defaulted, so the attenuation invariant holds |
| `Lights.PointLight.SetPosition` | CourseWork3/include/Lights/PointLight.h:20 | stores the position and changes no other field |
| `Lights.PointLight.SetConstant` | CourseWork3/include/Lights/PointLight.h:21 | stores the defaulted constant, keeps the other fields and the invariant |
| `Lights.PointLight.SetLinear` | CourseWork3/include/Lights/PointLight.h:22 | stores the defaulted linear coefficient, keeps the other fields and the invariant |
| `Lights.PointLight.SetQuadratic` | CourseWork3/include/Lights/PointLight.h:23 | stores the defaulted quadratic coefficient, keeps the other fields and the invariant |
| `Lights.SpotLight.constructor` | CourseWork3/src/SpotLight.cpp:5-26 | position, colour and direction stored, attenuation defaulted, angles stored without clamping |
| `Lights.SpotLight.SetPosition` | CourseWork3/src/SpotLight.h:23 | stores the position and changes no other field |
| `Lights.SpotLight.SetDirection` | CourseWork3/src/SpotLight.h:24 | stores the direction and changes no other field |
| `Lights.SpotLight.SetConstant` | CourseWork3/src/SpotLight.h:27 | stores the defaulted constant, keeps the other fields and the invariant |
| `Lights.SpotLight.SetLinear` | CourseWork3/src/SpotLight.h:28 | stores the defaulted linear coefficient, keeps the other fields and the invariant |
| `Lights.SpotLight.SetQuadratic` | CourseWork3/src/SpotLight.h:29 | stores the defaulted quadratic coefficient, keeps the other fields and the invariant |
| `Lights.SpotLight.SetCutOff` | CourseWork3/src/SpotLight.cpp:28-36 | stores the clamped inner angle; the outer angle and all else unchanged; no order between the angles is enforced |
| `Lights.SpotLight.SetOuterCutOff` | CourseWork3/src/SpotLight.cpp:38-46 | stores the clamped outer angle; the inner angle and all else unchanged |
| `MovableLights.MovableLight.ProcessKeyboard` | CourseWork3/src/MovableLight.cpp:5-20 | moves the position by the direction's signed axis times 2.5 times the time step; the colour is unchanged |
| `MovableLights.DisplacementMovesOneAxis` | CourseWork3/src/MovableLight.cpp:9-20 | exactly the direction's coordinate changes, by plus or minus the velocity |
| `MovableLights.ZeroTimeStepKeepsPosition` | CourseWork3/src/MovableLight.cpp:7 | with a zero time step the light does not move |
| `Objects.Object.constructor` | CourseWork3/include/Objects/Object.h:12-16 | stores position, rotation, scale and the shared model as given, scale unchecked |
| `Objects.Object.SetModel` | CourseWork3/include/Objects/Object.h:20 | replaces only the model reference |
| `Objects.Object.SetPosition` | CourseWork3/include/Objects/Object.h:24 | replaces only the position |
| `Objects.Object.SetScale` | CourseWork3/include/Objects/Object.h:28 | replaces only the scale |
| `Models.LastIndexOf` | CourseWork3/src/Objects/Model.cpp:30 | the index of the last occurrence, or -1 exactly when there is none |
| `Models.DirOf` | CourseWork3/src/Objects/Model.cpp:30 | the prefix before the last '/', or the whole path when it has none |
| `Models.FlattenLength` | CourseWork3/src/Objects/Model.cpp:47-50 | concatenating the children's mesh lists gives the sum of their lengths |
| `Models.PreOrderLength` | CourseWork3/src/Objects/Model.cpp:36-51 | the pre-order mesh list has one entry per mesh reference over all reachable nodes |
| `Models.PreOrderInRange` | CourseWork3/src/Objects/Model.cpp:43 | in a well-formed scene every collected mesh index is a valid scene mesh |
| `Models.Model.constructor` | CourseWork3/src/Objects/Model.cpp:4-7 | sets the directory from the path and collects the converted meshes in pre-order from the root |
| `Models.Model.Load` | CourseWork3/src/Objects/Model.cpp:15-34 | fails exactly when the import fails, is incomplete or has no root; otherwise a new valid model with the path's directory whose meshes are the scene's meshes converted in pre-order, one per mesh reference of every node |
| `Models.Model.ProcessNode` | CourseWork3/src/Objects/Model.cpp:36-51 | appends to the existing meshes the node's own meshes in index order, then each child's, keeping the texture cache free of duplicate paths |
| `Models.Model.ProcessChildren` | CourseWork3/src/Objects/Model.cpp:47-50 | appends each child's pre-order meshes in child order |
| `Models.Model.ProcessNodeMeshes` | CourseWork3/src/Objects/Model.cpp:39-45 | appends the node's own meshes in index order |
| `Models.Model.ProcessMesh` | CourseWork3/src/Objects/Model.cpp:53-129 | one vertex per source vertex, with zero normal or texture coordinates when absent; indices are the faces concatenated in order; textures in the order albedo, metallic, normal, roughness, each a cache entry, a cached file reused as cached and a new file loaded with the loader's id and the type of the first slot listing it; opacity and refraction from the mesh's material |
| `Models.CollectVertices` | CourseWork3/src/Objects/Model.cpp:61-93 | one vertex per source vertex, in order, with a zero normal or zero texture coordinates when the mesh has none |
| `Models.CollectIndices` | CourseWork3/src/Objects/Model.cpp:95-101 | the indices of every face, face after face, in order |
| `Models.Model.LoadMeshTextures` | CourseWork3/src/Objects/Model.cpp:103-116 | the textures follow the material's diffuse, specular, height and normals slots in that order; every one is a cache entry; a file the cache already held yields that entry; every entry the cache gains has the loader's id, a file of the material and the type of the first slot listing it (diffuse→albedo, specular→metallic, height→normal, normals→roughness); the cache keeps no repeated paths |
| `Models.SlotsLoadedInOrder` | CourseWork3/src/Objects/Model.cpp:105-116 | four slot loads in a row, each reusing cached files and tagging new ones with its own type, leave every new cache entry with the type of the first slot listing its file, and every texture a cache entry |
| `Models.UncachedTextureTyped` | CourseWork3/src/Objects/Model.cpp:141-157 | a mesh texture whose file the cache did not hold carries the loader's id and its file's first slot type |
| `Models.NewEntriesUncached` | CourseWork3/src/Objects/Model.cpp:141-157 | a cache without repeated paths grows only by files it did not hold before |
| `Models.NewEntriesTypedStep` | CourseWork3/src/Objects/Model.cpp:105-116 | after one more slot, the entries it added avoid the files of the earlier slots and so carry that slot's type |
| `Models.Model.LoadMaterialTextures` | CourseWork3/src/Objects/Model.cpp:131-160 | one texture per path in slot order; a cached path is reused as is; a new path is loaded once with the requested type and appended to the cache; the cache only grows and never holds a path twice |
| `Meshes.TypeName` | CourseWork3/src/Objects/Mesh.cpp:5-19 | every sampler prefix starts with `texture_` |
| `Meshes.TypeNamesDiffer` | CourseWork3/src/Objects/Mesh.cpp:5-19 | different texture types have different prefixes |
| `Meshes.DecimalString` | CourseWork3/src/Objects/Mesh.cpp:69 | a non-empty string of decimal digits, at least two for numbers from 10 |
| `Meshes.DecimalStringInjective` | CourseWork3/src/Objects/Mesh.cpp:69 | different numbers have different decimal strings |
| `Meshes.CountType` | CourseWork3/src/Objects/Mesh.cpp:34-38 | a type's count never exceeds the list length |
| `Meshes.CountTypeStep` | CourseWork3/src/Objects/Mesh.cpp:52-66 | each texture raises its own type's counter by one and leaves the other counters alone |
| `Meshes.CountTypeGrows` | CourseWork3/src/Objects/Mesh.cpp:52-66 | a later texture of the same type has a strictly larger number |
| `Meshes.SamplerNamesDistinct` | CourseWork3/src/Objects/Mesh.cpp:46-71 | the sampler names of one mesh's textures are pairwise distinct |
| `Meshes.SamplerStep` | CourseWork3/src/Objects/Mesh.cpp:69 | setting the next sampler does not overwrite the samplers already set |
| `Meshes.NextSamplerNumber` | CourseWork3/src/Objects/Mesh.cpp:50-66 | the counter of texture i's type goes up by one and gives the texture's number among those of its type; the other counters stay the per-type counts |
| `Meshes.BindStep` | CourseWork3/src/Objects/Mesh.cpp:46-72 | binding texture i keeps the earlier units and samplers and every unrelated uniform |
| `Meshes.BindTextures` | CourseWork3/src/Objects/Mesh.cpp:46-72 | unit i holds texture i's id and texture i's sampler is set to i; the int uniforms gain exactly the sampler names and every other int uniform keeps its value; other units, the float uniforms and the draw calls are unchanged |
| `Meshes.UnbindTextures` | CourseWork3/src/Objects/Mesh.cpp:83-87 | the used units are reset to texture 0 and the active unit is left at the last one; the uniforms, the draw calls and the other units are unchanged |
| `Meshes.Draw` | CourseWork3/src/Objects/Mesh.cpp:30-94 | one draw of all indices with every texture bound and named, the other int uniforms as before, the float uniforms as before but for the mesh's two ratios, and the units past the textures as before; afterwards the used units, both ratios and the active unit are reset |
| `LightManagement.NegatedAxes` | CourseWork3/src/LightManager.cpp:65-79 | the down, back and right steps are the negated UP, FRONT and LEFT constants |
| `LightManagement.OppositeAxisIsNegated` | CourseWork3/src/LightManager.cpp:62-79 | the unit step of the opposite key is the negation of the direction's unit step, for all six directions |
| `LightManagement.StepAlongAxis` | CourseWork3/src/LightManager.cpp:59-81 | each direction's step is its axis, signed, times the step length |
| `LightManagement.OppositeStepsCancel` | CourseWork3/src/LightManager.cpp:59-86 | a step followed by the opposite direction's step of the same length returns the light to where it was |
| `LightManagement.NextIndex` | CourseWork3/src/LightManager.cpp:18 | the cursor advances by one and wraps from the last light to the first, staying in range |
| `LightManagement.PreviousIndex` | CourseWork3/src/LightManager.cpp:39 | the cursor moves back by one and wraps from the first light to the last, staying in range |
| `LightManagement.IndexStepsInverse` | CourseWork3/src/LightManager.cpp:18 | stepping back undoes stepping forward and the other way round |
| `LightManagement.SwitchedToNext` | CourseWork3/src/LightManager.cpp:10-25 | only the active kind's cursor moves, and only when its list is non-empty; cursors stay in range |
| `LightManagement.SwitchedToPrevious` | CourseWork3/src/LightManager.cpp:27-42 | as next, backwards, each kind guarded by its own list; cursors stay in range |
| `LightManagement.SwitchesInverse` | CourseWork3/src/LightManager.cpp:10-42 | previous then next, and next then previous, restore the selection |
| `LightManagement.Toggled` | CourseWork3/src/LightManager.cpp:44-50 | choosing the active kind deselects it, any other kind selects it; the cursors are unchanged |
| `LightManagement.ToggleTwice` | CourseWork3/src/LightManager.cpp:44-50 | choosing a kind twice from nothing, or from that kind, returns to the start |
| `LightManagement.ToSizeT` | CourseWork3/src/LightManager.cpp:35 | conversion to a 64-bit unsigned size, the identity on its range |
| `LightManagement.ToInt32` | CourseWork3/src/LightManager.cpp:35 | storing into a 32-bit int keeps the low 32 bits as a signed value, the identity below 2^31 |
| `LightManagement.AsWrittenAgreesWhenBothListsNonEmpty` | CourseWork3/src/LightManager.cpp:33-40 | with both lists non-empty the program's step back is the intended one |
| `LightManagement.AsWrittenIgnoresPointListWithoutSpots` | CourseWork3/src/LightManager.cpp:34 | in point mode with two point lights and no spot lights the program does not step back |
| `LightManagement.AsWrittenLeavesRangeThenDividesByZero` | CourseWork3/src/LightManager.cpp:34-35 | with no point lights and one spot light the first press sets the point cursor to -1 and the second divides by zero |
| `LightManagement.CommandDispatch` | CourseWork3/src/LightManager.cpp:89-116 | releases and unknown keys do nothing; the movement keys act only on repeat; all other keys act only on press |
| `LightManagement.Faster` | CourseWork3/src/LightManager.cpp:112-113 | one more, but never past 10 |
| `LightManagement.Slower` | CourseWork3/src/LightManager.cpp:114-115 | one less, but never below 0 |
| `LightManagement.SpeedStaysInBounds` | CourseWork3/src/LightManager.cpp:5 | from any speed in [0, 10], every sequence of speed keys stays in [0, 10] |
| `LightManagement.SpeedSetting.constructor` | CourseWork3/include/LightManager.h:29 | the shared speed starts at 5 |
| `LightManagement.LightManager.constructor` | CourseWork3/include/LightManager.h:35-49 | refers to the caller's lights; nothing selected, both cursors 0, time step 0 |
| `LightManagement.LightManager.SwitchToNext` | CourseWork3/src/LightManager.cpp:10-25 | the new selection is `SwitchedToNext` of the old; the time step is unchanged and the state stays valid |
| `LightManagement.LightManager.SwitchToPrevious` | CourseWork3/src/LightManager.cpp:27-42 | the new selection is the corrected `SwitchedToPrevious` of the old; the state stays valid |
| `LightManagement.LightManager.SwitchToPreviousAsWritten` | CourseWork3/src/LightManager.cpp:27-42 | the new selection is the program's step with its unsigned arithmetic; it reports when that step divides by zero. From a valid state it never does, the manager stays valid exactly when the new cursor is in range, and it always does when both lists are non-empty |
| `LightManagement.LightManager.SwitchLightType` | CourseWork3/src/LightManager.cpp:44-50 | the new selection is `Toggled` of the old |
| `LightManagement.LightManager.SetActiveLightType` | CourseWork3/include/LightManager.h:40 | sets the kind outright; the cursors are unchanged |
| `LightManagement.LightManager.UpdateDeltaTime` | CourseWork3/include/LightManager.h:42 | stores a non-negative step as given and a negative one as 0 |
| `LightManagement.LightManager.TranslateCurrentLight` | CourseWork3/src/LightManager.cpp:52-87 | only the selected light of the active kind moves, by its axis times speed times time step; its other fields and every other light are unchanged; with nothing selected or an empty list nothing moves |
| `LightManagement.LightManager.KeyCallback` | CourseWork3/src/LightManager.cpp:89-116 | the selection, speed and lights change exactly as the key's command says, with the speed clamped to [0, 10]. LEFT takes the corrected step back (see Left out). Keys that do not translate leave every light unchanged |

## Left out

- File reading. The light and object files are given as sequences of lines. A line is a word or
  a list of numbers. Stream tokenisation and float parsing are not modelled, and neither are
  `ifstream` failures or their catch blocks (CourseWork3/src/SceneLoader.cpp:51-55, 103-112).
- Fatal exits and console messages. `exitOnError` terminates GLFW, waits for a key and exits.
  Here every such exit is a `LoadError` value and the load stops. The error messages are not
  modelled.
- Malformed lines. The model reads a record line by line and reports `FailedToLoadLight` for a
  light block, or `MalformedObject` for an object record, when a line does not hold the numbers
  or the word it should. The program reads differently:
  - A line with too few numbers does not fail. `operator>>` skips the newline and takes the
    missing numbers from the next line, and the `getline` that follows discards the rest of
    that line (CourseWork3/src/SceneLoader.cpp:191-200). The rest of the file is then read
    shifted, and the error is not reported.
  - A word where a number is expected, or a file that ends inside a block, leaves the stream
    failed. The program then goes on with whatever values the failed extractions leave.
- The objects loop stops on end of file. When the file ends with a newline, the program tries
  one more record from a failed stream. The model stops at the last line.
- Caller lists. The loader appends to lists the caller passes in. The model starts them empty
  and returns them.
- Floating point. Vectors are over `real`, so `float` rounding is not captured.
  `Object::getModelMatrix` is not part of this model: it converts degrees to radians and uses
  quaternions. Neither are the spot light's radian getters.
- Getters. They return fields unchanged, so the model reads the fields directly.
- Foreign code.
  - The Assimp import is an `Importer` function parameter, and `TextureFromFile` is a
    `TextureLoader` function parameter.
  - In `Draw`, `setupMesh` and the GL calls act on a `GlState` value.
  - `Model::Draw` only loops over the meshes and is not modelled.
- Material properties. Opacity and refraction are fields of the imported material. A missing
  property, which would leave the program's variable uninitialised, is not modelled.
- `main.cpp`: window setup, the render loop and the light-count caps. The stale duplicate
  sources are not part of this model either: `src/Mesh.cpp`, `src/Mesh.h`, `src/PointLight.h`,
  `src/Object.h`, `src/Object.cpp` and `src/LightManager.h`.
- GLFW key handling. Key and action codes are the `Key` and `KeyAction` datatypes. The window,
  scan code and modifier arguments are ignored.
- `LightManagement.SpeedSetting.constructor`: the movement speed is an integer. The program's
  float only ever holds whole values in [0, 10]. It is one object that every manager refers to,
  in place of the static field.
- `LightManagement.LightManager.constructor`: it requires the lights in each list to be distinct
  objects. The program's vectors hold the lights by value, so they are distinct.
- `LightManagement.LightManager.KeyCallback`: the LEFT key applies the corrected step back,
  `SwitchToPrevious`, which the point cursor's own list guards. The program's `switchToPrevious`
  guards the point step with the spot list (CourseWork3/src/LightManager.cpp:34, 96-97). That
  step is modelled separately, as `SwitchToPreviousAsWritten`, and the Findings below compare
  the two. So for LEFT in point mode with no spot lights, the dispatcher's ensures give the
  intended selection, not the program's.
- `LightManagement.LightManager.SwitchToPreviousAsWritten`: where the program divides by zero,
  which is undefined behaviour, the model reports it and leaves the state as it was.
- `MovableLight::pointLightsAreProcessed` is a static flag that no modelled code reads.

## Findings

| source | as written | input that shows it | evidently intended | confidence | as-written member | corrected member |
|---|---|---|---|---|---|---|
| CourseWork3/src/LightManager.cpp:34-35 | in point mode the step back is guarded by `spotLights.size() > 0` | point mode, no point lights, one spot light, LEFT pressed twice: the cursor becomes -1 through `size() - 1` on an empty list, then `(-1 - 1) % 0` divides by zero | guard on `pointLights.size() > 0`, as `switchToNext` does | not executed | `LightManagement.AsWrittenLeavesRangeThenDividesByZero` | `LightManagement.SwitchedToPrevious` |
| CourseWork3/src/LightManager.cpp:34 | the same guard makes the point step depend on the spot list | point mode, two point lights, no spot lights, cursor 0: LEFT leaves the cursor at 0 | the cursor wraps to the last point light, 1 | not executed | `LightManagement.AsWrittenIgnoresPointListWithoutSpots` | `LightManagement.SwitchedToPrevious` |
