# rt_weekend core, modelled in Dafny

rt_weekend is a small Vulkan ray tracer: a scene of OBJ models plus one
procedurally intersected sphere, lit against a cube-map skybox, and rendered
progressively. Each frame traced with an unmoved camera adds one more sample
to the accumulated image. This project models the bookkeeping that holds
that together, and proves what each piece promises:

- the camera manipulator's state surface and its documented gesture table (`camera.dfy`);
- the progressive-accumulation frame counter and its reset triggers (`frames.dfy`);
- the ray-tracing setup (`raytracing.dfy`):
  - the capability check;
  - the bottom- and top-level acceleration-structure inputs;
  - the ray-tracing descriptor set;
  - shader-stage and shader-group numbering;
  - the shader binding table (SBT): an aligned, strided in-place copy of the group handles;
  - the regions handed to the trace call;
- the scene registry (`scene.dfy`):
  - the parallel model, instance and texture lists;
  - the placeholder model and placeholder textures;
  - the scene descriptor layout and its writes;
- the six-face skybox upload (`skybox.dfy`);
- the sphere handler: one bounding box per sphere and the sphere BLAS input (`sphere.dfy`);
- the executable-directory helper with its cache (`paths.dfy`);
- the debug-utility helpers: file-name splitting, the enable flag, and begin/end label balance (`debugutil.dfy`).

`common.dfy` and `vulkan.dfy` hold the shared vocabulary:
- bytes, vectors and matrices;
- buffers and a buffer allocator that records what it creates and releases;
- descriptor bindings and writes, acceleration-structure inputs, textures.

Things that come from outside the program are parameters of the model:
- device addresses (`addressOf`, `sbtAddress`);
- shader-group handles fetched from the driver;
- decoded images (`load`);
- the `readlink` result;
- the widgets' "changed" results.

Matrices are values compared for equality. `nvmath::look_at` is a function fixed when the manipulator is built.

Classes model the objects whose fields the source updates in place:
- `CameraManipulator`;
- `Frames.Impl`, holding the frame-counter fields of `Application::Impl`;
- `Scene.Registry`, holding its scene lists;
- `SphereHandler`;
- `Allocator`;
- `ExePathCache`, holding the two statics;
- `DebugUtil.Globals`, holding `s_enabled` and the log of driver calls;
- `Debugger`;
- the scoped labels.

Each class's methods are proved against specification functions. Those functions carry the properties:
- `Step`/`Run` for the frame counter;
- `SbtLayout` for the SBT copy;
- `AddModel`/`AddDummy`/`TexturesAfter` for the scene lists;
- `SkyboxSpec` for the skybox;
- `Scope` for the debug labels.

## Model

| member | source | states |
|---|---|---|
| CameraManip.Equal | rt_weekend/rtnv/nvh/cameramanipulator.hpp:108-111 | `Camera ==` holds exactly when eye, centre, up and fov are all equal, component by component |
| CameraManip.NotEqual | rt_weekend/rtnv/nvh/cameramanipulator.hpp:104-107 | `Camera !=`, written as its own disjunction, is exactly the negation of `==` |
| CameraManip.DocumentedAction | rt_weekend/rtnv/nvh/cameramanipulator.hpp:42-46 | the gesture table: LMB orbits; LMB+CTRL or MMB pans; LMB+SHIFT or RMB dollies; LMB+ALT or LMB+CTRL+SHIFT looks around; no button, no action |
| CameraManip.CameraManipulator.constructor | rt_weekend/rtnv/nvh/cameramanipulator.hpp:97-102 | a fresh manipulator: default camera (eye (10,10,10), centre 0, up (0,1,0), fov 60), Examine mode, speed 3, duration 0.5, size 1×1, not animated |
| CameraManip.CameraManipulator.SetMode | rt_weekend/rtnv/nvh/cameramanipulator.hpp:141-144 | `getMode` returns what `setMode` stored, and nothing else changes |
| CameraManip.CameraManipulator.SetSpeed | rt_weekend/rtnv/nvh/cameramanipulator.hpp:155-158 | `getSpeed` returns what `setSpeed` stored, and nothing else changes |
| CameraManip.CameraManipulator.SetAnimationDuration | rt_weekend/rtnv/nvh/cameramanipulator.hpp:181-183 | `getAnimationDuration` returns what was stored, and nothing else changes |
| CameraManip.CameraManipulator.SetWindowSize | rt_weekend/rtnv/nvh/cameramanipulator.hpp:129 | `getWidth`/`getHeight` return the new size, and nothing else changes |
| CameraManip.CameraManipulator.Update | rt_weekend/rtnv/nvh/cameramanipulator.hpp:196 | afterwards the matrix is `look_at` of the current eye, centre and up |
| CameraManip.CameraManipulator.SetCamera | rt_weekend/rtnv/nvh/cameramanipulator.hpp:135 | an instant set shows the pose at once, with no animation; otherwise it starts an animation towards it from the current pose |
| CameraManip.CameraManipulator.SetLookat | rt_weekend/rtnv/nvh/cameramanipulator.hpp:121-123 | an instant set makes `getLookat` return the given eye, centre and up, keeps the fov, and sets the matrix to `look_at` of them |
| Frames.Step | rt_weekend/src/application_impl.cpp:218-229 | one `updateFrameId`: the reference becomes the current camera; the id counts up by one if matrix and fov are unchanged, and restarts at 0 otherwise |
| Frames.FrameIdCountsSinceChange | rt_weekend/src/application_impl.cpp:218-229 | after any run of frames, the reference is the last camera and the id is the number of frames since the camera last changed, minus one |
| Frames.FirstFrameAfterInit | rt_weekend/src/application_impl.cpp:45-47 | corollary of `Step`: the first frame after `initWindow` with an unmoved camera is sample 0 |
| Frames.Impl.ResetFrameId | rt_weekend/src/application_impl.cpp:214-216 | the frame id becomes -1 and nothing else changes |
| Frames.Impl.UpdateFrameId | rt_weekend/src/application_impl.cpp:218-229 | the new reference and id are `Step` of the old ones and the manipulator's current matrix and fov |
| Frames.Impl.OnResize | rt_weekend/src/application_impl.cpp:206-208 | a resize always resets the frame id |
| Frames.Impl.RenderUI | rt_weekend/src/application_impl.cpp:185-204 | the id is reset exactly when some widget reported a change; otherwise it is unchanged |
| Frames.Impl.InitWindow | rt_weekend/src/application_impl.cpp:41-47 | Walk mode; size 1280×720; pose (0,0,1)→origin, up y, applied at once; fov, speed and animation duration kept; reference = the manipulator's matrix and fov; id -1 |
| RayTracing.InitRayTracing | rt_weekend/src/application_impl_rt.cpp:12-26 | setup fails exactly when the device's maximum recursion depth is ≤ 1; otherwise the pipeline depth 2 is within it |
| RayTracing.ObjectToGeometry | rt_weekend/src/application_impl_rt.cpp:31-71 | one opaque triangle geometry over the given vertex and index addresses (R32G32B32 positions, 32-bit indices) and one range; primitive count = ⌊nbIndices/3⌋; max vertex = nbVertices; stride = sizeof(VertexObj); all offsets 0 |
| RayTracing.AccelerationStructuresLinked | rt_weekend/src/application_impl_rt.cpp:74-125 | a summary of the two builders' results: exactly one BLAS, the spheres; exactly one instance, with custom id 0, BLAS 0, hit group 0 and the identity transform |
| RayTracing.RtDescriptorLayout | rt_weekend/src/application_impl_rt.cpp:135-138 | binding 0 is the acceleration structure and binding 1 the storage image, each declared once; binding 0 is visible to raygen and closest-hit shaders exactly, binding 1 to raygen exactly |
| RayTracing.RtDescriptorWrites | rt_weekend/src/application_impl_rt.cpp:144-157 | exactly two writes: the top-level structure to binding 0 and the output image view to binding 1, each fitting its declared binding's type and count |
| RayTracing.RtDescriptorUpdate | rt_weekend/src/application_impl_rt.cpp:160-168 | the rewrite after a resize is one storage-image write of the new output view to binding 1, fitting the layout |
| RayTracing.CreateRtPipeline | rt_weekend/src/application_impl_rt.cpp:170-231 | stages raygen, miss, closest-hit, intersection; three groups appended, each naming the stage index of its kind (0; 1; hit 2 with intersection 3) |
| RayTracing.AlignUp | rt_weekend/src/application_impl_rt.cpp:279-280 | the aligned group size is ≥ the handle size, less than one alignment above it, and a multiple of the alignment |
| RayTracing.SbtLayoutSlot | rt_weekend/src/application_impl_rt.cpp:299-304 | SBT bytes [g·aligned, g·aligned + handleSize) equal handle bytes [g·handleSize, (g+1)·handleSize) |
| RayTracing.SbtLayoutPadding | rt_weekend/src/application_impl_rt.cpp:299-304 | padding bytes between handle slots keep their old contents |
| RayTracing.SbtLayoutTail | rt_weekend/src/application_impl_rt.cpp:299-304 | bytes past the last slot keep their old contents |
| RayTracing.WriteShaderBindingTable | rt_weekend/src/application_impl_rt.cpp:299-304 | the in-place strided copy loop leaves the mapped buffer equal to `SbtLayout` of its old contents |
| RayTracing.CreateRtShaderBindingTable | rt_weekend/src/application_impl_rt.cpp:274-307 | with sbtSize = groupCount·aligned, every slot fits and the buffer ends as `SbtLayout` |
| RayTracing.TraceRegions | rt_weekend/src/application_impl_rt.cpp:328-338 | four regions: raygen, miss and hit, then callable |
| RayTracing.TraceRegionsValid | rt_weekend/src/application_impl_rt.cpp:328-338 | raygen, miss and hit each have size = stride = aligned group size and an aligned address; callable is all zero |
| RayTracing.TraceRegionsAtRecords | rt_weekend/src/application_impl_rt.cpp:328-338 | region g starts at SBT record g |
| RayTracing.RegionHoldsHandle | rt_weekend/src/application_impl_rt.cpp:299-338 | after the copy, the first handle-size bytes at region g's address are the handle of group g (raygen, miss, hit in pipeline order) |
| Scene.MakeTexture | rt_weekend/src/application_impl_descriptor.cpp:270-299 | a failed load becomes the 1×1 magenta texture; a loaded image keeps its size; the upload is width·height·4 bytes |
| Scene.LoadAll | rt_weekend/src/application_impl_descriptor.cpp:264-302 | one texture per name, in name order |
| Scene.TexturesAfterAppends | rt_weekend/src/application_impl_descriptor.cpp:234-303 | a single white placeholder when there are neither names nor textures; otherwise the existing list, then one texture per name |
| Scene.WithSceneDescription | rt_weekend/src/application_impl_descriptor.cpp:165-198 | afterwards there is an instance; an existing instance list is left alone |
| Scene.AddModelConsistent | rt_weekend/src/application_impl_descriptor.cpp:324-360 | `loadModel` keeps the index invariant; its instance points at the new model and the first new texture; models and instances grow by one |
| Scene.AddDummyConsistent | rt_weekend/src/application_impl_descriptor.cpp:168-220 | the index invariant holds; the appended instance has the identity transform and points at the appended empty model and at the appended white texture |
| Scene.AtLeastOne | rt_weekend/src/application_impl_descriptor.cpp:30-31 | `max(1, n)` |
| Scene.SceneLayout | rt_weekend/src/application_impl_descriptor.cpp:25-59 | bindings 0–8, each declared once; binding 3 counts max(1, #textures); bindings 1, 4, 5 and 6 count max(1, #models); the others count 1 |
| Scene.ModelResources | rt_weekend/src/application_impl_descriptor.cpp:82-88 | one buffer of the chosen kind per model, in model order |
| Scene.TextureResources | rt_weekend/src/application_impl_descriptor.cpp:96-100 | one descriptor per texture, in order |
| Scene.SceneWritesMatchLayout | rt_weekend/src/application_impl_descriptor.cpp:66-111 | with the index invariant and a model, each of the nine writes fits the layout built from the current counts |
| Scene.StartupWritesMatchLayout | rt_weekend/src/application_impl.cpp:113-127 | in start-up order (models loaded, layout declared, placeholder added if needed, set written), every write fits the layout declared before the placeholder |
| Scene.Registry.constructor | rt_weekend/src/application_impl.hpp:104-116 | the model, instance and texture lists start empty, with no scene description buffer |
| Scene.Registry.CreateTextureImages | rt_weekend/src/application_impl_descriptor.cpp:234-303 | the texture list becomes `TexturesAfter` of the old one |
| Scene.Registry.LoadModel | rt_weekend/src/application_impl_descriptor.cpp:308-362 | the lists become `AddModel` of the old ones, with four new buffers for the model |
| Scene.Registry.CreateSceneDescriptionBuffer | rt_weekend/src/application_impl_descriptor.cpp:165-232 | the placeholder is added exactly when there was no instance; then the description buffer is created |
| Scene.GatherModelBuffers | rt_weekend/src/application_impl_descriptor.cpp:78-88 | the four gathered lists hold, model by model in order, the material-colour, material-index, vertex and index buffer of each model (`ModelResources`) |
| Scene.GatherTextures | rt_weekend/src/application_impl_descriptor.cpp:96-100 | the gathered image list holds one descriptor per texture, in texture order (`TextureResources`) |
| Scene.Registry.UpdateDescriptorSet | rt_weekend/src/application_impl_descriptor.cpp:66-111 | the writes are `SceneWrites` of the current lists, in source order 0, 2, 1, 4, 5, 6, 3, 8, 7 |
| Skybox.DecodeAll | rt_weekend/src/application_impl_descriptor.cpp:376-391 | faces are decoded in the order right, left, top, bottom, front, back, from `media/textures/skybox/` |
| Skybox.SkyboxAsWritten | rt_weekend/src/application_impl_descriptor.cpp:389-429 | as written: when any face fails to decode, the result is the undefined copy from a null pointer |
| Skybox.SkyboxAsWrittenShape | rt_weekend/src/application_impl_descriptor.cpp:376-429 | as written, all faces decoded: uploads exactly when every face has at least the last face's width·height·file channels bytes; then the last face's extent, six layers, the format `FormatAfter` leaves, and each face's first faceSize bytes concatenated |
| Skybox.SkyboxAsWrittenUpload | rt_weekend/src/application_impl_descriptor.cpp:405-414 | as written, when uploaded: the data is 6·faceSize long and face i occupies [i·faceSize, (i+1)·faceSize) with its first faceSize decoded bytes |
| Skybox.FormatOfLastSetter | rt_weekend/src/application_impl_descriptor.cpp:378-401 | after the load loop the format is the one set by the last face with three or four channels |
| Skybox.FormatUnset | rt_weekend/src/application_impl_descriptor.cpp:378-401 | when no face has three or four channels, the format keeps its initial value |
| Skybox.MixedChannelsKeepEarlierFormat | rt_weekend/src/application_impl_descriptor.cpp:378-401 | five RGB faces and a one-channel back face: the upload is declared R8G8B8, set by the front face |
| Skybox.MissingFaceReachesCopy | rt_weekend/src/application_impl_descriptor.cpp:393-395 | as written, a missing face does not stop the upload |
| Skybox.RgbFaceGarbledAsWritten | rt_weekend/src/application_impl_descriptor.cpp:391-408 | as written, RGB face files get a 3-channel size and format over 4-channel pixels, so the uploaded bytes are misaligned |
| Skybox.MissingFaceFails | rt_weekend/src/application_impl_descriptor.cpp:393-395 | corrected: a missing face makes creation fail, with the load error of a face that is missing and before which every face loaded |
| Skybox.FacesInLayerOrder | rt_weekend/src/application_impl_descriptor.cpp:407-414 | face i occupies bytes [i·faceSize, (i+1)·faceSize), total 6·faceSize, faceSize = w·h·4 |
| Skybox.FillCubemap | rt_weekend/src/application_impl_descriptor.cpp:407-414 | the memcpy loop leaves the face array equal to the six faces concatenated |
| Skybox.CreateSkyboxTexture | rt_weekend/src/application_impl_descriptor.cpp:364-430 | corrected: the method's result is `SkyboxSpec`: it fails on the first missing face or on faces of different sizes, and otherwise uploads four bytes per texel |
| Skybox.RgbFaceKeptCorrected | rt_weekend/src/application_impl_descriptor.cpp:391-408 | corrected: RGB face files keep their four-byte pixels and RGBA format |
| Spheres.BoundingBox | rt_weekend/src/primitive/sphere.cpp:22-24 | the box is centred on the sphere, has side 2r on every axis, and contains the centre when r ≥ 0 |
| Spheres.BallInsideBox | rt_weekend/src/primitive/sphere.cpp:22-24 | every point of the ball lies in its box |
| Spheres.BoxIsTight | rt_weekend/src/primitive/sphere.cpp:22-24 | the box touches the ball on each face |
| Spheres.BoundingBoxes | rt_weekend/src/primitive/sphere.cpp:17-26 | one box per sphere, in sphere order |
| Spheres.SphereHandler.constructor | rt_weekend/src/primitive/sphere.cpp:5-34 | one sphere, centre (0,0,-1), radius 0.5; its box; two new buffers |
| Spheres.SphereHandler.ToGeometry | rt_weekend/src/primitive/sphere.cpp:36-61 | one opaque AABB geometry with stride sizeof(AABB) and one range; primitive count = #spheres; offsets 0 |
| Spheres.SphereHandler.Destroy | rt_weekend/src/primitive/sphere.cpp:63-77 | exactly the two buffers the getters return are released |
| Paths.ExeDir | rt_weekend/rtnv/nvpsystem_linux.cpp:104-108 | a prefix of the text: with a '/', it ends in '/' and nothing after it has one; without, it is the whole text |
| Paths.LinkText | rt_weekend/rtnv/nvpsystem_linux.cpp:99-102 | the first n bytes of the link buffer; empty when `readlink` returned ≤ 0 |
| Paths.ExeDirIdempotent | rt_weekend/rtnv/nvpsystem_linux.cpp:104-108 | the directory of a directory is itself |
| Paths.ExeDirOfJoin | rt_weekend/rtnv/nvpsystem_linux.cpp:104-108 | directory + file name gives the directory back |
| Paths.ExePathShape | rt_weekend/rtnv/nvpsystem_linux.cpp:99-108 | the result is a prefix of the link text; it ends in '/' or holds none; a failed read gives "" |
| Paths.ExePathCache.ExePath | rt_weekend/rtnv/nvpsystem_linux.cpp:92-113 | the first call computes and caches `ExeDir` of the link text; later calls return the cached string |
| DebugUtil.FileNameSplitter | shared_sources/nvvk/debug_util_vk.hpp:179 | a suffix of the name, free of '/' and '\\', preceded by a separator unless it is the whole name |
| DebugUtil.FileNameOfJoin | shared_sources/nvvk/debug_util_vk.hpp:179 | dir + separator + name splits back to name, for either separator |
| DebugUtil.FileNameSplitterIdempotent | shared_sources/nvvk/debug_util_vk.hpp:179 | splitting twice gives the same name |
| DebugUtil.UpToLastSpace | shared_sources/nvvk/debug_util_vk.hpp:180 | a suffix free of ' ', preceded by a space unless it is the whole text |
| DebugUtil.Debugger.SetEnabled | shared_sources/nvvk/debug_util_vk.hpp:52 | sets the one flag shared by every instance |
| DebugUtil.Debugger.SetObjectName | shared_sources/nvvk/debug_util_vk.hpp:56-63 | issues the naming call exactly when enabled |
| DebugUtil.Debugger.BeginLabel | shared_sources/nvvk/debug_util_vk.hpp:98-105 | issues a begin exactly when enabled |
| DebugUtil.Debugger.EndLabel | shared_sources/nvvk/debug_util_vk.hpp:106-112 | issues an end exactly when enabled |
| DebugUtil.Debugger.InsertLabel | shared_sources/nvvk/debug_util_vk.hpp:113-120 | issues an inserted label exactly when enabled |
| DebugUtil.Debugger.ScopeLabel | shared_sources/nvvk/debug_util_vk.hpp:155 | opens a scoped label on the command buffer and returns the as-written scope object |
| DebugUtil.ScopedCmdLabelAsWritten.constructor | shared_sources/nvvk/debug_util_vk.hpp:126-134 | begins the label when enabled at construction |
| DebugUtil.ScopedCmdLabelAsWritten.SetLabel | shared_sources/nvvk/debug_util_vk.hpp:142-149 | inserts a label on the scope's command buffer when enabled |
| DebugUtil.ScopedCmdLabelAsWritten.Destroy | shared_sources/nvvk/debug_util_vk.hpp:135-141 | as written: ends the label when enabled at destruction |
| DebugUtil.ScopedCmdLabel.constructor | shared_sources/nvvk/debug_util_vk.hpp:126-134 | begins the label when enabled and records whether it did |
| DebugUtil.ScopedCmdLabel.SetLabel | shared_sources/nvvk/debug_util_vk.hpp:142-149 | inserts a label on the scope's command buffer when enabled |
| DebugUtil.ScopedCmdLabel.Destroy | shared_sources/nvvk/debug_util_vk.hpp:135-141 | corrected: ends the label exactly when the constructor began one |
| DebugUtil.ScopeBalancedWhenFlagSteady | shared_sources/nvvk/debug_util_vk.hpp:122-141 | with the flag unchanged through the scope, the as-written label is balanced |
| DebugUtil.ToggledScopeUnbalanced | shared_sources/nvvk/debug_util_vk.hpp:122-141 | as written, toggling the flag inside a scope leaves a label open, or closes one never opened |
| DebugUtil.ScopeBalanced | shared_sources/nvvk/debug_util_vk.hpp:122-141 | corrected: every scope is balanced whatever happens to the flag |
| DebugUtil.ToggledScope | shared_sources/nvvk/debug_util_vk.hpp:122-141 | run through the classes, the as-written scope leaves one label open and the corrected one none |
| Common.Allocator.CreateBuffer | rt_weekend/src/primitive/sphere.cpp:31-32 | a new buffer, recorded as created |
| Common.Memcpy | rt_weekend/src/application_impl_rt.cpp:302 | the destination becomes its old contents with the copied range overwritten, and nothing else changes |

## Left out

- The camera's motion (orbit, pan, dolly, fly, look-around), its Bézier animation, `updateAnim`, `fit`, mouse and keyboard handling, `setMatrix` and `setFov` are left out. `cameramanipulator.cpp` is not part of this model. The header says only that `instantSet` applies the pose without interpolation. The rest of `setCamera` and `setLookat` is a reconstruction, not taken from the source. That covers the animated branch (goal, snapshot of the current pose, start time, `animDone`), the `Valid` invariant, and `setLookat` keeping the current fov. `setWindowSize` is a plain assignment.
- The manipulator is one explicitly owned object. The `CameraManip` singleton accessor is left out.
- The getters (`getMode`, `getSpeed`, `getWidth`, `getMatrix`, `getFov`, …) are functions. Their rows are the setters they round-trip with.
- `nvmath::look_at` has no definition here: it is a function fixed when the manipulator is built.
- Frames.Impl.constructor: the initial reference and frame id are parameters, because `m_rtcurrentFrameId` and `m_camera_ref` have no initialiser in `application_impl.hpp`. Only `initWindow` gives them values.
- Frames.Step: the camera matrices are compared as values, while the source compares them bytewise with `memcmp`, so a -0.0/+0.0 or NaN entry can behave differently. The fov uses float `!=`, and it is a real here.
- Frames.Step: the 32-bit `int` frame id is unbounded here. Wrap-around after 2³¹ frames is not modelled.
- `renderUI`'s widgets and their effect on the push constants are left out: only the "changed" result each widget returns is modelled. `onResize`'s recreation of the offscreen targets is left out too.
- All Vulkan, VMA and GLFW calls are left out:
  - buffer, image and texture creation (buffers are numbered ids from `Allocator`);
  - barriers and mipmaps;
  - pipeline, layout and shader-module creation;
  - `updateDescriptorSets` (the writes are returned instead);
  - `getRayTracingShaderGroupHandlesKHR` (the handles are a parameter);
  - buffer mapping and device addresses (parameters);
  - `traceRaysKHR` and the push constants.
- RayTracing.CreateRtShaderBindingTable: `groupCount * groupSizeAligned` is unbounded here. A 32-bit overflow of `sbtSize` is not modelled.
- `createBottomLevelAS` and `createTopLevelAS` follow the live code: the spheres only. The commented-out per-OBJ loops are not modelled.
- `updateUniformBuffer` is left out: it is perspective, inverse and aspect-ratio float math.
- The sRGB `pow(…, 2.2)` conversion of materials, the OBJ parser, the material and vertex contents of buffers, and the bytes of the scene description buffer are left out.
- Texture and skybox file lookup (`findFile` over the search paths, the `media/textures/` prefix) and decoding (`stbi_load`) are the `load` parameter. `stbi_image_free` is left out.
- Scene.MakeTexture: the upload is width·height·4 bytes only for a decoded image that really has four bytes per texel. The decoder's guarantee of that is not modelled.
- Skybox.SkyboxAsWritten: the null-pointer `memcpy` is undefined behaviour, so it is one outcome, `UndefinedCopy`. The narrowing of `face_size` to `int` is not modelled.
- Skybox.SkyboxAsWritten: `cubemap_format` has no initialiser. `UndefinedFormat` stands for its indeterminate value when no face has three or four channels.
- RayTracing.AlignUp: the header defining `nvh::align_up` is not part of this model. It is taken to round up to the next multiple of the alignment, computed by division. A bit-mask implementation agrees only for power-of-two alignments, which Vulkan guarantees for `shaderGroupBaseAlignment`. The mask form is not modelled.
- CameraManip.Equal: the components are reals, so the float case of NaN, which is not equal to itself, is not admitted.
- CameraManip.CameraManipulator.constructor: the constructor's body is in `cameramanipulator.cpp`, which is not part of this model. It is taken to leave the member initialisers as they are, so the matrix stays the identity. If the body calls `update()`, the matrix is `lookAt` of the default camera instead.
- Spheres.BoundingBox: coordinates are reals, and float rounding of `center ± radius` is not modelled.
- Paths.ExePathCache.ExePath: `readlink` is I/O; its return value and buffer are parameters. Truncation at `PATH_MAX` and thread safety of the statics are not modelled.
- The debug utility's Vulkan entry points are events in a log. The typed `setObjectName` overloads only choose the `VkObjectType` constant, so they are one method taking that constant.
- The naming macros (`NAME_VK`, `LABEL_SCOPE_VK`, …) build strings from `typeid` and `__FILE__` and are left out.
- DebugUtil.FileNameSplitter: strings are character sequences without a terminating NUL. The `strrchr` result + 1 on a missing separator is taken to mean "not found".
- The screenshot and dialog stubs in `nvpsystem_linux.cpp` are left out; they only assert.
- The frame loop, event loop, post-processing and offscreen passes are left out.

## Findings

| source | as written | input that shows it | evidently intended | confidence | as-written member | corrected member |
|---|---|---|---|---|---|---|
| rt_weekend/src/application_impl_descriptor.cpp:393-395 | the `std::runtime_error` for a face that fails to load is constructed but never thrown, so the null pixel pointer reaches `memcpy` | a `load` for which `media/textures/skybox/right.png` (or any face) decodes to nothing | `throw`: skybox creation fails with that face's error | not executed; high | Skybox.MissingFaceReachesCopy | Skybox.MissingFaceFails |
| rt_weekend/src/application_impl_descriptor.cpp:391-408 | `stbi_load(…, STBI_rgb_alpha)` returns four bytes per texel, but `face_channel` reports the file's channel count: an RGB file gives a three-byte face size and the R8G8B8 format | six 2×1 RGB faces with texels (1,2,3) and (4,5,6): the upload is 36 bytes declared R8G8B8, and the first face's second texel reads (255,4,5) | four bytes per texel and R8G8B8A8 for every face, all faces of one size | not executed; high | Skybox.RgbFaceGarbledAsWritten | Skybox.RgbFaceKeptCorrected |
| shared_sources/nvvk/debug_util_vk.hpp:135-141 | `~ScopedCmdLabel` tests `s_enabled` again at destruction, not whether the constructor began a label | `setEnabled(true)`, open a scoped label, `setEnabled(false)`, close it: a begin with no end (and the reverse order gives an end with no begin) | close exactly the label that was opened, as the comment at line 122 promises | not executed; medium (only when the flag changes inside a scope) | DebugUtil.ToggledScopeUnbalanced | DebugUtil.ScopeBalanced |
