# MentalOpenGLEngine core, modelled in Dafny

This project models the computational core of MentalOpenGLEngine, a small
C++ OpenGL renderer.

- **Binary search.** `BinSearch` is the engine's generic iterative binary search. It is modelled over a Dafny
  array, with the element type's `operator>` passed in as a function.
- **Model loading.** `Model` imports a scene and turns it into meshes. The scene is a tree of
  nodes that refer to meshes, and it is given as a value. The model walks the tree depth first and
  pre-order. For each mesh it builds vertices and flattened face indices.
  It also builds a texture list from the mesh's material: six role groups
  in slot order. An empty group falls back to the role's default texture.
  A per-model cache maps texture file names to texture names, so each file
  is loaded once. A ghost load log records every call to the loader, and the
  class invariant says the log and the cache always match.
- **Meshes.** `Mesh` keeps the first texture of each role. `BindTextures` writes the fixed
  sampler units and the two "use texture" flags. `UnbindTextures` clears
  units 0 to 7, one per role.
- **Texture loading.** `GLLoadTextureFromFile` chooses the pixel format from the channel count.
  It yields texture name 0 when decoding fails.
- **Camera.** `Camera` moves along its three directions, turns with a clamped pitch,
  and zooms with a clamped field of view.

The driver state the code changes is a pair of small classes in
`gl_context.dfy`:

- the integer uniforms of a shader program;
- the active texture unit;
- the texture bound to each unit;
- the texture objects;
- the name counters of the `glGen*` calls.

The image decoder, the scene importer, the texture loader, the camera
trigonometry and `Time::DeltaTime` are parameters.

The model makes two observations about the source:

- A mesh built by `Model::ProcessMesh` only ever holds Albedo, Metallic,
  Roughness, AmbientOcclusion, Normal and Height textures. `Mesh::BindTextures` only
  looks for Diffuse, Specular and Normal. So such a mesh never sets its
  diffuse or specular sampler, and it always clears the specular flag
  (`MaterialLoading.MaterialMeshBinding`).
- `Model::HasTexture` always answers no.

## Model

| member | source | states |
|---|---|---|
| BinarySearch.BinSearch | MentalOpenGLEngine/src/Array/Sorting/BinarySearch.h:6-36 | A result other than -1 is an index below `size` holding `elem`. A `size` of 0 or less gives -1 and reads no element. Every index read lies in `[0, size)`. On a prefix sorted by a strict total order, the result is -1 exactly when `elem` does not occur. The loop terminates (`end - start` shrinks). There is no `modifies` clause, so the array is only read. |
| TextureLoading.FormatForChannels | MentalOpenGLEngine/src/Graphics/Utils.h:18-31 | One channel gives GL_RED, three GL_RGB, four GL_RGBA, each in both directions. Any other count leaves the format at 0. |
| TextureLoading.ChannelsOfFormat | MentalOpenGLEngine/src/Graphics/Utils.h:18-31 | The inverse of the format choice: a channel count exactly for the three formats the loader picks. |
| TextureLoading.FormatRoundTrip | MentalOpenGLEngine/src/Graphics/Utils.h:18-31 | Format choice and channel count are inverse on {1, 3, 4} and on {GL_RED, GL_RGB, GL_RGBA}. |
| TextureLoading.LoadTextureFromFile | MentalOpenGLEngine/src/Graphics/Utils.h:7-51 | If decoding fails: name 0, nothing generated, bound or uploaded. If it succeeds: a fresh non-zero name is generated, bound to the active unit and returned. For 1, 3 or 4 channels the image is uploaded with the chosen format as both the internal and the external format, with mipmaps. For any other count the driver rejects format 0 and the name keeps no image. No buffer or vertex-array name is generated. |
| Meshes.FirstPerTypeRoles | MentalOpenGLEngine/src/Graphics/Mesh.cpp:41-47 | After the setup loop, the roles in the table are those before plus every role in the list. |
| Meshes.FirstPerTypeKeeps | MentalOpenGLEngine/src/Graphics/Mesh.cpp:43-46 | An entry already in the table is never overwritten. |
| Meshes.FirstPerTypeFirst | MentalOpenGLEngine/src/Graphics/Mesh.cpp:41-47 | A role absent before gets the first texture of that role in the list. Later ones are ignored. |
| Meshes.FirstPerTypeKeyedByRole | MentalOpenGLEngine/src/Graphics/Mesh.cpp:43-45 | Every entry stays stored under its own role. |
| Meshes.BindUniforms | MentalOpenGLEngine/src/Graphics/Mesh.cpp:78-107 | `uUseSpecularTexture` is 1 exactly when a specular texture is stored, else 0. `uUseNormalTexture` likewise for normal. Each sampler uniform is written with its fixed unit (diffuse 0, specular 1, normal 2) only when that role is present. No other uniform changes. |
| Meshes.BindUnits | MentalOpenGLEngine/src/Graphics/Mesh.cpp:78-107 | Units 0, 1, 2 get the diffuse, specular and normal texture when present. Otherwise they keep their binding, and no other unit changes. |
| Meshes.UnitAfterBind | MentalOpenGLEngine/src/Graphics/Mesh.cpp:78-107 | The active unit afterwards is 2 when a normal texture is present. It is unchanged when none of the three roles is present. |
| Meshes.Unbound | MentalOpenGLEngine/src/Graphics/Mesh.cpp:129-136 | Units `0 .. count-1`, and only they, bound to texture 0. |
| Meshes.Mesh.constructor | MentalOpenGLEngine/src/Graphics/Mesh.cpp:5-8 | A fresh mesh has every handle and count at 0 and no textures. |
| Meshes.Mesh.Setup | MentalOpenGLEngine/src/Graphics/Mesh.cpp:39-76 | The table becomes the first-texture-per-role table of the list, proved against `FirstPerType` by a loop invariant. The counts equal the sizes of the index and vertex lists. A vertex array and two buffers are generated, and no texture state changes. |
| Meshes.Mesh.SetTexture | MentalOpenGLEngine/src/Graphics/Mesh.cpp:138-143 | Sets one sampler uniform to the unit, makes that unit active and binds the texture on it. |
| Meshes.Mesh.BindTextures | MentalOpenGLEngine/src/Graphics/Mesh.cpp:78-127 | Uniforms, unit bindings and active unit afterwards are `BindUniforms`, `BindUnits` and `UnitAfterBind` of those before. |
| Meshes.Mesh.UnbindTextures | MentalOpenGLEngine/src/Graphics/Mesh.cpp:129-136 | Every unit in `0 .. TextureTypeCount-1` is bound to 0 and the others are kept. The last unit selected stays active. |
| SceneGraph.PreOrderAllAppend | MentalOpenGLEngine/src/Graphics/Model.cpp:155-158 | Walking a list of sibling subtrees is walking each, in order. |
| SceneGraph.PreOrderChild | MentalOpenGLEngine/src/Graphics/Model.cpp:146-159 | Depth-first pre-order. A node's walk is: its own meshes, then the subtrees before child `i`, then child `i`'s subtree, then the subtrees after it. |
| SceneGraph.FlattenTriangles | MentalOpenGLEngine/src/Graphics/Model.cpp:189-197 | For triangulated faces the flattened index list has `3 × faces` entries. Index `j` of face `i` is at `3i + j`. |
| SceneGraph.Vertices | MentalOpenGLEngine/src/Graphics/Model.cpp:168-187 | One vertex per position, in order, carrying that position and normal. |
| MaterialLoading.IsSrgb | MentalOpenGLEngine/src/Graphics/Model.cpp:243 | A texture is loaded as sRGB exactly when its role is Albedo. |
| MaterialLoading.Offer | MentalOpenGLEngine/src/Graphics/Model.cpp:245-265 | One texture per listed file. The cache afterwards holds exactly the names cached before plus the offered ones. |
| MaterialLoading.OfferCache | MentalOpenGLEngine/src/Graphics/Model.cpp:253-262 | A cached name keeps its texture name (it is not reloaded). An offered name not cached before maps to what the loader returns for "<directory>/<name>". |
| MaterialLoading.OfferLogShift | MentalOpenGLEngine/src/Graphics/Model.cpp:257-262 | The load log only grows. An offer appends the same names whatever was logged before, and yields the same textures and cache. |
| MaterialLoading.OfferLog | MentalOpenGLEngine/src/Graphics/Model.cpp:253-262 | Within one call, the loader is called for each name at most once, and exactly for the listed names that were not cached. |
| MaterialLoading.OfferTextures | MentalOpenGLEngine/src/Graphics/Model.cpp:253-264 | Texture `i` is the cached texture name of file `i`, tagged with the requested role. |
| MaterialLoading.OfferKeepsLogMatched | MentalOpenGLEngine/src/Graphics/Model.cpp:253-262 | If the log has no repeats and names exactly the cached files, it still does after an offer. Across calls, each file is loaded at most once. |
| MaterialLoading.RoleOrdinal | MentalOpenGLEngine/src/Graphics/Model.cpp:203-209 | The role of slot `k` is the enumerator `k + 2`: the slots are read in role order from Albedo on. |
| MaterialLoading.WithDefault | MentalOpenGLEngine/src/Graphics/Model.cpp:211-217 | A non-empty group is kept. An empty group becomes the role's default when one is set, and stays empty otherwise. |
| MaterialLoading.MaterialFoldStep | MentalOpenGLEngine/src/Graphics/Model.cpp:203-225 | Each slot keeps the list built so far as a prefix and appends only textures of its own role. The cache only gains entries. |
| MaterialLoading.MaterialFoldLogGrows | MentalOpenGLEngine/src/Graphics/Model.cpp:240-268 | The load log before a material is a prefix of the log after any number of its slots, so earlier loads are never forgotten or reordered. |
| MaterialLoading.MaterialFoldExtends | MentalOpenGLEngine/src/Graphics/Model.cpp:219-225 | From slot `k` to slot `j`, the list and cache are kept. Only textures whose enumerators are those of slots `k .. j-1` are appended. |
| MaterialLoading.MaterialFoldSorted | MentalOpenGLEngine/src/Graphics/Model.cpp:219-225 | The list after `k` slots is ordered by role, with enumerators below `k + 2`. |
| MaterialLoading.MaterialTexturesRoles | MentalOpenGLEngine/src/Graphics/Model.cpp:203-225 | A material's list holds only the six material roles, never Diffuse or Specular. It is grouped in the order Albedo, Metallic, Roughness, AmbientOcclusion, Normal, Height. |
| MaterialLoading.MaterialCacheExtends | MentalOpenGLEngine/src/Graphics/Model.cpp:199-226 | Processing a material only adds cache entries. |
| MaterialLoading.SlotRun | MentalOpenGLEngine/src/Graphics/Model.cpp:219-225 | In the full list, the entries of slot `k`'s role are exactly the run added for slot `k`. |
| MaterialLoading.StoredTextureOfSlot | MentalOpenGLEngine/src/Graphics/Model.cpp:199-228 | After `Setup`, each slot's role holds the texture of the slot's first file when the slot lists files. Otherwise it holds the role's default when one is set, and nothing otherwise. |
| MaterialLoading.MaterialTable | MentalOpenGLEngine/src/Graphics/Model.cpp:199-228 | The table a fresh mesh gets from a material's list is right for every slot, has no Diffuse or Specular entry, and is keyed by role. |
| MaterialLoading.TableForMaterialExtends | MentalOpenGLEngine/src/Graphics/Model.cpp:253-256 | A mesh's table stays right for the cache when later materials add entries, since existing entries never change. |
| MaterialLoading.MaterialMeshBinding | MentalOpenGLEngine/src/Graphics/Mesh.cpp:80-107 | Binding a mesh built from a material never writes the diffuse or specular sampler and sets the specular flag to 0. It sets the normal flag exactly when the material's height slot lists a file or a Normal default is set. |
| Models.LastSlash | MentalOpenGLEngine/src/Graphics/Model.cpp:138 | Finds the last '/' of a path, or reports that there is none. |
| Models.DirectoryOf | MentalOpenGLEngine/src/Graphics/Model.cpp:138 | The directory is a prefix of the path, ending just before the last '/'. It is the whole path when there is no '/'. |
| Models.DirectoryOfPath | MentalOpenGLEngine/src/Graphics/Model.cpp:138 | Round trip with the texture path of line 259: the directory of "<dir>/<name>" is `dir` when `name` has no '/'. |
| Models.Model.constructor | MentalOpenGLEngine/src/Graphics/Model.cpp:22-26 | Stores the flip flag, with instance buffer 0, and empty meshes, cache and defaults. |
| Models.Model.HasTextures | MentalOpenGLEngine/src/Graphics/Model.h:17 | True exactly when the cache is non-empty, that is, when some file has been loaded. |
| Models.Model.HasTexture | MentalOpenGLEngine/src/Graphics/Model.cpp:76-79 | Always false. |
| Models.Model.HasDefaultTexture | MentalOpenGLEngine/src/Graphics/Model.cpp:99-102 | True exactly when a default is set for the role. That default has the role. |
| Models.Model.SetDefaultTexture | MentalOpenGLEngine/src/Graphics/Model.cpp:81-92 | Inserts or overwrites the default of the texture's role. Every other role's default and presence are unchanged, and the defaults stay keyed by role. |
| Models.Model.SetTransform | MentalOpenGLEngine/src/Graphics/Model.cpp:94-97 | `GetTransform`, the accessor at `MentalOpenGLEngine/src/Graphics/Model.h:18`, returns the transform just set. |
| Models.Model.AddDefaultTexture | MentalOpenGLEngine/src/Graphics/Model.cpp:231-238 | Appends exactly the role's default when one is set. Otherwise the list is unchanged. |
| Models.Model.LoadMaterialTextures | MentalOpenGLEngine/src/Graphics/Model.cpp:240-268 | The textures, cache and load log afterwards are those of `Offer`, proved by loop invariants. The log stays matched to the cache. |
| Models.Model.LoadMaterial | MentalOpenGLEngine/src/Graphics/Model.cpp:199-226 | The list, cache and load log afterwards are those of the six-slot fold `MaterialTextures`, which has the properties above. The old load log is a prefix of the new one. |
| Models.Model.ProcessMesh | MentalOpenGLEngine/src/Graphics/Model.cpp:161-229 | The mesh's buffers hold the mesh's vertices and flattened face indices, with counts to match. Its table is the first-per-role table of the material's list. The cache and log are as `MaterialTextures` says. The mesh's vertex array and its two buffers get the driver's next names, and the driver's name counters advance by one vertex array and two buffers. The old load log is a prefix of the new one. |
| Models.Model.AddMesh | MentalOpenGLEngine/src/Graphics/Model.cpp:150-152 | One fresh mesh is appended. Its buffers hold the vertices and flattened indices of imported mesh `src`, and its texture table is right for that mesh's material. The cache and load log become exactly those `MaterialTextures` gives for that material. The new mesh gets the driver's next vertex array and buffer names, and the counters advance by one and two. Earlier meshes and cache entries are kept, the old load log is a prefix of the new one, and the earlier meshes stay right for the grown cache. |
| Models.Model.ProcessNodeMeshes | MentalOpenGLEngine/src/Graphics/Model.cpp:148-153 | One fresh mesh per mesh index of the node, in order. Each is built from its imported mesh. Earlier meshes and cache entries are kept, the old load log is a prefix of the new one, and the driver counters advance by one vertex array and two buffers per mesh. |
| Models.Model.ProcessNode | MentalOpenGLEngine/src/Graphics/Model.cpp:146-159 | The meshes appended are fresh. Mesh `k` holds the vertices, indices and material textures of imported mesh `meshSources[k]`, and the appended sources are the node's mesh indices in depth-first pre-order. Earlier meshes and cache entries are kept, and the old load log is a prefix of the new one. The driver counters advance by one vertex array and two buffers per appended mesh. |
| Models.Model.Load | MentalOpenGLEngine/src/Graphics/Model.cpp:127-144 | A missing, incomplete or rootless scene changes nothing. Otherwise the directory is the path before its last '/'. Fresh meshes are appended, built from the scene's meshes in the pre-order of the node tree, each with its vertices, indices and material textures. Earlier cache entries are kept and the old load log is a prefix of the new one, so with the class invariant no file is loaded twice across calls. The driver counters advance by one vertex array and two buffers per mesh. Defaults, transform, flip flag and instance buffer never change. |
| Cameras.ClampPitch | MentalOpenGLEngine/src/Graphics/Camera.cpp:73-80 | The pitch is in [-89, 89]. A value in range is kept, and one above or below becomes the bound. |
| Cameras.ClampZoom | MentalOpenGLEngine/src/Graphics/Camera.cpp:89-96 | The zoom is in [1, 45]. A value in range is kept, and one above or below becomes the bound. |
| Cameras.ClampIdempotent | MentalOpenGLEngine/src/Graphics/Camera.cpp:73-96 | Clamping twice is clamping once. |
| Cameras.Opposite | MentalOpenGLEngine/src/Graphics/Camera.cpp:47-64 | Pairs each movement with its opposite. |
| Cameras.OppositeCancels | MentalOpenGLEngine/src/Graphics/Camera.cpp:41-66 | Right/Left, Forward/Backward and Up/Down are opposite displacements. A step and the opposite step return to the start. |
| Cameras.Camera.constructor | MentalOpenGLEngine/src/Graphics/Camera.cpp:5-16 | A new camera has yaw -90, pitch 0 and zoom 45, the given position, speed and sensitivity, and the directions for that yaw and pitch. |
| Cameras.Camera.UpdateBasis | MentalOpenGLEngine/src/Graphics/Camera.cpp:99-110 | The directions become those of the current yaw and pitch. |
| Cameras.Camera.Move | MentalOpenGLEngine/src/Graphics/Camera.cpp:41-66 | The position moves by ±`speed·dt` times one direction. Yaw, pitch, zoom and the directions are unchanged. |
| Cameras.Camera.Rotate | MentalOpenGLEngine/src/Graphics/Camera.cpp:68-83 | Yaw grows by `xOffset·sensitivity·dt` with no clamping. Pitch becomes the clamped sum, so it lies in [-89, 89]. The directions follow. |
| Cameras.Camera.Zoom | MentalOpenGLEngine/src/Graphics/Camera.cpp:85-97 | Zoom becomes `old − yOffset·dt·100` clamped to [1, 45]. A value already in range is taken exactly. |

## Left out

- Drawing: the `Draw`, `DrawInstanced` and `SetupInstancedDrawing` bodies, the destructors, and the vertex attribute and buffer-upload calls in `Mesh::Setup` are GPU calls. `Setup` is modelled as recording the uploaded vertices and indices and generating the three names.
- Arithmetic: floating-point values are `real`, with no rounding. Texture names and counts are unbounded `nat`, not 32-bit unsigned integers.
- BinarySearch.BinSearch: does not model the 64-bit width of `start + end`. That sum overflows only when `size` exceeds 2^62. The `_DEBUG` trace is output only.
- Camera trigonometry: `UpdateCameraBasisVectors` computes the directions with trigonometry. The model passes that computation in as the `basisOf` parameter. `GetViewMatrix` and `GetProjectionMatrix` are matrix arithmetic and are not modelled. `RotateYaw` is declared in `Camera.h` but has no body in `Camera.cpp`. `Time::DeltaTime` is a parameter.
- Texture file loading (`Utils.h`): texture wrap and filter parameters and the decoder's global flip setting are not modelled. The driver stand-in accepts only the three formats the engine uploads and rejects every other value. The GL error it would raise is not modelled. Freeing the image data and the console messages are not modelled either.
- The loader: `Model.cpp` calls a three-argument `GLLoadTextureFromFile(path, flip, srgb)`, while `Utils.h` defines a one-argument version that always flips. The model treats the loader used by `Model` as the function parameter `Loader`. The one-argument version is `LoadTextureFromFile`.
- The normal sampler: `NORMAL_TEXTURE_NAME` is not defined in `CoreTypes.h`, where the diffuse and specular sampler names are. The model uses "uMaterial.normalTexture1", formed like those two.
- The role enumeration: `CoreTypes.h` lists only Diffuse and Specular, while the `.cpp` files use eight roles. The model uses one enumeration, in the order Diffuse, Specular, Albedo, Metallic, Roughness, AmbientOcclusion, Normal, Height, so `TextureTypeCount` is 8. `Mesh.h` declares the texture table as a vector, but `Mesh.cpp` uses it as a map keyed by role, and the model follows `Mesh.cpp`.
- The importer: Assimp's `ReadFile` and its post-processing flags are replaced by the `imported` parameter of `Load`. `WellFormed` states what the importer guarantees (equal-length per-vertex arrays, material index in range), and `Load` requires it of a complete scene with a root.
- Models.Model.ProcessMesh: requires a fresh mesh with an empty table, as `AddMesh` always passes. The face-size `assert` at line 192 is not a check in the model. `FlattenTriangles` gives the `3 × faces` count for triangulated faces. The material branch is always taken, because the material index is unsigned. The driver's bound textures and texture objects after the call are not stated: the source's `GLLoadTextureFromFile` creates and binds textures, while the model's `Loader` is a pure function that leaves the driver alone, so the model would promise an unchanged binding state that the source does not have.
- Models.Model.LoadMaterial: the source loads all six groups, then applies the six default checks, then concatenates. The model loops over the slots, doing load, default and append for each. The result is the same, because a default check reads only its own group and never touches the cache.
- Models.Model.ProcessNode: its first loop, over the node's own meshes, is the separate method `ProcessNodeMeshes`; the loop over the children stays in `ProcessNode`. It states each appended mesh's buffers and texture table and the advance of the driver's name counters. It does not state each appended mesh's own buffer names, which `AddMesh` states for one mesh, or the driver's bindings. The cache is only stated to keep every earlier entry, and the load log to keep the old log as a prefix; their exact new contents are stated one mesh at a time by `AddMesh`, not for the whole walk.
- Models.Model.Load: as for `ProcessNode`, the per-mesh buffer names and the driver's bindings are not stated, and the cache and load log are only stated to keep their earlier entries (the log as a prefix), not their exact new contents.
- Ownership: meshes are shared pointers in the source and fresh objects in the model. `mMeshes.reserve` is not modelled. The instance-matrix buffer is only a field, which `Load` leaves unchanged.
