# Lighting, shader and model-loading core of a modern OpenGL demo, in Dafny

This project models the C++ classes behind the demo's lit, shadowed scene. The
OpenGL driver is a class whose `log` records every call issued to it, in order.
It also holds the answers the driver gives: which programs link, the location of
each active uniform, and which image files decode. Everything the core passes to
OpenGL is therefore stated as a set of facts about that log.

- **Shader** (`shader.dfy`, module `Shaders`):
  - After a successful link, the program fills its uniform location tables. They
    come from fixed names and from `snprintf`-formatted indexed names such as
    `spotLights[2].base.base.color`. After a failed link, the program assigns
    nothing.
  - Upload of the directional light.
  - Upload of the point and spot lights:
    - the count is clamped to `MAX_POINT_LIGHTS` or `MAX_SPOT_LIGHTS`;
    - each light's shadow cubemap is bound at `GL_TEXTURE0 + textureUnit + i`;
    - its sampler and far plane go to the shared omni-shadow table at index `i + offset`.
  - The six light matrices, the texture, and the directional shadow uniforms.
  - `ClearShader` and the destructor.
  - The line-joining file reader.
  - The location getters. The source keeps each location in a GLuint field, so
    the GLint result of `glGetUniformLocation` is converted when it is
    assigned, and the getters return the field unchanged. The model stores the
    GLint and converts in the getter instead. `AsGLuintRoundTrip` shows that the
    two placements agree.
- **Uniform names** (`uniform_names.dfy`, module `UniformNames`): `%d`
  formatting and `snprintf` into the 100-character buffer. The proofs show that
  no name is truncated and that no two table entries share a name.
- **Lights** (`lights.dfy`, module `Lights`):
  - the defaults and parameters of the `Light` and `PointLight` constructors;
  - the uniform writes of their `UseLight`;
  - the six-face table of `CalculateLightTransform`;
  - the point light's getters.
- **Window** (`window.dfy`, module `Windows`): the 1024-entry key table of both
  constructors, and the key callback.
- **Model** (`model.dfy`, module `Models`):
  - Loading an imported scene:
    - a pre-order walk of the node tree;
    - per mesh, an interleaved 8-float vertex buffer (position, UV or zero,
      negated normal) and a flattened index buffer;
    - per material, a texture under `Textures/` whose file name is cut at the
      last backslash, falling back to `Textures/plain.png`.
  - Drawing the model.
  - Releasing the model.
- **Collaborators** (`graphics.dfy`, module `Graphics`): the driver, the meshes,
  textures, shadow maps and spot lights as the core sees them, and the C integer
  conversions the core relies on.

The constants `MAX_POINT_LIGHTS` and `MAX_SPOT_LIGHTS` live in a header that is
not part of this model. They are declared without a value, so every proof holds
for any sizes of the two tables.

## Model

| member | source | states |
|---|---|---|
| Graphics.AsGLuint | OpenGLCourseApp/Shader.cpp:18-76 | a location handed out as GLuint keeps its value when it is non-negative; -1, the driver's "no such uniform", becomes 0xFFFFFFFF |
| Graphics.AsGLuintRoundTrip | OpenGLCourseApp/Shader.cpp:18-76 | a 32-bit location handed out as GLuint and passed back to a glUniform call as GLint is unchanged |
| Graphics.ToU32 | OpenGLCourseApp/Shader.cpp:109 | the texture enum `GL_TEXTURE0 + textureUnit + i` is a 32-bit value, exact below 2^32 |
| Graphics.ToU32Wraps | OpenGLCourseApp/Shader.cpp:109 | above 2^32 the enum wraps: it differs from the sum by a whole multiple of 2^32 |
| Graphics.ToGLint | OpenGLCourseApp/Shader.cpp:112 | the unsigned unit number passed as GLint lies in the 32-bit signed range, agrees with the unit modulo 2^32, and is exact below 2^31 |
| Graphics.TruncToInt | OpenGLCourseApp/Shader.cpp:113 | the float far plane given to the integer setter is truncated toward zero: within 1 of the value, and never further from zero than it |
| Graphics.Gl.UniformLocation | OpenGLCourseApp/Shader.cpp:331-336 | a name that is not an active uniform of the program gets location -1 |
| Graphics.Texture.LoadTexture | OpenGLCourseApp/Model.cpp:148 | loading succeeds exactly when the image file decodes |
| Graphics.Texture.LoadTextureA | OpenGLCourseApp/Model.cpp:162 | the alpha variant succeeds exactly when the image file decodes |
| Graphics.OmniShadowMap.Read | OpenGLCourseApp/Shader.cpp:109 | binding a cubemap for reading issues one call naming this map and the given texture enum |
| Lights.Light.constructor | OpenGLCourseApp/Light.cpp:3-12 | the default light is white, with ambient intensity 1, direction (0,-1,0) and diffuse intensity 0 |
| Lights.Light.Init | OpenGLCourseApp/Light.cpp:14-22 | every argument is stored as given, with no clamping or normalisation |
| Lights.Light.UseLight | OpenGLCourseApp/Light.cpp:24-34 | exactly four uniform writes: colour, ambient intensity, direction and diffuse intensity, each to its own location, in that order |
| Lights.CubeFaceAxis | OpenGLCourseApp/PointLight.cpp:53-71 | face 2k looks down the positive k-th axis and face 2k+1 down the negative one |
| Lights.CubeFaceUp | OpenGLCourseApp/PointLight.cpp:53-71 | the up vector is +Z for the +Y face, -Z for the -Y face, and -Y for the four others |
| Lights.CubeFaceUpPerpendicular | OpenGLCourseApp/PointLight.cpp:53-71 | on every face the up vector is perpendicular to the view axis, so no lookAt call is degenerate |
| Lights.CubeFaceUpUnit | OpenGLCourseApp/PointLight.cpp:53-71 | every up vector has unit length |
| Lights.CubeFacesDistinct | OpenGLCourseApp/PointLight.cpp:53-71 | distinct faces look along distinct axes, so the six views cover the cube once |
| Lights.PointLight.constructor | OpenGLCourseApp/PointLight.cpp:3-9 | the base light defaults at the origin with no attenuation (constant 1, linear 0, exponent 0), so the attenuation divisor is non-zero; there is no shadow map |
| Lights.PointLight.Init | OpenGLCourseApp/PointLight.cpp:11-33 | colour, intensities, position, attenuation and far plane are stored as given; the projection is a 90-degree perspective with the shadow map's aspect ratio; a fresh shadow map of the given size is allocated |
| Lights.PointLight.UseLight | OpenGLCourseApp/PointLight.cpp:35-51 | exactly seven uniform writes: colour, ambient and diffuse intensity, position, then the three attenuation terms, each to its own location |
| Lights.PointLight.CalculateLightTransform | OpenGLCourseApp/PointLight.cpp:53-71 | six matrices, and matrix i is face i's projection times lookAt, in the order +X, -X, +Y, -Y, +Z, -Z |
| Lights.PointLight.FaceTransformView | OpenGLCourseApp/PointLight.cpp:53-71 | face i's transform uses the light's own projection and looks from the light's position one unit along face i's axis, with that face's up vector |
| Lights.PointLight.GetFarPlane | OpenGLCourseApp/PointLight.cpp:73-76 | gives the far plane the light was built with |
| Lights.PointLight.GetPosition | OpenGLCourseApp/PointLight.cpp:78-81 | gives the light's position |
| Lights.PointLight.GetShadowMap | OpenGLCourseApp/Shader.cpp:109 | gives the light's own shadow map |
| UniformNames.Decimal | OpenGLCourseApp/Shader.cpp:350 | `%d` of a non-negative index is a non-empty run of digits with no leading zero |
| UniformNames.DecimalRoundTrip | OpenGLCourseApp/Shader.cpp:350 | reading the formatted digits back gives the index that was formatted |
| UniformNames.DecimalInjective | OpenGLCourseApp/Shader.cpp:350 | distinct indices are formatted differently |
| UniformNames.Pow10 | OpenGLCourseApp/Shader.cpp:347 | powers of ten are positive; used to bound the digit count |
| UniformNames.DecimalLength | OpenGLCourseApp/Shader.cpp:350 | a number below 10^k has at most k digits |
| UniformNames.DecimalLength32 | OpenGLCourseApp/Shader.cpp:350 | a 32-bit index has at most ten digits |
| UniformNames.Snprintf | OpenGLCourseApp/Shader.cpp:347-350 | the 100-character buffer holds at most 99 characters, a prefix of the formatted text, kept whole when it fits |
| UniformNames.LocNameUntruncated | OpenGLCourseApp/Shader.cpp:344-450 | for every 32-bit index, every indexed name fits the buffer, so the lookup receives the full name |
| UniformNames.DigitsSplit | OpenGLCourseApp/Shader.cpp:350 | a digit run followed by a text that starts with a non-digit can be split only one way |
| UniformNames.PointSuffixInjective | OpenGLCourseApp/Shader.cpp:350-374 | the seven point-light field suffixes are pairwise distinct |
| UniformNames.SpotSuffixInjective | OpenGLCourseApp/Shader.cpp:386-418 | the nine spot-light field suffixes are pairwise distinct |
| UniformNames.OmniSuffixInjective | OpenGLCourseApp/Shader.cpp:445-448 | the two omni-shadow field suffixes are distinct |
| UniformNames.NameParts | OpenGLCourseApp/Shader.cpp:344-450 | an indexed name is its table prefix, then the index digits, then the field suffix |
| UniformNames.PrefixDetermined | OpenGLCourseApp/Shader.cpp:344-450 | the first character of a name determines its table |
| UniformNames.IndexedNamesDistinct | OpenGLCourseApp/Shader.cpp:344-450 | two table entries with the same formatted name are the same entry: same table, same index, same field |
| UniformNames.LocNamesDistinct | OpenGLCourseApp/Shader.cpp:344-450 | the same holds for the buffer contents that reach the lookup, for 32-bit indices |
| Shaders.ClampCount | OpenGLCourseApp/Shader.cpp:91-94 | the uploaded count is at most the array size and at most the requested count, and equals one of the two |
| Shaders.PointLightsCallsLength | OpenGLCourseApp/Shader.cpp:98-114 | uploading n point lights issues exactly 10n calls |
| Shaders.PointLightsCallsPrefix | OpenGLCourseApp/Shader.cpp:98-114 | the calls for the first m lights are the first 10m calls for any n >= m |
| Shaders.PointLightSlotEntries | OpenGLCourseApp/Shader.cpp:100-113 | one light's ten calls: its seven UseLight writes, the cubemap bind at `GL_TEXTURE0 + textureUnit + i`, the sampler unit `textureUnit + i`, and the truncated far plane |
| Shaders.PointLightsCallsSlice | OpenGLCourseApp/Shader.cpp:98-114 | light i owns calls 10i to 10i+9 |
| Shaders.PointLightsCallsBlock | OpenGLCourseApp/Shader.cpp:98-114 | call by call: light i's fields go to table slot i, its cubemap to unit `textureUnit + i`, and its shadow uniforms to omni slot `i + offset` |
| Shaders.SpotLightsCallsLength | OpenGLCourseApp/Shader.cpp:129-145 | uploading n spot lights issues exactly 4n calls |
| Shaders.SpotLightsCallsPrefix | OpenGLCourseApp/Shader.cpp:129-145 | the calls for the first m spot lights come first |
| Shaders.SpotLightsCallsBlock | OpenGLCourseApp/Shader.cpp:129-145 | spot light i owns calls 4i to 4i+3: its UseLight with slot i's nine locations, its cubemap bind, and omni slot `i + offset`'s two uniforms |
| Shaders.LineEnd | OpenGLCourseApp/Shader.cpp:262-266 | getline stops at the first newline at or after the read position, or at the end of the text |
| Shaders.Shader.constructor | OpenGLCourseApp/Shader.cpp:3-11 | no program; the model and projection locations and both light counts are zero |
| Shaders.Shader.CompileProgram | OpenGLCourseApp/Shader.cpp:310-451 | a failed link assigns nothing at all; after a successful link every fixed-name location and every entry of the four indexed tables holds the driver's location for its name; the frame leaves the program id and both light counts untouched |
| Shaders.Shader.LookUpFields | OpenGLCourseApp/Shader.cpp:331-429 | every uniform with a fixed name holds the driver's location for that name |
| Shaders.Shader.FillTables | OpenGLCourseApp/Shader.cpp:344-450 | every entry of the point, spot, light-matrix and omni-shadow tables holds the location of its formatted name |
| Shaders.Shader.LookUpMaterial | OpenGLCourseApp/Shader.cpp:331-336 | the model, projection and view matrices, the two material terms and the eye position |
| Shaders.Shader.LookUpLights | OpenGLCourseApp/Shader.cpp:338-380 | the four directional-light locations, each from its own name, and the two light-count locations |
| Shaders.Shader.LookUpShadows | OpenGLCourseApp/Shader.cpp:423-429 | the texture sampler, the directional light transform and shadow map, the light position and the far plane |
| Shaders.Shader.FillPointLightTable | OpenGLCourseApp/Shader.cpp:345-376 | slot i of the point-light table holds the locations of `pointLights[i]`'s seven fields |
| Shaders.Shader.FillSpotLightTable | OpenGLCourseApp/Shader.cpp:381-420 | slot i of the spot-light table holds the locations of `spotLights[i]`'s nine fields |
| Shaders.Shader.FillLightMatrixTable | OpenGLCourseApp/Shader.cpp:432-438 | slot i holds the location of `lightMatrices[i]` |
| Shaders.Shader.FillOmniShadowTable | OpenGLCourseApp/Shader.cpp:441-450 | all six omni-shadow slots hold the locations of `omniShadowMaps[i]`'s sampler and far plane |
| Shaders.Shader.SetDirectionalLight | OpenGLCourseApp/Shader.cpp:78-84 | the light's four values go to the directional block's own four locations |
| Shaders.Shader.SetPointLights | OpenGLCourseApp/Shader.cpp:86-115 | the clamped count is written first, then the calls of each of the first clamped-count lights, light by light, as the point-light lemmas describe; nothing else is issued |
| Shaders.Shader.SetSpotLights | OpenGLCourseApp/Shader.cpp:117-146 | the clamped count first, then each spot light's four calls, as the spot-light lemmas describe |
| Shaders.Shader.BindOmniShadow | OpenGLCourseApp/Shader.cpp:109-113 | one light's shadow uploads: cubemap bind, sampler unit, truncated far plane |
| Shaders.Shader.UploadPointLight | OpenGLCourseApp/Shader.cpp:100-113 | one pass of the point-light loop issues exactly that light's slot: its seven uniforms, then its shadow uploads |
| Shaders.Shader.UploadSpotLight | OpenGLCourseApp/Shader.cpp:131-144 | one pass of the spot-light loop issues exactly that light's slot: its use, then its shadow uploads |
| Shaders.Shader.SetTexture | OpenGLCourseApp/Shader.cpp:148-151 | one write of the unit, as GLint, to the texture sampler |
| Shaders.Shader.SetDirectionalShadowMap | OpenGLCourseApp/Shader.cpp:153-156 | one write of the unit, as GLint, to the directional shadow sampler |
| Shaders.Shader.SetDirectionalLightTransform | OpenGLCourseApp/Shader.cpp:158-165 | one matrix write to the directional light transform |
| Shaders.Shader.SetLightMatrices | OpenGLCourseApp/Shader.cpp:167-177 | exactly six matrix writes, and write i sends element i to table slot i |
| Shaders.Shader.UseShader | OpenGLCourseApp/Shader.cpp:179-182 | one call making this program current |
| Shaders.Shader.GetProjectionLocation | OpenGLCourseApp/Shader.cpp:18-21 | the projection location as a GLuint: the location itself when non-negative, and a value that reads back as the location when passed as a GLint |
| Shaders.Shader.GetModelLocation | OpenGLCourseApp/Shader.cpp:23-26 | the model location as a GLuint: the location itself when non-negative, and a value that reads back as the location when passed as a GLint |
| Shaders.Shader.GetViewLocation | OpenGLCourseApp/Shader.cpp:28-31 | the view location as a GLuint: the location itself when non-negative, and a value that reads back as the location when passed as a GLint |
| Shaders.Shader.GetAmbientIntensityLocation | OpenGLCourseApp/Shader.cpp:33-36 | the directional ambient intensity location as a GLuint: the location itself when non-negative, and a value that reads back as the location when passed as a GLint |
| Shaders.Shader.GetColorLocation | OpenGLCourseApp/Shader.cpp:38-41 | the directional colour location as a GLuint: the location itself when non-negative, and a value that reads back as the location when passed as a GLint |
| Shaders.Shader.GetDiffuseIntensityLocation | OpenGLCourseApp/Shader.cpp:43-46 | the directional diffuse intensity location as a GLuint: the location itself when non-negative, and a value that reads back as the location when passed as a GLint |
| Shaders.Shader.GetDirectionLocation | OpenGLCourseApp/Shader.cpp:48-51 | the directional light direction location as a GLuint: the location itself when non-negative, and a value that reads back as the location when passed as a GLint |
| Shaders.Shader.GetSpecularIntensityLocation | OpenGLCourseApp/Shader.cpp:53-56 | the specular intensity location as a GLuint: the location itself when non-negative, and a value that reads back as the location when passed as a GLint |
| Shaders.Shader.GetShininessLocation | OpenGLCourseApp/Shader.cpp:58-61 | the shininess location as a GLuint: the location itself when non-negative, and a value that reads back as the location when passed as a GLint |
| Shaders.Shader.GetEyePositionLocation | OpenGLCourseApp/Shader.cpp:63-66 | the eye position location as a GLuint: the location itself when non-negative, and a value that reads back as the location when passed as a GLint |
| Shaders.Shader.GetOmniLightPosLocation | OpenGLCourseApp/Shader.cpp:68-71 | the omni light position location as a GLuint: the location itself when non-negative, and a value that reads back as the location when passed as a GLint |
| Shaders.Shader.GetFarPlaneLocation | OpenGLCourseApp/Shader.cpp:73-76 | the far plane location as a GLuint: the location itself when non-negative, and a value that reads back as the location when passed as a GLint |
| Shaders.Shader.ClearShader | OpenGLCourseApp/Shader.cpp:184-194 | the program is deleted only if there is one; afterwards program, model and projection are zero, and the frame lets no other field change; clearing a cleared shader issues nothing and changes nothing |
| Shaders.Shader.Destroy | OpenGLCourseApp/Shader.cpp:196-199 | the destructor clears: program released at most once, then zero |
| Shaders.Shader.ReadFile | OpenGLCourseApp/Shader.cpp:249-269 | an unopenable file gives the empty string; otherwise every line followed by a newline, which adds up to the whole text plus one final newline |
| Windows.KeyTransition | OpenGLCourseApp/Window.cpp:104-113 | a press sets the key's flag and a release clears it; other actions and codes outside 0..1023 change nothing; no other key is touched |
| Windows.PressThenRelease | OpenGLCourseApp/Window.cpp:104-113 | a press followed by its release restores a key that was up |
| Windows.KeyTransitionIdempotent | OpenGLCourseApp/Window.cpp:104-113 | repeating the same event changes nothing more |
| Windows.KeyReflectsLastEvent | OpenGLCourseApp/Window.cpp:104-113 | after a press or release of a key in range, its flag says which it was |
| Windows.Window.constructor | OpenGLCourseApp/Window.cpp:3-12 | an 800 x 600 window with no key down and no close request |
| Windows.Window.Sized | OpenGLCourseApp/Window.cpp:14-23 | the given size, with no key down |
| Windows.Window.ClearKeys | OpenGLCourseApp/Window.cpp:8-11 | all 1024 flags are false |
| Windows.Window.GetKeys | OpenGLCourseApp/Window.h:21 | hands out the window's own 1024-entry key table, not a copy |
| Windows.Window.HandleKeys | OpenGLCourseApp/Window.cpp:94-114 | the key table takes the event as KeyTransition says; Escape pressed raises the close request, which is never cleared; the size is kept |
| Models.VertexBufferLength | OpenGLCourseApp/Model.cpp:80-103 | the vertex buffer holds exactly 8 floats per vertex |
| Models.VertexBufferPrefix | OpenGLCourseApp/Model.cpp:80-103 | the records of earlier vertices are never rewritten by later ones |
| Models.VertexBufferLayout | OpenGLCourseApp/Model.cpp:80-103 | vertex i sits at floats 8i to 8i+7: its position, then its first UV or (0,0), then its normal with each component negated |
| Models.VertexBufferSlice | OpenGLCourseApp/Model.cpp:80-103 | the eight floats of vertex i, taken together, are that vertex's record in the buffer |
| Models.IndexBufferLength | OpenGLCourseApp/Model.cpp:107-114 | the index buffer holds as many indices as all faces together |
| Models.IndexBufferLayout | OpenGLCourseApp/Model.cpp:107-114 | index j of face f sits at position FaceOffset(f) + j |
| Models.TriangleOffsets | OpenGLCourseApp/Model.cpp:106-114 | for a triangulated mesh, face f's corners are indices 3f, 3f+1 and 3f+2 |
| Models.Contents | OpenGLCourseApp/Model.cpp:116-120 | one entry per mesh slot, holding the streams given to CreateMesh, or nothing for a released slot |
| Models.NodeMeshesShown | OpenGLCourseApp/Model.cpp:61-73 | the walk visits mesh x exactly when the node or one of its descendants shows x |
| Models.ChildrenMeshesShown | OpenGLCourseApp/Model.cpp:69-72 | the children loop visits exactly the meshes shown by the children visited so far |
| Models.ShowsByChildIndex | OpenGLCourseApp/Model.cpp:69-72 | a subtree shows a mesh if and only if the node does or its child with some index does |
| Models.NodeMeshesInRange | OpenGLCourseApp/Model.cpp:65 | in a well-formed scene every visited mesh index names a scene mesh |
| Models.ChildrenMeshesInRange | OpenGLCourseApp/Model.cpp:69-72 | the same for the children loop |
| Models.LoadsAppend | OpenGLCourseApp/Model.cpp:120-121 | loading two runs of meshes gives the two runs' results one after the other |
| Models.LastBackslash | OpenGLCourseApp/Model.cpp:141 | rfind gives -1 or the position of a backslash that has no backslash after it |
| Models.TexturePathShape | OpenGLCourseApp/Model.cpp:141-143 | the path is `Textures/` plus a backslash-free tail of the material's path; a path without backslashes is kept whole |
| Models.ChosenFileCases | OpenGLCourseApp/Model.cpp:134-163 | a slot holds the material's own texture only when the material names one and the image loads; otherwise it holds the default texture |
| Models.Resize | OpenGLCourseApp/Model.cpp:126 | the list gets the new size, keeps its old slots up to that size, and new slots are empty |
| Models.MeshRenderEffects | OpenGLCourseApp/Model.cpp:29-36 | drawing one slot draws its mesh once and binds at most its material's texture |
| Models.RenderDrawsEveryMesh | OpenGLCourseApp/Model.cpp:27-37 | drawing the model draws every mesh exactly once, in list order |
| Models.RenderBindsMaterials | OpenGLCourseApp/Model.cpp:27-37 | when every mesh's material has a texture, the binds are those textures, one per mesh, in mesh order |
| Models.ClearedDeletesNothing | OpenGLCourseApp/Model.cpp:40-59 | releasing an already released model issues nothing |
| Models.MeshDeletesCount | OpenGLCourseApp/Model.cpp:42-49 | releasing issues as many mesh deletions as there are live meshes |
| Models.DrawnMeshesAppend | OpenGLCourseApp/Model.cpp:27-37 | the meshes drawn and textures bound by two runs of calls are those of each run, in order |
| Models.FailedFilesStep | OpenGLCourseApp/Model.cpp:128-153 | the failed texture paths grow material by material |
| Models.DeletedOne | OpenGLCourseApp/Model.cpp:151 | one texture deletion deletes that texture's file |
| Models.DeletedAfter | OpenGLCourseApp/Model.cpp:128-164 | appending the deletions of one material keeps the earlier log and extends the deleted files by that material's own |
| Models.DeletedAppend | OpenGLCourseApp/Model.cpp:128-164 | the files deleted by two runs of deletions are those of each run, in order |
| Models.Model.constructor | OpenGLCourseApp/Model.cpp:3 | an empty model |
| Models.Model.LoadModel | OpenGLCourseApp/Model.cpp:5-23 | a failed import changes nothing; otherwise the scene's meshes are appended in pre-order with their material indices, every material gets its chosen texture, and the only calls issued are deletions of the textures that failed to load |
| Models.Model.LoadMesh | OpenGLCourseApp/Model.cpp:75-122 | appends one mesh holding exactly the interleaved vertex buffer and the flattened index buffer, together with its material index; the meshes already in the list stay in their slots |
| Models.Model.InterleaveVertices | OpenGLCourseApp/Model.cpp:80-103 | the per-vertex loop builds exactly the buffer the layout lemmas describe |
| Models.Model.FlattenFaces | OpenGLCourseApp/Model.cpp:107-114 | the face loop concatenates every face's indices in order |
| Models.Model.LoadNode | OpenGLCourseApp/Model.cpp:61-73 | appends the subtree's meshes in pre-order, a node's own first, then each child's subtree, with their material indices; earlier meshes stay in their slots and textures are untouched |
| Models.Model.LoadMeshes | OpenGLCourseApp/Model.cpp:63-66 | the node's own meshes, in their order, after the meshes already loaded, which stay in their slots |
| Models.Model.LoadChildren | OpenGLCourseApp/Model.cpp:69-72 | each child's subtree in child order, after the meshes already loaded, which stay in their slots |
| Models.Model.LoadMaterials | OpenGLCourseApp/Model.cpp:124-165 | one non-null texture per material, holding the file chosen for it; earlier calls are kept and the new calls are exactly the deletions of the textures that failed to load, in material order; meshes are untouched |
| Models.Model.MaterialTexture | OpenGLCourseApp/Model.cpp:130-163 | one material's slot: its texture under `Textures/` if it loads, else the default; a texture that fails is deleted, and nothing else is issued |
| Models.Model.RenderModel | OpenGLCourseApp/Model.cpp:25-38 | for every mesh slot in order, a bind of its material's texture when that index is in range and the slot is filled, then the draw |
| Models.Model.ClearModel | OpenGLCourseApp/Model.cpp:40-59 | every live mesh, then every live texture, is deleted once in list order; all slots end empty; the lists keep their length and the material indices are kept |

## Left out

- OpenGL itself is modelled as a log of calls and as fixed answers. This covers program linking, uniform lookup and image decoding. The state those calls change inside the driver is not modelled.
- Shader compilation (`CreateFromString`, `CreateFromFiles`, `CompileShader`, `AddShader`, `Validate`) is left out. So are `glCreateProgram` and `glLinkProgram` themselves. `CompileProgram` starts from an existing program id and a link status supplied by the driver model, and the link and info-log queries are not logged.
- `ReadFile` opening the file is left out. The file arrives as its whole text, or as none when it cannot be opened.
- glm mathematics is kept symbolic. `glm::perspective` and `glm::lookAt` are constructors of an uninterpreted matrix, and floats are `real` without rounding.
- The importer (`Assimp::Importer::ReadFile` and its post-processing flags) is left out. The scene arrives imported or as none. Suppose the importer's guarantees hold (mesh indices in range, one normal per vertex, one UV per vertex when there is a UV channel). The model then requires them under `SceneWellFormed`.
- `Models.Model.LoadMesh`: an empty mesh is accepted. The source makes `&vertices[0]` of an empty vector, which C++ leaves undefined.
- Inside a mesh or texture, the GPU upload is left out. This covers `Mesh::CreateMesh`, `RenderMesh` and `ClearMesh`, and `Texture::UseTexture`, `ClearTexture` and stbi image decoding. Each use is recorded as one call: a draw, a bind, or a deletion.
- The snapshot's `Texture.h` and `Texture.cpp` declare a `void LoadTexture()` and have no `LoadTextureA`. The model follows `Model.cpp`, which uses a boolean result from both.
- The snapshot's `Mesh.cpp` reads 5 floats per vertex, yet `LoadMesh` writes 8. `Mesh.cpp` is not part of this model, and the 8-float layout is the one proved.
- `DirectionalLight`, `SpotLight` and `OmniShadowMap` are not part of this model beyond what the shader reads from them. A spot light's own `UseLight` is recorded as one call carrying its nine locations.
- The directional light's shadow map and light transform are left out.
- The cameras, `main.cpp` and the render passes are left out.
- For windows, the GLFW window creation in `Window::initialize` is left out, along with buffer swapping, the mouse callback and the mouse-change getters. Those are I/O with the windowing system.
- The close request is a field of the window model rather than GLFW state.
- `Shaders.Shader.SetPointLights` requires that every uploaded light has a shadow map and that `offset` keeps the omni-shadow index in range. The source dereferences both unchecked.
- `Shaders.Shader.SetSpotLights` requires the same of `offset`.
- `Models.Model.RenderModel` requires every mesh slot to be filled. In the source, drawing after `ClearModel` dereferences a null mesh.
- The indexed names format a `size_t` with `%d`. The model formats the index's value.
- `Lights.PointLight.constructor`: the source leaves the far plane, the projection and the shadow-map pointer uninitialised. The model leaves the first two unconstrained and makes the pointer null.
- `PointLight.cpp` calls a `Light` constructor that takes shadow sizes. The snapshot's `Light.cpp` has no such constructor. The model stores the point light's own fields and allocates its shadow map directly.
- The `printf` diagnostics that `LoadModel` and `LoadMaterials` print for a scene or a texture that fails to load (Model.cpp:17, 150) are console output and are not modelled.
- `Graphics.TruncToInt` is total: a float whose truncation does not fit an `int` makes the C++ conversion undefined, and the model does not capture that case.
- `Models.Model.LoadMaterials`: each `Texture` is built from `texPath.c_str()` of a `std::string` that dies at the end of the loop body (Model.cpp:145), so the texture keeps a dangling pointer. The model gives the texture its own copy of the path.
- `Lights.PointLight` has no `direction` field. The source's `PointLight` inherits `direction` from `Light`, but no point-light operation reads it.
