/**
 * The shader program's uniform bookkeeping: the location tables filled after
 * linking, the uploads of directional, point and spot lights (clamped to the
 * compile-time maxima, each light's shadow cubemap bound to its own texture
 * unit and recorded in the shared omni-shadow table), the light matrices,
 * clearing the program, and the line-joining file reader.
 */
module Shaders {
  import opened Graphics
  import opened UniformNames
  import opened Lights

  /** The array sizes the shader source is compiled with. */
  const MAX_POINT_LIGHTS: nat
  const MAX_SPOT_LIGHTS: nat

  /** The number of matrices of a cubemap pass, one per face. */
  const CUBE_FACES: nat := 6

  datatype DirectionalLightLocs = DirectionalLightLocs(
    color: int, ambientIntensity: int, diffuseIntensity: int, direction: int)

  datatype PointLightLocs = PointLightLocs(
    color: int, ambientIntensity: int, diffuseIntensity: int, position: int,
    constant: int, linear: int, exponent: int)

  datatype OmniShadowLocs = OmniShadowLocs(shadowMap: int, farPlane: int)

  /** The location the driver gives the program for one indexed uniform. */
  function Locate(gl: Gl, program: U32, u: IndexedUniform): int
  {
    gl.UniformLocation(program, LocName(u))
  }

  function PointLightLocsFor(gl: Gl, program: U32, i: nat): PointLightLocs
  {
    PointLightLocs(
      Locate(gl, program, PointLightUniform(i, PointColor)),
      Locate(gl, program, PointLightUniform(i, PointAmbientIntensity)),
      Locate(gl, program, PointLightUniform(i, PointDiffuseIntensity)),
      Locate(gl, program, PointLightUniform(i, PointPosition)),
      Locate(gl, program, PointLightUniform(i, PointConstant)),
      Locate(gl, program, PointLightUniform(i, PointLinear)),
      Locate(gl, program, PointLightUniform(i, PointExponent)))
  }

  function SpotLightLocsFor(gl: Gl, program: U32, i: nat): SpotLightLocs
  {
    SpotLightLocs(
      Locate(gl, program, SpotLightUniform(i, SpotAmbientIntensity)),
      Locate(gl, program, SpotLightUniform(i, SpotColor)),
      Locate(gl, program, SpotLightUniform(i, SpotDiffuseIntensity)),
      Locate(gl, program, SpotLightUniform(i, SpotPosition)),
      Locate(gl, program, SpotLightUniform(i, SpotDirection)),
      Locate(gl, program, SpotLightUniform(i, SpotConstant)),
      Locate(gl, program, SpotLightUniform(i, SpotLinear)),
      Locate(gl, program, SpotLightUniform(i, SpotExponent)),
      Locate(gl, program, SpotLightUniform(i, SpotEdge)))
  }

  function OmniShadowLocsFor(gl: Gl, program: U32, i: nat): OmniShadowLocs
  {
    OmniShadowLocs(
      Locate(gl, program, OmniShadowUniform(i, OmniShadowMap)),
      Locate(gl, program, OmniShadowUniform(i, OmniFarPlane)))
  }

  /** The number of lights actually uploaded: the requested count, capped at the array size. */
  function ClampCount(lightCount: U32, max: nat): (n: nat)
    ensures n <= max && n <= lightCount
    ensures n == lightCount || n == max
  {
    if lightCount > max then max else lightCount
  }

  /**
   * The shadow half of one light's upload: its cubemap is bound at texture
   * enum GL_TEXTURE0 + textureUnit + i, the sampler in omni slot `omni`
   * is pointed at unit textureUnit + i, and the far plane goes through the
   * integer setter, so it arrives truncated toward zero.
   */
  function OmniShadowUploads(shadowMap: OmniShadowMap?, farPlane: real, omni: OmniShadowLocs,
                             textureUnit: U32, i: nat): seq<Call>
  {
    [ShadowMapRead(shadowMap, ToU32(GL_TEXTURE0 + textureUnit + i)),
     Uniform1i(omni.shadowMap, ToGLint(textureUnit + i)),
     Uniform1i(omni.farPlane, TruncToInt(farPlane))]
  }

  /** A block that follows `front` in a prefix of `whole` sits right after it in `whole`. */
  lemma SliceOfPrefix<T>(whole: seq<T>, front: seq<T>, block: seq<T>)
    requires |front| + |block| <= |whole|
    requires whole[..|front| + |block|] == front + block
    ensures whole[|front| .. |front| + |block|] == block
    ensures forall t :: 0 <= t < |block| ==> whole[|front| + t] == block[t]
  {
    forall t | 0 <= t < |block|
      ensures whole[|front| + t] == block[t]
    {
      assert whole[|front| + t] == (front + block)[|front| + t];
    }
  }

  /** Everything SetPointLights issues for light `i`, in order. */
  function PointLightSlot(light: PointLight, locs: PointLightLocs, omni: OmniShadowLocs,
                          textureUnit: U32, i: nat): seq<Call>
  {
    PointLightUploads(light, locs.ambientIntensity, locs.color, locs.diffuseIntensity,
      locs.position, locs.constant, locs.linear, locs.exponent)
    + OmniShadowUploads(light.shadowMap, light.farPlane, omni, textureUnit, i)
  }

  /** The calls for point lights 0 .. n-1, light by light. */
  function PointLightsCalls(lights: seq<PointLight>, locs: seq<PointLightLocs>,
                            omni: seq<OmniShadowLocs>, textureUnit: U32, offset: nat,
                            n: nat): seq<Call>
    requires n <= |lights| && n <= |locs| && offset + n <= |omni|
  {
    if n == 0 then []
    else PointLightsCalls(lights, locs, omni, textureUnit, offset, n - 1)
         + PointLightSlot(lights[n - 1], locs[n - 1], omni[n - 1 + offset], textureUnit, n - 1)
  }

  lemma {:induction false} PointLightsCallsLength(lights: seq<PointLight>, locs: seq<PointLightLocs>,
                                                  omni: seq<OmniShadowLocs>, textureUnit: U32,
                                                  offset: nat, n: nat)
    requires n <= |lights| && n <= |locs| && offset + n <= |omni|
    ensures |PointLightsCalls(lights, locs, omni, textureUnit, offset, n)| == 10 * n
    decreases n
  {
    if n > 0 {
      PointLightsCallsLength(lights, locs, omni, textureUnit, offset, n - 1);
    }
  }

  /** Uploading more lights only appends: the calls for the first m lights come first. */
  lemma {:induction false} PointLightsCallsPrefix(lights: seq<PointLight>, locs: seq<PointLightLocs>,
                                                  omni: seq<OmniShadowLocs>, textureUnit: U32,
                                                  offset: nat, m: nat, n: nat)
    requires m <= n <= |lights| && n <= |locs| && offset + n <= |omni|
    ensures 10 * m <= |PointLightsCalls(lights, locs, omni, textureUnit, offset, n)|
    ensures PointLightsCalls(lights, locs, omni, textureUnit, offset, n)[..10 * m]
      == PointLightsCalls(lights, locs, omni, textureUnit, offset, m)
    decreases n
  {
    PointLightsCallsLength(lights, locs, omni, textureUnit, offset, n);
    PointLightsCallsLength(lights, locs, omni, textureUnit, offset, m);
    if m < n {
      PointLightsCallsPrefix(lights, locs, omni, textureUnit, offset, m, n - 1);
      PointLightsCallsLength(lights, locs, omni, textureUnit, offset, n - 1);
      var prev := PointLightsCalls(lights, locs, omni, textureUnit, offset, n - 1);
      var slot := PointLightSlot(lights[n - 1], locs[n - 1], omni[n - 1 + offset], textureUnit, n - 1);
      assert (prev + slot)[..10 * m] == prev[..10 * m];
    }
  }

  /** The ten calls of one point light's slot, position by position. */
  lemma PointLightSlotEntries(light: PointLight, locs: PointLightLocs, omni: OmniShadowLocs,
                              textureUnit: U32, i: nat)
    ensures |PointLightSlot(light, locs, omni, textureUnit, i)| == 10
    ensures PointLightSlot(light, locs, omni, textureUnit, i)[..7]
      == PointLightUploads(light, locs.ambientIntensity, locs.color, locs.diffuseIntensity,
           locs.position, locs.constant, locs.linear, locs.exponent)
    ensures PointLightSlot(light, locs, omni, textureUnit, i)[7]
      == ShadowMapRead(light.shadowMap, ToU32(GL_TEXTURE0 + textureUnit + i))
    ensures PointLightSlot(light, locs, omni, textureUnit, i)[8]
      == Uniform1i(omni.shadowMap, ToGLint(textureUnit + i))
    ensures PointLightSlot(light, locs, omni, textureUnit, i)[9]
      == Uniform1i(omni.farPlane, TruncToInt(light.farPlane))
  {
  }

  /** Point light `i` owns the ten calls at 10i .. 10i+9 and no others. */
  lemma PointLightsCallsSlice(lights: seq<PointLight>, locs: seq<PointLightLocs>,
                              omni: seq<OmniShadowLocs>, textureUnit: U32,
                              offset: nat, n: nat, i: nat)
    requires n <= |lights| && n <= |locs| && offset + n <= |omni|
    requires i < n
    ensures |PointLightsCalls(lights, locs, omni, textureUnit, offset, n)| == 10 * n
    ensures PointLightsCalls(lights, locs, omni, textureUnit, offset, n)[10 * i .. 10 * i + 10]
      == PointLightSlot(lights[i], locs[i], omni[i + offset], textureUnit, i)
  {
    PointLightsCallsLength(lights, locs, omni, textureUnit, offset, n);
    PointLightsCallsLength(lights, locs, omni, textureUnit, offset, i);
    PointLightsCallsPrefix(lights, locs, omni, textureUnit, offset, i + 1, n);
    var front := PointLightsCalls(lights, locs, omni, textureUnit, offset, i);
    var slot := PointLightSlot(lights[i], locs[i], omni[i + offset], textureUnit, i);
    PointLightSlotEntries(lights[i], locs[i], omni[i + offset], textureUnit, i);
    assert PointLightsCalls(lights, locs, omni, textureUnit, offset, i + 1) == front + slot;
    SliceOfPrefix(PointLightsCalls(lights, locs, omni, textureUnit, offset, n), front, slot);
  }

  /**
   * Point light `i` (for i below the uploaded count) owns exactly the ten calls
   * at 10i .. 10i+9: its seven fields go to slot `i`'s locations, its cubemap is
   * bound at GL_TEXTURE0 + textureUnit + i, and omni slot i + offset receives
   * unit textureUnit + i and the truncated far plane. Nothing else is issued.
   */
  lemma PointLightsCallsBlock(lights: seq<PointLight>, locs: seq<PointLightLocs>,
                              omni: seq<OmniShadowLocs>, textureUnit: U32,
                              offset: nat, n: nat, i: nat)
    requires n <= |lights| && n <= |locs| && offset + n <= |omni|
    requires i < n
    ensures |PointLightsCalls(lights, locs, omni, textureUnit, offset, n)| == 10 * n
    ensures PointLightsCalls(lights, locs, omni, textureUnit, offset, n)[10 * i .. 10 * i + 7]
      == PointLightUploads(lights[i], locs[i].ambientIntensity, locs[i].color,
           locs[i].diffuseIntensity, locs[i].position, locs[i].constant, locs[i].linear,
           locs[i].exponent)
    ensures PointLightsCalls(lights, locs, omni, textureUnit, offset, n)[10 * i + 7]
      == ShadowMapRead(lights[i].shadowMap, ToU32(GL_TEXTURE0 + textureUnit + i))
    ensures PointLightsCalls(lights, locs, omni, textureUnit, offset, n)[10 * i + 8]
      == Uniform1i(omni[i + offset].shadowMap, ToGLint(textureUnit + i))
    ensures PointLightsCalls(lights, locs, omni, textureUnit, offset, n)[10 * i + 9]
      == Uniform1i(omni[i + offset].farPlane, TruncToInt(lights[i].farPlane))
  {
    PointLightsCallsSlice(lights, locs, omni, textureUnit, offset, n, i);
    PointLightSlotEntries(lights[i], locs[i], omni[i + offset], textureUnit, i);
    var calls := PointLightsCalls(lights, locs, omni, textureUnit, offset, n);
    var slot := calls[10 * i .. 10 * i + 10];
    assert calls[10 * i .. 10 * i + 7] == slot[..7];
    assert calls[10 * i + 7] == slot[7];
    assert calls[10 * i + 8] == slot[8];
    assert calls[10 * i + 9] == slot[9];
  }

  /** Everything SetSpotLights issues for spot light `i`, in order. */
  function SpotLightSlot(spot: SpotLight, locs: SpotLightLocs, omni: OmniShadowLocs,
                         textureUnit: U32, i: nat): seq<Call>
  {
    [SpotLightUse(spot, locs)] + OmniShadowUploads(spot.shadowMap, spot.farPlane, omni, textureUnit, i)
  }

  /** The calls for spot lights 0 .. n-1, light by light. */
  function SpotLightsCalls(spots: seq<SpotLight>, locs: seq<SpotLightLocs>,
                           omni: seq<OmniShadowLocs>, textureUnit: U32, offset: nat,
                           n: nat): seq<Call>
    requires n <= |spots| && n <= |locs| && offset + n <= |omni|
  {
    if n == 0 then []
    else SpotLightsCalls(spots, locs, omni, textureUnit, offset, n - 1)
         + SpotLightSlot(spots[n - 1], locs[n - 1], omni[n - 1 + offset], textureUnit, n - 1)
  }

  lemma {:induction false} SpotLightsCallsLength(spots: seq<SpotLight>, locs: seq<SpotLightLocs>,
                                                 omni: seq<OmniShadowLocs>, textureUnit: U32,
                                                 offset: nat, n: nat)
    requires n <= |spots| && n <= |locs| && offset + n <= |omni|
    ensures |SpotLightsCalls(spots, locs, omni, textureUnit, offset, n)| == 4 * n
    decreases n
  {
    if n > 0 {
      SpotLightsCallsLength(spots, locs, omni, textureUnit, offset, n - 1);
    }
  }

  /** Uploading more spot lights only appends: the calls for the first m come first. */
  lemma {:induction false} SpotLightsCallsPrefix(spots: seq<SpotLight>, locs: seq<SpotLightLocs>,
                                                 omni: seq<OmniShadowLocs>, textureUnit: U32,
                                                 offset: nat, m: nat, n: nat)
    requires m <= n <= |spots| && n <= |locs| && offset + n <= |omni|
    ensures 4 * m <= |SpotLightsCalls(spots, locs, omni, textureUnit, offset, n)|
    ensures SpotLightsCalls(spots, locs, omni, textureUnit, offset, n)[..4 * m]
      == SpotLightsCalls(spots, locs, omni, textureUnit, offset, m)
    decreases n
  {
    SpotLightsCallsLength(spots, locs, omni, textureUnit, offset, n);
    SpotLightsCallsLength(spots, locs, omni, textureUnit, offset, m);
    if m < n {
      SpotLightsCallsPrefix(spots, locs, omni, textureUnit, offset, m, n - 1);
      SpotLightsCallsLength(spots, locs, omni, textureUnit, offset, n - 1);
      var prev := SpotLightsCalls(spots, locs, omni, textureUnit, offset, n - 1);
      var slot := SpotLightSlot(spots[n - 1], locs[n - 1], omni[n - 1 + offset], textureUnit, n - 1);
      assert (prev + slot)[..4 * m] == prev[..4 * m];
    }
  }

  /**
   * Spot light `i` owns exactly the four calls at 4i .. 4i+3: its UseLight with
   * slot `i`'s nine locations (direction and edge included), its cubemap bound
   * at GL_TEXTURE0 + textureUnit + i, and omni slot i + offset's two uniforms.
   */
  lemma SpotLightsCallsBlock(spots: seq<SpotLight>, locs: seq<SpotLightLocs>,
                             omni: seq<OmniShadowLocs>, textureUnit: U32,
                             offset: nat, n: nat, i: nat)
    requires n <= |spots| && n <= |locs| && offset + n <= |omni|
    requires i < n
    ensures |SpotLightsCalls(spots, locs, omni, textureUnit, offset, n)| == 4 * n
    ensures SpotLightsCalls(spots, locs, omni, textureUnit, offset, n)[4 * i]
      == SpotLightUse(spots[i], locs[i])
    ensures SpotLightsCalls(spots, locs, omni, textureUnit, offset, n)[4 * i + 1]
      == ShadowMapRead(spots[i].shadowMap, ToU32(GL_TEXTURE0 + textureUnit + i))
    ensures SpotLightsCalls(spots, locs, omni, textureUnit, offset, n)[4 * i + 2]
      == Uniform1i(omni[i + offset].shadowMap, ToGLint(textureUnit + i))
    ensures SpotLightsCalls(spots, locs, omni, textureUnit, offset, n)[4 * i + 3]
      == Uniform1i(omni[i + offset].farPlane, TruncToInt(spots[i].farPlane))
  {
    SpotLightsCallsLength(spots, locs, omni, textureUnit, offset, n);
    SpotLightsCallsLength(spots, locs, omni, textureUnit, offset, i);
    SpotLightsCallsPrefix(spots, locs, omni, textureUnit, offset, i + 1, n);
    var front := SpotLightsCalls(spots, locs, omni, textureUnit, offset, i);
    var slot := SpotLightSlot(spots[i], locs[i], omni[i + offset], textureUnit, i);
    assert SpotLightsCalls(spots, locs, omni, textureUnit, offset, i + 1) == front + slot;
    SliceOfPrefix(SpotLightsCalls(spots, locs, omni, textureUnit, offset, n), front, slot);
    assert |front| == 4 * i && |slot| == 4;
  }

  /** The six matrix uploads of SetLightMatrices: element `i` to location `locs[i]`. */
  function LightMatrixCalls(locs: seq<int>, lightMatrices: seq<Mat4>): (r: seq<Call>)
    requires |locs| >= CUBE_FACES && |lightMatrices| >= CUBE_FACES
  {
    seq(CUBE_FACES, i requires 0 <= i < CUBE_FACES => UniformMatrix4fv(locs[i], lightMatrices[i]))
  }

  /** Where the line-reading loop stops: the next newline at or after `pos`, or the end. */
  function LineEnd(text: string, pos: nat): (e: nat)
    requires pos <= |text|
    ensures pos <= e <= |text|
    ensures e < |text| ==> text[e] == '\n'
    ensures forall k :: pos <= k < e ==> text[k] != '\n'
    decreases |text| - pos
  {
    if pos == |text| || text[pos] == '\n' then pos else LineEnd(text, pos + 1)
  }

  class Shader {
    var shaderID: U32
    var uniformProjection: int
    var uniformModel: int
    var uniformView: int
    var uniformEyePosition: int
    var uniformSpecularIntensity: int
    var uniformShininess: int
    var uniformDirectionalLight: DirectionalLightLocs
    var uniformPointLightCount: int
    var uniformSpotLightCount: int
    var uniformTexture: int
    var uniformDirectionalLightTransform: int
    var uniformDirectionalShadowMap: int
    var uniformOmniLightPos: int
    var uniformFarPlane: int
    var pointLightCount: int
    var spotLightCount: int

    const uniformPointLight: array<PointLightLocs>
    const uniformSpotLight: array<SpotLightLocs>
    const uniformLightMatrices: array<int>
    const uniformOmniShadowMap: array<OmniShadowLocs>

    ghost predicate Valid()
    {
      && uniformPointLight.Length == MAX_POINT_LIGHTS
      && uniformSpotLight.Length == MAX_SPOT_LIGHTS
      && uniformLightMatrices.Length == CUBE_FACES
      && uniformOmniShadowMap.Length == MAX_POINT_LIGHTS + MAX_SPOT_LIGHTS
    }

    /** No program yet; model and projection locations and both light counts are zero. */
    constructor ()
      ensures Valid()
      ensures shaderID == 0 && uniformModel == 0 && uniformProjection == 0
      ensures pointLightCount == 0 && spotLightCount == 0
      ensures fresh(uniformPointLight) && fresh(uniformSpotLight)
      ensures fresh(uniformLightMatrices) && fresh(uniformOmniShadowMap)
    {
      shaderID := 0;
      uniformModel := 0;
      uniformProjection := 0;
      pointLightCount := 0;
      spotLightCount := 0;
      uniformPointLight := new PointLightLocs[MAX_POINT_LIGHTS];
      uniformSpotLight := new SpotLightLocs[MAX_SPOT_LIGHTS];
      uniformLightMatrices := new int[CUBE_FACES];
      uniformOmniShadowMap := new OmniShadowLocs[MAX_POINT_LIGHTS + MAX_SPOT_LIGHTS];
    }

    /**
     * The getters hand out the GLuint the source keeps for each location: the
     * location itself when it is non-negative, and in every case a value that
     * reads back as the location when it is passed to a glUniform call.
     */
    function GetProjectionLocation(): (r: U32)
      reads this`uniformProjection
      ensures HoldsAsGLuint(r, uniformProjection)
    {
      AsGLuint(uniformProjection)
    }

    function GetModelLocation(): (r: U32)
      reads this`uniformModel
      ensures HoldsAsGLuint(r, uniformModel)
    {
      AsGLuint(uniformModel)
    }

    function GetViewLocation(): (r: U32)
      reads this`uniformView
      ensures HoldsAsGLuint(r, uniformView)
    {
      AsGLuint(uniformView)
    }

    function GetAmbientIntensityLocation(): (r: U32)
      reads this`uniformDirectionalLight
      ensures HoldsAsGLuint(r, uniformDirectionalLight.ambientIntensity)
    {
      AsGLuint(uniformDirectionalLight.ambientIntensity)
    }

    function GetColorLocation(): (r: U32)
      reads this`uniformDirectionalLight
      ensures HoldsAsGLuint(r, uniformDirectionalLight.color)
    {
      AsGLuint(uniformDirectionalLight.color)
    }

    function GetDiffuseIntensityLocation(): (r: U32)
      reads this`uniformDirectionalLight
      ensures HoldsAsGLuint(r, uniformDirectionalLight.diffuseIntensity)
    {
      AsGLuint(uniformDirectionalLight.diffuseIntensity)
    }

    function GetDirectionLocation(): (r: U32)
      reads this`uniformDirectionalLight
      ensures HoldsAsGLuint(r, uniformDirectionalLight.direction)
    {
      AsGLuint(uniformDirectionalLight.direction)
    }

    function GetSpecularIntensityLocation(): (r: U32)
      reads this`uniformSpecularIntensity
      ensures HoldsAsGLuint(r, uniformSpecularIntensity)
    {
      AsGLuint(uniformSpecularIntensity)
    }

    function GetShininessLocation(): (r: U32)
      reads this`uniformShininess
      ensures HoldsAsGLuint(r, uniformShininess)
    {
      AsGLuint(uniformShininess)
    }

    function GetEyePositionLocation(): (r: U32)
      reads this`uniformEyePosition
      ensures HoldsAsGLuint(r, uniformEyePosition)
    {
      AsGLuint(uniformEyePosition)
    }

    function GetOmniLightPosLocation(): (r: U32)
      reads this`uniformOmniLightPos
      ensures HoldsAsGLuint(r, uniformOmniLightPos)
    {
      AsGLuint(uniformOmniLightPos)
    }

    function GetFarPlaneLocation(): (r: U32)
      reads this`uniformFarPlane
      ensures HoldsAsGLuint(r, uniformFarPlane)
    {
      AsGLuint(uniformFarPlane)
    }

    /** The matrices, the material and the eye position. */
    ghost predicate MaterialLinked(gl: Gl)
      reads this`shaderID, this`uniformModel, this`uniformProjection, this`uniformView
      reads this`uniformSpecularIntensity, this`uniformShininess, this`uniformEyePosition
    {
      && uniformModel == gl.UniformLocation(shaderID, "model")
      && uniformProjection == gl.UniformLocation(shaderID, "projection")
      && uniformView == gl.UniformLocation(shaderID, "view")
      && uniformSpecularIntensity == gl.UniformLocation(shaderID, "material.specularIntensity")
      && uniformShininess == gl.UniformLocation(shaderID, "material.shininess")
      && uniformEyePosition == gl.UniformLocation(shaderID, "eyePosition")
    }

    /** The directional light block and the two light counts. */
    ghost predicate LightsLinked(gl: Gl)
      reads this`shaderID, this`uniformDirectionalLight, this`uniformPointLightCount
      reads this`uniformSpotLightCount
    {
      && uniformDirectionalLight.color == gl.UniformLocation(shaderID, "directionalLight.base.color")
      && uniformDirectionalLight.ambientIntensity == gl.UniformLocation(shaderID, "directionalLight.base.ambientIntensity")
      && uniformDirectionalLight.direction == gl.UniformLocation(shaderID, "directionalLight.direction")
      && uniformDirectionalLight.diffuseIntensity == gl.UniformLocation(shaderID, "directionalLight.base.diffuseIntensity")
      && uniformPointLightCount == gl.UniformLocation(shaderID, "pointLightCount")
      && uniformSpotLightCount == gl.UniformLocation(shaderID, "spotLightCount")
    }

    /** The texture sampler and the directional and omni-directional shadow uniforms. */
    ghost predicate ShadowsLinked(gl: Gl)
      reads this`shaderID, this`uniformTexture, this`uniformDirectionalLightTransform
      reads this`uniformDirectionalShadowMap, this`uniformOmniLightPos, this`uniformFarPlane
    {
      && uniformTexture == gl.UniformLocation(shaderID, "theTexture")
      && uniformDirectionalLightTransform == gl.UniformLocation(shaderID, "directionalLightTransform")
      && uniformDirectionalShadowMap == gl.UniformLocation(shaderID, "directionalShadowMap")
      && uniformOmniLightPos == gl.UniformLocation(shaderID, "lightPos")
      && uniformFarPlane == gl.UniformLocation(shaderID, "farPlane")
    }

    /** Every entry of the four indexed tables holds the driver's answer for its name. */
    ghost predicate TablesLinked(gl: Gl)
      reads this`shaderID, uniformPointLight, uniformSpotLight, uniformLightMatrices
      reads uniformOmniShadowMap
      requires Valid()
    {
      && (forall i :: 0 <= i < MAX_POINT_LIGHTS ==> uniformPointLight[i] == PointLightLocsFor(gl, shaderID, i))
      && (forall i :: 0 <= i < MAX_SPOT_LIGHTS ==> uniformSpotLight[i] == SpotLightLocsFor(gl, shaderID, i))
      && (forall i :: 0 <= i < CUBE_FACES ==>
            uniformLightMatrices[i] == Locate(gl, shaderID, LightMatrixUniform(i)))
      && (forall i :: 0 <= i < MAX_POINT_LIGHTS + MAX_SPOT_LIGHTS ==>
            uniformOmniShadowMap[i] == OmniShadowLocsFor(gl, shaderID, i))
    }

    /**
     * After a failed link nothing is assigned. After a successful one every
     * location and every table entry holds the driver's location for its name.
     * The program id and both light counts are outside the frame: linking
     * never touches them.
     */
    method CompileProgram(gl: Gl)
      requires Valid()
      modifies this`uniformModel, this`uniformProjection, this`uniformView
      modifies this`uniformSpecularIntensity, this`uniformShininess, this`uniformEyePosition
      modifies this`uniformDirectionalLight, this`uniformPointLightCount, this`uniformSpotLightCount
      modifies this`uniformTexture, this`uniformDirectionalLightTransform, this`uniformDirectionalShadowMap
      modifies this`uniformOmniLightPos, this`uniformFarPlane
      modifies uniformPointLight, uniformSpotLight, uniformLightMatrices, uniformOmniShadowMap
      ensures Valid()
      ensures !gl.LinkStatus(shaderID) ==>
        && unchanged(this) && unchanged(uniformPointLight) && unchanged(uniformSpotLight)
        && unchanged(uniformLightMatrices) && unchanged(uniformOmniShadowMap)
      ensures gl.LinkStatus(shaderID) ==>
        MaterialLinked(gl) && LightsLinked(gl) && ShadowsLinked(gl) && TablesLinked(gl)
    {
      if !gl.LinkStatus(shaderID) {
        return;
      }
      LookUpFields(gl);
      FillTables(gl);
    }

    /** The uniforms looked up by a fixed name. */
    method LookUpFields(gl: Gl)
      modifies this`uniformModel, this`uniformProjection, this`uniformView
      modifies this`uniformSpecularIntensity, this`uniformShininess, this`uniformEyePosition
      modifies this`uniformDirectionalLight, this`uniformPointLightCount, this`uniformSpotLightCount
      modifies this`uniformTexture, this`uniformDirectionalLightTransform, this`uniformDirectionalShadowMap
      modifies this`uniformOmniLightPos, this`uniformFarPlane
      ensures MaterialLinked(gl) && LightsLinked(gl) && ShadowsLinked(gl)
    {
      LookUpMaterial(gl);
      ghost var m := MaterialLinked(gl);
      LookUpLights(gl);
      assert m == MaterialLinked(gl);
      ghost var l := LightsLinked(gl);
      LookUpShadows(gl);
      assert m == MaterialLinked(gl) && l == LightsLinked(gl);
    }

    /** The uniforms looked up by an indexed name, table by table. */
    method FillTables(gl: Gl)
      requires Valid()
      modifies uniformPointLight, uniformSpotLight, uniformLightMatrices, uniformOmniShadowMap
      ensures TablesLinked(gl)
    {
      FillPointLightTable(gl);
      FillSpotLightTable(gl);
      FillLightMatrixTable(gl);
      FillOmniShadowTable(gl);
    }

    method LookUpMaterial(gl: Gl)
      modifies this`uniformModel, this`uniformProjection, this`uniformView
      modifies this`uniformSpecularIntensity, this`uniformShininess, this`uniformEyePosition
      ensures MaterialLinked(gl)
    {
      uniformModel := gl.UniformLocation(shaderID, "model");
      uniformProjection := gl.UniformLocation(shaderID, "projection");
      uniformView := gl.UniformLocation(shaderID, "view");
      uniformSpecularIntensity := gl.UniformLocation(shaderID, "material.specularIntensity");
      uniformShininess := gl.UniformLocation(shaderID, "material.shininess");
      uniformEyePosition := gl.UniformLocation(shaderID, "eyePosition");
    }

    method LookUpLights(gl: Gl)
      modifies this`uniformDirectionalLight, this`uniformPointLightCount, this`uniformSpotLightCount
      ensures LightsLinked(gl)
    {
      uniformDirectionalLight := DirectionalLightLocs(
        gl.UniformLocation(shaderID, "directionalLight.base.color"),
        gl.UniformLocation(shaderID, "directionalLight.base.ambientIntensity"),
        gl.UniformLocation(shaderID, "directionalLight.base.diffuseIntensity"),
        gl.UniformLocation(shaderID, "directionalLight.direction"));
      uniformPointLightCount := gl.UniformLocation(shaderID, "pointLightCount");
      uniformSpotLightCount := gl.UniformLocation(shaderID, "spotLightCount");
    }

    method LookUpShadows(gl: Gl)
      modifies this`uniformTexture, this`uniformDirectionalLightTransform, this`uniformDirectionalShadowMap
      modifies this`uniformOmniLightPos, this`uniformFarPlane
      ensures ShadowsLinked(gl)
    {
      uniformTexture := gl.UniformLocation(shaderID, "theTexture");
      uniformDirectionalLightTransform := gl.UniformLocation(shaderID, "directionalLightTransform");
      uniformDirectionalShadowMap := gl.UniformLocation(shaderID, "directionalShadowMap");
      uniformOmniLightPos := gl.UniformLocation(shaderID, "lightPos");
      uniformFarPlane := gl.UniformLocation(shaderID, "farPlane");
    }

    method FillPointLightTable(gl: Gl)
      requires Valid()
      modifies uniformPointLight
      ensures forall i :: 0 <= i < MAX_POINT_LIGHTS ==> uniformPointLight[i] == PointLightLocsFor(gl, shaderID, i)
    {
      for i := 0 to MAX_POINT_LIGHTS
        invariant forall j :: 0 <= j < i ==> uniformPointLight[j] == PointLightLocsFor(gl, shaderID, j)
      {
        var locs := PointLightLocsFor(gl, shaderID, i);
        uniformPointLight[i] := locs;
      }
    }

    method FillSpotLightTable(gl: Gl)
      requires Valid()
      modifies uniformSpotLight
      ensures forall i :: 0 <= i < MAX_SPOT_LIGHTS ==> uniformSpotLight[i] == SpotLightLocsFor(gl, shaderID, i)
    {
      for i := 0 to MAX_SPOT_LIGHTS
        invariant forall j :: 0 <= j < i ==> uniformSpotLight[j] == SpotLightLocsFor(gl, shaderID, j)
      {
        var locs := SpotLightLocsFor(gl, shaderID, i);
        uniformSpotLight[i] := locs;
      }
    }

    method FillLightMatrixTable(gl: Gl)
      requires Valid()
      modifies uniformLightMatrices
      ensures forall i :: 0 <= i < CUBE_FACES ==>
        uniformLightMatrices[i] == Locate(gl, shaderID, LightMatrixUniform(i))
    {
      for i := 0 to CUBE_FACES
        invariant forall j :: 0 <= j < i ==>
          uniformLightMatrices[j] == Locate(gl, shaderID, LightMatrixUniform(j))
      {
        uniformLightMatrices[i] := Locate(gl, shaderID, LightMatrixUniform(i));
      }
    }

    method FillOmniShadowTable(gl: Gl)
      requires Valid()
      modifies uniformOmniShadowMap
      ensures forall i :: 0 <= i < MAX_POINT_LIGHTS + MAX_SPOT_LIGHTS ==>
        uniformOmniShadowMap[i] == OmniShadowLocsFor(gl, shaderID, i)
    {
      for i := 0 to MAX_POINT_LIGHTS + MAX_SPOT_LIGHTS
        invariant forall j :: 0 <= j < i ==> uniformOmniShadowMap[j] == OmniShadowLocsFor(gl, shaderID, j)
      {
        uniformOmniShadowMap[i] := OmniShadowLocsFor(gl, shaderID, i);
      }
    }

    /** The directional light's four values go to the directional block's four locations. */
    method SetDirectionalLight(gl: Gl, dLight: Light)
      modifies gl
      ensures gl.log == old(gl.log) + LightUploads(dLight,
        uniformDirectionalLight.ambientIntensity, uniformDirectionalLight.color,
        uniformDirectionalLight.diffuseIntensity, uniformDirectionalLight.direction)
    {
      dLight.UseLight(gl, uniformDirectionalLight.ambientIntensity, uniformDirectionalLight.color,
        uniformDirectionalLight.diffuseIntensity, uniformDirectionalLight.direction);
    }

    /**
     * Uploads min(lightCount, MAX_POINT_LIGHTS) point lights: first the clamped
     * count, then light by light the calls PointLightsCallsBlock describes. The
     * omni-shadow table is indexed from `offset`, which the caller must keep in
     * range.
     */
    method SetPointLights(gl: Gl, pLight: seq<PointLight>, lightCount: U32,
                          textureUnit: U32, offset: U32)
      requires Valid()
      requires ClampCount(lightCount, MAX_POINT_LIGHTS) <= |pLight|
      requires forall i :: 0 <= i < ClampCount(lightCount, MAX_POINT_LIGHTS) ==> pLight[i].shadowMap != null
      requires offset + ClampCount(lightCount, MAX_POINT_LIGHTS) <= MAX_POINT_LIGHTS + MAX_SPOT_LIGHTS
      modifies gl
      ensures gl.log == old(gl.log)
        + [Uniform1i(uniformPointLightCount, ClampCount(lightCount, MAX_POINT_LIGHTS))]
        + PointLightsCalls(pLight, uniformPointLight[..], uniformOmniShadowMap[..], textureUnit, offset,
                           ClampCount(lightCount, MAX_POINT_LIGHTS))
    {
      var count := lightCount;
      if count > MAX_POINT_LIGHTS {
        count := MAX_POINT_LIGHTS;
      }
      gl.Issue(Uniform1i(uniformPointLightCount, count));
      ghost var start := gl.log;
      ghost var table := uniformPointLight[..];
      ghost var omniTable := uniformOmniShadowMap[..];
      for i := 0 to count
        invariant gl.log == start + PointLightsCalls(pLight, table, omniTable, textureUnit, offset, i)
      {
        var locs := uniformPointLight[i];
        var omni := uniformOmniShadowMap[i + offset];
        assert locs == table[i] && omni == omniTable[i + offset];
        UploadPointLight(gl, pLight[i], locs, omni, textureUnit, i);
        ghost var slot := PointLightSlot(pLight[i], locs, omni, textureUnit, i);
        assert start + PointLightsCalls(pLight, table, omniTable, textureUnit, offset, i + 1)
          == (start + PointLightsCalls(pLight, table, omniTable, textureUnit, offset, i)) + slot;
      }
    }

    /**
     * Uploads min(lightCount, MAX_SPOT_LIGHTS) spot lights: first the clamped
     * count, then light by light the calls SpotLightsCallsBlock describes.
     */
    method SetSpotLights(gl: Gl, sLight: seq<SpotLight>, lightCount: U32,
                         textureUnit: U32, offset: U32)
      requires Valid()
      requires ClampCount(lightCount, MAX_SPOT_LIGHTS) <= |sLight|
      requires offset + ClampCount(lightCount, MAX_SPOT_LIGHTS) <= MAX_POINT_LIGHTS + MAX_SPOT_LIGHTS
      modifies gl
      ensures gl.log == old(gl.log)
        + [Uniform1i(uniformSpotLightCount, ClampCount(lightCount, MAX_SPOT_LIGHTS))]
        + SpotLightsCalls(sLight, uniformSpotLight[..], uniformOmniShadowMap[..], textureUnit, offset,
                          ClampCount(lightCount, MAX_SPOT_LIGHTS))
    {
      var count := lightCount;
      if count > MAX_SPOT_LIGHTS {
        count := MAX_SPOT_LIGHTS;
      }
      gl.Issue(Uniform1i(uniformSpotLightCount, count));
      ghost var start := gl.log;
      ghost var table := uniformSpotLight[..];
      ghost var omniTable := uniformOmniShadowMap[..];
      for i := 0 to count
        invariant gl.log == start + SpotLightsCalls(sLight, table, omniTable, textureUnit, offset, i)
      {
        var locs := uniformSpotLight[i];
        var omni := uniformOmniShadowMap[i + offset];
        assert locs == table[i] && omni == omniTable[i + offset];
        UploadSpotLight(gl, sLight[i], locs, omni, textureUnit, i);
        ghost var slot := SpotLightSlot(sLight[i], locs, omni, textureUnit, i);
        assert start + SpotLightsCalls(sLight, table, omniTable, textureUnit, offset, i + 1)
          == (start + SpotLightsCalls(sLight, table, omniTable, textureUnit, offset, i)) + slot;
      }
    }

    /**
     * The shadow half of one light's upload, shared by point and spot lights:
     * bind the cubemap, then point the omni slot's sampler and far plane at it.
     */
    method BindOmniShadow(gl: Gl, shadowMap: OmniShadowMap, farPlane: real, omni: OmniShadowLocs,
                          textureUnit: U32, i: nat)
      modifies gl
      ensures gl.log == old(gl.log) + OmniShadowUploads(shadowMap, farPlane, omni, textureUnit, i)
    {
      shadowMap.Read(gl, ToU32(GL_TEXTURE0 + textureUnit + i));
      gl.Issue(Uniform1i(omni.shadowMap, ToGLint(textureUnit + i)));
      gl.Issue(Uniform1i(omni.farPlane, TruncToInt(farPlane)));
    }

    /** One pass of SetPointLights' loop: the light's own uniforms, then its shadow cubemap. */
    method UploadPointLight(gl: Gl, light: PointLight, locs: PointLightLocs, omni: OmniShadowLocs,
                            textureUnit: U32, i: nat)
      requires light.shadowMap != null
      modifies gl
      ensures gl.log == old(gl.log) + PointLightSlot(light, locs, omni, textureUnit, i)
    {
      light.UseLight(gl, locs.ambientIntensity, locs.color, locs.diffuseIntensity,
        locs.position, locs.constant, locs.linear, locs.exponent);
      BindOmniShadow(gl, light.GetShadowMap(), light.GetFarPlane(), omni, textureUnit, i);
    }

    /** One pass of SetSpotLights' loop: the spot light's uniforms, then its shadow cubemap. */
    method UploadSpotLight(gl: Gl, spot: SpotLight, locs: SpotLightLocs, omni: OmniShadowLocs,
                           textureUnit: U32, i: nat)
      modifies gl
      ensures gl.log == old(gl.log) + SpotLightSlot(spot, locs, omni, textureUnit, i)
    {
      gl.Issue(SpotLightUse(spot, locs));
      BindOmniShadow(gl, spot.shadowMap, spot.farPlane, omni, textureUnit, i);
    }

    method SetTexture(gl: Gl, textureUnit: U32)
      modifies gl
      ensures gl.log == old(gl.log) + [Uniform1i(uniformTexture, ToGLint(textureUnit))]
    {
      gl.Issue(Uniform1i(uniformTexture, ToGLint(textureUnit)));
    }

    method SetDirectionalShadowMap(gl: Gl, textureUnit: U32)
      modifies gl
      ensures gl.log == old(gl.log) + [Uniform1i(uniformDirectionalShadowMap, ToGLint(textureUnit))]
    {
      gl.Issue(Uniform1i(uniformDirectionalShadowMap, ToGLint(textureUnit)));
    }

    method SetDirectionalLightTransform(gl: Gl, lTransform: Mat4)
      modifies gl
      ensures gl.log == old(gl.log) + [UniformMatrix4fv(uniformDirectionalLightTransform, lTransform)]
    {
      gl.Issue(UniformMatrix4fv(uniformDirectionalLightTransform, lTransform));
    }

    /** Exactly six matrix uploads: element `i` goes to `lightMatrices[i]`'s location. */
    method SetLightMatrices(gl: Gl, lightMatrices: seq<Mat4>)
      requires Valid()
      requires |lightMatrices| >= CUBE_FACES
      modifies gl
      ensures gl.log == old(gl.log) + LightMatrixCalls(uniformLightMatrices[..], lightMatrices)
      ensures |gl.log| == |old(gl.log)| + CUBE_FACES
      ensures forall i :: 0 <= i < CUBE_FACES ==>
        gl.log[|old(gl.log)| + i] == UniformMatrix4fv(uniformLightMatrices[i], lightMatrices[i])
    {
      ghost var start := gl.log;
      for i := 0 to CUBE_FACES
        invariant gl.log == start + LightMatrixCalls(uniformLightMatrices[..], lightMatrices)[..i]
      {
        gl.Issue(UniformMatrix4fv(uniformLightMatrices[i], lightMatrices[i]));
      }
    }

    method UseShader(gl: Gl)
      modifies gl
      ensures gl.log == old(gl.log) + [UseProgram(shaderID)]
    {
      gl.Issue(UseProgram(shaderID));
    }

    /**
     * Deletes the program only if there is one, then leaves program, model and
     * projection at zero; no other field is touched. A second call issues
     * nothing and changes nothing.
     */
    method ClearShader(gl: Gl)
      modifies this`shaderID, this`uniformModel, this`uniformProjection, gl
      ensures shaderID == 0 && uniformModel == 0 && uniformProjection == 0
      ensures gl.log == old(gl.log) + (if old(shaderID) != 0 then [DeleteProgram(old(shaderID))] else [])
      ensures old(shaderID) == 0 && old(uniformModel) == 0 && old(uniformProjection) == 0 ==>
        unchanged(this) && gl.log == old(gl.log)
    {
      if shaderID != 0 {
        gl.Issue(DeleteProgram(shaderID));
        shaderID := 0;
      }
      uniformModel := 0;
      uniformProjection := 0;
    }

    /** The destructor clears the program, after which clearing again issues nothing. */
    method Destroy(gl: Gl)
      modifies this`shaderID, this`uniformModel, this`uniformProjection, gl
      ensures shaderID == 0 && uniformModel == 0 && uniformProjection == 0
      ensures gl.log == old(gl.log) + (if old(shaderID) != 0 then [DeleteProgram(old(shaderID))] else [])
    {
      ClearShader(gl);
    }

    /**
     * The getline/eof loop over an opened file's text: each line followed by a
     * newline, which adds up to the whole text plus one final newline (also
     * when the text is empty or already ends in a newline). An unopenable file
     * gives the empty string.
     */
    method ReadFile(file: Option<string>) returns (content: string)
      ensures file.None? ==> content == ""
      ensures file.Some? ==> content == file.value + "\n"
    {
      if file.None? {
        return "";
      }
      var text := file.value;
      content := "";
      var pos := 0;
      var eof := false;
      while !eof
        invariant pos <= |text|
        invariant !eof ==> content == text[..pos]
        invariant eof ==> content == text + "\n"
        decreases if eof then 0 else 1, |text| - pos
      {
        var e := LineEnd(text, pos);
        var line := text[pos..e];
        if e == |text| {
          assert text[..pos] + line == text;
          eof := true;
        } else {
          assert text[..pos] + line + "\n" == text[..e + 1];
        }
        content := content + line + "\n";
        pos := if e == |text| then e else e + 1;
      }
    }
  }
}
