/**
 * The light classes: the base Light (colour, intensities, direction) and the
 * PointLight with attenuation, far plane, projection and omni-directional
 * shadow map. Every field is set by a constructor and never changed after,
 * so the fields are `const`; UseLight only issues uniform writes.
 */
module Lights {
  import opened Graphics

  /** The uniform writes of Light::UseLight, in the order it issues them. */
  function LightUploads(light: Light, ambientIntensityLoc: int, colorLoc: int,
                        diffuseIntensityLoc: int, directionLoc: int): seq<Call>
  {
    [Uniform3f(colorLoc, light.color),
     Uniform1f(ambientIntensityLoc, light.ambientIntensity),
     Uniform3f(directionLoc, light.direction),
     Uniform1f(diffuseIntensityLoc, light.diffuseIntensity)]
  }


  class Light {
    const color: Vec3
    const ambientIntensity: real
    const direction: Vec3
    const diffuseIntensity: real

    /** Full white at full ambient strength, pointing straight down, no diffuse term. */
    constructor ()
      ensures color == Vec3(1.0, 1.0, 1.0) && ambientIntensity == 1.0
      ensures direction == Vec3(0.0, -1.0, 0.0) && diffuseIntensity == 0.0
    {
      color := Vec3(1.0, 1.0, 1.0);
      ambientIntensity := 1.0;
      direction := Vec3(0.0, -1.0, 0.0);
      diffuseIntensity := 0.0;
    }

    /** Stores every argument as given: no clamping, no normalisation. */
    constructor Init(red: real, green: real, blue: real, aIntensity: real,
                     xDir: real, yDir: real, zDir: real, dIntensity: real)
      ensures color == Vec3(red, green, blue) && ambientIntensity == aIntensity
      ensures direction == Vec3(xDir, yDir, zDir) && diffuseIntensity == dIntensity
    {
      color := Vec3(red, green, blue);
      ambientIntensity := aIntensity;
      direction := Vec3(xDir, yDir, zDir);
      diffuseIntensity := dIntensity;
    }

    method UseLight(gl: Gl, ambientIntensityLocation: int, ambientColorLocation: int,
                    diffuseIntensityLocation: int, directionLocation: int)
      modifies gl
      ensures gl.log == old(gl.log) + LightUploads(this, ambientIntensityLocation,
        ambientColorLocation, diffuseIntensityLocation, directionLocation)
    {
      gl.Issue(Uniform3f(ambientColorLocation, color));
      gl.Issue(Uniform1f(ambientIntensityLocation, ambientIntensity));
      gl.Issue(Uniform3f(directionLocation, direction));
      gl.Issue(Uniform1f(diffuseIntensityLocation, diffuseIntensity));
    }
  }

  /** An integer vector, for the fixed axis and up vectors of the cube faces. */
  datatype IVec3 = IVec3(x: int, y: int, z: int)

  function ToVec3(v: IVec3): Vec3 { Vec3(v.x as real, v.y as real, v.z as real) }

  function IDot(a: IVec3, b: IVec3): int { a.x * b.x + a.y * b.y + a.z * b.z }

  /** One cube face: the axis the camera looks along and its up vector. */
  datatype CubeFace = CubeFace(axis: IVec3, up: IVec3)

  /** The six faces in the order the cubemap layers are laid out: +X, -X, +Y, -Y, +Z, -Z. */
  const CubeFaces: seq<CubeFace> := [
    CubeFace(IVec3(1, 0, 0), IVec3(0, -1, 0)),
    CubeFace(IVec3(-1, 0, 0), IVec3(0, -1, 0)),
    CubeFace(IVec3(0, 1, 0), IVec3(0, 0, 1)),
    CubeFace(IVec3(0, -1, 0), IVec3(0, 0, -1)),
    CubeFace(IVec3(0, 0, 1), IVec3(0, -1, 0)),
    CubeFace(IVec3(0, 0, -1), IVec3(0, -1, 0))
  ]

  /** The unit vector along coordinate axis `k` (0, 1, 2 for x, y, z), with the given sign. */
  function UnitAxis(k: nat, positive: bool): IVec3
    requires k < 3
  {
    var s := if positive then 1 else -1;
    if k == 0 then IVec3(s, 0, 0) else if k == 1 then IVec3(0, s, 0) else IVec3(0, 0, s)
  }

  /** Face `i` looks down coordinate axis i / 2, positively for even `i`. */
  function FaceAxis(i: nat): IVec3
    requires i < 6
  {
    UnitAxis(i / 2, i % 2 == 0)
  }

  /** Face 2k looks down the positive k-th axis and face 2k+1 down the negative one. */
  lemma CubeFaceAxis(i: nat)
    requires i < 6
    ensures |CubeFaces| == 6
    ensures CubeFaces[i].axis == FaceAxis(i)
  {
    if i == 0 {} else if i == 1 {} else if i == 2 {} else if i == 3 {} else if i == 4 {} else {}
  }

  /** The up vector is (0,0,1) for +Y, (0,0,-1) for -Y and (0,-1,0) for the X and Z faces. */
  lemma CubeFaceUp(i: nat)
    requires i < 6
    ensures CubeFaces[i].up == (if i == 2 then IVec3(0, 0, 1) else if i == 3 then IVec3(0, 0, -1) else IVec3(0, -1, 0))
  {
    if i == 0 {} else if i == 1 {} else if i == 2 {} else if i == 3 {} else if i == 4 {} else {}
  }

  /**
   * Every up vector is perpendicular to its face axis, so no face hands
   * lookAt a degenerate (parallel) up vector.
   */
  lemma CubeFaceUpPerpendicular(i: nat)
    requires i < 6
    ensures IDot(CubeFaces[i].axis, CubeFaces[i].up) == 0
  {
    if i == 0 {} else if i == 1 {} else if i == 2 {} else if i == 3 {} else if i == 4 {} else {}
  }

  /** Every up vector has unit length. */
  lemma CubeFaceUpUnit(i: nat)
    requires i < 6
    ensures IDot(CubeFaces[i].up, CubeFaces[i].up) == 1
  {
    if i == 0 {} else if i == 1 {} else if i == 2 {} else if i == 3 {} else if i == 4 {} else {}
  }

  /** Distinct faces look along distinct axes: the six views cover the cube once. */
  lemma CubeFacesDistinct(i: nat, j: nat)
    requires i < 6 && j < 6 && i != j
    ensures CubeFaces[i].axis != CubeFaces[j].axis
  {
    CubeFaceAxis(i);
    CubeFaceAxis(j);
  }

  /** The seven uniform writes of PointLight::UseLight, in the order it issues them. */
  function PointLightUploads(light: PointLight, ambientIntensityLoc: int, colorLoc: int,
                             diffuseIntensityLoc: int, positionLoc: int, constantLoc: int,
                             linearLoc: int, exponentLoc: int): seq<Call>
  {
    [Uniform3f(colorLoc, light.color),
     Uniform1f(ambientIntensityLoc, light.ambientIntensity),
     Uniform1f(diffuseIntensityLoc, light.diffuseIntensity),
     Uniform3f(positionLoc, light.position),
     Uniform1f(constantLoc, light.constant),
     Uniform1f(linearLoc, light.linear),
     Uniform1f(exponentLoc, light.exponent)]
  }

  class PointLight {
    const color: Vec3
    const ambientIntensity: real
    const diffuseIntensity: real
    const position: Vec3
    const constant: real
    const linear: real
    const exponent: real
    const farPlane: real
    const lightProj: Projection
    const shadowMap: OmniShadowMap?

    /**
     * The base Light defaults (white, ambient 1, diffuse 0), at the origin,
     * with no attenuation: constant 1 keeps the shading's division defined.
     * The far plane and projection are left indeterminate and there is no
     * shadow map.
     */
    constructor ()
      ensures color == Vec3(1.0, 1.0, 1.0) && ambientIntensity == 1.0 && diffuseIntensity == 0.0
      ensures position == Vec3(0.0, 0.0, 0.0)
      ensures constant == 1.0 && linear == 0.0 && exponent == 0.0
      ensures constant != 0.0
      ensures shadowMap == null
    {
      color := Vec3(1.0, 1.0, 1.0);
      ambientIntensity := 1.0;
      diffuseIntensity := 0.0;
      position := Vec3(0.0, 0.0, 0.0);
      constant := 1.0;
      linear := 0.0;
      exponent := 0.0;
      shadowMap := null;
    }

    /**
     * Stores colour, intensities, position, attenuation and far plane as
     * given, builds the 90 degree projection with the shadow map's aspect
     * ratio, and allocates a fresh omni shadow map of the given size.
     */
    constructor Init(shadowWidth: U32, shadowHeight: U32, near: real, far: real,
                     red: real, green: real, blue: real,
                     aIntensity: real, dIntensity: real,
                     xPos: real, yPos: real, zPos: real,
                     con: real, lin: real, exp: real)
      ensures color == Vec3(red, green, blue)
      ensures ambientIntensity == aIntensity && diffuseIntensity == dIntensity
      ensures position == Vec3(xPos, yPos, zPos)
      ensures constant == con && linear == lin && exponent == exp
      ensures farPlane == far
      ensures lightProj == Perspective(90, shadowWidth, shadowHeight, near, far)
      ensures shadowMap != null && fresh(shadowMap)
      ensures shadowMap.width == shadowWidth && shadowMap.height == shadowHeight
    {
      color := Vec3(red, green, blue);
      ambientIntensity := aIntensity;
      diffuseIntensity := dIntensity;
      position := Vec3(xPos, yPos, zPos);
      constant := con;
      linear := lin;
      exponent := exp;
      farPlane := far;
      lightProj := Perspective(90, shadowWidth, shadowHeight, near, far);
      shadowMap := new OmniShadowMap(shadowWidth, shadowHeight);
    }

    method UseLight(gl: Gl, ambientIntensityLocation: int, ambientColorLocation: int,
                    diffuseIntensityLocation: int, positionLocation: int,
                    constantLocation: int, linearLocation: int, exponentLocation: int)
      modifies gl
      ensures gl.log == old(gl.log) + PointLightUploads(this, ambientIntensityLocation,
        ambientColorLocation, diffuseIntensityLocation, positionLocation,
        constantLocation, linearLocation, exponentLocation)
    {
      gl.Issue(Uniform3f(ambientColorLocation, color));
      gl.Issue(Uniform1f(ambientIntensityLocation, ambientIntensity));
      gl.Issue(Uniform1f(diffuseIntensityLocation, diffuseIntensity));
      gl.Issue(Uniform3f(positionLocation, position));
      gl.Issue(Uniform1f(constantLocation, constant));
      gl.Issue(Uniform1f(linearLocation, linear));
      gl.Issue(Uniform1f(exponentLocation, exponent));
    }

    /** The light-space matrix of one cube face: projection x lookAt(eye, eye + axis, up). */
    function FaceTransform(face: CubeFace): Mat4
    {
      LightSpace(lightProj, position, Add(position, ToVec3(face.axis)), ToVec3(face.up))
    }

    /** Six transforms, one per cube face, in the order +X, -X, +Y, -Y, +Z, -Z. */
    method CalculateLightTransform() returns (lightMatrices: seq<Mat4>)
      ensures |lightMatrices| == 6
      ensures forall i :: 0 <= i < 6 ==> lightMatrices[i] == FaceTransform(CubeFaces[i])
    {
      lightMatrices := [];
      lightMatrices := lightMatrices + [LightSpace(lightProj, position, Add(position, Vec3(1.0, 0.0, 0.0)), Vec3(0.0, -1.0, 0.0))];
      lightMatrices := lightMatrices + [LightSpace(lightProj, position, Add(position, Vec3(-1.0, 0.0, 0.0)), Vec3(0.0, -1.0, 0.0))];
      lightMatrices := lightMatrices + [LightSpace(lightProj, position, Add(position, Vec3(0.0, 1.0, 0.0)), Vec3(0.0, 0.0, 1.0))];
      lightMatrices := lightMatrices + [LightSpace(lightProj, position, Add(position, Vec3(0.0, -1.0, 0.0)), Vec3(0.0, 0.0, -1.0))];
      lightMatrices := lightMatrices + [LightSpace(lightProj, position, Add(position, Vec3(0.0, 0.0, 1.0)), Vec3(0.0, -1.0, 0.0))];
      lightMatrices := lightMatrices + [LightSpace(lightProj, position, Add(position, Vec3(0.0, 0.0, -1.0)), Vec3(0.0, -1.0, 0.0))];
    }

    /**
     * Face `i`'s transform looks from the light's position one unit along the
     * face axis, through the light's own projection.
     */
    lemma FaceTransformView(i: nat)
      requires i < 6
      ensures FaceTransform(CubeFaces[i]).proj == lightProj
      ensures FaceTransform(CubeFaces[i]).eye == position
      ensures Sub(FaceTransform(CubeFaces[i]).target, position) == ToVec3(FaceAxis(i))
      ensures FaceTransform(CubeFaces[i]).up == ToVec3(CubeFaces[i].up)
    {
      CubeFaceAxis(i);
    }

    function GetFarPlane(): (r: real)
      ensures r == farPlane
    {
      farPlane
    }

    function GetPosition(): (r: Vec3)
      ensures r == position
    {
      position
    }

    function GetShadowMap(): (r: OmniShadowMap?)
      ensures r == shadowMap
    {
      shadowMap
    }
  }
}
