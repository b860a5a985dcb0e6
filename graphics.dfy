/**
 * The collaborators the lighting code talks to but that are not part of this
 * model: the OpenGL driver (as a log of the calls issued to it, plus the answers
 * it gives), GPU meshes and textures, omni-directional shadow maps and spot
 * lights. Floating-point values are modelled as `real`; matrices are symbolic.
 */
module Graphics {

  datatype Option<T> = None | Some(value: T)

  /** A glm::vec3 of floats. */
  datatype Vec3 = Vec3(x: real, y: real, z: real)

  function Add(a: Vec3, b: Vec3): Vec3 { Vec3(a.x + b.x, a.y + b.y, a.z + b.z) }
  function Sub(a: Vec3, b: Vec3): Vec3 { Vec3(a.x - b.x, a.y - b.y, a.z - b.z) }
  function Dot(a: Vec3, b: Vec3): real { a.x * b.x + a.y * b.y + a.z * b.z }

  /** glm::perspective(radians(fovDegrees), width / height, near, far), kept symbolic. */
  datatype Projection = Perspective(fovDegrees: int, width: nat, height: nat, near: real, far: real)

  /**
   * A 4x4 float matrix. The only matrices the core computes itself are
   * light projection x lookAt(eye, target, up); every other matrix is handed
   * in by the caller and is only ever copied, so it is an uninterpreted token.
   */
  datatype Mat4 =
    | LightSpace(proj: Projection, eye: Vec3, target: Vec3, up: Vec3)
    | Given(id: nat)

  /** Unsigned 32-bit values (GLuint, GLenum, unsigned int). */
  type U32 = x: int | 0 <= x < 0x1_0000_0000

  /** Conversion of an unsigned (or wider) integer to 32 bits, as C does when truncating to GLuint. */
  function ToU32(x: nat): (r: U32)
    ensures x < 0x1_0000_0000 ==> r == x
  {
    x % 0x1_0000_0000
  }

  /** Above 2^32 the conversion wraps: what it drops is a whole multiple of 2^32. */
  lemma ToU32Wraps(x: nat)
    ensures (ToU32(x) - x) % 0x1_0000_0000 == 0
  {
  }

  /** Conversion of an unsigned integer to GLint: the low 32 bits, read as two's complement. */
  function ToGLint(x: nat): (r: int)
    ensures -0x8000_0000 <= r < 0x8000_0000
    ensures (r - x) % 0x1_0000_0000 == 0
    ensures x < 0x8000_0000 ==> r == x
  {
    var u := ToU32(x);
    if u < 0x8000_0000 then u else u - 0x1_0000_0000
  }

  /** A GLint location returned as GLuint: the value modulo 2^32, so -1 (no such uniform) becomes 0xFFFFFFFF. */
  function AsGLuint(loc: int): (r: U32)
    ensures 0 <= loc < 0x1_0000_0000 ==> r == loc
    ensures loc < 0 && -0x1_0000_0000 <= loc ==> r == loc + 0x1_0000_0000
  {
    loc % 0x1_0000_0000
  }

  /**
   * r is what a GLuint variable holds once assigned the GLint location loc:
   * loc itself when loc is non-negative, and a value that reads back as loc
   * when passed on as a GLint.
   */
  predicate HoldsAsGLuint(r: U32, loc: int)
  {
    && (0 <= loc < 0x1_0000_0000 ==> r == loc)
    && (-0x8000_0000 <= loc < 0x8000_0000 ==> ToGLint(r) == loc)
  }

  /**
   * Nothing is lost on the way out: a GLint location handed out as GLuint and
   * passed back to a glUniform call as GLint is the location it was.
   */
  lemma AsGLuintRoundTrip(loc: int)
    requires -0x8000_0000 <= loc < 0x8000_0000
    ensures ToGLint(AsGLuint(loc)) == loc
  {
  }

  /** C's float-to-int conversion: truncation toward zero. */
  function TruncToInt(f: real): (r: int)
    ensures r as real <= f < r as real + 1.0 || r as real - 1.0 < f <= r as real
    ensures 0.0 <= f ==> 0 <= r && r as real <= f
    ensures f <= 0.0 ==> r <= 0 && f <= r as real
  {
    if f >= 0.0 then f.Floor else -((-f).Floor)
  }

  /** The value of GL_TEXTURE0: texture units are enumerated from here. */
  const GL_TEXTURE0: nat := 0x84C0

  /** A GPU mesh: Mesh::CreateMesh uploads an interleaved vertex buffer and an index buffer. */
  class Mesh {
    const vertices: seq<real>
    const indices: seq<nat>

    constructor (vertices: seq<real>, indices: seq<nat>)
      ensures this.vertices == vertices && this.indices == indices
    {
      this.vertices := vertices;
      this.indices := indices;
    }
  }

  /** A texture that remembers the image file it was created for. */
  class Texture {
    const fileLocation: string

    constructor (fileLocation: string)
      ensures this.fileLocation == fileLocation
    {
      this.fileLocation := fileLocation;
    }

    /** Texture::LoadTexture: succeeds exactly when the image decoder reads the file. */
    method LoadTexture(gl: Gl) returns (ok: bool)
      ensures ok == gl.ImageLoads(fileLocation)
    {
      ok := gl.ImageLoads(fileLocation);
    }

    /** Texture::LoadTextureA, the variant for images with an alpha channel: the same success condition. */
    method LoadTextureA(gl: Gl) returns (ok: bool)
      ensures ok == gl.ImageLoads(fileLocation)
    {
      ok := gl.ImageLoads(fileLocation);
    }
  }

  /** A depth cubemap render target of a fixed size (OmniShadowMap). */
  class OmniShadowMap {
    const width: nat
    const height: nat

    constructor (width: nat, height: nat)
      ensures this.width == width && this.height == height
    {
      this.width := width;
      this.height := height;
    }

    /** OmniShadowMap::Read: binds the cubemap for sampling at the given texture enum. */
    method Read(gl: Gl, textureUnit: U32)
      modifies gl
      ensures gl.log == old(gl.log) + [ShadowMapRead(this, textureUnit)]
    {
      gl.Issue(ShadowMapRead(this, textureUnit));
    }
  }

  /**
   * The locations a spot light's UseLight receives, in the order the shader
   * passes them.
   */
  datatype SpotLightLocs = SpotLightLocs(
    ambientIntensity: int, color: int, diffuseIntensity: int, position: int,
    direction: int, constant: int, linear: int, exponent: int, edge: int)

  /**
   * A spot light, seen only through what the shader reads from it: its far
   * plane and its shadow map. Its own UseLight is recorded as one call.
   */
  datatype SpotLight = SpotLight(farPlane: real, shadowMap: OmniShadowMap)

  /** One call issued to the graphics driver. */
  datatype Call =
    | Uniform1i(loc: int, i: int)
    | Uniform1f(loc: int, f: real)
    | Uniform3f(loc: int, v: Vec3)
    | UniformMatrix4fv(loc: int, m: Mat4)
    | UseProgram(program: U32)
    | DeleteProgram(program: U32)
    | ShadowMapRead(shadowMap: OmniShadowMap?, textureUnit: U32)
    | SpotLightUse(spot: SpotLight, locs: SpotLightLocs)
    | BindTexture(texture: Texture)
    | DrawMesh(mesh: Mesh)
    | DeleteMesh(mesh: Mesh)
    | DeleteTexture(texture: Texture)

  /**
   * The graphics driver: the log of calls issued so far, and the answers the
   * driver gives: which programs link, the location of each active uniform
   * per program and name, and which image files decode.
   */
  class Gl {
    var log: seq<Call>
    const linkedPrograms: set<U32>
    const activeUniforms: map<(U32, string), int>
    const loadableImages: set<string>

    constructor (linkedPrograms: set<U32>, activeUniforms: map<(U32, string), int>,
                 loadableImages: set<string>)
      ensures log == []
      ensures this.linkedPrograms == linkedPrograms && this.activeUniforms == activeUniforms
      ensures this.loadableImages == loadableImages
    {
      log := [];
      this.linkedPrograms := linkedPrograms;
      this.activeUniforms := activeUniforms;
      this.loadableImages := loadableImages;
    }

    /** GL_LINK_STATUS of a program. */
    predicate LinkStatus(program: U32) { program in linkedPrograms }

    /** glGetUniformLocation: -1 for a name that is not an active uniform of the program. */
    function UniformLocation(program: U32, name: string): (loc: int)
      ensures (program, name) !in activeUniforms ==> loc == -1
    {
      if (program, name) in activeUniforms then activeUniforms[(program, name)] else -1
    }

    /** Whether the image decoder reads the file. */
    predicate ImageLoads(fileLocation: string) { fileLocation in loadableImages }

    method Issue(c: Call)
      modifies this
      ensures log == old(log) + [c]
    {
      log := log + [c];
    }
  }
}
