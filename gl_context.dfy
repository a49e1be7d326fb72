/** The part of the graphics driver's state that the modelled code changes:
    the integer uniforms of a shader program, the texture units with the
    2D texture bound to each, and the texture objects with their images. */
module GL {

  const GL_RED: nat := 0x1903
  const GL_RGB: nat := 0x1907
  const GL_RGBA: nat := 0x1908

  /** The pixel formats the engine uploads. Any other value, 0 included,
      is rejected by the driver: the call raises an error and the texture
      keeps no image. */
  predicate AcceptedFormat(format: nat) {
    format == GL_RED || format == GL_RGB || format == GL_RGBA
  }

  /** A linked shader program, seen through its integer uniforms. */
  class ShaderProgram {
    var uniforms: map<string, int>

    constructor ()
      ensures uniforms == map[]
    {
      uniforms := map[];
    }

    /** Sets one integer uniform and no other. */
    method SetUniform1i(name: string, value: int)
      modifies this
      ensures uniforms == old(uniforms)[name := value]
    {
      uniforms := uniforms[name := value];
    }
  }

  /** The contents of a texture object. `Unspecified` is a texture name
      that was generated but never given an image. */
  datatype TexImage =
    | Unspecified
    | Image2D(internalFormat: nat, width: int, height: int, format: nat,
              pixels: seq<bv8>, mipmapped: bool)

  /** The driver context: the active texture unit, the 2D texture bound to
      each unit, the texture objects and the next names that `glGenTextures`,
      `glGenBuffers` and `glGenVertexArrays` hand out. Name 0 is never generated. */
  class Context {
    var activeUnit: nat
    var bound: map<nat, nat>
    var textures: map<nat, TexImage>
    var nextName: nat
    var nextBuffer: nat
    var nextVertexArray: nat

    /** No generator hands out 0, and every texture object has a name
        below `nextName`. */
    ghost predicate Valid()
      reads this
    {
      0 < nextName && 0 < nextBuffer && 0 < nextVertexArray &&
      (forall n :: n in textures ==> 0 < n < nextName)
    }

    constructor ()
      ensures Valid()
      ensures activeUnit == 0 && bound == map[] && textures == map[] && nextName == 1
      ensures nextBuffer == 1 && nextVertexArray == 1
    {
      activeUnit, bound, textures, nextName := 0, map[], map[], 1;
      nextBuffer, nextVertexArray := 1, 1;
    }

    /** glGenBuffers(1, &name): a fresh buffer name. */
    method GenBuffer() returns (name: nat)
      requires Valid()
      modifies this
      ensures Valid() && name != 0
      ensures name == old(nextBuffer) && nextBuffer == old(nextBuffer) + 1
      ensures nextVertexArray == old(nextVertexArray) && nextName == old(nextName)
      ensures activeUnit == old(activeUnit) && bound == old(bound) && textures == old(textures)
    {
      name := nextBuffer;
      nextBuffer := nextBuffer + 1;
    }

    /** glGenVertexArrays(1, &name): a fresh vertex array name. */
    method GenVertexArray() returns (name: nat)
      requires Valid()
      modifies this
      ensures Valid() && name != 0
      ensures name == old(nextVertexArray) && nextVertexArray == old(nextVertexArray) + 1
      ensures nextBuffer == old(nextBuffer) && nextName == old(nextName)
      ensures activeUnit == old(activeUnit) && bound == old(bound) && textures == old(textures)
    {
      name := nextVertexArray;
      nextVertexArray := nextVertexArray + 1;
    }

    /** glGenTextures(1, &name): a fresh, non-zero name. */
    method GenTexture() returns (name: nat)
      requires Valid()
      modifies this
      ensures Valid()
      ensures name == old(nextName) && name != 0 && name !in old(textures)
      ensures textures == old(textures)[name := Unspecified]
      ensures nextName == old(nextName) + 1
      ensures activeUnit == old(activeUnit) && bound == old(bound)
      ensures nextBuffer == old(nextBuffer) && nextVertexArray == old(nextVertexArray)
    {
      name := nextName;
      textures := textures[name := Unspecified];
      nextName := nextName + 1;
    }

    /** glActiveTexture(GL_TEXTURE0 + unit). */
    method ActiveTexture(unit: nat)
      modifies this
      ensures activeUnit == unit
      ensures bound == old(bound) && textures == old(textures) && nextName == old(nextName)
      ensures nextBuffer == old(nextBuffer) && nextVertexArray == old(nextVertexArray)
    {
      activeUnit := unit;
    }

    /** glBindTexture(GL_TEXTURE_2D, name) on the active unit. */
    method BindTexture(name: nat)
      modifies this
      ensures bound == old(bound)[activeUnit := name]
      ensures activeUnit == old(activeUnit) && textures == old(textures) && nextName == old(nextName)
      ensures nextBuffer == old(nextBuffer) && nextVertexArray == old(nextVertexArray)
    {
      bound := bound[activeUnit := name];
    }

    /** glTexImage2D followed by glGenerateMipmap on the texture bound to
        the active unit; nothing happens when no texture object is bound or
        when either format is one the driver rejects. */
    method TexImage2D(internalFormat: nat, width: int, height: int, format: nat, pixels: seq<bv8>)
      requires Valid()
      modifies this
      ensures Valid()
      ensures activeUnit in bound && bound[activeUnit] in old(textures) &&
              AcceptedFormat(internalFormat) && AcceptedFormat(format) ==>
                textures == old(textures)[bound[activeUnit] :=
                  Image2D(internalFormat, width, height, format, pixels, true)]
      ensures !(activeUnit in bound && bound[activeUnit] in old(textures) &&
                AcceptedFormat(internalFormat) && AcceptedFormat(format)) ==>
                textures == old(textures)
      ensures activeUnit == old(activeUnit) && bound == old(bound) && nextName == old(nextName)
      ensures nextBuffer == old(nextBuffer) && nextVertexArray == old(nextVertexArray)
    {
      if activeUnit in bound && bound[activeUnit] in textures &&
         AcceptedFormat(internalFormat) && AcceptedFormat(format) {
        textures := textures[bound[activeUnit] := Image2D(internalFormat, width, height, format, pixels, true)];
      }
    }
  }
}
