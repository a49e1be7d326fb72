/** Loading a 2D texture from an image file: the decoder is a parameter,
    the driver is the `GL.Context` object. */
module TextureLoading {
  import opened CoreTypes
  import opened GL

  /** What the image decoder yields for a file: its size, its channel
      count and its bytes. */
  datatype DecodedImage = DecodedImage(width: int, height: int, channels: int, pixels: seq<bv8>)

  /** The pixel format chosen for a decoded image's channel count: one
      channel is red only, three are RGB, four are RGBA, and any other
      count leaves the format at 0. */
  function FormatForChannels(channels: int): (format: nat)
    ensures format == GL_RED <==> channels == 1
    ensures format == GL_RGB <==> channels == 3
    ensures format == GL_RGBA <==> channels == 4
    ensures format == 0 <==> channels !in {1, 3, 4}
  {
    if channels == 1 then GL_RED
    else if channels == 3 then GL_RGB
    else if channels == 4 then GL_RGBA
    else 0
  }

  /** The channel count a pixel format stores, for the three formats the
      loader uses. */
  function ChannelsOfFormat(format: nat): (channels: Option<int>)
    ensures channels.Some? <==> format in {GL_RED, GL_RGB, GL_RGBA}
  {
    if format == GL_RED then Some(1)
    else if format == GL_RGB then Some(3)
    else if format == GL_RGBA then Some(4)
    else None
  }

  /** The format choice loses no information on the channel counts it
      accepts, and every format it picks stores the channel count it was
      picked for. */
  lemma FormatRoundTrip(channels: int, format: nat)
    ensures channels in {1, 3, 4} ==> ChannelsOfFormat(FormatForChannels(channels)) == Some(channels)
    ensures format in {GL_RED, GL_RGB, GL_RGBA} ==>
              ChannelsOfFormat(format).Some? && FormatForChannels(ChannelsOfFormat(format).value) == format
  {
  }

  /** Decodes the file (flipped vertically), and on success generates a
      texture name, binds it to the active unit and uploads the image with
      the same format as internal and external format, with mipmaps. An
      image whose channel count has no format is rejected by the driver, so
      its texture name stays without an image. On a decoding failure
      nothing is generated and the result is 0. */
  method LoadTextureFromFile(ctx: Context, path: string, decode: (string, bool) -> Option<DecodedImage>)
    returns (id: nat)
    requires ctx.Valid()
    modifies ctx
    ensures ctx.Valid()
    ensures decode(path, true).None? ==>
              id == 0 && ctx.textures == old(ctx.textures) && ctx.bound == old(ctx.bound) &&
              ctx.nextName == old(ctx.nextName)
    ensures decode(path, true).Some? ==>
              var img := decode(path, true).value;
              var format := FormatForChannels(img.channels);
              id == old(ctx.nextName) && id != 0 && id !in old(ctx.textures) &&
              ctx.bound == old(ctx.bound)[old(ctx.activeUnit) := id] &&
              ctx.nextName == old(ctx.nextName) + 1 &&
              (img.channels in {1, 3, 4} ==>
                 ctx.textures == old(ctx.textures)[id := Image2D(format, img.width, img.height, format, img.pixels, true)]) &&
              (img.channels !in {1, 3, 4} ==> ctx.textures == old(ctx.textures)[id := Unspecified])
    ensures ctx.activeUnit == old(ctx.activeUnit)
    ensures ctx.nextBuffer == old(ctx.nextBuffer) && ctx.nextVertexArray == old(ctx.nextVertexArray)
  {
    id := 0;
    var data := decode(path, true);
    if data.Some? {
      var img := data.value;
      var format := FormatForChannels(img.channels);
      id := ctx.GenTexture();
      ctx.BindTexture(id);
      ctx.TexImage2D(format, img.width, img.height, format, img.pixels);
    }
  }
}
