/**
 * `Texture` (scripts/gl/texture.ts): a GL texture handle together with the
 * image and size it was made from, so that it can be released and rebuilt
 * when the context is lost.
 *
 * The state is the fields `gl` (only whether it is set), `_mirrored`,
 * `_width`, `_height`, `_image` and `_texture`, plus the log of the GL calls
 * the texture issues. What the WebGL context answers (whether there is a
 * context, `MAX_TEXTURE_SIZE`, the result of `createTexture`, `getError`)
 * is the environment `Env` of each call.
 */
module Textures {
  import opened Wrappers
  import opened Text
  import opened Batching

  /** An `HTMLImageElement`, by its size. */
  datatype Image = Image(width: int, height: int)

  /** What the context of the owning `WebGL` answers during one call. */
  datatype Env = Env(
    context: Option<Handle>,
    maxTextureSize: int,
    created: Option<Handle>,
    /** What `getError` returns; 0 is `NO_ERROR`. */
    errorCode: nat)

  datatype Parameter = MinFilter | MagFilter | WrapS | WrapT
  datatype ParameterValue = Nearest | MirroredRepeat | ClampToEdge

  datatype TextureCall =
    | DeleteTexture(deleted: Handle)
    | ClearErrors
    | CreateTexture
    | BindTexture2D(bound: Option<Handle>)
    /** `texImage2D` from the image, or of an empty `width` x `height` texture. */
    | TexImage2D(fromImage: bool, width: int, height: int)
    | TexParameter(parameter: Parameter, value: ParameterValue)

  const MaxTextureSize: int := 4096

  function Min(a: int, b: int): int {
    if a <= b then a else b
  }

  /** The largest accepted side: `Math.min(4096, MAX_TEXTURE_SIZE)`. */
  function MaxSize(env: Env): (m: int)
    ensures m <= MaxTextureSize && m <= env.maxTextureSize
    ensures m == MaxTextureSize || m == env.maxTextureSize
  {
    Min(MaxTextureSize, env.maxTextureSize)
  }

  /** The size `bindImage` records: the image's when there is one, else the arguments. */
  function ResolvedWidth(image: Option<Image>, textureWidth: int): int {
    if image.Some? then image.value.width else textureWidth
  }

  function ResolvedHeight(image: Option<Image>, textureHeight: int): int {
    if image.Some? then image.value.height else textureHeight
  }

  function InvalidSizeMessage(width: int, height: int): string {
    "Invalid image size: " + IntToString(width) + " x " + IntToString(height)
  }

  function TooLargeMessage(width: int, height: int, maxSize: int): string {
    "Image size too large: " + IntToString(width) + " x " + IntToString(height) + " / max: " + IntToString(maxSize)
  }

  /** The `TypeError` of reading `context` through a null `gl`. */
  const NullGlMessage: string := "Cannot read properties of null (reading 'context')"

  /**
   * Why a `bindImage` with a context fails, checked in source order, or
   * `None` when it gets a handle: the size, then the maximum, then
   * `createTexture`, then `getError`.
   */
  function BindFailure(width: int, height: int, env: Env): (r: Option<string>)
    ensures r.None? <==> 0 < width <= MaxSize(env) && 0 < height <= MaxSize(env) && env.created.Some? && env.errorCode == 0
  {
    if width <= 0 || height <= 0 then Some(InvalidSizeMessage(width, height))
    else if width > MaxSize(env) || height > MaxSize(env) then Some(TooLargeMessage(width, height, MaxSize(env)))
    else if env.created.None? then Some("Null texture: " + IntToString(env.errorCode))
    else if env.errorCode != 0 then Some("WebGL error: " + IntToString(env.errorCode))
    else None
  }

  /** The wrap mode of both axes. */
  function Wrap(mirrored: bool): ParameterValue {
    if mirrored then MirroredRepeat else ClampToEdge
  }

  /** Lines 116-132: bind, upload, nearest filtering, the wrap mode. */
  function Upload(handle: Handle, fromImage: bool, width: int, height: int, mirrored: bool): seq<TextureCall> {
    [BindTexture2D(Some(handle)), TexImage2D(fromImage, width, height),
     TexParameter(MinFilter, Nearest), TexParameter(MagFilter, Nearest),
     TexParameter(WrapS, Wrap(mirrored)), TexParameter(WrapT, Wrap(mirrored))]
  }

  /** The value the last `texParameteri` for `p` in `calls` set, if any. */
  function ParameterSet(calls: seq<TextureCall>, p: Parameter): Option<ParameterValue>
  {
    if calls == [] then None
    else
      var c := calls[|calls| - 1];
      if c.TexParameter? && c.parameter == p then Some(c.value)
      else ParameterSet(calls[..|calls| - 1], p)
  }

  /**
   * An upload leaves both filters NEAREST and both wrap modes
   * MIRRORED_REPEAT when the texture is mirrored, else CLAMP_TO_EDGE.
   */
  lemma UploadParameters(handle: Handle, fromImage: bool, width: int, height: int, mirrored: bool)
    ensures var u := Upload(handle, fromImage, width, height, mirrored);
      && ParameterSet(u, MinFilter) == Some(Nearest) && ParameterSet(u, MagFilter) == Some(Nearest)
      && (ParameterSet(u, WrapS) == Some(MirroredRepeat) <==> mirrored)
      && (ParameterSet(u, WrapT) == Some(MirroredRepeat) <==> mirrored)
      && ParameterSet(u, WrapS) == ParameterSet(u, WrapT) == Some(if mirrored then MirroredRepeat else ClampToEdge)
  {
    var u := Upload(handle, fromImage, width, height, mirrored);
    assert u[..5] == u[..6][..5];
    assert u[..4] == u[..5][..4];
    assert u[..3] == u[..4][..3];
    assert u[..2] == u[..3][..2];
    assert ParameterSet(u, MinFilter) == ParameterSet(u[..5], MinFilter) == ParameterSet(u[..4], MinFilter)
      == ParameterSet(u[..3], MinFilter) == Some(Nearest);
    assert ParameterSet(u, MagFilter) == ParameterSet(u[..5], MagFilter) == ParameterSet(u[..4], MagFilter) == Some(Nearest);
    assert ParameterSet(u, WrapS) == ParameterSet(u[..5], WrapS) == Some(Wrap(mirrored));
  }

  class Texture {
    /** `gl !== null`; `destroyInternal` clears it. */
    var attached: bool
    var mirrored: bool
    var width: int
    var height: int
    var image: Option<Image>
    var texture: Option<Handle>
    var calls: seq<TextureCall>

    constructor(attached: bool, mirrored: bool)
      ensures this.attached == attached && this.mirrored == mirrored
      ensures width == 0 && height == 0 && image.None? && texture.None? && calls == []
    {
      this.attached, this.mirrored := attached, mirrored;
      width, height, image, texture, calls := 0, 0, None, None, [];
    }

    /** `loaded`: a handle is held. */
    predicate Loaded()
      reads this`texture
    {
      texture.Some?
    }

    /**
     * `releaseInternal`: delete and drop the handle, keeping the image and
     * the size. It reads `gl.context`, which fails once `gl` is null.
     */
    method ReleaseInternal() returns (r: Outcome)
      modifies this`texture, this`calls
      ensures r == (if attached then Pass else Fail(NullGlMessage))
      ensures attached ==> !Loaded() && calls == old(calls) + (if old(texture).Some? then [DeleteTexture(old(texture).value)] else [])
      ensures !attached ==> texture == old(texture) && calls == old(calls)
    {
      if !attached {
        return Fail(NullGlMessage);
      }
      if texture.Some? {
        calls := calls + [DeleteTexture(texture.value)];
      }
      texture := None;
      r := Pass;
    }

    /**
     * `release()` of the `Resource` base class, as `bindImage` uses it (line 86).
     * That class is not part of this model; it is taken to call
     * `releaseInternal` exactly when the texture is loaded.
     */
    method Release() returns (r: Outcome)
      modifies this`texture, this`calls
      ensures r == (if !old(Loaded()) || attached then Pass else Fail(NullGlMessage))
      ensures r.Pass? ==> !Loaded() && calls == old(calls) + (if old(texture).Some? then [DeleteTexture(old(texture).value)] else [])
      ensures r.Fail? ==> texture == old(texture) && calls == old(calls)
    {
      r := Pass;
      if Loaded() {
        r := ReleaseInternal();
      }
    }

    /**
     * `bindImage` (lines 85-137): release, record the size and the image,
     * then, when there is a context, validate the size and build the texture.
     */
    method BindImage(image: Option<Image>, textureWidth: int, textureHeight: int, env: Env) returns (r: Outcome)
      modifies this`texture, this`calls, this`width, this`height, this`image
      ensures old(Loaded()) && !attached ==>
        (r == Fail(NullGlMessage) && texture == old(texture) && calls == old(calls)
         && width == old(width) && height == old(height) && this.image == old(this.image))
      ensures !old(Loaded()) || attached ==>
        && width == ResolvedWidth(image, textureWidth) && height == ResolvedHeight(image, textureHeight)
        && this.image == image
      ensures !attached && !old(Loaded()) ==> r == Fail(NullGlMessage) && texture.None? && calls == old(calls)
      ensures attached && env.context.None? ==> r == Pass && !Loaded() && calls == old(calls) + Released(old(texture))
      ensures attached && env.context.Some? ==>
        var failure := BindFailure(width, height, env);
        && (r.Pass? <==> failure.None?)
        && (r.Fail? ==> r.message == failure.value)
        && (failure.None? ==>
             (texture == env.created
              && calls == old(calls) + Released(old(texture)) + [ClearErrors, CreateTexture]
                 + Upload(env.created.value, image.Some?, width, height, mirrored) + [BindTexture2D(None)]))
        && (0 < width <= MaxSize(env) && 0 < height <= MaxSize(env) && env.created.Some? && env.errorCode != 0 ==>
             texture == env.created)
        && (width <= 0 || height <= 0 || width > MaxSize(env) || height > MaxSize(env) || env.created.None? ==>
             texture.None?)
    {
      r := Release();
      if r.Fail? {
        return;
      }
      width := ResolvedWidth(image, textureWidth);
      height := ResolvedHeight(image, textureHeight);
      this.image := image;
      if !attached {
        return Fail(NullGlMessage);
      }
      if env.context.None? {
        return Pass;
      }
      if width <= 0 || height <= 0 {
        return Fail(InvalidSizeMessage(width, height));
      }
      var maxSize := MaxSize(env);
      if width > maxSize || height > maxSize {
        return Fail(TooLargeMessage(width, height, maxSize));
      }
      calls := calls + [ClearErrors, CreateTexture];
      if env.created.None? {
        return Fail("Null texture: " + IntToString(env.errorCode));
      }
      texture := env.created;
      calls := calls + Upload(env.created.value, image.Some?, width, height, mirrored);
      if env.errorCode != 0 {
        return Fail("WebGL error: " + IntToString(env.errorCode));
      }
      calls := calls + [BindTexture2D(None)];
    }

    /** `loadInternal`: rebuild from the retained image; a texture without one stays as it is. */
    method LoadInternal(env: Env) returns (r: Outcome)
      modifies this`texture, this`calls, this`width, this`height, this`image
      ensures image == old(image)
      ensures old(image).None? ==>
        (r == Pass && texture == old(texture) && calls == old(calls) && width == old(width) && height == old(height))
      ensures old(image).Some? && attached ==> width == old(image).value.width && height == old(image).value.height
      ensures old(image).Some? && attached && env.context.Some? ==>
        (r.Pass? <==> BindFailure(old(image).value.width, old(image).value.height, env).None?)
        && (r.Pass? ==> texture == env.created)
    {
      r := Pass;
      if image.Some? {
        r := BindImage(image, width, height, env);
      }
    }

    /** `destroyInternal`: forget the image and `gl`. */
    method DestroyInternal()
      modifies this`image, this`attached
      ensures image.None? && !attached
    {
      image := None;
      attached := false;
    }

    /**
     * `new Texture(gl, image, mirrored, width, height)`: record `mirrored`
     * and bind. `attached` is whether `gl` is non-null.
     */
    static method Create(attached: bool, image: Option<Image>, mirrored: bool, width: int, height: int, env: Env)
      returns (t: Texture, r: Outcome)
      ensures t.attached == attached && t.mirrored == mirrored && t.image == image
      ensures t.width == ResolvedWidth(image, width) && t.height == ResolvedHeight(image, height)
      ensures attached && env.context.Some? ==>
        var failure := BindFailure(t.width, t.height, env);
        && (r.Pass? <==> failure.None?) && (r.Fail? ==> r.message == failure.value)
        && (r.Pass? ==> t.Loaded() && t.texture == env.created)
        && (t.width <= 0 || t.height <= 0 ==> !t.Loaded())
      ensures attached && env.context.None? ==> r.Pass? && !t.Loaded()
    {
      t := new Texture(attached, mirrored);
      r := t.BindImage(image, width, height, env);
    }
  }

  /** The release a `bindImage` starts with, in GL calls. */
  function Released(texture: Option<Handle>): seq<TextureCall> {
    if texture.Some? then [DeleteTexture(texture.value)] else []
  }

  /**
   * JavaScript truthiness of a number, for the `mirrored` argument that
   * receives a number at scripts/gl/webGL.ts:314.
   */
  predicate NumberIsTruthy(x: int) {
    x != 0
  }

  /**
   * The framebuffer texture as scripts/gl/webGL.ts:314 builds it:
   * `new Texture(this, null, powerOfTwoWidth, powerOfTwoHeight)` puts the
   * width into `mirrored` and the height into `width`, so the height is the
   * default 0 and, with a context, the constructor always throws.
   */
  method CreateFramebufferTextureAsWritten(powerOfTwoWidth: nat, powerOfTwoHeight: nat, env: Env)
    returns (t: Texture, r: Outcome)
    requires env.context.Some?
    ensures r == Fail(InvalidSizeMessage(powerOfTwoHeight, 0)) && !t.Loaded()
    ensures t.width == powerOfTwoHeight && t.height == 0 && t.mirrored == NumberIsTruthy(powerOfTwoWidth)
  {
    t, r := Texture.Create(true, None, NumberIsTruthy(powerOfTwoWidth), powerOfTwoHeight, 0, env);
  }

  /**
   * The evident intent, `new Texture(this, null, false, powerOfTwoWidth,
   * powerOfTwoHeight)`: an unmirrored texture of the power-of-two size, loaded
   * whenever the size fits and the context does not fail.
   */
  method CreateFramebufferTexture(powerOfTwoWidth: nat, powerOfTwoHeight: nat, env: Env)
    returns (t: Texture, r: Outcome)
    requires env.context.Some?
    ensures t.width == powerOfTwoWidth && t.height == powerOfTwoHeight && !t.mirrored && t.image.None?
    ensures r.Pass? <==>
      (0 < powerOfTwoWidth <= MaxSize(env) && 0 < powerOfTwoHeight <= MaxSize(env) && env.created.Some? && env.errorCode == 0)
    ensures r.Pass? ==> t.Loaded()
  {
    t, r := Texture.Create(true, None, false, powerOfTwoWidth, powerOfTwoHeight, env);
  }
}
