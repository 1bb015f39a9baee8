/** The texture wrappers of `src/sdf_ui/core.py`, their image operators, and the
    primitive and gradient factories. Every operator allocates one fresh
    texture, binds its inputs to image units, sets its kernel's uniforms and
    runs the kernel once; the model records that run in the context's
    dispatch log and follows the live-texture counter through every
    allocation and release. What the kernels compute on the pixels is not
    modelled. */
module Core {
  import opened Common
  import opened RenderContext
  import Shaders

  /** `ColorSpaceMode`: the colour space the bytes of a colour texture are in. */
  datatype ColorSpaceMode = Lab | Rgb

  /** An argument handed to an operator that expects a texture wrapper. */
  datatype Value = ColorVal(c: ColorTexture) | FieldVal(f: SDFTexture) | OtherVal

  // ---- uniforms ----

  function V2(p: Point): Uniform {
    Vec([p.x, p.y])
  }

  /** `destTex = 0, origTex = 1`, set by the single-input colour operators. */
  const DestOrig: map<string, Uniform> := map["destTex" := Unit(0), "origTex" := Unit(1)]

  /** `destTex = 0, sdf0 = 1, sdf1 = 2`, set by union, subtract and intersection. */
  const SdfPair: map<string, Uniform> := map["destTex" := Unit(0), "sdf0" := Unit(1), "sdf1" := Unit(2)]

  function FillUniforms(fg: seq<real>, bg: seq<real>, inflate: real, inner: real, outer: real): map<string, Uniform> {
    map["destTex" := Unit(0), "sdf" := Unit(1), "inflate" := Num(inflate), "background" := Vec(bg),
        "color" := Vec(fg), "first" := Num(inner), "second" := Num(outer)]
  }

  /** The default colours of `generate_mask` and the fully transparent colour
      `shadow` passes as `color1`. */
  const Opaque: seq<real> := [0.0, 0.0, 0.0, 1.0]
  const White: seq<real> := [1.0, 1.0, 1.0, 1.0]
  const Clear: seq<real> := [0.0, 0.0, 0.0, 0.0]

  // ---- what a call leaves behind ----

  /** `r` is a new colour wrapper of `ctx` around a new, live byte texture. */
  twostate predicate NewColor(new r: ColorTexture, ctx: Context, mode: ColorSpaceMode)
    reads r.tex
  {
    fresh(r) && fresh(r.tex) && r.ctx == ctx && r.mode == mode && r.tex.format == Format.Rgba8 && !r.tex.released
  }

  /** `r` is a new field wrapper of `ctx` around a new, live float texture. */
  twostate predicate NewField(new r: SDFTexture, ctx: Context)
    reads r.tex
  {
    fresh(r) && fresh(r.tex) && r.ctx == ctx && r.tex.format == Format.R32f && !r.tex.released
  }

  /** Nothing ran, nothing was compiled, nothing was allocated. */
  twostate predicate Untouched(ctx: Context)
    reads ctx, ctx.registry
  {
    ctx.dispatches == old(ctx.dispatches) && ctx.compiled == old(ctx.compiled) && ctx.compilations == old(ctx.compilations)
    && ctx.registry.value == old(ctx.registry.value) && ctx.registry.max == old(ctx.registry.max)
  }

  /** A factory's outcome: `kernel` is cached, and one run of it wrote the
      new field at unit 0. */
  twostate predicate Drawn(ctx: Context, kernel: string, uniforms: map<string, Uniform>, new r: SDFTexture)
    reads ctx, ctx.registry, r.tex
  {
    NewField(r, ctx) && ctx.Cached({kernel}) && ctx.Ran([Dispatch(kernel, [Binding0(r.tex)], uniforms)]) && ctx.registry.Bumped(1, 1)
  }

  /** The same for a factory of colour textures. */
  twostate predicate Painted(ctx: Context, kernel: string, uniforms: map<string, Uniform>, mode: ColorSpaceMode, new r: ColorTexture)
    reads ctx, ctx.registry, r.tex
  {
    NewColor(r, ctx, mode) && ctx.Cached({kernel}) && ctx.Ran([Dispatch(kernel, [Binding0(r.tex)], uniforms)]) && ctx.registry.Bumped(1, 1)
  }

  // ---- the separable blur ----

  /** One vertical pass from `src` into `t0` and one horizontal pass from
      `t0` into `t1`. */
  function BlurPair(vert: string, hor: string, src: Texture, t0: Texture, t1: Texture): seq<Dispatch> {
    [Dispatch(vert, [Binding0(t0), ReadOnly(1, src)], DestOrig), Dispatch(hor, [Binding0(t1), ReadOnly(1, t0)], DestOrig)]
  }

  /** The runs of `k` iterations of the blur loop: each pair reads `t1`. */
  function Repeats(vert: string, hor: string, t0: Texture, t1: Texture, k: nat): seq<Dispatch> {
    if k == 0 then [] else Repeats(vert, hor, t0, t1, k - 1) + BlurPair(vert, hor, t1, t0, t1)
  }

  /** The runs of `blur_9`/`blur_13` with `k` loop iterations: the first
      pair reads the source, every later pair reads the previous result. */
  function BlurLog(vert: string, hor: string, src: Texture, t0: Texture, t1: Texture, k: nat): seq<Dispatch> {
    BlurPair(vert, hor, src, t0, t1) + Repeats(vert, hor, t0, t1, k)
  }

  /** The blur with `n` iterations runs its two kernels `n + 1` times each,
      alternating; the vertical passes write `t0` and the horizontal ones
      `t1`; the first pass reads the source and every other pass reads what
      the pass before it wrote. */
  lemma {:induction false} BlurLogShape(vert: string, hor: string, src: Texture, t0: Texture, t1: Texture, k: nat)
    ensures var log := BlurLog(vert, hor, src, t0, t1, k);
            && |log| == 2 * (k + 1)
            && (forall i :: 0 <= i < |log| ==>
                  && log[i].kernel == (if i % 2 == 0 then vert else hor)
                  && |log[i].images| == 2
                  && log[i].images[0] == Binding0(if i % 2 == 0 then t0 else t1)
                  && log[i].uniforms == DestOrig)
            && log[0].images[1] == ReadOnly(1, src)
            && (forall i :: 0 < i < |log| ==> log[i].images[1] == ReadOnly(1, log[i - 1].images[0].tex))
  {
    if k > 0 {
      BlurLogShape(vert, hor, src, t0, t1, k - 1);
      var prev := BlurLog(vert, hor, src, t0, t1, k - 1);
      var log := BlurLog(vert, hor, src, t0, t1, k);
      assert log == prev + BlurPair(vert, hor, t1, t0, t1);
      assert forall i :: 0 <= i < |prev| ==> log[i] == prev[i];
      assert log[|prev|] == Dispatch(vert, [Binding0(t0), ReadOnly(1, t1)], DestOrig);
      assert log[|prev| + 1] == Dispatch(hor, [Binding0(t1), ReadOnly(1, t0)], DestOrig);
      assert (|prev| - 1) % 2 == 1;
    }
  }

  /** The kernels `blur(n, base)` uses: the 13-tap pair for base 13 and the
      9-tap pair for every other base. */
  function BlurKernels(base: int): (k: (string, string))
    ensures base == 13 ==> k == (Shaders.BlurVer13, Shaders.BlurHor13)
    ensures base != 13 ==> k == (Shaders.BlurVer9, Shaders.BlurHor9)
  {
    if base == 13 then (Shaders.BlurVer13, Shaders.BlurHor13) else (Shaders.BlurVer9, Shaders.BlurHor9)
  }

  /** The conversion `blur` runs first: none for an RGB texture, otherwise
      one `to_rgb` from the texture into `dest`. */
  function ConvertLog(mode: ColorSpaceMode, tex: Texture, dest: Texture): seq<Dispatch> {
    if mode == Rgb then [] else [Dispatch(Shaders.ToRgb, [Binding0(dest), ReadOnly(1, tex)], DestOrig)]
  }

  /** A prefix of a prefix is a prefix: the compile record of a call made
      of calls only grows at the end. */
  lemma PrefixTrans(a: seq<string>, b: seq<string>, c: seq<string>)
    requires a <= b && b <= c
    ensures a <= c
  {
  }

  /** The kernel that conversion looks up. */
  function ConvertKernels(mode: ColorSpaceMode): set<string> {
    if mode == Rgb then {} else {Shaders.ToRgb}
  }

  lemma ConvertLogSize(mode: ColorSpaceMode, tex: Texture, dest: Texture)
    ensures |ConvertLog(mode, tex, dest)| == (if mode == Rgb then 0 else 1)
  {
  }

  lemma AppendAssoc<T>(a: seq<T>, b: seq<T>, c: seq<T>)
    ensures (a + b) + c == a + (b + c)
  {
  }

  /** Regrouping the log of a call made of two steps. */
  lemma Regroup<T>(d: seq<T>, a: seq<T>, b: seq<T>, c: seq<T>)
    ensures d + a + (b + c) == d + (a + b + c)
  {
  }

  /** Regrouping the log of a call made of three steps. */
  lemma LogSteps<T>(d: seq<T>, a: seq<T>, b: seq<T>, x: T, y: T)
    ensures d + a + (b + [x]) + [y] == d + (a + b + [x, y])
  {
  }

  // ---- colour textures ----

  /** `ColorTexture`: a byte texture, the context that made it, and its colour space. */
  class ColorTexture {
    const tex: Texture
    const ctx: Context
    const mode: ColorSpaceMode

    constructor (tex: Texture, ctx: Context, mode: ColorSpaceMode := Lab)
      ensures this.tex == tex && this.ctx == ctx && this.mode == mode
    {
      this.tex := tex;
      this.ctx := ctx;
      this.mode := mode;
    }

    /** `__del__`: the texture is released and the counter drops by one. */
    method Release()
      modifies tex, ctx.registry
      ensures tex.released
      ensures ctx.registry.value == old(ctx.registry.value) - 1 && ctx.registry.max == old(ctx.registry.max)
    {
      tex.Release();
      DecreaseTexRegistry(ctx.registry);
    }

    /** `_check_type`: TypeError unless the argument is a colour texture. */
    function CheckType(obj: Value): (r: Result<ColorTexture>)
      ensures r.Success? <==> obj.ColorVal?
      ensures r.Success? ==> r.value == obj.c
      ensures r.Failure? ==> r.error == TypeError
    {
      if obj.ColorVal? then Success(obj.c) else Failure(TypeError)
    }

    /** `_mode_equal`: TypeError unless both textures are in the same
        colour space. No operator calls it. */
    function ModeEqual(obj: ColorTexture): (r: Result<()>)
      ensures r.Success? <==> mode == obj.mode
      ensures r.Failure? ==> r.error == TypeError
    {
      if mode != obj.mode then Failure(TypeError) else Success(())
    }

    /** The outcome of a single-input operator: `kernel` is cached, and one
        run of it read this texture at unit 1 and wrote the new one at unit 0. */
    twostate predicate Mapped(kernel: string, uniforms: map<string, Uniform>, m: ColorSpaceMode, new r: ColorTexture)
      reads ctx, ctx.registry, r.tex
    {
      NewColor(r, ctx, m) && ctx.Cached({kernel}) && ctx.Ran([Dispatch(kernel, [Binding0(r.tex), ReadOnly(1, tex)], uniforms)]) && ctx.registry.Bumped(1, 1)
    }

    /** The part of the blurs before their loop: both programs are looked
        up, both textures allocated, and one pair of passes is run. */
    method FirstPasses(vert: string, hor: string) returns (v: Program, h: Program, t0: Texture, t1: Texture)
      requires ctx.Valid() && vert in ctx.shaderLut && hor in ctx.shaderLut
      modifies ctx, ctx.registry
      ensures fresh(t0) && fresh(t1) && t0 != t1
      ensures t0.format == Format.Rgba8 && t1.format == Format.Rgba8 && !t0.released && !t1.released
      ensures ctx.Ran(BlurPair(vert, hor, tex, t0, t1)) && ctx.registry.Bumped(2, 2)
      ensures v == ctx.ProgramOf(vert) && h == ctx.ProgramOf(hor) && ctx.Cached({vert, hor})
    {
      v := ctx.Shader(vert);
      h := ctx.Shader(hor);
      t0 := ctx.Rgba8();
      t1 := ctx.Rgba8();
      ctx.Run(v, [Binding0(t0), ReadOnly(1, tex)], DestOrig);
      ctx.Run(h, [Binding0(t1), ReadOnly(1, t0)], DestOrig);
    }

    /** The `for _ in range(n)` loop of the blurs: each iteration runs the
        vertical pass from `t1` into `t0` and the horizontal one back. */
    method BlurPasses(vert: string, hor: string, v: Program, h: Program, t0: Texture, t1: Texture, n: int)
      requires ctx.Valid()
      requires v.name == vert && h.name == hor && vert in ctx.compiled && hor in ctx.compiled
      modifies ctx
      ensures ctx.Valid() && ctx.compiled == old(ctx.compiled) && ctx.compilations == old(ctx.compilations)
      ensures ctx.dispatches == old(ctx.dispatches) + Repeats(vert, hor, t0, t1, Max(n, 0))
    {
      var i := 0;
      while i < n
        invariant 0 <= i <= Max(n, 0)
        invariant ctx.Valid() && ctx.compiled == old(ctx.compiled) && ctx.compilations == old(ctx.compilations)
        invariant ctx.dispatches == old(ctx.dispatches) + Repeats(vert, hor, t0, t1, i)
      {
        ctx.Run(v, [Binding0(t0), ReadOnly(1, t1)], DestOrig);
        ctx.Run(h, [Binding0(t1), ReadOnly(1, t0)], DestOrig);
        i := i + 1;
      }
    }

    /** The shared body of `blur_9` and `blur_13`: two passes, `n` more
        pairs, then the intermediate texture is dropped. */
    method SeparableBlur(vert: string, hor: string, n: int) returns (r: ColorTexture, ghost tex0: Texture)
      requires ctx.Valid() && vert in ctx.shaderLut && hor in ctx.shaderLut
      modifies ctx, ctx.registry
      ensures NewColor(r, ctx, mode) && fresh(tex0) && tex0.released && tex0 != r.tex
      ensures ctx.Ran(BlurLog(vert, hor, tex, tex0, r.tex, Max(n, 0))) && ctx.Cached({vert, hor})
      ensures ctx.registry.Bumped(1, 2)
    {
      var v, h, t0, t1 := FirstPasses(vert, hor);
      BlurPasses(vert, hor, v, h, t0, t1, n);
      AppendAssoc(old(ctx.dispatches), BlurPair(vert, hor, tex, t0, t1), Repeats(vert, hor, t0, t1, Max(n, 0)));
      DecreaseTexRegistry(ctx.registry);
      t0.Release();
      tex0 := t0;
      r := new ColorTexture(t1, ctx, mode);
    }

    /** `blur_9(n)`: the 9-tap blur, `n + 1` pairs of passes (one for n <= 0). */
    method Blur9(n: int := 0) returns (r: ColorTexture, ghost tex0: Texture)
      requires ctx.Valid()
      modifies ctx, ctx.registry
      ensures NewColor(r, ctx, mode) && fresh(tex0) && tex0.released && tex0 != r.tex
      ensures ctx.Ran(BlurLog(Shaders.BlurVer9, Shaders.BlurHor9, tex, tex0, r.tex, Max(n, 0)))
      ensures ctx.Cached({Shaders.BlurVer9, Shaders.BlurHor9})
      ensures ctx.registry.Bumped(1, 2)
    {
      r, tex0 := SeparableBlur(Shaders.BlurVer9, Shaders.BlurHor9, n);
    }

    /** `blur_13(n)`: the same with the 13-tap kernels. */
    method Blur13(n: int := 0) returns (r: ColorTexture, ghost tex0: Texture)
      requires ctx.Valid()
      modifies ctx, ctx.registry
      ensures NewColor(r, ctx, mode) && fresh(tex0) && tex0.released && tex0 != r.tex
      ensures ctx.Ran(BlurLog(Shaders.BlurVer13, Shaders.BlurHor13, tex, tex0, r.tex, Max(n, 0)))
      ensures ctx.Cached({Shaders.BlurVer13, Shaders.BlurHor13})
      ensures ctx.registry.Bumped(1, 2)
    {
      r, tex0 := SeparableBlur(Shaders.BlurVer13, Shaders.BlurHor13, n);
    }

    /** The first line of `blur`: a texture already in RGB is used as it
        is, any other is converted with `to_rgb`. */
    method AsRgb() returns (t: ColorTexture)
      requires ctx.Valid()
      modifies ctx, ctx.registry
      ensures t.ctx == ctx && t.mode == Rgb
      ensures mode == Rgb ==> t == this
      ensures mode != Rgb ==> NewColor(t, ctx, Rgb)
      ensures ctx.Ran(ConvertLog(mode, tex, t.tex)) && ctx.Cached(ConvertKernels(mode))
      ensures mode == Rgb ==> ctx.compilations == old(ctx.compilations)
      ensures mode == Rgb ==> ctx.registry.value == old(ctx.registry.value) && ctx.registry.max == old(ctx.registry.max)
      ensures mode != Rgb ==> ctx.registry.Bumped(1, 1)
    {
      if mode != Rgb {
        t := ToRgb();
      } else {
        t := this;
      }
    }

    /** `blur(n, base)`: convert to RGB unless already there, blur with the
        kernels of `base`, convert the result to LAB. The converted copy and
        the blurred RGB texture are dropped on return. */
    method Blur(n: int := 0, base: int := 9) returns (r: ColorTexture, ghost src: Texture, ghost tex0: Texture, ghost tex1: Texture)
      requires ctx.Valid()
      modifies ctx, ctx.registry
      ensures NewColor(r, ctx, Lab)
      ensures mode == Rgb ==> src == tex
      ensures mode != Rgb ==> fresh(src) && src.released
      ensures fresh(tex0) && fresh(tex1) && tex0.released && tex1.released
      ensures ctx.Ran(ConvertLog(mode, tex, src)
                      + BlurLog(BlurKernels(base).0, BlurKernels(base).1, src, tex0, tex1, Max(n, 0))
                      + [Dispatch(Shaders.ToLab, [Binding0(r.tex), ReadOnly(1, tex1)], DestOrig)])
      ensures ctx.compiled == old(ctx.compiled) + ConvertKernels(mode) + {BlurKernels(base).0, BlurKernels(base).1, Shaders.ToLab}
      ensures old(ctx.compilations) <= ctx.compilations
      ensures ctx.registry.Bumped(1, if mode == Rgb then 2 else 3)
    {
      ghost var d0, s0 := ctx.dispatches, ctx.compilations;
      var t := AsRgb();
      src := t.tex;
      ghost var s1 := ctx.compilations;
      // base 9 is `blur_9`, base 13 is `blur_13`, any other base falls back to `blur_9`
      var kernels := BlurKernels(base);
      r, tex0, tex1 := t.BlurToLab(kernels.0, kernels.1, n);
      PrefixTrans(s0, s1, ctx.compilations);
      Regroup(d0, ConvertLog(mode, tex, src), BlurLog(kernels.0, kernels.1, src, tex0, tex1, Max(n, 0)),
              [Dispatch(Shaders.ToLab, [Binding0(r.tex), ReadOnly(1, tex1)], DestOrig)]);
      if mode != Rgb {
        t.Release();
      }
    }

    /** The part of `blur` after the conversion: the separable blur, then
        `to_lab`; the blurred RGB texture is dropped on return. */
    method BlurToLab(vert: string, hor: string, n: int) returns (r: ColorTexture, ghost tex0: Texture, ghost tex1: Texture)
      requires ctx.Valid() && vert in ctx.shaderLut && hor in ctx.shaderLut
      modifies ctx, ctx.registry
      ensures NewColor(r, ctx, Lab)
      ensures fresh(tex0) && fresh(tex1) && tex0.released && tex1.released
      ensures ctx.Ran(BlurLog(vert, hor, tex, tex0, tex1, Max(n, 0))
                      + [Dispatch(Shaders.ToLab, [Binding0(r.tex), ReadOnly(1, tex1)], DestOrig)])
      ensures ctx.Cached({vert, hor, Shaders.ToLab})
      ensures ctx.registry.Bumped(1, 2)
    {
      var temp: ColorTexture;
      temp, tex0 := SeparableBlur(vert, hor, n);
      tex1 := temp.tex;
      r := temp.ToLab();
      temp.Release();
    }

    /** `to_lab`: a LAB copy. */
    method ToLab() returns (r: ColorTexture)
      requires ctx.Valid()
      modifies ctx, ctx.registry
      ensures Mapped(Shaders.ToLab, DestOrig, Lab, r)
    {
      var shader := ctx.Shader(Shaders.ToLab);
      var t := ctx.Rgba8();
      ctx.Run(shader, [Binding0(t), ReadOnly(1, tex)], DestOrig);
      r := new ColorTexture(t, ctx, Lab);
    }

    /** `to_rgb`: an RGB copy. */
    method ToRgb() returns (r: ColorTexture)
      requires ctx.Valid()
      modifies ctx, ctx.registry
      ensures Mapped(Shaders.ToRgb, DestOrig, Rgb, r)
    {
      var shader := ctx.Shader(Shaders.ToRgb);
      var t := ctx.Rgba8();
      ctx.Run(shader, [Binding0(t), ReadOnly(1, tex)], DestOrig);
      r := new ColorTexture(t, ctx, Rgb);
    }

    /** `dithering`: same colour space. */
    method Dithering() returns (r: ColorTexture)
      requires ctx.Valid()
      modifies ctx, ctx.registry
      ensures Mapped(Shaders.Dithering, DestOrig, mode, r)
    {
      var shader := ctx.Shader(Shaders.Dithering);
      var t := ctx.Rgba8();
      ctx.Run(shader, [Binding0(t), ReadOnly(1, tex)], DestOrig);
      r := new ColorTexture(t, ctx, mode);
    }

    /** `dither_1bit`: same colour space. */
    method Dither1Bit() returns (r: ColorTexture)
      requires ctx.Valid()
      modifies ctx, ctx.registry
      ensures Mapped(Shaders.Dither1Bit, DestOrig, mode, r)
    {
      var shader := ctx.Shader(Shaders.Dither1Bit);
      var t := ctx.Rgba8();
      ctx.Run(shader, [Binding0(t), ReadOnly(1, tex)], DestOrig);
      r := new ColorTexture(t, ctx, mode);
    }

    /** `mask(top, mask)`: both arguments are type-checked, `top` first;
        this texture goes to unit 1, `top` to 2 and `mask` to 3. The colour
        spaces are not compared. */
    method Mask(top: Value, mask: Value) returns (r: Result<ColorTexture>)
      requires ctx.Valid()
      modifies ctx, ctx.registry
      ensures !(top.ColorVal? && mask.ColorVal?) ==> r == Failure(TypeError) && Untouched(ctx)
      ensures top.ColorVal? && mask.ColorVal? ==>
                r.Success? && NewColor(r.value, ctx, mode) && ctx.registry.Bumped(1, 1)
                && ctx.Cached({Shaders.LayerMask}) && ctx.Ran([Dispatch(Shaders.LayerMask,
                                     [Binding0(r.value.tex), ReadOnly(1, tex), ReadOnly(2, top.c.tex), ReadOnly(3, mask.c.tex)],
                                     map["destTex" := Unit(0), "tex0" := Unit(1), "tex1" := Unit(2), "mask" := Unit(3)])])
    {
      var t1 :- CheckType(top);
      var t2 :- CheckType(mask);
      var shader := ctx.Shader(Shaders.LayerMask);
      var t := ctx.Rgba8();
      ctx.Run(shader, [Binding0(t), ReadOnly(1, tex), ReadOnly(2, t1.tex), ReadOnly(3, t2.tex)],
              map["destTex" := Unit(0), "tex0" := Unit(1), "tex1" := Unit(2), "mask" := Unit(3)]);
      var c := new ColorTexture(t, ctx, mode);
      r := Success(c);
    }

    /** `multiply(other)`: this texture at unit 1, `other` at unit 2. */
    method Multiply(other: Value) returns (r: Result<ColorTexture>)
      requires ctx.Valid()
      modifies ctx, ctx.registry
      ensures !other.ColorVal? ==> r == Failure(TypeError) && Untouched(ctx)
      ensures other.ColorVal? ==>
                r.Success? && NewColor(r.value, ctx, mode) && ctx.registry.Bumped(1, 1)
                && ctx.Cached({Shaders.Multiply}) && ctx.Ran([Dispatch(Shaders.Multiply, [Binding0(r.value.tex), ReadOnly(1, tex), ReadOnly(2, other.c.tex)],
                                     map["destTex" := Unit(0), "mask1" := Unit(1), "mask2" := Unit(2)])])
    {
      var o :- CheckType(other);
      var shader := ctx.Shader(Shaders.Multiply);
      var t := ctx.Rgba8();
      ctx.Run(shader, [Binding0(t), ReadOnly(1, tex), ReadOnly(2, o.tex)],
              map["destTex" := Unit(0), "mask1" := Unit(1), "mask2" := Unit(2)]);
      var c := new ColorTexture(t, ctx, mode);
      r := Success(c);
    }

    /** `alpha_overlay(other)`: `other` at unit 1 and this texture at unit 2,
        so `other` is the kernel's `tex0`. */
    method AlphaOverlay(other: Value) returns (r: Result<ColorTexture>)
      requires ctx.Valid()
      modifies ctx, ctx.registry
      ensures !other.ColorVal? ==> r == Failure(TypeError) && Untouched(ctx)
      ensures other.ColorVal? ==>
                r.Success? && NewColor(r.value, ctx, mode) && ctx.registry.Bumped(1, 1)
                && ctx.Cached({Shaders.Overlay}) && ctx.Ran([Dispatch(Shaders.Overlay, [Binding0(r.value.tex), ReadOnly(1, other.c.tex), ReadOnly(2, tex)],
                                     map["destTex" := Unit(0), "tex0" := Unit(1), "tex1" := Unit(2)])])
    {
      var o :- CheckType(other);
      var shader := ctx.Shader(Shaders.Overlay);
      var t := ctx.Rgba8();
      ctx.Run(shader, [Binding0(t), ReadOnly(1, o.tex), ReadOnly(2, tex)],
              map["destTex" := Unit(0), "tex0" := Unit(1), "tex1" := Unit(2)]);
      var c := new ColorTexture(t, ctx, mode);
      r := Success(c);
    }

    /** `transparency(alpha)`. */
    method Transparency(alpha: real) returns (r: ColorTexture)
      requires ctx.Valid()
      modifies ctx, ctx.registry
      ensures Mapped(Shaders.Transparency, map["destTex" := Unit(0), "tex0" := Unit(1), "alpha" := Num(alpha)], mode, r)
    {
      var shader := ctx.Shader(Shaders.Transparency);
      var t := ctx.Rgba8();
      ctx.Run(shader, [Binding0(t), ReadOnly(1, tex)],
              map["destTex" := Unit(0), "tex0" := Unit(1), "alpha" := Num(alpha)]);
      r := new ColorTexture(t, ctx, mode);
    }

    /** `invert`: this texture is bound write-only at unit 1. */
    method Invert() returns (r: ColorTexture)
      requires ctx.Valid()
      modifies ctx, ctx.registry
      ensures NewColor(r, ctx, mode) && ctx.registry.Bumped(1, 1)
      ensures ctx.Ran([Dispatch(Shaders.Invert, [Binding0(r.tex), Binding(1, tex, false, true)], DestOrig)])
      ensures ctx.Cached({Shaders.Invert})
    {
      var shader := ctx.Shader(Shaders.Invert);
      var t := ctx.Rgba8();
      ctx.Run(shader, [Binding0(t), Binding(1, tex, false, true)], DestOrig);
      r := new ColorTexture(t, ctx, mode);
    }
  }

  /** `ColorTexture(tex, context, mode)` with a context that may be None:
      the constructor raises ValueError after storing the texture, so the
      half-built object is collected and its destructor runs. */
  method NewColorTexture(tex: Texture, ctx: Context?, mode: ColorSpaceMode, registry: Counter) returns (r: Result<ColorTexture>)
    modifies tex, registry
    ensures ctx != null ==>
              r.Success? && fresh(r.value) && r.value.tex == tex && r.value.ctx == ctx && r.value.mode == mode
              && tex.released == old(tex.released) && registry.value == old(registry.value) && registry.max == old(registry.max)
    ensures ctx == null ==>
              r == Failure(ValueError) && tex.released
              && registry.value == old(registry.value) - 1 && registry.max == old(registry.max)
  {
    if ctx == null {
      tex.Release();
      DecreaseTexRegistry(registry);
      return Failure(ValueError);
    }
    var c := new ColorTexture(tex, ctx, mode);
    r := Success(c);
  }

  // ---- distance fields ----

  /** `SDFTexture`: a float texture holding a signed distance field. */
  class SDFTexture {
    const tex: Texture
    const ctx: Context

    constructor (tex: Texture, ctx: Context)
      ensures this.tex == tex && this.ctx == ctx
    {
      this.tex := tex;
      this.ctx := ctx;
    }

    /** `__del__`: the texture is released and the counter drops by one. */
    method Release()
      modifies tex, ctx.registry
      ensures tex.released
      ensures ctx.registry.value == old(ctx.registry.value) - 1 && ctx.registry.max == old(ctx.registry.max)
    {
      tex.Release();
      DecreaseTexRegistry(ctx.registry);
    }

    /** `_check_type`: TypeError unless the argument is a distance field. */
    function CheckType(obj: Value): (r: Result<SDFTexture>)
      ensures r.Success? <==> obj.FieldVal?
      ensures r.Success? ==> r.value == obj.f
      ensures r.Failure? ==> r.error == TypeError
    {
      if obj.FieldVal? then Success(obj.f) else Failure(TypeError)
    }

    /** The outcome of a boolean operator: `kernel` is cached, and one run of
        it had this field at unit 1 and `other` at unit 2. */
    twostate predicate Combined(kernel: string, uniforms: map<string, Uniform>, other: SDFTexture, new r: SDFTexture)
      reads ctx, ctx.registry, r.tex
    {
      NewField(r, ctx) && ctx.registry.Bumped(1, 1) && ctx.Cached({kernel})
      && ctx.Ran([Dispatch(kernel, [Binding0(r.tex), ReadOnly(1, tex), ReadOnly(2, other.tex)], uniforms)])
    }

    /** The outcome of a single-input field operator. */
    twostate predicate Reshaped(kernel: string, uniforms: map<string, Uniform>, new r: SDFTexture)
      reads ctx, ctx.registry, r.tex
    {
      NewField(r, ctx) && ctx.registry.Bumped(1, 1) && ctx.Cached({kernel})
      && ctx.Ran([Dispatch(kernel, [Binding0(r.tex), ReadOnly(1, tex)], uniforms)])
    }

    /** The outcome of an operator that colours this field. */
    twostate predicate Coloured(kernel: string, uniforms: map<string, Uniform>, new r: ColorTexture)
      reads ctx, ctx.registry, r.tex
    {
      NewColor(r, ctx, Lab) && ctx.registry.Bumped(1, 1) && ctx.Cached({kernel})
      && ctx.Ran([Dispatch(kernel, [Binding0(r.tex), ReadOnly(1, tex)], uniforms)])
    }

    /** `smooth_union(other, k)`. */
    method SmoothUnion(other: Value, k: real := 0.025) returns (r: Result<SDFTexture>)
      requires ctx.Valid()
      modifies ctx, ctx.registry
      ensures !other.FieldVal? ==> r == Failure(TypeError) && Untouched(ctx)
      ensures other.FieldVal? ==>
                r.Success? && Combined(Shaders.SmoothMin, SdfPair["smoothness" := Num(k)], other.f, r.value)
    {
      var o :- CheckType(other);
      var shader := ctx.Shader(Shaders.SmoothMin);
      var t := ctx.R32f();
      ctx.Run(shader, [Binding0(t), ReadOnly(1, tex), ReadOnly(2, o.tex)], SdfPair["smoothness" := Num(k)]);
      var s := new SDFTexture(t, ctx);
      r := Success(s);
    }

    /** `union(other)`. */
    method Union(other: Value) returns (r: Result<SDFTexture>)
      requires ctx.Valid()
      modifies ctx, ctx.registry
      ensures !other.FieldVal? ==> r == Failure(TypeError) && Untouched(ctx)
      ensures other.FieldVal? ==> r.Success? && Combined(Shaders.Union, SdfPair, other.f, r.value)
    {
      var o :- CheckType(other);
      var shader := ctx.Shader(Shaders.Union);
      var t := ctx.R32f();
      ctx.Run(shader, [Binding0(t), ReadOnly(1, tex), ReadOnly(2, o.tex)], SdfPair);
      var s := new SDFTexture(t, ctx);
      r := Success(s);
    }

    /** `masked_union(other)`: the union and an RGB mask telling the inputs
        apart, both written by one run; the mask is bound write-only at
        unit 1, this field at 2, `other` at 3. */
    method MaskedUnion(other: Value) returns (r: Result<(SDFTexture, ColorTexture)>)
      requires ctx.Valid()
      modifies ctx, ctx.registry
      ensures !other.FieldVal? ==> r == Failure(TypeError) && Untouched(ctx)
      ensures other.FieldVal? ==>
                r.Success? && NewField(r.value.0, ctx) && NewColor(r.value.1, ctx, Rgb)
                && r.value.0.tex != r.value.1.tex && ctx.registry.Bumped(2, 2)
                && ctx.Ran([Dispatch(Shaders.MaskedUnion,
                                     [Binding0(r.value.0.tex), Binding(1, r.value.1.tex, false, true),
                                      ReadOnly(2, tex), ReadOnly(3, other.f.tex)],
                                     map["destTex" := Unit(0), "maskTex" := Unit(1), "sdf0" := Unit(2), "sdf1" := Unit(3)])])
                && ctx.Cached({Shaders.MaskedUnion})
    {
      var o :- CheckType(other);
      var shader := ctx.Shader(Shaders.MaskedUnion);
      var t := ctx.R32f();
      var m := ctx.Rgba8();
      ctx.Run(shader, [Binding0(t), Binding(1, m, false, true), ReadOnly(2, tex), ReadOnly(3, o.tex)],
              map["destTex" := Unit(0), "maskTex" := Unit(1), "sdf0" := Unit(2), "sdf1" := Unit(3)]);
      var s := new SDFTexture(t, ctx);
      var c := new ColorTexture(m, ctx, Rgb);
      r := Success((s, c));
    }

    /** `subtract(other)`. */
    method Subtract(other: Value) returns (r: Result<SDFTexture>)
      requires ctx.Valid()
      modifies ctx, ctx.registry
      ensures !other.FieldVal? ==> r == Failure(TypeError) && Untouched(ctx)
      ensures other.FieldVal? ==> r.Success? && Combined(Shaders.Subtract, SdfPair, other.f, r.value)
    {
      var o :- CheckType(other);
      var shader := ctx.Shader(Shaders.Subtract);
      var t := ctx.R32f();
      ctx.Run(shader, [Binding0(t), ReadOnly(1, tex), ReadOnly(2, o.tex)], SdfPair);
      var s := new SDFTexture(t, ctx);
      r := Success(s);
    }

    /** `intersection(other)`. */
    method Intersection(other: Value) returns (r: Result<SDFTexture>)
      requires ctx.Valid()
      modifies ctx, ctx.registry
      ensures !other.FieldVal? ==> r == Failure(TypeError) && Untouched(ctx)
      ensures other.FieldVal? ==> r.Success? && Combined(Shaders.Intersection, SdfPair, other.f, r.value)
    {
      var o :- CheckType(other);
      var shader := ctx.Shader(Shaders.Intersection);
      var t := ctx.R32f();
      ctx.Run(shader, [Binding0(t), ReadOnly(1, tex), ReadOnly(2, o.tex)], SdfPair);
      var s := new SDFTexture(t, ctx);
      r := Success(s);
    }

    /** `a | b` is `a.union(b)`. */
    method Or(other: Value) returns (r: Result<SDFTexture>)
      requires ctx.Valid()
      modifies ctx, ctx.registry
      ensures !other.FieldVal? ==> r == Failure(TypeError) && Untouched(ctx)
      ensures other.FieldVal? ==> r.Success? && Combined(Shaders.Union, SdfPair, other.f, r.value)
    {
      r := Union(other);
    }

    /** `a & b` is `a.intersection(b)`. */
    method And(other: Value) returns (r: Result<SDFTexture>)
      requires ctx.Valid()
      modifies ctx, ctx.registry
      ensures !other.FieldVal? ==> r == Failure(TypeError) && Untouched(ctx)
      ensures other.FieldVal? ==> r.Success? && Combined(Shaders.Intersection, SdfPair, other.f, r.value)
    {
      r := Intersection(other);
    }

    /** `a - b` is `a.subtract(b)`. */
    method Sub(other: Value) returns (r: Result<SDFTexture>)
      requires ctx.Valid()
      modifies ctx, ctx.registry
      ensures !other.FieldVal? ==> r == Failure(TypeError) && Untouched(ctx)
      ensures other.FieldVal? ==> r.Success? && Combined(Shaders.Subtract, SdfPair, other.f, r.value)
    {
      r := Subtract(other);
    }

    /** `abs()`. */
    method Abs() returns (r: SDFTexture)
      requires ctx.Valid()
      modifies ctx, ctx.registry
      ensures Reshaped(Shaders.Abs, map["destTex" := Unit(0), "sdf0" := Unit(1)], r)
    {
      var shader := ctx.Shader(Shaders.Abs);
      var t := ctx.R32f();
      ctx.Run(shader, [Binding0(t), ReadOnly(1, tex)], map["destTex" := Unit(0), "sdf0" := Unit(1)]);
      r := new SDFTexture(t, ctx);
    }

    /** `repeat(s)`. */
    method Repeat(s: real := 15.0) returns (r: SDFTexture)
      requires ctx.Valid()
      modifies ctx, ctx.registry
      ensures Reshaped(Shaders.Repeat, map["destTex" := Unit(0), "sdf0" := Unit(1), "repeat" := Num(s)], r)
    {
      var shader := ctx.Shader(Shaders.Repeat);
      var t := ctx.R32f();
      ctx.Run(shader, [Binding0(t), ReadOnly(1, tex)], map["destTex" := Unit(0), "sdf0" := Unit(1), "repeat" := Num(s)]);
      r := new SDFTexture(t, ctx);
    }

    /** `fill(fg, bg, inflate, inner, outer)`: a LAB colour texture. */
    method Fill(fg: seq<real>, bg: seq<real>, inflate: real := 0.0, inner: real := -1.5, outer: real := 0.0) returns (r: ColorTexture)
      requires ctx.Valid()
      modifies ctx, ctx.registry
      ensures Coloured(Shaders.Fill, FillUniforms(fg, bg, inflate, inner, outer), r)
    {
      var shader := ctx.Shader(Shaders.Fill);
      var t := ctx.Rgba8();
      ctx.Run(shader, [Binding0(t), ReadOnly(1, tex)], FillUniforms(fg, bg, inflate, inner, outer));
      r := new ColorTexture(t, ctx, Lab);
    }

    /** `fill_from_texture(layer, background, inflate)`: `layer` is not
        type-checked. The run reads `layer.tex` at unit 1 and this field at
        unit 2, and the result takes `layer.mode`; a distance field has a
        texture but no mode, so it runs the kernel and then raises
        AttributeError, and any other value raises AttributeError before
        the run. The texture allocated before the failure stays alive. */
    method FillFromTexture(layer: Value, background: seq<real> := Clear, inflate: real := 0.0) returns (r: Result<ColorTexture>, ghost dest: Texture)
      requires ctx.Valid()
      modifies ctx, ctx.registry
      ensures fresh(dest) && dest.format == Format.Rgba8 && !dest.released && ctx.registry.Bumped(1, 1)
      ensures r.Success? <==> layer.ColorVal?
      ensures r.Failure? ==> r.error == AttributeError
      ensures ctx.Cached({Shaders.FillFromTexture})
      ensures layer.ColorVal? ==> NewColor(r.value, ctx, layer.c.mode) && r.value.tex == dest
      ensures layer.OtherVal? ==> ctx.Valid() && ctx.dispatches == old(ctx.dispatches)
      ensures !layer.OtherVal? ==>
                ctx.Ran([Dispatch(Shaders.FillFromTexture,
                                  [Binding0(dest), ReadOnly(1, if layer.ColorVal? then layer.c.tex else layer.f.tex), ReadOnly(2, tex)],
                                  map["destTex" := Unit(0), "origTex" := Unit(1), "sdf" := Unit(2),
                                      "background" := Vec(background), "inflate" := Num(inflate)])])
    {
      var shader := ctx.Shader(Shaders.FillFromTexture);
      var t := ctx.Rgba8();
      dest := t;
      var src: Texture;
      match layer {
        case ColorVal(c) => src := c.tex;
        case FieldVal(f) => src := f.tex;
        case OtherVal => return Failure(AttributeError), dest;
      }
      ctx.Run(shader, [Binding0(t), ReadOnly(1, src), ReadOnly(2, tex)],
              map["destTex" := Unit(0), "origTex" := Unit(1), "sdf" := Unit(2),
                  "background" := Vec(background), "inflate" := Num(inflate)]);
      if !layer.ColorVal? {
        return Failure(AttributeError), dest;
      }
      var c := new ColorTexture(t, ctx, layer.c.mode);
      r := Success(c);
    }

    /** `outline(fg, bg, inflate)`: a LAB colour texture. */
    method Outline(fg: seq<real>, bg: seq<real>, inflate: real := 0.0) returns (r: ColorTexture)
      requires ctx.Valid()
      modifies ctx, ctx.registry
      ensures Coloured(Shaders.Outline, map["destTex" := Unit(0), "sdf" := Unit(1), "background" := Vec(bg),
                                            "outline" := Vec(fg), "inflate" := Num(inflate)], r)
    {
      var shader := ctx.Shader(Shaders.Outline);
      var t := ctx.Rgba8();
      ctx.Run(shader, [Binding0(t), ReadOnly(1, tex)],
              map["destTex" := Unit(0), "sdf" := Unit(1), "background" := Vec(bg), "outline" := Vec(fg), "inflate" := Num(inflate)]);
      r := new ColorTexture(t, ctx, Lab);
    }

    /** `generate_mask(inflate, color0, color1)`: `fill(color1, color0,
        inflate)` converted to RGB; the LAB fill is dropped afterwards. */
    method GenerateMask(inflate: real := 0.0, color0: seq<real> := Opaque, color1: seq<real> := White) returns (r: ColorTexture, ghost filled: Texture)
      requires ctx.Valid()
      modifies ctx, ctx.registry
      ensures NewColor(r, ctx, Rgb) && fresh(filled) && filled.released && ctx.registry.Bumped(1, 2)
      ensures ctx.Ran([Dispatch(Shaders.Fill, [Binding0(filled), ReadOnly(1, tex)], FillUniforms(color1, color0, inflate, -1.5, 0.0)),
                       Dispatch(Shaders.ToRgb, [Binding0(r.tex), ReadOnly(1, filled)], DestOrig)])
      ensures ctx.Cached({Shaders.Fill, Shaders.ToRgb})
    {
      var f := Fill(color1, color0, inflate);
      filled := f.tex;
      r := f.ToRgb();
      f.Release();
    }

    /** The first part of `shadow`: the mask `generate_mask(inflate,
        (0,0,0,1), (0,0,0,0))`, blurred `distance` times with the 9-tap
        kernels into LAB; the mask is dropped once it is blurred. */
    method BlurredMask(distance: int, inflate: real)
      returns (b: ColorTexture, ghost filled: Texture, ghost mask: Texture, ghost tex0: Texture, ghost tex1: Texture)
      requires ctx.Valid()
      modifies ctx, ctx.registry
      ensures NewColor(b, ctx, Lab) && ctx.registry.Bumped(1, 3)
      ensures fresh(filled) && fresh(mask) && fresh(tex0) && fresh(tex1)
      ensures filled.released && mask.released && tex0.released && tex1.released
      ensures ctx.Ran([Dispatch(Shaders.Fill, [Binding0(filled), ReadOnly(1, tex)], FillUniforms(Clear, Opaque, inflate, -1.5, 0.0)),
                       Dispatch(Shaders.ToRgb, [Binding0(mask), ReadOnly(1, filled)], DestOrig)]
                      + BlurLog(Shaders.BlurVer9, Shaders.BlurHor9, mask, tex0, tex1, Max(distance, 0))
                      + [Dispatch(Shaders.ToLab, [Binding0(b.tex), ReadOnly(1, tex1)], DestOrig)])
      ensures ctx.compiled == old(ctx.compiled) + {Shaders.Fill, Shaders.ToRgb} + {Shaders.BlurVer9, Shaders.BlurHor9, Shaders.ToLab}
      ensures old(ctx.compilations) <= ctx.compilations
    {
      ghost var d0 := ctx.dispatches;
      var m;
      m, filled := GenerateMask(inflate, Opaque, Clear);
      mask := m.tex;
      ghost var masking := [Dispatch(Shaders.Fill, [Binding0(filled), ReadOnly(1, tex)], FillUniforms(Clear, Opaque, inflate, -1.5, 0.0)),
                            Dispatch(Shaders.ToRgb, [Binding0(mask), ReadOnly(1, filled)], DestOrig)];
      ghost var d1, k1, q1 := ctx.dispatches, ctx.compiled, ctx.compilations;
      ghost var src;
      b, src, tex0, tex1 := m.Blur(distance, 9);
      ghost var blurs := BlurLog(Shaders.BlurVer9, Shaders.BlurHor9, mask, tex0, tex1, Max(distance, 0));
      ghost var lab := Dispatch(Shaders.ToLab, [Binding0(b.tex), ReadOnly(1, tex1)], DestOrig);
      assert ConvertLog(Rgb, mask, src) + blurs == blurs;
      assert k1 + ConvertKernels(Rgb) == k1;
      PrefixTrans(old(ctx.compilations), q1, ctx.compilations);
      AppendAssoc(d0, masking, blurs + [lab]);
      AppendAssoc(masking, blurs, [lab]);
      m.Release();
    }

    /** `shadow(distance, inflate, transparency)`: a transparent-on-black
        mask, blurred `distance` times with the 9-tap kernels, made
        translucent. Each intermediate is dropped once the next step has it. */
    method Shadow(distance: int := 10, inflate: real := 0.0, transparency: real := 0.75)
      returns (r: ColorTexture, ghost filled: Texture, ghost mask: Texture, ghost tex0: Texture, ghost tex1: Texture, ghost blurred: Texture)
      requires ctx.Valid()
      modifies ctx, ctx.registry
      ensures NewColor(r, ctx, Lab) && ctx.registry.Bumped(1, 3)
      ensures fresh(filled) && fresh(mask) && fresh(tex0) && fresh(tex1) && fresh(blurred)
      ensures filled.released && mask.released && tex0.released && tex1.released && blurred.released
      ensures ctx.Ran([Dispatch(Shaders.Fill, [Binding0(filled), ReadOnly(1, tex)], FillUniforms(Clear, Opaque, inflate, -1.5, 0.0)),
                       Dispatch(Shaders.ToRgb, [Binding0(mask), ReadOnly(1, filled)], DestOrig)]
                      + BlurLog(Shaders.BlurVer9, Shaders.BlurHor9, mask, tex0, tex1, Max(distance, 0))
                      + [Dispatch(Shaders.ToLab, [Binding0(blurred), ReadOnly(1, tex1)], DestOrig),
                         Dispatch(Shaders.Transparency, [Binding0(r.tex), ReadOnly(1, blurred)],
                                  map["destTex" := Unit(0), "tex0" := Unit(1), "alpha" := Num(transparency)])])
      ensures ctx.compiled == old(ctx.compiled) + {Shaders.Fill, Shaders.ToRgb} + {Shaders.BlurVer9, Shaders.BlurHor9, Shaders.ToLab} + {Shaders.Transparency}
      ensures old(ctx.compilations) <= ctx.compilations
    {
      ghost var d0 := ctx.dispatches;
      var b;
      b, filled, mask, tex0, tex1 := BlurredMask(distance, inflate);
      blurred := b.tex;
      ghost var masking := [Dispatch(Shaders.Fill, [Binding0(filled), ReadOnly(1, tex)], FillUniforms(Clear, Opaque, inflate, -1.5, 0.0)),
                            Dispatch(Shaders.ToRgb, [Binding0(mask), ReadOnly(1, filled)], DestOrig)];
      ghost var blurs := BlurLog(Shaders.BlurVer9, Shaders.BlurHor9, mask, tex0, tex1, Max(distance, 0));
      ghost var lab := Dispatch(Shaders.ToLab, [Binding0(blurred), ReadOnly(1, tex1)], DestOrig);
      ghost var q1 := ctx.compilations;
      r := b.Transparency(transparency);
      ghost var alpha := Dispatch(Shaders.Transparency, [Binding0(r.tex), ReadOnly(1, blurred)],
                                  map["destTex" := Unit(0), "tex0" := Unit(1), "alpha" := Num(transparency)]);
      PrefixTrans(old(ctx.compilations), q1, ctx.compilations);
      b.Release();
      AppendAssoc(d0, masking + blurs + [lab], [alpha]);
      assert masking + blurs + [lab] + [alpha] == masking + blurs + [lab, alpha];
    }
  }

  /** `SDFTexture(tex, context)` with a context that may be None. */
  method NewSDFTexture(tex: Texture, ctx: Context?, registry: Counter) returns (r: Result<SDFTexture>)
    modifies tex, registry
    ensures ctx != null ==>
              r.Success? && fresh(r.value) && r.value.tex == tex && r.value.ctx == ctx
              && tex.released == old(tex.released) && registry.value == old(registry.value) && registry.max == old(registry.max)
    ensures ctx == null ==>
              r == Failure(ValueError) && tex.released
              && registry.value == old(registry.value) - 1 && registry.max == old(registry.max)
  {
    if ctx == null {
      tex.Release();
      DecreaseTexRegistry(registry);
      return Failure(ValueError);
    }
    var s := new SDFTexture(tex, ctx);
    r := Success(s);
  }

  // ---- primitives ----

  /** `rounded_rect(ctx, center, size, corner_radius, angle)`. */
  method RoundedRect(ctx: Context, center: Point, size: Point, cornerRadius: seq<real>, angle: real := 0.0) returns (r: SDFTexture)
    requires ctx.Valid()
    modifies ctx, ctx.registry
    ensures Drawn(ctx, Shaders.Rect, map["destTex" := Unit(0), "offset" := V2(center), "size" := V2(size),
                                         "corner_radius" := Vec(cornerRadius), "angle" := Num(angle)], r)
  {
    var shader := ctx.Shader(Shaders.Rect);
    var t := ctx.R32f();
    ctx.Run(shader, [Binding0(t)], map["destTex" := Unit(0), "offset" := V2(center), "size" := V2(size),
                                                     "corner_radius" := Vec(cornerRadius), "angle" := Num(angle)]);
    r := new SDFTexture(t, ctx);
  }

  /** `disc(ctx, center, radius)`. */
  method Disc(ctx: Context, center: Point, radius: real) returns (r: SDFTexture)
    requires ctx.Valid()
    modifies ctx, ctx.registry
    ensures Drawn(ctx, Shaders.Circle, map["destTex" := Unit(0), "offset" := V2(center), "radius" := Num(radius)], r)
  {
    var shader := ctx.Shader(Shaders.Circle);
    var t := ctx.R32f();
    ctx.Run(shader, [Binding0(t)], map["destTex" := Unit(0), "offset" := V2(center), "radius" := Num(radius)]);
    r := new SDFTexture(t, ctx);
  }

  /** `triangle(ctx, p1, p2, p3)`. */
  method Triangle(ctx: Context, p1: Point, p2: Point, p3: Point) returns (r: SDFTexture)
    requires ctx.Valid()
    modifies ctx, ctx.registry
    ensures Drawn(ctx, Shaders.Triangle, map["destTex" := Unit(0), "point0" := V2(p1), "point1" := V2(p2), "point2" := V2(p3)], r)
  {
    var shader := ctx.Shader(Shaders.Triangle);
    var t := ctx.R32f();
    ctx.Run(shader, [Binding0(t)], map["destTex" := Unit(0), "point0" := V2(p1), "point1" := V2(p2), "point2" := V2(p3)]);
    r := new SDFTexture(t, ctx);
  }

  /** `bezier(ctx, a, b, c)`: the quadratic curve from `a` to `c` pulled
      towards `b`. */
  method Bezier(ctx: Context, a: Point, b: Point, c: Point) returns (r: SDFTexture)
    requires ctx.Valid()
    modifies ctx, ctx.registry
    ensures Drawn(ctx, Shaders.Bezier, BezierUniforms(a, b, c), r)
  {
    var shader := ctx.Shader(Shaders.Bezier);
    var t := ctx.R32f();
    ctx.Run(shader, [Binding0(t)], BezierUniforms(a, b, c));
    r := new SDFTexture(t, ctx);
  }

  /** The uniforms `bezier` sets: the three control points. */
  function BezierUniforms(a: Point, b: Point, c: Point): map<string, Uniform> {
    map["destTex" := Unit(0), "a" := V2(a), "b" := V2(b), "c" := V2(c)]
  }

  /** The uniforms `line` sets: the two end points. */
  function LineUniforms(a: Point, b: Point): map<string, Uniform> {
    map["destTex" := Unit(0), "a" := V2(a), "b" := V2(b)]
  }

  /** `line(ctx, a, b)`: the segment from `a` to `b`. */
  method Line(ctx: Context, a: Point, b: Point) returns (r: SDFTexture)
    requires ctx.Valid()
    modifies ctx, ctx.registry
    ensures Drawn(ctx, Shaders.Line, LineUniforms(a, b), r)
  {
    var shader := ctx.Shader(Shaders.Line);
    var t := ctx.R32f();
    ctx.Run(shader, [Binding0(t)], LineUniforms(a, b));
    r := new SDFTexture(t, ctx);
  }

  /** `grid(ctx, offset, size, angle)`. */
  method Grid(ctx: Context, offset: Point, size: Point, angle: real := 0.0) returns (r: SDFTexture)
    requires ctx.Valid()
    modifies ctx, ctx.registry
    ensures Drawn(ctx, Shaders.Grid, map["destTex" := Unit(0), "grid_size" := V2(size), "offset" := V2(offset), "angle" := Num(angle)], r)
  {
    var shader := ctx.Shader(Shaders.Grid);
    var t := ctx.R32f();
    ctx.Run(shader, [Binding0(t)], map["destTex" := Unit(0), "grid_size" := V2(size), "offset" := V2(offset), "angle" := Num(angle)]);
    r := new SDFTexture(t, ctx);
  }

  /** `clear_color(ctx, color)`: a LAB texture of one colour. */
  method ClearColor(ctx: Context, color: seq<real>) returns (r: ColorTexture)
    requires ctx.Valid()
    modifies ctx, ctx.registry
    ensures Painted(ctx, Shaders.ClearColor, map["destTex" := Unit(0), "color" := Vec(color)], Lab, r)
  {
    var shader := ctx.Shader(Shaders.ClearColor);
    var t := ctx.Rgba8();
    ctx.Run(shader, [Binding0(t)], map["destTex" := Unit(0), "color" := Vec(color)]);
    r := new ColorTexture(t, ctx, Lab);
  }

  /** `perlin_noise(ctx)`: an RGB texture. */
  method PerlinNoise(ctx: Context) returns (r: ColorTexture)
    requires ctx.Valid()
    modifies ctx, ctx.registry
    ensures Painted(ctx, Shaders.PerlinNoise, map["destTex" := Unit(0)], Rgb, r)
  {
    var shader := ctx.Shader(Shaders.PerlinNoise);
    var t := ctx.Rgba8();
    ctx.Run(shader, [Binding0(t)], map["destTex" := Unit(0)]);
    r := new ColorTexture(t, ctx, Rgb);
  }

  /** `film_grain(ctx)`: an RGB texture; the texture is allocated before
      the kernel is looked up. */
  method FilmGrain(ctx: Context) returns (r: ColorTexture)
    requires ctx.Valid()
    modifies ctx, ctx.registry
    ensures Painted(ctx, Shaders.FilmGrain, map["destTex" := Unit(0)], Rgb, r)
  {
    var t := ctx.Rgba8();
    var shader := ctx.Shader(Shaders.FilmGrain);
    ctx.Run(shader, [Binding0(t)], map["destTex" := Unit(0)]);
    r := new ColorTexture(t, ctx, Rgb);
  }

  // ---- gradients ----

  /** The segment `linear_gradient(a, b)` draws: with d = a - b, from
      (ax + dx, ax - dy) to (ax - dx, ay + dy). The second coordinate of the
      first end starts from `ax`, as the code has it. */
  function GradientEnds(a: Point, b: Point): (e: (Point, Point))
    ensures e.0.x - a.x == a.x - b.x && a.x - e.1.x == a.x - b.x
    ensures e.1.y - a.y == a.y - b.y && a.x - e.0.y == a.y - b.y
  {
    var dx := a.x - b.x;
    var dy := a.y - b.y;
    (Point(a.x + dx, a.x - dy), Point(a.x - dx, a.y + dy))
  }

  /** The segment is centred on `a` horizontally, and vertically exactly
      when `a` lies on the diagonal x == y; its half-length in x is |dx|. */
  lemma GradientEndsCentre(a: Point, b: Point)
    ensures var e := GradientEnds(a, b);
            && e.0.x + e.1.x == 2.0 * a.x
            && (e.0.y + e.1.y == 2.0 * a.y <==> a.x == a.y)
  {
  }

  /** For a start on the diagonal the segment runs along a - b mirrored in
      the x axis and is twice as long as a - b, so the fill's `outer` is
      half its length. */
  lemma GradientEndsSpan(a: Point, b: Point)
    requires a.x == a.y
    ensures var e := GradientEnds(a, b);
            var ux, uy := e.0.x - e.1.x, e.0.y - e.1.y;
            var dx, dy := a.x - b.x, a.y - b.y;
            && ux == 2.0 * dx && uy == -2.0 * dy
            && ux * ux + uy * uy == 4.0 * (dx * dx + dy * dy)
  {
  }

  /** `linear_gradient(a, b, c1, c2)`: the absolute distance to the
      segment `GradientEnds(a, b)`, filled from `c1` to `c2` over distances
      0 to |a - b|. `outer` is that length, which the code computes with
      `math.sqrt`. The segment field is dropped once its absolute value
      exists, and that one once the fill exists. */
  method LinearGradient(ctx: Context, a: Point, b: Point, color1: seq<real>, color2: seq<real>, outer: real)
    returns (r: ColorTexture, ghost seg: Texture, ghost dist: Texture)
    requires ctx.Valid()
    requires outer >= 0.0 && outer * outer == (a.x - b.x) * (a.x - b.x) + (a.y - b.y) * (a.y - b.y)
    modifies ctx, ctx.registry
    ensures NewColor(r, ctx, Lab) && ctx.registry.Bumped(1, 2)
    ensures fresh(seg) && fresh(dist) && seg.released && dist.released
    ensures ctx.Ran([Dispatch(Shaders.Line, [Binding0(seg)],
                              LineUniforms(GradientEnds(a, b).0, GradientEnds(a, b).1)),
                     Dispatch(Shaders.Abs, [Binding0(dist), ReadOnly(1, seg)], map["destTex" := Unit(0), "sdf0" := Unit(1)]),
                     Dispatch(Shaders.Fill, [Binding0(r.tex), ReadOnly(1, dist)], FillUniforms(color1, color2, 0.0, 0.0, outer))])
    ensures ctx.Cached({Shaders.Line, Shaders.Abs, Shaders.Fill})
  {
    var ends := GradientEnds(a, b);
    var l := Line(ctx, ends.0, ends.1);
    seg := l.tex;
    var d := l.Abs();
    dist := d.tex;
    l.Release();
    r := d.Fill(color1, color2, 0.0, 0.0, outer);
    d.Release();
  }

  /** `radial_gradient(a, c1, c2, inner, outer)`: a zero-radius disc at `a`
      (the distance to `a`) filled from `c1` to `c2` between `inner` and
      `outer`; the disc is dropped afterwards. */
  method RadialGradient(ctx: Context, a: Point, color1: seq<real>, color2: seq<real>, inner: real := 0.0, outer: real := 100.0)
    returns (r: ColorTexture, ghost disc: Texture)
    requires ctx.Valid()
    modifies ctx, ctx.registry
    ensures NewColor(r, ctx, Lab) && ctx.registry.Bumped(1, 2)
    ensures fresh(disc) && disc.released
    ensures ctx.Ran([Dispatch(Shaders.Circle, [Binding0(disc)], map["destTex" := Unit(0), "offset" := V2(a), "radius" := Num(0.0)]),
                     Dispatch(Shaders.Fill, [Binding0(r.tex), ReadOnly(1, disc)], FillUniforms(color1, color2, 0.0, inner, outer))])
    ensures ctx.Cached({Shaders.Circle, Shaders.Fill})
  {
    var d := Disc(ctx, a, 0.0);
    disc := d.tex;
    r := d.Fill(color1, color2, 0.0, inner, outer);
    d.Release();
  }
}
