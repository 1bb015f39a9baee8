/** The kernel names of the `Shaders` class of `src/sdf_ui/context.py`. */
module Shaders {
  const Grid: string := "grid"
  const Rect: string := "rect"
  const Circle: string := "circle"
  const Bezier: string := "bezier"
  const Line: string := "line"
  const Triangle: string := "triangle"

  const SmoothMin: string := "smooth_min"
  const Union: string := "union"
  const Intersection: string := "intersection"
  const Interpolation: string := "interpolation"
  const Subtract: string := "subtract"
  const MaskedUnion: string := "masked_union"

  const Abs: string := "abs"
  const Repeat: string := "repeat"

  const BlurHor9: string := "blur_hor_9"
  const BlurVer9: string := "blur_ver_9"
  /** Spelled as in the source: the "vertical" 13-tap name is "blur_hor_13"
      and the "horizontal" one "blur_vert_13". */
  const BlurVer13: string := "blur_hor_13"
  const BlurHor13: string := "blur_vert_13"
  const ToLab: string := "to_lab"
  const ToRgb: string := "to_rgb"
  const Dithering: string := "dithering"
  const Dither1Bit: string := "dither_1bit"
  const Invert: string := "invert"

  const Fill: string := "fill"
  const FillFromTexture: string := "fill_from_texture"
  const Outline: string := "outline"
  const ClearColor: string := "clear_color"
  const PerlinNoise: string := "perlin_noise"
  const FilmGrain: string := "film_grain"

  const LayerMask: string := "layer_mask"
  const Overlay: string := "overlay"
  const Transparency: string := "transparency"
  const Multiply: string := "multiply"

  /** The constants of the class, in the groups its comments name. */
  const Primitives: set<string> := {Grid, Rect, Circle, Bezier, Line, Triangle}
  const Booleans: set<string> := {SmoothMin, Union, Intersection, Interpolation, Subtract, MaskedUnion}
  const Transforms: set<string> := {Abs, Repeat}
  const Postprocessing: set<string> :=
    {BlurHor9, BlurVer9, BlurVer13, BlurHor13, ToLab, ToRgb, Dithering, Dither1Bit, Invert}
  const Shading: set<string> := {Fill, FillFromTexture, Outline, ClearColor, PerlinNoise, FilmGrain}
  const Layer: set<string> := {LayerMask, Overlay, Transparency, Multiply}

  /** Every constant of the class. */
  const Kernels: set<string> := Primitives + Booleans + Transforms + Postprocessing + Shading + Layer
}

/** The rendering context of `src/sdf_ui/context.py`: the live-texture
    counter, the kernel table and its lazily filled program cache, texture
    allocation, and the size helpers. GPU work is not interpreted: a kernel
    run is recorded in a dispatch log. */
module RenderContext {
  import opened Common
  import Shaders

  // ---- the live-texture counter ----

  /** `Counter`: a value and its high-water mark. */
  class Counter {
    var value: int
    var max: int
    const name: string

    /** `Counter(value, name)`: the mark starts at 0 whatever the value. */
    constructor (value: int, name: string)
      ensures this.value == value && max == 0 && this.name == name
    {
      this.value := value;
      this.name := name;
      max := 0;
    }

    /** `counter + k`: the value grows by k and the mark follows it up. The
        method returns the counter itself, so `tex_registry += k` keeps the
        same object. */
    method Add(k: int)
      modifies this
      ensures value == old(value) + k
      ensures max == Max(old(max), value)
      ensures max >= value && max >= old(max)
    {
      value := value + k;
      max := Max(max, value);
    }

    /** `counter - k`: the value shrinks by k and the mark is left alone. */
    method Sub(k: int)
      modifies this
      ensures value == old(value) - k
      ensures max == old(max)
      ensures old(max >= value) && k >= 0 ==> max >= value
    {
      value := value - k;
    }

    /** Net change `net` of the value over a call, during which it peaked at
        `peak` above its starting value. */
    twostate predicate Bumped(net: int, peak: int)
      reads this
    {
      value == old(value) + net && max == Max(old(max), old(value) + peak)
    }
  }

  /** The module-level `tex_registry = Counter(0)`. */
  method NewTexRegistry() returns (c: Counter)
    ensures fresh(c) && c.value == 0 && c.max == 0 && c.name == "TEX_REGISTRY"
  {
    c := new Counter(0, "TEX_REGISTRY");
  }

  /** `decrease_tex_registry()`: one texture fewer. */
  method DecreaseTexRegistry(registry: Counter)
    modifies registry
    ensures registry.value == old(registry.value) - 1 && registry.max == old(registry.max)
  {
    registry.Sub(1);
  }

  // ---- textures and programs ----

  /** The two texture formats the context allocates. */
  datatype Format = R32f | Rgba8 {
    /** moderngl's dtype: 32-bit floats or bytes. */
    function Dtype(): string {
      if R32f? then "f4" else "f1"
    }

    function Components(): nat {
      if R32f? then 1 else 4
    }
  }

  /** A GPU texture; its content is not modelled. */
  class Texture {
    const format: Format
    var released: bool

    constructor (format: Format)
      ensures this.format == format && !released
    {
      this.format := format;
      released := false;
    }

    /** `Texture.release()`; releasing twice is harmless. */
    method Release()
      modifies this
      ensures released
    {
      released := true;
    }
  }

  /** A compiled compute program: the kernel name and the file it was
      compiled from. Compiling is deterministic, so a program is a value. */
  datatype Program = Program(name: string, path: string)

  /** A value assigned to a program uniform: an image unit, a float, or a
      vector (points and colours). */
  datatype Uniform = Unit(n: int) | Num(x: real) | Vec(v: seq<real>)

  /** `tex.bind_to_image(unit, read, write)`. */
  datatype Binding = Binding(unit: nat, tex: Texture, read: bool, write: bool)

  /** One `program.run(*local_size)`: the kernel, the image units bound at
      that moment, and the uniforms the caller set for it. */
  datatype Dispatch = Dispatch(kernel: string, images: seq<Binding>, uniforms: map<string, Uniform>)

  /** The kernels that runs of the log `ds` used. */
  function KernelsOf(ds: seq<Dispatch>): set<string> {
    set d | d in ds :: d.kernel
  }

  /** The kernels of two logs one after the other are those of either. */
  lemma KernelsOfAppend(a: seq<Dispatch>, b: seq<Dispatch>)
    ensures KernelsOf(a + b) == KernelsOf(a) + KernelsOf(b)
  {
    forall n | n in KernelsOf(a + b)
      ensures n in KernelsOf(a) + KernelsOf(b)
    {
      var d :| d in a + b && d.kernel == n;
      assert d in a || d in b;
    }
  }

  function Binding0(t: Texture): Binding {
    Binding(0, t, false, true)
  }

  function ReadOnly(unit: nat, t: Texture): Binding {
    Binding(unit, t, true, false)
  }

  // ---- the kernel table ----

  datatype ShaderFile = ShaderFile(name: string, path: string)

  // The descriptor list built by `Context.__init__`, in source order, one
  // list per group its comments name.

  const PrimitiveFiles: seq<ShaderFile> := [
    ShaderFile(Shaders.Rect, "shader_files/primitives/sdfs/rect.glsl"),
    ShaderFile(Shaders.Circle, "shader_files/primitives/sdfs/circle.glsl"),
    ShaderFile(Shaders.Bezier, "shader_files/primitives/sdfs/bezier.glsl"),
    ShaderFile(Shaders.Line, "shader_files/primitives/sdfs/line.glsl"),
    ShaderFile(Shaders.Grid, "shader_files/primitives/sdfs/grid.glsl"),
    ShaderFile(Shaders.Triangle, "shader_files/primitives/sdfs/triangle.glsl")
  ]
  const BooleanFiles: seq<ShaderFile> := [
    ShaderFile(Shaders.SmoothMin, "shader_files/primitives/booleans/smin.glsl"),
    ShaderFile(Shaders.Union, "shader_files/primitives/booleans/union.glsl"),
    ShaderFile(Shaders.Intersection, "shader_files/primitives/booleans/intersection.glsl"),
    ShaderFile(Shaders.Interpolation, "shader_files/primitives/booleans/interpolate.glsl"),
    ShaderFile(Shaders.Subtract, "shader_files/primitives/booleans/subtract.glsl"),
    ShaderFile(Shaders.MaskedUnion, "shader_files/primitives/booleans/masked_union.glsl")
  ]
  const TransformFiles: seq<ShaderFile> := [
    ShaderFile(Shaders.Abs, "shader_files/primitives/transforms/abs.glsl"),
    ShaderFile(Shaders.Repeat, "shader_files/primitives/transforms/repeat.glsl")
  ]
  const PostprocessingFiles: seq<ShaderFile> := [
    ShaderFile(Shaders.BlurHor9, "shader_files/postprocessing/blur9_hor.glsl"),
    ShaderFile(Shaders.BlurVer9, "shader_files/postprocessing/blur9_vert.glsl"),
    ShaderFile(Shaders.BlurVer13, "shader_files/postprocessing/blur13_vert.glsl"),
    ShaderFile(Shaders.BlurHor13, "shader_files/postprocessing/blur13_hor.glsl"),
    ShaderFile(Shaders.ToLab, "shader_files/postprocessing/to_lab.glsl"),
    ShaderFile(Shaders.ToRgb, "shader_files/postprocessing/to_rgb.glsl"),
    ShaderFile(Shaders.Dithering, "shader_files/postprocessing/dithering.glsl"),
    ShaderFile(Shaders.Dither1Bit, "shader_files/postprocessing/dither_1bit.glsl"),
    ShaderFile(Shaders.Invert, "shader_files/postprocessing/invert.glsl")
  ]
  const ShadingFiles: seq<ShaderFile> := [
    ShaderFile(Shaders.Fill, "shader_files/shading/fill.glsl"),
    ShaderFile(Shaders.Outline, "shader_files/shading/outline.glsl"),
    ShaderFile(Shaders.ClearColor, "shader_files/shading/clear_color.glsl"),
    ShaderFile(Shaders.PerlinNoise, "shader_files/primitives/sdfs/perlin_noise.glsl"),
    ShaderFile(Shaders.FilmGrain, "shader_files/shading/film_grain.glsl"),
    ShaderFile(Shaders.FillFromTexture, "shader_files/shading/fill_from_texture.glsl")
  ]
  const LayerFiles: seq<ShaderFile> := [
    ShaderFile(Shaders.LayerMask, "shader_files/layer/layer_mask.glsl"),
    ShaderFile(Shaders.Overlay, "shader_files/layer/overlay.glsl"),
    ShaderFile(Shaders.Transparency, "shader_files/layer/transparency.glsl"),
    ShaderFile(Shaders.Multiply, "shader_files/layer/multiply.glsl")
  ]

  /** The whole descriptor list. */
  const ShaderFiles: seq<ShaderFile> :=
    PrimitiveFiles + BooleanFiles + TransformFiles + PostprocessingFiles + ShadingFiles + LayerFiles

  /** The table `for s in shader: lut[s.name] = s.path` leaves behind: a
      later descriptor overrides an earlier one with the same name. */
  function LutOf(fs: seq<ShaderFile>): map<string, string> {
    if fs == [] then map[] else LutOf(fs[..|fs| - 1])[fs[|fs| - 1].name := fs[|fs| - 1].path]
  }

  /** Every descriptor's name is a key of the table. */
  lemma {:induction false} LutHas(fs: seq<ShaderFile>, i: nat)
    requires i < |fs|
    ensures fs[i].name in LutOf(fs)
  {
    if i < |fs| - 1 {
      LutHas(fs[..|fs| - 1], i);
    }
  }

  /** A descriptor whose name no later descriptor repeats keeps its path. */
  lemma {:induction false} LutLookup(fs: seq<ShaderFile>, i: nat)
    requires i < |fs|
    requires forall j :: i < j < |fs| ==> fs[j].name != fs[i].name
    ensures fs[i].name in LutOf(fs) && LutOf(fs)[fs[i].name] == fs[i].path
  {
    if i < |fs| - 1 {
      LutLookup(fs[..|fs| - 1], i);
    }
  }

  /** The table has no other keys than the descriptors' names. */
  lemma {:induction false} LutKeys(fs: seq<ShaderFile>, k: string)
    requires k in LutOf(fs)
    ensures exists i :: 0 <= i < |fs| && fs[i].name == k
  {
    if fs[|fs| - 1].name != k {
      LutKeys(fs[..|fs| - 1], k);
      var i :| 0 <= i < |fs| - 1 && fs[..|fs| - 1][i].name == k;
      assert fs[i].name == k;
    }
  }

  /** Entering two lists one after the other: the entries of the second
      override those of the first. */
  lemma {:induction false} LutAppend(a: seq<ShaderFile>, b: seq<ShaderFile>)
    ensures LutOf(a + b) == LutOf(a) + LutOf(b)
  {
    if b == [] {
      assert a + b == a;
    } else {
      var b' := b[..|b| - 1];
      assert (a + b)[..|a + b| - 1] == a + b';
      LutAppend(a, b');
    }
  }

  /** The table of the whole list is the union of the tables of its groups. */
  lemma LutGroups()
    ensures LutOf(ShaderFiles)
            == LutOf(PrimitiveFiles) + LutOf(BooleanFiles) + LutOf(TransformFiles)
               + LutOf(PostprocessingFiles) + LutOf(ShadingFiles) + LutOf(LayerFiles)
  {
    var p, b, t, q, s := PrimitiveFiles, BooleanFiles, TransformFiles, PostprocessingFiles, ShadingFiles;
    LutAppend(p, b);
    LutAppend(p + b, t);
    LutAppend(p + b + t, q);
    LutAppend(p + b + t + q, s);
    LutAppend(p + b + t + q + s, LayerFiles);
  }

  // Each group of descriptors names exactly the constants of its group.

  lemma PrimitivesKeys()
    ensures LutOf(PrimitiveFiles).Keys == Shaders.Primitives
  {
    LutHas(PrimitiveFiles, 0);
    LutHas(PrimitiveFiles, 1);
    LutHas(PrimitiveFiles, 2);
    LutHas(PrimitiveFiles, 3);
    LutHas(PrimitiveFiles, 4);
    LutHas(PrimitiveFiles, 5);
    forall k | k in LutOf(PrimitiveFiles)
      ensures k in Shaders.Primitives
    {
      LutKeys(PrimitiveFiles, k);
    }
  }

  lemma BooleansKeys()
    ensures LutOf(BooleanFiles).Keys == Shaders.Booleans
  {
    LutHas(BooleanFiles, 0);
    LutHas(BooleanFiles, 1);
    LutHas(BooleanFiles, 2);
    LutHas(BooleanFiles, 3);
    LutHas(BooleanFiles, 4);
    LutHas(BooleanFiles, 5);
    forall k | k in LutOf(BooleanFiles)
      ensures k in Shaders.Booleans
    {
      LutKeys(BooleanFiles, k);
    }
  }

  lemma TransformsKeys()
    ensures LutOf(TransformFiles).Keys == Shaders.Transforms
  {
    LutHas(TransformFiles, 0);
    LutHas(TransformFiles, 1);
    forall k | k in LutOf(TransformFiles)
      ensures k in Shaders.Transforms
    {
      LutKeys(TransformFiles, k);
    }
  }

  lemma PostprocessingKeys()
    ensures LutOf(PostprocessingFiles).Keys == Shaders.Postprocessing
  {
    LutHas(PostprocessingFiles, 0);
    LutHas(PostprocessingFiles, 1);
    LutHas(PostprocessingFiles, 2);
    LutHas(PostprocessingFiles, 3);
    LutHas(PostprocessingFiles, 4);
    LutHas(PostprocessingFiles, 5);
    LutHas(PostprocessingFiles, 6);
    LutHas(PostprocessingFiles, 7);
    LutHas(PostprocessingFiles, 8);
    forall k | k in LutOf(PostprocessingFiles)
      ensures k in Shaders.Postprocessing
    {
      LutKeys(PostprocessingFiles, k);
    }
  }

  lemma ShadingKeys()
    ensures LutOf(ShadingFiles).Keys == Shaders.Shading
  {
    LutHas(ShadingFiles, 0);
    LutHas(ShadingFiles, 1);
    LutHas(ShadingFiles, 2);
    LutHas(ShadingFiles, 3);
    LutHas(ShadingFiles, 4);
    LutHas(ShadingFiles, 5);
    forall k | k in LutOf(ShadingFiles)
      ensures k in Shaders.Shading
    {
      LutKeys(ShadingFiles, k);
    }
  }

  lemma LayerKeys()
    ensures LutOf(LayerFiles).Keys == Shaders.Layer
  {
    LutHas(LayerFiles, 0);
    LutHas(LayerFiles, 1);
    LutHas(LayerFiles, 2);
    LutHas(LayerFiles, 3);
    forall k | k in LutOf(LayerFiles)
      ensures k in Shaders.Layer
    {
      LutKeys(LayerFiles, k);
    }
  }

  // Distinctness of the descriptor names, proved block by block of eleven
  // descriptors to keep each proof small.

  lemma NamesDistinct00()
    ensures forall i, j :: 0 <= i < j < 11 ==> ShaderFiles[i].name != ShaderFiles[j].name
  {
  }

  lemma NamesDistinct01()
    ensures forall i, j :: 0 <= i < 11 && 11 <= j < 22 ==> ShaderFiles[i].name != ShaderFiles[j].name
  {
  }

  lemma NamesDistinct02()
    ensures forall i, j :: 0 <= i < 11 && 22 <= j < 33 ==> ShaderFiles[i].name != ShaderFiles[j].name
  {
  }

  lemma NamesDistinct11()
    ensures forall i, j :: 11 <= i < j < 22 ==> ShaderFiles[i].name != ShaderFiles[j].name
  {
  }

  lemma NamesDistinct12()
    ensures forall i, j :: 11 <= i < 22 && 22 <= j < 33 ==> ShaderFiles[i].name != ShaderFiles[j].name
  {
  }

  lemma NamesDistinct22()
    ensures forall i, j :: 22 <= i < j < 33 ==> ShaderFiles[i].name != ShaderFiles[j].name
  {
  }

  /** The 33 descriptors carry 33 different names, so none overrides another. */
  lemma ShaderNamesDistinct()
    ensures |ShaderFiles| == 33
    ensures forall i, j :: 0 <= i < j < |ShaderFiles| ==> ShaderFiles[i].name != ShaderFiles[j].name
  {
    NamesDistinct00();
    NamesDistinct01();
    NamesDistinct02();
    NamesDistinct11();
    NamesDistinct12();
    NamesDistinct22();
  }

  /** Every kernel name the operators use is a key of the table. */
  predicate HasKernels(lut: map<string, string>) {
    && Shaders.Primitives <= lut.Keys && Shaders.Booleans <= lut.Keys
    && Shaders.Transforms <= lut.Keys && Shaders.Postprocessing <= lut.Keys
    && Shaders.Shading <= lut.Keys && Shaders.Layer <= lut.Keys
  }

  /** The table's keys are the constants of `Shaders`, every one of them
      and nothing else. */
  lemma LutHasKernels()
    ensures LutOf(ShaderFiles).Keys == Shaders.Kernels
    ensures HasKernels(LutOf(ShaderFiles))
  {
    LutGroups();
    PrimitivesKeys();
    BooleansKeys();
    TransformsKeys();
    PostprocessingKeys();
    ShadingKeys();
    LayerKeys();
  }

  /** `BLUR_VER_13 = "blur_hor_13"` names the vertical 13-tap file, and
      `BLUR_HOR_13 = "blur_vert_13"` the horizontal one. */
  lemma Blur13Paths()
    ensures Shaders.BlurVer13 in LutOf(ShaderFiles)
    ensures LutOf(ShaderFiles)[Shaders.BlurVer13] == "shader_files/postprocessing/blur13_vert.glsl"
    ensures Shaders.BlurHor13 in LutOf(ShaderFiles)
    ensures LutOf(ShaderFiles)[Shaders.BlurHor13] == "shader_files/postprocessing/blur13_hor.glsl"
  {
    ShaderNamesDistinct();
    LutLookup(ShaderFiles, 16);
    LutLookup(ShaderFiles, 17);
  }

  // ---- sizes ----

  /** One component of `local_size`: `int(n / 16 + 0.5)`. */
  function LocalSize(n: int): int {
    Trunc(n as real / 16.0 + 0.5)
  }

  /** For a non-negative size that is rounding to the nearest multiple of 16
      (`(n + 8) // 16` groups), not a ceiling. */
  lemma LocalSizeRounds(n: nat)
    ensures LocalSize(n) == (n + 8) / 16
    ensures LocalSize(n) * 16 <= n + 8 < LocalSize(n) * 16 + 16
  {
    var q := (n + 8) / 16;
    var x := n as real / 16.0 + 0.5;
    assert x == (n + 8) as real / 16.0;
    assert q as real <= x < q as real + 1.0;
  }

  /** A 500-pixel side gets 31 groups, which cover 496 pixels. */
  lemma LocalSizeExample()
    ensures LocalSize(500) == 31 && LocalSize(500) * 16 == 496
  {
    LocalSizeRounds(500);
  }

  /** The PIL mode `show_texture` picks for a texture's dtype and component
      count. */
  function ShowMode(dtype: string, components: int): (r: Result<string>)
    ensures dtype != "f1" ==> r == Success("F")
    ensures dtype == "f1" ==> (r.Success? <==> components == 3 || components == 4)
    ensures r.Failure? ==> r.error == NotImplementedError
  {
    if dtype == "f1" then
      if components == 3 then Success("RGB")
      else if components == 4 then Success("RGBA")
      else Failure(NotImplementedError)
    else Success("F")
  }

  /** Both texture formats the context allocates can be shown: fields as
      "F", colour textures as "RGBA". */
  lemma ShowModeOfFormats(f: Format)
    ensures ShowMode(f.Dtype(), f.Components()) == Success(if f.R32f? then "F" else "RGBA")
  {
  }

  // ---- the context ----

  /** `Context(size)`. Every context shares the process-wide `tex_registry`,
      held here as `registry`. */
  class Context {
    const width: int
    const height: int
    const registry: Counter
    /** `_shader_lut`: kernel name to file path. */
    const shaderLut: map<string, string>
    /** `local_size`: the work-group counts of every dispatch. */
    const localSize: (int, int, int)
    /** `_shader_cache`: the names whose program has been compiled; the
        program of such a name is the one built from its file. */
    var compiled: set<string>
    /** The files handed to `ctx.compute_shader`, in order. */
    var compilations: seq<string>
    /** The kernel runs issued through this context, oldest first. */
    var dispatches: seq<Dispatch>

    /** The table holds every kernel, only names of the table are compiled,
        and each of them was compiled exactly once. */
    ghost predicate Valid()
      reads this
    {
      HasKernels(shaderLut) && compiled <= shaderLut.Keys && |compilations| == |compiled|
    }

    /** The cache grew by exactly `names`, and the files compiled before are
        still the start of the compile record. */
    twostate predicate Cached(names: set<string>)
      reads this
    {
      compiled == old(compiled) + names && old(compilations) <= compilations
    }

    /** The call appended exactly `ds` to the log and kept the invariant. */
    twostate predicate Ran(new ds: seq<Dispatch>)
      reads this
    {
      Valid() && dispatches == old(dispatches) + ds
    }

    /** The program `get_shader(name)` hands out for a name of the table. */
    function ProgramOf(name: string): (p: Program)
      requires name in shaderLut
      reads this
      ensures p.name == name && p.path == shaderLut[name]
    {
      Program(name, shaderLut[name])
    }

    /** Builds the table from the descriptor list, with an empty cache. */
    constructor (width: int, height: int, registry: Counter)
      ensures this.width == width && this.height == height && this.registry == registry
      ensures shaderLut == LutOf(ShaderFiles)
      ensures localSize == (LocalSize(width), LocalSize(height), 1)
      ensures compiled == {} && compilations == [] && dispatches == []
      ensures Valid()
    {
      this.width := width;
      this.height := height;
      this.registry := registry;
      var lut := BuildLut();
      LutHasKernels();
      shaderLut := lut;
      localSize := (LocalSize(width), LocalSize(height), 1);
      compiled := {};
      compilations := [];
      dispatches := [];
    }

    /** The loop of `__init__` that enters every descriptor into the table. */
    static method BuildLut() returns (lut: map<string, string>)
      ensures lut == LutOf(ShaderFiles)
    {
      lut := map[];
      var i := 0;
      while i < |ShaderFiles|
        invariant 0 <= i <= |ShaderFiles|
        invariant lut == LutOf(ShaderFiles[..i])
      {
        assert ShaderFiles[..i + 1][..i] == ShaderFiles[..i];
        lut := lut[ShaderFiles[i].name := ShaderFiles[i].path];
        i := i + 1;
      }
      assert ShaderFiles[..i] == ShaderFiles;
    }

    /** `get_shader(name)`: a name already compiled is served from the cache
        without compiling again; otherwise the name's file is compiled once
        and the name cached; a name the table lacks raises KeyError. */
    method GetShader(name: string) returns (r: Result<Program>)
      requires Valid()
      modifies this
      ensures Valid() && dispatches == old(dispatches)
      ensures name !in shaderLut ==> r == Failure(KeyError) && compiled == old(compiled) && compilations == old(compilations)
      ensures name in shaderLut ==> r == Success(ProgramOf(name)) && compiled == old(compiled) + {name}
      ensures name in old(compiled) ==> compilations == old(compilations)
      ensures name in shaderLut && name !in old(compiled) ==> compilations == old(compilations) + [shaderLut[name]]
    {
      if name !in compiled {
        if name !in shaderLut {
          return Failure(KeyError);
        }
        compilations := compilations + [shaderLut[name]];
        compiled := compiled + {name};
      }
      return Success(Program(name, shaderLut[name]));
    }

    /** `get_shader` for a name of the table, as every operator calls it. */
    method Shader(name: string) returns (p: Program)
      requires Valid() && name in shaderLut
      modifies this
      ensures Valid() && dispatches == old(dispatches)
      ensures Cached({name}) && p == ProgramOf(name)
      ensures name in old(compiled) ==> compilations == old(compilations)
      ensures name !in old(compiled) ==> compilations == old(compilations) + [shaderLut[name]]
    {
      var r := GetShader(name);
      p := r.value;
    }

    /** `program.run(*local_size)` with the given image units bound and
        uniforms set; only a compiled program can run. */
    method Run(program: Program, images: seq<Binding>, uniforms: map<string, Uniform>)
      requires Valid() && program.name in compiled
      modifies this
      ensures Ran([Dispatch(program.name, images, uniforms)])
      ensures compiled == old(compiled) && compilations == old(compilations)
    {
      dispatches := dispatches + [Dispatch(program.name, images, uniforms)];
    }

    /** `r32f()`: a fresh one-channel float texture; one more live texture. */
    method R32f() returns (t: Texture)
      modifies registry
      ensures fresh(t) && t.format == Format.R32f && !t.released
      ensures registry.Bumped(1, 1)
    {
      t := new Texture(Format.R32f);
      registry.Add(1);
    }

    /** `rgba8()`: a fresh four-channel byte texture; one more live texture. */
    method Rgba8() returns (t: Texture)
      modifies registry
      ensures fresh(t) && t.format == Format.Rgba8 && !t.released
      ensures registry.Bumped(1, 1)
    {
      t := new Texture(Format.Rgba8);
      registry.Add(1);
    }

    /** `percent(a)`, the same as `percent_x(a)`: a percentage of the width. */
    function Percent(alpha: real): real {
      alpha / 100.0 * width as real
    }

    function PercentX(alpha: real): real {
      alpha / 100.0 * width as real
    }

    function PercentY(alpha: real): real {
      alpha / 100.0 * height as real
    }

    function PercentOfMin(alpha: real): real {
      alpha / 100.0 * Min(width, height) as real
    }

    /** `pt`: one hundredth of the larger side. */
    function Pt(): real {
      Max(width, height) as real * 0.01
    }

    /** The size helpers scale linearly: 100 % of an axis is that axis,
        `percent_of_min` goes by the smaller side, and 100 `pt` are the
        larger side. */
    lemma SizeHelpers(alpha: real)
      ensures PercentX(100.0) == width as real && PercentY(100.0) == height as real
      ensures PercentOfMin(alpha) == (if width <= height then PercentX(alpha) else PercentY(alpha))
      ensures alpha >= 0.0 && width >= 0 && height >= 0 ==>
                PercentOfMin(alpha) <= PercentX(alpha) && PercentOfMin(alpha) <= PercentY(alpha)
      ensures Pt() * 100.0 == Max(width, height) as real
    {
      if alpha >= 0.0 && width >= 0 && height >= 0 {
        var a := alpha / 100.0;
        assert a >= 0.0;
        assert a * Min(width, height) as real <= a * width as real;
        assert a * Min(width, height) as real <= a * height as real;
      }
    }

    /** A larger percentage never gives a smaller length, on any axis. */
    lemma PercentMonotone(alpha: real, beta: real)
      requires alpha <= beta && width >= 0 && height >= 0
      ensures Percent(alpha) <= Percent(beta)
      ensures PercentX(alpha) <= PercentX(beta) && PercentY(alpha) <= PercentY(beta)
      ensures PercentOfMin(alpha) <= PercentOfMin(beta)
    {
      var a, b := alpha / 100.0, beta / 100.0;
      assert a <= b;
      assert a * width as real <= b * width as real;
      assert a * height as real <= b * height as real;
      assert a * Min(width, height) as real <= b * Min(width, height) as real;
    }
  }
}
