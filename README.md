# sdf_ui host-side core, modelled in Dafny

sdf_ui builds 2D pictures from signed distance fields (SDFs) on the GPU.
Python decides which compute kernel runs, which textures it binds to which
image units, and which colour-space tag the result carries. The GLSL kernels
then do the pixel work. This project models that Python layer and proves
what it guarantees. It leaves kernel outputs uninterpreted.

The modules follow the package:

- `Common` (`common.dfy`): the Python exceptions that can occur (`Error`), a
  `Result` type with `:-` propagation, points, and Python's `int()` on floats
  (`Trunc`, truncation toward zero).
- `Util` (`util.dfy`), `src/sdf_ui/core/util.py`:
  - `rgb_col` and `hex_col`, including what Python's `int(s, 16)` accepts
    of ASCII text (surrounding ASCII white space, a sign);
  - `collinear`, with its 1e-9 tolerance.
- `Ascii` (`ascii.dfy`), `src/sdf_ui/ascii.py`:
  - `'%02x%02x%02x' % rgb[:3]`;
  - the 70- and 10-character symbol tables and the symbol index;
  - the cell grid of `convert_image_to_ascii` and
    `convert_image_to_ascii_colored`, including its `ZeroDivisionError` and
    `exit(0)` paths and the ValueError of a cell whose crop box is empty.
    Both converters are methods with the source's nested loops. They return the rows instead of printing them. The image
    averages come in as functions of the cell box.
- `Shaders` and `RenderContext` (`rendercontext.dfy`), `src/sdf_ui/context.py`:
  - the kernel names, the descriptor list and the name-to-path table built
    from it;
  - `Counter` (the texture registry, with its high-water mark);
  - the `Context` class: lazy compile cache, `local_size`, `r32f`/`rgba8`,
    the size helpers;
  - the mode choice of `show_texture`.
  
  Every `program.run` is recorded in `Context.dispatches` as a kernel name,
  the image bindings in effect and the uniforms set. Contracts can then state
  pass counts, binding order and uniforms exactly. Every `ctx.compute_shader`
  call is recorded in `Context.compilations`. The context's invariant says
  that this record is as long as the cache: no kernel is compiled twice.
- `Core` (`core.dfy`), `src/sdf_ui/core.py`:
  - `ColorTexture` (with its `ColorSpaceMode`) and `SDFTexture` as classes;
  - every operator, including the blur ping-pong loop of `blur_9`/`blur_13`;
  - the primitive factories and the gradients.
  
  Each operator's contract gives:
  - the dispatches it appends;
  - the kernels it adds to the compile cache (exactly the kernels it runs);
    earlier compilations stay a prefix of the record;
  - the fresh textures it allocates;
  - the result's mode tag;
  - the registry's net change and peak;
  - the `TypeError` of `_check_type`.
- `Text` (`text.dfy`), `src/sdf_ui/text.py`:
  - `middle`;
  - the contour post-processing of `get_glyph` (midpoint insertion and
    three-point windows);
  - the `glyph_sdf` fold, including the `IndexError`/`AttributeError` that
    degenerate contours raise in the source.

The source's textures are freed by `__del__` when their last reference
goes. The model makes each release an explicit `Release` call, at the point
where CPython's reference counting drops the temporary. Examples are the
intermediate texture of `a.f().g()` and the superseded union in
`glyph_sdf`. The process-wide `tex_registry` is the `Counter` that every
`Context` holds.

Notes on the code:

- `local_size` is `int(w / 16 + 0.5)`, which rounds to the nearest integer.
  It is not a ceiling.
- No operator compares the colour-space tags of its operands: `_mode_equal`
  exists but is never called.
- `blur` takes the 13-tap kernels only for `base == 13`. Every other `base`
  takes the 9-tap ones.

## Model

| member | source | states |
|---|---|---|
| Util.Normalized | src/sdf_ui/core/util.py:23-25 | every component of the result, times 255, is the input component; the length is kept |
| Util.RgbCol | src/sdf_ui/core/util.py:5-25 | the tuple has 3 + len(a) entries: r, g, b and then each extra alpha, each divided by 255 |
| Util.LStripHash | src/sdf_ui/core/util.py:44 | the result is a suffix of the input that does not start with '#', and everything dropped was '#' |
| Util.HexValue | src/sdf_ui/core/util.py:45 | a hex digit's value is below 16 |
| Util.HexValueDigit | src/sdf_ui/core/util.py:45 | a hex digit with value v is character v of `0123456789abcdef` or of `0123456789ABCDEF` |
| Util.StripSpace | src/sdf_ui/core/util.py:45 | the result is no longer than the input and neither starts nor ends with white space |
| Util.LeadingSpaces | src/sdf_ui/core/util.py:45 | the leading white-space run is no longer than the text |
| Util.StripSpaceInfix | src/sdf_ui/core/util.py:45 | the stripped text is the infix of the input that starts after its leading white space, and everything after it is white space |
| Util.InfixAfterSpace | src/sdf_ui/core/util.py:45 | a leading white-space character shifts the stripped infix by one |
| Util.InfixBeforeSpace | src/sdf_ui/core/util.py:45 | a trailing white-space character leaves the stripped infix in place |
| Util.ParseInt16 | src/sdf_ui/core/util.py:45 | `int(g, 16)` on an all-hex-digit string is its base-16 value; every failure is ValueError |
| Util.ParseInt16Exact | src/sdf_ui/core/util.py:45 | `int(g, 16)` succeeds exactly when the stripped text is hex digits, optionally after one sign; the value is the base-16 value, negated after '-' |
| Util.StrayFails | src/sdf_ui/core/util.py:45 | a character that is neither a hex digit, white space nor a sign anywhere in the text makes `int(g, 16)` raise ValueError |
| Util.StrayPairs | src/sdf_ui/core/util.py:45 | a stray character among the six after the '#'s spoils one of the three pairs |
| Util.HexCol | src/sdf_ui/core/util.py:28-46 | a success has four components, the last being alpha/255; a failure is ValueError; at most four characters after the '#'s always fail |
| Util.HexColSucceeds | src/sdf_ui/core/util.py:44-46 | `hex_col` succeeds exactly when all three of its two-character pairs parse |
| Util.HexColStray | src/sdf_ui/core/util.py:44-46 | a stray character among the six after the '#'s (as in `"#zz0000"`) makes `hex_col` raise ValueError |
| Util.HexColDigits | src/sdf_ui/core/util.py:44-46 | any number of leading '#'s, six hex digits and any tail give the three two-digit channel values over 255, plus alpha/255 |
| Util.StripHashes | src/sdf_ui/core/util.py:44 | `lstrip("#")` removes exactly the leading run of '#'s |
| Util.PairValue | src/sdf_ui/core/util.py:45 | the slice `g[i:i+2]` of two hex digits parses to 16·hi + lo |
| Util.HexColDefaultAlpha | src/sdf_ui/core/util.py:28 | with the default alpha 255, the fourth component of a parsed colour is 1.0 |
| Util.CollinearSymmetric | src/sdf_ui/core/util.py:66-68 | the collinearity test does not depend on the order of the three points (swap and rotation) |
| Util.CollinearCoincident | src/sdf_ui/core/util.py:66-68 | two coincident points are collinear with any third |
| Util.CollinearExample | src/sdf_ui/core/util.py:61-64 | `collinear(0, 0, 1, 1, 2, 2)` holds, as the docstring shows |
| Ascii.HexDigit | src/sdf_ui/ascii.py:62 | a digit below 16 becomes a lower-case hex character whose value is that digit |
| Ascii.HexNumeral | src/sdf_ui/ascii.py:62 | the lower-case base-16 numeral of n reads back as n; it has one digit below 16, two below 256, more above |
| Ascii.Format02x | src/sdf_ui/ascii.py:62 | `%02x` of 0..255 is exactly two lower-case digits with that value; negatives start with '-'; 256 and above are longer |
| Ascii.RgbToHex | src/sdf_ui/ascii.py:48-62 | formatting succeeds exactly when the tuple has at least three entries, else TypeError |
| Ascii.RgbToHexFirstThree | src/sdf_ui/ascii.py:62 | entries after the third (alpha) do not change the result |
| Ascii.RgbToHexBytes | src/sdf_ui/ascii.py:62 | for channels in 0..255 the result is six lower-case hex digits whose pairs are r, g and b |
| Ascii.HexRoundTrip | src/sdf_ui/ascii.py:62 | `hex_col("#" + rgb_to_hex(rgb))` gives back r/255, g/255, b/255 and alpha 1.0 |
| Ascii.HexColOfSix | src/sdf_ui/core/util.py:44-46 | `hex_col` of '#' and six hex digits succeeds with the three pair values over 255 |
| Ascii.TableSizes | src/sdf_ui/ascii.py:82-83 | the high-resolution table has 70 symbols and the low-resolution one 10 |
| Ascii.SymbolIndex | src/sdf_ui/ascii.py:132-134 | `int(avg * levels / 255)` lies in 0..levels for avg in 0..255, is 0 at black and `levels` at white |
| Ascii.ScaledBounds | src/sdf_ui/ascii.py:132-134 | the unrounded index `avg * levels / 255` lies between 0 and levels |
| Ascii.Symbol | src/sdf_ui/ascii.py:131-134 | the symbol comes from the table `more_levels` selects; black gives its first and white its last symbol |
| Ascii.LayoutOf | src/sdf_ui/ascii.py:98-107 | zero columns, zero scale or zero width raise ZeroDivisionError; otherwise the grid fits the image or the call exits; a positive grid has cells at least one pixel wide that span the width, and rows that fit in the height |
| Ascii.LayoutBounds | src/sdf_ui/ascii.py:100-103 | cell width times columns is the image width; rows times cell height is at most the image height |
| Ascii.SpanOrdered | src/sdf_ui/ascii.py:110-123 | each cell's start is at most its end |
| Ascii.SpanBounds | src/sdf_ui/ascii.py:110-123 | the unrounded cell starts are non-negative, increasing, and the last one is within the image |
| Ascii.SpansTile | src/sdf_ui/ascii.py:110-123 | cells start at 0, each ends where the next begins, and the last ends at the image edge |
| Ascii.SpanFirst | src/sdf_ui/ascii.py:111 | the first cell starts at pixel 0 |
| Ascii.SpanJoin | src/sdf_ui/ascii.py:111-112 | cell k ends exactly where cell k+1 starts |
| Ascii.SpansPartition | src/sdf_ui/ascii.py:110-123 | every pixel of the image lies in exactly one cell |
| Ascii.InnerColumnWide | src/sdf_ui/ascii.py:120-121 | an inner column is at least one pixel wide |
| Ascii.LastColumnWide | src/sdf_ui/ascii.py:120-123 | the last column, stretched to the edge, is at least one pixel wide |
| Ascii.ColumnWide | src/sdf_ui/ascii.py:119-123 | every column is at least one pixel wide |
| Ascii.ColumnsTile | src/sdf_ui/ascii.py:119-123 | the columns are non-empty and tile the width exactly |
| Ascii.RowsTile | src/sdf_ui/ascii.py:110-115 | the rows tile the height exactly, the last one stretched to the bottom |
| Ascii.CellsTile | src/sdf_ui/ascii.py:98-123 | for every layout the converter accepts, the columns tile the width and the rows tile the height |
| Ascii.ConvertImageToAscii | src/sdf_ui/ascii.py:147-212 | layout errors are passed on; a grid with an empty cell box raises ValueError; otherwise there is one row per grid row, and each row holds, per column, the symbol of that cell's average luminance |
| Ascii.AsciiRow | src/sdf_ui/ascii.py:195-209 | row j raises ValueError exactly when one of its cell boxes is empty; otherwise it holds, per column, the symbol of the luminance of the cell box the tiling gives |
| Ascii.ColoredCell | src/sdf_ui/ascii.py:131-139 | `as_background` picks a background cell exactly; the colour is the cell's average colour; a foreground cell carries the luminance symbol |
| Ascii.CellHex | src/sdf_ui/ascii.py:137-139 | the escape code's colour name is six lower-case hex digits encoding the cell's r, g, b |
| Ascii.ConvertImageToAsciiColored | src/sdf_ui/ascii.py:65-144 | layout errors are passed on; a grid with an empty cell box raises ValueError; otherwise there is one row of cells per grid row, each cell built from its box's luminance and colour |
| Ascii.ColoredRow | src/sdf_ui/ascii.py:119-141 | row j raises ValueError exactly when one of its cell boxes is empty; otherwise it holds, per column, the coloured cell of that column's box |
| Ascii.RowWide | src/sdf_ui/ascii.py:110-115 | a row whose height is at least one pixel is non-empty |
| Ascii.NoEmptyCells | src/sdf_ui/ascii.py:98-128 | for an accepted layout whose cells are at least one pixel high, no crop box is empty, so the converters cannot raise ValueError |
| Ascii.ThinRowsFail | src/sdf_ui/ascii.py:98-128 | a 10 x 10 image with ten columns at scale 1.05 passes the layout checks but its row 0 is empty, so the converters raise ValueError |
| RenderContext.Counter.constructor | src/sdf_ui/context.py:70-81 | a new counter holds the given value and name, and its maximum starts at 0 whatever the value |
| RenderContext.Counter.Add | src/sdf_ui/context.py:89-108 | `+ k` adds k to the value and raises the maximum to the new value if it is larger |
| RenderContext.Counter.Sub | src/sdf_ui/context.py:110-127 | `- k` subtracts k and leaves the maximum unchanged |
| RenderContext.NewTexRegistry | src/sdf_ui/context.py:165 | the module registry starts at value 0, maximum 0, name TEX_REGISTRY |
| RenderContext.DecreaseTexRegistry | src/sdf_ui/context.py:168-174 | the registry value drops by exactly one and its maximum is kept |
| RenderContext.Texture.constructor | src/sdf_ui/context.py:394-432 | a new texture has the requested format and is live |
| RenderContext.Texture.Release | src/sdf_ui/core.py:47 | a released texture is marked released |
| RenderContext.LutHas | src/sdf_ui/context.py:247-248 | every descriptor's name is a key of the table |
| RenderContext.LutLookup | src/sdf_ui/context.py:247-248 | a name no later descriptor repeats maps to that descriptor's path |
| RenderContext.LutKeys | src/sdf_ui/context.py:247-248 | every key of the table is the name of some descriptor |
| RenderContext.LutAppend | src/sdf_ui/context.py:247-248 | the table of two descriptor lists in sequence is the first table overridden by the second |
| RenderContext.LutGroups | src/sdf_ui/context.py:200-248 | the table is the union of the six groups' tables (primitives, booleans, transforms, postprocessing, shading, layer) |
| RenderContext.PrimitivesKeys | src/sdf_ui/context.py:202-207 | the SDF primitive descriptors cover exactly the six primitive kernels |
| RenderContext.BooleansKeys | src/sdf_ui/context.py:210-215 | the boolean descriptors cover exactly the six boolean kernels |
| RenderContext.TransformsKeys | src/sdf_ui/context.py:218-219 | the transform descriptors cover exactly abs and repeat |
| RenderContext.PostprocessingKeys | src/sdf_ui/context.py:222-230 | the postprocessing descriptors cover exactly the nine postprocessing kernels |
| RenderContext.ShadingKeys | src/sdf_ui/context.py:233-238 | the shading descriptors cover exactly the six shading kernels |
| RenderContext.LayerKeys | src/sdf_ui/context.py:241-244 | the layer descriptors cover exactly the four layer kernels |
| RenderContext.ShaderNamesDistinct | src/sdf_ui/context.py:16-63 | the 33 descriptors carry 33 pairwise different kernel names |
| RenderContext.LutHasKernels | src/sdf_ui/context.py:200-248 | the table's keys are exactly the kernel names of `Shaders` |
| RenderContext.Blur13Paths | src/sdf_ui/context.py:43-44 | despite the swapped name strings of BLUR_VER_13/BLUR_HOR_13, the vertical one maps to blur13_vert.glsl and the horizontal one to blur13_hor.glsl |
| RenderContext.LocalSizeRounds | src/sdf_ui/context.py:252-254 | `int(w / 16 + 0.5)` is w/16 rounded to the nearest integer (halves up) |
| RenderContext.LocalSizeExample | src/sdf_ui/context.py:252-254 | a 500-pixel side gives 31 work groups, covering only 496 pixels |
| RenderContext.ShowMode | src/sdf_ui/context.py:469-476 | non-byte textures show as "F"; byte textures show with 3 or 4 components and raise NotImplementedError otherwise |
| RenderContext.ShowModeOfFormats | src/sdf_ui/context.py:469-476 | an r32f texture shows as "F" and an rgba8 texture as "RGBA" |
| RenderContext.Context.ProgramOf | src/sdf_ui/context.py:311-315 | the program for a name is compiled from that name's table path |
| RenderContext.Context.constructor | src/sdf_ui/context.py:194-254 | a new context has the table built from the descriptors, an empty cache, no dispatches, the rounded local size, and every kernel in its table |
| RenderContext.Context.BuildLut | src/sdf_ui/context.py:247-248 | the descriptor loop produces the name-to-path table |
| RenderContext.Context.GetShader | src/sdf_ui/context.py:296-318 | a cached name is served without compiling; an uncached name of the table compiles its file once and is cached; an unknown name raises KeyError; the cache only grows |
| RenderContext.Context.Shader | src/sdf_ui/context.py:296-318 | for a kernel of the table, the cache grows by exactly that name and its program is returned; a name already cached compiles nothing, an uncached one appends its file to the compile record once |
| RenderContext.Context.Run | src/sdf_ui/core.py:252-254 | a run appends exactly one dispatch, with the bindings and uniforms in effect; it compiles nothing and leaves the cache as it was |
| RenderContext.KernelsOfAppend | src/sdf_ui/core.py:252-254 | the kernels run by two logs in sequence are the kernels of either log |
| RenderContext.Context.R32f | src/sdf_ui/context.py:394-412 | a fresh live r32f texture; the registry rises by exactly one |
| RenderContext.Context.Rgba8 | src/sdf_ui/context.py:414-432 | a fresh live rgba8 texture; the registry rises by exactly one |
| RenderContext.Context.SizeHelpers | src/sdf_ui/context.py:320-391 | 100 % of an axis is that axis; `percent_of_min` follows the smaller side and is at most both; 100 `pt` is the larger side |
| RenderContext.Context.PercentMonotone | src/sdf_ui/context.py:320-382 | for non-negative sides, a larger percentage never gives a smaller length from `percent`, `percent_x`, `percent_y` or `percent_of_min` |
| Core.BlurLogShape | src/sdf_ui/core.py:128-146 | the blur log has 2(n+1) passes alternating vertical/horizontal, writing tex0/tex1 on unit 0; the first reads the source on unit 1 and every later one reads the previous pass's output |
| Core.BlurKernels | src/sdf_ui/core.py:223-229 | base 13 selects the 13-tap pair; every other base selects the 9-tap pair |
| Core.ConvertLogSize | src/sdf_ui/core.py:221 | the conversion before blurring is one dispatch unless the texture is already RGB |
| Core.ColorTexture.constructor | src/sdf_ui/core.py:29-32 | the wrapper keeps its texture, context and mode (LAB by default) |
| Core.ColorTexture.Release | src/sdf_ui/core.py:39-48 | `__del__` releases the texture and lowers the registry by exactly one |
| Core.ColorTexture.CheckType | src/sdf_ui/core.py:50-66 | succeeds exactly for a colour texture and raises TypeError for anything else |
| Core.ColorTexture.ModeEqual | src/sdf_ui/core.py:68-70 | succeeds exactly when the two modes are equal, else TypeError |
| Core.ColorTexture.FirstPasses | src/sdf_ui/core.py:120-136 | both programs are fetched, two fresh rgba8 textures are allocated, and the first vertical and horizontal passes run |
| Core.ColorTexture.BlurPasses | src/sdf_ui/core.py:138-145 | the loop appends n further vertical/horizontal pairs ping-ponging between tex0 and tex1 (none for n ≤ 0) |
| Core.ColorTexture.SeparableBlur | src/sdf_ui/core.py:106-202 | n+1 alternating pass pairs; the result wraps tex1 with the source's mode; tex0 is released; the registry nets +1 with peak +2 |
| Core.ColorTexture.Blur9 | src/sdf_ui/core.py:106-153 | `blur_9`: the separable blur with the 9-tap kernels |
| Core.ColorTexture.Blur13 | src/sdf_ui/core.py:155-202 | `blur_13`: the separable blur with the 13-tap kernels |
| Core.ColorTexture.AsRgb | src/sdf_ui/core.py:221 | an RGB texture is used as is, with no dispatch and no allocation; otherwise one `to_rgb` gives a fresh RGB texture |
| Core.ColorTexture.Blur | src/sdf_ui/core.py:205-231 | the result is a fresh LAB texture; the log is the optional RGB conversion, the selected kernels' blur passes and one `to_lab`; the intermediate textures are released; the registry nets +1 |
| Core.ColorTexture.BlurToLab | src/sdf_ui/core.py:223-231 | the blur passes followed by `to_lab` of the blurred texture, whose wrapper is then dropped |
| Core.ColorTexture.ToLab | src/sdf_ui/core.py:236-258 | one to_lab dispatch (dest 0, self 1), a fresh LAB result, registry +1 |
| Core.ColorTexture.ToRgb | src/sdf_ui/core.py:260-282 | one to_rgb dispatch (dest 0, self 1), a fresh RGB result, registry +1 |
| Core.ColorTexture.Dithering | src/sdf_ui/core.py:285-308 | one dithering dispatch, a fresh result with self's mode |
| Core.ColorTexture.Dither1Bit | src/sdf_ui/core.py:311-334 | one dither_1bit dispatch, a fresh result with self's mode |
| Core.ColorTexture.Mask | src/sdf_ui/core.py:336-371 | a non-colour top or mask raises TypeError with nothing changed; otherwise one layer_mask dispatch binding dest 0, self 1, top 2, mask 3, with self's mode |
| Core.ColorTexture.Multiply | src/sdf_ui/core.py:373-405 | a non-colour operand raises TypeError; otherwise one multiply dispatch binding dest 0, self 1, other 2, with self's mode |
| Core.ColorTexture.AlphaOverlay | src/sdf_ui/core.py:407-437 | a non-colour operand raises TypeError; otherwise one overlay dispatch binding dest 0, other 1, self 2, with self's mode |
| Core.ColorTexture.Transparency | src/sdf_ui/core.py:439-466 | one transparency dispatch with the given alpha, with self's mode |
| Core.ColorTexture.Invert | src/sdf_ui/core.py:468-491 | one invert dispatch in which the source alone is bound to unit 1 write-only; self's mode is kept |
| Core.NewColorTexture | src/sdf_ui/core.py:29-48 | with a context the wrapper is built unchanged; without one, ValueError, and the half-built object's `__del__` still releases the texture and lowers the registry |
| Core.SDFTexture.constructor | src/sdf_ui/core.py:503-506 | the wrapper keeps its texture and context |
| Core.SDFTexture.Release | src/sdf_ui/core.py:511-516 | `__del__` releases the texture and lowers the registry by exactly one |
| Core.SDFTexture.CheckType | src/sdf_ui/core.py:554-572 | succeeds exactly for a distance field and raises TypeError for anything else |
| Core.SDFTexture.SmoothUnion | src/sdf_ui/core.py:601-633 | a non-field operand raises TypeError with nothing changed; otherwise one smooth_min dispatch binding dest 0, self 1, other 2, with the smoothness k |
| Core.SDFTexture.Union | src/sdf_ui/core.py:635-665 | TypeError for a non-field; otherwise one union dispatch binding dest 0, self 1, other 2 into a fresh r32f field |
| Core.SDFTexture.MaskedUnion | src/sdf_ui/core.py:667-704 | TypeError for a non-field; otherwise one masked_union dispatch binding field 0, mask 1 (write-only), self 2, other 3; it returns a fresh field and a fresh RGB mask; registry +2 |
| Core.SDFTexture.Subtract | src/sdf_ui/core.py:706-736 | TypeError for a non-field; otherwise one subtract dispatch binding dest 0, self 1, other 2 |
| Core.SDFTexture.Intersection | src/sdf_ui/core.py:738-768 | TypeError for a non-field; otherwise one intersection dispatch binding dest 0, self 1, other 2 |
| Core.SDFTexture.Or | src/sdf_ui/core.py:518-528 | `a \| b` behaves exactly as `union` |
| Core.SDFTexture.And | src/sdf_ui/core.py:530-540 | `a & b` behaves exactly as `intersection` |
| Core.SDFTexture.Sub | src/sdf_ui/core.py:542-552 | `a - b` behaves exactly as `subtract` |
| Core.SDFTexture.Abs | src/sdf_ui/core.py:771-793 | one abs dispatch (dest 0, self 1) into a fresh field |
| Core.SDFTexture.Repeat | src/sdf_ui/core.py:795-818 | one repeat dispatch with the period s into a fresh field |
| Core.SDFTexture.Fill | src/sdf_ui/core.py:821-859 | one fill dispatch with the colours and thresholds; the result is a fresh LAB texture |
| Core.SDFTexture.FillFromTexture | src/sdf_ui/core.py:861-894 | a fresh rgba8 is allocated first; a colour layer gives a result tagged with the layer's mode after one fill_from_texture dispatch (dest 0, layer 1, self 2); a field layer still dispatches but raises AttributeError on `layer.mode`; any other value raises AttributeError before dispatching |
| Core.SDFTexture.Outline | src/sdf_ui/core.py:896-929 | one outline dispatch; the result is a fresh LAB texture |
| Core.SDFTexture.GenerateMask | src/sdf_ui/core.py:932-948 | a fill with the colours swapped, then to_rgb; the result is RGB and the intermediate texture is released |
| Core.SDFTexture.BlurredMask | src/sdf_ui/core.py:950-964 | the first part of `shadow`: the mask (transparent fill, to_rgb), a 9-tap blur with n = distance and to_lab; a fresh LAB texture; the mask and the blur's intermediates released; exactly fill, to_rgb, both 9-tap kernels and to_lab added to the cache |
| Core.SDFTexture.Shadow | src/sdf_ui/core.py:950-967 | the mask (transparent fill, to_rgb), a 9-tap blur with n = distance, to_lab, then transparency; a fresh LAB result; every intermediate released; registry nets +1; the cache grows by exactly those six kernels |
| Core.NewSDFTexture | src/sdf_ui/core.py:503-516 | with a context the wrapper is built; without one, ValueError, and `__del__` releases the texture and lowers the registry |
| Core.RoundedRect | src/sdf_ui/core.py:1009-1043 | one rect dispatch with centre, size, corner radii and angle into a fresh field |
| Core.Disc | src/sdf_ui/core.py:1046-1074 | one circle dispatch with centre and radius into a fresh field |
| Core.Triangle | src/sdf_ui/core.py:1077-1114 | one triangle dispatch with the three points into a fresh field |
| Core.Bezier | src/sdf_ui/core.py:1116-1147 | one bezier dispatch with the three control points into a fresh field |
| Core.Line | src/sdf_ui/core.py:1150-1178 | one line dispatch with the two end points into a fresh field |
| Core.Grid | src/sdf_ui/core.py:1181-1212 | one grid dispatch with size, offset and angle into a fresh field |
| Core.ClearColor | src/sdf_ui/core.py:1215-1239 | one clear_color dispatch; the result is LAB |
| Core.PerlinNoise | src/sdf_ui/core.py:1242-1261 | one perlin_noise dispatch; the result is RGB |
| Core.FilmGrain | src/sdf_ui/core.py:1264-1284 | one film_grain dispatch; the result is RGB |
| Core.GradientEnds | src/sdf_ui/core.py:1308-1318 | with d = a − b, the line runs from (ax+dx, ax−dy) to (ax−dx, ay+dy), the second coordinate taken from ax as written |
| Core.GradientEndsCentre | src/sdf_ui/core.py:1311-1318 | the segment's x midpoint is ax; its y midpoint is ay only when ax = ay |
| Core.GradientEndsSpan | src/sdf_ui/core.py:1311-1321 | when ax = ay the segment is twice (dx, −dy) long, so its length squared is 4(dx² + dy²) |
| Core.LinearGradient | src/sdf_ui/core.py:1287-1321 | line, abs, then fill with inflate 0, inner 0 and outer = \|a − b\|; a fresh LAB result; both intermediates released |
| Core.RadialGradient | src/sdf_ui/core.py:1324-1345 | a disc of radius 0 at a, then fill with inner/outer; a fresh LAB result; the disc released |
| Text.Middle | src/sdf_ui/text.py:9-20 | the midpoint is the average of the two points in each coordinate |
| Text.MiddleSymmetric | src/sdf_ui/text.py:20 | the midpoint does not depend on the order of the points |
| Text.MiddleSame | src/sdf_ui/text.py:20 | the midpoint of a point with itself is that point |
| Text.PosStep | src/sdf_ui/text.py:44-52 | each input point is placed one or two slots after the previous one, two when a midpoint is inserted before it |
| Text.InterpLength | src/sdf_ui/text.py:42-52 | the interpolated contour has one entry per point plus one per equal-flag pair |
| Text.InterpPoints | src/sdf_ui/text.py:42-52 | every original point appears, in order, at its computed position |
| Text.InterpMidpoints | src/sdf_ui/text.py:44-51 | before each point whose flag equals its predecessor's stands the midpoint of the two |
| Text.InterpShape | src/sdf_ui/text.py:42-52 | length, original points and inserted midpoints of the interpolated contour together |
| Text.InterpolatedStart | src/sdf_ui/text.py:42 | the interpolated contour starts with the contour's first point |
| Text.InterpolateContour | src/sdf_ui/text.py:41-54 | an empty contour raises IndexError; otherwise the loop produces the interpolated contour |
| Text.WindowsShape | src/sdf_ui/text.py:58-62 | len/2 windows; window k starts at point 2k; all but possibly the last have three points; consecutive windows share an end point |
| Text.ChunkContour | src/sdf_ui/text.py:58-64 | the chunking loop yields exactly the windows `contour[i:i+3]` for even i < len − 1 |
| Text.GetGlyph | src/sdf_ui/text.py:39-66 | the whole post-processing: interpolate every contour, then chunk each; an empty contour raises IndexError |
| Text.PlaceMiddle | src/sdf_ui/text.py:88-90 | placing (scale, offset) commutes with taking the midpoint |
| Text.StraightStroke | src/sdf_ui/text.py:88-95 | a window whose middle point is the midpoint of its ends is drawn as a line between the placed ends |
| Text.MidpointArea | src/sdf_ui/text.py:92 | an end, the midpoint and the other end have zero area, so the collinear test holds |
| Text.FlattenAppend | src/sdf_ui/text.py:86-87 | the strokes of two shape lists in sequence are the first list's strokes, then the second's |
| Text.FirstShort | src/sdf_ui/text.py:86-90 | the first stroke with fewer than three points (where `stroke[2]` raises), or the end |
| Text.LogShape | src/sdf_ui/text.py:86-100 | the fold's log: the first stroke's draw, then per later stroke its draw and one union of the running result (unit 1) with it (unit 2) |
| Text.DrawStroke | src/sdf_ui/text.py:92-95 | a non-collinear window draws a bezier and a collinear one a line, into a fresh field |
| Text.Accumulate | src/sdf_ui/text.py:100 | `union_sdf.union(bezier_sdf)` runs one union; the old running result and the previous stroke's field are released |
| Text.Start | src/sdf_ui/text.py:97-98 | the first stroke's field becomes the running result |
| Text.Extend | src/sdf_ui/text.py:99-100 | a later stroke is drawn and unioned into the running result, keeping the fold's invariant; the cache grows by the stroke's kernel and the union kernel |
| Text.ExtendKernels | src/sdf_ui/text.py:97-100 | after a later turn, the cache is the starting cache plus the kernels of every run of the fold so far, and the compile record still starts with the starting record |
| Text.Turn | src/sdf_ui/text.py:92-100 | one loop body: the first stroke starts the fold, every later one extends it |
| Text.PlanShort | src/sdf_ui/text.py:86-90 | a stroke with fewer than three points ends the fold with IndexError after the strokes before it |
| Text.PlanNoUnion | src/sdf_ui/text.py:97-100 | when the first shape is empty, the first stroke (ix > 0, iy = 0) calls `union` on None: AttributeError |
| Text.PlanComplete | src/sdf_ui/text.py:84-102 | when every stroke has three points and the first shape is non-empty, all strokes are folded successfully |
| Text.FoldEmpty | src/sdf_ui/text.py:84-102 | with no strokes, the fold returns None (or the planned error) with nothing dispatched |
| Text.FoldFailed | src/sdf_ui/text.py:86-100 | an error mid-fold returns that error after the dispatches of the strokes drawn so far |
| Text.FoldDone | src/sdf_ui/text.py:84-102 | a completed fold returns the last union with the dispatch log of all strokes, and the registry up by one |
| Text.Step | src/sdf_ui/text.py:86-100 | one iteration either draws the next stroke and keeps the loop invariant, or stops with the planned error |
| Text.Finish | src/sdf_ui/text.py:100-102 | at the end, only the running result stays live: registry up by one against the start |
| Text.FoldStrokes | src/sdf_ui/text.py:84-102 | the fold's result, dispatch log and registry change are those the plan of the strokes determines: None for no strokes, the planned error, or the union of all strokes with a net +1 and a known peak; the cache grows by exactly the kernels of the fold's runs |
| Text.GlyphSdf | src/sdf_ui/text.py:69-102 | an empty contour raises IndexError with nothing dispatched; otherwise the glyph's windows are folded as above |

The contracts above are stated with these definitions, which model the
source directly and carry no contract of their own:

- `Util.Area2`, `Util.Collinear` (src/sdf_ui/core/util.py:66-68): the area
  expression and its 1e-9 test; see `Util.CollinearSymmetric`,
  `Util.CollinearCoincident`, `Util.CollinearExample`, `Text.MidpointArea`.
- `RenderContext.LocalSize` (src/sdf_ui/context.py:252-254): `int(w / 16 +
  0.5)`; see `RenderContext.LocalSizeRounds`, `RenderContext.LocalSizeExample`.
- `RenderContext.Context.Percent`, `PercentX`, `PercentY`, `PercentOfMin`,
  `Pt` (src/sdf_ui/context.py:320-391); see `RenderContext.Context.SizeHelpers`,
  `RenderContext.Context.PercentMonotone`.
- `RenderContext.LutOf` (src/sdf_ui/context.py:247-248): the dict the
  descriptor loop builds; see `RenderContext.LutHas`, `LutLookup`, `LutKeys`,
  `LutAppend`, `RenderContext.Context.BuildLut`.
- `Ascii.Span`, `Ascii.CellBox`, `Ascii.EmptyBox` (src/sdf_ui/ascii.py:110-128):
  a cell's pixel range, its crop box, and a box with no pixel; see
  `Ascii.SpansPartition`, `Ascii.CellsTile`, `Ascii.AsciiRow`,
  `Ascii.NoEmptyCells`, `Ascii.ThinRowsFail`.
- `Text.InterpPrefix`, `Text.Interpolated` (src/sdf_ui/text.py:42-54): the
  midpoint insertion; see `Text.InterpShape`, `Text.InterpolateContour`.
- `Text.Windows` (src/sdf_ui/text.py:58-63): the three-point windows; see
  `Text.WindowsShape`, `Text.ChunkContour`.
- `Text.Place`, `Text.StrokeOf` (src/sdf_ui/text.py:88-95): the scaled
  control points and the bezier-or-line choice; see `Text.PlaceMiddle`,
  `Text.StraightStroke`, `Text.DrawStroke`.
- `Text.PlanOf` (src/sdf_ui/text.py:84-102): the outcome of the `glyph_sdf`
  fold; see `Text.FoldStrokes`, `Text.PlanShort`, `Text.PlanNoUnion`,
  `Text.PlanComplete`.
- `Core.BlurPair`, `Core.Repeats`, `Core.BlurLog` (src/sdf_ui/core.py:128-146):
  the dispatches of the blur passes; see `Core.BlurLogShape`,
  `Core.ColorTexture.SeparableBlur`.
- `RenderContext.KernelsOf` (src/sdf_ui/context.py:296-318): the kernels a
  dispatch log names, which are the names `get_shader` was asked for; see
  `RenderContext.KernelsOfAppend`, `Text.ExtendKernels`, `Text.FoldStrokes`.
- `Core.ConvertKernels` (src/sdf_ui/core.py:221): the kernel the conversion
  of `blur` looks up, none for an RGB texture; see `Core.ColorTexture.AsRgb`,
  `Core.ColorTexture.Blur`.
- `Core.FillUniforms` (src/sdf_ui/core.py:843-850): the uniforms `fill`
  sets; see `Core.SDFTexture.Fill`.

## Left out

- GPU execution: kernel sources and their pixel results are uninterpreted; a
  dispatch is recorded, not computed. `bind_to_image` is recorded as part of
  the dispatch it precedes; binding state between dispatches is not modelled.
- I/O: reading shader files, `texture_from_image`, `show`/`save`,
  `print_texture`, `show_texture`'s image display (only its mode choice is
  modelled), and the terminal output of the ASCII converters (rows are
  returned instead of printed).
- `Context.__enter__`/`__exit__`, `init_sdf_ui`, `get_tex_registry`,
  `Counter.__del__`/`__int__`/`__str__` and all logging: they only print or
  manage moderngl handles.
- Font loading in `get_glyph` (`describe.openFont`, `glyphquery`,
  `calculateContours`): the contours with their on-curve flags are the
  input of `Text.GetGlyph`.
- PIL image processing in the ASCII converters (`convert`, contrast,
  brightness, invert, `crop`) and `get_average_l`/`get_average_c`: the
  averages come in as functions of the cell box.
- The module `interpolate` function: it builds `SDFTexture(tex)` without
  a context and so always fails with a TypeError after its dispatch; it is
  not modelled. `anim.py`, `bw_to_sdf.py` and the `core/context.py`,
  `core/log.py` duplicates are not part of this model.
- Core.LinearGradient: `outer` is a parameter whose non-negative square is
  dx² + dy², instead of being computed with `math.sqrt`.
- Floating point: coordinates, colours and the ASCII grid arithmetic are
  exact reals, so rounding of `float` operations (for example in
  `new_width = width / cols`) is not modelled; `int()` is truncation.
- `__del__` timing: a release happens where CPython's reference counting
  would drop the last reference; textures the caller keeps are not released
  by the model. The non-`int` operand check of `Counter` only logs and is
  not modelled.
- Util.ParseInt16: only ASCII digits and ASCII white space are modelled.
  Python's `int()` also accepts Unicode decimal digits and Unicode white
  space (for example Arabic-Indic digits), which the model rejects with
  ValueError.
- Core.SDFTexture.Shadow: `distance` is an `int` pass count. The docstring
  calls it a float. A float there raises TypeError at `range(n)` in
  `blur_9`, after `fill`, `to_rgb` and the first vertical and horizontal
  passes have been dispatched and while tex0 and tex1 are still counted in
  the registry. That path is not modelled.
- Core.ColorTexture.Blur: `n` is an `int`, as the signatures of `blur`,
  `blur_9` and `blur_13` declare. The TypeError a float `n` raises at
  `range(n)`, after the first two passes, is not modelled. The same holds
  for `Blur9`, `Blur13`, `SeparableBlur` and `BlurToLab`.
- Counter.Add and Counter.Sub take an `int`; Python would also apply the
  arithmetic to a float operand.
