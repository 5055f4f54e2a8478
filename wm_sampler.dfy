/** Sampler state for the gen 4-6 fragment, vertex and geometry stages
    (brw_wm_sampler_state.c): the translation of a GL sampler object into
    the integer and enumerated fields of one hardware SAMPLER_STATE entry,
    the border colour that entry points at, and the table of entries one
    program's samplers fill.

    The hardware codes are symbolic: each enumeration below lists the
    BRW_* values of brw_defines.h by name, and the zeroed entry a memset
    produces holds, field by field, the value whose code is 0 there
    (NEAREST, MIPFILTER_NONE, TEXCOORDMODE_WRAP, no rounding bit). */
module WmSampler {
  import opened Common

  // ----- GL state -----

  /** A GL texture wrap mode (GL_REPEAT, GL_CLAMP, ...); any other enum
      value is `OtherWrap`. */
  datatype GlWrap = Repeat | Clamp | ClampToEdge | ClampToBorder | MirroredRepeat
                  | MirrorClampToEdge | OtherWrap(glenum: nat)

  /** A GL minification or magnification filter. */
  datatype GlFilter = Nearest | Linear | NearestMipmapNearest | LinearMipmapNearest
                    | NearestMipmapLinear | LinearMipmapLinear | OtherFilter(glenum: nat)

  /** The target of the texture object bound to a unit. */
  datatype Target = Target1D | TargetRectangle | TargetCubeMap | TargetCubeMapArray
                  | TargetBuffer | OtherTarget(glenum: nat)

  /** The `_BaseFormat` of the texture's base image. */
  datatype BaseFormat = DepthComponent | Alpha | Intensity | Luminance | LuminanceAlpha
                      | Rgb | OtherFormat(glenum: nat)

  /** The parts of a `gl_sampler_object` the translation reads.
      `anisotropic` is the outcome of `MaxAnisotropy > 1.0`,
      `compareToTexture` of `CompareMode == GL_COMPARE_R_TO_TEXTURE_ARB`,
      and `shadowFunction` the hardware code
      intel_translate_shadow_compare_func returns for `CompareFunc`. */
  datatype GlSampler = GlSampler(minFilter: GlFilter, magFilter: GlFilter,
                                 wrapR: GlWrap, wrapS: GlWrap, wrapT: GlWrap,
                                 anisotropic: bool, cubeMapSeamless: bool,
                                 compareToTexture: bool, shadowFunction: nat)

  /** One texture unit: whether it is `_ReallyEnabled`, the target and base
      format of its current texture, and its sampler object. */
  datatype TextureUnit = TextureUnit(reallyEnabled: bool, target: Target,
                                     baseFormat: BaseFormat, sampler: GlSampler)

  /** The `SamplersUsed` bitmask of a program and its `SamplerUnits` map. */
  datatype Program = Program(samplersUsed: nat, samplerUnits: seq<nat>)

  // ----- hardware state -----

  /** BRW_MAPFILTER_* */
  datatype MapFilter = MapNearest | MapLinear | MapAnisotropic

  /** BRW_MIPFILTER_* */
  datatype MipFilter = MipNone | MipNearest | MipLinear

  /** BRW_TEXCOORDMODE_* */
  datatype TexCoordMode = TexWrap | TexMirror | TexClamp | TexCube | TexClampBorder
                        | TexMirrorOnce

  /** The BRW_ADDRESS_ROUNDING_ENABLE_* bits of `ss3.address_round`. */
  datatype RoundingBit = UMin | VMin | RMin | UMag | VMag | RMag

  const MinRounding: set<RoundingBit> := {UMin, VMin, RMin}
  const MagRounding: set<RoundingBit> := {UMag, VMag, RMag}

  /** The integer and enumerated fields of the first dword of
      `struct brw_sampler_state`: filters, shadow function and LOD mode. */
  datatype Ss0 = Ss0(minFilter: MapFilter, mipFilter: MipFilter, magFilter: MapFilter,
                     minMagNeq: bool, shadowFunction: nat, lodPreclamp: bool,
                     defaultColorMode: nat, baseLevel: nat)

  /** The wrap modes of the second dword. */
  datatype Ss1 = Ss1(rWrap: TexCoordMode, sWrap: TexCoordMode, tWrap: TexCoordMode)

  /** The rounding bits and coordinate mode of the fourth dword. */
  datatype Ss3 = Ss3(addressRound: set<RoundingBit>, nonNormalizedCoord: bool)

  /** One SAMPLER_STATE entry; the third dword holds the border-colour
      pointer. */
  datatype SamplerEntry = SamplerEntry(ss0: Ss0, ss1: Ss1, defaultColorPointer: nat, ss3: Ss3)

  /** The entry a memset to zero leaves. */
  const ZeroEntry: SamplerEntry :=
    SamplerEntry(Ss0(MapNearest, MipNone, MapNearest, false, 0, false, 0, 0),
                 Ss1(TexWrap, TexWrap, TexWrap), 0, Ss3({}, false))

  /** `sizeof(struct brw_sampler_state)`: the four dwords ss0 .. ss3. */
  const SamplerStateSize: nat := 16

  /** `sizeof(struct brw_sampler_default_color)`: four floats. */
  const DefaultColorSize: nat := 16

  // ----- translate_wrap_mode -----

  /** translate_wrap_mode: the hardware mode for a GL wrap mode.  GL_CLAMP
      clamps to the edge under nearest filtering and to the border
      otherwise; an unknown mode wraps. */
  function TranslateWrapMode(wrap: GlWrap, usingNearest: bool): TexCoordMode
  {
    match wrap
    case Repeat => TexWrap
    case Clamp => if usingNearest then TexClamp else TexClampBorder
    case ClampToEdge => TexClamp
    case ClampToBorder => TexClampBorder
    case MirroredRepeat => TexMirror
    case MirrorClampToEdge => TexMirrorOnce
    case OtherWrap(_) => TexWrap
  }

  /** The filter only matters for GL_CLAMP, and no GL mode becomes the cube
      mode: each GL mode that names a hardware mode gets that one. */
  lemma WrapModeTranslation(wrap: GlWrap, usingNearest: bool)
    ensures TranslateWrapMode(wrap, usingNearest) != TranslateWrapMode(wrap, !usingNearest)
        <==> wrap == Clamp
    ensures TranslateWrapMode(wrap, usingNearest) != TexCube
    ensures TranslateWrapMode(wrap, usingNearest) == TexWrap
        <==> wrap == Repeat || wrap.OtherWrap?
    ensures TranslateWrapMode(wrap, usingNearest) == TexClamp
        <==> wrap == ClampToEdge || (wrap == Clamp && usingNearest)
    ensures TranslateWrapMode(wrap, usingNearest) == TexClampBorder
        <==> wrap == ClampToBorder || (wrap == Clamp && !usingNearest)
    ensures TranslateWrapMode(wrap, usingNearest) == TexMirror <==> wrap == MirroredRepeat
    ensures TranslateWrapMode(wrap, usingNearest) == TexMirrorOnce <==> wrap == MirrorClampToEdge
  {
  }

  // ----- upload_default_color -----

  /** The four border-colour channels chosen for a base format, over any
      channel representation with a zero and a one: depth and intensity
      replicate red, alpha keeps only alpha, luminance replicates red with
      an opaque alpha, luminance-alpha replicates red and keeps alpha, and
      every other format keeps all four, GL_RGB then forcing alpha to one. */
  function BorderColor<T>(format: BaseFormat, border: seq<T>, zero: T, one: T): (color: seq<T>)
    requires |border| == 4
    ensures |color| == 4
  {
    var c := match format
      case DepthComponent => [border[0], border[0], border[0], border[0]]
      case Alpha => [zero, zero, zero, border[3]]
      case Intensity => [border[0], border[0], border[0], border[0]]
      case Luminance => [border[0], border[0], border[0], one]
      case LuminanceAlpha => [border[0], border[0], border[0], border[3]]
      case _ => border;
    if format == Rgb then c[3 := one] else c
  }

  /** The source of one border-colour channel: a channel of the sampler's
      `BorderColor`, or a constant. */
  datatype Channel = BorderRed | BorderGreen | BorderBlue | BorderAlpha | ConstZero | ConstOne

  const BorderChannels: seq<Channel> := [BorderRed, BorderGreen, BorderBlue, BorderAlpha]

  /** Which channel each slot of the border colour takes for a format. */
  function ChannelsFor(format: BaseFormat): seq<Channel>
  {
    BorderColor(format, BorderChannels, ConstZero, ConstOne)
  }

  function Map<T, U>(s: seq<T>, h: T -> U): (r: seq<U>)
    ensures |r| == |s| && forall i :: 0 <= i < |s| ==> r[i] == h(s[i])
  {
    seq(|s|, i requires 0 <= i < |s| => h(s[i]))
  }

  /** Choosing channels commutes with converting them: converting the
      sampler's colour channel by channel and then choosing gives the
      converted choice. */
  lemma BorderColorCommutes<T, U>(format: BaseFormat, border: seq<T>, zero: T, one: T,
                                  h: T -> U)
    requires |border| == 4
    ensures BorderColor(format, Map(border, h), h(zero), h(one))
         == Map(BorderColor(format, border, zero, one), h)
  {
  }

  /** The value of a channel source for a border colour `[r, g, b, a]`. */
  function ChannelValue<T>(border: seq<T>, zero: T, one: T): Channel -> T
    requires |border| == 4
  {
    (c: Channel) => match c
         case BorderRed => border[0]
         case BorderGreen => border[1]
         case BorderBlue => border[2]
         case BorderAlpha => border[3]
         case ConstZero => zero
         case ConstOne => one
  }

  /** The channel table decides the border colour for every
      representation, and it is the one the format names. */
  lemma ChannelsDecideBorderColor<T>(format: BaseFormat, border: seq<T>, zero: T, one: T)
    requires |border| == 4
    ensures BorderColor(format, border, zero, one)
         == Map(ChannelsFor(format), ChannelValue(border, zero, one))
    ensures ChannelsFor(format) == match format
      case DepthComponent => [BorderRed, BorderRed, BorderRed, BorderRed]
      case Alpha => [ConstZero, ConstZero, ConstZero, BorderAlpha]
      case Intensity => [BorderRed, BorderRed, BorderRed, BorderRed]
      case Luminance => [BorderRed, BorderRed, BorderRed, ConstOne]
      case LuminanceAlpha => [BorderRed, BorderRed, BorderRed, BorderAlpha]
      case Rgb => [BorderRed, BorderGreen, BorderBlue, ConstOne]
      case OtherFormat(_) => BorderChannels
  {
    var v := ChannelValue(border, zero, one);
    assert Map(BorderChannels, v) == border;
    BorderColorCommutes(format, BorderChannels, ConstZero, ConstOne, v);
  }

  /** `b[i] = s[i] >> 8` of gen5_sampler_default_color: the signed byte
      entry is the signed short entry shifted right arithmetically, which
      keeps its top eight bits. */
  function SignedByte(s: int): (b: int)
    requires -0x8000 <= s < 0x8000
    ensures -0x80 <= b < 0x80
    ensures b * 256 <= s < b * 256 + 256
  {
    s / 256
  }

  /** The border-colour block one sampler points at: the gen 5/6 layout
      with every representation of the colour, or the four-float one. */
  datatype ColorBlock = ColorBlock(offset: nat, gen5Layout: bool, channels: seq<Channel>)

  // ----- brw_update_sampler_state -----

  /** The map and mip filters a GL minification filter selects; None for
      an unknown filter, which leaves both fields as they were. */
  function MinFilterModes(f: GlFilter): Option<(MapFilter, MipFilter)>
  {
    match f
    case Nearest => Some((MapNearest, MipNone))
    case Linear => Some((MapLinear, MipNone))
    case NearestMipmapNearest => Some((MapNearest, MipNearest))
    case LinearMipmapNearest => Some((MapLinear, MipNearest))
    case NearestMipmapLinear => Some((MapNearest, MipLinear))
    case LinearMipmapLinear => Some((MapLinear, MipLinear))
    case OtherFilter(_) => None
  }

  /** The map filter a GL magnification filter selects. */
  function MagFilterMode(f: GlFilter): Option<MapFilter>
  {
    match f
    case Nearest => Some(MapNearest)
    case Linear => Some(MapLinear)
    case _ => None
  }

  /** `using_nearest`: GL_NEAREST minification, or GL_NEAREST magnification
      when anisotropic filtering does not replace it. */
  predicate UsingNearest(smp: GlSampler)
  {
    smp.minFilter == Nearest || (!smp.anisotropic && smp.magFilter == Nearest)
  }

  predicate IsCube(t: Target)
  {
    t == TargetCubeMap || t == TargetCubeMapArray
  }

  /** Whether a cube map samples across faces: seamless filtering asked for
      by the context or the sampler, with a filter other than nearest in
      some direction. */
  predicate SeamlessCube(contextSeamless: bool, smp: GlSampler)
  {
    (contextSeamless || smp.cubeMapSeamless)
    && (smp.minFilter != Nearest || smp.magFilter != Nearest)
  }

  /** The hardware minification filter: anisotropic under anisotropy,
      otherwise the one the GL filter selects, or the previous one for an
      unknown filter. */
  function MinFilterAfter(e: Ss0, smp: GlSampler): MapFilter
  {
    if smp.anisotropic then MapAnisotropic
    else match MinFilterModes(smp.minFilter)
      case Some(modes) => modes.0
      case None => e.minFilter
  }

  function MipFilterAfter(e: Ss0, smp: GlSampler): MipFilter
  {
    match MinFilterModes(smp.minFilter)
    case Some(modes) => modes.1
    case None => e.mipFilter
  }

  function MagFilterAfter(e: Ss0, smp: GlSampler): MapFilter
  {
    if smp.anisotropic then MapAnisotropic
    else match MagFilterMode(smp.magFilter)
      case Some(mode) => mode
      case None => e.magFilter
  }

  /** The first dword after the update: the filters, `min_mag_neq` from
      gen 6 on when the filters differ, the shadow function when depth
      comparison is on, and the OpenGL LOD and border-colour modes. */
  function UpdatedSs0(gen: nat, e: Ss0, smp: GlSampler): Ss0
  {
    var minFilter := MinFilterAfter(e, smp);
    var magFilter := MagFilterAfter(e, smp);
    Ss0(minFilter, MipFilterAfter(e, smp), magFilter,
        e.minMagNeq || (gen >= 6 && minFilter != magFilter),
        if smp.compareToTexture then smp.shadowFunction else e.shadowFunction,
        true, 0, 0)
  }

  /** The wrap modes: each translated, then the cube override (CUBE or
      CLAMP on all three) or the 1D override of the t mode. */
  function UpdatedSs1(target: Target, contextSeamless: bool, smp: GlSampler): Ss1
  {
    var nearest := UsingNearest(smp);
    if IsCube(target) then
      var mode := if SeamlessCube(contextSeamless, smp) then TexCube else TexClamp;
      Ss1(mode, mode, mode)
    else
      Ss1(TranslateWrapMode(smp.wrapR, nearest), TranslateWrapMode(smp.wrapS, nearest),
          if target == Target1D then TexWrap else TranslateWrapMode(smp.wrapT, nearest))
  }

  /** The fourth dword: the MIN rounding bits added unless minification is
      NEAREST, the MAG bits unless magnification is, and non-normalised
      coordinates for rectangle textures from gen 6 on. */
  function UpdatedSs3(gen: nat, target: Target, e: Ss3, minFilter: MapFilter,
                      magFilter: MapFilter): Ss3
  {
    Ss3(e.addressRound + (if minFilter != MapNearest then MinRounding else {})
                       + (if magFilter != MapNearest then MagRounding else {}),
        e.nonNormalizedCoord || (gen >= 6 && target == TargetRectangle))
  }

  /** `default_color_pointer`: the border-colour offset in 32-byte units,
      relative to the state base from gen 6 on and otherwise an absolute
      address within the batch buffer presumed at `presumedBatch`. */
  function ColorPointer(gen: nat, presumedBatch: nat, sdcOffset: nat): nat
  {
    if gen >= 6 then sdcOffset / 32 else (presumedBatch + sdcOffset) / 32
  }

  /** The entry brw_update_sampler_state leaves for a unit whose target is
      not a texture buffer, starting from `e`, with the border colour at
      `sdcOffset`. */
  function UpdatedEntry(gen: nat, presumedBatch: nat, contextSeamless: bool, u: TextureUnit,
                        e: SamplerEntry, sdcOffset: nat): SamplerEntry
  {
    var ss0 := UpdatedSs0(gen, e.ss0, u.sampler);
    SamplerEntry(ss0, UpdatedSs1(u.target, contextSeamless, u.sampler),
                 ColorPointer(gen, presumedBatch, sdcOffset),
                 UpdatedSs3(gen, u.target, e.ss3, ss0.minFilter, ss0.magFilter))
  }

  /** On a zeroed entry the hardware filters follow the GL ones:
      anisotropy makes both anisotropic; otherwise minification is linear
      exactly for the LINEAR* filters and the mip filter follows the
      filter's MIPMAP part, magnification is linear exactly for GL_LINEAR,
      and an unknown filter leaves the zero value (NEAREST, no mipmapping). */
  lemma FiltersFollowGl(gen: nat, presumedBatch: nat, contextSeamless: bool, u: TextureUnit,
                        sdcOffset: nat)
    ensures var r := UpdatedEntry(gen, presumedBatch, contextSeamless, u, ZeroEntry, sdcOffset);
      var f := u.sampler.minFilter;
      && (u.sampler.anisotropic ==> r.ss0.minFilter == MapAnisotropic && r.ss0.magFilter == MapAnisotropic)
      && (!u.sampler.anisotropic ==>
            && (r.ss0.minFilter == MapLinear
                <==> f in {Linear, LinearMipmapNearest, LinearMipmapLinear})
            && r.ss0.minFilter != MapAnisotropic
            && (r.ss0.magFilter == MapLinear <==> u.sampler.magFilter == Linear)
            && r.ss0.magFilter != MapAnisotropic)
      && (r.ss0.mipFilter == MipNone <==> f in {Nearest, Linear} || f.OtherFilter?)
      && (r.ss0.mipFilter == MipLinear <==> f in {NearestMipmapLinear, LinearMipmapLinear})
  {
  }

  /** Every unit gets CLAMP for GL_CLAMP exactly when nearest filtering is
      in use; a cube map has one wrap mode in all three directions, CUBE
      when it samples seamlessly and CLAMP otherwise; a 1D texture always
      wraps in t; other targets translate each direction. */
  lemma WrapModesFollowTarget(gen: nat, presumedBatch: nat, contextSeamless: bool,
                              u: TextureUnit, e: SamplerEntry, sdcOffset: nat)
    ensures var r := UpdatedEntry(gen, presumedBatch, contextSeamless, u, e, sdcOffset);
      var smp := u.sampler;
      && (IsCube(u.target) ==>
            && r.ss1.rWrap == r.ss1.sWrap == r.ss1.tWrap
            && (r.ss1.sWrap == TexCube <==> SeamlessCube(contextSeamless, smp))
            && (r.ss1.sWrap != TexCube ==> r.ss1.sWrap == TexClamp))
      && (!IsCube(u.target) ==>
            && r.ss1.rWrap == TranslateWrapMode(smp.wrapR, UsingNearest(smp))
            && r.ss1.sWrap == TranslateWrapMode(smp.wrapS, UsingNearest(smp))
            && (u.target == Target1D ==> r.ss1.tWrap == TexWrap)
            && (u.target != Target1D ==> r.ss1.tWrap == TranslateWrapMode(smp.wrapT, UsingNearest(smp)))
            && (smp.wrapS == Clamp ==>
                  (r.ss1.sWrap == TexClamp
                   <==> smp.minFilter == Nearest || (!smp.anisotropic && smp.magFilter == Nearest))))
  {
  }

  /** On a zeroed entry `min_mag_neq` is set exactly from gen 6 on with
      differing filters, each group of rounding bits exactly when its
      filter is not NEAREST, and the border-colour pointer from gen 6 on
      is the 32-byte-aligned offset divided by 32. */
  lemma FlagsFollowFilters(gen: nat, presumedBatch: nat, contextSeamless: bool, u: TextureUnit,
                           sdcOffset: nat)
    ensures var r := UpdatedEntry(gen, presumedBatch, contextSeamless, u, ZeroEntry, sdcOffset);
      && (r.ss0.minMagNeq <==> gen >= 6 && r.ss0.minFilter != r.ss0.magFilter)
      && (forall b :: b in r.ss3.addressRound <==>
            (b in MinRounding && r.ss0.minFilter != MapNearest)
            || (b in MagRounding && r.ss0.magFilter != MapNearest))
      && (gen >= 6 && sdcOffset % 32 == 0 ==> r.defaultColorPointer * 32 == sdcOffset)
      && (r.ss3.nonNormalizedCoord <==> gen >= 6 && u.target == TargetRectangle)
      && r.ss0.lodPreclamp
  {
  }

  /** The filter part of brw_update_sampler_state: the minification
      switch, then either anisotropic filtering in both directions or the
      magnification switch, noting whether nearest filtering is in use. */
  method SetFilters(ss0: Ss0, smp: GlSampler) returns (r: Ss0, usingNearest: bool)
    ensures r == ss0.(minFilter := MinFilterAfter(ss0, smp), mipFilter := MipFilterAfter(ss0, smp),
                      magFilter := MagFilterAfter(ss0, smp))
    ensures usingNearest == UsingNearest(smp)
  {
    r := ss0;
    usingNearest := false;
    match smp.minFilter {
      case Nearest =>
        r := r.(minFilter := MapNearest, mipFilter := MipNone);
        usingNearest := true;
      case Linear =>
        r := r.(minFilter := MapLinear, mipFilter := MipNone);
      case NearestMipmapNearest =>
        r := r.(minFilter := MapNearest, mipFilter := MipNearest);
      case LinearMipmapNearest =>
        r := r.(minFilter := MapLinear, mipFilter := MipNearest);
      case NearestMipmapLinear =>
        r := r.(minFilter := MapNearest, mipFilter := MipLinear);
      case LinearMipmapLinear =>
        r := r.(minFilter := MapLinear, mipFilter := MipLinear);
      case OtherFilter(_) =>
    }
    if smp.anisotropic {
      r := r.(minFilter := MapAnisotropic, magFilter := MapAnisotropic);
    } else {
      match smp.magFilter {
        case Nearest =>
          r := r.(magFilter := MapNearest);
          usingNearest := true;
        case Linear =>
          r := r.(magFilter := MapLinear);
        case _ =>
      }
    }
  }

  /** The first dword: the filters, then `min_mag_neq`, the shadow
      function and the OpenGL modes. */
  method UpdateSs0(gen: nat, ss0: Ss0, smp: GlSampler) returns (r: Ss0, usingNearest: bool)
    ensures r == UpdatedSs0(gen, ss0, smp)
    ensures usingNearest == UsingNearest(smp)
  {
    r, usingNearest := SetFilters(ss0, smp);
    if gen >= 6 && r.minFilter != r.magFilter {
      r := r.(minMagNeq := true);
    }
    if smp.compareToTexture {
      r := r.(shadowFunction := smp.shadowFunction);
    }
    r := r.(lodPreclamp := true, defaultColorMode := 0, baseLevel := 0);
  }

  /** The fourth dword: non-normalised rectangle coordinates from gen 6
      on, then the `|=` of the MIN and MAG rounding bits. */
  method UpdateSs3(gen: nat, target: Target, ss3: Ss3, minFilter: MapFilter,
                   magFilter: MapFilter) returns (r: Ss3)
    ensures r == UpdatedSs3(gen, target, ss3, minFilter, magFilter)
  {
    r := ss3;
    if gen >= 6 && target == TargetRectangle {
      r := r.(nonNormalizedCoord := true);
    }
    if minFilter != MapNearest {
      r := r.(addressRound := r.addressRound + MinRounding);
    }
    if magFilter != MapNearest {
      r := r.(addressRound := r.addressRound + MagRounding);
    }
  }

  /** The wrap part of brw_update_sampler_state: translate each direction,
      then override a cube map's three modes and a 1D texture's t mode. */
  method SetWrapModes(target: Target, contextSeamless: bool, smp: GlSampler, usingNearest: bool)
    returns (ss1: Ss1)
    requires usingNearest == UsingNearest(smp)
    ensures ss1 == UpdatedSs1(target, contextSeamless, smp)
  {
    ss1 := Ss1(TranslateWrapMode(smp.wrapR, usingNearest), TranslateWrapMode(smp.wrapS, usingNearest),
               TranslateWrapMode(smp.wrapT, usingNearest));
    if target == TargetCubeMap || target == TargetCubeMapArray {
      if (contextSeamless || smp.cubeMapSeamless)
         && (smp.minFilter != Nearest || smp.magFilter != Nearest) {
        ss1 := ss1.(rWrap := TexCube, sWrap := TexCube, tWrap := TexCube);
      } else {
        ss1 := ss1.(rWrap := TexClamp, sWrap := TexClamp, tWrap := TexClamp);
      }
    } else if target == Target1D {
      ss1 := ss1.(tWrap := TexWrap);
    }
  }

  // ----- the sampler table -----

  /** The sampler state of one stage: the GL context it reads (the texture
      units and the context-wide seamless cube-map flag), the generation,
      the presumed address of the batch buffer, the scratch-state
      allocator, the border-colour blocks allocated, the sampler table with
      its offset, the stage's `sdc_offset` array and the CACHE_NEW_SAMPLER
      dirty bit. */
  class SamplerUpload {
    const gen: nat
    const presumedBatch: nat
    const gen5ColorSize: nat
    const units: seq<TextureUnit>
    const contextSeamless: bool
    var stateNext: nat
    var colorBlocks: seq<ColorBlock>
    var table: array<SamplerEntry>
    var tableOffset: nat
    var sdcOffsets: seq<nat>
    var newSamplerCache: bool

    /** `sizeof` the border-colour block of this generation. */
    function ColorSize(): nat
    {
      if gen == 5 || gen == 6 then gen5ColorSize else DefaultColorSize
    }

    /** The block upload_default_color writes for unit `unit` at `offset`. */
    function ColorBlockFor(unit: TextureUnit, offset: nat): ColorBlock
    {
      ColorBlock(offset, gen == 5 || gen == 6, ChannelsFor(unit.baseFormat))
    }

    constructor (gen: nat, presumedBatch: nat, gen5ColorSize: nat, units: seq<TextureUnit>,
                 contextSeamless: bool, stateBase: nat, sdcOffsets: seq<nat>)
      ensures this.gen == gen && this.presumedBatch == presumedBatch
      ensures this.gen5ColorSize == gen5ColorSize && this.units == units
      ensures this.contextSeamless == contextSeamless && this.sdcOffsets == sdcOffsets
      ensures stateNext == stateBase && colorBlocks == [] && table.Length == 0
      ensures tableOffset == 0 && !newSamplerCache
    {
      this.gen := gen;
      this.presumedBatch := presumedBatch;
      this.gen5ColorSize := gen5ColorSize;
      this.units := units;
      this.contextSeamless := contextSeamless;
      this.sdcOffsets := sdcOffsets;
      stateNext := stateBase;
      colorBlocks := [];
      table := new SamplerEntry[0];
      tableOffset := 0;
      newSamplerCache := false;
    }

    /** upload_default_color: allocate a 32-byte-aligned border-colour
        block after everything allocated before and fill it with the
        channels the base format of unit `unit` chooses. */
    method UploadDefaultColor(unit: nat) returns (offset: nat)
      requires unit < |units|
      modifies this`stateNext, this`colorBlocks
      ensures offset == AlignUp(old(stateNext), Align32)
      ensures stateNext == offset + ColorSize()
      ensures colorBlocks == old(colorBlocks) + [ColorBlockFor(units[unit], offset)]
    {
      var channels := ChannelsFor(units[unit].baseFormat);
      offset := AlignUp(stateNext, Align32);
      stateNext := offset + ColorSize();
      colorBlocks := colorBlocks + [ColorBlock(offset, gen == 5 || gen == 6, channels)];
    }

    /** brw_update_sampler_state for sampler `s` of a program, bound to
        texture unit `unit`: a texture-buffer target changes nothing;
        otherwise the entry's fields are set step by step, the border
        colour is uploaded and `sdc_offset[s]` records where. */
    method UpdateSamplerState(unit: nat, s: nat)
      requires unit < |units| && s < table.Length && s < |sdcOffsets|
      modifies table, this`stateNext, this`colorBlocks, this`sdcOffsets
      ensures units[unit].target == TargetBuffer ==>
        table[s] == old(table[s]) && stateNext == old(stateNext)
        && colorBlocks == old(colorBlocks) && sdcOffsets == old(sdcOffsets)
      ensures units[unit].target != TargetBuffer ==>
        && |sdcOffsets| == |old(sdcOffsets)|
        && sdcOffsets == old(sdcOffsets)[s := sdcOffsets[s]]
        && sdcOffsets[s] == AlignUp(old(stateNext), Align32)
        && stateNext == sdcOffsets[s] + ColorSize()
        && colorBlocks == old(colorBlocks) + [ColorBlockFor(units[unit], sdcOffsets[s])]
        && table[s] == UpdatedEntry(gen, presumedBatch, contextSeamless, units[unit],
                                    old(table[s]), sdcOffsets[s])
      ensures forall t :: 0 <= t < table.Length && t != s ==> table[t] == old(table[t])
    {
      var u := units[unit];
      var smp := u.sampler;
      if u.target == TargetBuffer {
        return;
      }
      var ss0, usingNearest := UpdateSs0(gen, table[s].ss0, smp);
      var ss1 := SetWrapModes(u.target, contextSeamless, smp, usingNearest);
      var sdcOffset := UploadDefaultColor(unit);
      sdcOffsets := sdcOffsets[s := sdcOffset];
      var pointer;
      if gen >= 6 {
        pointer := sdcOffset / 32;
      } else {
        pointer := (presumedBatch + sdcOffset) / 32;
      }
      var ss3 := UpdateSs3(gen, u.target, table[s].ss3, ss0.minFilter, ss0.magFilter);
      table[s] := SamplerEntry(ss0, ss1, pointer, ss3);
    }

    /** Whether sampler `s` of `prog` is written: its bit is set in
        `SamplersUsed` and its unit is enabled with a target that is not a
        texture buffer. */
    predicate Updated(prog: Program, s: nat)
    {
      && Bit(prog.samplersUsed, s)
      && s < |prog.samplerUnits| && prog.samplerUnits[s] < |units|
      && units[prog.samplerUnits[s]].reallyEnabled
      && units[prog.samplerUnits[s]].target != TargetBuffer
    }

    /** The border-colour blocks the first `n` samplers of `prog` add, in
        order, when sampler `t` records its block at `offsets[t]`. */
    function UpdatedBlocks(prog: Program, offsets: seq<nat>, n: nat): seq<ColorBlock>
      requires n <= |offsets|
    {
      if n == 0 then []
      else UpdatedBlocks(prog, offsets, n - 1)
           + if Updated(prog, n - 1)
             then [ColorBlockFor(units[prog.samplerUnits[n - 1]], offsets[n - 1])]
             else []
    }

    /** Where the scratch state ends once the first `n` samplers of `prog`
        have their border colours, the table itself ending at `base`: after
        the last updated sampler's block, or at `base` when there is none. */
    function StateEnd(prog: Program, offsets: seq<nat>, base: nat, n: nat): nat
      requires n <= |offsets|
    {
      if n == 0 then base
      else if Updated(prog, n - 1) then offsets[n - 1] + ColorSize()
      else StateEnd(prog, offsets, base, n - 1)
    }

    /** Each of the first `n` updated samplers has its border colour at the
        first 32-byte boundary after everything allocated before it. */
    predicate Chained(prog: Program, offsets: seq<nat>, base: nat, n: nat)
      requires n <= |offsets|
    {
      forall t :: 0 <= t < n && Updated(prog, t) ==>
        offsets[t] == AlignUp(StateEnd(prog, offsets, base, t), Align32)
    }

    /** Both depend only on the offsets of the first `n` samplers. */
    lemma {:induction false} UpdatedBlocksFrame(prog: Program, a: seq<nat>, b: seq<nat>,
                                                base: nat, n: nat)
      requires n <= |a| && n <= |b|
      requires forall t :: 0 <= t < n ==> a[t] == b[t]
      ensures UpdatedBlocks(prog, a, n) == UpdatedBlocks(prog, b, n)
      ensures StateEnd(prog, a, base, n) == StateEnd(prog, b, base, n)
    {
      if n > 0 {
        UpdatedBlocksFrame(prog, a, b, base, n - 1);
      }
    }

    /** So does the chaining of the first `n`. */
    lemma ChainedFrame(prog: Program, a: seq<nat>, b: seq<nat>, base: nat, n: nat)
      requires n <= |a| && n <= |b|
      requires forall t :: 0 <= t < n ==> a[t] == b[t]
      requires Chained(prog, a, base, n)
      ensures Chained(prog, b, base, n)
    {
      forall t | 0 <= t < n && Updated(prog, t)
        ensures b[t] == AlignUp(StateEnd(prog, b, base, t), Align32)
      {
        UpdatedBlocksFrame(prog, a, b, base, t);
      }
    }

    /** With chained offsets the end of the allocated state only grows. */
    lemma {:induction false} StateEndGrows(prog: Program, offsets: seq<nat>, base: nat,
                                           m: nat, n: nat)
      requires m <= n <= |offsets| && Chained(prog, offsets, base, n)
      ensures base <= StateEnd(prog, offsets, base, m) <= StateEnd(prog, offsets, base, n)
    {
      if m < n {
        StateEndGrows(prog, offsets, base, m, n - 1);
        if Updated(prog, n - 1) {
          assert StateEnd(prog, offsets, base, n - 1) <= offsets[n - 1];
        }
      } else if n > 0 {
        StateEndGrows(prog, offsets, base, 0, n - 1);
        StateEndGrows(prog, offsets, base, n - 1, n - 1);
      }
    }

    /** Chained offsets are 32-byte aligned, at or after `base`, and each
        block ends before the next updated sampler's begins. */
    lemma ChainedPlacement(prog: Program, offsets: seq<nat>, base: nat, n: nat)
      requires n <= |offsets| && Chained(prog, offsets, base, n)
      ensures forall t :: 0 <= t < n && Updated(prog, t) ==>
        base <= offsets[t] && offsets[t] % 32 == 0
      ensures forall t, v :: 0 <= t < v < n && Updated(prog, t) && Updated(prog, v) ==>
        offsets[t] + ColorSize() <= offsets[v]
    {
      forall t | 0 <= t < n && Updated(prog, t)
        ensures base <= offsets[t] && offsets[t] % 32 == 0
      {
        StateEndGrows(prog, offsets, base, t, n);
      }
      forall t, v | 0 <= t < v < n && Updated(prog, t) && Updated(prog, v)
        ensures offsets[t] + ColorSize() <= offsets[v]
      {
        StateEndGrows(prog, offsets, base, t + 1, v);
      }
    }

    /** Every updated sampler's block is among the blocks added. */
    lemma {:induction false} UpdatedBlocksHold(prog: Program, offsets: seq<nat>, n: nat)
      requires n <= |offsets|
      ensures forall t :: 0 <= t < n && Updated(prog, t) ==>
        ColorBlockFor(units[prog.samplerUnits[t]], offsets[t]) in UpdatedBlocks(prog, offsets, n)
    {
      if n > 0 {
        UpdatedBlocksHold(prog, offsets, n - 1);
      }
    }

    /** Where the table ends. */
    function TableEnd(): nat
      reads this, table
    {
      tableOffset + SamplerStateSize * table.Length
    }

    /** After the loop of brw_upload_sampler_state_table has visited the
        first `s` entries of the table: those that are updated hold their
        unit's entry, the rest are still zero, and the border colours of
        the updated ones are chained from the end of the table on up to
        `stateNext`. */
    ghost predicate Filled(prog: Program, s: nat)
      reads this, table
    {
      && s <= table.Length <= |sdcOffsets|
      && EntriesFilled(prog, s)
      && Chained(prog, sdcOffsets, TableEnd(), s)
      && stateNext == StateEnd(prog, sdcOffsets, TableEnd(), s)
    }

    ghost predicate EntriesFilled(prog: Program, s: nat)
      requires table.Length <= |sdcOffsets|
      reads this, table
    {
      forall t :: 0 <= t < table.Length ==>
        table[t] == if t < s && Updated(prog, t)
                    then UpdatedEntry(gen, presumedBatch, contextSeamless,
                                      units[prog.samplerUnits[t]], ZeroEntry, sdcOffsets[t])
                    else ZeroEntry
    }

    /** Once all `count` entries are visited: each entry is its sampler's
        update or still zero, and each updated sampler's border colour is
        in its own aligned block, after the table and after the previous
        one's. */
    lemma FilledMeans(prog: Program, count: nat, blocks0: seq<ColorBlock>)
      requires count == table.Length && Filled(prog, count)
      requires colorBlocks == blocks0 + UpdatedBlocks(prog, sdcOffsets, count)
      ensures forall s :: 0 <= s < count ==>
        table[s] == if Updated(prog, s)
                    then UpdatedEntry(gen, presumedBatch, contextSeamless,
                                      units[prog.samplerUnits[s]], ZeroEntry, sdcOffsets[s])
                    else ZeroEntry
      ensures forall s :: 0 <= s < count && Updated(prog, s) ==>
        && tableOffset + SamplerStateSize * count <= sdcOffsets[s]
        && sdcOffsets[s] % 32 == 0
        && ColorBlockFor(units[prog.samplerUnits[s]], sdcOffsets[s]) in colorBlocks
      ensures forall s, t :: 0 <= s < t < count && Updated(prog, s) && Updated(prog, t) ==>
        sdcOffsets[s] + ColorSize() <= sdcOffsets[t]
      ensures stateNext == StateEnd(prog, sdcOffsets, tableOffset + SamplerStateSize * count, count)
    {
      ChainedPlacement(prog, sdcOffsets, TableEnd(), count);
      UpdatedBlocksHold(prog, sdcOffsets, count);
    }

    /** One iteration of the loop: update entry `s` when its bit is set
        and its unit enabled. */
    method FillEntry(prog: Program, s: nat)
      requires s < table.Length && table.Length <= |prog.samplerUnits| && table.Length <= |sdcOffsets|
      requires Bit(prog.samplersUsed, s) ==> prog.samplerUnits[s] < |units|
      requires Filled(prog, s)
      modifies table, this`stateNext, this`colorBlocks, this`sdcOffsets
      ensures Filled(prog, s + 1)
      ensures |sdcOffsets| == |old(sdcOffsets)|
      ensures forall t :: 0 <= t < |sdcOffsets| && !(t == s && Updated(prog, t)) ==>
        sdcOffsets[t] == old(sdcOffsets)[t]
      ensures colorBlocks == old(colorBlocks)
        + if Updated(prog, s) then [ColorBlockFor(units[prog.samplerUnits[s]], sdcOffsets[s])]
          else []
    {
      ghost var offsets0 := sdcOffsets;
      if Bit(prog.samplersUsed, s) {
        var unit := prog.samplerUnits[s];
        if units[unit].reallyEnabled {
          UpdateSamplerState(unit, s);
        }
      }
      UpdatedBlocksFrame(prog, offsets0, sdcOffsets, TableEnd(), s);
      ChainedFrame(prog, offsets0, sdcOffsets, TableEnd(), s);
    }

    /** The loop of brw_upload_sampler_state_table over a zeroed table of
        `count` entries: the updated samplers get their entries and their
        border-colour blocks, one after the other, from the end of the
        table on. */
    method FillTable(prog: Program, count: nat)
      requires table.Length == count <= |prog.samplerUnits| && count <= |sdcOffsets|
      requires forall s :: 0 <= s < count && Bit(prog.samplersUsed, s) ==>
                 prog.samplerUnits[s] < |units|
      requires forall t :: 0 <= t < table.Length ==> table[t] == ZeroEntry
      requires stateNext == tableOffset + SamplerStateSize * count
      modifies table, this`stateNext, this`colorBlocks, this`sdcOffsets
      ensures |sdcOffsets| == |old(sdcOffsets)|
      ensures forall s :: 0 <= s < count ==>
        table[s] == if Updated(prog, s)
                    then UpdatedEntry(gen, presumedBatch, contextSeamless,
                                      units[prog.samplerUnits[s]], ZeroEntry, sdcOffsets[s])
                    else ZeroEntry
      ensures forall s :: 0 <= s < |sdcOffsets| && !(s < count && Updated(prog, s)) ==>
        sdcOffsets[s] == old(sdcOffsets)[s]
      ensures forall s :: 0 <= s < count && Updated(prog, s) ==>
        && tableOffset + SamplerStateSize * count <= sdcOffsets[s]
        && sdcOffsets[s] % 32 == 0
        && ColorBlockFor(units[prog.samplerUnits[s]], sdcOffsets[s]) in colorBlocks
      ensures forall s, t :: 0 <= s < t < count && Updated(prog, s) && Updated(prog, t) ==>
        sdcOffsets[s] + ColorSize() <= sdcOffsets[t]
      ensures colorBlocks == old(colorBlocks) + UpdatedBlocks(prog, sdcOffsets, count)
      ensures stateNext == StateEnd(prog, sdcOffsets, tableOffset + SamplerStateSize * count, count)
    {
      var s := 0;
      while s < count
        invariant s <= count
        invariant |sdcOffsets| == |old(sdcOffsets)|
        invariant forall t :: 0 <= t < |sdcOffsets| && !(t < s && Updated(prog, t)) ==>
          sdcOffsets[t] == old(sdcOffsets)[t]
        invariant Filled(prog, s)
        invariant colorBlocks == old(colorBlocks) + UpdatedBlocks(prog, sdcOffsets, s)
      {
        ghost var offsets0 := sdcOffsets;
        FillEntry(prog, s);
        assert colorBlocks == old(colorBlocks) + UpdatedBlocks(prog, sdcOffsets, s + 1) by {
          UpdatedBlocksFrame(prog, offsets0, sdcOffsets, TableEnd(), s);
          ghost var piece := if Updated(prog, s)
                             then [ColorBlockFor(units[prog.samplerUnits[s]], sdcOffsets[s])] else [];
          assert colorBlocks == old(colorBlocks) + (UpdatedBlocks(prog, sdcOffsets, s) + piece);
        }
        s := s + 1;
      }
      FilledMeans(prog, count, old(colorBlocks));
    }

    /** brw_upload_sampler_state_table: with no samplers nothing happens;
        otherwise a zeroed table of `count` entries is allocated, exactly
        the used samplers on enabled, non-buffer units are filled in and
        point at their own border-colour blocks, allocated one after the
        other from the end of the table on, and the sampler cache is
        marked dirty. */
    method UploadSamplerStateTable(prog: Program, count: nat)
      requires count <= |prog.samplerUnits| && count <= |sdcOffsets|
      requires forall s :: 0 <= s < count && Bit(prog.samplersUsed, s) ==>
                 prog.samplerUnits[s] < |units|
      modifies this
      ensures count == 0 ==>
        table == old(table) && tableOffset == old(tableOffset) && stateNext == old(stateNext)
        && colorBlocks == old(colorBlocks) && sdcOffsets == old(sdcOffsets)
        && newSamplerCache == old(newSamplerCache)
      ensures count > 0 ==>
        && fresh(table) && table.Length == count && newSamplerCache
        && tableOffset == AlignUp(old(stateNext), Align32)
        && |sdcOffsets| == |old(sdcOffsets)|
        && (forall s :: 0 <= s < count ==>
              table[s] == if Updated(prog, s)
                          then UpdatedEntry(gen, presumedBatch, contextSeamless,
                                            units[prog.samplerUnits[s]], ZeroEntry, sdcOffsets[s])
                          else ZeroEntry)
        && (forall s :: 0 <= s < |sdcOffsets| && !(s < count && Updated(prog, s)) ==>
              sdcOffsets[s] == old(sdcOffsets)[s])
        && (forall s :: 0 <= s < count && Updated(prog, s) ==>
              && tableOffset + SamplerStateSize * count <= sdcOffsets[s]
              && sdcOffsets[s] % 32 == 0
              && ColorBlockFor(units[prog.samplerUnits[s]], sdcOffsets[s]) in colorBlocks)
        && (forall s, t :: 0 <= s < t < count && Updated(prog, s) && Updated(prog, t) ==>
              sdcOffsets[s] + ColorSize() <= sdcOffsets[t])
        && colorBlocks == old(colorBlocks) + UpdatedBlocks(prog, sdcOffsets, count)
        && stateNext == StateEnd(prog, sdcOffsets, tableOffset + SamplerStateSize * count, count)
    {
      if count == 0 {
        return;
      }
      tableOffset := AlignUp(stateNext, Align32);
      stateNext := tableOffset + SamplerStateSize * count;
      table := new SamplerEntry[count](_ => ZeroEntry);
      FillTable(prog, count);
      newSamplerCache := true;
    }
  }
}
