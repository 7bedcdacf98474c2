/**
 * The translation tables of the sokol-gfx backend: one switch per engine
 * enumeration, each with a `default:` that yields sokol's zero value, and the
 * three decoders that read flag bits (cull mode, colour write mask, pass
 * action).
 *
 * Each table comes with the table read backwards (`...FromSg`). Every table's
 * contract states that it loses nothing: reading the result back gives
 * the engine code, so two different codes never map to the same sokol value,
 * and the sokol default appears exactly for an unnamed engine code.
 */
module Convert {
  import opened OryolTypes
  import opened SokolTypes

  // -------------------------------------------------------------------------
  // Resource descriptions
  // -------------------------------------------------------------------------

  function BufferTypeFromSg(r: SgBufferType): BufferType {
    match r
    case BufferTypeVertexBuffer => VertexBuffer
    case BufferTypeIndexBuffer => IndexBuffer
    case BufferTypeDefault => InvalidBufferType
  }

  /** convertBufferType */
  function ConvertBufferType(t: BufferType): (r: SgBufferType)
    ensures r == BufferTypeDefault <==> t == InvalidBufferType
    ensures BufferTypeFromSg(r) == t
  {
    match t
    case VertexBuffer => BufferTypeVertexBuffer
    case IndexBuffer => BufferTypeIndexBuffer
    case _ => BufferTypeDefault
  }

  function UsageFromSg(r: SgUsage): Usage {
    match r
    case UsageImmutable => Immutable
    case UsageDynamic => Dynamic
    case UsageStream => Stream
    case UsageDefault => InvalidUsage
  }

  /** convertUsage */
  function ConvertUsage(u: Usage): (r: SgUsage)
    ensures r == UsageDefault <==> u == InvalidUsage
    ensures UsageFromSg(r) == u
  {
    match u
    case Immutable => UsageImmutable
    case Dynamic => UsageDynamic
    case Stream => UsageStream
    case _ => UsageDefault
  }

  function PrimitiveTypeFromSg(r: SgPrimitiveType): PrimitiveType {
    match r
    case PrimitiveTypePoints => Points
    case PrimitiveTypeLines => Lines
    case PrimitiveTypeLineStrip => LineStrip
    case PrimitiveTypeTriangles => Triangles
    case PrimitiveTypeTriangleStrip => TriangleStrip
    case PrimitiveTypeDefault => InvalidPrimitiveType
  }

  /** convertPrimitiveType */
  function ConvertPrimitiveType(t: PrimitiveType): (r: SgPrimitiveType)
    ensures r == PrimitiveTypeDefault <==> t == InvalidPrimitiveType
    ensures PrimitiveTypeFromSg(r) == t
  {
    match t
    case Points => PrimitiveTypePoints
    case Lines => PrimitiveTypeLines
    case LineStrip => PrimitiveTypeLineStrip
    case Triangles => PrimitiveTypeTriangles
    case TriangleStrip => PrimitiveTypeTriangleStrip
    case _ => PrimitiveTypeDefault
  }

  function IndexTypeFromSg(r: SgIndexType): IndexType {
    match r
    case IndexTypeNone => IndexType.None
    case IndexTypeUInt16 => UInt16
    case IndexTypeUInt32 => UInt32
    case IndexTypeDefault => InvalidIndexType
  }

  /** convertIndexType: note that the engine's "no index buffer" maps to sokol's NONE, not to its default. */
  function ConvertIndexType(t: IndexType): (r: SgIndexType)
    ensures r == IndexTypeDefault <==> t == InvalidIndexType
    ensures IndexTypeFromSg(r) == t
  {
    match t
    case None => IndexTypeNone
    case UInt16 => IndexTypeUInt16
    case UInt32 => IndexTypeUInt32
    case _ => IndexTypeDefault
  }

  // -------------------------------------------------------------------------
  // Depth-stencil state
  // -------------------------------------------------------------------------

  function StencilOpFromSg(r: SgStencilOp): StencilOp {
    match r
    case StencilOpKeep => Keep
    case StencilOpZero => StencilOp.Zero
    case StencilOpReplace => Replace
    case StencilOpIncrClamp => IncrClamp
    case StencilOpDecrClamp => DecrClamp
    case StencilOpInvert => Invert
    case StencilOpIncrWrap => IncrWrap
    case StencilOpDecrWrap => DecrWrap
    case StencilOpDefault => InvalidStencilOp
  }

  /** convertStencilOp */
  function ConvertStencilOp(op: StencilOp): (r: SgStencilOp)
    ensures r == StencilOpDefault <==> op == InvalidStencilOp
    ensures StencilOpFromSg(r) == op
  {
    match op
    case Keep => StencilOpKeep
    case Zero => StencilOpZero
    case Replace => StencilOpReplace
    case IncrClamp => StencilOpIncrClamp
    case DecrClamp => StencilOpDecrClamp
    case Invert => StencilOpInvert
    case IncrWrap => StencilOpIncrWrap
    case DecrWrap => StencilOpDecrWrap
    case _ => StencilOpDefault
  }

  function CompareFuncFromSg(r: SgCompareFunc): CompareFunc {
    match r
    case CompareFuncNever => Never
    case CompareFuncLess => Less
    case CompareFuncEqual => Equal
    case CompareFuncLessEqual => LessEqual
    case CompareFuncGreater => Greater
    case CompareFuncNotEqual => NotEqual
    case CompareFuncGreaterEqual => GreaterEqual
    case CompareFuncAlways => Always
    case CompareFuncDefault => InvalidCompareFunc
  }

  /** convertCompareFunc */
  function ConvertCompareFunc(f: CompareFunc): (r: SgCompareFunc)
    ensures r == CompareFuncDefault <==> f == InvalidCompareFunc
    ensures CompareFuncFromSg(r) == f
  {
    match f
    case Never => CompareFuncNever
    case Less => CompareFuncLess
    case Equal => CompareFuncEqual
    case LessEqual => CompareFuncLessEqual
    case Greater => CompareFuncGreater
    case NotEqual => CompareFuncNotEqual
    case GreaterEqual => CompareFuncGreaterEqual
    case Always => CompareFuncAlways
    case _ => CompareFuncDefault
  }

  // -------------------------------------------------------------------------
  // Blend state
  // -------------------------------------------------------------------------

  function BlendFactorFromSg(r: SgBlendFactor): BlendFactor {
    match r
    case BlendFactorZero => BlendFactor.Zero
    case BlendFactorOne => One
    case BlendFactorSrcColor => SrcColor
    case BlendFactorOneMinusSrcColor => OneMinusSrcColor
    case BlendFactorSrcAlpha => SrcAlpha
    case BlendFactorOneMinusSrcAlpha => OneMinusSrcAlpha
    case BlendFactorDstColor => DstColor
    case BlendFactorOneMinusDstColor => OneMinusDstColor
    case BlendFactorDstAlpha => DstAlpha
    case BlendFactorOneMinusDstAlpha => OneMinusDstAlpha
    case BlendFactorSrcAlphaSaturated => SrcAlphaSaturated
    case BlendFactorBlendColor => BlendColor
    case BlendFactorOneMinusBlendColor => OneMinusBlendColor
    case BlendFactorBlendAlpha => BlendAlpha
    case BlendFactorOneMinusBlendAlpha => OneMinusBlendAlpha
    case BlendFactorDefault => InvalidBlendFactor
  }

  /** convertBlendFactor */
  function ConvertBlendFactor(f: BlendFactor): (r: SgBlendFactor)
    ensures r == BlendFactorDefault <==> f == InvalidBlendFactor
    ensures BlendFactorFromSg(r) == f
  {
    match f
    case Zero => BlendFactorZero
    case One => BlendFactorOne
    case SrcColor => BlendFactorSrcColor
    case OneMinusSrcColor => BlendFactorOneMinusSrcColor
    case SrcAlpha => BlendFactorSrcAlpha
    case OneMinusSrcAlpha => BlendFactorOneMinusSrcAlpha
    case DstColor => BlendFactorDstColor
    case OneMinusDstColor => BlendFactorOneMinusDstColor
    case DstAlpha => BlendFactorDstAlpha
    case OneMinusDstAlpha => BlendFactorOneMinusDstAlpha
    case SrcAlphaSaturated => BlendFactorSrcAlphaSaturated
    case BlendColor => BlendFactorBlendColor
    case OneMinusBlendColor => BlendFactorOneMinusBlendColor
    case BlendAlpha => BlendFactorBlendAlpha
    case OneMinusBlendAlpha => BlendFactorOneMinusBlendAlpha
    case _ => BlendFactorDefault
  }

  function BlendOpFromSg(r: SgBlendOp): BlendOperation {
    match r
    case BlendOpAdd => Add
    case BlendOpSubtract => Subtract
    case BlendOpReverseSubtract => ReverseSubtract
    case BlendOpDefault => InvalidBlendOperation
  }

  /** convertBlendOp */
  function ConvertBlendOp(op: BlendOperation): (r: SgBlendOp)
    ensures r == BlendOpDefault <==> op == InvalidBlendOperation
    ensures BlendOpFromSg(r) == op
  {
    match op
    case Add => BlendOpAdd
    case Subtract => BlendOpSubtract
    case ReverseSubtract => BlendOpReverseSubtract
    case _ => BlendOpDefault
  }

  function PixelFormatFromSg(r: SgPixelFormat): PixelFormat {
    match r
    case PixelFormatRGBA8 => RGBA8
    case PixelFormatRGB8 => RGB8
    case PixelFormatRGBA4 => RGBA4
    case PixelFormatR5G6B5 => R5G6B5
    case PixelFormatR5G5B5A1 => R5G5B5A1
    case PixelFormatR10G10B10A2 => R10G10B10A2
    case PixelFormatRGBA32F => RGBA32F
    case PixelFormatRGBA16F => RGBA16F
    case PixelFormatR32F => R32F
    case PixelFormatL8 => L8
    case PixelFormatDXT1 => DXT1
    case PixelFormatDXT3 => DXT3
    case PixelFormatDXT5 => DXT5
    case PixelFormatDepth => DEPTH
    case PixelFormatDepthStencil => DEPTHSTENCIL
    case PixelFormatPVRTC2RGB => PVRTC2_RGB
    case PixelFormatPVRTC4RGB => PVRTC4_RGB
    case PixelFormatPVRTC2RGBA => PVRTC2_RGBA
    case PixelFormatPVRTC4RGBA => PVRTC4_RGBA
    case PixelFormatETC2RGB8 => ETC2_RGB8
    case PixelFormatETC2SRGB8 => ETC2_SRGB8
    case PixelFormatDefault => InvalidPixelFormat
  }

  /** convertPixelFormat */
  function ConvertPixelFormat(fmt: PixelFormat): (r: SgPixelFormat)
    ensures r == PixelFormatDefault <==> fmt == InvalidPixelFormat
    ensures PixelFormatFromSg(r) == fmt
  {
    match fmt
    case RGBA8 => PixelFormatRGBA8
    case RGB8 => PixelFormatRGB8
    case RGBA4 => PixelFormatRGBA4
    case R5G6B5 => PixelFormatR5G6B5
    case R5G5B5A1 => PixelFormatR5G5B5A1
    case R10G10B10A2 => PixelFormatR10G10B10A2
    case RGBA32F => PixelFormatRGBA32F
    case RGBA16F => PixelFormatRGBA16F
    case R32F => PixelFormatR32F
    case L8 => PixelFormatL8
    case DXT1 => PixelFormatDXT1
    case DXT3 => PixelFormatDXT3
    case DXT5 => PixelFormatDXT5
    case DEPTH => PixelFormatDepth
    case DEPTHSTENCIL => PixelFormatDepthStencil
    case PVRTC2_RGB => PixelFormatPVRTC2RGB
    case PVRTC4_RGB => PixelFormatPVRTC4RGB
    case PVRTC2_RGBA => PixelFormatPVRTC2RGBA
    case PVRTC4_RGBA => PixelFormatPVRTC4RGBA
    case ETC2_RGB8 => PixelFormatETC2RGB8
    case ETC2_SRGB8 => PixelFormatETC2SRGB8
    case _ => PixelFormatDefault
  }

  // -------------------------------------------------------------------------
  // Vertex layouts
  // -------------------------------------------------------------------------

  function StepFuncFromSg(r: SgVertexStep): VertexStepFunction {
    match r
    case VertexStepPerVertex => PerVertex
    case VertexStepPerInstance => PerInstance
    case VertexStepDefault => InvalidVertexStepFunction
  }

  /** convertStepFunc */
  function ConvertStepFunc(f: VertexStepFunction): (r: SgVertexStep)
    ensures r == VertexStepDefault <==> f == InvalidVertexStepFunction
    ensures StepFuncFromSg(r) == f
  {
    match f
    case PerVertex => VertexStepPerVertex
    case PerInstance => VertexStepPerInstance
    case _ => VertexStepDefault
  }

  function VertexFormatFromSg(r: SgVertexFormat): VertexFormat {
    match r
    case VertexFormatFloat => Float
    case VertexFormatFloat2 => Float2
    case VertexFormatFloat3 => Float3
    case VertexFormatFloat4 => Float4
    case VertexFormatByte4 => Byte4
    case VertexFormatByte4N => Byte4N
    case VertexFormatUByte4 => UByte4
    case VertexFormatUByte4N => UByte4N
    case VertexFormatShort2 => Short2
    case VertexFormatShort2N => Short2N
    case VertexFormatShort4 => Short4
    case VertexFormatShort4N => Short4N
    case VertexFormatUInt10N2 => UInt10_2N
    case VertexFormatInvalid => InvalidVertexFormat
  }

  /** convertVertexFormat: the fallback is sokol's INVALID format, its zero value. */
  function ConvertVertexFormat(fmt: VertexFormat): (r: SgVertexFormat)
    ensures r == VertexFormatInvalid <==> fmt == InvalidVertexFormat
    ensures VertexFormatFromSg(r) == fmt
  {
    match fmt
    case Float => VertexFormatFloat
    case Float2 => VertexFormatFloat2
    case Float3 => VertexFormatFloat3
    case Float4 => VertexFormatFloat4
    case Byte4 => VertexFormatByte4
    case Byte4N => VertexFormatByte4N
    case UByte4 => VertexFormatUByte4
    case UByte4N => VertexFormatUByte4N
    case Short2 => VertexFormatShort2
    case Short2N => VertexFormatShort2N
    case Short4 => VertexFormatShort4
    case Short4N => VertexFormatShort4N
    case UInt10_2N => VertexFormatUInt10N2
    case _ => VertexFormatInvalid
  }

  // -------------------------------------------------------------------------
  // Textures
  // -------------------------------------------------------------------------

  function TextureTypeFromSg(r: SgImageType): TextureType {
    match r
    case ImageType2D => Texture2D
    case ImageTypeCube => TextureCube
    case ImageType3D => Texture3D
    case ImageTypeArray => TextureArray
    case ImageTypeDefault => InvalidTextureType
  }

  /** convertTextureType */
  function ConvertTextureType(t: TextureType): (r: SgImageType)
    ensures r == ImageTypeDefault <==> t == InvalidTextureType
    ensures TextureTypeFromSg(r) == t
  {
    match t
    case Texture2D => ImageType2D
    case TextureCube => ImageTypeCube
    case Texture3D => ImageType3D
    case TextureArray => ImageTypeArray
    case _ => ImageTypeDefault
  }

  function FilterFromSg(r: SgFilter): TextureFilterMode {
    match r
    case FilterNearest => Nearest
    case FilterLinear => Linear
    case FilterNearestMipmapNearest => NearestMipmapNearest
    case FilterNearestMipmapLinear => NearestMipmapLinear
    case FilterLinearMipmapNearest => LinearMipmapNearest
    case FilterLinearMipmapLinear => LinearMipmapLinear
    case FilterDefault => InvalidTextureFilterMode
  }

  /** convertFilter */
  function ConvertFilter(f: TextureFilterMode): (r: SgFilter)
    ensures r == FilterDefault <==> f == InvalidTextureFilterMode
    ensures FilterFromSg(r) == f
  {
    match f
    case Nearest => FilterNearest
    case Linear => FilterLinear
    case NearestMipmapNearest => FilterNearestMipmapNearest
    case NearestMipmapLinear => FilterNearestMipmapLinear
    case LinearMipmapNearest => FilterLinearMipmapNearest
    case LinearMipmapLinear => FilterLinearMipmapLinear
    case _ => FilterDefault
  }

  function WrapFromSg(r: SgWrap): TextureWrapMode {
    match r
    case WrapClampToEdge => ClampToEdge
    case WrapRepeat => Repeat
    case WrapMirroredRepeat => MirroredRepeat
    case WrapDefault => InvalidTextureWrapMode
  }

  /** convertWrap */
  function ConvertWrap(w: TextureWrapMode): (r: SgWrap)
    ensures r == WrapDefault <==> w == InvalidTextureWrapMode
    ensures WrapFromSg(r) == w
  {
    match w
    case ClampToEdge => WrapClampToEdge
    case Repeat => WrapRepeat
    case MirroredRepeat => WrapMirroredRepeat
    case _ => WrapDefault
  }

  // -------------------------------------------------------------------------
  // Rasterizer state
  // -------------------------------------------------------------------------

  /**
   * convertCullMode: culling off gives NONE whatever the face; culling on
   * gives FRONT for the front face and BACK for every other face code.
   */
  function ConvertCullMode(enabled: bool, face: Face): (r: SgCullMode)
    ensures r == CullModeNone <==> !enabled
    ensures r == CullModeFront <==> enabled && face == Front
    ensures r == CullModeBack <==> enabled && face != Front
  {
    if enabled then
      if face == Front then CullModeFront else CullModeBack
    else
      CullModeNone
  }

  // -------------------------------------------------------------------------
  // Colour write mask
  // -------------------------------------------------------------------------

  /** The colour bits of an sg_color_mask. */
  const ColorMaskRGBA: bv8 := ColorMaskR | ColorMaskG | ColorMaskB | ColorMaskA

  /** Some bit of `bits` is set in `v`. */
  predicate HasBits(v: bv8, bits: bv8) {
    v & bits != 0
  }

  /**
   * convertColorMask: an empty channel mask gives sokol's explicit NONE;
   * otherwise each of the R, G, B, A bits is set exactly when the engine
   * mask has that channel, and no other bit is set. So a non-empty mask
   * without colour channels (depth or stencil bits only) gives 0, which
   * sokol reads as its default.
   */
  method ConvertColorMask(src: bv8) returns (dst: bv8)
    ensures src == 0 ==> dst == ColorMaskNone
    ensures src != 0 ==> (HasBits(dst, ColorMaskR) <==> HasBits(src, ChannelRed))
    ensures src != 0 ==> (HasBits(dst, ColorMaskG) <==> HasBits(src, ChannelGreen))
    ensures src != 0 ==> (HasBits(dst, ColorMaskB) <==> HasBits(src, ChannelBlue))
    ensures src != 0 ==> (HasBits(dst, ColorMaskA) <==> HasBits(src, ChannelAlpha))
    ensures src != 0 ==> dst & !ColorMaskRGBA == 0
    ensures src != 0 && !HasBits(src, ChannelRed | ChannelGreen | ChannelBlue | ChannelAlpha) ==> dst == 0
  {
    if src == 0 {
      return ColorMaskNone;
    }
    dst := 0;
    if HasBits(src, ChannelRed) { dst := dst | ColorMaskR; }
    if HasBits(src, ChannelGreen) { dst := dst | ColorMaskG; }
    if HasBits(src, ChannelBlue) { dst := dst | ColorMaskB; }
    if HasBits(src, ChannelAlpha) { dst := dst | ColorMaskA; }
  }

  // -------------------------------------------------------------------------
  // Shader stage of ApplyUniformBlock
  // -------------------------------------------------------------------------

  /** The stage ApplyUniformBlock passes on: VS stays VS, every other stage code becomes FS. */
  function ConvertShaderStage(stage: ShaderStage): (r: SgShaderStage)
    ensures r == ShaderStageVS <==> stage == VS
  {
    if stage == VS then ShaderStageVS else ShaderStageFS
  }

  // -------------------------------------------------------------------------
  // Pass action
  // -------------------------------------------------------------------------

  /** Some bit of `bit` is set in the pass-action flags. */
  predicate HasFlag(flags: bv32, bit: bv32) {
    flags & bit != 0
  }

  /** `PassAction::ClearC0<<i`, the clear flag of colour attachment i. */
  function ClearBit(i: nat): bv32
    requires i < 16
  {
    ClearC0 << i
  }

  /** `PassAction::LoadC0<<i`, the load flag of colour attachment i. */
  function LoadBit(i: nat): bv32
    requires i < 16
  {
    LoadC0 << i
  }

  /** The inner loop of convertPassAction: copy the four components of one clear colour into row i. */
  method CopyClearColor(values: array2<real>, i: nat, color: seq<real>)
    requires i < values.Length0 && values.Length1 == 4 && |color| == 4
    modifies values
    ensures forall c :: 0 <= c < 4 ==> values[i, c] == color[c]
    ensures forall j, c :: 0 <= j < values.Length0 && j != i && 0 <= c < 4 ==> values[j, c] == old(values[j, c])
  {
    for c := 0 to 4
      invariant forall c' :: 0 <= c' < c ==> values[i, c'] == color[c']
      invariant forall j, c' :: 0 <= j < values.Length0 && j != i && 0 <= c' < 4 ==>
                  values[j, c'] == old(values[j, c'])
    {
      values[i, c] := color[c];
    }
  }

  /** The clear colours held in rows j, j + 1, ... of `values`, one sequence of four components per row. */
  function ClearValuesFrom(values: array2<real>, j: nat): (rows: seq<seq<real>>)
    requires values.Length1 == 4
    reads values
    ensures |rows| == if j < values.Length0 then values.Length0 - j else 0
    decreases values.Length0 - j
  {
    if j >= values.Length0 then []
    else [[values[j, 0], values[j, 1], values[j, 2], values[j, 3]]] + ClearValuesFrom(values, j + 1)
  }

  /**
   * The action an attachment gets from its clear and load flags: the clear
   * flag wins over the load flag, and with neither the attachment's contents
   * are "don't care". Each of the three outcomes is stated both ways.
   */
  predicate ActionFromFlags(a: SgAction, flags: bv32, clearBit: bv32, loadBit: bv32) {
    && (a == ActionClear <==> HasFlag(flags, clearBit))
    && (a == ActionLoad <==> !HasFlag(flags, clearBit) && HasFlag(flags, loadBit))
    && (a == ActionDontCare <==> !HasFlag(flags, clearBit) && !HasFlag(flags, loadBit))
  }

  /** The if/else-if chain of convertPassAction that picks one attachment's action. */
  function ActionFor(flags: bv32, clearBit: bv32, loadBit: bv32): (a: SgAction)
    ensures ActionFromFlags(a, flags, clearBit, loadBit)
  {
    if HasFlag(flags, clearBit) then ActionClear
    else if HasFlag(flags, loadBit) then ActionLoad
    else ActionDontCare
  }

  /**
   * convertPassAction: copy every colour attachment's clear colour and set
   * its action from ClearC0<<i and LoadC0<<i; depth gets its clear value and
   * its action from ClearDS and LoadDS. Stencil gets only its clear value:
   * the stencil action is left as it was.
   */
  method ConvertPassAction(src: PassAction, dst: SgPassAction)
    requires src.WellFormed()
    requires dst.colorActions.Length == MaxColorAttachments
    requires dst.colorValues.Length0 == MaxColorAttachments && dst.colorValues.Length1 == 4
    modifies dst, dst.colorActions, dst.colorValues
    ensures forall i :: 0 <= i < MaxNumColorAttachments ==>
              ActionFromFlags(dst.colorActions[i], src.flags, ClearBit(i), LoadBit(i))
    ensures forall i, c :: 0 <= i < MaxNumColorAttachments && 0 <= c < 4 ==>
              dst.colorValues[i, c] == src.color[i][c]
    ensures ActionFromFlags(dst.depthAction, src.flags, ClearDS, LoadDS)
    ensures dst.depthValue == src.depth && dst.stencilValue == src.stencil
    ensures dst.stencilAction == old(dst.stencilAction)
    ensures dst.colorActions[MaxNumColorAttachments..] == old(dst.colorActions[MaxNumColorAttachments..])
    ensures ClearValuesFrom(dst.colorValues, MaxNumColorAttachments) == old(ClearValuesFrom(dst.colorValues, MaxNumColorAttachments))
  {
    assert MaxNumColorAttachments <= MaxColorAttachments;
    for i := 0 to MaxNumColorAttachments
      invariant forall j :: 0 <= j < i ==>
                  ActionFromFlags(dst.colorActions[j], src.flags, ClearBit(j), LoadBit(j))
      invariant forall j, c :: 0 <= j < i && 0 <= c < 4 ==> dst.colorValues[j, c] == src.color[j][c]
      invariant dst.stencilAction == old(dst.stencilAction)
      invariant dst.colorActions[MaxNumColorAttachments..] == old(dst.colorActions[MaxNumColorAttachments..])
    {
      CopyClearColor(dst.colorValues, i, src.color[i]);
      dst.colorActions[i] := ActionFor(src.flags, ClearBit(i), LoadBit(i));
    }
    dst.depthValue := src.depth;
    dst.stencilValue := src.stencil;
    dst.depthAction := ActionFor(src.flags, ClearDS, LoadDS);
  }
}
