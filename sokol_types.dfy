/**
 * The library-side (sokol-gfx) vocabulary the backend produces: typed
 * resource handles, the enumerations it fills into descriptors, and the
 * descriptor structures the backend writes field by field.
 *
 * Every C enumeration of sokol-gfx reserves the value 0 for "use the
 * library's default" (`_SG_..._DEFAULT`); the first constructor of each
 * datatype below is that value. A structure initialised with `= { }` starts
 * with every field zero, which the constructors of the classes below state.
 */
module SokolTypes {

  // -------------------------------------------------------------------------
  // Capacities of sokol-gfx's fixed arrays
  // -------------------------------------------------------------------------

  const MaxColorAttachments: nat := 4
  const MaxShaderStageBuffers: nat := 4
  const MaxShaderStageImages: nat := 12
  const MaxShaderStageUbs: nat := 4

  // -------------------------------------------------------------------------
  // Resource handles: one 32-bit id, wrapped per resource category
  // -------------------------------------------------------------------------

  datatype SgBuffer = SgBuffer(id: bv32)
  datatype SgImage = SgImage(id: bv32)
  datatype SgShader = SgShader(id: bv32)
  datatype SgPipeline = SgPipeline(id: bv32)

  // -------------------------------------------------------------------------
  // Enumerations
  // -------------------------------------------------------------------------

  datatype SgBufferType = BufferTypeDefault | BufferTypeVertexBuffer | BufferTypeIndexBuffer

  datatype SgUsage = UsageDefault | UsageImmutable | UsageDynamic | UsageStream

  datatype SgPrimitiveType =
    | PrimitiveTypeDefault
    | PrimitiveTypePoints | PrimitiveTypeLines | PrimitiveTypeLineStrip
    | PrimitiveTypeTriangles | PrimitiveTypeTriangleStrip

  datatype SgIndexType = IndexTypeDefault | IndexTypeNone | IndexTypeUInt16 | IndexTypeUInt32

  datatype SgStencilOp =
    | StencilOpDefault
    | StencilOpKeep | StencilOpZero | StencilOpReplace
    | StencilOpIncrClamp | StencilOpDecrClamp | StencilOpInvert
    | StencilOpIncrWrap | StencilOpDecrWrap

  datatype SgCompareFunc =
    | CompareFuncDefault
    | CompareFuncNever | CompareFuncLess | CompareFuncEqual | CompareFuncLessEqual
    | CompareFuncGreater | CompareFuncNotEqual | CompareFuncGreaterEqual | CompareFuncAlways

  datatype SgBlendFactor =
    | BlendFactorDefault
    | BlendFactorZero | BlendFactorOne
    | BlendFactorSrcColor | BlendFactorOneMinusSrcColor
    | BlendFactorSrcAlpha | BlendFactorOneMinusSrcAlpha
    | BlendFactorDstColor | BlendFactorOneMinusDstColor
    | BlendFactorDstAlpha | BlendFactorOneMinusDstAlpha
    | BlendFactorSrcAlphaSaturated
    | BlendFactorBlendColor | BlendFactorOneMinusBlendColor
    | BlendFactorBlendAlpha | BlendFactorOneMinusBlendAlpha

  datatype SgBlendOp = BlendOpDefault | BlendOpAdd | BlendOpSubtract | BlendOpReverseSubtract

  datatype SgPixelFormat =
    | PixelFormatDefault
    | PixelFormatRGBA8 | PixelFormatRGB8 | PixelFormatRGBA4
    | PixelFormatR5G6B5 | PixelFormatR5G5B5A1 | PixelFormatR10G10B10A2
    | PixelFormatRGBA32F | PixelFormatRGBA16F | PixelFormatR32F | PixelFormatL8
    | PixelFormatDXT1 | PixelFormatDXT3 | PixelFormatDXT5
    | PixelFormatDepth | PixelFormatDepthStencil
    | PixelFormatPVRTC2RGB | PixelFormatPVRTC4RGB | PixelFormatPVRTC2RGBA | PixelFormatPVRTC4RGBA
    | PixelFormatETC2RGB8 | PixelFormatETC2SRGB8

  datatype SgVertexStep = VertexStepDefault | VertexStepPerVertex | VertexStepPerInstance

  /** The zero value of sg_vertex_format is called INVALID rather than DEFAULT. */
  datatype SgVertexFormat =
    | VertexFormatInvalid
    | VertexFormatFloat | VertexFormatFloat2 | VertexFormatFloat3 | VertexFormatFloat4
    | VertexFormatByte4 | VertexFormatByte4N | VertexFormatUByte4 | VertexFormatUByte4N
    | VertexFormatShort2 | VertexFormatShort2N | VertexFormatShort4 | VertexFormatShort4N
    | VertexFormatUInt10N2

  datatype SgImageType = ImageTypeDefault | ImageType2D | ImageTypeCube | ImageType3D | ImageTypeArray

  datatype SgFilter =
    | FilterDefault
    | FilterNearest | FilterLinear
    | FilterNearestMipmapNearest | FilterNearestMipmapLinear
    | FilterLinearMipmapNearest | FilterLinearMipmapLinear

  datatype SgWrap = WrapDefault | WrapClampToEdge | WrapRepeat | WrapMirroredRepeat

  datatype SgCullMode = CullModeDefault | CullModeNone | CullModeFront | CullModeBack

  datatype SgAction = ActionDefault | ActionClear | ActionLoad | ActionDontCare

  datatype SgShaderStage = ShaderStageVS | ShaderStageFS

  datatype SgUniformType =
    | UniformTypeInvalid
    | UniformTypeFloat | UniformTypeFloat2 | UniformTypeFloat3 | UniformTypeFloat4 | UniformTypeMat4

  // -------------------------------------------------------------------------
  // sg_color_mask bits (a uint8_t); NONE is its own value because 0 means "default"
  // -------------------------------------------------------------------------

  const ColorMaskR: bv8 := 1
  const ColorMaskG: bv8 := 2
  const ColorMaskB: bv8 := 4
  const ColorMaskA: bv8 := 8
  const ColorMaskNone: bv8 := 0x10

  // -------------------------------------------------------------------------
  // sg_desc: the pool sizes handed to sg_setup
  // -------------------------------------------------------------------------

  datatype SgDesc = SgDesc(
    bufferPoolSize: int,
    imagePoolSize: int,
    shaderPoolSize: int,
    pipelinePoolSize: int,
    passPoolSize: int)

  // -------------------------------------------------------------------------
  // sg_buffer_desc, sg_image_desc, sg_pipeline_desc: the fields the backend sets
  // -------------------------------------------------------------------------

  datatype SgBufferDesc = SgBufferDesc(size: int, bufferType: SgBufferType, usage: SgUsage)

  datatype SgImageDesc = SgImageDesc(
    imageType: SgImageType,
    renderTarget: bool,
    width: int,
    height: int,
    depth: int,
    numMipmaps: int,
    usage: SgUsage,
    pixelFormat: SgPixelFormat,
    sampleCount: int,
    minFilter: SgFilter,
    magFilter: SgFilter,
    wrapU: SgWrap,
    wrapV: SgWrap,
    wrapW: SgWrap)

  datatype SgPipelineDesc = SgPipelineDesc(shader: SgShader, primitiveType: SgPrimitiveType, indexType: SgIndexType)

  // -------------------------------------------------------------------------
  // sg_pass_action
  // -------------------------------------------------------------------------

  /** sg_pass_action: an action and an RGBA clear value per colour attachment, plus depth and stencil. */
  class SgPassAction {
    const colorActions: array<SgAction>
    const colorValues: array2<real>
    var depthAction: SgAction
    var depthValue: real
    var stencilAction: SgAction
    var stencilValue: bv8

    /** `sg_pass_action action = { }`. */
    constructor ()
      ensures fresh(colorActions) && fresh(colorValues)
      ensures colorActions.Length == MaxColorAttachments
      ensures colorValues.Length0 == MaxColorAttachments && colorValues.Length1 == 4
      ensures forall i :: 0 <= i < colorActions.Length ==> colorActions[i] == ActionDefault
      ensures forall i, c :: 0 <= i < colorValues.Length0 && 0 <= c < colorValues.Length1 ==>
                colorValues[i, c] == 0.0
      ensures depthAction == ActionDefault && depthValue == 0.0
      ensures stencilAction == ActionDefault && stencilValue == 0
    {
      colorActions := new SgAction[MaxColorAttachments](_ => ActionDefault);
      colorValues := new real[MaxColorAttachments, 4]((_, _) => 0.0);
      depthAction, depthValue := ActionDefault, 0.0;
      stencilAction, stencilValue := ActionDefault, 0;
    }
  }

  // -------------------------------------------------------------------------
  // sg_draw_state
  // -------------------------------------------------------------------------

  /** sg_draw_state: the pipeline, vertex buffers, index buffer and per-stage images of a draw. */
  class SgDrawState {
    var pipeline: SgPipeline
    const vertexBuffers: array<SgBuffer>
    var indexBuffer: SgBuffer
    const vsImages: array<SgImage>
    const fsImages: array<SgImage>

    /** `sg_draw_state drawState = { }`: every handle is the zero id. */
    constructor ()
      ensures fresh(vertexBuffers) && fresh(vsImages) && fresh(fsImages) && vsImages != fsImages
      ensures vertexBuffers.Length == MaxShaderStageBuffers
      ensures vsImages.Length == MaxShaderStageImages && fsImages.Length == MaxShaderStageImages
      ensures pipeline == SgPipeline(0) && indexBuffer == SgBuffer(0)
      ensures forall i :: 0 <= i < vertexBuffers.Length ==> vertexBuffers[i] == SgBuffer(0)
      ensures forall i :: 0 <= i < vsImages.Length ==> vsImages[i] == SgImage(0)
      ensures forall i :: 0 <= i < fsImages.Length ==> fsImages[i] == SgImage(0)
    {
      pipeline := SgPipeline(0);
      vertexBuffers := new SgBuffer[MaxShaderStageBuffers](_ => SgBuffer(0));
      indexBuffer := SgBuffer(0);
      vsImages := new SgImage[MaxShaderStageImages](_ => SgImage(0));
      fsImages := new SgImage[MaxShaderStageImages](_ => SgImage(0));
    }
  }

  // -------------------------------------------------------------------------
  // sg_shader_desc: the uniform-block and image declarations of both stages
  // -------------------------------------------------------------------------

  /**
   * sg_shader_uniform_block_desc as the backend fills it: the block's byte
   * size and its first (and only) uniform member: name, type, array count.
   */
  datatype SgUniformBlockDesc = SgUniformBlockDesc(
    size: int,
    uniformName: string,
    uniformType: SgUniformType,
    arrayCount: int)

  const ZeroUniformBlockDesc := SgUniformBlockDesc(0, "", UniformTypeInvalid, 0)

  /** sg_shader_image_desc: the sampler name and the image type. */
  datatype SgShaderImageDesc = SgShaderImageDesc(name: string, imageType: SgImageType)

  const ZeroShaderImageDesc := SgShaderImageDesc("", ImageTypeDefault)

  class SgShaderDesc {
    const vsUniformBlocks: array<SgUniformBlockDesc>
    const fsUniformBlocks: array<SgUniformBlockDesc>
    const vsImages: array<SgShaderImageDesc>
    const fsImages: array<SgShaderImageDesc>

    /** `sg_shader_desc desc = { }`. */
    constructor ()
      ensures fresh(vsUniformBlocks) && fresh(fsUniformBlocks) && fresh(vsImages) && fresh(fsImages)
      ensures vsUniformBlocks != fsUniformBlocks && vsImages != fsImages
      ensures vsUniformBlocks.Length == MaxShaderStageUbs && fsUniformBlocks.Length == MaxShaderStageUbs
      ensures vsImages.Length == MaxShaderStageImages && fsImages.Length == MaxShaderStageImages
      ensures forall k :: 0 <= k < vsUniformBlocks.Length ==> vsUniformBlocks[k] == ZeroUniformBlockDesc
      ensures forall k :: 0 <= k < fsUniformBlocks.Length ==> fsUniformBlocks[k] == ZeroUniformBlockDesc
      ensures forall k :: 0 <= k < vsImages.Length ==> vsImages[k] == ZeroShaderImageDesc
      ensures forall k :: 0 <= k < fsImages.Length ==> fsImages[k] == ZeroShaderImageDesc
    {
      vsUniformBlocks := new SgUniformBlockDesc[MaxShaderStageUbs](_ => ZeroUniformBlockDesc);
      fsUniformBlocks := new SgUniformBlockDesc[MaxShaderStageUbs](_ => ZeroUniformBlockDesc);
      vsImages := new SgShaderImageDesc[MaxShaderStageImages](_ => ZeroShaderImageDesc);
      fsImages := new SgShaderImageDesc[MaxShaderStageImages](_ => ZeroShaderImageDesc);
    }
  }
}
