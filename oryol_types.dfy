/**
 * The engine-side (Oryol) vocabulary that the sokol-gfx backend translates:
 * resource categories, the enumerations of the Gfx module, the configuration
 * constants that bound the backend's loops, and the value structures handed
 * to the backend (pass actions, draw states, shader descriptions).
 *
 * Every Oryol enumeration is a C++ `enum Code` whose variable may hold any
 * integer; besides the named codes each datatype below has one catch-all
 * constructor `Invalid...` that stands for every other code (the `Num...`
 * count and the `Invalid...` sentinel included), so that the `default:`
 * branches of the conversion switches are reachable in the model.
 */
module OryolTypes {

  // -------------------------------------------------------------------------
  // GfxConfig: compile-time capacities of the engine's fixed arrays
  // -------------------------------------------------------------------------

  const MaxNumColorAttachments: nat := 4
  const MaxNumVertexBuffers: nat := 4
  const MaxNumVertexTextures: nat := 4
  const MaxNumFragmentTextures: nat := 12

  // -------------------------------------------------------------------------
  // Resource categories (GfxResourceType::Code)
  // -------------------------------------------------------------------------

  datatype ResourceType = Texture | Buffer | Shader | Pipeline | RenderPass | InvalidResourceType

  // -------------------------------------------------------------------------
  // Resource identifiers (Id): a category tag, a pool slot and a generation stamp
  // -------------------------------------------------------------------------

  /** The slot index that marks an identifier as invalid (Id::InvalidSlotIndex). */
  const InvalidSlotIndex: bv16 := 0xFFFF

  /**
   * An engine resource identifier. The 16-bit stamp is bumped each time a
   * pool slot is reused, so that a stale identifier can be told from a live one.
   */
  datatype Id = Id(uniqueStamp: bv16, slotIndex: bv16, resourceType: ResourceType)
  {
    /** Id::IsValid: the identifier refers to some slot. */
    predicate IsValid() {
      slotIndex != InvalidSlotIndex
    }
  }

  // -------------------------------------------------------------------------
  // Enumerations converted one-to-one into sokol-gfx enumerations
  // -------------------------------------------------------------------------

  datatype BufferType = VertexBuffer | IndexBuffer | InvalidBufferType

  datatype Usage = Immutable | Dynamic | Stream | InvalidUsage

  datatype PrimitiveType = Points | Lines | LineStrip | Triangles | TriangleStrip | InvalidPrimitiveType

  datatype IndexType = None | UInt16 | UInt32 | InvalidIndexType

  datatype StencilOp =
    | Keep | Zero | Replace | IncrClamp | DecrClamp | Invert | IncrWrap | DecrWrap
    | InvalidStencilOp

  datatype CompareFunc =
    | Never | Less | Equal | LessEqual | Greater | NotEqual | GreaterEqual | Always
    | InvalidCompareFunc

  datatype BlendFactor =
    | Zero | One
    | SrcColor | OneMinusSrcColor | SrcAlpha | OneMinusSrcAlpha
    | DstColor | OneMinusDstColor | DstAlpha | OneMinusDstAlpha
    | SrcAlphaSaturated
    | BlendColor | OneMinusBlendColor | BlendAlpha | OneMinusBlendAlpha
    | InvalidBlendFactor

  datatype BlendOperation = Add | Subtract | ReverseSubtract | InvalidBlendOperation

  datatype PixelFormat =
    | RGBA8 | RGB8 | RGBA4 | R5G6B5 | R5G5B5A1 | R10G10B10A2
    | RGBA32F | RGBA16F | R32F | L8
    | DXT1 | DXT3 | DXT5
    | DEPTH | DEPTHSTENCIL
    | PVRTC2_RGB | PVRTC4_RGB | PVRTC2_RGBA | PVRTC4_RGBA
    | ETC2_RGB8 | ETC2_SRGB8
    | InvalidPixelFormat

  datatype VertexStepFunction = PerVertex | PerInstance | InvalidVertexStepFunction

  datatype VertexFormat =
    | Float | Float2 | Float3 | Float4
    | Byte4 | Byte4N | UByte4 | UByte4N
    | Short2 | Short2N | Short4 | Short4N
    | UInt10_2N
    | InvalidVertexFormat

  datatype TextureType = Texture2D | TextureCube | Texture3D | TextureArray | InvalidTextureType

  datatype TextureFilterMode =
    | Nearest | Linear
    | NearestMipmapNearest | NearestMipmapLinear | LinearMipmapNearest | LinearMipmapLinear
    | InvalidTextureFilterMode

  datatype TextureWrapMode = ClampToEdge | Repeat | MirroredRepeat | InvalidTextureWrapMode

  /** Face::Code, the face a pipeline culls when culling is enabled. */
  datatype Face = Front | Back | Both | InvalidFace

  /** ShaderStage::Code, the stage a uniform block or a texture is bound to. */
  datatype ShaderStage = VS | FS | InvalidShaderStage

  // -------------------------------------------------------------------------
  // PixelChannel::Mask bits (a uint8_t)
  // -------------------------------------------------------------------------

  const ChannelAlpha: bv8 := 1
  const ChannelBlue: bv8 := 2
  const ChannelGreen: bv8 := 4
  const ChannelRed: bv8 := 8

  // -------------------------------------------------------------------------
  // PassAction: what to do with each framebuffer attachment at pass start
  // -------------------------------------------------------------------------

  /** The bit of attachment 0 in each group; attachment i uses the bit shifted left by i. */
  const ClearC0: bv32 := 1
  const ClearDS: bv32 := 0x10
  const LoadC0: bv32 := 0x20
  const LoadDS: bv32 := 0x200

  /**
   * A PassAction value: one RGBA clear colour per colour attachment (float
   * components, only ever copied, so modelled as `real`), the depth clear
   * value, the 8-bit stencil clear value, and the action flags.
   */
  datatype PassAction = PassAction(color: seq<seq<real>>, depth: real, stencil: bv8, flags: bv32)
  {
    /** The fixed shape of the C++ arrays `Color[MaxNumColorAttachments]` of `glm::vec4`. */
    predicate WellFormed() {
      |color| == MaxNumColorAttachments && forall i :: 0 <= i < |color| ==> |color[i]| == 4
    }
  }

  // -------------------------------------------------------------------------
  // DrawState: the pipeline and resources bound for the next draw call
  // -------------------------------------------------------------------------

  datatype DrawState = DrawState(
    pipeline: Id,
    vertexBuffers: seq<Id>,
    indexBuffer: Id,
    vsTextures: seq<Id>,
    fsTextures: seq<Id>)
  {
    /** The fixed shape of the C++ arrays `VertexBuffers`, `VSTexture` and `FSTexture`. */
    predicate WellFormed() {
      && |vertexBuffers| == MaxNumVertexBuffers
      && |vsTextures| == MaxNumVertexTextures
      && |fsTextures| == MaxNumFragmentTextures
    }
  }

  // -------------------------------------------------------------------------
  // Shader descriptions: the parts the uniform-block and texture loops read
  // -------------------------------------------------------------------------

  /** Uniform block i of a ShaderDesc: its bind stage, its byte size and its type name. */
  datatype UniformBlockDecl = UniformBlockDecl(stage: ShaderStage, byteSize: int, typeName: string)

  /** Texture i of a ShaderDesc: its bind stage, its texture type and its name. */
  datatype TextureDecl = TextureDecl(stage: ShaderStage, texType: TextureType, name: string)

  datatype ShaderDesc = ShaderDesc(uniformBlocks: seq<UniformBlockDecl>, textures: seq<TextureDecl>)

  // -------------------------------------------------------------------------
  // Resource descriptions: the parts the backend translates field by field
  // -------------------------------------------------------------------------

  /** BufferDesc: byte size, offset of the data in the caller's memory, buffer type and usage. */
  datatype BufferDesc = BufferDesc(size: int, offset: int, bufferType: BufferType, usage: Usage)

  /** TextureDesc: the texture's type, shape, pixel format and sampler state. */
  datatype TextureDesc = TextureDesc(
    texType: TextureType,
    renderTarget: bool,
    width: int,
    height: int,
    depth: int,
    numMipMaps: int,
    usage: Usage,
    format: PixelFormat,
    sampleCount: int,
    minFilter: TextureFilterMode,
    magFilter: TextureFilterMode,
    wrapU: TextureWrapMode,
    wrapV: TextureWrapMode,
    wrapW: TextureWrapMode)

  /** PipelineDesc: the shader a pipeline runs, its primitive type and its index type. */
  datatype PipelineDesc = PipelineDesc(shader: Id, primType: PrimitiveType, indexType: IndexType)

  // -------------------------------------------------------------------------
  // GfxSetup: the resource pool sizes passed on to sokol-gfx
  // -------------------------------------------------------------------------

  datatype GfxSetup = GfxSetup(resourcePoolSize: ResourceType -> int)
}
