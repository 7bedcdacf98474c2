# Oryol's sokol-gfx backend, modelled in Dafny

Oryol's Gfx module can run on top of the sokol-gfx library. Its
`sokolGfxBackend` class translates the engine's types into sokol-gfx's types
and hands them to the library. This project models the logic that belongs to
the backend itself and proves properties of it:

- **The handle bridge** (module `Handles`). A sokol-gfx handle is one 32-bit
  id: the low 16 bits are a pool slot and the high 16 bits are a generation
  stamp. An engine `Id` holds the slot and the stamp separately, plus a
  resource category.
  - `makeId` decodes a handle under a category given by the caller.
  - `makeShaderId`, `makePipelineId`, `makeBufferId` and `makeImageId` encode
    an Id. Each one requires the Id to carry its own category.
  - The model proves both round trips, the exact bit layout, non-aliasing and
    worked values.
- **The translation tables** (module `Convert`).
  - Fourteen switch tables map engine enum codes to sokol enum values. Every
    `default:` branch goes to sokol's zero value. Each table is proved
    injective through an inverse table, and it gives sokol's default exactly
    for an unnamed code.
  - Three decoders read flag bits: cull mode, colour write mask, and pass
    action. For the pass action, the clear flag wins over the load flag, and
    having neither gives "don't care".
- **The backend object** (module `Backend`).
  - The `isValid` lifecycle: `Setup` and `Discard` take the backend between
    its valid and invalid states.
  - `ApplyDrawState` copies vertex buffers and per-stage images up to the
    first invalid Id.
  - `CreateShader` declares uniform blocks and textures. Each entry is
    appended to the array of its stage, in declaration order, and the two
    stage counters advance as it goes.
  - `BeginPass` builds the default-framebuffer pass action.
  - `CreateBuffer`, `CreateTexture` and `CreatePipeline` translate the enumerated fields of a resource description through the tables. `CreatePipeline` also encodes the pipeline's shader Id.

Modules `OryolTypes` and `SokolTypes` hold the vocabulary: engine enums,
identifiers and value structures on one side; sokol enums, handle wrappers
and the `sg_*` descriptor structures on the other. The three sokol structures
that the backend fills in loops (`sg_pass_action`, `sg_draw_state` and
`sg_shader_desc`) are classes with array fields. Each constructor stands for
`= { }`, and every field starts at zero. The descriptors filled field by
field (`sg_desc`, `sg_buffer_desc`, `sg_image_desc`, `sg_pipeline_desc`) are
datatypes.

Modelling decisions:

- A debug assertion (`o_assert_dbg` or `o_assert`) is a precondition.
- An engine enum is a datatype with one extra catch-all constructor
  `Invalid...`. It stands for every code the switch does not name, so the
  `default:` branches are reachable.
- A call into sokol-gfx is not modelled. A method that hands a descriptor to
  the library returns that descriptor instead. The handle that
  `sg_make_buffer`, `sg_make_image`, `sg_make_pipeline` or `sg_make_shader`
  would answer with is a parameter of the matching `Create...` method.
- Float values (clear colours, depth) are only ever copied, so they are `real`.

## Model

| member | source | states |
|---|---|---|
| Handles.Pack | code/Modules/Gfx/private/sokolGfxBackend.cc:73 | The encoded word holds the slot index in its low 16 bits and the stamp in its high 16 bits, with nothing else in the word. |
| Handles.MakeId | code/Modules/Gfx/private/sokolGfxBackend.cc:61-67 | Every 32-bit id decodes, with no rejection. The result has the requested category, and it is the Id whose packed value is the input. |
| Handles.MakeShaderId | code/Modules/Gfx/private/sokolGfxBackend.cc:70-75 | Only a Shader-tagged Id may be encoded. Decoding the handle as a Shader gives the Id back. |
| Handles.MakePipelineId | code/Modules/Gfx/private/sokolGfxBackend.cc:78-83 | Only a Pipeline-tagged Id may be encoded. Decoding the handle as a Pipeline gives the Id back. |
| Handles.MakeBufferId | code/Modules/Gfx/private/sokolGfxBackend.cc:86-91 | Only a Buffer-tagged Id may be encoded. Decoding the handle as a Buffer gives the Id back. |
| Handles.MakeImageId | code/Modules/Gfx/private/sokolGfxBackend.cc:94-99 | Only a Texture-tagged Id may be encoded. Decoding the handle as a Texture gives the Id back. |
| Handles.RoundTripFromId | code/Modules/Gfx/private/sokolGfxBackend.cc:61-99 | Decoding an encoded Id under its own category gives the Id back. |
| Handles.RoundTripFromHandle | code/Modules/Gfx/private/sokolGfxBackend.cc:61-99 | Encoding a decoded id gives back the same 32 bits, whatever the category. |
| Handles.MakeIdFields | code/Modules/Gfx/private/sokolGfxBackend.cc:63-64 | The slot is `sgId & 0xFFFF` and the stamp is `(sgId >> 16) & 0xFFFF`. |
| Handles.PackInjective | code/Modules/Gfx/private/sokolGfxBackend.cc:73 | Two Ids that differ in slot or stamp never get the same handle value. |
| Handles.MakeIdValidity | code/Modules/Gfx/private/sokolGfxBackend.cc:61-67 | A decoded Id is valid exactly when the handle's low half is not 0xFFFF. |
| Handles.BufferEncodingExample | code/Modules/Gfx/private/sokolGfxBackend.cc:89 | Slot 5 with stamp 1 encodes as 0x00010005. |
| Handles.TextureDecodingExample | code/Modules/Gfx/private/sokolGfxBackend.cc:63-65 | 0x00FF00A0 decodes as slot 0xA0 and stamp 0xFF. |
| Handles.ZeroHandleExample | code/Modules/Gfx/private/sokolGfxBackend.cc:61-67 | The all-zero handle decodes as slot 0 and stamp 0, which is a valid Id. |
| Convert.ConvertBufferType | code/Modules/Gfx/private/sokolGfxBackend.cc:132-138 | Reading the result back gives the input code. The default comes exactly from an unnamed code. |
| Convert.ConvertUsage | code/Modules/Gfx/private/sokolGfxBackend.cc:141-148 | Reading the result back gives the input code. The default comes exactly from an unnamed code. |
| Convert.ConvertPrimitiveType | code/Modules/Gfx/private/sokolGfxBackend.cc:151-160 | Reading the result back gives the input code. The default comes exactly from an unnamed code. |
| Convert.ConvertIndexType | code/Modules/Gfx/private/sokolGfxBackend.cc:163-170 | Reading the result back gives the input code. The default comes exactly from an unnamed code. |
| Convert.ConvertStencilOp | code/Modules/Gfx/private/sokolGfxBackend.cc:173-185 | Reading the result back gives the input code. The default comes exactly from an unnamed code. |
| Convert.ConvertCompareFunc | code/Modules/Gfx/private/sokolGfxBackend.cc:188-200 | Reading the result back gives the input code. The default comes exactly from an unnamed code. |
| Convert.ConvertBlendFactor | code/Modules/Gfx/private/sokolGfxBackend.cc:221-240 | Reading the result back gives the input code. The default comes exactly from an unnamed code. |
| Convert.ConvertBlendOp | code/Modules/Gfx/private/sokolGfxBackend.cc:243-250 | Reading the result back gives the input code. The default comes exactly from an unnamed code. |
| Convert.ConvertPixelFormat | code/Modules/Gfx/private/sokolGfxBackend.cc:268-293 | Reading the result back gives the input code. The default comes exactly from an unnamed code. |
| Convert.ConvertStepFunc | code/Modules/Gfx/private/sokolGfxBackend.cc:341-347 | Reading the result back gives the input code. The default comes exactly from an unnamed code. |
| Convert.ConvertVertexFormat | code/Modules/Gfx/private/sokolGfxBackend.cc:350-367 | Reading the result back gives the input code. INVALID (sokol's zero value) comes exactly from an unnamed code. |
| Convert.ConvertTextureType | code/Modules/Gfx/private/sokolGfxBackend.cc:394-402 | Reading the result back gives the input code. The default comes exactly from an unnamed code. |
| Convert.ConvertFilter | code/Modules/Gfx/private/sokolGfxBackend.cc:405-415 | Reading the result back gives the input code. The default comes exactly from an unnamed code. |
| Convert.ConvertWrap | code/Modules/Gfx/private/sokolGfxBackend.cc:418-425 | Reading the result back gives the input code. The default comes exactly from an unnamed code. |
| Convert.ConvertCullMode | code/Modules/Gfx/private/sokolGfxBackend.cc:315-327 | NONE exactly when culling is off, whatever the face. FRONT exactly when culling is on and the face is Front. BACK exactly when culling is on and the face is anything else. |
| Convert.ConvertColorMask | code/Modules/Gfx/private/sokolGfxBackend.cc:253-265 | An empty mask gives NONE. Otherwise each of R, G, B and A is set exactly when its channel bit is set, and no other bit is set. As written, a non-empty mask with no colour channel (depth or stencil bits only) gives 0, which sokol-gfx reads as its default of all colour channels. The model keeps that behaviour. |
| Convert.ConvertShaderStage | code/Modules/Gfx/private/sokolGfxBackend.cc:824 | The sokol stage is VS exactly when the engine stage is VS. Every other code becomes FS. |
| Convert.CopyClearColor | code/Modules/Gfx/private/sokolGfxBackend.cc:105-107 | Row i receives the four components of the clear colour. Every other row is unchanged. |
| Convert.ClearBit | code/Modules/Gfx/private/sokolGfxBackend.cc:108 | `PassAction::ClearC0<<i`, the clear flag of colour attachment i, defined for shifts below 16, which covers every attachment index. |
| Convert.LoadBit | code/Modules/Gfx/private/sokolGfxBackend.cc:111 | `PassAction::LoadC0<<i`, the load flag of colour attachment i, defined for shifts below 16, which covers every attachment index. |
| Convert.ClearValuesFrom | code/Modules/Gfx/private/sokolGfxBackend.cc:105-107 | The clear colours held in the rows of `colors[].val` from a given row on, four components per row. There is one entry per row from that index to the end of the array. |
| Convert.ActionFor | code/Modules/Gfx/private/sokolGfxBackend.cc:108-116 | CLEAR exactly when the clear bit is set. LOAD exactly when only the load bit is set. DONTCARE exactly when neither bit is set. |
| Convert.ConvertPassAction | code/Modules/Gfx/private/sokolGfxBackend.cc:102-129 | Every colour attachment i gets its clear colour and the action chosen by `ClearC0<<i` over `LoadC0<<i`. Depth gets its value and the action chosen by ClearDS over LoadDS. Stencil gets only its value, and its action is left as it was. The attachments from MaxNumColorAttachments to sokol's MaxColorAttachments keep their actions and clear colours. |
| Backend.ReachedAreTagged | code/Modules/Gfx/private/sokolGfxBackend.cc:790-816 | The tag checks of makeBufferId and makeImageId (lines 88 and 96), applied to the entries the copy loops reach: every entry whose predecessors are all valid, and which is valid itself, carries the given category. Entries after the break are never encoded, so they are not constrained. |
| Backend.ValidPrefixLength | code/Modules/Gfx/private/sokolGfxBackend.cc:790-797 | The number of leading valid entries, which is the index where the copy loop breaks. It is at most the array's length. |
| Backend.ValidPrefixLengthIsFirstInvalid | code/Modules/Gfx/private/sokolGfxBackend.cc:790-797 | Entry i lies before the loop's break point exactly when entries 0 to i are all valid. |
| Backend.CopyVertexBuffers | code/Modules/Gfx/private/sokolGfxBackend.cc:790-797 | Slot i gets the encoded buffer exactly when entries 0 to i are valid. Otherwise it keeps its old value. No slot from the break index ValidPrefixLength on is touched, nor any slot beyond the engine array. |
| Backend.BreakIndexCovered | code/Modules/Gfx/private/sokolGfxBackend.cc:790-816 | Where a copy loop stops (every entry before it valid, the entry at it invalid or past the end) is the break index ValidPrefixLength, and no later entry counts as "all valid up to". |
| Backend.CopyImages | code/Modules/Gfx/private/sokolGfxBackend.cc:801-816 | Slot i gets the encoded image exactly when entries 0 to i are valid. Otherwise it keeps its old value. No slot from the break index ValidPrefixLength on is touched, nor any slot beyond the engine array. |
| Backend.ToVertexStage | code/Modules/Gfx/private/sokolGfxBackend.cc:651-657 | The routing test of both declaration loops: an entry goes to the vertex stage exactly when its stage is VS. Every other code, InvalidShaderStage included, goes to the fragment stage. |
| Backend.OnStage | code/Modules/Gfx/private/sokolGfxBackend.cc:648-658 | Of the first n entries, those that the loop sends to one stage, in declaration order. The length of this list is that stage's counter after n steps, and it is at most n. |
| Backend.OnStageSound | code/Modules/Gfx/private/sokolGfxBackend.cc:651-657 | Every entry in a stage's list is one whose stage the loop routes to that stage. |
| Backend.OnStagePartition | code/Modules/Gfx/private/sokolGfxBackend.cc:649-658 | Each uniform block or texture goes to exactly one of the two stages. The two stage lists together are a permutation of the declarations. |
| Backend.OnStageMonotone | code/Modules/Gfx/private/sokolGfxBackend.cc:648-658 | A stage's counter never decreases as the loop advances. |
| Backend.OnStageRoom | code/Modules/Gfx/private/sokolGfxBackend.cc:651-657 | When both stages fit, entry i finds a free index in its own stage's array. Appending it leaves the other stage's list unchanged. |
| Backend.StageGuards | code/Modules/Gfx/private/sokolGfxBackend.cc:648-681 | The per-entry checks as intended (lines 652, 672 and 676): when entry i is declared, its own stage's counter is below the capacity. |
| Backend.FitsStages | code/Modules/Gfx/private/sokolGfxBackend.cc:648-681 | Each stage receives at most the capacity of its array, which is the precondition of both declaration loops. |
| Backend.UniformBlockGuardsAsWritten | code/Modules/Gfx/private/sokolGfxBackend.cc:651-657 | The checks of the uniform-block loop as written: for every block, whatever its stage, the vertex counter `vsUbIndex` is below the capacity. |
| Backend.OverflowFailsGuard | code/Modules/Gfx/private/sokolGfxBackend.cc:648-681 | If more entries than the capacity go to one stage, the intended per-entry check fails at some entry. |
| Backend.StageGuardsMeanFit | code/Modules/Gfx/private/sokolGfxBackend.cc:648-681 | The intended per-entry checks all pass exactly when each stage's entries fit its array. |
| Backend.AllFragmentBlocks | code/Modules/Gfx/private/sokolGfxBackend.cc:649-658 | With only fragment-stage blocks, the vertex counter stays 0 and every block goes to the fragment stage. |
| Backend.FragmentOverflowPassesWrittenGuards | code/Modules/Gfx/private/sokolGfxBackend.cc:656 | Five fragment-stage blocks pass every check as written, although the fifth lands at index 4 of a four-entry array. The intended checks reject that input. |
| Backend.FittingBlocksFailWrittenGuards | code/Modules/Gfx/private/sokolGfxBackend.cc:656 | Four VS blocks followed by one FS block fit both stages and pass the intended checks, but the FS block fails the check as written. |
| Backend.UniformBlockDescOf | code/Modules/Gfx/private/sokolGfxBackend.cc:659-664 | The declaration keeps the block's size. It has one float4 uniform named after the block type, whose array count covers the size exactly when the size is a multiple of 16. |
| Backend.ImageDescOf | code/Modules/Gfx/private/sokolGfxBackend.cc:679-680 | The image declaration keeps the texture's name, and its type reads back to the texture's type. The type is DEFAULT exactly for an unnamed texture type. |
| Backend.SizesAreVec4Multiples | code/Modules/Gfx/private/sokolGfxBackend.cc:661 | The check `(ubDesc->size & 15) == 0`, applied to every block: each block size is a multiple of 16. DeclareUniformBlocks and CreateShader require it. |
| Backend.UniformBlockDescs | code/Modules/Gfx/private/sokolGfxBackend.cc:648-665 | The declarations the loop writes for a list of blocks, one per block and in order. Their number is the number of blocks. |
| Backend.UniformBlockDescsAt | code/Modules/Gfx/private/sokolGfxBackend.cc:659-664 | Entry k of the declared sequence is the declaration of block k. |
| Backend.ImageDescs | code/Modules/Gfx/private/sokolGfxBackend.cc:668-681 | The declarations the loop writes for a list of textures, one per texture and in order. Their number is the number of textures. |
| Backend.ImageDescsAt | code/Modules/Gfx/private/sokolGfxBackend.cc:679-680 | Entry k of the declared sequence is the declaration of texture k. |
| Backend.UniformBlockDeclaredStep | code/Modules/Gfx/private/sokolGfxBackend.cc:651-658 | Writing a block's declaration at the next free index extends the declared prefix by that block, and leaves the tail alone. |
| Backend.ImageDeclaredStep | code/Modules/Gfx/private/sokolGfxBackend.cc:671-678 | Writing a texture's declaration at the next free index extends the declared prefix by that texture, and leaves the tail alone. |
| Backend.StoreUniformBlockDesc | code/Modules/Gfx/private/sokolGfxBackend.cc:651-664 | One loop step preserves "the array starts with the declared blocks in order, and the tail is untouched". |
| Backend.StoreImageDesc | code/Modules/Gfx/private/sokolGfxBackend.cc:671-680 | One loop step preserves "the array starts with the declared textures in order, and the tail is untouched". |
| Backend.DeclareUniformBlocks | code/Modules/Gfx/private/sokolGfxBackend.cc:648-665 | Each stage's array starts with that stage's blocks in declaration order and is untouched beyond them. The counters end at the number of blocks per stage. The loop requires the intended per-stage check and sizes that are multiples of 16. |
| Backend.DeclareImages | code/Modules/Gfx/private/sokolGfxBackend.cc:668-681 | Each stage's image array starts with that stage's textures in declaration order and is untouched beyond them. The counters end at the number of textures per stage. |
| Backend.SokolGfxBackend.constructor | code/Modules/Gfx/private/sokolGfxBackend.cc:435 | A new backend is not set up, so it passes Setup's check `o_assert(!this->isValid)`. The initial `false` comes from the class header, which is not part of this model. |
| Backend.SokolGfxBackend.IsValid | code/Modules/Gfx/private/sokolGfxBackend.cc:477-479 | The lifecycle state, and every contract of the class is written through it. It is false on a new backend, Setup (lines 435 and 461) turns it from false to true, and Discard (lines 467 and 472) turns it from true to false. Every other operation requires it, as their checks `o_assert_dbg(this->isValid)` do. |
| Backend.SokolGfxBackend.Setup | code/Modules/Gfx/private/sokolGfxBackend.cc:434-462 | Only an invalid backend may be set up, and it is valid afterwards. Each of the five pool sizes is taken from the setup's pool size for its own category. |
| Backend.SokolGfxBackend.Discard | code/Modules/Gfx/private/sokolGfxBackend.cc:466-473 | Only a valid backend may be discarded, and it is invalid afterwards. |
| Backend.SokolGfxBackend.CreateBuffer | code/Modules/Gfx/private/sokolGfxBackend.cc:533-554 | When data is supplied, offset plus size must fit in it. The size is copied, and the buffer type and usage go through their tables. The returned Id is the library's handle, decoded as a Buffer. |
| Backend.SokolGfxBackend.CreateTexture | code/Modules/Gfx/private/sokolGfxBackend.cc:558-598 | The shape fields are copied and every enumerated field goes through its table: type, usage, pixel format, both filters and all three wraps. The returned Id is the library's handle, decoded as a Texture. |
| Backend.SokolGfxBackend.CreatePipeline | code/Modules/Gfx/private/sokolGfxBackend.cc:688-699 | The pipeline's shader must be Shader-tagged, and it is encoded so that it decodes back to itself. Primitive and index types go through their tables. The returned Id is the library's handle, decoded as a Pipeline. |
| Backend.SokolGfxBackend.CreateShader | code/Modules/Gfx/private/sokolGfxBackend.cc:602-684 | Starting from an all-zero descriptor, each stage's uniform blocks and textures are declared in order, with zero entries after them. It requires the intended per-stage check (FitsStages for blocks and for textures), not the uniform-block check as written at line 656, and block sizes that are multiples of 16. The returned Id is the library's handle, decoded as a Shader. |
| Backend.SokolGfxBackend.BeginPass | code/Modules/Gfx/private/sokolGfxBackend.cc:746-759 | A valid pass Id produces nothing. The default framebuffer gets a pass action built from an all-default one. Every colour attachment gets its clear colour and its clear/load/don't-care action, depth gets its value and action, and stencil gets its value while its action stays DEFAULT. The attachments beyond MaxNumColorAttachments keep DEFAULT actions and zero clear colours. |
| Backend.SokolGfxBackend.ApplyDrawState | code/Modules/Gfx/private/sokolGfxBackend.cc:783-818 | It requires a Pipeline-tagged pipeline, a Buffer-tagged index buffer when that is valid, and Buffer or Texture tags (ReachedAreTagged) on exactly the entries that get encoded, as the checks of the make*Id helpers demand. The pipeline is always encoded. The index buffer is set exactly when it is valid. Vertex buffer i and the VS and FS image i are set exactly when entries 0 to i are valid. Every slot beyond the engine arrays keeps the zero handle, in all three sokol arrays. |
| SokolTypes.SgShaderDesc.constructor | code/Modules/Gfx/private/sokolGfxBackend.cc:604 | `sg_shader_desc sgDesc = { }`: every uniform-block and image declaration, in both stages, is zero. The four arrays are distinct. |
| SokolTypes.SgPassAction.constructor | code/Modules/Gfx/private/sokolGfxBackend.cc:754 | `sg_pass_action sgAction = { }`: every action is DEFAULT and every clear value is zero. |
| SokolTypes.SgDrawState.constructor | code/Modules/Gfx/private/sokolGfxBackend.cc:788 | `sg_draw_state sgDrawState = { }`: the pipeline, the index buffer and every vertex-buffer and image slot hold the zero handle. |

## Left out

- Calls into sokol-gfx (`sg_setup`, `sg_shutdown`, `sg_make_shader`, `sg_begin_default_pass`, `sg_apply_draw_state`, `sg_apply_uniform_block` and the rest) are library code. Methods return the descriptor they would pass instead. The handle each `sg_make_*` returns is a parameter.
- The display manager, the resource registry and the label stack are not part of this model. Their implementations are not in this repository's core, so `Setup` and `Discard` model only `isValid` and the pool sizes. `QuitRequested`, `Subscribe`, `Unsubscribe`, `PushResourceLabel`, `PopResourceLabel`, `LookupResource`, `AddResource` and `ProcessSystemEvents` only forward to those parts.
- The platform `#if` blocks are build configuration, not behaviour: shader dialect selection, source or byte code, native device pointers and `gl_force_gles2`. The shader entry-function choice depends on them, so it is left out too.
- `CreatePass`, `DestroyResources`, `UpdateTexture` and `QueryFeature` are FIXME stubs with no behaviour.
- Backend.SokolGfxBackend.CreateBuffer: the data pointer `content` and the native buffer handles are not modelled. They are pointer arithmetic and platform handles. The data is represented only by whether it is present and by its size, for the check at line 535.
- Backend.SokolGfxBackend.CreateTexture: the sub-image content pointers (lines 577-584) and the native texture handles are not modelled, for the same reason.
- Backend.SokolGfxBackend.CreatePipeline models the shader handle (through Handles.MakeShaderId) and the primitive and index types. It does not model the fields filled by `convertVertexLayouts`, `convertDepthStencilState`, `convertBlendState` and `convertRasterizerState` at lines 694-697. Those helpers are field-by-field copies through the tables that are modelled: ConvertStepFunc, ConvertVertexFormat, ConvertStencilOp, ConvertCompareFunc, ConvertBlendFactor, ConvertBlendOp, ConvertColorMask, ConvertPixelFormat and ConvertCullMode. The blend colour and depth-bias floats are not modelled either.
- `UpdateBuffer`, `EndPass`, `ApplyViewPort`, `ApplyScissorRect`, `Draw` and `ResetStateCache` only forward their arguments to sokol-gfx; `UpdateBuffer` encodes its Id with Handles.MakeBufferId first. `CommitFrame` calls `sg_commit` and then the display manager's `Present`. ApplyUniformBlock's one decision, its stage mapping, is Convert.ConvertShaderStage.
- Backend.SokolGfxBackend.constructor: the destructor's check `!isValid` is not modelled, because Dafny has no destructors.
- BeginPass's offscreen branch is empty in the source. The model returns `null` there.
- Floats are only copied, so they are `real`. Precision is not modelled.
- Three headers are not part of this model: Id.h, GfxConfig.h and sokol_gfx.h. What the model takes from them is an assumption, taken to be Oryol's and sokol-gfx's usual values:
  - the slot and stamp types are 16 bits wide;
  - `Id::IsValid()` means `SlotIndex != InvalidSlotIndex` with `InvalidSlotIndex == 0xFFFF`, which ApplyDrawState's break condition, Handles.MakeIdValidity and Handles.ZeroHandleExample rest on;
  - the capacities are 4/4/4/12 and `SG_MAX_SHADERSTAGE_UBS` is 4;
  - the flag and channel bits are as listed in the type modules.
  Every property other than those of Backend.SokolGfxBackend.ApplyDrawState's break condition, Handles.MakeIdValidity, Handles.ZeroHandleExample and the worked counterexamples is stated in terms of the named constants.
- Handles.Pack: the model uses unsigned 32-bit arithmetic. In C++, `UniqueStamp<<16` runs in promoted `int` arithmetic, which overflows for stamps of 0x8000 or more. On the usual compilers the bits are the same once stored as `uint32_t`.
- Backend.UniformBlockDescOf: the array count is stated only for sizes that are multiples of 16, which is the only case the source lets through. For those sizes, Dafny's `/` and C++'s truncating `/` agree, and `size % 16 == 0` is the same test as `(size & 15) == 0`.
- Backend.DeclareUniformBlocks and Backend.SokolGfxBackend.CreateShader: they require the intended per-stage check (FitsStages), not the check as written at line 656. That check is modelled separately by UniformBlockGuardsAsWritten; see Findings.

## Findings

| source | as written | input that shows it | evidently intended | confidence | as-written member | corrected member |
|---|---|---|---|---|---|---|
| code/Modules/Gfx/private/sokolGfxBackend.cc:656 | The fragment-stage branch checks `vsUbIndex < SG_MAX_SHADERSTAGE_UBS`, then writes `fs.uniform_blocks[fsUbIndex++]`. | Five uniform blocks, all bound to FS, each of size 16. Every check passes, and the fifth block is written at index 4 of a four-entry array. | `o_assert_dbg(fsUbIndex < SG_MAX_SHADERSTAGE_UBS)`, which is what the texture loop does at line 676. | not executed | Backend.FragmentOverflowPassesWrittenGuards | Backend.StageGuardsMeanFit |
| code/Modules/Gfx/private/sokolGfxBackend.cc:656 | The same check also rejects inputs that fit: in the fragment-stage branch it tests the vertex counter. | Four uniform blocks bound to VS, then one bound to FS. Both stages fit, yet the check fails at the FS block in a debug build. | The FS block is declared at index 0 of the fragment stage. | not executed | Backend.FittingBlocksFailWrittenGuards | Backend.DeclareUniformBlocks |
