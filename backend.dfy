/**
 * The sokol-gfx backend object: its valid/invalid lifecycle, and the three
 * operations whose logic is the backend's own rather than a call into
 * sokol-gfx: binding a draw state (vertex buffers and per-stage images are
 * copied up to the first invalid Id), declaring a shader's uniform blocks
 * and textures (each is appended to the array of its stage), and starting a
 * pass on the default framebuffer.
 *
 * The calls into sokol-gfx are not modelled: a method that hands a
 * descriptor to the library returns that descriptor instead, and the id the
 * library answers with (`sg_make_shader(...).id`) is a parameter.
 */
module Backend {
  import opened OryolTypes
  import opened SokolTypes
  import opened Handles
  import opened Convert

  // -------------------------------------------------------------------------
  // Draw state: copy up to the first invalid Id
  // -------------------------------------------------------------------------

  /** Entries 0 to i of `ids` are all valid, so a loop that stops at the first invalid entry copies entry i. */
  predicate ValidUpTo(ids: seq<Id>, i: int)
    requires 0 <= i < |ids|
  {
    forall j :: 0 <= j <= i ==> ids[j].IsValid()
  }

  /** Every entry such a loop reaches carries the given category, as the encoder it is passed to demands. */
  predicate ReachedAreTagged(ids: seq<Id>, resourceType: ResourceType) {
    forall i :: 0 <= i < |ids| && ValidUpTo(ids, i) ==> ids[i].resourceType == resourceType
  }

  /** The number of leading valid entries: the index at which the copy loop breaks, or |ids|. */
  function ValidPrefixLength(ids: seq<Id>): (n: nat)
    ensures n <= |ids|
  {
    if ids == [] || !ids[0].IsValid() then 0 else 1 + ValidPrefixLength(ids[1..])
  }

  /** Entry i lies inside the leading run of valid entries exactly when entries 0 to i are all valid. */
  lemma {:induction false} ValidPrefixLengthIsFirstInvalid(ids: seq<Id>, i: int)
    requires 0 <= i < |ids|
    ensures i < ValidPrefixLength(ids) <==> ValidUpTo(ids, i)
  {
    if ids[0].IsValid() && i > 0 {
      ValidPrefixLengthIsFirstInvalid(ids[1..], i - 1);
      assert ValidUpTo(ids, i) <==> ValidUpTo(ids[1..], i - 1) by {
        if ValidUpTo(ids[1..], i - 1) {
          forall j | 0 <= j <= i ensures ids[j].IsValid() {
            if j > 0 { assert ids[j] == ids[1..][j - 1]; }
          }
        }
        if ValidUpTo(ids, i) {
          forall j | 0 <= j <= i - 1 ensures ids[1..][j].IsValid() {
            assert ids[1..][j] == ids[j + 1];
          }
        }
      }
    }
  }

  // -------------------------------------------------------------------------
  // Shader declarations: each entry goes to the array of its stage
  // -------------------------------------------------------------------------

  /** The loops of CreateShader send an entry bound to VS to the vertex stage and every other one to the fragment stage. */
  predicate ToVertexStage(stage: ShaderStage) {
    stage == VS
  }

  function StageOfBlock(b: UniformBlockDecl): ShaderStage { b.stage }

  function StageOfTexture(t: TextureDecl): ShaderStage { t.stage }

  /**
   * Of the first n entries (uniform blocks or textures), those that end up
   * in the vertex stage's array (vs) or in the fragment stage's array (!vs),
   * in declaration order.
   */
  function OnStage<T>(items: seq<T>, n: nat, stageOf: T -> ShaderStage, vs: bool): (r: seq<T>)
    requires n <= |items|
    ensures |r| <= n
  {
    if n == 0 then []
    else if ToVertexStage(stageOf(items[n - 1])) == vs then OnStage(items, n - 1, stageOf, vs) + [items[n - 1]]
    else OnStage(items, n - 1, stageOf, vs)
  }

  lemma PrefixSnoc<T>(items: seq<T>, n: nat)
    requires 0 < n <= |items|
    ensures items[..n] == items[..n - 1] + [items[n - 1]]
  {
  }

  lemma MultisetSnoc<T>(s: seq<T>, x: T)
    ensures multiset(s + [x]) == multiset(s) + multiset{x}
  {
  }

  lemma MultisetShift<T>(a: multiset<T>, b: multiset<T>, x: T)
    ensures (a + multiset{x}) + b == (a + b) + multiset{x}
    ensures a + (b + multiset{x}) == (a + b) + multiset{x}
  {
  }

  /** An entry sent to a stage's array is one whose stage the loop routes there. */
  lemma {:induction false} OnStageSound<T>(items: seq<T>, n: nat, stageOf: T -> ShaderStage, vs: bool)
    requires n <= |items|
    ensures forall x :: x in OnStage(items, n, stageOf, vs) ==> ToVertexStage(stageOf(x)) == vs
  {
    if n > 0 {
      OnStageSound(items, n - 1, stageOf, vs);
    }
  }

  /** Every entry lands in exactly one of the two stages: the two arrays together hold each entry once. */
  lemma {:induction false} OnStagePartition<T>(items: seq<T>, n: nat, stageOf: T -> ShaderStage)
    requires n <= |items|
    ensures |OnStage(items, n, stageOf, true)| + |OnStage(items, n, stageOf, false)| == n
    ensures multiset(OnStage(items, n, stageOf, true)) + multiset(OnStage(items, n, stageOf, false))
            == multiset(items[..n])
  {
    if n > 0 {
      OnStagePartition(items, n - 1, stageOf);
      var x := items[n - 1];
      PrefixSnoc(items, n);
      MultisetSnoc(items[..n - 1], x);
      if ToVertexStage(stageOf(x)) {
        MultisetSnoc(OnStage(items, n - 1, stageOf, true), x);
      } else {
        MultisetSnoc(OnStage(items, n - 1, stageOf, false), x);
      }
      MultisetShift(multiset(OnStage(items, n - 1, stageOf, true)), multiset(OnStage(items, n - 1, stageOf, false)), x);
    }
  }

  /** A prefix holds no more entries of a stage than a longer prefix. */
  lemma {:induction false} OnStageMonotone<T>(items: seq<T>, stageOf: T -> ShaderStage, vs: bool, i: nat, n: nat)
    requires i <= n <= |items|
    ensures |OnStage(items, i, stageOf, vs)| <= |OnStage(items, n, stageOf, vs)|
  {
    if i < n {
      OnStageMonotone(items, stageOf, vs, i, n - 1);
    }
  }

  /** When every stage fits, entry i finds a free slot in its own stage's array. */
  lemma OnStageRoom<T>(items: seq<T>, stageOf: T -> ShaderStage, capacity: nat, i: int)
    requires 0 <= i < |items|
    requires FitsStages(items, stageOf, capacity)
    ensures |OnStage(items, i, stageOf, ToVertexStage(stageOf(items[i])))| < capacity
    ensures OnStage(items, i + 1, stageOf, ToVertexStage(stageOf(items[i])))
            == OnStage(items, i, stageOf, ToVertexStage(stageOf(items[i]))) + [items[i]]
    ensures OnStage(items, i + 1, stageOf, !ToVertexStage(stageOf(items[i])))
            == OnStage(items, i, stageOf, !ToVertexStage(stageOf(items[i])))
  {
    OnStageMonotone(items, stageOf, ToVertexStage(stageOf(items[i])), i + 1, |items|);
  }

  /**
   * The debug checks of both declaration loops as evidently intended: when
   * entry i is declared, the array of its own stage still has a free slot.
   */
  predicate StageGuards<T>(items: seq<T>, stageOf: T -> ShaderStage, capacity: nat) {
    forall i :: 0 <= i < |items| ==> |OnStage(items, i, stageOf, ToVertexStage(stageOf(items[i])))| < capacity
  }

  /** Each stage has at most `capacity` entries: what the declaration methods require. */
  predicate FitsStages<T>(items: seq<T>, stageOf: T -> ShaderStage, capacity: nat) {
    && |OnStage(items, |items|, stageOf, true)| <= capacity
    && |OnStage(items, |items|, stageOf, false)| <= capacity
  }

  /**
   * If more than `capacity` of the first n entries go to one stage, the check
   * fails at the entry that would take index `capacity` of that stage.
   */
  lemma {:induction false} OverflowFailsGuard<T>(items: seq<T>, n: nat, stageOf: T -> ShaderStage, vs: bool, capacity: nat)
    requires n <= |items|
    requires |OnStage(items, n, stageOf, vs)| > capacity
    ensures exists i :: 0 <= i < n && |OnStage(items, i, stageOf, ToVertexStage(stageOf(items[i])))| >= capacity
  {
    if ToVertexStage(stageOf(items[n - 1])) == vs && |OnStage(items, n - 1, stageOf, vs)| == capacity {
      assert |OnStage(items, n - 1, stageOf, ToVertexStage(stageOf(items[n - 1])))| >= capacity;
    } else {
      OverflowFailsGuard(items, n - 1, stageOf, vs, capacity);
    }
  }

  /** The checks made entry by entry succeed exactly when every stage's entries fit its array. */
  lemma StageGuardsMeanFit<T>(items: seq<T>, stageOf: T -> ShaderStage, capacity: nat)
    ensures StageGuards(items, stageOf, capacity) <==> FitsStages(items, stageOf, capacity)
  {
    if FitsStages(items, stageOf, capacity) {
      forall i | 0 <= i < |items|
        ensures |OnStage(items, i, stageOf, ToVertexStage(stageOf(items[i])))| < capacity
      {
        OnStageMonotone(items, stageOf, ToVertexStage(stageOf(items[i])), i + 1, |items|);
      }
    } else if |OnStage(items, |items|, stageOf, true)| > capacity {
      OverflowFailsGuard(items, |items|, stageOf, true, capacity);
    } else {
      OverflowFailsGuard(items, |items|, stageOf, false, capacity);
    }
  }

  /**
   * The debug checks of the uniform-block loop as written: both branches
   * test the vertex-stage counter `vsUbIndex`.
   */
  predicate UniformBlockGuardsAsWritten(blocks: seq<UniformBlockDecl>, capacity: nat) {
    forall i :: 0 <= i < |blocks| ==> |OnStage(blocks, i, StageOfBlock, true)| < capacity
  }

  /** With only fragment-stage blocks, nothing goes to the vertex stage and everything to the fragment stage. */
  lemma {:induction false} AllFragmentBlocks(blocks: seq<UniformBlockDecl>, n: nat)
    requires n <= |blocks|
    requires forall i :: 0 <= i < |blocks| ==> blocks[i].stage == FS
    ensures OnStage(blocks, n, StageOfBlock, true) == [] && OnStage(blocks, n, StageOfBlock, false) == blocks[..n]
  {
    if n > 0 {
      AllFragmentBlocks(blocks, n - 1);
      assert blocks[..n] == blocks[..n - 1] + [blocks[n - 1]];
    }
  }

  /**
   * Line 656 checks `vsUbIndex` where `fsUbIndex` is meant: five
   * fragment-stage blocks pass every check as written, although the fifth is
   * written at index 4 of the fragment stage's four-entry array. The
   * intended checks reject the same input.
   */
  lemma FragmentOverflowPassesWrittenGuards()
    ensures var blocks := seq(5, _ => UniformBlockDecl(FS, 16, "params"));
            && UniformBlockGuardsAsWritten(blocks, MaxShaderStageUbs)
            && !StageGuards(blocks, StageOfBlock, MaxShaderStageUbs)
            && |OnStage(blocks, |blocks|, StageOfBlock, false)| > MaxShaderStageUbs
  {
    var blocks := seq(5, _ => UniformBlockDecl(FS, 16, "params"));
    forall i | 0 <= i < |blocks| ensures |OnStage(blocks, i, StageOfBlock, true)| < MaxShaderStageUbs {
      AllFragmentBlocks(blocks, i);
    }
    AllFragmentBlocks(blocks, 4);
    assert StageOfBlock(blocks[4]) == FS;
  }

  /**
   * The other side of line 656: four vertex-stage blocks followed by one
   * fragment-stage block fit both stages, yet the fifth block fails the
   * check as written, because the vertex counter has reached 4.
   */
  lemma FittingBlocksFailWrittenGuards()
    ensures var blocks := seq(4, _ => UniformBlockDecl(VS, 16, "params")) + [UniformBlockDecl(FS, 16, "params")];
            && FitsStages(blocks, StageOfBlock, MaxShaderStageUbs)
            && StageGuards(blocks, StageOfBlock, MaxShaderStageUbs)
            && !UniformBlockGuardsAsWritten(blocks, MaxShaderStageUbs)
  {
    var blocks := seq(4, _ => UniformBlockDecl(VS, 16, "params")) + [UniformBlockDecl(FS, 16, "params")];
    forall k | 0 <= k < 4 ensures blocks[k].stage == VS { }
    assert blocks[4].stage == FS;
    assert |OnStage(blocks, 1, StageOfBlock, true)| == 1 && |OnStage(blocks, 1, StageOfBlock, false)| == 0;
    assert |OnStage(blocks, 2, StageOfBlock, true)| == 2 && |OnStage(blocks, 2, StageOfBlock, false)| == 0;
    assert |OnStage(blocks, 3, StageOfBlock, true)| == 3 && |OnStage(blocks, 3, StageOfBlock, false)| == 0;
    assert |OnStage(blocks, 4, StageOfBlock, true)| == 4 && |OnStage(blocks, 4, StageOfBlock, false)| == 0;
    assert |OnStage(blocks, 5, StageOfBlock, true)| == 4 && |OnStage(blocks, 5, StageOfBlock, false)| == 1;
    StageGuardsMeanFit(blocks, StageOfBlock, MaxShaderStageUbs);
  }

  /**
   * The uniform block declaration the loop writes: the block's size, and one
   * float4 array uniform named after the block type, which covers the block
   * exactly when its size is a multiple of 16 (the size of a vec4).
   */
  function UniformBlockDescOf(b: UniformBlockDecl): (d: SgUniformBlockDesc)
    ensures d.size == b.byteSize
    ensures b.byteSize % 16 == 0 ==> d.arrayCount * 16 == d.size
    ensures d.uniformName == b.typeName && d.uniformType == UniformTypeFloat4
  {
    SgUniformBlockDesc(b.byteSize, b.typeName, UniformTypeFloat4, b.byteSize / 16)
  }

  /**
   * The image declaration the texture loop writes for one texture. It keeps
   * the texture's name and its type: the type can be read back from it, and
   * it is DEFAULT exactly for an unnamed texture type.
   */
  function ImageDescOf(t: TextureDecl): (d: SgShaderImageDesc)
    ensures d.name == t.name
    ensures TextureTypeFromSg(d.imageType) == t.texType
    ensures d.imageType == ImageTypeDefault <==> t.texType == InvalidTextureType
  {
    SgShaderImageDesc(t.name, ConvertTextureType(t.texType))
  }

  /** The uniform-block and image arrays of `sg_shader_desc desc = { }`. */
  const ZeroUniformBlocks: seq<SgUniformBlockDesc> := seq(MaxShaderStageUbs, _ => ZeroUniformBlockDesc)
  const ZeroImages: seq<SgShaderImageDesc> := seq(MaxShaderStageImages, _ => ZeroShaderImageDesc)

  /** Every block size is a multiple of 16 (the check `(size & 15) == 0`). */
  predicate SizesAreVec4Multiples(blocks: seq<UniformBlockDecl>) {
    forall i :: 0 <= i < |blocks| ==> blocks[i].byteSize % 16 == 0
  }

  /** The declarations of `blocks`, one per block, in order. */
  function UniformBlockDescs(blocks: seq<UniformBlockDecl>): (r: seq<SgUniformBlockDesc>)
    ensures |r| == |blocks|
  {
    if blocks == [] then [] else UniformBlockDescs(blocks[..|blocks| - 1]) + [UniformBlockDescOf(blocks[|blocks| - 1])]
  }

  /** Entry k of the declarations is the declaration of block k. */
  lemma {:induction false} UniformBlockDescsAt(blocks: seq<UniformBlockDecl>, k: int)
    requires 0 <= k < |blocks|
    ensures UniformBlockDescs(blocks)[k] == UniformBlockDescOf(blocks[k])
  {
    if k < |blocks| - 1 {
      UniformBlockDescsAt(blocks[..|blocks| - 1], k);
    }
  }

  /**
   * The array contents `a` start with the declarations of `blocks` in order,
   * and the entries after them still hold `rest`'s values.
   */
  predicate UniformBlocksDeclared(a: seq<SgUniformBlockDesc>, blocks: seq<UniformBlockDecl>, rest: seq<SgUniformBlockDesc>) {
    |blocks| <= |rest| && a == UniformBlockDescs(blocks) + rest[|blocks|..]
  }

  /** Writing block b's declaration at the next free index extends the declared prefix by b. */
  lemma UniformBlockDeclaredStep(a: seq<SgUniformBlockDesc>, blocks: seq<UniformBlockDecl>, rest: seq<SgUniformBlockDesc>, b: UniformBlockDecl)
    requires UniformBlocksDeclared(a, blocks, rest) && |blocks| < |rest|
    ensures UniformBlocksDeclared(a[|blocks| := UniformBlockDescOf(b)], blocks + [b], rest)
  {
    assert (blocks + [b])[..|blocks|] == blocks;
    assert a[|blocks| := UniformBlockDescOf(b)] == UniformBlockDescs(blocks + [b]) + rest[|blocks| + 1..];
  }

  /** One step of the uniform-block loop: the declaration of block b goes to the next free entry. */
  method StoreUniformBlockDesc(ubs: array<SgUniformBlockDesc>, idx: nat, b: UniformBlockDecl,
                               ghost declared: seq<UniformBlockDecl>, ghost rest: seq<SgUniformBlockDesc>)
    requires idx == |declared| < |rest|
    requires UniformBlocksDeclared(ubs[..], declared, rest)
    modifies ubs
    ensures UniformBlocksDeclared(ubs[..], declared + [b], rest)
  {
    UniformBlockDeclaredStep(ubs[..], declared, rest, b);
    ubs[idx] := UniformBlockDescOf(b);
  }

  /**
   * The uniform-block loop of CreateShader: block i is written to the next
   * free entry of its stage's array. Afterwards each stage's array starts
   * with that stage's blocks in declaration order and is untouched beyond;
   * the counters are the number of blocks of each stage. The precondition
   * is the intended per-block check (see StageGuardsMeanFit).
   */
  method DeclareUniformBlocks(blocks: seq<UniformBlockDecl>, sg: SgShaderDesc)
    returns (vsUbIndex: nat, fsUbIndex: nat)
    requires sg.vsUniformBlocks != sg.fsUniformBlocks
    requires sg.vsUniformBlocks.Length == MaxShaderStageUbs && sg.fsUniformBlocks.Length == MaxShaderStageUbs
    requires FitsStages(blocks, StageOfBlock, MaxShaderStageUbs)
    requires SizesAreVec4Multiples(blocks)
    modifies sg.vsUniformBlocks, sg.fsUniformBlocks
    ensures vsUbIndex == |OnStage(blocks, |blocks|, StageOfBlock, true)|
    ensures fsUbIndex == |OnStage(blocks, |blocks|, StageOfBlock, false)|
    ensures UniformBlocksDeclared(sg.vsUniformBlocks[..], OnStage(blocks, |blocks|, StageOfBlock, true), old(sg.vsUniformBlocks[..]))
    ensures UniformBlocksDeclared(sg.fsUniformBlocks[..], OnStage(blocks, |blocks|, StageOfBlock, false), old(sg.fsUniformBlocks[..]))
  {
    vsUbIndex, fsUbIndex := 0, 0;
    ghost var vsBlocks: seq<UniformBlockDecl> := [];
    ghost var fsBlocks: seq<UniformBlockDecl> := [];
    ghost var vs0 := sg.vsUniformBlocks[..];
    ghost var fs0 := sg.fsUniformBlocks[..];
    for i := 0 to |blocks|
      invariant vsBlocks == OnStage(blocks, i, StageOfBlock, true)
      invariant fsBlocks == OnStage(blocks, i, StageOfBlock, false)
      invariant vsUbIndex == |vsBlocks| && fsUbIndex == |fsBlocks|
      invariant UniformBlocksDeclared(sg.vsUniformBlocks[..], vsBlocks, vs0)
      invariant UniformBlocksDeclared(sg.fsUniformBlocks[..], fsBlocks, fs0)
    {
      var b := blocks[i];
      var toVs := ToVertexStage(StageOfBlock(b));
      OnStageRoom(blocks, StageOfBlock, MaxShaderStageUbs, i);
      if toVs {
        StoreUniformBlockDesc(sg.vsUniformBlocks, vsUbIndex, b, vsBlocks, vs0);
        vsUbIndex := vsUbIndex + 1;
        vsBlocks := vsBlocks + [b];
      } else {
        StoreUniformBlockDesc(sg.fsUniformBlocks, fsUbIndex, b, fsBlocks, fs0);
        fsUbIndex := fsUbIndex + 1;
        fsBlocks := fsBlocks + [b];
      }
    }
  }

  /** The declarations of `textures`, one per texture, in order. */
  function ImageDescs(textures: seq<TextureDecl>): (r: seq<SgShaderImageDesc>)
    ensures |r| == |textures|
  {
    if textures == [] then [] else ImageDescs(textures[..|textures| - 1]) + [ImageDescOf(textures[|textures| - 1])]
  }

  /** Entry k of the declarations is the declaration of texture k. */
  lemma {:induction false} ImageDescsAt(textures: seq<TextureDecl>, k: int)
    requires 0 <= k < |textures|
    ensures ImageDescs(textures)[k] == ImageDescOf(textures[k])
  {
    if k < |textures| - 1 {
      ImageDescsAt(textures[..|textures| - 1], k);
    }
  }

  /**
   * The array contents `a` start with the declarations of `textures` in
   * order, and the entries after them still hold `rest`'s values.
   */
  predicate ImagesDeclared(a: seq<SgShaderImageDesc>, textures: seq<TextureDecl>, rest: seq<SgShaderImageDesc>) {
    |textures| <= |rest| && a == ImageDescs(textures) + rest[|textures|..]
  }

  /** Writing texture t's declaration at the next free index extends the declared prefix by t. */
  lemma ImageDeclaredStep(a: seq<SgShaderImageDesc>, textures: seq<TextureDecl>, rest: seq<SgShaderImageDesc>, t: TextureDecl)
    requires ImagesDeclared(a, textures, rest) && |textures| < |rest|
    ensures ImagesDeclared(a[|textures| := ImageDescOf(t)], textures + [t], rest)
  {
    assert (textures + [t])[..|textures|] == textures;
    assert a[|textures| := ImageDescOf(t)] == ImageDescs(textures + [t]) + rest[|textures| + 1..];
  }

  /** One step of the texture loop: the declaration of texture t goes to the next free entry. */
  method StoreImageDesc(images: array<SgShaderImageDesc>, idx: nat, t: TextureDecl,
                        ghost declared: seq<TextureDecl>, ghost rest: seq<SgShaderImageDesc>)
    requires idx == |declared| < |rest|
    requires ImagesDeclared(images[..], declared, rest)
    modifies images
    ensures ImagesDeclared(images[..], declared + [t], rest)
  {
    ImageDeclaredStep(images[..], declared, rest, t);
    images[idx] := ImageDescOf(t);
  }

  /**
   * The texture loop of CreateShader: texture i is written to the next free
   * entry of its stage's image array, with the same ordering and framing as
   * the uniform blocks.
   */
  method DeclareImages(textures: seq<TextureDecl>, sg: SgShaderDesc)
    returns (vsImgIndex: nat, fsImgIndex: nat)
    requires sg.vsImages != sg.fsImages
    requires sg.vsImages.Length == MaxShaderStageImages && sg.fsImages.Length == MaxShaderStageImages
    requires FitsStages(textures, StageOfTexture, MaxShaderStageImages)
    modifies sg.vsImages, sg.fsImages
    ensures vsImgIndex == |OnStage(textures, |textures|, StageOfTexture, true)|
    ensures fsImgIndex == |OnStage(textures, |textures|, StageOfTexture, false)|
    ensures ImagesDeclared(sg.vsImages[..], OnStage(textures, |textures|, StageOfTexture, true), old(sg.vsImages[..]))
    ensures ImagesDeclared(sg.fsImages[..], OnStage(textures, |textures|, StageOfTexture, false), old(sg.fsImages[..]))
  {
    vsImgIndex, fsImgIndex := 0, 0;
    ghost var vsTextures: seq<TextureDecl> := [];
    ghost var fsTextures: seq<TextureDecl> := [];
    ghost var vs0 := sg.vsImages[..];
    ghost var fs0 := sg.fsImages[..];
    for i := 0 to |textures|
      invariant vsTextures == OnStage(textures, i, StageOfTexture, true)
      invariant fsTextures == OnStage(textures, i, StageOfTexture, false)
      invariant vsImgIndex == |vsTextures| && fsImgIndex == |fsTextures|
      invariant ImagesDeclared(sg.vsImages[..], vsTextures, vs0)
      invariant ImagesDeclared(sg.fsImages[..], fsTextures, fs0)
    {
      var t := textures[i];
      var toVs := ToVertexStage(StageOfTexture(t));
      OnStageRoom(textures, StageOfTexture, MaxShaderStageImages, i);
      if toVs {
        StoreImageDesc(sg.vsImages, vsImgIndex, t, vsTextures, vs0);
        vsImgIndex := vsImgIndex + 1;
        vsTextures := vsTextures + [t];
      } else {
        StoreImageDesc(sg.fsImages, fsImgIndex, t, fsTextures, fs0);
        fsImgIndex := fsImgIndex + 1;
        fsTextures := fsTextures + [t];
      }
    }
  }

  // -------------------------------------------------------------------------
  // The backend object
  // -------------------------------------------------------------------------

  class SokolGfxBackend {
    var isValid: bool

    /** A new backend is not set up, so the first Setup passes its check `!isValid`. */
    constructor ()
      ensures !IsValid()
    {
      isValid := false;
    }

    /**
     * IsValid: between Setup and Discard. Every operation other than Setup
     * requires it, as their debug checks `o_assert_dbg(this->isValid)` do.
     */
    function IsValid(): (r: bool)
      reads this
      ensures r <==> isValid
    {
      isValid
    }

    /**
     * Setup: only an invalid backend may be set up. The resource pool sizes
     * of the setup are handed to sg_setup, one per resource category; the
     * backend is valid afterwards.
     */
    method Setup(setup: GfxSetup) returns (sgDesc: SgDesc)
      requires !IsValid()
      modifies this
      ensures IsValid()
      ensures sgDesc.bufferPoolSize == setup.resourcePoolSize(Buffer)
      ensures sgDesc.imagePoolSize == setup.resourcePoolSize(Texture)
      ensures sgDesc.shaderPoolSize == setup.resourcePoolSize(Shader)
      ensures sgDesc.pipelinePoolSize == setup.resourcePoolSize(Pipeline)
      ensures sgDesc.passPoolSize == setup.resourcePoolSize(RenderPass)
    {
      sgDesc := SgDesc(
        setup.resourcePoolSize(Buffer),
        setup.resourcePoolSize(Texture),
        setup.resourcePoolSize(Shader),
        setup.resourcePoolSize(Pipeline),
        setup.resourcePoolSize(RenderPass));
      isValid := true;
    }

    /** Discard: only a valid backend may be discarded; it is invalid afterwards and may be set up again. */
    method Discard()
      requires IsValid()
      modifies this
      ensures !IsValid()
    {
      isValid := false;
    }

    /**
     * CreateBuffer: the size is copied and the buffer type and usage are
     * translated by their tables; when data is supplied it must hold the
     * whole buffer after the offset. The Id returned is the handle
     * sokol-gfx answers with (`bufferHandle`), tagged as a Buffer.
     */
    method CreateBuffer(desc: BufferDesc, hasData: bool, dataSize: int, bufferHandle: bv32)
      returns (id: Id, sgDesc: SgBufferDesc)
      requires IsValid()
      requires !hasData || desc.size + desc.offset <= dataSize
      ensures sgDesc.size == desc.size
      ensures sgDesc.bufferType == ConvertBufferType(desc.bufferType)
      ensures sgDesc.usage == ConvertUsage(desc.usage)
      ensures id.resourceType == Buffer && Pack(id) == bufferHandle
    {
      sgDesc := SgBufferDesc(desc.size, ConvertBufferType(desc.bufferType), ConvertUsage(desc.usage));
      id := MakeId(Buffer, bufferHandle);
    }

    /**
     * CreateTexture: the shape fields are copied and every enumerated field
     * is translated by its table. The Id returned is the handle sokol-gfx
     * answers with (`imageHandle`), tagged as a Texture.
     */
    method CreateTexture(desc: TextureDesc, imageHandle: bv32) returns (id: Id, sgDesc: SgImageDesc)
      requires IsValid()
      ensures sgDesc.imageType == ConvertTextureType(desc.texType)
      ensures sgDesc.renderTarget == desc.renderTarget
      ensures sgDesc.width == desc.width && sgDesc.height == desc.height && sgDesc.depth == desc.depth
      ensures sgDesc.numMipmaps == desc.numMipMaps && sgDesc.sampleCount == desc.sampleCount
      ensures sgDesc.usage == ConvertUsage(desc.usage)
      ensures sgDesc.pixelFormat == ConvertPixelFormat(desc.format)
      ensures sgDesc.minFilter == ConvertFilter(desc.minFilter) && sgDesc.magFilter == ConvertFilter(desc.magFilter)
      ensures sgDesc.wrapU == ConvertWrap(desc.wrapU)
      ensures sgDesc.wrapV == ConvertWrap(desc.wrapV)
      ensures sgDesc.wrapW == ConvertWrap(desc.wrapW)
      ensures id.resourceType == Texture && Pack(id) == imageHandle
    {
      sgDesc := SgImageDesc(
        ConvertTextureType(desc.texType), desc.renderTarget,
        desc.width, desc.height, desc.depth, desc.numMipMaps,
        ConvertUsage(desc.usage), ConvertPixelFormat(desc.format), desc.sampleCount,
        ConvertFilter(desc.minFilter), ConvertFilter(desc.magFilter),
        ConvertWrap(desc.wrapU), ConvertWrap(desc.wrapV), ConvertWrap(desc.wrapW));
      id := MakeId(Texture, imageHandle);
    }

    /**
     * CreatePipeline: the pipeline's shader Id must be a Shader, and is
     * encoded so that it decodes back to itself; primitive and index type go
     * through their tables. The Id returned is the handle sokol-gfx answers
     * with (`pipelineHandle`), tagged as a Pipeline.
     */
    method CreatePipeline(desc: PipelineDesc, pipelineHandle: bv32) returns (id: Id, sgDesc: SgPipelineDesc)
      requires IsValid()
      requires desc.shader.resourceType == Shader
      ensures MakeId(Shader, sgDesc.shader.id) == desc.shader
      ensures sgDesc.primitiveType == ConvertPrimitiveType(desc.primType)
      ensures sgDesc.indexType == ConvertIndexType(desc.indexType)
      ensures id.resourceType == Pipeline && Pack(id) == pipelineHandle
    {
      sgDesc := SgPipelineDesc(
        MakeShaderId(desc.shader), ConvertPrimitiveType(desc.primType), ConvertIndexType(desc.indexType));
      id := MakeId(Pipeline, pipelineHandle);
    }

    /**
     * CreateShader: the uniform blocks and the textures of the description
     * are declared to the stage each is bound to, in declaration order, in
     * an all-zero sg_shader_desc; the Id returned is the handle sokol-gfx
     * answers with (`shaderHandle`), tagged as a Shader. The preconditions
     * are the loops' debug checks as intended (see StageGuardsMeanFit).
     */
    method CreateShader(desc: ShaderDesc, shaderHandle: bv32) returns (id: Id, sgDesc: SgShaderDesc)
      requires IsValid()
      requires FitsStages(desc.uniformBlocks, StageOfBlock, MaxShaderStageUbs)
      requires SizesAreVec4Multiples(desc.uniformBlocks)
      requires FitsStages(desc.textures, StageOfTexture, MaxShaderStageImages)
      ensures fresh(sgDesc)
      ensures UniformBlocksDeclared(sgDesc.vsUniformBlocks[..],
                OnStage(desc.uniformBlocks, |desc.uniformBlocks|, StageOfBlock, true), ZeroUniformBlocks)
      ensures UniformBlocksDeclared(sgDesc.fsUniformBlocks[..],
                OnStage(desc.uniformBlocks, |desc.uniformBlocks|, StageOfBlock, false), ZeroUniformBlocks)
      ensures ImagesDeclared(sgDesc.vsImages[..],
                OnStage(desc.textures, |desc.textures|, StageOfTexture, true), ZeroImages)
      ensures ImagesDeclared(sgDesc.fsImages[..],
                OnStage(desc.textures, |desc.textures|, StageOfTexture, false), ZeroImages)
      ensures id.resourceType == Shader && Pack(id) == shaderHandle
    {
      sgDesc := new SgShaderDesc();
      assert sgDesc.vsUniformBlocks[..] == ZeroUniformBlocks && sgDesc.fsUniformBlocks[..] == ZeroUniformBlocks;
      assert sgDesc.vsImages[..] == ZeroImages && sgDesc.fsImages[..] == ZeroImages;
      var vsUbCount, fsUbCount := DeclareUniformBlocks(desc.uniformBlocks, sgDesc);
      var vsImgCount, fsImgCount := DeclareImages(desc.textures, sgDesc);
      id := MakeId(Shader, shaderHandle);
    }

    /**
     * BeginPass: an offscreen pass (a valid pass Id) does nothing yet; the
     * default framebuffer gets a pass action converted from the engine's,
     * starting from an all-default sg_pass_action, so its stencil action
     * stays sokol's default.
     */
    method BeginPass(passId: Id, action: PassAction) returns (sgAction: SgPassAction?)
      requires IsValid()
      requires action.WellFormed()
      ensures passId.IsValid() <==> sgAction == null
      ensures sgAction != null ==> fresh(sgAction)
      ensures sgAction != null ==> sgAction.colorActions.Length == MaxColorAttachments
      ensures sgAction != null ==>
                sgAction.colorValues.Length0 == MaxColorAttachments && sgAction.colorValues.Length1 == 4
      ensures sgAction != null ==>
                forall i :: 0 <= i < MaxNumColorAttachments ==>
                  ActionFromFlags(sgAction.colorActions[i], action.flags, ClearBit(i), LoadBit(i))
      ensures sgAction != null ==>
                forall i, c :: 0 <= i < MaxNumColorAttachments && 0 <= c < 4 ==>
                  sgAction.colorValues[i, c] == action.color[i][c]
      ensures sgAction != null ==> ActionFromFlags(sgAction.depthAction, action.flags, ClearDS, LoadDS)
      ensures sgAction != null ==> sgAction.stencilAction == ActionDefault
      ensures sgAction != null ==> sgAction.depthValue == action.depth && sgAction.stencilValue == action.stencil
      ensures sgAction != null ==>
                sgAction.colorActions[MaxNumColorAttachments..] ==
                seq(MaxColorAttachments - MaxNumColorAttachments, _ => ActionDefault)
      ensures sgAction != null ==>
                ClearValuesFrom(sgAction.colorValues, MaxNumColorAttachments) ==
                seq(MaxColorAttachments - MaxNumColorAttachments, _ => [0.0, 0.0, 0.0, 0.0])
    {
      if passId.IsValid() {
        sgAction := null;
      } else {
        sgAction := new SgPassAction();
        ConvertPassAction(action, sgAction);
      }
    }

    /**
     * ApplyDrawState: the pipeline is always encoded; vertex buffer i and
     * the vertex- and fragment-stage images i are set exactly when entries
     * 0 to i of their engine array are all valid, so nothing after the first
     * invalid entry is copied; the index buffer is set exactly when it is
     * valid. Everything not set keeps the zero handle of `= { }`. Only those
     * Ids that are encoded have to carry the encoder's category.
     */
    method ApplyDrawState(drawState: DrawState) returns (sg: SgDrawState)
      requires IsValid()
      requires drawState.WellFormed()
      requires drawState.pipeline.resourceType == Pipeline
      requires drawState.indexBuffer.IsValid() ==> drawState.indexBuffer.resourceType == Buffer
      requires ReachedAreTagged(drawState.vertexBuffers, Buffer)
      requires ReachedAreTagged(drawState.vsTextures, Texture)
      requires ReachedAreTagged(drawState.fsTextures, Texture)
      ensures fresh(sg)
      ensures sg.vertexBuffers.Length == MaxShaderStageBuffers
      ensures sg.vsImages.Length == MaxShaderStageImages && sg.fsImages.Length == MaxShaderStageImages
      ensures sg.pipeline == MakePipelineId(drawState.pipeline)
      ensures sg.indexBuffer ==
                if drawState.indexBuffer.IsValid() then MakeBufferId(drawState.indexBuffer) else SgBuffer(0)
      ensures forall i :: 0 <= i < MaxNumVertexBuffers ==>
                sg.vertexBuffers[i] ==
                  if ValidUpTo(drawState.vertexBuffers, i) then MakeBufferId(drawState.vertexBuffers[i])
                  else SgBuffer(0)
      ensures sg.vertexBuffers[MaxNumVertexBuffers..] == seq(MaxShaderStageBuffers - MaxNumVertexBuffers, _ => SgBuffer(0))
      ensures forall i :: 0 <= i < MaxNumVertexTextures ==>
                sg.vsImages[i] ==
                  if ValidUpTo(drawState.vsTextures, i) then MakeImageId(drawState.vsTextures[i])
                  else SgImage(0)
      ensures sg.vsImages[MaxNumVertexTextures..] == seq(MaxShaderStageImages - MaxNumVertexTextures, _ => SgImage(0))
      ensures forall i :: 0 <= i < MaxNumFragmentTextures ==>
                sg.fsImages[i] ==
                  if ValidUpTo(drawState.fsTextures, i) then MakeImageId(drawState.fsTextures[i])
                  else SgImage(0)
      ensures sg.fsImages[MaxNumFragmentTextures..] == seq(MaxShaderStageImages - MaxNumFragmentTextures, _ => SgImage(0))
    {
      assert MaxShaderStageBuffers >= MaxNumVertexBuffers;
      assert MaxShaderStageImages >= MaxNumVertexTextures;
      assert MaxShaderStageImages >= MaxNumFragmentTextures;
      sg := new SgDrawState();
      sg.pipeline := MakePipelineId(drawState.pipeline);
      CopyVertexBuffers(drawState.vertexBuffers, sg.vertexBuffers);
      if drawState.indexBuffer.IsValid() {
        sg.indexBuffer := MakeBufferId(drawState.indexBuffer);
      }
      CopyImages(drawState.vsTextures, sg.vsImages);
      CopyImages(drawState.fsTextures, sg.fsImages);
    }
  }

  /**
   * The vertex-buffer loop of ApplyDrawState: encode entries until the first
   * invalid one. The entries written are exactly the first
   * ValidPrefixLength(ids); the rest keep their old values.
   */
  method CopyVertexBuffers(ids: seq<Id>, dst: array<SgBuffer>)
    requires |ids| <= dst.Length
    requires ReachedAreTagged(ids, Buffer)
    modifies dst
    ensures forall i :: 0 <= i < |ids| ==>
              dst[i] == if ValidUpTo(ids, i) then MakeBufferId(ids[i]) else old(dst[i])
    ensures forall i :: ValidPrefixLength(ids) <= i < dst.Length ==> dst[i] == old(dst[i])
    ensures forall i :: |ids| <= i < dst.Length ==> dst[i] == old(dst[i])
  {
    var i := 0;
    while i < |ids|
      invariant 0 <= i <= |ids|
      invariant forall j :: 0 <= j < i ==> ids[j].IsValid()
      invariant forall j :: 0 <= j < i ==> dst[j] == MakeBufferId(ids[j])
      invariant forall j :: i <= j < dst.Length ==> dst[j] == old(dst[j])
    {
      if ids[i].IsValid() {
        dst[i] := MakeBufferId(ids[i]);
      } else {
        break;
      }
      i := i + 1;
    }
    BreakIndexCovered(ids, i);
  }

  /**
   * The image loops of ApplyDrawState: encode entries until the first
   * invalid one. The entries written are exactly the first
   * ValidPrefixLength(ids); the rest keep their old values.
   */
  method CopyImages(ids: seq<Id>, dst: array<SgImage>)
    requires |ids| <= dst.Length
    requires ReachedAreTagged(ids, Texture)
    modifies dst
    ensures forall i :: 0 <= i < |ids| ==>
              dst[i] == if ValidUpTo(ids, i) then MakeImageId(ids[i]) else old(dst[i])
    ensures forall i :: ValidPrefixLength(ids) <= i < dst.Length ==> dst[i] == old(dst[i])
    ensures forall i :: |ids| <= i < dst.Length ==> dst[i] == old(dst[i])
  {
    var i := 0;
    while i < |ids|
      invariant 0 <= i <= |ids|
      invariant forall j :: 0 <= j < i ==> ids[j].IsValid()
      invariant forall j :: 0 <= j < i ==> dst[j] == MakeImageId(ids[j])
      invariant forall j :: i <= j < dst.Length ==> dst[j] == old(dst[j])
    {
      if ids[i].IsValid() {
        dst[i] := MakeImageId(ids[i]);
      } else {
        break;
      }
      i := i + 1;
    }
    BreakIndexCovered(ids, i);
  }

  /**
   * Where a copy loop stops: at i, with entries 0 to i-1 valid and entry i
   * invalid or past the end, the break index is i and nothing from i on
   * counts as "all valid up to".
   */
  lemma BreakIndexCovered(ids: seq<Id>, i: int)
    requires 0 <= i <= |ids|
    requires forall j :: 0 <= j < i ==> ids[j].IsValid()
    requires i < |ids| ==> !ids[i].IsValid()
    ensures ValidPrefixLength(ids) == i
    ensures forall j :: i <= j < |ids| ==> !ValidUpTo(ids, j)
  {
    forall j | 0 <= j < |ids| ensures j < ValidPrefixLength(ids) <==> ValidUpTo(ids, j) {
      ValidPrefixLengthIsFirstInvalid(ids, j);
    }
    if i < |ids| {
      assert !ValidUpTo(ids, i);
      assert i >= ValidPrefixLength(ids);
    }
    if i > 0 {
      assert ValidUpTo(ids, i - 1);
    }
  }
}
