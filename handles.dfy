/**
 * The handle bridge between engine identifiers and sokol-gfx handles.
 *
 * A sokol-gfx handle is a 32-bit id whose low 16 bits are a pool slot and
 * whose high 16 bits are the slot's generation stamp; it carries no category.
 * An engine Id holds the same slot and stamp as separate 16-bit fields plus a
 * category tag. Decoding (makeId) takes the category from the caller;
 * encoding (make*Id) requires the Id's tag to be the category of the handle
 * being made, and wraps the 32-bit value in that category's handle type.
 */
module Handles {
  import opened OryolTypes
  import opened SokolTypes

  /**
   * The 32-bit value `(UniqueStamp<<16)|SlotIndex` that every make*Id
   * computes: the low 16 bits hold the slot index and the high 16 bits the
   * stamp, with nothing else in the word.
   */
  function Pack(id: Id): (sgId: bv32)
    ensures sgId & 0xFFFF == id.slotIndex as bv32
    ensures sgId >> 16 == id.uniqueStamp as bv32
  {
    ((id.uniqueStamp as bv32) << 16) | (id.slotIndex as bv32)
  }

  /**
   * makeId: convert a sokol-gfx id into an engine Id of the given category.
   * Every 32-bit id decodes (nothing is rejected), and the result is the one
   * Id of that category whose packed value is the id.
   */
  function MakeId(resourceType: ResourceType, sgId: bv32): (id: Id)
    ensures id.resourceType == resourceType
    ensures Pack(id) == sgId
  {
    var slotIndex := (sgId & 0xFFFF) as bv16;
    var unique := ((sgId >> 16) & 0xFFFF) as bv16;
    Id(unique, slotIndex, resourceType)
  }

  /** makeShaderId: only a Shader-tagged Id may become an sg_shader; decoding it gives the Id back. */
  function MakeShaderId(id: Id): (h: SgShader)
    requires id.resourceType == Shader
    ensures MakeId(Shader, h.id) == id
  {
    RoundTripFromId(id);
    SgShader(Pack(id))
  }

  /** makePipelineId: only a Pipeline-tagged Id may become an sg_pipeline; decoding it gives the Id back. */
  function MakePipelineId(id: Id): (h: SgPipeline)
    requires id.resourceType == Pipeline
    ensures MakeId(Pipeline, h.id) == id
  {
    RoundTripFromId(id);
    SgPipeline(Pack(id))
  }

  /** makeBufferId: only a Buffer-tagged Id may become an sg_buffer; decoding it gives the Id back. */
  function MakeBufferId(id: Id): (h: SgBuffer)
    requires id.resourceType == Buffer
    ensures MakeId(Buffer, h.id) == id
  {
    RoundTripFromId(id);
    SgBuffer(Pack(id))
  }

  /** makeImageId: only a Texture-tagged Id may become an sg_image; decoding it gives the Id back. */
  function MakeImageId(id: Id): (h: SgImage)
    requires id.resourceType == Texture
    ensures MakeId(Texture, h.id) == id
  {
    RoundTripFromId(id);
    SgImage(Pack(id))
  }

  // -------------------------------------------------------------------------
  // The bijection between 32-bit ids and (stamp, slot) pairs
  // -------------------------------------------------------------------------

  /** Decoding an Id's packed value under its own category gives the Id back. */
  lemma RoundTripFromId(id: Id)
    ensures MakeId(id.resourceType, Pack(id)) == id
  {
  }

  /** Packing a decoded id gives the original 32 bits back, whatever the category. */
  lemma RoundTripFromHandle(resourceType: ResourceType, sgId: bv32)
    ensures Pack(MakeId(resourceType, sgId)) == sgId
  {
  }

  /** makeId takes the slot from the low half of the id and the stamp from the high half. */
  lemma MakeIdFields(resourceType: ResourceType, sgId: bv32)
    ensures MakeId(resourceType, sgId).slotIndex as bv32 == sgId & 0xFFFF
    ensures MakeId(resourceType, sgId).uniqueStamp as bv32 == (sgId >> 16) & 0xFFFF
  {
  }

  /** Two Ids with different slot or stamp never share a handle value. */
  lemma PackInjective(a: Id, b: Id)
    requires a.slotIndex != b.slotIndex || a.uniqueStamp != b.uniqueStamp
    ensures Pack(a) != Pack(b)
  {
    RoundTripFromId(a);
    RoundTripFromId(b);
  }

  /** The decoded Id counts as valid exactly when the handle's slot half is not 0xFFFF. */
  lemma MakeIdValidity(resourceType: ResourceType, sgId: bv32)
    ensures MakeId(resourceType, sgId).IsValid() <==> sgId & 0xFFFF != 0xFFFF
  {
  }

  // -------------------------------------------------------------------------
  // Worked values
  // -------------------------------------------------------------------------

  /** Slot 5 with stamp 1 encodes as 0x00010005. */
  lemma BufferEncodingExample()
    ensures MakeBufferId(Id(1, 5, Buffer)) == SgBuffer(0x0001_0005)
  {
  }

  /** 0x00FF00A0 decodes as slot 0xA0, stamp 0xFF. */
  lemma TextureDecodingExample()
    ensures MakeId(Texture, 0x00FF_00A0) == Id(0xFF, 0xA0, Texture)
  {
  }

  /** The all-zero handle decodes into slot 0, stamp 0, an Id that counts as valid. */
  lemma ZeroHandleExample(resourceType: ResourceType)
    ensures MakeId(resourceType, 0) == Id(0, 0, resourceType)
    ensures MakeId(resourceType, 0).IsValid()
  {
  }
}
