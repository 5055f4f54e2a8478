# i965 BLORP batch sequencer and gen 4-6 sampler state, in Dafny

This project models two parts of the i965 Mesa driver.

- **genX(blorp_exec)** (`genX_blorp_exec.c`) is the sequencer behind one
  BLORP operation: a blit, a clear or a HiZ resolve drawn as one
  RECTLIST.
  - It appends a fixed, generation-dependent sequence of hardware
    records to the batch buffer.
  - It allocates scratch state blocks for them: vertex data, varyings,
    blend, colour-calc, depth-stencil, binding table, surface states,
    sampler and viewport.
  - It records a relocation for every buffer address it packs.
  - Gens 6, 7, 7.5, 8 and 9 are a datatype (`BlorpRecords.Gen`), and
    every `#if GEN_GEN` is a branch on it.
  - The batch is a class (`Batch.Batch`) with a dword cursor, the
    records it holds, the relocations and a scratch-state allocator.
  - The sequencer is a class (`BlorpExec.Driver`) holding the few
    context fields it reads and updates: `NewDriverState` and
    `urb.vsize`.
  - Each C helper that emits records or allocates state is one method of
    `Driver`. Its contract says it appends exactly the segment a pure
    function of `BlorpSpec` defines, and where each record starts.
  - blorp_emit_sf_config and blorp_emit_ps_config only choose field
    values, so they are the pure functions `BlorpSpec.SfCmds` and
    `BlorpSpec.PsCmds`. `Driver.EmitPipeline` emits their records in order
    through `Driver.EmitRecords`.
  - The lemmas of `BlorpSpec` then state what the whole sequence is:
    - it only appends;
    - it consists of four phases;
    - its records are ordered as stated;
    - the blend, colour-calc, binding-table and sampler records appear
      exactly when a program or a source exists;
    - the relocations are counted;
    - the depth and draw records end the batch.
  - 3DSTATE_CLEAR_PARAMS follows the depth records on both paths
    (`genX_blorp_exec.c:1134-1156`): after the null depth buffer as well as
    after blorp_emit_depth_stencil_config. `BlorpSpec.FinalCmds` emits it
    after either, and `BlorpSpec.DrawCmdsEnd` states its position.
- **Sampler state for gen 4-6** (`brw_wm_sampler_state.c`):
  - the translation of a GL sampler object into one SAMPLER_STATE entry
    (`WmSampler`): filters, wrap modes, cube and 1D overrides,
    `min_mag_neq`, shadow function, rounding bits, non-normalised
    coordinates and the border-colour pointer;
  - the border colour itself;
  - the table of entries one program's samplers fill.

  The table is an `array` updated in place by methods of the class
  `WmSampler.SamplerUpload`. Each method is proved against pure functions
  (`UpdatedEntry` and its parts), and lemmas state the properties of
  those functions.

Record layouts from `genX_pack.h` are not part of this model. That covers
record lengths, length biases, the dword positions of address fields,
binding-table indices and similar constants. They are fields of
`BlorpRecords.Layout`, so every statement holds for whatever values that
header defines. The `BRW_*` hardware codes of `brw_defines.h` are
symbolic enumerations. Code that lives outside these two files is either
a `Foreign` record (a call whose internals are not modelled) or an opaque
state block. This covers state base address, L3 configuration,
multisample state, depth-stall flushes, the URB partitioning and
surface-state encoding.

## Model

All source paths below are relative to the repository root.

| member | source | states |
|---|---|---|
| Batch.CombineAddressCases | mesa/src/mesa/drivers/dri/i965/genX_blorp_exec.c:74-83 | A NULL buffer packs `offset + delta` (32-bit wrap) and records nothing. A real buffer records exactly one relocation at the slot's byte offset, against that buffer, 64-bit exactly from gen 8 on, and packs a relocated value. |
| Batch.Batch.EmitDwords | mesa/src/mesa/drivers/dri/i965/genX_blorp_exec.c:36-44 | Reserves `n` dwords at the old cursor, advances the cursor by `n`, and keeps the batch's ordering invariant. |
| Batch.Batch.Put | mesa/src/mesa/drivers/dri/i965/genX_blorp_exec.c:92-97 | Appends the packed record, its start and its length, strictly after the previously packed record. |
| Batch.Batch.Emit | mesa/src/mesa/drivers/dri/i965/genX_blorp_exec.c:92-97 | blorp_emit: the record occupies the `n` dwords at the old cursor and is appended after all earlier records. |
| Batch.Batch.EmitReloc | mesa/src/mesa/drivers/dri/i965/genX_blorp_exec.c:53-69 | Appends one relocation at byte `4 * location`, keeping the address's buffer and domains, with delta `offset + delta`. It is 64-bit from gen 8 on and 32-bit before. The result is the relocated value. |
| Batch.Batch.CombineAddress | mesa/src/mesa/drivers/dri/i965/genX_blorp_exec.c:74-83 | The packed value and the relocations appended are those `CombineAddressCases` characterises. |
| Batch.Batch.StateBatch | mesa/src/mesa/drivers/dri/i965/genX_blorp_exec.c:192-193 | Scratch allocation: an aligned block at or after everything allocated before, appended to the block list in allocation order without overlap. |
| Batch.Batch.WriteState | mesa/src/mesa/drivers/dri/i965/genX_blorp_exec.c:920-927 | Storing into an allocated block (the binding-table slots) changes that block's content only. Every block stays where it was. |
| BlorpSpec.VsEntrySize | mesa/src/mesa/drivers/dri/i965/genX_blorp_exec.c:121-129 | The VUE size is the least number of 64-byte units holding the 16-byte header, the 16-byte position and 16 bytes per varying. |
| BlorpSpec.RectVerticesAreCorners | mesa/src/mesa/drivers/dri/i965/genX_blorp_exec.c:185-189 | The three vertices (x0,y1), (x1,y1), (x0,y0), together with the corner (x1,y0) the RECTLIST implies, are exactly the four corners of the rectangle. |
| BlorpSpec.PackVaryingsLength | mesa/src/mesa/drivers/dri/i965/genX_blorp_exec.c:227-236 | The varying buffer holds one vec4 per attribute slot whose bit is set in `inputs_read`. |
| BlorpSpec.PackVaryingsAt | mesa/src/mesa/drivers/dri/i965/genX_blorp_exec.c:227-236 | Dense packing: the vec4 of a selected slot is at the position given by the number of selected slots before it. |
| BlorpSpec.CountBitsMonotone | mesa/src/mesa/drivers/dri/i965/genX_blorp_exec.c:227-236 | Selected slots keep their order in the packed buffer. |
| BlorpSpec.RecordDwordCounts | mesa/src/mesa/drivers/dri/i965/genX_blorp_exec.c:300-301 | The dword counts emitted for 3DSTATE_VERTEX_BUFFERS and 3DSTATE_VERTEX_ELEMENTS are `1 + length * count`, for one or two buffers and `2 + num_varyings` elements. |
| BlorpSpec.SpanIsProduct | mesa/src/mesa/drivers/dri/i965/genX_blorp_exec.c:304-307 | Advancing `dw` by the state length once per entry ends at `length * count` dwords. |
| BlorpSpec.VertexBufferRelocCount | mesa/src/mesa/drivers/dri/i965/genX_blorp_exec.c:266-307 | Packing the vertex buffers keeps the earlier relocations. It adds one relocation per buffer from gen 8 on and two before (start and end address). Every added relocation targets the batch buffer through the vertex domain. |
| BlorpSpec.VertexBufferFields | mesa/src/mesa/drivers/dri/i965/genX_blorp_exec.c:266-296 | `VertexBufferFor` keeps the index, pitch and start address it is given. From gen 8 on it carries the buffer size and no end address. Before gen 8 it carries no size, and its end address is the last byte of the buffer, in the same buffer object. |
| BlorpSpec.ElementsReadEmittedBuffers | mesa/src/mesa/drivers/dri/i965/genX_blorp_exec.c:365-392 | There are `2 + num_varyings` vertex elements. Each reads a vertex buffer that is emitted. Each flat input reads buffer 1 inside its `num_varyings * 16` bytes. |
| BlorpSpec.InstancingRecords | mesa/src/mesa/drivers/dri/i965/genX_blorp_exec.c:406-411 | Every record of the instancing loop is a 3DSTATE_VF_INSTANCING with instancing disabled. |
| BlorpSpec.SfReads | mesa/src/mesa/drivers/dri/i965/genX_blorp_exec.c:419-513 | `SfCmds` (blorp_emit_sf_config): exactly its last record, SBE on gen 7+ or SF on gen 6, says what the setup stage reads. It reads from BRW_SF_URB_ENTRY_READ_OFFSET. With a program it writes `num_varying_inputs` attributes over the program's URB read length. Without one (gen 6 and 7 only) it writes no attribute over one row. |
| BlorpSpec.PsRecords | mesa/src/mesa/drivers/dri/i965/genX_blorp_exec.c:515-729 | `PsCmds` (blorp_emit_ps_config) emits WM, PS and PS_EXTRA on gen 8+, WM and PS on gen 7, and WM alone on gen 6. The pixel shader has one sampler exactly when there is a source. Before gen 8, a thread is dispatched exactly when there is a program; without one the kernel pointers are 0 and no attribute is read. |
| BlorpSpec.DepthTestNeverOnlyForResolve | mesa/src/mesa/drivers/dri/i965/genX_blorp_exec.c:884-891 | DEPTH_STENCIL_STATE always enables depth writes. The depth test is enabled, with function NEVER, exactly for a depth resolve. |
| BlorpSpec.BindingTableEntriesPerSurface | mesa/src/mesa/drivers/dri/i965/genX_blorp_exec.c:914-928 | The binding table has the layout's entry count. It holds the destination's surface at the render-target index and the source's (when present) at the texture index. Exactly one or two slots are set. |
| BlorpSpec.SampleMaskBits | mesa/src/mesa/drivers/dri/i965/genX_blorp_exec.c:1102-1104 | Bit `k` of `(1 << samples) - 1` is set exactly when `k < samples`. |
| BlorpSpec.FastClearOpSelectsOneMode | mesa/src/mesa/drivers/dri/i965/genX_blorp_exec.c:565-581 | On gen 8+ a resolve op selects the partial resolve (gen 9) or the resolve enable, the full-resolve op selects RESOLVE_FULL on gen 9 only, and a fast clear selects no resolve. |
| BlorpSpec.HizOpSelectsAtMostOne | mesa/src/mesa/drivers/dri/i965/genX_blorp_exec.c:599-690 | In 3DSTATE_WM (gen 7 and gen 6) each of depth clear, depth resolve and HiZ resolve is enabled exactly when `hiz_op` names it. At most one is enabled. |
| BlorpSpec.DispatchAndBindingCounts | mesa/src/mesa/drivers/dri/i965/genX_blorp_exec.c:530-660 | Gen 7 without a program still enables SIMD16 dispatch. Gen 8+ binds two surfaces exactly when there is a source and one exactly when there is none. |
| BlorpSpec.DepthBufferProgrammed | mesa/src/mesa/drivers/dri/i965/genX_blorp_exec.c:744-788 | `DepthBufferFor` is a real surface (never SURFTYPE_NULL) with HiZ enabled, at the depth buffer's own object and offset, with depth writes enabled exactly from gen 7 on. Its width, height, depth (the larger of depth and array length) and pitch are programmed minus one. |
| BlorpSpec.CmdsAfterAppends | mesa/src/mesa/drivers/dri/i965/genX_blorp_exec.c:1024-1169 | The operation only appends: afterwards the batch holds the earlier records followed by the operation's own records. |
| BlorpSpec.BlocksAfterAppends | mesa/src/mesa/drivers/dri/i965/genX_blorp_exec.c:1024-1169 | The scratch blocks after the operation are the earlier blocks followed by the operation's own blocks, `OperationBlocks`. |
| BlorpSpec.VertexPhasePrefix | mesa/src/mesa/drivers/dri/i965/genX_blorp_exec.c:1042-1168 | The batch after the vertex phase is a prefix of the batch after the whole operation: later phases only append. |
| BlorpSpec.RecordPositions | mesa/src/mesa/drivers/dri/i965/genX_blorp_exec.c:1031-1042 | In the final batch, 3DSTATE_VERTEX_BUFFERS is the record right after the prologue records. |
| BlorpSpec.OperationPhases | mesa/src/mesa/drivers/dri/i965/genX_blorp_exec.c:1042-1168 | The operation's records are its vertex phase, dynamic-state phase, pipeline phase and draw phase, concatenated in that order. |
| BlorpSpec.DrawCmdsEnd | mesa/src/mesa/drivers/dri/i965/genX_blorp_exec.c:1134-1168 | The last seven records are, in order: <br>• the depth-stall flushes; <br>• the depth buffer and HiZ records, or a SURFTYPE_NULL/D32_FLOAT depth buffer with a zero HiZ buffer when there is no depth buffer; <br>• the stencil buffer; <br>• CLEAR_PARAMS with the clear value; <br>• the drawing rectangle `max - 1`; <br>• a 3-vertex RECTLIST over `num_layers` instances. |
| BlorpSpec.VertexPhaseHoldsNoStatePointers | mesa/src/mesa/drivers/dri/i965/genX_blorp_exec.c:1042-1045 | The vertex buffers, vertex elements and URB setup emit no blend, colour-calc, binding-table or sampler pointer. |
| BlorpSpec.SfHoldsNoStatePointers | mesa/src/mesa/drivers/dri/i965/genX_blorp_exec.c:419-513 | The SF configuration emits no gated state pointer. |
| BlorpSpec.PsHoldsNoStatePointers | mesa/src/mesa/drivers/dri/i965/genX_blorp_exec.c:515-729 | The PS/WM configuration emits no gated state pointer. |
| BlorpSpec.FixedPipelineHoldsNoStatePointers | mesa/src/mesa/drivers/dri/i965/genX_blorp_exec.c:1096-1127 | Multisample, sample mask, the disabled stages and the clipper emit no gated state pointer. |
| BlorpSpec.PipelineHoldsNoStatePointers | mesa/src/mesa/drivers/dri/i965/genX_blorp_exec.c:1096-1132 | The whole pipeline phase emits no gated state pointer. |
| BlorpSpec.DrawHoldsNoStatePointers | mesa/src/mesa/drivers/dri/i965/genX_blorp_exec.c:1134-1168 | The depth and draw records include no gated state pointer. |
| BlorpSpec.PointerPiecesHoldNoGatedRecords | mesa/src/mesa/drivers/dri/i965/genX_blorp_exec.c:1051-1088 | The depth-stencil records, the gen 6 combined CC_STATE_POINTERS, the constant buffers and the resource-streamer switch are of none of the gated kinds. |
| BlorpSpec.BlendAndColorCalcKinds | mesa/src/mesa/drivers/dri/i965/genX_blorp_exec.c:828-862 | The blend and colour-calc helpers yield the blend and CC pointers exactly from gen 7 on, and 3DSTATE_PS_BLEND exactly from gen 8 on. |
| BlorpSpec.DynamicStateGates | mesa/src/mesa/drivers/dri/i965/genX_blorp_exec.c:1047-1094 | Within the dynamic-state phase, records of each gated kind occur exactly when the kind is present. Blend and CC pointers are present with a program from gen 7 on, PS_BLEND with a program from gen 8 on, the binding-table pointer with a program, and the sampler pointers with a source. |
| BlorpSpec.ProgramAndSourceGateRecords | mesa/src/mesa/drivers/dri/i965/genX_blorp_exec.c:1047-1094 | In the whole operation, a record of each gated kind occurs if and only if `Present` holds for it, both directions. |
| BlorpSpec.RelocsAfterCount | mesa/src/mesa/drivers/dri/i965/genX_blorp_exec.c:1042-1144 | The operation keeps the earlier relocations and adds exactly `RelocCount` of them: the vertex-buffer addresses plus one each for a present depth and HiZ buffer. |
| BlorpExec.BuildVertices | mesa/src/mesa/drivers/dri/i965/genX_blorp_exec.c:185-189 | Three vertices, `RectVertices`: together with the implied corner (x1,y0) they are exactly the four corners of the rectangle, and they are in RECTLIST order — vertices 0 and 1 on the y1 edge, vertices 0 and 2 on the x0 edge, so vertex 0 is the right angle at (x0,y1), vertex 1 at x1 and vertex 2 at y0. |
| BlorpExec.CopyVaryings | mesa/src/mesa/drivers/dri/i965/genX_blorp_exec.c:227-236 | The slot walk copies exactly `PackVaryings`, whose length is the number of selected slots. |
| BlorpExec.BuildVertexElements | mesa/src/mesa/drivers/dri/i965/genX_blorp_exec.c:318-392 | The `ve` array is header, position, then one flat-input element per varying. |
| BlorpExec.BuildBlendEntries | mesa/src/mesa/drivers/dri/i965/genX_blorp_exec.c:809-821 | Entries below `num_draw_buffers` are clamped with the write-disable mask. All later entries stay zero. |
| BlorpExec.Driver.EmitCmd | mesa/src/mesa/drivers/dri/i965/genX_blorp_exec.c:92-97 | Appends one record that starts at the old cursor and is its layout length long. The cursor advances by that length. Relocations, state blocks and the allocation point are unchanged. |
| BlorpExec.Driver.EmitWithAddress | mesa/src/mesa/drivers/dri/i965/genX_blorp_exec.c:92-97 | Appends one record that starts at the old cursor and is its layout length long, and advances the cursor by that length. Its address field goes through the address resolver at dword `old cursor + dword`, which appends exactly that address's relocations. State blocks are unchanged. |
| BlorpExec.Driver.EmitRecords | mesa/src/mesa/drivers/dri/i965/genX_blorp_exec.c:1079-1085 | A run of blorp_emit calls appends exactly those records, in order. Their lengths are their layout lengths, and each starts where the previous one ends, from the old cursor on. The cursor advances by the total. Relocations and state are unchanged. |
| BlorpExec.Driver.EmitVertexData | mesa/src/mesa/drivers/dri/i965/genX_blorp_exec.c:179-203 | A 24-byte, 32-aligned block holds the rectangle. It is addressed in the batch buffer through the vertex domain. |
| BlorpExec.Driver.EmitVaryingData | mesa/src/mesa/drivers/dri/i965/genX_blorp_exec.c:205-244 | A 32-aligned block of `num_varying_inputs * 16` bytes holds the packed varyings, addressed through the vertex domain. |
| BlorpExec.Driver.PackVertexBuffer | mesa/src/mesa/drivers/dri/i965/genX_blorp_exec.c:304-306 | Packing one VERTEX_BUFFER_STATE appends the start-address relocation, plus the end-address relocation before gen 8. |
| BlorpExec.Driver.SetUpVertexBuffers | mesa/src/mesa/drivers/dri/i965/genX_blorp_exec.c:250-298 | The `vb` array describes the vertex data and, when the program reads varyings, the varying data, each allocated in turn. |
| BlorpExec.Driver.EmitVertexBuffers | mesa/src/mesa/drivers/dri/i965/genX_blorp_exec.c:300-307 | One 3DSTATE_VERTEX_BUFFERS record of `1 + length * count` dwords minus the bias, with its relocations. |
| BlorpExec.Driver.PackVertexBuffers | mesa/src/mesa/drivers/dri/i965/genX_blorp_exec.c:304-307 | Entry `i` is packed `i * VERTEX_BUFFER_STATE_length` dwords after the first. |
| BlorpExec.Driver.EmitInstancing | mesa/src/mesa/drivers/dri/i965/genX_blorp_exec.c:406-411 | One 3DSTATE_VF_INSTANCING per element, in element order, instancing off. |
| BlorpExec.Driver.EmitVertexElements | mesa/src/mesa/drivers/dri/i965/genX_blorp_exec.c:310-417 | 3DSTATE_VERTEX_ELEMENTS with `2 + n` elements, then SGVS, instancing and RECTLIST topology on gen 8+. |
| BlorpExec.Driver.EmitUrbConfig | mesa/src/mesa/drivers/dri/i965/genX_blorp_exec.c:158-177 | Gen 7+ leaves the URB alone exactly when neither BRW_NEW_CONTEXT nor BRW_NEW_URB_SIZE is pending and `urb.vsize` suffices. Otherwise it flags BRW_NEW_URB_SIZE and uploads a partition. Gen 6 always emits 3DSTATE_URB with the maximum VS entries. |
| BlorpExec.Driver.EmitBlendState | mesa/src/mesa/drivers/dri/i965/genX_blorp_exec.c:805-844 | BLEND_STATE goes in a 64-byte aligned block. Then come its pointer (gen 7+) and PS_BLEND (gen 8+). |
| BlorpExec.Driver.EmitColorCalcState | mesa/src/mesa/drivers/dri/i965/genX_blorp_exec.c:846-865 | A zeroed COLOR_CALC_STATE goes in a 64-byte aligned block, then its pointer on gen 7+. |
| BlorpExec.Driver.EmitDepthStencilState | mesa/src/mesa/drivers/dri/i965/genX_blorp_exec.c:867-908 | Gen 8+ emits 3DSTATE_WM_DEPTH_STENCIL and returns 0 without allocating. Before gen 8, DEPTH_STENCIL_STATE goes in a 64-byte aligned block, with its pointer on gen 7. |
| BlorpExec.Driver.EmitSurfaceState | mesa/src/mesa/drivers/dri/i965/genX_blorp_exec.c:920-927 | One surface-state block is allocated, and its offset is returned for the binding table. |
| BlorpExec.Driver.EmitSurfaceStates | mesa/src/mesa/drivers/dri/i965/genX_blorp_exec.c:910-940 | The blocks of `FillBindingTable`, then the per-generation binding-table pointer to the table. |
| BlorpExec.Driver.FillBindingTable | mesa/src/mesa/drivers/dri/i965/genX_blorp_exec.c:914-928 | A 32-aligned binding table, then the destination and (when present) source surface states, whose offsets are stored at their slots. No record is emitted. |
| BlorpExec.Driver.EmitSamplerState | mesa/src/mesa/drivers/dri/i965/genX_blorp_exec.c:942-982 | The fixed linear/clamp sampler goes in a 32-aligned block, then the PS pointer (gen 7+) or the combined gen 6 pointer. |
| BlorpExec.Driver.EmitViewportState | mesa/src/mesa/drivers/dri/i965/genX_blorp_exec.c:985-1011 | CC_VIEWPORT goes in a 32-aligned block, then its per-generation pointer. |
| BlorpExec.Driver.EmitDepthStencilConfig | mesa/src/mesa/drivers/dri/i965/genX_blorp_exec.c:732-803 | Emits the flushes, then the depth buffer and HiZ buffer with their address relocations, then an empty stencil buffer. The returned `depthAt` and `hizAt` are the recorded starts of the depth-buffer and HiZ records, and the relocations are placed relative to them. |
| BlorpExec.Driver.EmitNullDepth | mesa/src/mesa/drivers/dri/i965/genX_blorp_exec.c:1136-1144 | Without a depth buffer: the flushes, a NULL/D32_FLOAT depth buffer, a zero HiZ buffer and a stencil buffer, with no relocation. `depthAt` and `hizAt` are the starts of the second and third records. |
| BlorpExec.Driver.EmitVertexInput | mesa/src/mesa/drivers/dri/i965/genX_blorp_exec.c:1031-1042 | The prologue records, then the vertex buffers and their relocations. |
| BlorpExec.Driver.EmitVertexPhase | mesa/src/mesa/drivers/dri/i965/genX_blorp_exec.c:1031-1045 | The batch ends with the vertex phase, and BRW_NEW_URB_SIZE is flagged exactly when the URB is reprogrammed. |
| BlorpExec.Driver.EmitProgramState | mesa/src/mesa/drivers/dri/i965/genX_blorp_exec.c:1047-1050 | With a program: the blend state, then the colour-calc state, with their records and blocks. Without one nothing is emitted and both offsets are 0. |
| BlorpExec.Driver.EmitStatePointers | mesa/src/mesa/drivers/dri/i965/genX_blorp_exec.c:1047-1088 | Blend and colour-calc state only with a program (offsets 0 otherwise), then depth-stencil, the gen 6 combined pointers, the constants and the resource-streamer switch, each with the blocks it allocates. |
| BlorpExec.Driver.EmitBindingState | mesa/src/mesa/drivers/dri/i965/genX_blorp_exec.c:1090-1094 | The surfaces only with a program and the sampler only with a source, each with its blocks. Unallocated offsets stay 0. |
| BlorpExec.Driver.EmitDynamicState | mesa/src/mesa/drivers/dri/i965/genX_blorp_exec.c:1047-1094 | Blend and CC only with a program, then depth-stencil, the gen 6 combined pointers, the constants, the resource-streamer switch, the surfaces only with a program and the sampler only with a source. Unallocated offsets stay 0. |
| BlorpExec.Driver.EmitPipeline | mesa/src/mesa/drivers/dri/i965/genX_blorp_exec.c:1096-1132 | Multisample, the sample mask, the disabled stages, the clipper, SF, PS, then the viewport block. |
| BlorpExec.Driver.EmitFixedFunctions | mesa/src/mesa/drivers/dri/i965/genX_blorp_exec.c:1096-1127 | The multisample state, the sample mask for the destination's sample count, the disabled stages and the clipper, in that order. No block or relocation is added. |
| BlorpExec.Driver.EmitDepthAndDraw | mesa/src/mesa/drivers/dri/i965/genX_blorp_exec.c:1134-1168 | The depth records (real or null), then CLEAR_PARAMS, the drawing rectangle and the primitive: seven records. `depthAt` and `hizAt` are the starts of the sixth-last and fifth-last. |
| BlorpExec.Driver.EmitVerticesAndState | mesa/src/mesa/drivers/dri/i965/genX_blorp_exec.c:1031-1094 | The vertex phase followed by the dynamic state, with their blocks and the vertex-buffer relocations. `vbAt` is the start of the record right after the prologue. BRW_NEW_URB_SIZE is flagged exactly when the URB is reprogrammed. |
| BlorpExec.Driver.EmitPipelineAndDraw | mesa/src/mesa/drivers/dri/i965/genX_blorp_exec.c:1096-1168 | The pipeline phase followed by the depth and draw records, with the viewport block and the depth relocations. `depthAt` and `hizAt` are the starts of the sixth-last and fifth-last records. |
| BlorpExec.Driver.Exec | mesa/src/mesa/drivers/dri/i965/genX_blorp_exec.c:1024-1169 | The batch receives exactly the operation's record sequence, only appending. The scratch blocks are the earlier ones followed by `OperationBlocks`. The relocations are `RelocsAfter`. `vbAt`, `depthAt` and `hizAt` are the recorded starts of the vertex-buffers, depth-buffer and HiZ records. BRW_NEW_URB_SIZE is flagged exactly when the URB is reprogrammed. |
| WmSampler.WrapModeTranslation | src/mesa/drivers/dri/i965/brw_wm_sampler_state.c:48-79 | `TranslateWrapMode` (translate_wrap_mode): the filter matters only for GL_CLAMP. No GL mode becomes CUBE. Each hardware mode is produced exactly by the GL modes that name it, and an unknown mode wraps. |
| WmSampler.BorderColor | src/mesa/drivers/dri/i965/brw_wm_sampler_state.c:96-144 | The border colour has four channels. |
| WmSampler.ChannelsDecideBorderColor | src/mesa/drivers/dri/i965/brw_wm_sampler_state.c:96-144 | Each output channel is a border channel, 0 or 1, chosen per base format. Depth and intensity replicate red; alpha keeps only alpha; luminance replicates red and makes alpha opaque; luminance-alpha keeps alpha; RGB forces alpha to one; other formats copy. |
| WmSampler.BorderColorCommutes | src/mesa/drivers/dri/i965/brw_wm_sampler_state.c:96-144 | Channel selection commutes with any channel-wise conversion, so the byte, short, half and float copies select the same channels. |
| WmSampler.SignedByte | src/mesa/drivers/dri/i965/brw_wm_sampler_state.c:174-177 | `s >> 8` of a 16-bit signed value is the signed byte `b` with `256 * b <= s < 256 * b + 256`. |
| WmSampler.FiltersFollowGl | src/mesa/drivers/dri/i965/brw_wm_sampler_state.c:214-266 | Anisotropy sets both filters to ANISOTROPIC. Otherwise minification is linear exactly for the LINEAR-based GL filters and magnification exactly for GL_LINEAR. The mip filter is NONE exactly for non-mipmap or unknown filters and LINEAR exactly for the `*_MIPMAP_LINEAR` ones. |
| WmSampler.WrapModesFollowTarget | src/mesa/drivers/dri/i965/brw_wm_sampler_state.c:269-303 | For a cube map one mode applies in all three directions: CUBE exactly when it samples seamlessly with a non-nearest filter, and CLAMP otherwise. A 1D texture wraps in t. Other targets translate each direction. GL_CLAMP in s becomes CLAMP exactly when nearest filtering is in use. |
| WmSampler.FlagsFollowFilters | src/mesa/drivers/dri/i965/brw_wm_sampler_state.c:276-361 | On a zeroed entry: <br>• `min_mag_neq` exactly from gen 6 with differing filters; <br>• each rounding group exactly when its filter is not NEAREST; <br>• the gen 6+ pointer `sdc_offset >> 5` times 32 is the aligned offset; <br>• non-normalised coordinates exactly for gen 6+ rectangles; <br>• LOD preclamp on. |
| WmSampler.SetFilters | src/mesa/drivers/dri/i965/brw_wm_sampler_state.c:214-266 | The minification switch, then anisotropy or the magnification switch, yield the filters `MinFilterAfter`, `MipFilterAfter` and `MagFilterAfter`, and `using_nearest` exactly as `UsingNearest`. |
| WmSampler.UpdateSs0 | src/mesa/drivers/dri/i965/brw_wm_sampler_state.c:214-325 | The first dword becomes `UpdatedSs0`: <br>• the filters; <br>• `min_mag_neq` ORed in; <br>• the shadow function when comparing; <br>• LOD preclamp; <br>• default-colour mode and base level 0. |
| WmSampler.UpdateSs3 | src/mesa/drivers/dri/i965/brw_wm_sampler_state.c:333-361 | The rounding bits are ORed into the existing ones, and the non-normalised flag is set for gen 6+ rectangles. |
| WmSampler.SetWrapModes | src/mesa/drivers/dri/i965/brw_wm_sampler_state.c:269-303 | The wrap modes become `UpdatedSs1` for the target. |
| WmSampler.SamplerUpload.UploadDefaultColor | src/mesa/drivers/dri/i965/brw_wm_sampler_state.c:84-191 | A 32-aligned border-colour block of the generation's size, after everything allocated before, holding the unit's channel selection. |
| WmSampler.SamplerUpload.UpdateSamplerState | src/mesa/drivers/dri/i965/brw_wm_sampler_state.c:197-362 | A texture-buffer target changes nothing. Otherwise entry `s` becomes `UpdatedEntry` of itself and only `sdc_offset[s]` changes, now pointing at the newly appended aligned border-colour block. Every other entry keeps its value. |
| WmSampler.SamplerUpload.FillEntry | src/mesa/drivers/dri/i965/brw_wm_sampler_state.c:385-392 | One loop iteration extends the filled prefix by entry `s`, updating it exactly when its bit is set and its unit enabled. It appends exactly that entry's border-colour block (or nothing), and only `sdc_offset[s]` may change. |
| WmSampler.SamplerUpload.FillTable | src/mesa/drivers/dri/i965/brw_wm_sampler_state.c:385-392 | The loop over a zeroed table: each entry is its sampler's update or stays zero, and the border-colour blocks appended are exactly `UpdatedBlocks`, in sampler order. The allocation point ends at `StateEnd`, after the last block. |
| WmSampler.SamplerUpload.FilledMeans | src/mesa/drivers/dri/i965/brw_wm_sampler_state.c:385-392 | Once every entry is visited: each updated sampler's block is 32-aligned, after the table, in the block list and after the previous updated sampler's block. |
| WmSampler.SamplerUpload.ChainedPlacement | src/mesa/drivers/dri/i965/brw_wm_sampler_state.c:385-392 | Blocks each placed at the first 32-byte boundary after the previous allocation lie at or after the table's end and do not overlap, in sampler order. |
| WmSampler.SamplerUpload.StateEndGrows | src/mesa/drivers/dri/i965/brw_wm_sampler_state.c:385-392 | With blocks placed one after another, the end of the allocated state never moves back, and never lies before the table's end. |
| WmSampler.SamplerUpload.UploadSamplerStateTable | src/mesa/drivers/dri/i965/brw_wm_sampler_state.c:365-395 | With count 0 nothing changes. Otherwise: <br>• a fresh table of `count` entries is allocated at the first 32-byte boundary after the old allocation point; <br>• entry `s` is `UpdatedEntry` of the zero entry exactly when its `SamplersUsed` bit is set and its unit is enabled with a non-buffer target, and zero otherwise; <br>• the border-colour blocks are the old ones followed by exactly one block per updated entry, in entry order (`UpdatedBlocks`), each aligned, after the table and without overlap; <br>• the allocation point ends after the last of them (`StateEnd`); <br>• other `sdc_offset` slots are untouched; <br>• CACHE_NEW_SAMPLER is set. |

## Left out

- Foreign calls are opaque `Foreign` records whose internals are not modelled:
  - brw_emit_post_sync_nonzero_flush, brw_upload_state_base_address and the gen 8 L3 state;
  - gen6/gen8 multisample state;
  - brw_emit_depth_stall_flushes;
  - gen7_upload_urb;
  - gen7_disable_hw_binding_tables.
- The `urb.vsize` update made inside gen7_upload_urb is not modelled, because that function is not part of this model.
- brw_blorp_emit_surface_state is modelled as an opaque block allocation. Its relocations and the surface encoding are not part of this model.
- brw_state_batch is an upward, aligned allocator in a separate state area. The real allocator shares the batch buffer and is not part of this model.
- Record packing (`genX_pack.h`) is replaced by typed records. Bit layouts, dword values and field widths are not modelled, and lengths and address dwords are layout parameters.
- Floating point is left out:
  - vertex coordinates are integers;
  - the CC_VIEWPORT depths are not modelled;
  - the UNCLAMPED_FLOAT_TO_* and half-float conversions of the border colour are replaced by a generic channel representation;
  - `sampler.anisotropic` stands for the test `MaxAnisotropy > 1.0`.
- The `max_aniso` ratio, `lod_bias`, `min_lod` and `max_lod` fixed-point conversions are not modelled.
- BlorpExec.Driver.FillBindingTable: the binding table is allocated uninitialised in the source. The model starts it with all slots empty, and slots other than the two it sets are not constrained by the source.
- BlorpSpec.SampleMaskBits: `1 << samples` is unbounded, so the 32-bit width of the shift is not modelled.
- WmSampler.SamplerUpload.UpdateSamplerState:
  - before gen 6 the pointer is computed from `presumedBatch`, a parameter for `brw->batch.bo->offset`;
  - the drm_intel_bo_emit_reloc call it pairs with is not modelled;
  - `default_color_pointer` is a `nat`, so its bitfield width is not modelled;
  - the source writes the entry field by field through a pointer, while the model computes the three dwords in locals and stores the entry once.
- WmSampler.SamplerUpload.UploadDefaultColor: the gen 5/6 block size is a parameter (`gen5ColorSize`), because `sizeof(struct gen5_sampler_default_color)` is defined outside these files.
- WmSampler.SignedByte: it states the `>> 8` of a 16-bit value, but it is not wired to the short conversion, because that conversion is floating point.
- The shadow function code returned by intel_translate_shadow_compare_func is an input, because that function is not part of this model.
- `SamplersUsed & (1 << s)` is modelled as an unbounded bit test, so a sampler index of 32 or more is not treated specially.
- The stage wrappers are not modelled, because they only select the stage's program, count and offset arrays:
  - brw_upload_fs_samplers, brw_upload_vs_samplers and brw_upload_gs_samplers;
  - their `brw_tracked_state` tables;
  - gen4_init_vtable_sampler_functions.
- `nouveau_screen.c`, `r600_buffer.c` and `blorp.h` are context only. They are not part of this model.
- The batch and the scratch state are unbounded. The space check and implicit flush of intel_batchbuffer_begin (`genX_blorp_exec.c:39`) and of brw_state_batch are not modelled.
- BlorpSpec.VertexBufferFor: `EndAddress.offset += size - 1` (`genX_blorp_exec.c:278, 295`) adds to a uint32_t field, but the model adds in `nat`, so a wrap past 2^32 is not modelled.
- BlorpSpec.PackVaryings: `BITFIELD64_BIT(attr)` on `inputs_read` (`genX_blorp_exec.c:230`) is a 64-bit test, but the model uses the unbounded `Common.Bit`, so slots of 64 or more are not treated specially.
- The `offset` of an address (`Batch.Address`) is a `nat` where the source has a uint32_t; only the packed value (`Add32`) wraps.
- BlorpExec.Driver.EmitVaryingData, SetUpVertexBuffers, EmitVertexInput, EmitVertexPhase, EmitVerticesAndState and Exec require `CountBits(inputs_read) <= num_varying_inputs`: the source relies on the program reading no more slots than it declares, since it sizes the buffer by `num_varying_inputs` and writes one vec4 per read slot.
- BlorpSpec.SfCmds, PsCmds, BlorpExec.Driver.EmitPipeline, EmitPipelineAndDraw and Exec require a WM program on gen 8+ (`cfg.gen.Number() >= 8 ==> p.wmProgData.Some?`), and so do the BlorpSpec functions and lemmas built on them (PipelineCmds, CmdsAfter, OperationCmds and the lemmas about them): the source relies on it, since on gen 8+ it dereferences `prog_data` without a check for 3DSTATE_SBE (`genX_blorp_exec.c:454-458`), for the 3DSTATE_PS dispatch fields (`genX_blorp_exec.c:542-552`) and for 3DSTATE_PS_EXTRA's attribute enable (`genX_blorp_exec.c:590`).
- BlorpExec.Driver.EmitBlendState, EmitProgramState, EmitStatePointers, EmitDynamicState, EmitVerticesAndState and Exec (and BlorpExec.BuildBlendEntries, for its `count`) require `num_draw_buffers <= ` the number of BLEND_STATE entries: the source relies on it, since it writes one entry per draw buffer into a fixed-size block.
