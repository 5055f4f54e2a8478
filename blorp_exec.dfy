/** genX(blorp_exec) and its helpers over a batch: each method appends the
    records, relocations and scratch-state blocks that its C counterpart
    emits, and is proved to append exactly the segment BlorpSpec defines
    for it.  Calls into the rest of the driver are `Foreign` records. */
module BlorpExec {
  import opened Common
  import opened Batch
  import opened BlorpRecords
  import opened BlorpSpec

  /** The three vertices in the order blorp_emit_vertex_data writes them:
      with the implied fourth corner (x1,y0) they are the rectangle's
      corners, and they run in RECTLIST order (two on the y1 edge, two on
      the x0 edge, the right angle at the first). */
  method BuildVertices(p: Params) returns (vertices: seq<Vertex>)
    ensures vertices == RectVertices(p)
    ensures |vertices| == 3
    ensures (set v | v in vertices) + {Vertex(p.x1, p.y0)}
         == {Vertex(p.x0, p.y0), Vertex(p.x1, p.y0), Vertex(p.x0, p.y1), Vertex(p.x1, p.y1)}
    ensures vertices[0].y == vertices[1].y == p.y1 && vertices[2].y == p.y0
    ensures vertices[0].x == vertices[2].x == p.x0 && vertices[1].x == p.x1
  {
    vertices := [Vertex(p.x0, p.y1), Vertex(p.x1, p.y1), Vertex(p.x0, p.y0)];
  }

  /** The attribute-slot walk of blorp_emit_input_varying_data: the vec4 of
      every slot whose bit is set in `mask`, copied densely in slot order. */
  method CopyVaryings(inputs: seq<Vec4>, mask: nat, var0: nat) returns (packed: seq<Vec4>)
    ensures packed == PackVaryings(inputs, mask, var0)
    ensures |packed| == CountBits(mask, var0, |inputs|)
  {
    packed := [];
    var i := 0;
    while i < |inputs|
      invariant 0 <= i <= |inputs|
      invariant packed == PackVaryings(inputs[..i], mask, var0)
    {
      assert inputs[..i + 1][..i] == inputs[..i];
      if Bit(mask, var0 + i) {
        packed := packed + [inputs[i]];
      }
      i := i + 1;
    }
    assert inputs[..|inputs|] == inputs;
    PackVaryingsLength(inputs, mask, var0);
  }

  /** The `ve` array of blorp_emit_vertex_elements: header, position, then
      one element per flat input. */
  method BuildVertexElements(n: nat) returns (elements: seq<VertexElementState>)
    ensures elements == VertexElementsFor(n)
  {
    var ve := new VertexElementState[2 + n](_ => ZeroVertexElement);
    ve[0] := HeaderElement;
    ve[1] := PositionElement;
    for i := 0 to n
      invariant ve[0] == HeaderElement && ve[1] == PositionElement
      invariant forall j :: 0 <= j < i ==> ve[j + 2] == FlatInputElement(j)
    {
      ve[i + 2] := FlatInputElement(i);
    }
    elements := ve[..];
    assert forall j :: 2 <= j < 2 + n ==> elements[j] == FlatInputElement(j - 2);
  }

  /** The `blend` struct of blorp_emit_blend_state: zeroed, then every
      entry below `num_draw_buffers` clamped with the write-disable mask. */
  method BuildBlendEntries(p: Params, count: nat) returns (entries: seq<BlendEntry>)
    requires p.numDrawBuffers <= count
    ensures entries == BlendEntries(p, count)
  {
    var blend := new BlendEntry[count](_ => ZeroBlendEntry);
    for i := 0 to p.numDrawBuffers
      invariant forall j :: 0 <= j < i ==> blend[j] == BlendEntryFor(p.colorWriteDisable)
      invariant forall j :: p.numDrawBuffers <= j < count ==> blend[j] == ZeroBlendEntry
    {
      blend[i] := BlendEntryFor(p.colorWriteDisable);
    }
    entries := blend[..];
  }

  /** The non-program state of `struct brw_context` the sequencer uses:
      the configuration it only reads, the batch it appends to, the dirty
      bits of `ctx.NewDriverState`, and `urb.vsize`. */
  class Driver {
    const cfg: Config
    const batch: Batch<Cmd, State>
    var newDriverState: set<DirtyBit>
    var urbVsize: nat

    ghost predicate Valid()
      reads this, batch
    {
      && batch.Valid()
      && batch.gen == cfg.gen.Number()
      && batch.bo == cfg.batchBo
    }

    constructor (cfg: Config, batch: Batch<Cmd, State>, newDriverState: set<DirtyBit>,
                 urbVsize: nat)
      requires batch.Valid() && batch.gen == cfg.gen.Number() && batch.bo == cfg.batchBo
      requires ValidLayout(cfg.layout)
      ensures Valid()
      ensures this.cfg == cfg && this.batch == batch
      ensures this.newDriverState == newDriverState && this.urbVsize == urbVsize
    {
      this.cfg := cfg;
      this.batch := batch;
      this.newDriverState := newDriverState;
      this.urbVsize := urbVsize;
    }

    /** blorp_emit for a record with no address field. */
    method EmitCmd(c: Cmd)
      requires Valid()
      modifies batch
      ensures Valid()
      ensures batch.cmds == old(batch.cmds) + [c]
      ensures batch.starts == old(batch.starts) + [old(batch.cursor)]
      ensures old(batch.starts) <= batch.starts
      ensures batch.lengths == old(batch.lengths) + [cfg.layout.cmdLength(c)]
      ensures batch.cursor == old(batch.cursor) + cfg.layout.cmdLength(c)
      ensures batch.relocs == old(batch.relocs) && batch.blocks == old(batch.blocks)
      ensures batch.stateNext == old(batch.stateNext)
    {
      var _ := batch.Emit(c, cfg.layout.cmdLength(c));
    }

    /** blorp_emit for a record with one address field at dword `dword`:
        packing it goes through __gen_combine_address. */
    method EmitWithAddress(c: Cmd, dword: nat, a: Address)
      requires Valid() && dword < cfg.layout.cmdLength(c)
      modifies batch
      ensures Valid()
      ensures batch.cmds == old(batch.cmds) + [c]
      ensures batch.starts == old(batch.starts) + [old(batch.cursor)]
      ensures old(batch.starts) <= batch.starts
      ensures batch.lengths == old(batch.lengths) + [cfg.layout.cmdLength(c)]
      ensures batch.cursor == old(batch.cursor) + cfg.layout.cmdLength(c)
      ensures batch.relocs == old(batch.relocs)
                              + RelocsFor(cfg.gen.Number(), old(batch.cursor) + dword, a, 0)
      ensures batch.blocks == old(batch.blocks) && batch.stateNext == old(batch.stateNext)
    {
      var n := cfg.layout.cmdLength(c);
      var at := batch.EmitDwords(n);
      var _ := batch.CombineAddress(at + dword, a, 0);
      batch.Put(at, n, c);
    }

    /** blorp_emit_vertex_data: the rectangle in a 32-byte aligned block of
        the batch, addressed through the vertex domain. */
    method EmitVertexData(p: Params) returns (addr: Address, size: nat, offset: nat)
      requires Valid()
      modifies batch
      ensures Valid()
      ensures addr == VertexAddress(cfg.batchBo, offset) && size == 24 && offset % 32 == 0
      ensures batch.blocks == old(batch.blocks) + [StateBlock(offset, 24, VertexData(RectVertices(p)))]
      ensures batch.cmds == old(batch.cmds) && batch.relocs == old(batch.relocs)
      ensures batch.cursor == old(batch.cursor) && batch.starts == old(batch.starts)
    {
      var vertices := BuildVertices(p);
      var index;
      offset, index := batch.StateBatch(24, Align32, VertexData(vertices));
      addr := Address(Some(batch.bo), VertexDomain, NoDomain, offset);
      size := 24;
    }

    /** blorp_emit_input_varying_data: `num_varying_inputs` vec4s in a
        32-byte aligned block.  The copy loop writes one vec4 per selected
        slot, so the source relies on there being no more selected slots
        than `num_varying_inputs`. */
    method EmitVaryingData(p: Params) returns (addr: Address, size: nat, offset: nat)
      requires Valid() && p.wmProgData.Some?
      requires CountBits(p.wmProgData.value.inputsRead, cfg.layout.varyingSlotVar0, |p.wmInputs|)
               <= p.wmProgData.value.numVaryingInputs
      modifies batch
      ensures Valid()
      ensures addr == VertexAddress(cfg.batchBo, offset)
      ensures size == p.wmProgData.value.numVaryingInputs * 16 && offset % 32 == 0
      ensures batch.blocks == old(batch.blocks)
        + [StateBlock(offset, size,
                      VaryingData(PackVaryings(p.wmInputs, p.wmProgData.value.inputsRead,
                                               cfg.layout.varyingSlotVar0)))]
      ensures batch.cmds == old(batch.cmds) && batch.relocs == old(batch.relocs)
      ensures batch.cursor == old(batch.cursor) && batch.starts == old(batch.starts)
    {
      var prog := p.wmProgData.value;
      size := prog.numVaryingInputs * 16;
      var inputs := CopyVaryings(p.wmInputs, prog.inputsRead, cfg.layout.varyingSlotVar0);
      assert |inputs| * 16 <= size;
      var index;
      offset, index := batch.StateBatch(size, Align32, VaryingData(inputs));
      addr := Address(Some(batch.bo), VertexDomain, NoDomain, offset);
    }

    /** VERTEX_BUFFER_STATE_pack at dword `dw`: the start address, and
        before gen 8 the end address, go through __gen_combine_address. */
    method PackVertexBuffer(dw: nat, b: VertexBufferState)
      requires batch.Valid() && batch.gen == cfg.gen.Number()
      requires cfg.layout.vbStartDword < cfg.layout.vertexBufferStateLength
      requires cfg.layout.vbEndDword < cfg.layout.vertexBufferStateLength
      requires dw + cfg.layout.vertexBufferStateLength <= batch.cursor
      modifies batch`relocs
      ensures batch.Valid()
      ensures batch.relocs == old(batch.relocs) + BufferRelocs(cfg, dw, b)
    {
      var _ := batch.CombineAddress(dw + cfg.layout.vbStartDword, b.start, 0);
      if cfg.gen.Number() < 8 {
        var _ := batch.CombineAddress(dw + cfg.layout.vbEndDword, b.end, 0);
      }
    }

    /** The first half of blorp_emit_vertex_buffers: the `vb` array, with
        the vertex data and (when the program reads varyings) the varying
        data allocated for it. */
    method SetUpVertexBuffers(p: Params)
      returns (vb: seq<VertexBufferState>, vertexOffset: nat, varyingOffset: nat)
      requires Valid()
      requires p.wmProgData.Some? ==>
        CountBits(p.wmProgData.value.inputsRead, cfg.layout.varyingSlotVar0, |p.wmInputs|)
        <= p.wmProgData.value.numVaryingInputs
      modifies batch
      ensures Valid()
      ensures vb == VertexBufferStates(cfg.gen, cfg.batchBo, p, vertexOffset, varyingOffset)
      ensures batch.blocks == old(batch.blocks) + VertexBlocks(cfg, p, vertexOffset, varyingOffset)
      ensures batch.cmds == old(batch.cmds) && batch.relocs == old(batch.relocs)
      ensures batch.cursor == old(batch.cursor) && batch.starts == old(batch.starts)
    {
      var addr, size;
      addr, size, vertexOffset := EmitVertexData(p);
      vb := [VertexBufferFor(cfg.gen, 0, addr, size, 8, AccessVertexData)];
      varyingOffset := 0;
      if p.wmProgData.Some? && p.wmProgData.value.numVaryingInputs != 0 {
        addr, size, varyingOffset := EmitVaryingData(p);
        vb := vb + [VertexBufferFor(cfg.gen, 1, addr, size, 0, AccessInstanceData)];
      }
    }

    /** The second half of blorp_emit_vertex_buffers: one
        3DSTATE_VERTEX_BUFFERS record whose length covers `vb`, each entry
        packed through the address resolver. */
    method EmitVertexBuffers(vb: seq<VertexBufferState>) returns (at: nat)
      requires Valid() && ValidLayout(cfg.layout) && 1 <= |vb|
      modifies batch
      ensures Valid()
      ensures at == old(batch.cursor) && batch.starts == old(batch.starts) + [at]
      ensures batch.cmds == old(batch.cmds)
        + [VertexBuffers(1 + Span(|vb|, cfg.layout.vertexBufferStateLength)
                         - cfg.layout.vertexBuffersLengthBias, vb)]
      ensures batch.relocs == PackedRelocs(old(batch.relocs), cfg, old(batch.cursor) + 1, vb, |vb|)
      ensures batch.blocks == old(batch.blocks)
    {
      var l := cfg.layout;
      var numDwords := 1 + Span(|vb|, l.vertexBufferStateLength);
      at := batch.EmitDwords(numDwords);
      PackVertexBuffers(at + 1, vb);
      batch.Put(at, numDwords, VertexBuffers(numDwords - l.vertexBuffersLengthBias, vb));
    }

    /** The pack loop of blorp_emit_vertex_buffers: each buffer is packed
        VERTEX_BUFFER_STATE_length dwords after the previous one. */
    method PackVertexBuffers(dw0: nat, vb: seq<VertexBufferState>)
      requires Valid() && ValidLayout(cfg.layout)
      requires dw0 + Span(|vb|, cfg.layout.vertexBufferStateLength) <= batch.cursor
      modifies batch`relocs
      ensures Valid()
      ensures batch.relocs == PackedRelocs(old(batch.relocs), cfg, dw0, vb, |vb|)
    {
      var len := cfg.layout.vertexBufferStateLength;
      var dw: nat := dw0;
      for i := 0 to |vb|
        invariant batch.Valid()
        invariant dw == dw0 + Span(i, len)
        invariant batch.relocs == PackedRelocs(old(batch.relocs), cfg, dw0, vb, i)
      {
        SpanMonotone(i + 1, |vb|, len);
        PackVertexBuffer(dw, vb[i]);
        dw := dw + len;
      }
    }

    /** blorp_emit, one after the other, of records without an address
        field. */
    method EmitRecords(cs: seq<Cmd>)
      requires Valid()
      modifies batch
      ensures Valid()
      ensures batch.cmds == old(batch.cmds) + cs
      ensures batch.lengths == old(batch.lengths) + CmdLengths(cfg.layout, cs)
      ensures batch.starts == old(batch.starts) + StartsFrom(old(batch.cursor), CmdLengths(cfg.layout, cs))
      ensures old(batch.starts) <= batch.starts
      ensures batch.cursor == old(batch.cursor) + Total(CmdLengths(cfg.layout, cs))
      ensures batch.relocs == old(batch.relocs) && batch.blocks == old(batch.blocks)
      ensures batch.stateNext == old(batch.stateNext)
      decreases |cs|
    {
      if cs != [] {
        var n := |cs| - 1;
        ghost var at := batch.cursor;
        assert cs == cs[..n] + [cs[n]];
        EmitRecords(cs[..n]);
        ghost var ls := CmdLengths(cfg.layout, cs[..n]);
        RecordsSnoc(cfg.layout, at, cs[..n], cs[n]);
        AppendAssoc(old(batch.cmds), cs[..n], [cs[n]]);
        AppendAssoc(old(batch.lengths), ls, [cfg.layout.cmdLength(cs[n])]);
        AppendAssoc(old(batch.starts), StartsFrom(at, ls), [at + Total(ls)]);
        EmitCmd(cs[n]);
      }
    }

    /** The 3DSTATE_VF_INSTANCING loop: instancing off for each of the
        first `k` vertex elements, in order. */
    method EmitInstancing(k: nat)
      requires Valid()
      modifies batch
      ensures Valid()
      ensures batch.cmds == old(batch.cmds) + Instancing(k)
      ensures old(batch.starts) <= batch.starts
      ensures batch.relocs == old(batch.relocs) && batch.blocks == old(batch.blocks)
    {
      for i := 0 to k
        invariant Valid()
        invariant batch.cmds == old(batch.cmds) + Instancing(i)
        invariant old(batch.starts) <= batch.starts
        invariant batch.relocs == old(batch.relocs) && batch.blocks == old(batch.blocks)
      {
        assert Instancing(i + 1) == Instancing(i) + [VfInstancing(i, false)];
        AppendAssoc(old(batch.cmds), Instancing(i), [VfInstancing(i, false)]);
        EmitCmd(VfInstancing(i, false));
      }
    }

    /** blorp_emit_vertex_elements: 3DSTATE_VERTEX_ELEMENTS with `2 + n`
        elements, and on gen 8+ the SGVS, instancing and topology records. */
    method EmitVertexElements(p: Params)
      requires Valid() && ValidLayout(cfg.layout)
      modifies batch
      ensures Valid()
      ensures batch.cmds == old(batch.cmds) + VertexElementCmds(cfg, p)
      ensures old(batch.starts) <= batch.starts
      ensures batch.relocs == old(batch.relocs) && batch.blocks == old(batch.blocks)
    {
      var l := cfg.layout;
      var n := NumVaryings(p);
      var ve := BuildVertexElements(n);
      SpanMonotone(2, 2 + n, l.vertexElementStateLength);
      var numDwords := 1 + Span(2 + n, l.vertexElementStateLength);
      var at := batch.EmitDwords(numDwords);
      var elements := VertexElements(numDwords - l.vertexElementsLengthBias, ve);
      batch.Put(at, numDwords, elements);
      if cfg.gen.Number() >= 8 {
        ghost var afterElements := batch.cmds;
        EmitCmd(VfSgvs);
        EmitInstancing(2 + n);
        EmitCmd(VfTopology(RectList));
        AppendAssoc(afterElements, [VfSgvs], Instancing(2 + n));
        AppendAssoc(afterElements, [VfSgvs] + Instancing(2 + n), [VfTopology(RectList)]);
        AppendAssoc(old(batch.cmds), [elements], [VfSgvs] + Instancing(2 + n) + [VfTopology(RectList)]);
      }
    }

    /** emit_urb_config.  Gen 7+ leaves the URB alone when neither
        BRW_NEW_CONTEXT nor BRW_NEW_URB_SIZE is pending and the current VS
        entry size suffices; otherwise it flags BRW_NEW_URB_SIZE and uploads
        a partition for the blorp entry size.  Gen 6 always emits
        3DSTATE_URB with the maximum VS entry count. */
    method EmitUrbConfig(p: Params) returns (reprogram: bool)
      requires Valid()
      modifies batch, this`newDriverState
      ensures Valid()
      ensures reprogram == UrbReprogrammed(cfg.gen, old(newDriverState), urbVsize, p)
      ensures batch.cmds == old(batch.cmds) + UrbCmds(cfg, p, reprogram)
      ensures old(batch.starts) <= batch.starts
      ensures newDriverState == if reprogram then old(newDriverState) + {NewUrbSize}
                                else old(newDriverState)
      ensures batch.relocs == old(batch.relocs) && batch.blocks == old(batch.blocks)
    {
      if cfg.gen.Number() >= 7 {
        var entrySize := VsEntrySize(p);
        if NewContext !in newDriverState && NewUrbSize !in newDriverState
           && urbVsize >= entrySize {
          reprogram := false;
          return;
        }
        newDriverState := newDriverState + {NewUrbSize};
        EmitCmd(Foreign(UrbUpload(entrySize)));
        reprogram := true;
      } else {
        EmitCmd(Urb(cfg.urbMaxVsEntries));
        reprogram := false;
      }
    }

    /** blorp_emit_blend_state: BLEND_STATE in a 64-byte aligned block, then
        its pointer (gen 7+) and 3DSTATE_PS_BLEND (gen 8+). */
    method EmitBlendState(p: Params) returns (offset: nat)
      requires Valid() && p.numDrawBuffers <= cfg.layout.blendEntryCount
      modifies batch
      ensures Valid()
      ensures offset % 64 == 0
      ensures batch.blocks == old(batch.blocks) + [BlendBlock(cfg.layout, p, offset)]
      ensures batch.cmds == old(batch.cmds) + BlendCmds(cfg.gen, offset)
      ensures old(batch.starts) <= batch.starts
      ensures batch.relocs == old(batch.relocs)
    {
      var entries := BuildBlendEntries(p, cfg.layout.blendEntryCount);
      var index;
      offset, index := batch.StateBatch(cfg.layout.blendStateLength * 4, Align64, BlendState(entries));
      if cfg.gen.Number() >= 7 {
        EmitCmd(BlendStatePointers(offset, cfg.gen.Number() >= 8));
      }
      if cfg.gen.Number() >= 8 {
        EmitCmd(PsBlend(true));
      }
    }

    /** blorp_emit_color_calc_state: a zeroed COLOR_CALC_STATE in a 64-byte
        aligned block, then its pointer on gen 7+. */
    method EmitColorCalcState() returns (offset: nat)
      requires Valid()
      modifies batch
      ensures Valid()
      ensures offset % 64 == 0
      ensures batch.blocks == old(batch.blocks)
        + [StateBlock(offset, cfg.layout.colorCalcStateLength * 4, ColorCalcState)]
      ensures batch.cmds == old(batch.cmds) + ColorCalcCmds(cfg.gen, offset)
      ensures old(batch.starts) <= batch.starts
      ensures batch.relocs == old(batch.relocs)
    {
      var index;
      offset, index := batch.StateBatch(cfg.layout.colorCalcStateLength * 4, Align64, ColorCalcState);
      if cfg.gen.Number() >= 7 {
        EmitCmd(CcStatePointers(offset, cfg.gen.Number() >= 8));
      }
    }

    /** blorp_emit_depth_stencil_state: on gen 8+ only the
        3DSTATE_WM_DEPTH_STENCIL record and offset 0; before, the
        DEPTH_STENCIL_STATE block (with its pointer on gen 7). */
    method EmitDepthStencilState(p: Params) returns (offset: nat)
      requires Valid()
      modifies batch
      ensures Valid()
      ensures cfg.gen.Number() >= 8 ==> offset == 0 && batch.blocks == old(batch.blocks)
      ensures cfg.gen.Number() < 8 ==>
        offset % 64 == 0
        && batch.blocks == old(batch.blocks)
           + [StateBlock(offset, cfg.layout.depthStencilStateLength * 4, DepthStencilStateFor(p))]
      ensures batch.cmds == old(batch.cmds) + DepthStencilCmds(cfg.gen, offset)
      ensures old(batch.starts) <= batch.starts
      ensures batch.relocs == old(batch.relocs)
    {
      if cfg.gen.Number() >= 8 {
        EmitCmd(WmDepthStencil);
        offset := 0;
      } else {
        var ds := DepthStencilState(true, false, CompareAlways);
        if p.hizOp == HizDepthResolve {
          ds := ds.(depthTestEnable := true, depthTestFunction := CompareNever);
        }
        var index;
        offset, index := batch.StateBatch(cfg.layout.depthStencilStateLength * 4, Align64, ds);
        if cfg.gen.Number() >= 7 {
          EmitCmd(DepthStencilStatePointers(offset));
        }
      }
    }

    /** brw_blorp_emit_surface_state, which is outside genX_blorp_exec.c: a
        surface-state block whose offset goes into the binding table. */
    method EmitSurfaceState(surface: State) returns (offset: nat)
      requires Valid()
      modifies batch
      ensures Valid()
      ensures batch.blocks == old(batch.blocks)
        + [StateBlock(offset, cfg.layout.surfaceStateSize, surface)]
      ensures batch.cmds == old(batch.cmds) && batch.relocs == old(batch.relocs)
      ensures batch.starts == old(batch.starts)
    {
      var index;
      offset, index := batch.StateBatch(cfg.layout.surfaceStateSize,
                                        cfg.layout.surfaceStateAlignment, surface);
    }

    /** blorp_emit_surface_states: an uninitialised binding table, the
        destination's surface state stored at the render-target slot, the
        source's (when there is one) at the texture slot, then the
        binding-table pointer. */
    method EmitSurfaceStates(p: Params) returns (tableOffset: nat, dstOffset: nat, srcOffset: nat)
      requires Valid() && ValidLayout(cfg.layout)
      modifies batch
      ensures Valid()
      ensures tableOffset % 32 == 0
      ensures batch.blocks == old(batch.blocks)
        + SurfaceBlocks(cfg.layout, p, tableOffset, dstOffset, srcOffset)
      ensures batch.cmds == old(batch.cmds) + BindingTableCmds(cfg.gen, tableOffset)
      ensures old(batch.starts) <= batch.starts
      ensures batch.relocs == old(batch.relocs)
    {
      tableOffset, dstOffset, srcOffset := FillBindingTable(p);
      if cfg.gen.Number() >= 7 {
        EmitCmd(BindingTablePointersPS(tableOffset));
      } else {
        EmitCmd(Gen6BindingTablePointers(true, tableOffset));
      }
    }

    /** The state half of blorp_emit_surface_states: the binding table
        allocated empty, then each surface state allocated and its offset
        stored in the table. */
    method FillBindingTable(p: Params) returns (tableOffset: nat, dstOffset: nat, srcOffset: nat)
      requires Valid() && ValidLayout(cfg.layout)
      modifies batch
      ensures Valid()
      ensures tableOffset % 32 == 0
      ensures batch.blocks == old(batch.blocks)
        + SurfaceBlocks(cfg.layout, p, tableOffset, dstOffset, srcOffset)
      ensures batch.cmds == old(batch.cmds) && batch.starts == old(batch.starts)
      ensures batch.relocs == old(batch.relocs)
    {
      var l := cfg.layout;
      var bind: seq<Option<nat>> := seq(l.numBindingTableEntries, _ => None);
      var index;
      tableOffset, index := batch.StateBatch(4 * l.numBindingTableEntries, Align32,
                                             BindingTable(bind));
      dstOffset := EmitSurfaceState(DstSurfaceState);
      bind := bind[l.renderbufferIndex := Some(dstOffset)];
      batch.WriteState(index, BindingTable(bind));
      srcOffset := 0;
      if p.src.bo.Some? {
        srcOffset := EmitSurfaceState(SrcSurfaceState);
        bind := bind[l.textureIndex := Some(srcOffset)];
        batch.WriteState(index, BindingTable(bind));
      }
      assert bind == BindingTableSlots(l, dstOffset, if p.src.bo.Some? then Some(srcOffset) else None);
    }

    /** blorp_emit_sampler_state: the fixed sampler in a 32-byte aligned
        block, then its pointer. */
    method EmitSamplerState() returns (offset: nat)
      requires Valid()
      modifies batch
      ensures Valid()
      ensures offset % 32 == 0
      ensures batch.blocks == old(batch.blocks)
        + [StateBlock(offset, cfg.layout.samplerStateLength * 4, SamplerStateBlock(BlorpSamplerValue))]
      ensures batch.cmds == old(batch.cmds) + SamplerCmds(cfg.gen, offset)
      ensures old(batch.starts) <= batch.starts
      ensures batch.relocs == old(batch.relocs)
    {
      var index;
      offset, index := batch.StateBatch(cfg.layout.samplerStateLength * 4, Align32,
                                        SamplerStateBlock(BlorpSamplerValue));
      if cfg.gen.Number() >= 7 {
        EmitCmd(SamplerStatePointersPS(offset));
      } else {
        EmitCmd(Gen6SamplerStatePointers(true, true, true, offset));
      }
    }

    /** blorp_emit_viewport_state: CC_VIEWPORT in a 32-byte aligned block,
        then its pointer. */
    method EmitViewportState() returns (offset: nat)
      requires Valid()
      modifies batch
      ensures Valid()
      ensures offset % 32 == 0
      ensures batch.blocks == old(batch.blocks)
        + [StateBlock(offset, cfg.layout.ccViewportLength * 4, CcViewport)]
      ensures batch.cmds == old(batch.cmds) + ViewportCmds(cfg.gen, offset)
      ensures old(batch.starts) <= batch.starts
      ensures batch.relocs == old(batch.relocs)
    {
      var index;
      offset, index := batch.StateBatch(cfg.layout.ccViewportLength * 4, Align32, CcViewport);
      if cfg.gen.Number() >= 7 {
        EmitCmd(ViewportStatePointersCC(offset));
      } else {
        EmitCmd(Gen6ViewportStatePointers(true, offset));
      }
    }

    /** blorp_emit_depth_stencil_config: the depth-stall flushes, then
        3DSTATE_DEPTH_BUFFER and 3DSTATE_HIER_DEPTH_BUFFER programmed from
        the depth surface and its auxiliary surface, then an empty
        3DSTATE_STENCIL_BUFFER. */
    method EmitDepthStencilConfig(p: Params) returns (depthAt: nat, hizAt: nat)
      requires Valid() && ValidLayout(cfg.layout) && p.depth.bo.Some?
      modifies batch
      ensures Valid()
      ensures batch.cmds == old(batch.cmds) + DepthCmds(cfg, p)
      ensures |batch.starts| == |old(batch.starts)| + 4 && old(batch.starts) <= batch.starts
      ensures depthAt == batch.starts[|old(batch.starts)| + 1]
      ensures hizAt == batch.starts[|old(batch.starts)| + 2]
      ensures batch.relocs == old(batch.relocs) + DepthRelocs(cfg, p, depthAt, hizAt)
      ensures batch.blocks == old(batch.blocks)
    {
      var l := cfg.layout;
      EmitCmd(Foreign(DepthStallFlushes));
      var db := DepthBufferFor(cfg.gen, p);
      depthAt := batch.cursor;
      EmitWithAddress(DepthBuffer(db), l.depthBufferAddressDword, db.address);
      var hiz := HizCmd(cfg.gen, p);
      hizAt := batch.cursor;
      EmitWithAddress(hiz, l.hizAddressDword, hiz.hizAddress);
      EmitCmd(StencilBuffer);
    }

    /** The depth records genX(blorp_exec) emits when there is no depth
        buffer: the flushes, a SURFTYPE_NULL/D32_FLOAT depth buffer, an
        all-zero HiZ buffer and an empty stencil buffer.  The zero address
        fields pack to plain zeros. */
    method EmitNullDepth() returns (depthAt: nat, hizAt: nat)
      requires Valid() && ValidLayout(cfg.layout)
      modifies batch
      ensures Valid()
      ensures batch.cmds == old(batch.cmds)
        + [Foreign(DepthStallFlushes), DepthBuffer(NullDepthBuffer(cfg.layout)),
           HierDepthBuffer(0, NullAddress, 0), StencilBuffer]
      ensures |batch.starts| == |old(batch.starts)| + 4 && old(batch.starts) <= batch.starts
      ensures depthAt == batch.starts[|old(batch.starts)| + 1]
      ensures hizAt == batch.starts[|old(batch.starts)| + 2]
      ensures batch.relocs == old(batch.relocs) && batch.blocks == old(batch.blocks)
    {
      var l := cfg.layout;
      EmitCmd(Foreign(DepthStallFlushes));
      depthAt := batch.cursor;
      EmitWithAddress(DepthBuffer(NullDepthBuffer(l)), l.depthBufferAddressDword, NullAddress);
      hizAt := batch.cursor;
      EmitWithAddress(HierDepthBuffer(0, NullAddress, 0), l.hizAddressDword, NullAddress);
      EmitCmd(StencilBuffer);
    }

    /** The prologue and the vertex buffers of genX(blorp_exec). */
    method EmitVertexInput(p: Params) returns (vertexOffset: nat, varyingOffset: nat, vbAt: nat)
      requires Valid() && ValidLayout(cfg.layout)
      requires p.wmProgData.Some? ==>
        CountBits(p.wmProgData.value.inputsRead, cfg.layout.varyingSlotVar0, |p.wmInputs|)
        <= p.wmProgData.value.numVaryingInputs
      modifies batch
      ensures Valid()
      ensures batch.cmds == old(batch.cmds) + PrologueCmds(cfg.gen)
                            + [VertexBuffersCmd(cfg, p, vertexOffset, varyingOffset)]
      ensures old(batch.starts) <= batch.starts
      ensures |old(batch.starts)| + |PrologueCmds(cfg.gen)| < |batch.starts|
      ensures vbAt == batch.starts[|old(batch.starts)| + |PrologueCmds(cfg.gen)|]
      ensures batch.blocks == old(batch.blocks) + VertexBlocks(cfg, p, vertexOffset, varyingOffset)
      ensures batch.relocs
           == VertexRelocs(old(batch.relocs), cfg, p, vertexOffset, varyingOffset, vbAt)
    {
      EmitRecords(PrologueCmds(cfg.gen));
      var vb;
      vb, vertexOffset, varyingOffset := SetUpVertexBuffers(p);
      assert |vb| == NumBuffers(p);
      vbAt := EmitVertexBuffers(vb);
    }

    /** The prologue, the vertex buffers and elements and the URB
        configuration of genX(blorp_exec). */
    method EmitVertexPhase(p: Params)
      returns (vertexOffset: nat, varyingOffset: nat, vbAt: nat, reprogram: bool)
      requires Valid() && ValidLayout(cfg.layout)
      requires p.wmProgData.Some? ==>
        CountBits(p.wmProgData.value.inputsRead, cfg.layout.varyingSlotVar0, |p.wmInputs|)
        <= p.wmProgData.value.numVaryingInputs
      modifies batch, this`newDriverState
      ensures Valid()
      ensures reprogram == UrbReprogrammed(cfg.gen, old(newDriverState), urbVsize, p)
      ensures newDriverState == if reprogram then old(newDriverState) + {NewUrbSize}
                                else old(newDriverState)
      ensures batch.cmds
           == VertexPhaseCmds(old(batch.cmds), cfg, p, reprogram, vertexOffset, varyingOffset)
      ensures old(batch.starts) <= batch.starts
      ensures |old(batch.starts)| + |PrologueCmds(cfg.gen)| < |batch.starts|
      ensures vbAt == batch.starts[|old(batch.starts)| + |PrologueCmds(cfg.gen)|]
      ensures batch.blocks == old(batch.blocks) + VertexBlocks(cfg, p, vertexOffset, varyingOffset)
      ensures batch.relocs
           == VertexRelocs(old(batch.relocs), cfg, p, vertexOffset, varyingOffset, vbAt)
    {
      vertexOffset, varyingOffset, vbAt := EmitVertexInput(p);
      EmitVertexElements(p);
      reprogram := EmitUrbConfig(p);
    }

    /** The first half of the dynamic state of genX(blorp_exec): blend and
        colour-calc state when there is a program, depth/stencil state, the
        gen 6 combined pointers, the constant buffers and the
        resource-streamer switch.  Without a program the blend and
        colour-calc offsets stay 0. */
    method EmitStatePointers(p: Params) returns (blend: nat, cc: nat, ds: nat)
      requires Valid()
      requires p.wmProgData.Some? ==> p.numDrawBuffers <= cfg.layout.blendEntryCount
      modifies batch
      ensures Valid()
      ensures p.wmProgData.None? ==> blend == 0 && cc == 0
      ensures var g := cfg.gen;
        batch.cmds == (if p.wmProgData.Some?
                       then old(batch.cmds) + BlendCmds(g, blend) + ColorCalcCmds(g, cc)
                       else old(batch.cmds))
                      + DepthStencilCmds(g, ds) + Gen6PointerCmds(g, blend, cc, ds)
                      + ConstantCmds(g) + ResourceStreamerCmds(cfg)
      ensures old(batch.starts) <= batch.starts
      ensures batch.blocks == old(batch.blocks)
        + (if p.wmProgData.Some?
           then [BlendBlock(cfg.layout, p, blend),
                 StateBlock(cc, cfg.layout.colorCalcStateLength * 4, ColorCalcState)]
           else [])
        + (if cfg.gen.Number() >= 8 then []
           else [StateBlock(ds, cfg.layout.depthStencilStateLength * 4, DepthStencilStateFor(p))])
      ensures batch.relocs == old(batch.relocs)
    {
      var g := cfg.gen;
      blend, cc := EmitProgramState(p);
      ds := EmitDepthStencilState(p);
      ghost var afterDs := batch.cmds;
      EmitRecords(Gen6PointerCmds(g, blend, cc, ds) + ConstantCmds(g) + ResourceStreamerCmds(cfg));
      AppendAssoc(afterDs, Gen6PointerCmds(g, blend, cc, ds) + ConstantCmds(g), ResourceStreamerCmds(cfg));
      AppendAssoc(afterDs, Gen6PointerCmds(g, blend, cc, ds), ConstantCmds(g));
    }

    /** The blend and colour-calc state genX(blorp_exec) emits only when
        there is a program; without one both offsets stay 0. */
    method EmitProgramState(p: Params) returns (blend: nat, cc: nat)
      requires Valid()
      requires p.wmProgData.Some? ==> p.numDrawBuffers <= cfg.layout.blendEntryCount
      modifies batch
      ensures Valid()
      ensures p.wmProgData.None? ==> blend == 0 && cc == 0
      ensures batch.cmds == if p.wmProgData.Some?
                            then old(batch.cmds) + BlendCmds(cfg.gen, blend) + ColorCalcCmds(cfg.gen, cc)
                            else old(batch.cmds)
      ensures old(batch.starts) <= batch.starts
      ensures batch.blocks == old(batch.blocks)
        + if p.wmProgData.Some?
          then [BlendBlock(cfg.layout, p, blend),
                StateBlock(cc, cfg.layout.colorCalcStateLength * 4, ColorCalcState)]
          else []
      ensures batch.relocs == old(batch.relocs)
    {
      blend, cc := 0, 0;
      if p.wmProgData.Some? {
        blend := EmitBlendState(p);
        cc := EmitColorCalcState();
      }
    }

    /** The second half of the dynamic state of genX(blorp_exec): the
        surfaces when there is a program and the sampler when there is a
        source.  An offset that is not allocated stays 0. */
    method EmitBindingState(p: Params) returns (table: nat, dst: nat, src: nat, sampler: nat)
      requires Valid() && ValidLayout(cfg.layout)
      modifies batch
      ensures Valid()
      ensures var g := cfg.gen;
        var withSurfaces := if p.wmProgData.Some? then old(batch.cmds) + BindingTableCmds(g, table)
                            else old(batch.cmds);
        batch.cmds == if p.src.bo.Some? then withSurfaces + SamplerCmds(g, sampler)
                      else withSurfaces
      ensures old(batch.starts) <= batch.starts
      ensures batch.blocks == old(batch.blocks)
        + (if p.wmProgData.Some? then SurfaceBlocks(cfg.layout, p, table, dst, src) else [])
        + (if p.src.bo.Some?
           then [StateBlock(sampler, cfg.layout.samplerStateLength * 4,
                            SamplerStateBlock(BlorpSamplerValue))]
           else [])
      ensures batch.relocs == old(batch.relocs)
    {
      table, dst, src := 0, 0, 0;
      if p.wmProgData.Some? {
        table, dst, src := EmitSurfaceStates(p);
      }
      sampler := 0;
      if p.src.bo.Some? {
        sampler := EmitSamplerState();
      }
    }

    /** The dynamic state of genX(blorp_exec): the state pointers, then the
        binding table and sampler. */
    method EmitDynamicState(p: Params)
      returns (blend: nat, cc: nat, ds: nat, table: nat, dst: nat, src: nat, sampler: nat)
      requires Valid() && ValidLayout(cfg.layout)
      requires p.wmProgData.Some? ==> p.numDrawBuffers <= cfg.layout.blendEntryCount
      modifies batch
      ensures Valid()
      ensures batch.cmds == DynamicStateCmds(old(batch.cmds), cfg, p, blend, cc, ds, table, sampler)
      ensures old(batch.starts) <= batch.starts
      ensures batch.blocks
           == old(batch.blocks) + DynamicStateBlocks(cfg, p, blend, cc, ds, table, dst, src, sampler)
      ensures batch.relocs == old(batch.relocs)
    {
      ghost var b0 := batch.blocks;
      blend, cc, ds := EmitStatePointers(p);
      ghost var b1 := batch.blocks;
      table, dst, src, sampler := EmitBindingState(p);
      DynamicStateBlocksSplit(b0, cfg, p, blend, cc, ds, table, dst, src, sampler);
    }

    /** The pipeline configuration of genX(blorp_exec): multisample state,
        the sample mask `(1 << samples) - 1`, the disabled VS/HS/TE/DS/SO/GS
        stages, the clipper with perspective divide off, the SF and PS
        configuration and the viewport. */
    method EmitPipeline(p: Params) returns (ccViewport: nat)
      requires Valid()
      requires cfg.gen.Number() >= 8 ==> p.wmProgData.Some?
      modifies batch
      ensures Valid()
      ensures batch.cmds == PipelineCmds(old(batch.cmds), cfg, p, ccViewport)
      ensures old(batch.starts) <= batch.starts
      ensures batch.blocks == old(batch.blocks)
        + [StateBlock(ccViewport, cfg.layout.ccViewportLength * 4, CcViewport)]
      ensures batch.relocs == old(batch.relocs)
    {
      EmitFixedFunctions(p);
      EmitRecords(SfCmds(cfg, p));
      EmitRecords(PsCmds(cfg, p));
      ccViewport := EmitViewportState();
    }

    /** The multisample state, the sample mask `(1 << samples) - 1`, the
        disabled VS/HS/TE/DS/SO/GS stages and the clipper. */
    method EmitFixedFunctions(p: Params)
      requires Valid()
      modifies batch
      ensures Valid()
      ensures batch.cmds == old(batch.cmds) + MultisampleCmds(cfg.gen, p.dst.surf.samples)
                            + [SampleMask(SampleMaskFor(p.dst.surf.samples))]
                            + StageCmds(cfg.gen) + [Clip(true)]
      ensures old(batch.starts) <= batch.starts
      ensures batch.blocks == old(batch.blocks) && batch.relocs == old(batch.relocs)
    {
      var g := cfg.gen;
      EmitRecords(MultisampleCmds(g, p.dst.surf.samples));
      EmitRecords([SampleMask(SampleMaskFor(p.dst.surf.samples))]);
      EmitRecords(StageCmds(g));
      EmitRecords([Clip(true)]);
    }

    /** The end of genX(blorp_exec): the depth configuration, or the null
        depth records when there is no depth buffer, then
        3DSTATE_CLEAR_PARAMS, 3DSTATE_DRAWING_RECTANGLE and 3DPRIMITIVE. */
    method EmitDepthAndDraw(p: Params) returns (depthAt: nat, hizAt: nat)
      requires Valid() && ValidLayout(cfg.layout)
      modifies batch
      ensures Valid()
      ensures batch.cmds == DrawCmds(old(batch.cmds), cfg, p)
      ensures old(batch.starts) <= batch.starts
      ensures |batch.starts| == |old(batch.starts)| + 7
      ensures depthAt == batch.starts[|batch.starts| - 6]
      ensures hizAt == batch.starts[|batch.starts| - 5]
      ensures batch.relocs == old(batch.relocs) + DepthRelocs(cfg, p, depthAt, hizAt)
      ensures batch.blocks == old(batch.blocks)
    {
      if p.depth.bo.Some? {
        depthAt, hizAt := EmitDepthStencilConfig(p);
      } else {
        depthAt, hizAt := EmitNullDepth();
      }
      EmitRecords(FinalCmds(p));
    }

    /** The first half of genX(blorp_exec): the vertex phase, then the
        dynamic state. */
    method EmitVerticesAndState(p: Params)
      returns (vertexOffset: nat, varyingOffset: nat, vbAt: nat, reprogram: bool,
               blend: nat, cc: nat, ds: nat, table: nat, dst: nat, src: nat, sampler: nat)
      requires Valid() && ValidLayout(cfg.layout)
      requires p.wmProgData.Some? ==>
        CountBits(p.wmProgData.value.inputsRead, cfg.layout.varyingSlotVar0, |p.wmInputs|)
        <= p.wmProgData.value.numVaryingInputs
        && p.numDrawBuffers <= cfg.layout.blendEntryCount
      modifies batch, this`newDriverState
      ensures Valid()
      ensures reprogram == UrbReprogrammed(cfg.gen, old(newDriverState), urbVsize, p)
      ensures newDriverState == if reprogram then old(newDriverState) + {NewUrbSize}
                                else old(newDriverState)
      ensures batch.cmds
           == DynamicStateCmds(VertexPhaseCmds(old(batch.cmds), cfg, p, reprogram,
                                               vertexOffset, varyingOffset),
                               cfg, p, blend, cc, ds, table, sampler)
      ensures old(batch.starts) <= batch.starts
      ensures |old(batch.starts)| + |PrologueCmds(cfg.gen)| < |batch.starts|
      ensures vbAt == batch.starts[|old(batch.starts)| + |PrologueCmds(cfg.gen)|]
      ensures batch.blocks == old(batch.blocks) + VertexBlocks(cfg, p, vertexOffset, varyingOffset)
                              + DynamicStateBlocks(cfg, p, blend, cc, ds, table, dst, src, sampler)
      ensures batch.relocs
           == VertexRelocs(old(batch.relocs), cfg, p, vertexOffset, varyingOffset, vbAt)
    {
      ghost var v := |old(batch.starts)| + |PrologueCmds(cfg.gen)|;
      vertexOffset, varyingOffset, vbAt, reprogram := EmitVertexPhase(p);
      label AfterVertexPhase:
      blend, cc, ds, table, dst, src, sampler := EmitDynamicState(p);
      assert vbAt == batch.starts[v] by {
        PrefixKeeps(old@AfterVertexPhase(batch.starts), batch.starts, v);
      }
    }

    /** The second half of genX(blorp_exec): the pipeline configuration,
        then the depth records and the draw. */
    method EmitPipelineAndDraw(p: Params) returns (ccViewport: nat, depthAt: nat, hizAt: nat)
      requires Valid() && ValidLayout(cfg.layout)
      requires cfg.gen.Number() >= 8 ==> p.wmProgData.Some?
      modifies batch
      ensures Valid()
      ensures batch.cmds == DrawCmds(PipelineCmds(old(batch.cmds), cfg, p, ccViewport), cfg, p)
      ensures old(batch.starts) <= batch.starts
      ensures |batch.starts| > |old(batch.starts)| + 7
      ensures depthAt == batch.starts[|batch.starts| - 6]
      ensures hizAt == batch.starts[|batch.starts| - 5]
      ensures batch.relocs == old(batch.relocs) + DepthRelocs(cfg, p, depthAt, hizAt)
      ensures batch.blocks == old(batch.blocks)
        + [StateBlock(ccViewport, cfg.layout.ccViewportLength * 4, CcViewport)]
    {
      ccViewport := EmitPipeline(p);
      depthAt, hizAt := EmitDepthAndDraw(p);
    }

    /** genX(blorp_exec): the whole record sequence of one blorp operation
        appended to the batch, the scratch blocks it uses allocated after
        those already there, a relocation for every buffer address it
        names, and BRW_NEW_URB_SIZE flagged when the URB is reprogrammed.
        Returned are the scratch offsets and where the vertex-buffer, depth
        and HiZ records start. */
    method Exec(p: Params) returns (o: Offsets, vbAt: nat, depthAt: nat, hizAt: nat)
      requires Valid() && ValidLayout(cfg.layout)
      requires cfg.gen.Number() >= 8 ==> p.wmProgData.Some?
      requires p.wmProgData.Some? ==>
        CountBits(p.wmProgData.value.inputsRead, cfg.layout.varyingSlotVar0, |p.wmInputs|)
        <= p.wmProgData.value.numVaryingInputs
        && p.numDrawBuffers <= cfg.layout.blendEntryCount
      modifies batch, this`newDriverState
      ensures Valid()
      ensures batch.cmds
           == CmdsAfter(old(batch.cmds), cfg, p,
                        UrbReprogrammed(cfg.gen, old(newDriverState), urbVsize, p), o)
      ensures batch.blocks == BlocksAfter(old(batch.blocks), cfg, p, o)
      ensures batch.relocs == RelocsAfter(old(batch.relocs), cfg, p, o, vbAt, depthAt, hizAt)
      ensures old(batch.starts) <= batch.starts
      ensures |batch.starts| == |batch.cmds| > |old(batch.cmds)| + |PrologueCmds(cfg.gen)| + 7
      ensures vbAt == batch.starts[|old(batch.starts)| + |PrologueCmds(cfg.gen)|]
      ensures depthAt == batch.starts[|batch.starts| - 6]
      ensures hizAt == batch.starts[|batch.starts| - 5]
      ensures newDriverState
           == if UrbReprogrammed(cfg.gen, old(newDriverState), urbVsize, p)
              then old(newDriverState) + {NewUrbSize} else old(newDriverState)
    {
      var vertexOffset, varyingOffset, reprogram, blend, cc, ds, table, dst, src, sampler;
      vertexOffset, varyingOffset, vbAt, reprogram, blend, cc, ds, table, dst, src, sampler
        := EmitVerticesAndState(p);
      var ccViewport;
      ccViewport, depthAt, hizAt := EmitPipelineAndDraw(p);
      o := Offsets(vertexOffset, varyingOffset, blend, cc, ds, table, dst, src, sampler, ccViewport);
    }
  }
}
