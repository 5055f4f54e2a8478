/** Reference definitions for what genX(blorp_exec) emits: one function per
    helper of genX_blorp_exec.c giving the records that helper appends, the
    whole sequence as their concatenation, and the properties of that
    sequence (which records appear, in what order, with what contents). */
module BlorpSpec {
  import opened Common
  import opened Batch
  import opened BlorpRecords

  // ----- vertex input -----

  /** The number of flat varyings: zero when there is no program. */
  function NumVaryings(p: Params): nat
  {
    if p.wmProgData.Some? then p.wmProgData.value.numVaryingInputs else 0
  }

  /** One vertex buffer, or two when a program reads varyings. */
  function NumBuffers(p: Params): nat
  {
    if p.wmProgData.Some? && p.wmProgData.value.numVaryingInputs != 0 then 2 else 1
  }

  /** gen7_blorp_get_vs_entry_size: the VUE size in 64-byte units that holds
      a 16-byte header, a 16-byte position and a vec4 per varying. */
  function VsEntrySize(p: Params): (r: nat)
    ensures r * 64 >= 16 + 16 + 16 * NumVaryings(p)
    ensures (r - 1) * 64 < 16 + 16 + 16 * NumVaryings(p)
    ensures r >= 1
  {
    DivRoundUp(16 + 16 + NumVaryings(p) * 16, 64)
  }

  /** The early exit of emit_urb_config: neither dirty bit is set and the
      current VS entry size is already large enough. */
  predicate UrbUpToDate(flags: set<DirtyBit>, vsize: nat, entrySize: nat)
  {
    NewContext !in flags && NewUrbSize !in flags && vsize >= entrySize
  }

  /** Whether emit_urb_config reprograms the URB: gen 6 always emits its
      fixed 3DSTATE_URB instead; gen 7+ uploads a new partition unless the
      current one is up to date. */
  predicate UrbReprogrammed(g: Gen, flags: set<DirtyBit>, vsize: nat, p: Params)
  {
    g.Number() >= 7 && !UrbUpToDate(flags, vsize, VsEntrySize(p))
  }

  /** The three vertices of the RECTLIST: (x0,y1), (x1,y1), (x0,y0). */
  function RectVertices(p: Params): seq<Vertex>
  {
    [Vertex(p.x0, p.y1), Vertex(p.x1, p.y1), Vertex(p.x0, p.y0)]
  }

  /** The three emitted vertices and the corner (x1,y0) the rasterizer
      implies are exactly the four corners of the rectangle. */
  lemma RectVerticesAreCorners(p: Params)
    ensures |RectVertices(p)| == 3
    ensures (set v | v in RectVertices(p)) + {Vertex(p.x1, p.y0)}
         == {Vertex(p.x0, p.y0), Vertex(p.x1, p.y0), Vertex(p.x0, p.y1), Vertex(p.x1, p.y1)}
  {
  }

  /** The flat-input buffer: in slot order, the vec4 of every slot `i` whose
      bit `var0 + i` is set in `mask`. */
  function PackVaryings(inputs: seq<Vec4>, mask: nat, var0: nat): seq<Vec4>
  {
    if |inputs| == 0 then []
    else PackVaryings(inputs[..|inputs| - 1], mask, var0)
         + (if Bit(mask, var0 + |inputs| - 1) then [inputs[|inputs| - 1]] else [])
  }

  /** The packed buffer holds one vec4 per selected slot. */
  lemma {:induction false} PackVaryingsLength(inputs: seq<Vec4>, mask: nat, var0: nat)
    ensures |PackVaryings(inputs, mask, var0)| == CountBits(mask, var0, |inputs|)
  {
    if |inputs| > 0 {
      PackVaryingsLength(inputs[..|inputs| - 1], mask, var0);
    }
  }

  /** Dense packing: a selected slot `i` lands at the position given by the
      number of selected slots before it. */
  lemma {:induction false} PackVaryingsAt(inputs: seq<Vec4>, mask: nat, var0: nat, i: nat)
    requires i < |inputs| && Bit(mask, var0 + i)
    ensures CountBits(mask, var0, i) < |PackVaryings(inputs, mask, var0)|
    ensures PackVaryings(inputs, mask, var0)[CountBits(mask, var0, i)] == inputs[i]
  {
    var n := |inputs|;
    var front := inputs[..n - 1];
    PackVaryingsLength(front, mask, var0);
    if i == n - 1 {
      assert CountBits(mask, var0, i) == |PackVaryings(front, mask, var0)|;
    } else {
      assert front[i] == inputs[i];
      PackVaryingsAt(front, mask, var0, i);
    }
  }

  /** Selected slots keep their order: an earlier selected slot lands at an
      earlier position. */
  lemma {:induction false} CountBitsMonotone(mask: nat, var0: nat, i: nat, j: nat)
    requires i < j && Bit(mask, var0 + i)
    ensures CountBits(mask, var0, i) < CountBits(mask, var0, j)
  {
    if j > i + 1 {
      CountBitsMonotone(mask, var0, i, j - 1);
    }
  }

  /** The VERTEX_BUFFER_STATE MOCS value of each generation. */
  function Mocs(g: Gen): nat
  {
    match g
    case Gen9 => 2 * 2
    case Gen8 => 0x78
    case Gen7 => 1
    case Gen75 => 1
    case Gen6 => 0
  }

  /** A vertex buffer in the batch's own buffer, read through the vertex
      domain. */
  function VertexAddress(bo: BoId, offset: nat): Address
  {
    Address(Some(bo), VertexDomain, NoDomain, offset)
  }

  /** One vertex buffer as blorp_emit_vertex_buffers fills it from zero. */
  function VertexBufferFor(g: Gen, index: nat, start: Address, size: nat, pitch: nat,
                           access: VbAccess): VertexBufferState
    requires size >= 1
  {
    ZeroVertexBuffer.(index := index, pitch := pitch, mocs := Mocs(g),
                      addressModifyEnable := g.Number() >= 7,
                      bufferSize := if g.Number() >= 8 then size else 0,
                      accessType := if g.Number() >= 8 then AccessVertexData else access,
                      start := start,
                      end := if g.Number() >= 8 then NullAddress
                             else start.(offset := start.offset + size - 1))
  }

  /** Gen 8+ gives the buffer's size and no end address; earlier
      generations give the address of its last byte in the same buffer
      object. */
  lemma VertexBufferFields(g: Gen, index: nat, start: Address, size: nat, pitch: nat,
                           access: VbAccess)
    requires size >= 1
    ensures var r := VertexBufferFor(g, index, start, size, pitch, access);
      && r.index == index && r.pitch == pitch && r.start == start
      && (g.Number() >= 8 ==> r.bufferSize == size && r.end == NullAddress)
      && (g.Number() < 8 ==>
            r.bufferSize == 0 && r.end.buffer == start.buffer
            && r.end.offset + 1 == start.offset + size)
  {
  }

  /** The vertex buffers: the 24-byte rectangle with an 8-byte pitch, and
      the varying buffer with pitch 0 when there are varyings. */
  function VertexBufferStates(g: Gen, bo: BoId, p: Params, vertexOffset: nat,
                              varyingOffset: nat): seq<VertexBufferState>
  {
    [VertexBufferFor(g, 0, VertexAddress(bo, vertexOffset), 24, 8, AccessVertexData)]
    + (if NumBuffers(p) == 2
       then [VertexBufferFor(g, 1, VertexAddress(bo, varyingOffset), NumVaryings(p) * 16, 0,
                             AccessInstanceData)]
       else [])
  }

  /** The blocks blorp_emit_vertex_buffers allocates: the rectangle, and
      the packed varyings when a second buffer is used. */
  function VertexBlocks(cfg: Config, p: Params, vertexOffset: nat, varyingOffset: nat)
    : seq<StateBlock<State>>
  {
    [StateBlock(vertexOffset, 24, VertexData(RectVertices(p)))]
    + (if NumBuffers(p) == 2
       then [StateBlock(varyingOffset, NumVaryings(p) * 16,
                        VaryingData(PackVaryings(p.wmInputs, p.wmProgData.value.inputsRead,
                                                 cfg.layout.varyingSlotVar0)))]
       else [])
  }

  /** The dword count of 3DSTATE_VERTEX_BUFFERS: the header dword and one
      VERTEX_BUFFER_STATE per buffer. */
  function VertexBuffersDwords(l: Layout, p: Params): nat
  {
    1 + Span(NumBuffers(p), l.vertexBufferStateLength)
  }

  function VertexBuffersCmd(cfg: Config, p: Params, vertexOffset: nat, varyingOffset: nat): Cmd
    requires ValidLayout(cfg.layout)
  {
    VertexBuffers(VertexBuffersDwords(cfg.layout, p) - cfg.layout.vertexBuffersLengthBias,
                  VertexBufferStates(cfg.gen, cfg.batchBo, p, vertexOffset, varyingOffset))
  }

  /** The relocations packing one vertex buffer at dword `dw` records: its
      start address, and before gen 8 also its end address. */
  function BufferRelocs(cfg: Config, dw: nat, b: VertexBufferState): seq<Reloc>
  {
    RelocsFor(cfg.gen.Number(), dw + cfg.layout.vbStartDword, b.start, 0)
    + (if cfg.gen.Number() >= 8 then []
       else RelocsFor(cfg.gen.Number(), dw + cfg.layout.vbEndDword, b.end, 0))
  }

  /** The dwords `n` consecutive elements of `len` dwords occupy. */
  function Span(n: nat, len: nat): nat
  {
    if n == 0 then 0 else len + Span(n - 1, len)
  }

  lemma {:induction false} SpanIsProduct(n: nat, len: nat)
    ensures Span(n, len) == len * n
  {
    if n > 0 {
      SpanIsProduct(n - 1, len);
    }
  }

  lemma {:induction false} SpanMonotone(i: nat, n: nat, len: nat)
    requires i <= n
    ensures Span(i, len) <= Span(n, len)
  {
    if i < n {
      SpanMonotone(i, n - 1, len);
    }
  }

  // ----- where blorp_emit places records -----

  /** The dwords blorp_emit reserves for each record of `cs`. */
  function CmdLengths(l: Layout, cs: seq<Cmd>): (r: seq<nat>)
    ensures |r| == |cs|
  {
    if |cs| == 0 then [] else CmdLengths(l, cs[..|cs| - 1]) + [l.cmdLength(cs[|cs| - 1])]
  }

  /** The dwords records of lengths `ls` occupy together. */
  function Total(ls: seq<nat>): nat
  {
    if |ls| == 0 then 0 else Total(ls[..|ls| - 1]) + ls[|ls| - 1]
  }

  /** Where records of lengths `ls`, emitted one after the other from
      dword `at`, start. */
  function StartsFrom(at: nat, ls: seq<nat>): (r: seq<nat>)
    ensures |r| == |ls|
  {
    if |ls| == 0 then [] else StartsFrom(at, ls[..|ls| - 1]) + [at + Total(ls[..|ls| - 1])]
  }

  /** Records emitted one after the other are packed back to back: the
      first starts at `at`, each next one where the previous ends, and the
      last ends `Total(ls)` dwords after `at`. */
  lemma {:induction false} RecordsBackToBack(at: nat, ls: seq<nat>)
    ensures |ls| > 0 ==> StartsFrom(at, ls)[0] == at
    ensures forall i :: 0 <= i < |ls| - 1 ==>
      StartsFrom(at, ls)[i + 1] == StartsFrom(at, ls)[i] + ls[i]
    ensures |ls| > 0 ==> StartsFrom(at, ls)[|ls| - 1] + ls[|ls| - 1] == at + Total(ls)
  {
    var n := |ls|;
    if n > 1 {
      var front := ls[..n - 1];
      RecordsBackToBack(at, front);
      assert front[..n - 2] == ls[..n - 2];
      assert StartsFrom(at, front) == StartsFrom(at, front[..n - 2]) + [at + Total(front[..n - 2])];
      forall i | 0 <= i < n - 1 ensures StartsFrom(at, ls)[i + 1] == StartsFrom(at, ls)[i] + ls[i] {
        if i < n - 2 {
          assert StartsFrom(at, ls)[i + 1] == StartsFrom(at, front)[i + 1];
        }
      }
    }
  }

  /** Emitting one more record `c` appends its length, its start (where
      the previous records end) and moves the end by its length. */
  lemma RecordsSnoc(l: Layout, at: nat, cs: seq<Cmd>, c: Cmd)
    ensures CmdLengths(l, cs + [c]) == CmdLengths(l, cs) + [l.cmdLength(c)]
    ensures StartsFrom(at, CmdLengths(l, cs + [c]))
            == StartsFrom(at, CmdLengths(l, cs)) + [at + Total(CmdLengths(l, cs))]
    ensures Total(CmdLengths(l, cs + [c])) == Total(CmdLengths(l, cs)) + l.cmdLength(c)
  {
    var ls := CmdLengths(l, cs);
    assert (cs + [c])[..|cs|] == cs;
    assert (ls + [l.cmdLength(c)])[..|ls|] == ls;
  }

  /** The relocation list after packing the first `n` of `bufs`, one after
      the other from dword `dw`, onto a batch whose list was `base`. */
  function PackedRelocs(base: seq<Reloc>, cfg: Config, dw: nat, bufs: seq<VertexBufferState>,
                        n: nat): seq<Reloc>
    requires n <= |bufs|
  {
    if n == 0 then base
    else PackedRelocs(base, cfg, dw, bufs, n - 1)
         + BufferRelocs(cfg, dw + Span(n - 1, cfg.layout.vertexBufferStateLength), bufs[n - 1])
  }

  /** Every vertex buffer is in the batch's own buffer, so each address
      slot adds a relocation against it, read through the vertex domain:
      one per buffer on gen 8+, two before (start and end); the relocations
      already recorded stay as they were. */
  lemma VertexBufferRelocCount(base: seq<Reloc>, cfg: Config, dw: nat, p: Params,
                               vertexOffset: nat, varyingOffset: nat)
    ensures var bufs := VertexBufferStates(cfg.gen, cfg.batchBo, p, vertexOffset, varyingOffset);
      var rs := PackedRelocs(base, cfg, dw, bufs, |bufs|);
      && |rs| == |base| + NumBuffers(p) * (if cfg.gen.Number() >= 8 then 1 else 2)
      && rs[..|base|] == base
      && forall i :: |base| <= i < |rs| ==>
           rs[i].target == cfg.batchBo && rs[i].readDomains == VertexDomain
  {
    var bufs := VertexBufferStates(cfg.gen, cfg.batchBo, p, vertexOffset, varyingOffset);
    assert PackedRelocs(base, cfg, dw, bufs, 1) == base + BufferRelocs(cfg, dw, bufs[0]);
  }

  /** Element 0: the zero VUE header. */
  const HeaderElement: VertexElementState :=
    VertexElementState(0, true, R32G32B32A32Float, 0, Store0, Store0, Store0, Store0)

  /** Element 1: the position, X and Y from the buffer, Z = 0, W = 1.0. */
  const PositionElement: VertexElementState :=
    VertexElementState(0, true, R32G32Float, 0, StoreSrc, StoreSrc, Store0, Store1Fp)

  /** Element `i + 2`: the `i`-th flat input, read from buffer 1. */
  function FlatInputElement(i: nat): VertexElementState
  {
    VertexElementState(1, true, R32G32B32A32Float, i * 16, StoreSrc, StoreSrc, StoreSrc, StoreSrc)
  }

  function VertexElementsFor(n: nat): seq<VertexElementState>
  {
    [HeaderElement, PositionElement] + seq(n, (i: int) requires 0 <= i < n => FlatInputElement(i))
  }

  /** There are `2 + n` vertex elements, each reads a vertex buffer that is
      emitted, and every flat input is read inside the varying buffer. */
  lemma ElementsReadEmittedBuffers(p: Params)
    ensures |VertexElementsFor(NumVaryings(p))| == 2 + NumVaryings(p)
    ensures forall e :: e in VertexElementsFor(NumVaryings(p)) ==> e.bufferIndex < NumBuffers(p)
    ensures forall i :: 2 <= i < 2 + NumVaryings(p) ==>
      VertexElementsFor(NumVaryings(p))[i].bufferIndex == 1
      && VertexElementsFor(NumVaryings(p))[i].offset + 16 <= NumVaryings(p) * 16
  {
    var n := NumVaryings(p);
    var es := VertexElementsFor(n);
    forall e | e in es ensures e.bufferIndex < NumBuffers(p) {
      var k :| 0 <= k < |es| && es[k] == e;
      if k >= 2 {
        assert e == FlatInputElement(k - 2);
      }
    }
  }

  function Instancing(k: nat): seq<Cmd>
  {
    seq(k, (i: int) requires 0 <= i < k => VfInstancing(i, false))
  }

  /** The dword count of 3DSTATE_VERTEX_ELEMENTS: the header dword and one
      VERTEX_ELEMENT_STATE per element. */
  function VertexElementsDwords(l: Layout, p: Params): nat
  {
    1 + Span(2 + NumVaryings(p), l.vertexElementStateLength)
  }

  /** Both counts are `1 + length * count`, as the source computes them. */
  lemma RecordDwordCounts(l: Layout, p: Params)
    ensures VertexBuffersDwords(l, p) == 1 + l.vertexBufferStateLength * NumBuffers(p)
    ensures VertexElementsDwords(l, p) == 1 + l.vertexElementStateLength * (2 + NumVaryings(p))
  {
    SpanIsProduct(NumBuffers(p), l.vertexBufferStateLength);
    SpanIsProduct(2 + NumVaryings(p), l.vertexElementStateLength);
  }

  function VertexElementCmds(cfg: Config, p: Params): seq<Cmd>
    requires ValidLayout(cfg.layout)
  {
    var n := NumVaryings(p);
    var len := VertexElementsDwords(cfg.layout, p);
    SpanMonotone(2, 2 + n, cfg.layout.vertexElementStateLength);
    [VertexElements(len - cfg.layout.vertexElementsLengthBias, VertexElementsFor(n))]
    + (if cfg.gen.Number() >= 8
       then [VfSgvs] + Instancing(2 + n) + [VfTopology(RectList)]
       else [])
  }

  // ----- URB, blend, colour calc, depth/stencil state -----

  function UrbCmds(cfg: Config, p: Params, reprogram: bool): seq<Cmd>
  {
    if cfg.gen.Number() >= 7 then
      (if reprogram then [Foreign(UrbUpload(VsEntrySize(p)))] else [])
    else [Urb(cfg.urbMaxVsEntries)]
  }

  function BlendEntryFor(wd: WriteDisable): BlendEntry
  {
    BlendEntry(true, true, ClampRtFormat, wd.red, wd.green, wd.blue, wd.alpha)
  }

  /** BLEND_STATE: the first `numDrawBuffers` entries clamp and apply the
      write-disable mask, the others stay zero. */
  function BlendEntries(p: Params, count: nat): seq<BlendEntry>
  {
    seq(count, (i: int) => if i < p.numDrawBuffers then BlendEntryFor(p.colorWriteDisable)
                           else ZeroBlendEntry)
  }

  function BlendCmds(g: Gen, blendOffset: nat): seq<Cmd>
  {
    (if g.Number() >= 7 then [BlendStatePointers(blendOffset, g.Number() >= 8)] else [])
    + (if g.Number() >= 8 then [PsBlend(true)] else [])
  }

  function ColorCalcCmds(g: Gen, ccOffset: nat): seq<Cmd>
  {
    if g.Number() >= 7 then [CcStatePointers(ccOffset, g.Number() >= 8)] else []
  }

  /** DEPTH_STENCIL_STATE (gen 6 and 7): depth writes on, the depth test
      enabled with NEVER for a depth resolve only. */
  function DepthStencilStateFor(p: Params): State
  {
    DepthStencilState(true, p.hizOp == HizDepthResolve,
                      if p.hizOp == HizDepthResolve then CompareNever else CompareAlways)
  }

  lemma DepthTestNeverOnlyForResolve(p: Params)
    ensures DepthStencilStateFor(p).depthWriteEnable
    ensures DepthStencilStateFor(p).depthTestFunction == CompareNever <==> p.hizOp == HizDepthResolve
    ensures DepthStencilStateFor(p).depthTestEnable <==> p.hizOp == HizDepthResolve
  {
  }

  function DepthStencilCmds(g: Gen, dsOffset: nat): seq<Cmd>
  {
    if g.Number() >= 8 then [WmDepthStencil]
    else if g.Number() == 7 then [DepthStencilStatePointers(dsOffset)]
    else []
  }

  function Gen6PointerCmds(g: Gen, blend: nat, cc: nat, ds: nat): seq<Cmd>
  {
    if g.Number() <= 6 then [Gen6CcStatePointers(true, true, true, blend, cc, ds)] else []
  }

  function ConstantCmds(g: Gen): seq<Cmd>
  {
    [Constant(StageVS)]
    + (if g.Number() >= 7 then [Constant(StageHS), Constant(StageDS)] else [])
    + [Constant(StageGS), Constant(StagePS)]
  }

  function ResourceStreamerCmds(cfg: Config): seq<Cmd>
  {
    if cfg.useResourceStreamer then [Foreign(DisableHwBindingTables)] else []
  }

  // ----- binding table, sampler -----

  /** The binding table: the destination's surface state at the render
      target slot, the source's (when there is one) at the texture slot;
      no other slot is written. */
  function BindingTableSlots(l: Layout, dstState: nat, srcState: Option<nat>): seq<Option<nat>>
  {
    seq(l.numBindingTableEntries, (i: int) =>
      if i == l.renderbufferIndex then Some(dstState)
      else if i == l.textureIndex then srcState
      else None)
  }

  /** The table has one entry per surface referenced: one for the
      destination plus one for the source. */
  lemma {:induction false} BindingTableEntriesPerSurface(l: Layout, dstState: nat, srcState: Option<nat>)
    requires ValidLayout(l)
    ensures |BindingTableSlots(l, dstState, srcState)| == l.numBindingTableEntries
    ensures BindingTableSlots(l, dstState, srcState)[l.renderbufferIndex] == Some(dstState)
    ensures BindingTableSlots(l, dstState, srcState)[l.textureIndex] == srcState
    ensures |set i | 0 <= i < l.numBindingTableEntries
                     && BindingTableSlots(l, dstState, srcState)[i].Some?|
         == if srcState.Some? then 2 else 1
  {
    var t := BindingTableSlots(l, dstState, srcState);
    var used := set i | 0 <= i < l.numBindingTableEntries && t[i].Some?;
    if srcState.Some? {
      assert used == {l.renderbufferIndex, l.textureIndex};
    } else {
      assert used == {l.renderbufferIndex};
    }
  }

  function BindingTableCmds(g: Gen, btOffset: nat): seq<Cmd>
  {
    if g.Number() >= 7 then [BindingTablePointersPS(btOffset)]
    else [Gen6BindingTablePointers(true, btOffset)]
  }

  const BlorpSamplerValue: BlorpSampler :=
    BlorpSampler(true, true, true, 0, 0, true, true, true, true, true, true)

  function SamplerCmds(g: Gen, samplerOffset: nat): seq<Cmd>
  {
    if g.Number() >= 7 then [SamplerStatePointersPS(samplerOffset)]
    else [Gen6SamplerStatePointers(true, true, true, samplerOffset)]
  }

  // ----- multisample, disabled stages -----

  function MultisampleCmds(g: Gen, samples: nat): seq<Cmd>
  {
    if g.Number() >= 8 then [Foreign(Gen8Multisample(samples))]
    else [Foreign(Gen6Multisample(samples))]
  }

  /** 3DSTATE_SAMPLE_MASK: `(1 << samples) - 1`. */
  function SampleMaskFor(samples: nat): nat
  {
    Pow2(samples) - 1
  }

  /** The sample mask enables exactly the bits of the samples 0..samples-1. */
  lemma {:induction false} SampleMaskBits(samples: nat, k: nat)
    ensures Bit(SampleMaskFor(samples), k) <==> k < samples
  {
    if samples == 0 {
      ZeroHasNoBits(k);
    } else if k > 0 {
      assert SampleMaskFor(samples) / 2 == SampleMaskFor(samples - 1);
      SampleMaskBits(samples - 1, k - 1);
    }
  }

  lemma {:induction false} ZeroHasNoBits(k: nat)
    ensures !Bit(0, k)
  {
    if k > 0 {
      ZeroHasNoBits(k - 1);
    }
  }

  function StageCmds(g: Gen): seq<Cmd>
  {
    [StageDisabled(StageVS)]
    + (if g.Number() >= 7
       then [StageDisabled(StageHS), Te, StageDisabled(StageDS), StreamOut]
       else [])
    + [StageDisabled(StageGS)]
  }

  // ----- rasterizer and pixel-shader configuration -----

  function MsRastFor(p: Params): MsRastMode
  {
    if p.dst.surf.samples > 1 then MsRastOnPattern else MsRastOffPixel
  }

  function MsDispatchFor(p: Params): MsDispMode
  {
    if p.dst.surf.samples > 1 then
      (if p.wmProgData.Some? && p.wmProgData.value.persampleMsaaDispatch
       then MsDispPerSample else MsDispPerPixel)
    else MsDispPerSample
  }

  /** The URB read offset, attribute count and URB read length a SF (gen 6)
      or SBE (gen 7+) record carries. */
  function SfReadout(c: Cmd): Option<(nat, nat, nat)>
  {
    match c
    case Sbe(s) => Some((s.readOffset, s.numOutputs, s.readLength))
    case Sf6(_, _, _, offset, outputs, length, _) => Some((offset, outputs, length))
    case _ => None
  }

  /** The SF/SBE records.  Gen 8+ reads the program unconditionally, so the
      caller must supply one there. */
  function SfCmds(cfg: Config, p: Params): seq<Cmd>
    requires cfg.gen.Number() >= 8 ==> p.wmProgData.Some?
  {
    var l := cfg.layout;
    var prog := p.wmProgData;
    if cfg.gen.Number() >= 8 then
      [Sf8, Raster(CullNone),
       Sbe(SbeState(l.sfUrbEntryReadOffset, prog.value.numVaryingInputs,
                    prog.value.urbReadLength, true, true, prog.value.flatInputs,
                    cfg.gen.Number() >= 9))]
    else if cfg.gen.Number() == 7 then
      [Sf7(FillSolid, FillSolid, MsRastFor(p), p.depthFormat),
       Sbe(SbeState(l.sfUrbEntryReadOffset,
                    if prog.Some? then prog.value.numVaryingInputs else 0,
                    if prog.Some? then prog.value.urbReadLength else 1,
                    false, false,
                    if prog.Some? then prog.value.flatInputs else 0, false))]
    else
      [Sf6(FillSolid, FillSolid, MsRastFor(p), l.sfUrbEntryReadOffset,
           if prog.Some? then prog.value.numVaryingInputs else 0,
           if prog.Some? then prog.value.urbReadLength else 1,
           if prog.Some? then prog.value.flatInputs else 0)]
  }

  /** Exactly the last SF/SBE record says what the setup stage reads: from
      BRW_SF_URB_ENTRY_READ_OFFSET, the program's `num_varying_inputs`
      attributes over its URB read length, or without a program (gen 6 and
      7 only) no attribute over one row. */
  lemma SfReads(cfg: Config, p: Params)
    requires cfg.gen.Number() >= 8 ==> p.wmProgData.Some?
    ensures var r := SfCmds(cfg, p);
      && 1 <= |r|
      && SfReadout(r[|r| - 1])
         == Some((cfg.layout.sfUrbEntryReadOffset,
                  if p.wmProgData.Some? then p.wmProgData.value.numVaryingInputs else 0,
                  if p.wmProgData.Some? then p.wmProgData.value.urbReadLength else 1))
      && forall i :: 0 <= i < |r| - 1 ==> SfReadout(r[i]).None?
  {
  }

  /** The render-target resolve selected by `fast_clear_op` on gen 8+. */
  function ResolveFor(g: Gen, fastClearOp: nat): Resolve
  {
    if g.Number() >= 9 then
      (if fastClearOp == 64 then ResolvePartial
       else if fastClearOp == 3 * 64 then ResolveFull
       else NoResolve)
    else if fastClearOp == 64 then ResolveEnable
    else NoResolve
  }

  /** `fast_clear_op` selects a resolve or a fast clear, never both. */
  lemma FastClearOpSelectsOneMode(g: Gen, op: nat)
    requires g.Number() >= 8
    ensures op == 1 * 64 ==> ResolveFor(g, op) == (if g == Gen9 then ResolvePartial else ResolveEnable)
    ensures op == 3 * 64 ==> ResolveFor(g, op) == (if g == Gen9 then ResolveFull else NoResolve)
    ensures op == 256 ==> ResolveFor(g, op) == NoResolve
    ensures ResolveFor(g, op) != NoResolve ==> op != 256
  {
  }

  function PsCmds(cfg: Config, p: Params): seq<Cmd>
    requires cfg.gen.Number() >= 8 ==> p.wmProgData.Some?
  {
    var g := cfg.gen;
    var prog := p.wmProgData;
    var src := p.src.bo.Some?;
    var hasProg := prog.Some?;
    if g.Number() >= 8 then
      [Wm8,
       Ps8(if src then 1 else 0, if src then 2 else 1,
           prog.value.firstCurbeGrf0, prog.value.firstCurbeGrf2,
           prog.value.dispatch8, prog.value.dispatch16,
           p.wmProgKernel, Add32(p.wmProgKernel, prog.value.kspOffset2),
           if g.Number() >= 9 then 64 - 1 else 64 - 2,
           ResolveFor(g, p.fastClearOp), p.fastClearOp == 256),
       PsExtra(true, src, prog.value.numVaryingInputs > 0, prog.value.persampleMsaaDispatch)]
    else if g.Number() == 7 then
      [Wm7(p.hizOp == HizDepthClear, p.hizOp == HizDepthResolve, p.hizOp == HizResolve,
           hasProg, src, MsRastFor(p), MsDispatchFor(p)),
       Ps7(Dec32(cfg.maxWmThreads), if g == Gen75 then Some(1) else None,
           if hasProg then prog.value.firstCurbeGrf0 else 0,
           if hasProg then prog.value.firstCurbeGrf2 else 0,
           if hasProg then p.wmProgKernel else 0,
           if hasProg then Add32(p.wmProgKernel, prog.value.kspOffset2) else 0,
           hasProg && prog.value.dispatch8,
           if hasProg then prog.value.dispatch16 else true,
           hasProg && prog.value.numVaryingInputs > 0,
           if src then 1 else 0, p.fastClearOp == 64, p.fastClearOp == 256)]
    else
      [Wm6(Dec32(cfg.maxWmThreads),
           p.hizOp == HizDepthClear, p.hizOp == HizDepthResolve, p.hizOp == HizResolve,
           hasProg,
           if hasProg then prog.value.firstCurbeGrf0 else 0,
           if hasProg then prog.value.firstCurbeGrf2 else 0,
           if hasProg then p.wmProgKernel else 0,
           if hasProg then Add32(p.wmProgKernel, prog.value.kspOffset2) else 0,
           hasProg && prog.value.dispatch8,
           hasProg && prog.value.dispatch16,
           if hasProg then prog.value.numVaryingInputs else 0,
           if src then 1 else 0, src, MsRastFor(p), MsDispatchFor(p))]
  }

  /** The WM/PS records of PsCmds.  The pixel shader binds one sampler exactly when
      there is a source; before gen 8, without a program no thread is
      dispatched, the kernel pointers are 0 and no attribute is read. */
  lemma PsRecords(cfg: Config, p: Params)
    requires cfg.gen.Number() >= 8 ==> p.wmProgData.Some?
    ensures var r := PsCmds(cfg, p);
      && (cfg.gen.Number() >= 8 ==>
            |r| == 3 && r[0] == Wm8 && r[1].Ps8? && r[2].PsExtra? && r[2].pixelShaderValid
            && (r[1].samplerCount8 == 1 <==> p.src.bo.Some?))
      && (cfg.gen.Number() == 7 ==>
            |r| == 2 && r[0].Wm7? && r[1].Ps7?
            && (r[1].samplerCount7 == 1 <==> p.src.bo.Some?)
            && (r[0].threadDispatch <==> p.wmProgData.Some?)
            && (p.wmProgData.None? ==>
                  r[1].ksp0_7 == 0 && r[1].ksp2_7 == 0 && !r[1].attributeEnable7))
      && (cfg.gen.Number() <= 6 ==>
            |r| == 1 && r[0].Wm6?
            && (r[0].samplerCount6 == 1 <==> p.src.bo.Some?)
            && (r[0].threadDispatch6 <==> p.wmProgData.Some?)
            && (p.wmProgData.None? ==>
                  r[0].ksp0_6 == 0 && r[0].ksp2_6 == 0 && r[0].numSfOutputs == 0))
  {
  }

  /** The hiz_op enables at most one of the three depth operations, and
      exactly the one it names. */
  lemma HizOpSelectsAtMostOne(cfg: Config, p: Params)
    requires cfg.gen.Number() <= 7
    ensures var c := PsCmds(cfg, p)[0];
      if c.Wm7? then
        (c.depthClear <==> p.hizOp == HizDepthClear)
        && (c.depthResolve <==> p.hizOp == HizDepthResolve)
        && (c.hizResolve <==> p.hizOp == HizResolve)
        && !(c.depthClear && c.depthResolve) && !(c.depthClear && c.hizResolve)
        && !(c.depthResolve && c.hizResolve)
      else
        c.Wm6?
        && (c.depthClear6 <==> p.hizOp == HizDepthClear)
        && (c.depthResolve6 <==> p.hizOp == HizDepthResolve)
        && (c.hizResolve6 <==> p.hizOp == HizResolve)
        && !(c.depthClear6 && c.depthResolve6) && !(c.depthClear6 && c.hizResolve6)
        && !(c.depthResolve6 && c.hizResolve6)
  {
  }

  /** Gen 7 without a program still enables SIMD16 dispatch; gen 8 binds
      two surfaces exactly when there is a source. */
  lemma DispatchAndBindingCounts(cfg: Config, p: Params)
    requires cfg.gen.Number() >= 8 ==> p.wmProgData.Some?
    ensures cfg.gen.Number() == 7 && p.wmProgData.None? ==> PsCmds(cfg, p)[1].dispatch16_7
    ensures cfg.gen.Number() >= 8 ==>
      (PsCmds(cfg, p)[1].bindingTableEntryCount == 2 <==> p.src.bo.Some?)
      && (PsCmds(cfg, p)[1].bindingTableEntryCount == 1 <==> p.src.bo.None?)
  {
  }

  function ViewportCmds(g: Gen, vpOffset: nat): seq<Cmd>
  {
    if g.Number() >= 7 then [ViewportStatePointersCC(vpOffset)]
    else [Gen6ViewportStatePointers(true, vpOffset)]
  }

  // ----- depth, stencil, HiZ buffers -----

  function SurfTypeFor(d: SurfDim): SurfaceType
  {
    match d
    case Dim1D => Surf1D
    case Dim2D => Surf2D
    case Dim3D => Surf3D
  }

  function DepthMocs(g: Gen): nat
  {
    if g.Number() >= 7 then 1 else 0
  }

  function RenderAddress(bo: Option<BoId>, offset: nat): Address
  {
    Address(bo, RenderDomain, RenderDomain, offset)
  }

  /** 3DSTATE_DEPTH_BUFFER programmed from the depth surface. */
  function DepthBufferFor(g: Gen, p: Params): DepthBufferState
  {
    var s := p.depth.surf;
    var extent := Dec32(Max(s.depth, s.arrayLen));
    DepthBufferState(SurfTypeFor(s.dim), p.depthFormat, g.Number() >= 7,
                     g.Number() <= 6, g.Number() <= 6, g.Number() <= 6, g.Number() <= 6,
                     true, Dec32(s.width), Dec32(s.height), extent, extent,
                     p.depth.view.baseLevel, p.depth.view.baseArrayLayer,
                     Dec32(s.rowPitch), RenderAddress(p.depth.bo, p.depth.offset),
                     DepthMocs(g))
  }

  /** The disabled depth buffer: SURFTYPE_NULL, D32_FLOAT, all else zero. */
  function NullDepthBuffer(l: Layout): DepthBufferState
  {
    DepthBufferState(SurfNull, l.d32Float, false, false, false, false, false, false,
                     0, 0, 0, 0, 0, 0, 0, NullAddress, 0)
  }

  function HizCmd(g: Gen, p: Params): Cmd
  {
    HierDepthBuffer(Dec32(p.depth.auxSurf.rowPitch),
                    RenderAddress(p.depth.auxBo, p.depth.auxOffset), DepthMocs(g))
  }

  /** The depth buffer is a real, HiZ-enabled surface at the depth
      buffer's address, written from gen 7 on, with its width, height, depth
      (the larger of depth and array length) and pitch programmed minus
      one. */
  lemma DepthBufferProgrammed(g: Gen, p: Params)
    ensures var r := DepthBufferFor(g, p);
      var s := p.depth.surf;
      && r.surfaceType != SurfNull && r.hizEnable
      && r.address.buffer == p.depth.bo && r.address.offset == p.depth.offset
      && (r.depthWriteEnable <==> g.Number() >= 7)
      && (s.width >= 1 ==> r.width == s.width - 1)
      && (s.height >= 1 ==> r.height == s.height - 1)
      && (Max(s.depth, s.arrayLen) >= 1 ==> r.depth == Max(s.depth, s.arrayLen) - 1)
      && (s.rowPitch >= 1 ==> r.pitch == s.rowPitch - 1)
  {
  }

  function DepthCmds(cfg: Config, p: Params): seq<Cmd>
  {
    if p.depth.bo.Some? then
      [Foreign(DepthStallFlushes), DepthBuffer(DepthBufferFor(cfg.gen, p)), HizCmd(cfg.gen, p),
       StencilBuffer]
    else
      [Foreign(DepthStallFlushes), DepthBuffer(NullDepthBuffer(cfg.layout)),
       HierDepthBuffer(0, NullAddress, 0), StencilBuffer]
  }

  /** 3DSTATE_CLEAR_PARAMS, 3DSTATE_DRAWING_RECTANGLE and 3DPRIMITIVE. */
  function FinalCmds(p: Params): seq<Cmd>
  {
    [ClearParams(true, p.depth.clearColorU32),
     DrawingRectangle(Dec32(Max(p.x1, p.x0)), Dec32(Max(p.y1, p.y0))),
     Primitive(Sequential, RectList, 3, p.numLayers)]
  }

  function PrologueCmds(g: Gen): seq<Cmd>
  {
    (if g.Number() == 6 then [Foreign(PostSyncNonzeroFlush)] else [])
    + [Foreign(StateBaseAddress)]
    + (if g.Number() >= 8 then [Foreign(L3Config)] else [])
  }

  // ----- the whole sequence -----

  /** The scratch offsets the builders were handed. */
  datatype Offsets = Offsets(vertexData: nat, varyingData: nat, blend: nat, colorCalc: nat,
                             depthStencil: nat, bindingTable: nat, dstSurface: nat,
                             srcSurface: nat, sampler: nat, ccViewport: nat)

  /** The records of a batch holding `before` once genX(blorp_exec) has
      emitted the prologue, the vertex buffers and elements and the URB
      configuration. */
  function VertexPhaseCmds(before: seq<Cmd>, cfg: Config, p: Params, reprogramUrb: bool,
                           vertexOffset: nat, varyingOffset: nat): seq<Cmd>
    requires ValidLayout(cfg.layout)
  {
    before + PrologueCmds(cfg.gen) + [VertexBuffersCmd(cfg, p, vertexOffset, varyingOffset)]
    + VertexElementCmds(cfg, p) + UrbCmds(cfg, p, reprogramUrb)
  }

  /** ... then the blend and colour-calc state when there is a program,
      the depth/stencil state, the gen 6 combined pointers, the constant
      buffers, the binding table when there is a program and the sampler
      when there is a source. */
  function DynamicStateCmds(before: seq<Cmd>, cfg: Config, p: Params, blend: nat, cc: nat,
                            ds: nat, bindingTable: nat, sampler: nat): seq<Cmd>
  {
    var g := cfg.gen;
    var prog := p.wmProgData.Some?;
    var withBlend := if prog then before + BlendCmds(g, blend) + ColorCalcCmds(g, cc)
                     else before;
    var withPointers := withBlend + DepthStencilCmds(g, ds)
      + Gen6PointerCmds(g, if prog then blend else 0, if prog then cc else 0, ds)
      + ConstantCmds(g) + ResourceStreamerCmds(cfg);
    var withSurfaces := if prog then withPointers + BindingTableCmds(g, bindingTable)
                        else withPointers;
    if p.src.bo.Some? then withSurfaces + SamplerCmds(g, sampler) else withSurfaces
  }

  /** ... then the multisample and sample-mask state, the disabled
      geometry stages, the clipper, SF and PS configuration and the
      viewport pointers. */
  function PipelineCmds(before: seq<Cmd>, cfg: Config, p: Params, ccViewport: nat): seq<Cmd>
    requires cfg.gen.Number() >= 8 ==> p.wmProgData.Some?
  {
    var g := cfg.gen;
    before + MultisampleCmds(g, p.dst.surf.samples)
    + [SampleMask(SampleMaskFor(p.dst.surf.samples))]
    + StageCmds(g) + [Clip(true)] + SfCmds(cfg, p) + PsCmds(cfg, p)
    + ViewportCmds(g, ccViewport)
  }

  /** ... then the depth, HiZ and stencil buffers and the draw. */
  function DrawCmds(before: seq<Cmd>, cfg: Config, p: Params): seq<Cmd>
  {
    before + DepthCmds(cfg, p) + FinalCmds(p)
  }

  /** The records of a batch holding `before` after genX(blorp_exec). */
  function CmdsAfter(before: seq<Cmd>, cfg: Config, p: Params, reprogramUrb: bool,
                     o: Offsets): seq<Cmd>
    requires ValidLayout(cfg.layout)
    requires cfg.gen.Number() >= 8 ==> p.wmProgData.Some?
  {
    var vertexPhase := VertexPhaseCmds(before, cfg, p, reprogramUrb, o.vertexData, o.varyingData);
    var dynamicState := DynamicStateCmds(vertexPhase, cfg, p, o.blend, o.colorCalc,
                                         o.depthStencil, o.bindingTable, o.sampler);
    DrawCmds(PipelineCmds(dynamicState, cfg, p, o.ccViewport), cfg, p)
  }

  /** The records one blorp operation emits. */
  function OperationCmds(cfg: Config, p: Params, reprogramUrb: bool, o: Offsets): seq<Cmd>
    requires ValidLayout(cfg.layout)
    requires cfg.gen.Number() >= 8 ==> p.wmProgData.Some?
  {
    CmdsAfter([], cfg, p, reprogramUrb, o)
  }

  /** The operation appends its records after whatever the batch held: it
      never rewrites an earlier record. */
  lemma CmdsAfterAppends(before: seq<Cmd>, cfg: Config, p: Params, reprogramUrb: bool,
                         o: Offsets)
    requires ValidLayout(cfg.layout)
    requires cfg.gen.Number() >= 8 ==> p.wmProgData.Some?
    ensures CmdsAfter(before, cfg, p, reprogramUrb, o)
         == before + OperationCmds(cfg, p, reprogramUrb, o)
  {
    var a0 := VertexPhaseCmds([], cfg, p, reprogramUrb, o.vertexData, o.varyingData);
    VertexPhaseAppends(before, cfg, p, reprogramUrb, o.vertexData, o.varyingData);
    var b0 := DynamicStateCmds(a0, cfg, p, o.blend, o.colorCalc, o.depthStencil,
                               o.bindingTable, o.sampler);
    DynamicStateAppends(before, a0, cfg, p, o.blend, o.colorCalc, o.depthStencil,
                        o.bindingTable, o.sampler);
    var c0 := PipelineCmds(b0, cfg, p, o.ccViewport);
    PipelineAppends(before, b0, cfg, p, o.ccViewport);
    DrawAppends(before, c0, cfg, p);
  }

  lemma AppendAssoc<T>(a: seq<T>, b: seq<T>, c: seq<T>)
    ensures a + b + c == a + (b + c)
  {
  }

  lemma PrefixKeeps<T>(a: seq<T>, b: seq<T>, i: nat)
    requires a <= b && i < |a|
    ensures i < |b| && b[i] == a[i]
  {
  }

  lemma VertexPhaseAppends(before: seq<Cmd>, cfg: Config, p: Params, reprogramUrb: bool,
                           vertexOffset: nat, varyingOffset: nat)
    requires ValidLayout(cfg.layout)
    ensures VertexPhaseCmds(before, cfg, p, reprogramUrb, vertexOffset, varyingOffset)
         == before + VertexPhaseCmds([], cfg, p, reprogramUrb, vertexOffset, varyingOffset)
  {
    var r1 := PrologueCmds(cfg.gen);
    var r2 := r1 + [VertexBuffersCmd(cfg, p, vertexOffset, varyingOffset)];
    var r3 := r2 + VertexElementCmds(cfg, p);
    assert [] + r1 == r1;
    AppendAssoc(before, r1, [VertexBuffersCmd(cfg, p, vertexOffset, varyingOffset)]);
    AppendAssoc(before, r2, VertexElementCmds(cfg, p));
    AppendAssoc(before, r3, UrbCmds(cfg, p, reprogramUrb));
  }

  lemma DynamicStateAppends(before: seq<Cmd>, rest: seq<Cmd>, cfg: Config, p: Params, blend: nat,
                            cc: nat, ds: nat, bindingTable: nat, sampler: nat)
    ensures DynamicStateCmds(before + rest, cfg, p, blend, cc, ds, bindingTable, sampler)
         == before + DynamicStateCmds(rest, cfg, p, blend, cc, ds, bindingTable, sampler)
  {
    var g := cfg.gen;
    var prog := p.wmProgData.Some?;
    var bl := BlendCmds(g, blend);
    var cl := ColorCalcCmds(g, cc);
    var w1 := if prog then rest + bl + cl else rest;
    if prog {
      AppendAssoc(before, rest, bl);
      AppendAssoc(before, rest + bl, cl);
    }
    var dl := DepthStencilCmds(g, ds);
    var g6 := Gen6PointerCmds(g, if prog then blend else 0, if prog then cc else 0, ds);
    var k := ConstantCmds(g);
    var rs := ResourceStreamerCmds(cfg);
    AppendAssoc(before, w1, dl);
    AppendAssoc(before, w1 + dl, g6);
    AppendAssoc(before, w1 + dl + g6, k);
    AppendAssoc(before, w1 + dl + g6 + k, rs);
    var w2 := w1 + dl + g6 + k + rs;
    var bt := BindingTableCmds(g, bindingTable);
    var w3 := if prog then w2 + bt else w2;
    if prog {
      AppendAssoc(before, w2, bt);
    }
    AppendAssoc(before, w3, SamplerCmds(g, sampler));
  }

  lemma PipelineAppends(before: seq<Cmd>, rest: seq<Cmd>, cfg: Config, p: Params, ccViewport: nat)
    requires cfg.gen.Number() >= 8 ==> p.wmProgData.Some?
    ensures PipelineCmds(before + rest, cfg, p, ccViewport)
         == before + PipelineCmds(rest, cfg, p, ccViewport)
  {
    var g := cfg.gen;
    var ms := MultisampleCmds(g, p.dst.surf.samples);
    var sm := [SampleMask(SampleMaskFor(p.dst.surf.samples))];
    var st := StageCmds(g);
    var sf := SfCmds(cfg, p);
    var ps := PsCmds(cfg, p);
    AppendAssoc(before, rest, ms);
    AppendAssoc(before, rest + ms, sm);
    AppendAssoc(before, rest + ms + sm, st);
    AppendAssoc(before, rest + ms + sm + st, [Clip(true)]);
    AppendAssoc(before, rest + ms + sm + st + [Clip(true)], sf);
    AppendAssoc(before, rest + ms + sm + st + [Clip(true)] + sf, ps);
    AppendAssoc(before, rest + ms + sm + st + [Clip(true)] + sf + ps, ViewportCmds(g, ccViewport));
  }

  lemma DrawAppends(before: seq<Cmd>, rest: seq<Cmd>, cfg: Config, p: Params)
    ensures DrawCmds(before + rest, cfg, p) == before + DrawCmds(rest, cfg, p)
  {
    AppendAssoc(before, rest, DepthCmds(cfg, p));
    AppendAssoc(before, rest + DepthCmds(cfg, p), FinalCmds(p));
  }

  /** Every record of the instancing loop is a 3DSTATE_VF_INSTANCING. */
  lemma InstancingRecords(k: nat, c: Cmd)
    requires c in Instancing(k)
    ensures c.VfInstancing? && !c.instancingEnable
  {
  }

  /** Whatever precedes them, the depth and draw records end the batch:
      the depth records, CLEAR_PARAMS, the drawing rectangle and the
      RECTLIST; without a depth buffer the depth records are a
      SURFTYPE_NULL/D32_FLOAT depth buffer, an all-zero HiZ buffer and an
      empty stencil buffer. */
  lemma DrawCmdsEnd(before: seq<Cmd>, cfg: Config, p: Params)
    ensures var cs := DrawCmds(before, cfg, p);
      var n := |cs|;
      && n == |before| + 7
      && cs[n - 1] == Primitive(Sequential, RectList, 3, p.numLayers)
      && cs[n - 2] == DrawingRectangle(Dec32(Max(p.x1, p.x0)), Dec32(Max(p.y1, p.y0)))
      && cs[n - 3] == ClearParams(true, p.depth.clearColorU32)
      && cs[n - 4] == StencilBuffer
      && cs[n - 7] == Foreign(DepthStallFlushes)
      && (p.depth.bo.Some? ==> cs[n - 6] == DepthBuffer(DepthBufferFor(cfg.gen, p))
                               && cs[n - 5] == HizCmd(cfg.gen, p))
      && (p.depth.bo.None? ==>
            cs[n - 6].DepthBuffer? && cs[n - 6].db.surfaceType == SurfNull
            && cs[n - 6].db.format == cfg.layout.d32Float
            && cs[n - 6].db.address == NullAddress
            && cs[n - 5] == HierDepthBuffer(0, NullAddress, 0))
  {
    if p.depth.bo.Some? {
      DrawWithDepth(before, cfg, p);
    } else {
      DrawWithoutDepth(before, cfg, p);
    }
  }

  lemma DrawWithDepth(before: seq<Cmd>, cfg: Config, p: Params)
    requires p.depth.bo.Some?
    ensures DrawCmds(before, cfg, p)
         == before + [Foreign(DepthStallFlushes), DepthBuffer(DepthBufferFor(cfg.gen, p)),
                      HizCmd(cfg.gen, p), StencilBuffer] + FinalCmds(p)
  {
    AppendAssoc(before, DepthCmds(cfg, p), FinalCmds(p));
  }

  lemma DrawWithoutDepth(before: seq<Cmd>, cfg: Config, p: Params)
    requires p.depth.bo.None?
    ensures DrawCmds(before, cfg, p)
         == before + [Foreign(DepthStallFlushes), DepthBuffer(NullDepthBuffer(cfg.layout)),
                      HierDepthBuffer(0, NullAddress, 0), StencilBuffer] + FinalCmds(p)
  {
    AppendAssoc(before, DepthCmds(cfg, p), FinalCmds(p));
  }

  /** 3DSTATE_VERTEX_BUFFERS follows the prologue. */
  lemma VertexBuffersAfterPrologue(before: seq<Cmd>, cfg: Config, p: Params, reprogramUrb: bool,
                                   vertexOffset: nat, varyingOffset: nat)
    requires ValidLayout(cfg.layout)
    ensures var vp := VertexPhaseCmds(before, cfg, p, reprogramUrb, vertexOffset, varyingOffset);
      var v := |before| + |PrologueCmds(cfg.gen)|;
      v < |vp| && vp[v] == VertexBuffersCmd(cfg, p, vertexOffset, varyingOffset)
  {
    var r2 := before + PrologueCmds(cfg.gen) + [VertexBuffersCmd(cfg, p, vertexOffset, varyingOffset)];
    assert r2[|before| + |PrologueCmds(cfg.gen)|] == VertexBuffersCmd(cfg, p, vertexOffset, varyingOffset);
  }

  /** The records of the vertex phase stay, unchanged, at the head of
      those of the whole operation. */
  lemma VertexPhasePrefix(before: seq<Cmd>, cfg: Config, p: Params, reprogramUrb: bool, o: Offsets)
    requires ValidLayout(cfg.layout)
    requires cfg.gen.Number() >= 8 ==> p.wmProgData.Some?
    ensures VertexPhaseCmds(before, cfg, p, reprogramUrb, o.vertexData, o.varyingData)
            <= CmdsAfter(before, cfg, p, reprogramUrb, o)
  {
    var vp := VertexPhaseCmds(before, cfg, p, reprogramUrb, o.vertexData, o.varyingData);
    var ds := DynamicStateCmds(vp, cfg, p, o.blend, o.colorCalc, o.depthStencil,
                               o.bindingTable, o.sampler);
    var pl := PipelineCmds(ds, cfg, p, o.ccViewport);
    DynamicStateExtends(vp, cfg, p, o.blend, o.colorCalc, o.depthStencil, o.bindingTable, o.sampler);
    PipelineExtends(ds, cfg, p, o.ccViewport);
    DrawExtends(pl, cfg, p);
    PrefixTrans(vp, ds, pl);
    PrefixTrans(vp, pl, DrawCmds(pl, cfg, p));
  }

  lemma PrefixTrans<T>(a: seq<T>, b: seq<T>, c: seq<T>)
    requires a <= b && b <= c
    ensures a <= c
  {
    assert forall i :: 0 <= i < |a| ==> a[i] == b[i] == c[i];
  }

  lemma DynamicStateExtends(before: seq<Cmd>, cfg: Config, p: Params, blend: nat,
                            cc: nat, ds: nat, bindingTable: nat, sampler: nat)
    ensures before <= DynamicStateCmds(before, cfg, p, blend, cc, ds, bindingTable, sampler)
  {
    assert before + [] == before;
    DynamicStateAppends(before, [], cfg, p, blend, cc, ds, bindingTable, sampler);
  }

  lemma PipelineExtends(before: seq<Cmd>, cfg: Config, p: Params, ccViewport: nat)
    requires cfg.gen.Number() >= 8 ==> p.wmProgData.Some?
    ensures before <= PipelineCmds(before, cfg, p, ccViewport)
  {
    assert before + [] == before;
    PipelineAppends(before, [], cfg, p, ccViewport);
  }

  lemma DrawExtends(before: seq<Cmd>, cfg: Config, p: Params)
    ensures before <= DrawCmds(before, cfg, p)
  {
  }

  /** 3DSTATE_VERTEX_BUFFERS stays right after the prologue once the whole
      operation is emitted. */
  lemma RecordPositions(before: seq<Cmd>, cfg: Config, p: Params, reprogramUrb: bool, o: Offsets)
    requires ValidLayout(cfg.layout)
    requires cfg.gen.Number() >= 8 ==> p.wmProgData.Some?
    ensures var cs := CmdsAfter(before, cfg, p, reprogramUrb, o);
      var v := |before| + |PrologueCmds(cfg.gen)|;
      && v < |cs|
      && cs[v] == VertexBuffersCmd(cfg, p, o.vertexData, o.varyingData)
  {
    VertexBuffersAfterPrologue(before, cfg, p, reprogramUrb, o.vertexData, o.varyingData);
    VertexPhasePrefix(before, cfg, p, reprogramUrb, o);
    PrefixKeeps(VertexPhaseCmds(before, cfg, p, reprogramUrb, o.vertexData, o.varyingData),
                CmdsAfter(before, cfg, p, reprogramUrb, o), |before| + |PrologueCmds(cfg.gen)|);
  }

  /** The operation's records are those of its four phases, in order. */
  lemma OperationPhases(cfg: Config, p: Params, reprogramUrb: bool, o: Offsets)
    requires ValidLayout(cfg.layout)
    requires cfg.gen.Number() >= 8 ==> p.wmProgData.Some?
    ensures OperationCmds(cfg, p, reprogramUrb, o)
         == VertexPhaseCmds([], cfg, p, reprogramUrb, o.vertexData, o.varyingData)
            + DynamicStateCmds([], cfg, p, o.blend, o.colorCalc, o.depthStencil,
                               o.bindingTable, o.sampler)
            + PipelineCmds([], cfg, p, o.ccViewport)
            + DrawCmds([], cfg, p)
  {
    var v := VertexPhaseCmds([], cfg, p, reprogramUrb, o.vertexData, o.varyingData);
    var d := DynamicStateCmds([], cfg, p, o.blend, o.colorCalc, o.depthStencil,
                              o.bindingTable, o.sampler);
    var pl := PipelineCmds([], cfg, p, o.ccViewport);
    assert v + [] == v;
    DynamicStateAppends(v, [], cfg, p, o.blend, o.colorCalc, o.depthStencil,
                        o.bindingTable, o.sampler);
    assert v + d + [] == v + d;
    PipelineAppends(v + d, [], cfg, p, o.ccViewport);
    assert v + d + pl + [] == v + d + pl;
    DrawAppends(v + d + pl, [], cfg, p);
  }

  /** The state-pointer records whose presence depends on the program and
      the source. */
  datatype PointerKind = BlendPointers | PsBlendKind | ColorCalcPointers
                       | BindingTablePointers | SamplerPointers

  predicate IsKind(c: Cmd, k: PointerKind)
  {
    match k
    case BlendPointers => c.BlendStatePointers?
    case PsBlendKind => c.PsBlend?
    case ColorCalcPointers => c.CcStatePointers?
    case BindingTablePointers => c.BindingTablePointersPS? || c.Gen6BindingTablePointers?
    case SamplerPointers => c.SamplerStatePointersPS? || c.Gen6SamplerStatePointers?
  }

  /** Some record of `cs` is of kind `k`. */
  ghost predicate Has(cs: seq<Cmd>, k: PointerKind)
  {
    exists i :: 0 <= i < |cs| && IsKind(cs[i], k)
  }

  lemma HasAppend(a: seq<Cmd>, b: seq<Cmd>, k: PointerKind)
    ensures Has(a + b, k) <==> Has(a, k) || Has(b, k)
  {
    if Has(a + b, k) {
      var i :| 0 <= i < |a + b| && IsKind((a + b)[i], k);
      if i < |a| {
        assert a[i] == (a + b)[i];
      } else {
        assert b[i - |a|] == (a + b)[i];
      }
    }
    if Has(a, k) {
      var i :| 0 <= i < |a| && IsKind(a[i], k);
      assert (a + b)[i] == a[i];
    }
    if Has(b, k) {
      var i :| 0 <= i < |b| && IsKind(b[i], k);
      assert (a + b)[|a| + i] == b[i];
    }
  }

  lemma HasSingleton(c: Cmd, k: PointerKind)
    ensures Has([c], k) <==> IsKind(c, k)
  {
    if IsKind(c, k) {
      assert [c][0] == c;
    }
  }

  /** None of the records of the vertex phase, the pipeline phase or the
      draw phase is a state pointer of the dynamic-state phase. */
  lemma VertexPhaseHoldsNoStatePointers(cfg: Config, p: Params, reprogramUrb: bool,
                                        vertexOffset: nat, varyingOffset: nat, k: PointerKind)
    requires ValidLayout(cfg.layout)
    ensures !Has(VertexPhaseCmds([], cfg, p, reprogramUrb, vertexOffset, varyingOffset), k)
  {
    var v := VertexPhaseCmds([], cfg, p, reprogramUrb, vertexOffset, varyingOffset);
    forall i | 0 <= i < |v| ensures !IsKind(v[i], k) {
      assert v[i] in v;
      if v[i] in Instancing(2 + NumVaryings(p)) {
        InstancingRecords(2 + NumVaryings(p), v[i]);
      }
    }
  }

  lemma NoRecordOfKind(cs: seq<Cmd>, k: PointerKind)
    requires forall c :: c in cs ==> !IsKind(c, k)
    ensures !Has(cs, k)
  {
    forall i | 0 <= i < |cs| ensures !IsKind(cs[i], k) {
      assert cs[i] in cs;
    }
  }

  lemma SfHoldsNoStatePointers(cfg: Config, p: Params, k: PointerKind)
    requires cfg.gen.Number() >= 8 ==> p.wmProgData.Some?
    ensures !Has(SfCmds(cfg, p), k)
  {
    NoRecordOfKind(SfCmds(cfg, p), k);
  }

  lemma PsHoldsNoStatePointers(cfg: Config, p: Params, k: PointerKind)
    requires cfg.gen.Number() >= 8 ==> p.wmProgData.Some?
    ensures !Has(PsCmds(cfg, p), k)
  {
    NoRecordOfKind(PsCmds(cfg, p), k);
  }

  lemma FixedPipelineHoldsNoStatePointers(g: Gen, samples: nat, ccViewport: nat, k: PointerKind)
    ensures !Has(MultisampleCmds(g, samples) + [SampleMask(SampleMaskFor(samples))]
                 + StageCmds(g) + [Clip(true)], k)
    ensures !Has(ViewportCmds(g, ccViewport), k)
  {
    NoRecordOfKind(MultisampleCmds(g, samples) + [SampleMask(SampleMaskFor(samples))]
                   + StageCmds(g) + [Clip(true)], k);
    NoRecordOfKind(ViewportCmds(g, ccViewport), k);
  }

  lemma PipelineHoldsNoStatePointers(cfg: Config, p: Params, ccViewport: nat, k: PointerKind)
    requires cfg.gen.Number() >= 8 ==> p.wmProgData.Some?
    ensures !Has(PipelineCmds([], cfg, p, ccViewport), k)
  {
    var g := cfg.gen;
    var ms := MultisampleCmds(g, p.dst.surf.samples)
      + [SampleMask(SampleMaskFor(p.dst.surf.samples))] + StageCmds(g) + [Clip(true)];
    var sf := SfCmds(cfg, p);
    var ps := PsCmds(cfg, p);
    var vp := ViewportCmds(g, ccViewport);
    assert PipelineCmds([], cfg, p, ccViewport) == ms + sf + ps + vp;
    HasAppend(ms + sf + ps, vp, k);
    HasAppend(ms + sf, ps, k);
    HasAppend(ms, sf, k);
    FixedPipelineHoldsNoStatePointers(g, p.dst.surf.samples, ccViewport, k);
    SfHoldsNoStatePointers(cfg, p, k);
    PsHoldsNoStatePointers(cfg, p, k);
  }

  lemma DrawHoldsNoStatePointers(cfg: Config, p: Params, k: PointerKind)
    ensures !Has(DrawCmds([], cfg, p), k)
  {
    var dr := DrawCmds([], cfg, p);
    forall i | 0 <= i < |dr| ensures !IsKind(dr[i], k) {
      assert dr[i] in dr;
    }
  }

  /** Within the dynamic-state phase, blend state with its pointers,
      colour-calc state pointers and the binding table are emitted only when
      there is a program (blend and colour-calc pointers from gen 7 on,
      PS_BLEND from gen 8 on), and the sampler pointers only when there is a
      source. */
  lemma DynamicStateGates(cfg: Config, p: Params, blend: nat, cc: nat, ds: nat,
                          bindingTable: nat, sampler: nat, k: PointerKind)
    ensures Has(DynamicStateCmds([], cfg, p, blend, cc, ds, bindingTable, sampler), k)
        <==> Present(cfg.gen, p, k)
  {
    var g := cfg.gen;
    var prog := p.wmProgData.Some?;
    PointerRecordsGates(cfg, p, blend, cc, ds, k);
    if prog {
      BlendAndColorCalcKinds(g, blend, cc, k);
    }
    var w1: seq<Cmd> := if prog then [] + BlendCmds(g, blend) + ColorCalcCmds(g, cc) else [];
    var w2 := w1 + DepthStencilCmds(g, ds)
      + Gen6PointerCmds(g, if prog then blend else 0, if prog then cc else 0, ds)
      + ConstantCmds(g) + ResourceStreamerCmds(cfg);
    var bt := BindingTableCmds(g, bindingTable);
    var w3 := if prog then w2 + bt else w2;
    HasAppend(w2, bt, k);
    SingleKind(bt, BindingTablePointers, k);
    var sm := SamplerCmds(g, sampler);
    HasAppend(w3, sm, k);
    SingleKind(sm, SamplerPointers, k);
  }

  /** Up to the binding table, the dynamic state holds a gated record only
      among the blend and colour-calc records, and those only with a
      program. */
  lemma PointerRecordsGates(cfg: Config, p: Params, blend: nat, cc: nat, ds: nat,
                            k: PointerKind)
    ensures var g := cfg.gen;
      var prog := p.wmProgData.Some?;
      var w1: seq<Cmd> := if prog then [] + BlendCmds(g, blend) + ColorCalcCmds(g, cc) else [];
      Has(w1 + DepthStencilCmds(g, ds)
          + Gen6PointerCmds(g, if prog then blend else 0, if prog then cc else 0, ds)
          + ConstantCmds(g) + ResourceStreamerCmds(cfg), k)
      <==> prog && Has(BlendCmds(g, blend) + ColorCalcCmds(g, cc), k)
  {
    var g := cfg.gen;
    var prog := p.wmProgData.Some?;
    var bl := BlendCmds(g, blend);
    var cl := ColorCalcCmds(g, cc);
    var w1: seq<Cmd> := if prog then [] + bl + cl else [];
    if prog {
      assert [] + bl == bl;
    } else {
      assert !Has(w1, k);
    }
    var dl := DepthStencilCmds(g, ds);
    var g6 := Gen6PointerCmds(g, if prog then blend else 0, if prog then cc else 0, ds);
    var kc := ConstantCmds(g);
    var rs := ResourceStreamerCmds(cfg);
    HasAppend(w1, dl, k);
    HasAppend(w1 + dl, g6, k);
    HasAppend(w1 + dl + g6, kc, k);
    HasAppend(w1 + dl + g6 + kc, rs, k);
    PointerPiecesHoldNoGatedRecords(cfg, blend, cc, ds, prog, k);
  }

  /** The depth-stencil, gen-6 pointer, constant and resource-streamer
      records are of none of the gated kinds. */
  lemma PointerPiecesHoldNoGatedRecords(cfg: Config, blend: nat, cc: nat, ds: nat, prog: bool,
                                        k: PointerKind)
    ensures !Has(DepthStencilCmds(cfg.gen, ds), k)
    ensures !Has(Gen6PointerCmds(cfg.gen, if prog then blend else 0, if prog then cc else 0, ds), k)
    ensures !Has(ConstantCmds(cfg.gen), k)
    ensures !Has(ResourceStreamerCmds(cfg), k)
  {
    NoRecordOfKind(DepthStencilCmds(cfg.gen, ds), k);
    NoRecordOfKind(Gen6PointerCmds(cfg.gen, if prog then blend else 0, if prog then cc else 0, ds), k);
    NoRecordOfKind(ConstantCmds(cfg.gen), k);
    NoRecordOfKind(ResourceStreamerCmds(cfg), k);
  }

  lemma BlendAndColorCalcKinds(g: Gen, blend: nat, cc: nat, k: PointerKind)
    ensures Has(BlendCmds(g, blend) + ColorCalcCmds(g, cc), k)
        <==> (k == BlendPointers && g.Number() >= 7) || (k == PsBlendKind && g.Number() >= 8)
             || (k == ColorCalcPointers && g.Number() >= 7)
  {
    var b := if g.Number() >= 7 then [BlendStatePointers(blend, g.Number() >= 8)] else [];
    var ps := if g.Number() >= 8 then [PsBlend(true)] else [];
    HasAppend(b + ps, ColorCalcCmds(g, cc), k);
    HasAppend(b, ps, k);
    HasSingleton(BlendStatePointers(blend, g.Number() >= 8), k);
    HasSingleton(CcStatePointers(cc, g.Number() >= 8), k);
    HasSingleton(PsBlend(true), k);
  }

  /** A one-record sequence whose record is of kind `kind` only. */
  lemma SingleKind(cs: seq<Cmd>, kind: PointerKind, k: PointerKind)
    requires |cs| == 1 && (IsKind(cs[0], k) <==> k == kind)
    ensures Has(cs, k) <==> k == kind
  {
    assert cs == [cs[0]];
    HasSingleton(cs[0], k);
  }

  /** Whether the operation emits a record of kind `k`: blend state with
      its pointers, colour-calc state pointers and the binding table only
      when there is a program (blend and colour-calc pointers from gen 7 on,
      PS_BLEND from gen 8 on), the sampler pointers only with a source. */
  predicate Present(g: Gen, p: Params, k: PointerKind)
  {
    match k
    case BlendPointers => p.wmProgData.Some? && g.Number() >= 7
    case PsBlendKind => p.wmProgData.Some? && g.Number() >= 8
    case ColorCalcPointers => p.wmProgData.Some? && g.Number() >= 7
    case BindingTablePointers => p.wmProgData.Some?
    case SamplerPointers => p.src.bo.Some?
  }

  /** The operation emits a record of kind `k` exactly when `Present` says. */
  lemma ProgramAndSourceGateRecords(cfg: Config, p: Params, reprogramUrb: bool, o: Offsets,
                                    k: PointerKind)
    requires ValidLayout(cfg.layout)
    requires cfg.gen.Number() >= 8 ==> p.wmProgData.Some?
    ensures Has(OperationCmds(cfg, p, reprogramUrb, o), k) <==> Present(cfg.gen, p, k)
  {
    var v := VertexPhaseCmds([], cfg, p, reprogramUrb, o.vertexData, o.varyingData);
    var d := DynamicStateCmds([], cfg, p, o.blend, o.colorCalc, o.depthStencil,
                              o.bindingTable, o.sampler);
    var pl := PipelineCmds([], cfg, p, o.ccViewport);
    var dr := DrawCmds([], cfg, p);
    OperationPhases(cfg, p, reprogramUrb, o);
    HasAppend(v + d + pl, dr, k);
    HasAppend(v + d, pl, k);
    HasAppend(v, d, k);
    VertexPhaseHoldsNoStatePointers(cfg, p, reprogramUrb, o.vertexData, o.varyingData, k);
    PipelineHoldsNoStatePointers(cfg, p, o.ccViewport, k);
    DrawHoldsNoStatePointers(cfg, p, k);
    DynamicStateGates(cfg, p, o.blend, o.colorCalc, o.depthStencil, o.bindingTable,
                      o.sampler, k);
  }

  /** The blend state: every entry below the draw-buffer count set up,
      the others zero. */
  function BlendBlock(l: Layout, p: Params, offset: nat): StateBlock<State>
  {
    StateBlock(offset, l.blendStateLength * 4, BlendState(BlendEntries(p, l.blendEntryCount)))
  }

  /** The binding table and the surface states blorp_emit_surface_states
      allocates: the table, the destination's, and the source's when there
      is one; the table refers to exactly those. */
  function SurfaceBlocks(l: Layout, p: Params, bindingTable: nat, dst: nat, src: nat)
    : seq<StateBlock<State>>
  {
    var hasSrc := p.src.bo.Some?;
    [StateBlock(bindingTable, 4 * l.numBindingTableEntries,
                BindingTable(BindingTableSlots(l, dst, if hasSrc then Some(src) else None))),
     StateBlock(dst, l.surfaceStateSize, DstSurfaceState)]
    + (if hasSrc then [StateBlock(src, l.surfaceStateSize, SrcSurfaceState)] else [])
  }

  /** The blocks allocated after the vertex data, in allocation order:
      blend and colour-calc state when there is a program, depth/stencil
      state before gen 8, the binding table and surface states when there
      is a program, and the sampler when there is a source. */
  function DynamicStateBlocks(cfg: Config, p: Params, blend: nat, cc: nat, ds: nat,
                              bindingTable: nat, dst: nat, src: nat, sampler: nat)
    : seq<StateBlock<State>>
  {
    var l := cfg.layout;
    var prog := p.wmProgData.Some?;
    (if prog then [BlendBlock(l, p, blend),
                   StateBlock(cc, l.colorCalcStateLength * 4, ColorCalcState)]
     else [])
    + (if cfg.gen.Number() >= 8 then []
       else [StateBlock(ds, l.depthStencilStateLength * 4, DepthStencilStateFor(p))])
    + (if prog then SurfaceBlocks(l, p, bindingTable, dst, src) else [])
    + (if p.src.bo.Some?
       then [StateBlock(sampler, l.samplerStateLength * 4, SamplerStateBlock(BlorpSamplerValue))]
       else [])
  }

  /** The dynamic-state blocks appended in four pieces: the blend and
      colour-calc state, the depth/stencil state, the surfaces, the
      sampler. */
  lemma DynamicStateBlocksSplit(before: seq<StateBlock<State>>, cfg: Config, p: Params,
                                blend: nat, cc: nat, ds: nat, bindingTable: nat, dst: nat,
                                src: nat, sampler: nat)
    ensures var l := cfg.layout;
      var prog := p.wmProgData.Some?;
      before
      + (if prog then [BlendBlock(l, p, blend),
                       StateBlock(cc, l.colorCalcStateLength * 4, ColorCalcState)]
         else [])
      + (if cfg.gen.Number() >= 8 then []
         else [StateBlock(ds, l.depthStencilStateLength * 4, DepthStencilStateFor(p))])
      + (if prog then SurfaceBlocks(l, p, bindingTable, dst, src) else [])
      + (if p.src.bo.Some?
         then [StateBlock(sampler, l.samplerStateLength * 4, SamplerStateBlock(BlorpSamplerValue))]
         else [])
      == before + DynamicStateBlocks(cfg, p, blend, cc, ds, bindingTable, dst, src, sampler)
  {
    var l := cfg.layout;
    var prog := p.wmProgData.Some?;
    var a := if prog then [BlendBlock(l, p, blend),
                           StateBlock(cc, l.colorCalcStateLength * 4, ColorCalcState)]
             else [];
    var b := if cfg.gen.Number() >= 8 then []
             else [StateBlock(ds, l.depthStencilStateLength * 4, DepthStencilStateFor(p))];
    var c := if prog then SurfaceBlocks(l, p, bindingTable, dst, src) else [];
    var d := if p.src.bo.Some?
             then [StateBlock(sampler, l.samplerStateLength * 4, SamplerStateBlock(BlorpSamplerValue))]
             else [];
    AppendAssoc(before, a, b);
    AppendAssoc(before, a + b, c);
    AppendAssoc(before, a + b + c, d);
  }

  /** The scratch blocks one operation allocates, in allocation order: the
      vertex data (and varyings), the dynamic state, and the viewport. */
  function OperationBlocks(cfg: Config, p: Params, o: Offsets): seq<StateBlock<State>>
  {
    VertexBlocks(cfg, p, o.vertexData, o.varyingData)
    + DynamicStateBlocks(cfg, p, o.blend, o.colorCalc, o.depthStencil, o.bindingTable,
                         o.dstSurface, o.srcSurface, o.sampler)
    + [StateBlock(o.ccViewport, cfg.layout.ccViewportLength * 4, CcViewport)]
  }

  /** The scratch blocks of a batch holding `before` after genX(blorp_exec). */
  function BlocksAfter(before: seq<StateBlock<State>>, cfg: Config, p: Params, o: Offsets)
    : seq<StateBlock<State>>
  {
    before + VertexBlocks(cfg, p, o.vertexData, o.varyingData)
    + DynamicStateBlocks(cfg, p, o.blend, o.colorCalc, o.depthStencil, o.bindingTable,
                         o.dstSurface, o.srcSurface, o.sampler)
    + [StateBlock(o.ccViewport, cfg.layout.ccViewportLength * 4, CcViewport)]
  }

  /** An operation keeps the blocks allocated before it and allocates
      `OperationBlocks` after them. */
  lemma BlocksAfterAppends(before: seq<StateBlock<State>>, cfg: Config, p: Params, o: Offsets)
    ensures BlocksAfter(before, cfg, p, o) == before + OperationBlocks(cfg, p, o)
  {
    var a := VertexBlocks(cfg, p, o.vertexData, o.varyingData);
    var b := DynamicStateBlocks(cfg, p, o.blend, o.colorCalc, o.depthStencil, o.bindingTable,
                                o.dstSurface, o.srcSurface, o.sampler);
    var c := [StateBlock(o.ccViewport, cfg.layout.ccViewportLength * 4, CcViewport)];
    AppendAssoc(before, a, b);
    AppendAssoc(before, a + b, c);
  }

  /** The destination is bound as a render target, written and read
      through the render domain; the source only read through the sampler. */
  const DstSurfaceState: State := SurfaceState(RoleDst, RenderDomain, RenderDomain, true)
  const SrcSurfaceState: State := SurfaceState(RoleSrc, SamplerDomain, NoDomain, false)

  /** The relocations the depth configuration records when the depth
      record starts at dword `depthAt` and the HiZ record at `hizAt`. */
  function DepthRelocs(cfg: Config, p: Params, depthAt: nat, hizAt: nat): seq<Reloc>
  {
    var g := cfg.gen.Number();
    var l := cfg.layout;
    if p.depth.bo.Some?
    then RelocsFor(g, depthAt + l.depthBufferAddressDword,
                   RenderAddress(p.depth.bo, p.depth.offset), 0)
         + RelocsFor(g, hizAt + l.hizAddressDword,
                     RenderAddress(p.depth.auxBo, p.depth.auxOffset), 0)
    else []
  }

  /** The relocations of the vertex buffers of one operation whose
      3DSTATE_VERTEX_BUFFERS record starts at dword `vbAt`. */
  function VertexRelocs(before: seq<Reloc>, cfg: Config, p: Params, vertexOffset: nat,
                        varyingOffset: nat, vbAt: nat): seq<Reloc>
  {
    var bufs := VertexBufferStates(cfg.gen, cfg.batchBo, p, vertexOffset, varyingOffset);
    PackedRelocs(before, cfg, vbAt + 1, bufs, |bufs|)
  }

  /** The relocations of a batch holding `before` after genX(blorp_exec),
      given where the vertex-buffer, depth and HiZ records start. */
  function RelocsAfter(before: seq<Reloc>, cfg: Config, p: Params, o: Offsets,
                       vbAt: nat, depthAt: nat, hizAt: nat): seq<Reloc>
  {
    VertexRelocs(before, cfg, p, o.vertexData, o.varyingData, vbAt)
    + DepthRelocs(cfg, p, depthAt, hizAt)
  }

  /** The number of relocations one operation records: the vertex buffer
      addresses (start, and before gen 8 also end, of each buffer), and the
      depth and HiZ addresses when they name a buffer. */
  function RelocCount(g: Gen, p: Params): nat
  {
    NumBuffers(p) * (if g.Number() >= 8 then 1 else 2)
    + (if p.depth.bo.Some? then 1 + (if p.depth.auxBo.Some? then 1 else 0) else 0)
  }

  /** An operation keeps the relocations recorded before it and adds
      `RelocCount` of them: none for an absent depth or HiZ buffer. */
  lemma RelocsAfterCount(before: seq<Reloc>, cfg: Config, p: Params, o: Offsets,
                         vbAt: nat, depthAt: nat, hizAt: nat)
    ensures var rs := RelocsAfter(before, cfg, p, o, vbAt, depthAt, hizAt);
      && |rs| == |before| + RelocCount(cfg.gen, p)
      && rs[..|before|] == before
  {
    var bufs := VertexBufferStates(cfg.gen, cfg.batchBo, p, o.vertexData, o.varyingData);
    var vr := PackedRelocs(before, cfg, vbAt + 1, bufs, |bufs|);
    VertexBufferRelocCount(before, cfg, vbAt + 1, p, o.vertexData, o.varyingData);
    var rs := vr + DepthRelocs(cfg, p, depthAt, hizAt);
    assert rs[..|before|] == vr[..|before|];
  }
}
