/** The data the blorp sequencer consumes and produces: the parameter block
    (`struct brw_blorp_params` and the surfaces it names), the typed hardware
    records it emits into the batch, the scratch-state blocks it allocates,
    and the generation-dependent record layout it packs with.

    Bit layouts live in genX_pack.h, which is not part of this model: every
    record here is the typed value handed to a pack function, and the layout
    numbers the sequencer itself uses (record lengths, length biases, the
    dword holding each address field, a few encoded constants) are fields of
    `Layout`. */
module BlorpRecords {
  import opened Common
  import opened Batch

  /** The hardware generation, GEN_GEN of the compiled variant (Haswell is
      GEN_GEN 7 with GEN_IS_HASWELL). */
  datatype Gen = Gen6 | Gen7 | Gen75 | Gen8 | Gen9 {
    function Number(): nat
    {
      match this
      case Gen6 => 6
      case Gen7 => 7
      case Gen75 => 7
      case Gen8 => 8
      case Gen9 => 9
    }
  }

  // ----- the parameter block -----

  datatype SurfDim = Dim1D | Dim2D | Dim3D

  /** The parts of `struct isl_surf` the sequencer reads. */
  datatype Surf = Surf(dim: SurfDim, width: u32, height: u32, depth: u32, arrayLen: u32,
                       rowPitch: u32, samples: nat)

  datatype View = View(baseLevel: u32, baseArrayLayer: u32)

  /** One attachment: its surface, buffer and offset, the auxiliary surface
      with its buffer and offset, the selected view, and the first dword of
      its clear colour. */
  datatype SurfaceInfo = SurfaceInfo(surf: Surf, bo: Option<BoId>, offset: nat,
                                     auxSurf: Surf, auxBo: Option<BoId>, auxOffset: nat,
                                     view: View, clearColorU32: u32)

  /** `enum gen6_hiz_op` */
  datatype HizOp = HizNone | HizDepthClear | HizDepthResolve | HizResolve

  /** `struct brw_blorp_prog_data`.  `urbReadLength` is the value of
      brw_blorp_get_urb_length for this program (that helper is defined
      outside genX_blorp_exec.c). */
  datatype ProgData = ProgData(firstCurbeGrf0: nat, firstCurbeGrf2: nat, kspOffset2: u32,
                               dispatch8: bool, dispatch16: bool, numVaryingInputs: nat,
                               inputsRead: nat, flatInputs: nat,
                               persampleMsaaDispatch: bool, urbReadLength: nat)

  /** A vec4 of the flat inputs, as the four 32-bit patterns memcpy copies. */
  datatype Vec4 = Vec4(x: int, y: int, z: int, w: int)

  datatype WriteDisable = WriteDisable(red: bool, green: bool, blue: bool, alpha: bool)

  /** `struct brw_blorp_params`.  `wmInputs` is `wm_inputs` seen as its
      vec4 slots. */
  datatype Params = Params(x0: u32, y0: u32, x1: u32, y1: u32,
                           depth: SurfaceInfo, depthFormat: nat,
                           dst: SurfaceInfo, src: SurfaceInfo,
                           hizOp: HizOp, fastClearOp: nat, numDrawBuffers: nat,
                           colorWriteDisable: WriteDisable, numLayers: nat,
                           wmProgKernel: u32, wmProgData: Option<ProgData>,
                           wmInputs: seq<Vec4>)

  // ----- record fields -----

  /** VERTEX_BUFFER_STATE access type; VERTEXDATA encodes as zero. */
  datatype VbAccess = AccessVertexData | AccessInstanceData

  /** `struct VERTEX_BUFFER_STATE`.  `bufferSize` exists from gen 8 on,
      `accessType` and `end` only before it. */
  datatype VertexBufferState = VertexBufferState(index: nat, pitch: nat, mocs: nat,
                                                 addressModifyEnable: bool, bufferSize: nat,
                                                 accessType: VbAccess, start: Address,
                                                 end: Address)

  const ZeroVertexBuffer: VertexBufferState :=
    VertexBufferState(0, 0, 0, false, 0, AccessVertexData, NullAddress, NullAddress)

  /** ISL formats used by the vertex elements; R32G32B32A32_FLOAT encodes as zero. */
  datatype ElementFormat = R32G32B32A32Float | R32G32Float

  /** VFCOMP_*; NOSTORE encodes as zero. */
  datatype CompControl = NoStore | StoreSrc | Store0 | Store1Fp

  /** `struct VERTEX_ELEMENT_STATE` */
  datatype VertexElementState = VertexElementState(bufferIndex: nat, valid: bool,
                                                   format: ElementFormat, offset: nat,
                                                   c0: CompControl, c1: CompControl,
                                                   c2: CompControl, c3: CompControl)

  const ZeroVertexElement: VertexElementState :=
    VertexElementState(0, false, R32G32B32A32Float, 0, NoStore, NoStore, NoStore, NoStore)

  datatype Topology = RectList
  datatype VertexAccess = Sequential
  datatype FillMode = FillSolid
  datatype CullMode = CullNone
  datatype MsRastMode = MsRastOffPixel | MsRastOnPattern
  datatype MsDispMode = MsDispPerSample | MsDispPerPixel

  /** The render-target resolve programmed into 3DSTATE_PS on gen 8+: gen 8
      has an enable bit, gen 9 a partial/full type. */
  datatype Resolve = NoResolve | ResolveEnable | ResolvePartial | ResolveFull

  datatype Stage = StageVS | StageHS | StageDS | StageGS | StagePS

  /** SURFTYPE_* of 3DSTATE_DEPTH_BUFFER; SURFTYPE_1D encodes as zero. */
  datatype SurfaceType = Surf1D | Surf2D | Surf3D | SurfNull

  /** `struct 3DSTATE_DEPTH_BUFFER`.  The tiling fields exist up to gen 6,
      `depthWriteEnable` from gen 7 on. */
  datatype DepthBufferState = DepthBufferState(
    surfaceType: SurfaceType, format: nat, depthWriteEnable: bool,
    tiled: bool, tileWalkYMajor: bool, mipLayoutBelow: bool, separateStencil: bool,
    hizEnable: bool, width: nat, height: nat, depth: nat, renderTargetViewExtent: nat,
    lod: nat, minimumArrayElement: nat, pitch: nat, address: Address, mocs: nat)

  /** `struct 3DSTATE_SBE` (gen 7+). */
  datatype SbeState = SbeState(readOffset: nat, numOutputs: nat, readLength: nat,
                               forceReadLength: bool, forceReadOffset: bool,
                               constantInterpolation: nat, allComponentsXyzw: bool)

  /** Work done inside the batch by routines outside genX_blorp_exec.c. */
  datatype ForeignOp =
    | PostSyncNonzeroFlush
    | StateBaseAddress
    | L3Config
    | UrbUpload(vsEntrySize: nat)
    | DisableHwBindingTables
    | Gen6Multisample(samples: nat)
    | Gen8Multisample(samples: nat)
    | DepthStallFlushes

  /** One hardware record, as the typed value packed into the batch. */
  datatype Cmd =
    | Foreign(op: ForeignOp)
    | VertexBuffers(dwordLength: nat, buffers: seq<VertexBufferState>)
    | VertexElements(dwordLength: nat, elements: seq<VertexElementState>)
    | VfSgvs
    | VfInstancing(elementIndex: nat, instancingEnable: bool)
    | VfTopology(topology: Topology)
    | Urb(vsNumberOfUrbEntries: nat)
    | BlendStatePointers(blendPointer: nat, blendPointerValid: bool)
    | PsBlend(hasWriteableRT: bool)
    | CcStatePointers(ccPointer: nat, ccPointerValid: bool)
    | DepthStencilStatePointers(dsPointer: nat)
    | WmDepthStencil
    | Gen6CcStatePointers(blendChange: bool, ccChange: bool, dsChange: bool,
                          blend: nat, colorCalc: nat, depthStencil: nat)
    | Constant(stage: Stage)
    | BindingTablePointersPS(btPointer: nat)
    | Gen6BindingTablePointers(psBindingTableChange: bool, psBtPointer: nat)
    | SamplerStatePointersPS(samplerPointer: nat)
    | Gen6SamplerStatePointers(vsChange: bool, gsChange: bool, psChange: bool,
                               psSamplerPointer: nat)
    | SampleMask(mask: nat)
    | StageDisabled(disabledStage: Stage)
    | Te
    | StreamOut
    | Clip(perspectiveDivideDisable: bool)
    | Sf8
    | Raster(cullMode: CullMode)
    | Sbe(sbe: SbeState)
    | Sf7(frontFill: FillMode, backFill: FillMode, msRast7: MsRastMode,
          depthBufferFormat: nat)
    | Sf6(frontFill6: FillMode, backFill6: FillMode, msRast6: MsRastMode,
          readOffset: nat, numOutputs: nat, readLength: nat, constantInterpolation: nat)
    | Wm8
    | Ps8(samplerCount8: nat, bindingTableEntryCount: nat, grf0: nat, grf2: nat,
          dispatch8: bool, dispatch16: bool, ksp0: u32, ksp2: u32,
          maxThreadsPerPsd: nat, resolve: Resolve, fastClear: bool)
    | PsExtra(pixelShaderValid: bool, killsPixel: bool, attributeEnable: bool,
              isPerSample: bool)
    | Wm7(depthClear: bool, depthResolve: bool, hizResolve: bool, threadDispatch: bool,
          killPixel: bool, msRast: MsRastMode, msDispatch: MsDispMode)
    | Ps7(maxThreads: u32, psSampleMask: Option<nat>, grf0_7: nat, grf2_7: nat,
          ksp0_7: u32, ksp2_7: u32, dispatch8_7: bool, dispatch16_7: bool,
          attributeEnable7: bool, samplerCount7: nat, resolveEnable: bool,
          fastClear7: bool)
    | Wm6(maxThreads6: u32, depthClear6: bool, depthResolve6: bool, hizResolve6: bool,
          threadDispatch6: bool, grf0_6: nat, grf2_6: nat, ksp0_6: u32, ksp2_6: u32,
          dispatch8_6: bool, dispatch16_6: bool, numSfOutputs: nat, samplerCount6: nat,
          killPixel6: bool, msRast6w: MsRastMode, msDispatch6: MsDispMode)
    | ViewportStatePointersCC(ccViewportPointer: nat)
    | Gen6ViewportStatePointers(ccViewportChange: bool, ccViewport: nat)
    | DepthBuffer(db: DepthBufferState)
    | HierDepthBuffer(hizPitch: nat, hizAddress: Address, hizMocs: nat)
    | StencilBuffer
    | ClearParams(depthClearValueValid: bool, depthClearValue: u32)
    | DrawingRectangle(xMax: u32, yMax: u32)
    | Primitive(access: VertexAccess, topology3d: Topology, vertexCountPerInstance: nat,
                instanceCount: nat)

  // ----- scratch-state blocks -----

  /** A vertex of the rectangle, in screen-space integer coordinates. */
  datatype Vertex = Vertex(x: int, y: int)

  /** COLORCLAMP_*; UNORM encodes as zero. */
  datatype ColorClamp = ClampUnorm | ClampRtFormat

  /** One render target's entry of `struct BLEND_STATE`. */
  datatype BlendEntry = BlendEntry(preBlendClamp: bool, postBlendClamp: bool,
                                   clampRange: ColorClamp, writeDisableRed: bool,
                                   writeDisableGreen: bool, writeDisableBlue: bool,
                                   writeDisableAlpha: bool)

  const ZeroBlendEntry: BlendEntry :=
    BlendEntry(false, false, ClampUnorm, false, false, false, false)

  /** COMPAREFUNCTION_*; ALWAYS encodes as zero. */
  datatype CompareFunction = CompareAlways | CompareNever

  /** Which surface a binding-table surface state describes. */
  datatype SurfaceRole = RoleDst | RoleSrc

  /** The fixed sampler blorp uses (mip NONE, LINEAR min/mag filtering,
      LOD 0, CLAMP on all axes, RATIO21, every address rounding bit and
      non-normalised coordinates). */
  datatype BlorpSampler = BlorpSampler(mipNone: bool, magLinear: bool, minLinear: bool,
                                       minLod: nat, maxLod: nat, clampX: bool,
                                       clampY: bool, clampZ: bool, ratio21: bool,
                                       allRounding: bool, nonNormalized: bool)

  datatype State =
    | VertexData(vertices: seq<Vertex>)
    | VaryingData(inputs: seq<Vec4>)
    | BlendState(entries: seq<BlendEntry>)
    | ColorCalcState
    | DepthStencilState(depthWriteEnable: bool, depthTestEnable: bool,
                        depthTestFunction: CompareFunction)
    | BindingTable(slots: seq<Option<nat>>)
    | SurfaceState(role: SurfaceRole, readDomains: Domains, writeDomain: Domains,
                   isRenderTarget: bool)
    | SamplerStateBlock(sampler: BlorpSampler)
    | CcViewport

  // ----- layout and configuration -----

  /** The numbers genX_pack.h and the driver headers fix for one generation:
      the `_length` of each fixed-length record, the element lengths and
      length biases of the two variable-length records, the dword inside a
      record or element holding each address field, the state-block sizes,
      the binding-table shape, BRW_SF_URB_ENTRY_READ_OFFSET,
      VARYING_SLOT_VAR0 and the D32_FLOAT depth format code. */
  datatype Layout = Layout(
    cmdLength: Cmd -> nat,
    vertexBufferStateLength: nat, vertexBuffersLengthBias: nat,
    vbStartDword: nat, vbEndDword: nat,
    vertexElementStateLength: nat, vertexElementsLengthBias: nat,
    depthBufferAddressDword: nat, hizAddressDword: nat,
    blendStateLength: nat, blendEntryCount: nat,
    colorCalcStateLength: nat, depthStencilStateLength: nat,
    samplerStateLength: nat, ccViewportLength: nat,
    surfaceStateSize: nat, surfaceStateAlignment: Alignment,
    numBindingTableEntries: nat, renderbufferIndex: nat, textureIndex: nat,
    sfUrbEntryReadOffset: nat, varyingSlotVar0: nat, d32Float: nat)

  /** What a usable layout satisfies: the address fields lie inside their
      records, the length biases do not exceed the shortest record, and the
      two binding-table slots exist and differ. */
  ghost predicate ValidLayout(l: Layout)
  {
    && l.vbStartDword < l.vertexBufferStateLength
    && l.vbEndDword < l.vertexBufferStateLength
    && l.vertexBuffersLengthBias <= 1 + l.vertexBufferStateLength
    && l.vertexElementsLengthBias <= 1 + 2 * l.vertexElementStateLength
    && (forall st :: l.depthBufferAddressDword < l.cmdLength(DepthBuffer(st)))
    && (forall p, a, m :: l.hizAddressDword < l.cmdLength(HierDepthBuffer(p, a, m)))
    && l.renderbufferIndex < l.numBindingTableEntries
    && l.textureIndex < l.numBindingTableEntries
    && l.renderbufferIndex != l.textureIndex
  }

  /** The parts of `struct brw_context` the sequencer reads but never
      changes. */
  datatype Config = Config(gen: Gen, layout: Layout, batchBo: BoId, maxWmThreads: u32,
                           urbMaxVsEntries: nat, useResourceStreamer: bool)

  /** The bits of `ctx.NewDriverState` the URB step looks at or sets; any
      other bit is `OtherDirty`. */
  datatype DirtyBit = NewContext | NewUrbSize | OtherDirty(bit: nat)
}
