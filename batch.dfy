/** The batch buffer the sequencer appends to: a write cursor over dwords,
    the records written so far with their positions, the relocation list,
    and the scratch-state allocator that hands out offsets for ephemeral
    state blocks.  Also the address resolver of genX_blorp_exec.c: a buffer
    address packed into a record becomes a plain number when it names no
    buffer, and a relocation otherwise. */
module Batch {
  import opened Common

  /** The identity of a buffer object (`drm_intel_bo *`). */
  type BoId = nat

  /** A mask of the GEM access domains (I915_GEM_DOMAIN_*) a relocation
      declares: which of the render, sampler and vertex bits are set. */
  datatype Domains = Domains(render: bool, sampler: bool, vertex: bool)

  const NoDomain: Domains := Domains(false, false, false)
  const RenderDomain: Domains := Domains(true, false, false)
  const SamplerDomain: Domains := Domains(false, true, false)
  const VertexDomain: Domains := Domains(false, false, true)

  /** `struct blorp_address`: a buffer (NULL when absent), its read and write
      domain masks, and a byte offset into it. */
  datatype Address = Address(buffer: Option<BoId>, readDomains: Domains,
                             writeDomain: Domains, offset: nat)

  /** The all-zero address a zero-initialised record field holds. */
  const NullAddress: Address := Address(None, NoDomain, NoDomain, 0)

  /** `intel_batchbuffer_reloc` (32-bit) or `intel_batchbuffer_reloc64`. */
  datatype RelocKind = Reloc32 | Reloc64

  /** One deferred patch: the byte offset inside the batch of the slot to
      patch, the buffer it refers to, its domains and the target offset. */
  datatype Reloc = Reloc(kind: RelocKind, offset: nat, target: BoId,
                         readDomains: Domains, writeDomain: Domains,
                         delta: u32)

  /** The value packed into an address slot: a plain number, or the presumed
      address of a buffer plus a target offset, patched at submission. */
  datatype AddressValue = Absolute(value: u32) | Relocated(target: BoId, delta: u32)

  /** One block carved out of scratch state space. */
  datatype StateBlock<S> = StateBlock(offset: nat, size: nat, content: S)

  function RelocKindFor(gen: nat): RelocKind
  {
    if gen >= 8 then Reloc64 else Reloc32
  }

  /** The value that packing `a` with an extra `delta` produces. */
  function CombinedValue(a: Address, delta: nat): AddressValue
  {
    match a.buffer
    case None => Absolute(Add32(a.offset, delta))
    case Some(bo) => Relocated(bo, Add32(a.offset, delta))
  }

  /** The relocations that packing `a` at dword `location` records. */
  function RelocsFor(gen: nat, location: nat, a: Address, delta: nat): seq<Reloc>
  {
    match a.buffer
    case None => []
    case Some(bo) =>
      [Reloc(RelocKindFor(gen), 4 * location, bo, a.readDomains, a.writeDomain,
             Add32(a.offset, delta))]
  }

  /** Null buffers yield `offset + delta` and no relocation; a real buffer
      yields exactly one relocation at the slot's byte offset, whose width
      follows the generation alone. */
  lemma CombineAddressCases(gen: nat, location: nat, a: Address, delta: nat)
    ensures a.buffer == None ==>
      CombinedValue(a, delta) == Absolute(Add32(a.offset, delta))
      && RelocsFor(gen, location, a, delta) == []
    ensures a.buffer != None ==>
      |RelocsFor(gen, location, a, delta)| == 1
      && RelocsFor(gen, location, a, delta)[0].offset == 4 * location
      && RelocsFor(gen, location, a, delta)[0].target == a.buffer.value
      && (RelocsFor(gen, location, a, delta)[0].kind == Reloc64 <==> gen >= 8)
      && CombinedValue(a, delta).Relocated?
  {
  }

  /** Records `i` occupy dwords `starts[i] .. starts[i] + lengths[i]`, each
      ending before the next begins and the last ending by `bound`. */
  ghost predicate RecordsInOrder(starts: seq<nat>, lengths: seq<nat>, bound: nat)
    requires |starts| == |lengths|
    decreases |starts|
  {
    var n := |starts|;
    n == 0 ||
    (RecordsInOrder(starts[..n - 1], lengths[..n - 1], starts[n - 1])
     && starts[n - 1] + lengths[n - 1] <= bound)
  }

  /** Every relocation patches a byte below `bound`. */
  ghost predicate RelocsBelow(relocs: seq<Reloc>, bound: nat)
    decreases |relocs|
  {
    var n := |relocs|;
    n == 0 || (RelocsBelow(relocs[..n - 1], bound) && relocs[n - 1].offset < bound)
  }

  lemma {:induction false} RelocsBelowWeaken(relocs: seq<Reloc>, b1: nat, b2: nat)
    requires RelocsBelow(relocs, b1) && b1 <= b2
    ensures RelocsBelow(relocs, b2)
  {
    if |relocs| > 0 {
      RelocsBelowWeaken(relocs[..|relocs| - 1], b1, b2);
    }
  }

  /** Blocks lie in allocation order without overlapping, the last one
      ending by `bound`. */
  ghost predicate BlocksInOrder<S>(blocks: seq<StateBlock<S>>, bound: nat)
    decreases |blocks|
  {
    var n := |blocks|;
    n == 0 ||
    (BlocksInOrder(blocks[..n - 1], blocks[n - 1].offset)
     && blocks[n - 1].offset + blocks[n - 1].size <= bound)
  }

  /** Replacing the content of a block keeps every block where it was. */
  lemma {:induction false} BlocksInOrderOverwrite<S>(blocks: seq<StateBlock<S>>, bound: nat,
                                                     index: nat, content: S)
    requires BlocksInOrder(blocks, bound) && index < |blocks|
    ensures BlocksInOrder(blocks[index := blocks[index].(content := content)], bound)
  {
    var n := |blocks|;
    var updated := blocks[index := blocks[index].(content := content)];
    if index < n - 1 {
      assert updated[..n - 1] == blocks[..n - 1][index := blocks[index].(content := content)];
      BlocksInOrderOverwrite(blocks[..n - 1], blocks[n - 1].offset, index, content);
    } else {
      assert updated[..n - 1] == blocks[..n - 1];
    }
  }

  /** The batch for one generation.  `cursor` is `map_next - map` counted in
      dwords; `cmds`, `starts` and `lengths` hold each packed record, the
      dword at which it starts and the dwords reserved for it; `packedEnd`
      is where the last packed record ends.  Scratch state is allocated
      from `stateNext` upwards. */
  class Batch<R, S> {
    const gen: nat
    const bo: BoId
    var cursor: nat
    var packedEnd: nat
    var cmds: seq<R>
    var starts: seq<nat>
    var lengths: seq<nat>
    var relocs: seq<Reloc>
    var stateNext: nat
    var blocks: seq<StateBlock<S>>

    /** Records lie in emission order inside the written part of the batch,
        without overlapping, every relocation patches a written slot, and
        the scratch-state blocks lie in allocation order below `stateNext`
        without overlapping. */
    ghost predicate Valid()
      reads this
    {
      && |cmds| == |starts| == |lengths|
      && packedEnd <= cursor
      && RecordsInOrder(starts, lengths, packedEnd)
      && RelocsBelow(relocs, 4 * cursor)
      && BlocksInOrder(blocks, stateNext)
    }

    constructor (gen: nat, bo: BoId, used: nat, stateBase: nat)
      ensures Valid()
      ensures this.gen == gen && this.bo == bo
      ensures cursor == used && packedEnd == used && cmds == [] && starts == []
      ensures lengths == [] && relocs == [] && stateNext == stateBase && blocks == []
    {
      this.gen := gen;
      this.bo := bo;
      cursor := used;
      packedEnd := used;
      cmds, starts, lengths, relocs := [], [], [], [];
      stateNext := stateBase;
      blocks := [];
    }

    /** blorp_emit_dwords: reserve `n` dwords and return where they start. */
    method EmitDwords(n: nat) returns (at: nat)
      requires Valid()
      modifies this`cursor
      ensures Valid()
      ensures at == old(cursor) && cursor == old(cursor) + n
    {
      RelocsBelowWeaken(relocs, 4 * cursor, 4 * (cursor + n));
      at := cursor;
      cursor := cursor + n;
    }

    /** Record that the `n` dwords at `at` now hold the packed record `c`. */
    method Put(at: nat, n: nat, c: R)
      requires Valid()
      requires packedEnd <= at && at + n <= cursor
      modifies this`cmds, this`starts, this`lengths, this`packedEnd
      ensures Valid()
      ensures cmds == old(cmds) + [c] && starts == old(starts) + [at]
      ensures lengths == old(lengths) + [n] && packedEnd == at + n
    {
      assert (starts + [at])[..|starts|] == starts;
      assert (lengths + [n])[..|lengths|] == lengths;
      cmds := cmds + [c];
      starts := starts + [at];
      lengths := lengths + [n];
      packedEnd := at + n;
    }

    /** blorp_emit: reserve the record's `n` dwords and pack `c` into them. */
    method Emit(c: R, n: nat) returns (at: nat)
      requires Valid()
      modifies this`cursor, this`cmds, this`starts, this`lengths, this`packedEnd
      ensures Valid()
      ensures at == old(cursor) && cursor == old(cursor) + n
      ensures cmds == old(cmds) + [c] && starts == old(starts) + [at]
      ensures lengths == old(lengths) + [n] && packedEnd == cursor
    {
      at := EmitDwords(n);
      Put(at, n, c);
    }

    /** blorp_emit_reloc: record a relocation for the slot at dword
        `location` and return the value to pack there. */
    method EmitReloc(location: nat, a: Address, delta: u32) returns (v: AddressValue)
      requires Valid() && location < cursor && a.buffer.Some?
      modifies this`relocs
      ensures Valid()
      ensures v == Relocated(a.buffer.value, Add32(a.offset, delta))
      ensures relocs == old(relocs) + [Reloc(RelocKindFor(gen), 4 * location, a.buffer.value,
                                             a.readDomains, a.writeDomain, Add32(a.offset, delta))]
    {
      var offset := 4 * location;
      var kind := if gen >= 8 then Reloc64 else Reloc32;
      assert (relocs + [Reloc(kind, offset, a.buffer.value, a.readDomains, a.writeDomain,
                              Add32(a.offset, delta))])[..|relocs|] == relocs;
      relocs := relocs + [Reloc(kind, offset, a.buffer.value, a.readDomains, a.writeDomain,
                                Add32(a.offset, delta))];
      v := Relocated(a.buffer.value, Add32(a.offset, delta));
    }

    /** __gen_combine_address: the value packed for an address field. */
    method CombineAddress(location: nat, a: Address, delta: u32) returns (v: AddressValue)
      requires Valid() && location < cursor
      modifies this`relocs
      ensures Valid()
      ensures v == CombinedValue(a, delta)
      ensures relocs == old(relocs) + RelocsFor(gen, location, a, delta)
    {
      if a.buffer == None {
        v := Absolute(Add32(a.offset, delta));
      } else {
        v := EmitReloc(location, a, delta);
      }
    }

    /** Scratch-state allocation (the role of brw_state_batch): an aligned
        block after everything allocated before, holding `content`. */
    method StateBatch(size: nat, alignment: Alignment, content: S) returns (offset: nat, index: nat)
      requires Valid()
      modifies this`stateNext, this`blocks
      ensures Valid()
      ensures offset % alignment.Bytes() == 0 && old(stateNext) <= offset
      ensures stateNext == offset + size
      ensures index == |old(blocks)|
      ensures blocks == old(blocks) + [StateBlock(offset, size, content)]
    {
      offset := AlignUp(stateNext, alignment);
      stateNext := offset + size;
      index := |blocks|;
      assert (blocks + [StateBlock(offset, size, content)])[..|blocks|] == blocks;
      blocks := blocks + [StateBlock(offset, size, content)];
    }

    /** Overwrite the content of an already allocated block. */
    method WriteState(index: nat, content: S)
      requires Valid() && index < |blocks|
      modifies this`blocks
      ensures Valid()
      ensures blocks == old(blocks)[index := old(blocks)[index].(content := content)]
    {
      BlocksInOrderOverwrite(blocks, stateNext, index, content);
      blocks := blocks[index := blocks[index].(content := content)];
    }
  }
}
