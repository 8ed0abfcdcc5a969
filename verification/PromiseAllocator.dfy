/** coro::detail::PromiseAllocator: one block of memory holds the coroutine frame, in the type-erased
    variants the pointer to the deallocation function, and, if it has state, the allocator itself.

    `size` is the size of the frame, `align` and `bytes` are alignof and sizeof of the allocator, `unit` is
    sizeof(Aligned_block).  Sums do not overflow. */
module PromiseAllocator {
  type Byte = x: int | 0 <= x < 256

  const FN: nat := 8    // sizeof(DeallocFn)

  // ---------------------------------------------------------------- powers of two

  function Pow2(e: nat): (r: nat)
    ensures r > 0
  {
    if e == 0 then 1 else 2 * Pow2(e - 1)
  }

  lemma Doubled(x: nat, y: nat)
    ensures 2 * (x * y) == (2 * x) * y
  {}

  lemma {:induction false} Pow2Plus(d: nat, e: nat)
    ensures Pow2(d + e) == Pow2(d) * Pow2(e)
  {
    if d > 0 {
      Pow2Plus(d - 1, e);
      assert Pow2(d) == 2 * Pow2(d - 1) && Pow2(d + e) == 2 * Pow2(d - 1 + e);
      hide Pow2;
      Doubled(Pow2(d - 1), Pow2(e));
    }
  }

  lemma {:induction false} Pow2Order(d: nat, e: nat)
    requires d < e
    ensures Pow2(d) < Pow2(e)
  {
    if d < e - 1 {
      Pow2Order(d, e - 1);
    }
  }

  // ---------------------------------------------------------------- the layout

  function Max(a: nat, b: nat): nat { if a < b then b else a }

  /** (x + align - 1) & ~(align - 1). */
  function RoundUp(x: nat, align: nat): nat
    requires align > 0
  {
    align * ((x + align - 1) / align)
  }

  /** The blocks of a stateful allocator whose object comes after `used` bytes. */
  function Count(used: nat, bytes: nat, align: nat, unit: nat): nat
    requires unit > 0
  {
    (used + bytes + Max(align, unit) - 1) / unit
  }

  /** The blocks when no allocator is stored. */
  function PlainCount(used: nat, unit: nat): nat
    requires unit > 0
  {
    (used + unit - 1) / unit
  }

  function AllocatorAddress(ptr: nat, used: nat, align: nat): nat
    requires align > 0
  {
    RoundUp(ptr + used, align)
  }

  /** The address is a multiple of the alignment. */
  ghost predicate Aligned(address: nat, align: nat) {
    exists q: nat :: address == Times(align, q)
  }

  function Times(align: nat, q: nat): nat { align * q }

  lemma Distribute(a: nat, b: nat, c: nat)
    ensures a * (b + c) == a * b + a * c
  {}

  lemma Regroup(a: nat, b: nat, c: nat)
    ensures a * b * c == a * (b * c)
  {}

  /** Multiples of a that differ by less than a. */
  lemma AtMost(a: nat, x: nat, y: nat)
    requires a > 0 && a * x < a * y + a
    ensures a * x <= a * y
  {
    if x > y {
      Distribute(a, y + 1, x - y - 1);
      Distribute(a, y, 1);
    }
  }

  /** The quotient that x / a stands for. */
  lemma Divide(x: nat, a: nat)
    requires a > 0
    ensures a * (x / a) <= x < a * (x / a) + a
  {}

  /** The allocator's alignment divides that of the block: ptr, the block and the allocator are multiples
      of the alignment. */
  lemma FitsSmall(align: nat, k: nat, p: nat, t: nat, count: nat, q: nat, end: nat)
    requires align > 0 && align * q + align * t <= end + align - 1 && end <= align * k * p + align * k * count
    ensures align * q + align * t <= align * k * p + align * k * count
  {
    Regroup(align, k, p);
    Regroup(align, k, count);
    Distribute(align, q, t);
    Distribute(align, k * p, k * count);
    AtMost(align, q + t, k * p + k * count);
  }

  /** The block's alignment divides that of the allocator: they are multiples of the block's. */
  lemma FitsLarge(unit: nat, k: nat, p: nat, t: nat, count: nat, q: nat)
    requires unit > 0 && unit * k * q + unit * k * t < unit * p + unit * count + unit
    ensures unit * k * q + unit * k * t <= unit * p + unit * count
  {
    Regroup(unit, k, q);
    Regroup(unit, k, t);
    Distribute(unit, k * q, k * t);
    Distribute(unit, p, count);
    AtMost(unit, k * q + k * t, p + count);
  }

  lemma Fits(align: nat, unit: nat, k: nat, p: nat, used: nat, t: nat)
    requires align > 0 && unit > 0 && k > 0 && (unit == align * k || align == unit * k)
    requires unit == align * k ==> align <= unit
    ensures var q, count := (unit * p + used + align - 1) / align, Count(used, align * t, align, unit);
            unit * p + used <= align * q && align * q + align * t <= unit * p + unit * count
  {
    var q, count := (unit * p + used + align - 1) / align, Count(used, align * t, align, unit);
    Divide(unit * p + used + align - 1, align);
    Divide(used + align * t + Max(align, unit) - 1, unit);
    if unit == align * k {
      FitsSmall(align, k, p, t, count, q, unit * p + used + align * t);
    } else {
      FitsLarge(unit, k, p, t, count, q);
    }
  }

  /** Of two powers of two one divides the other. */
  lemma OneDivides(a: nat, u: nat) returns (k: nat)
    ensures k > 0 && (Pow2(u) == Pow2(a) * k || Pow2(a) == Pow2(u) * k)
    ensures Pow2(u) == Pow2(a) * k ==> Pow2(a) <= Pow2(u)
  {
    if a <= u {
      Pow2Plus(a, u - a);
      k := Pow2(u - a);
      if a < u {
        Pow2Order(a, u);
      }
    } else {
      Pow2Plus(u, a - u);
      k := Pow2(a - u);
      Pow2Order(u, a);
      Shrinks(Pow2(a), k);
    }
  }

  lemma Shrinks(x: nat, k: nat)
    requires k > 0
    ensures x <= x * k
  {}

  lemma FitsAligned(align: nat, unit: nat, k: nat, p: nat, used: nat, t: nat)
    requires align > 0 && unit > 0 && k > 0 && (unit == align * k || align == unit * k)
    requires unit == align * k ==> align <= unit
    ensures var at := AllocatorAddress(unit * p, used, align);
            && unit * p + used <= at && Aligned(at, align)
            && at + align * t <= unit * p + unit * Count(used, align * t, align, unit)
  {
    Fits(align, unit, k, p, used, t);
    var q := (unit * p + used + align - 1) / align;
    assert AllocatorAddress(unit * p, used, align) == Times(align, q);
  }

  /** For all sizes and all powers of two: the allocator comes after what is used before it, is aligned,
      and ends inside the block. */
  lemma AllocatorFits(p: nat, used: nat, t: nat, a: nat, u: nat)
    ensures var align, unit := Pow2(a), Pow2(u);
            var bytes, ptr := align * t, unit * p;
            var at := AllocatorAddress(ptr, used, align);
            ptr + used <= at && Aligned(at, align) && at + bytes <= ptr + unit * Count(used, bytes, align, unit)
  {
    var k := OneDivides(a, u);
    var align, unit := Pow2(a), Pow2(u);
    FitsAligned(align, unit, k, p, used, t);
  }

  // ---------------------------------------------------------------- operator new and operator delete

  /** The allocator type: a power of two for its alignment, which divides its size. */
  datatype Kind = Kind(a: nat, t: nat, u: nat) {
    function Align(): (r: nat)
      ensures r > 0
    {
      Pow2(a)
    }

    function Bytes(): nat { Pow2(a) * t }

    function Unit(): (r: nat)
      ensures r > 0
    {
      Pow2(u)
    }

    /** The bytes of n blocks. */
    function Of(n: nat): nat { Unit() * n }
  }

  method Write(block: array<Byte>, at: nat, data: seq<Byte>)
    requires at + |data| <= block.Length
    modifies block
    ensures forall i :: 0 <= i < |data| ==> block[at + i] == data[i]
    ensures forall i :: 0 <= i < block.Length && !(at <= i < at + |data|) ==> block[i] == old(block[i])
  {
    var i := 0;
    while i < |data|
      invariant 0 <= i <= |data|
      invariant forall j :: 0 <= j < i ==> block[at + j] == data[j]
      invariant forall j :: 0 <= j < block.Length && !(at <= j < at + i) ==> block[j] == old(block[j])
    {
      block[at + i] := data[i];
      i := i + 1;
    }
  }

  method Read(block: array<Byte>, at: nat, n: nat) returns (data: seq<Byte>)
    requires at + n <= block.Length
    ensures data == block[at..at + n]
  {
    data := [];
    while |data| < n
      invariant |data| <= n && data == block[at..at + |data|]
    {
      data := data + [block[at + |data|]];
    }
  }

  /** The four ways to allocate: with or without a deallocation function behind the frame (the variants for
      void erase the allocator's type), with or without a stored allocator. */
  datatype Variant = Variant(erased: bool, stateful: bool)

  /** What comes before the allocator. */
  function Used(v: Variant, size: nat): nat {
    if v.erased then size + FN else size
  }

  function Blocks(v: Variant, k: Kind, size: nat): nat {
    if v.stateful then Count(Used(v, size), k.Bytes(), k.Align(), k.Unit()) else PlainCount(Used(v, size), k.Unit())
  }

  /** Offset `at` of the block at address unit * p is the first aligned place after what is used. */
  ghost predicate FirstAligned(k: Kind, p: nat, used: nat, at: nat) {
    used <= at < used + k.Align() && Aligned(k.Unit() * p + at, k.Align())
  }

  lemma MultiplesApart(a: nat, x: nat, y: nat)
    requires a > 0 && x < y
    ensures a * x + a <= a * y
  {
    Distribute(a, x + 1, y - x - 1);
    Distribute(a, x, 1);
  }

  /** There is one such place only. */
  lemma FirstIsUnique(k: Kind, p: nat, used: nat, at: nat, at': nat)
    requires FirstAligned(k, p, used, at) && FirstAligned(k, p, used, at')
    ensures at == at'
  {
    var a, ptr := k.Align(), k.Unit() * p;
    var x: nat :| ptr + at == Times(a, x);
    var y: nat :| ptr + at' == Times(a, y);
    if x < y {
      MultiplesApart(a, x, y);
    } else if y < x {
      MultiplesApart(a, y, x);
    }
  }

  /** The place that the code computes. */
  lemma ComputedIsFirst(k: Kind, p: nat, used: nat, address: nat)
    requires address == RoundUp(k.Of(p) + used, k.Align())
    ensures address >= k.Of(p) && FirstAligned(k, p, used, address - k.Of(p))
    ensures address - k.Of(p) + k.Bytes() <= k.Of(Count(used, k.Bytes(), k.Align(), k.Unit()))
  {
    AllocatorFits(p, used, k.t, k.a, k.u);
    Divide(k.Unit() * p + used + k.Align() - 1, k.Align());
  }

  /** The objects behind the frame. */
  ghost predicate Holds(block: seq<Byte>, v: Variant, k: Kind, p: nat, size: nat, at: nat,
                        dealloc: seq<Byte>, al: seq<Byte>)
  {
    && Used(v, size) <= |block|
    && (v.erased ==> block[size..size + FN] == dealloc)
    && (v.stateful ==>
          FirstAligned(k, p, Used(v, size), at) && at + k.Bytes() <= |block| && block[at..at + k.Bytes()] == al)
  }

  method AlignUp(x: nat, align: nat) returns (r: nat)
    requires align > 0
    ensures r == RoundUp(x, align)
  {
    r := align * ((x + align - 1) / align);
  }

  method StoredBlocks(k: Kind, size: nat) returns (count: nat)
    ensures count == Count(size, k.Bytes(), k.Align(), k.Unit())
  {
    var align := if k.Align() < k.Unit() then k.Unit() else k.Align();
    count := (size + k.Bytes() + align - 1) / k.Unit();
  }

  /** The part of operator new that stores the allocator, behind `size` bytes. */
  method NewStored(k: Kind, p: nat, size: nat, al: seq<Byte>) returns (block: array<Byte>, count: nat, ghost at: nat)
    requires |al| == k.Bytes()
    ensures fresh(block) && block.Length == k.Of(count) && count == Count(size, k.Bytes(), k.Align(), k.Unit())
    ensures FirstAligned(k, p, size, at) && at + k.Bytes() <= block.Length && block[at..at + k.Bytes()] == al
  {
    hide *;
    var ptr := k.Of(p);
    count := StoredBlocks(k, size);
    var address := AlignUp(ptr + size, k.Align());
    ComputedIsFirst(k, p, size, address);
    block := new Byte[k.Of(count)];
    Write(block, address - ptr, al);
    at := address - ptr;
  }

  method NewPlain(k: Kind, size: nat) returns (block: array<Byte>, count: nat)
    ensures fresh(block) && block.Length == k.Of(count) >= size && count == PlainCount(size, k.Unit())
  {
    PlainFits(size, k.u);
    count := (size + k.Unit() - 1) / k.Unit();
    block := new Byte[k.Of(count)];
  }

  /** operator new: `count` blocks at address unit * p. */
  method New(v: Variant, k: Kind, p: nat, frame: nat, dealloc: seq<Byte>, al: seq<Byte>)
    returns (block: array<Byte>, count: nat, ghost at: nat)
    requires |dealloc| == FN && |al| == k.Bytes()
    ensures fresh(block) && block.Length == k.Of(count) && count == Blocks(v, k, frame)
    ensures Holds(block[..], v, k, p, frame, at, dealloc, al)
  {
    var size := frame;
    if v.erased {
      size := size + FN;
    }
    at := 0;
    if v.stateful {
      block, count, at := NewStored(k, p, size, al);
      assert size <= at by {
        assert FirstAligned(k, p, size, at);
      }
    } else {
      block, count := NewPlain(k, size);
    }
    hide Aligned, Count, PlainCount;
    ghost var stored := block[..];
    if v.erased {
      Write(block, frame, dealloc);
    }
    WrittenBefore(stored, block[..], at, k.Bytes(), size);
  }

  /** What is written before `size` does not touch the allocator behind it. */
  lemma WrittenBefore(before: seq<Byte>, after: seq<Byte>, at: nat, n: nat, size: nat)
    requires |after| == |before| && forall i :: size <= i < |before| ==> after[i] == before[i]
    ensures size <= at && at + n <= |before| ==> after[at..at + n] == before[at..at + n]
  {}

  /** operator delete: `at`, `dealloc0` and `al0` are where and what new stored. */
  method Delete(v: Variant, k: Kind, p: nat, frame: nat, block: array<Byte>,
                ghost at: nat, ghost dealloc0: seq<Byte>, ghost al0: seq<Byte>)
    returns (dealloc: seq<Byte>, al: seq<Byte>, count: nat)
    requires Holds(block[..], v, k, p, frame, at, dealloc0, al0)
    ensures v.erased ==> dealloc == dealloc0
    ensures v.stateful ==> al == al0
    ensures count == Blocks(v, k, frame)
  {
    hide FirstAligned, Count, PlainCount;
    var size := frame;
    dealloc, al := [], [];
    if v.erased {
      dealloc := Read(block, size, FN);
      size := size + FN;
    }
    if v.stateful {
      al, count := DeleteStored(k, p, size, block, at, al0);
    } else {
      count := PlainBlocks(k, size);
    }
  }

  method PlainBlocks(k: Kind, size: nat) returns (count: nat)
    ensures count == PlainCount(size, k.Unit())
  {
    count := (size + k.Unit() - 1) / k.Unit();
  }

  /** The part of operator delete that moves the stored allocator out. */
  method DeleteStored(k: Kind, p: nat, size: nat, block: array<Byte>, ghost at: nat, ghost al0: seq<Byte>)
    returns (al: seq<Byte>, count: nat)
    requires FirstAligned(k, p, size, at) && at + k.Bytes() <= block.Length && block[at..at + k.Bytes()] == al0
    ensures al == al0 && count == Count(size, k.Bytes(), k.Align(), k.Unit())
  {
    hide *;
    var ptr := k.Of(p);
    var address := AlignUp(ptr + size, k.Align());
    ComputedIsFirst(k, p, size, address);
    FirstIsUnique(k, p, size, address - ptr, at);
    al := Read(block, address - ptr, k.Bytes());
    count := StoredBlocks(k, size);
  }

  /** A block from new to delete: whatever the coroutine writes into its frame, delete gets back the
      function and the allocator that new stored, and gives back as many blocks as new took. */
  method Lifetime(v: Variant, k: Kind, p: nat, dealloc: seq<Byte>, al: seq<Byte>, frame: seq<Byte>)
    returns (blocks: nat, dealloc': seq<Byte>, al': seq<Byte>, count: nat)
    requires |dealloc| == FN && |al| == k.Bytes()
    ensures v.erased ==> dealloc' == dealloc
    ensures v.stateful ==> al' == al
    ensures count == blocks
  {
    hide Blocks, Holds;
    var block: array<Byte>;
    ghost var at;
    block, blocks, at := New(v, k, p, |frame|, dealloc, al);
    ghost var before := block[..];
    HoldsFrame(before, v, k, p, |frame|, at, dealloc, al);
    Write(block, 0, frame);
    FrameLeaves(before, block[..], v, k, p, |frame|, at, dealloc, al);
    dealloc', al', count := Delete(v, k, p, |frame|, block, at, dealloc, al);
  }

  lemma HoldsFrame(block: seq<Byte>, v: Variant, k: Kind, p: nat, size: nat, at: nat, dealloc: seq<Byte>, al: seq<Byte>)
    requires Holds(block, v, k, p, size, at, dealloc, al)
    ensures size <= |block|
  {}

  lemma FrameLeaves(before: seq<Byte>, after: seq<Byte>, v: Variant, k: Kind, p: nat, size: nat, at: nat,
                    dealloc: seq<Byte>, al: seq<Byte>)
    requires Holds(before, v, k, p, size, at, dealloc, al) && |after| == |before|
    requires forall i :: size <= i < |before| ==> after[i] == before[i]
    ensures Holds(after, v, k, p, size, at, dealloc, al)
  {
    if v.erased {
      assert after[size..size + FN] == before[size..size + FN];
    }
    if v.stateful {
      assert after[at..at + k.Bytes()] == before[at..at + k.Bytes()];
    }
  }

  /** With no allocator stored, frame and function pointer fit, and the last block is used. */
  lemma PlainFits(used: nat, u: nat)
    ensures used <= Pow2(u) * PlainCount(used, Pow2(u)) < used + Pow2(u)
  {
    Divide(used + Pow2(u) - 1, Pow2(u));
  }
}
