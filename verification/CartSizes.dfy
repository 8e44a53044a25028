/** The size check and the padding loop of the converter (vice/src/cartconv.c): the acceptable
    sizes of a cartridge are a bit mask, and a size passes when all its bits are in the mask. */
module CartSizes {
  import opened Bytes

  type uint = x: int | 0 <= x < 0x1_0000_0000

  /** `a & b`, bit by bit. */
  function BitAnd(a: nat, b: nat): (r: nat)
    ensures r <= a && r <= b
  {
    if a == 0 || b == 0 then 0
    else (if a % 2 == 1 && b % 2 == 1 then 1 else 0) + 2 * BitAnd(a / 2, b / 2)
  }

  lemma {:induction false} BitAndSelf(a: nat)
    ensures BitAnd(a, a) == a && BitAnd(0, a) == 0
  {
    if a > 0 {
      BitAndSelf(a / 2);
    }
  }

  predicate Fits(size: uint, sizes: uint): (b: bool)
    ensures b ==> size <= sizes
  {
    BitAnd(size, sizes) == size
  }

  /** The padding loop.  It stops at the least acceptable size not below the file's, if there is
      one; otherwise the 32-bit counter wraps around and the loop stops at zero. */
  method PadSize(fileSize: uint, sizes: uint) returns (size: uint)
    ensures Fits(size, sizes)
    ensures fileSize <= sizes ==> fileSize <= size && forall v: uint :: fileSize <= v && Fits(v, sizes) ==> size <= v
    ensures fileSize > sizes ==> size == 0
  {
    BitAndSelf(sizes);
    hide BitAnd, U32;
    size := fileSize;
    while BitAnd(size, sizes) != size
      invariant fileSize <= sizes ==> fileSize <= size <= sizes
      invariant fileSize <= sizes ==> forall v: uint :: fileSize <= v < size ==> !Fits(v, sizes)
      invariant fileSize > sizes ==> size == 0 || size > sizes
      decreases if fileSize <= sizes then sizes - size else if size == 0 then 0 else 0x1_0000_0000 - size
    {
      size := U32(size + 1);
    }
  }
}
