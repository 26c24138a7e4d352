/** `src/util.rs`: `PtrTakeExt::take` on raw pointers. */
module PtrTake {

  datatype Mutability = Const | Mut

  /** A raw pointer (`*const T` or `*mut T`); address 0 is null. */
  datatype RawPtr = RawPtr(mutability: Mutability, addr: nat)

  predicate IsNull(p: RawPtr) { p.addr == 0 }

  /** The value `take` returns and the pointer it leaves behind. */
  datatype Taken = Taken(returned: RawPtr, left: RawPtr)

  /** `mem::replace(self, null)`: hand out the old pointer, leave a null of the same kind. */
  function Take(p: RawPtr): (t: Taken)
    ensures t.returned == p
    ensures IsNull(t.left) && t.left.mutability == p.mutability
  {
    Taken(p, RawPtr(p.mutability, 0))
  }

  /** Taking again after a take yields null and changes nothing more. */
  lemma TakeIsIdempotentAfterFirst(p: RawPtr)
    ensures IsNull(Take(Take(p).left).returned)
    ensures Take(Take(p).left).left == Take(p).left
  {
  }

  /** `*const` and `*mut` behave alike: same address out, null left behind. */
  lemma ConstAndMutAlike(addr: nat)
    ensures Take(RawPtr(Const, addr)).returned.addr == Take(RawPtr(Mut, addr)).returned.addr == addr
    ensures IsNull(Take(RawPtr(Const, addr)).left) && IsNull(Take(RawPtr(Mut, addr)).left)
  {
  }
}
