/** The one-word buffer of the owning delegates and which objects fit into it. */
module SmallBuffer {

  /** The target platform's `sizeof`/`alignof` of `void*` and of a function pointer, in bytes. */
  datatype Platform = Platform(
    pointerSize: nat, pointerAlign: nat, functionPointerSize: nat, functionPointerAlign: nat)

  /** `bufferAlignment()` (and `alignment()` of delegate_target): the buffer word is aligned to
      the larger of the pointer's size and the pointer's alignment. */
  function BufferAlignment(p: Platform): (a: nat)
    ensures a >= p.pointerSize && a >= p.pointerAlign
    ensures a == p.pointerSize || a == p.pointerAlign
  {
    if p.pointerSize >= p.pointerAlign then p.pointerSize else p.pointerAlign
  }

  /** `isSmallBufferOptimizable<T>()`: an object of this size and alignment can be placed in the
      buffer word itself instead of on the heap. */
  predicate IsSmallBufferOptimizable(p: Platform, size: nat, align: nat)
  {
    size <= p.pointerSize && align <= BufferAlignment(p)
  }

  /** An object that fits stays fitting when it gets smaller or less strictly aligned, and
      anything with the size and alignment of a data pointer always fits. */
  lemma FitsIsDownwardClosed(p: Platform, size: nat, align: nat, size': nat, align': nat)
    requires IsSmallBufferOptimizable(p, size, align)
    requires size' <= size && align' <= align
    ensures IsSmallBufferOptimizable(p, size', align')
    ensures IsSmallBufferOptimizable(p, p.pointerSize, p.pointerAlign)
  {
  }
}
