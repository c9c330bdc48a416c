/** The address arithmetic of the stack in src/common.c. */
module Addresses {
  import opened CommonModel
  import opened Config
  import opened Machine
  import opened Words

  lemma MultipleBelow(x: nat, p: nat)
    requires p > 0
    ensures Floor(x, p) <= x < Floor(x, p) + p
    ensures Floor(x, p) % p == 0
  {
    RemainderUnique(Floor(x, p), p, x / p, 0);
  }

  /** For every base that does not wrap, the aligned window of STACK_SIZE bytes that ends at
      g_stack_top lies inside the allocation of twice that size. */
  lemma StackWindow(base: nat)
    requires base + 2 * STACK_SIZE < U64
    ensures (StackTop(base) + 1) % STACK_SIZE == 0
    ensures base < StackTop(base) + 1 - STACK_SIZE
    ensures StackTop(base) < base + 2 * STACK_SIZE
  {
    MaskIsFloor(base + 2 * STACK_SIZE, STACK_SIZE);
    MultipleBelow(base + 2 * STACK_SIZE, STACK_SIZE);
  }

  /** The window ends at the last multiple of STACK_SIZE in the allocation. */
  lemma WindowEnd(base: nat)
    requires base + 2 * STACK_SIZE < U64
    ensures StackTop(base) + 1 == Floor(base + 2 * STACK_SIZE, STACK_SIZE)
  {
    MaskIsFloor(base + 2 * STACK_SIZE, STACK_SIZE);
    MultipleBelow(base + 2 * STACK_SIZE, STACK_SIZE);
  }

  lemma WindowFits(base: nat)
    requires base + 2 * STACK_SIZE < U64
    ensures
      var top := StackTop(base);
      var at := Wrap(top - CONTEXT_SIZE);
      var sp := Wrap(at - 1);
      (top + 1 - STACK_SIZE <= sp < at && at + CONTEXT_SIZE <= top + 1) <==> CONTEXT_SIZE + 2 <= STACK_SIZE
  {
    StackWindow(base);
    var top := StackTop(base);
    if CONTEXT_SIZE > top {
      assert Wrap(top - CONTEXT_SIZE) == U64 + top - CONTEXT_SIZE;
    } else if CONTEXT_SIZE == top {
      assert Wrap(top - CONTEXT_SIZE) == 0 && Wrap(-1) == U64 - 1;
    }
  }

  /** The thread context call_vmm writes and the stack pointer it gives to _start are in that window
      exactly when the context and two more bytes fit into STACK_SIZE. */
  lemma ContextInWindow(a: Assets, cpuid: int, request: Request, live: multiset<Block>)
    requires a.stack + 2 * STACK_SIZE < U64 && a.stackTop == StackTop(a.stack)
    ensures
      var ev := ContextOf(a, cpuid, request, live);
      (a.stackTop + 1 - STACK_SIZE <= ev.sp < ev.at && ev.at + CONTEXT_SIZE <= a.stackTop + 1)
      <==> CONTEXT_SIZE + 2 <= STACK_SIZE
  {
    hide Wrap, StackTop;
    WindowFits(a.stack);
  }
}
