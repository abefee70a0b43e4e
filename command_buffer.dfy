/**
 * Command buffer bookkeeping (renderer/vulkan/vulkan_command_buffer.c): the
 * engine's record of a command buffer's lifecycle state, the composition of
 * the begin flags and the single-use helpers. The driver calls themselves are
 * outside the model; the handle the driver allocates is an input, and the
 * single-use helper returns the driver calls it makes, in order.
 */
module CommandBuffers {
  import opened Common
  import opened VulkanTypes

  /** The engine's lifecycle states, a simplified Vulkan command buffer lifecycle. */
  datatype State = NotAllocated | Ready | Recording | RecordingEnded | Submitted

  /** The operations that write the state. */
  datatype Operation = Allocate | Begin | End | UpdateSubmitted | Reset | Free

  datatype Level = Primary | Secondary

  /** The parameters passed to vkAllocateCommandBuffers. */
  datatype AllocateInfo = AllocateInfo(pool: Handle, level: Level, count: nat)

  /** A driver call made by the single-use helper. */
  datatype DriverCall =
    | EndCommandBuffer(buffer: Handle)
    | QueueSubmit(queue: Handle, buffers: seq<Handle>)
    | QueueWaitIdle(queue: Handle)
    | FreeCommandBuffers(pool: Handle, buffer: Handle)

  // VkCommandBufferUsageFlagBits.
  const ONE_TIME_SUBMIT_BIT: bv32 := 0x1
  const RENDER_PASS_CONTINUE_BIT: bv32 := 0x2
  const SIMULTANEOUS_USE_BIT: bv32 := 0x4

  /** The begin flags: one bit per requested usage, set exactly when requested, and no other bit. */
  function FlagsFor(singleUse: bool, renderPassContinue: bool, simultaneousUse: bool): (flags: bv32)
    ensures flags & ONE_TIME_SUBMIT_BIT != 0 <==> singleUse
    ensures flags & RENDER_PASS_CONTINUE_BIT != 0 <==> renderPassContinue
    ensures flags & SIMULTANEOUS_USE_BIT != 0 <==> simultaneousUse
    ensures flags & !(ONE_TIME_SUBMIT_BIT | RENDER_PASS_CONTINUE_BIT | SIMULTANEOUS_USE_BIT) == 0
  {
    (if singleUse then ONE_TIME_SUBMIT_BIT else 0)
    | (if renderPassContinue then RENDER_PASS_CONTINUE_BIT else 0)
    | (if simultaneousUse then SIMULTANEOUS_USE_BIT else 0)
  }

  /** The three requests can be read back from the flags: each flag is independent of the others. */
  lemma FlagsDetermineRequests(a: bool, b: bool, c: bool, x: bool, y: bool, z: bool)
    ensures FlagsFor(a, b, c) == FlagsFor(x, y, z) <==> a == x && b == y && c == z
  {
    if FlagsFor(a, b, c) == FlagsFor(x, y, z) {
      assert (FlagsFor(a, b, c) & ONE_TIME_SUBMIT_BIT != 0) == a;
      assert (FlagsFor(x, y, z) & ONE_TIME_SUBMIT_BIT != 0) == x;
    }
  }

  /**
   * The state an operation leaves behind. No operation looks at the state it
   * finds: end, update_submitted and reset do not check it.
   */
  function Target(op: Operation): (s: State)
    ensures s == NotAllocated <==> op == Allocate || op == Free
    // Apart from allocation, the state written is one the Vulkan lifecycle reaches by that operation.
    ensures op != Allocate ==> exists from: State :: VulkanNext(from, op) == Some(s)
  {
    match op
    case Allocate => NotAllocated
    case Begin => assert VulkanNext(Ready, Begin) == Some(Recording); Recording
    case End => assert VulkanNext(Recording, End) == Some(RecordingEnded); RecordingEnded
    case UpdateSubmitted => assert VulkanNext(RecordingEnded, UpdateSubmitted) == Some(Submitted); Submitted
    case Reset => assert VulkanNext(Recording, Reset) == Some(Ready); Ready
    case Free => assert VulkanNext(Ready, Free) == Some(NotAllocated); NotAllocated
  }

  /** The state after `ops`, in order, starting from `s`. */
  function Run(s: State, ops: seq<Operation>): (r: State)
    ensures |ops| == 0 ==> r == s
    ensures |ops| > 0 ==> exists i :: 0 <= i < |ops| && r == Target(ops[i])
    decreases |ops|
  {
    if |ops| == 0 then s else Run(Target(ops[0]), ops[1..])
  }

  /** A non-empty run ends in the state its last operation writes, whatever the start. */
  lemma {:induction false} RunEndsAtLastTarget(s: State, ops: seq<Operation>)
    requires |ops| > 0
    ensures Run(s, ops) == Target(ops[|ops| - 1])
    decreases |ops|
  {
    if |ops| > 1 {
      RunEndsAtLastTarget(Target(ops[0]), ops[1..]);
      assert ops[1..][|ops[1..]| - 1] == ops[|ops| - 1];
    }
  }

  /** Two runs of the same non-empty operations end in the same state, whatever their starts. */
  lemma RunForgetsStart(s1: State, s2: State, ops: seq<Operation>)
    requires |ops| > 0
    ensures Run(s1, ops) == Run(s2, ops)
  {
    RunEndsAtLastTarget(s1, ops);
    RunEndsAtLastTarget(s2, ops);
  }

  /**
   * The transitions the Vulkan command buffer lifecycle allows, on the
   * engine's states (None: not allowed from `s`). Submitted stands for the
   * pending state, which Vulkan does not allow to be reset.
   */
  function VulkanNext(s: State, op: Operation): Option<State>
  {
    match op
    case Allocate => if s == NotAllocated then Some(Ready) else None
    case Begin => if s == Ready then Some(Recording) else None
    case End => if s == Recording then Some(RecordingEnded) else None
    case UpdateSubmitted => if s == RecordingEnded then Some(Submitted) else None
    case Reset => if s != NotAllocated && s != Submitted then Some(Ready) else None
    case Free => Some(NotAllocated)
  }

  /**
   * Every transition Vulkan allows other than allocation ends where the
   * engine's record says; allocation is recorded as NotAllocated where Vulkan
   * has the buffer in its initial (ready) state; and the engine records
   * transitions Vulkan forbids, such as ending a buffer that is not recording
   * or resetting one that is still pending.
   */
  lemma AgreesWithVulkanLifecycle(s: State, op: Operation)
    ensures VulkanNext(s, op).Some? && op != Allocate ==> VulkanNext(s, op).value == Target(op)
    ensures VulkanNext(NotAllocated, Allocate) == Some(Ready) && Target(Allocate) == NotAllocated
    ensures s != Recording ==> VulkanNext(s, End) == None && Target(End) == RecordingEnded
    ensures VulkanNext(Submitted, Reset) == None && Target(Reset) == Ready
  {
  }

  /** The engine's record of one command buffer. */
  class CommandBuffer {
    var handle: Handle
    var state: State

    /** A zeroed struct. */
    constructor ()
      ensures handle == NULL_HANDLE && state == NotAllocated
    {
      handle, state := NULL_HANDLE, NotAllocated;
    }

    /**
     * `vulkan_command_buffer_allocate`: one buffer from `pool`, primary or
     * secondary as asked; `driverHandle` is the handle the driver returns.
     */
    method Allocate(pool: Handle, isPrimary: bool, driverHandle: Handle) returns (info: AllocateInfo)
      modifies this
      ensures info == AllocateInfo(pool, if isPrimary then Primary else Secondary, 1)
      ensures info.level == Primary <==> isPrimary
      ensures state == Target(Operation.Allocate) && handle == driverHandle
    {
      var level := if isPrimary then Primary else Secondary;
      info := AllocateInfo(pool, level, 1);
      state := NotAllocated;
      handle := driverHandle;
    }

    /** `vulkan_command_buffer_free`: hands the buffer back to `pool` and forgets it. */
    method Free(pool: Handle) returns (freed: Handle)
      modifies this
      ensures freed == old(handle)
      ensures handle == NULL_HANDLE && state == Target(Operation.Free)
    {
      freed := handle;
      handle := NULL_HANDLE;
      state := NotAllocated;
    }

    /** `vulkan_command_buffer_begin`: the flags composed one `|=` at a time; the state becomes recording. */
    method Begin(singleUse: bool, renderPassContinue: bool, simultaneousUse: bool) returns (flags: bv32)
      modifies this
      ensures flags == FlagsFor(singleUse, renderPassContinue, simultaneousUse)
      ensures state == Target(Operation.Begin) && handle == old(handle)
    {
      flags := 0;
      if singleUse {
        flags := flags | ONE_TIME_SUBMIT_BIT;
      }
      if renderPassContinue {
        flags := flags | RENDER_PASS_CONTINUE_BIT;
      }
      if simultaneousUse {
        flags := flags | SIMULTANEOUS_USE_BIT;
      }
      state := Recording;
    }

    /** `vulkan_command_buffer_end`: recording ended, whatever the state was. */
    method End()
      modifies this
      ensures state == Target(Operation.End) && handle == old(handle)
    {
      state := RecordingEnded;
    }

    /** `vulkan_command_buffer_update_submitted`. */
    method UpdateSubmitted()
      modifies this
      ensures state == Target(Operation.UpdateSubmitted) && handle == old(handle)
    {
      state := Submitted;
    }

    /** `vulkan_command_buffer_reset`: ready again, from any state. */
    method Reset()
      modifies this
      ensures state == Target(Operation.Reset) && handle == old(handle)
    {
      state := Ready;
    }

    /** `vulkan_command_buffer_allocate_and_begin_single_use`: a primary buffer begun for one submission. */
    method AllocateAndBeginSingleUse(pool: Handle, driverHandle: Handle) returns (info: AllocateInfo, flags: bv32)
      modifies this
      ensures info == AllocateInfo(pool, Primary, 1)
      ensures flags == ONE_TIME_SUBMIT_BIT
      ensures state == Run(old(state), [Operation.Allocate, Operation.Begin]) && state == Recording
      ensures handle == driverHandle
    {
      ghost var before := state;
      info := Allocate(pool, true, driverHandle);
      flags := Begin(true, false, false);
      RunEndsAtLastTarget(before, [Operation.Allocate, Operation.Begin]);
    }

    /**
     * `vulkan_command_buffer_end_single_use`: end, submit to `queue`, wait for
     * the queue to go idle, then free; returns those driver calls in order.
     */
    method EndSingleUse(pool: Handle, queue: Handle) returns (calls: seq<DriverCall>)
      modifies this
      ensures calls == [EndCommandBuffer(old(handle)), QueueSubmit(queue, [old(handle)]),
                        QueueWaitIdle(queue), FreeCommandBuffers(pool, old(handle))]
      ensures state == Run(old(state), [Operation.End, Operation.Free]) && state == NotAllocated
      ensures handle == NULL_HANDLE
    {
      End();
      calls := [EndCommandBuffer(handle), QueueSubmit(queue, [handle]), QueueWaitIdle(queue)];
      var freed := Free(pool);
      calls := calls + [FreeCommandBuffers(pool, freed)];
      RunEndsAtLastTarget(old(state), [Operation.End, Operation.Free]);
    }
  }
}
