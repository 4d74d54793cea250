/**
 * The fence and submission orchestration of `GraphicsDevice`
 * (DirectX12GameEngine.Graphics/GraphicsDevice.cs).
 *
 * The device owns one hardware queue, one fence and one command-allocator
 * pool per fenced queue kind (Direct, Compute, Copy). Native objects are
 * represented by what the device does to them:
 *   - a command-allocator pool by the log of its `Enqueue` calls;
 *   - a hardware queue by the log of the operations pushed to it
 *     (`ExecuteCommandLists` batches and fence signals);
 *   - a fence by its `CompletedValue`, which only the GPU raises.
 */
module Graphics {
  import opened Wrappers
  import opened FenceValues
  import opened Submission
  import opened Disposal

  /** `NotSupportedException("This command list type is not supported.")` */
  datatype Error = NotSupported

  // ---------------------------------------------------------------- feature level

  /** Numeric code of D3D_FEATURE_LEVEL_11_0; feature levels compare by their codes. */
  const Level11_0: int := 0xb000

  /** The feature level a device is created with: never below 11_0. */
  function EffectiveFeatureLevel(minFeatureLevel: int): (r: int)
    ensures r >= Level11_0 && r >= minFeatureLevel
    ensures r == minFeatureLevel || r == Level11_0
  {
    if minFeatureLevel < Level11_0 then Level11_0 else minFeatureLevel
  }

  // ---------------------------------------------------------------- records

  /** One `fence.SetEventOnCompletion(fenceValue, fenceEvent)` call. */
  datatype EventRegistration = EventRegistration(queue: QueueKind, fenceValue: int)

  /** What `WaitForFenceAsync` hands back: a finished task, or one waiting for a fence value. */
  datatype FenceTask = CompletedTask | AwaitingFence(queue: QueueKind, fenceValue: int)

  datatype DescriptorHeapType =
    DepthStencilView | RenderTargetView | ConstantBufferViewShaderResourceViewUnorderedAccessView | Sampler

  /** The construction parameters of a `DescriptorAllocator`; its internals are not part of this model. */
  datatype DescriptorAllocator = DescriptorAllocator(heapType: DescriptorHeapType, capacity: nat, shaderVisible: bool)

  // ---------------------------------------------------------------- the device

  class GraphicsDevice {
    const FeatureLevel: int

    const DepthStencilViewAllocator: DescriptorAllocator
    const RenderTargetViewAllocator: DescriptorAllocator
    const ShaderResourceViewAllocator: DescriptorAllocator
    const SamplerAllocator: DescriptorAllocator
    const ShaderVisibleShaderResourceViewAllocator: DescriptorAllocator
    const ShaderVisibleSamplerAllocator: DescriptorAllocator

    var NextComputeFenceValue: int
    var NextCopyFenceValue: int
    var NextDirectFenceValue: int

    // CompletedValue of NativeComputeFence, NativeCopyFence, NativeDirectFence
    var ComputeFenceCompletedValue: int
    var CopyFenceCompletedValue: int
    var DirectFenceCompletedValue: int

    var BundleAllocatorPool: seq<PoolEntry>
    var ComputeAllocatorPool: seq<PoolEntry>
    var CopyAllocatorPool: seq<PoolEntry>
    var DirectAllocatorPool: seq<PoolEntry>

    // what NativeComputeCommandQueue, NativeCopyCommandQueue, NativeDirectCommandQueue have received
    var ComputeCommandQueue: seq<QueueOp>
    var CopyCommandQueue: seq<QueueOp>
    var DirectCommandQueue: seq<QueueOp>

    // completion targets set on the shared fenceEvent
    var EventRegistrations: seq<EventRegistration>

    // whether the lazy nativeDirect3D11Device has been created
    var Direct3D11DeviceCreated: bool

    // objects released by every Dispose call so far, in order
    var Disposed: seq<Owned>

    function NextFenceValue(k: QueueKind): int
      reads this`NextComputeFenceValue, this`NextCopyFenceValue, this`NextDirectFenceValue
    {
      match k
      case ComputeQueue => NextComputeFenceValue
      case CopyQueue => NextCopyFenceValue
      case DirectQueue => NextDirectFenceValue
    }

    function CompletedValue(k: QueueKind): int
      reads this`ComputeFenceCompletedValue, this`CopyFenceCompletedValue, this`DirectFenceCompletedValue
    {
      match k
      case ComputeQueue => ComputeFenceCompletedValue
      case CopyQueue => CopyFenceCompletedValue
      case DirectQueue => DirectFenceCompletedValue
    }

    function AllocatorPool(k: QueueKind): seq<PoolEntry>
      reads this`ComputeAllocatorPool, this`CopyAllocatorPool, this`DirectAllocatorPool
    {
      match k
      case ComputeQueue => ComputeAllocatorPool
      case CopyQueue => CopyAllocatorPool
      case DirectQueue => DirectAllocatorPool
    }

    function CommandQueue(k: QueueKind): seq<QueueOp>
      reads this`ComputeCommandQueue, this`CopyCommandQueue, this`DirectCommandQueue
    {
      match k
      case ComputeQueue => ComputeCommandQueue
      case CopyQueue => CopyCommandQueue
      case DirectQueue => DirectCommandQueue
    }

    /** The device invariant: each queue kind keeps its history; the Bundle pool is never fed; not yet disposed. */
    ghost predicate Valid()
      reads this`NextComputeFenceValue, this`NextCopyFenceValue, this`NextDirectFenceValue
      reads this`ComputeFenceCompletedValue, this`CopyFenceCompletedValue, this`DirectFenceCompletedValue
      reads this`ComputeAllocatorPool, this`CopyAllocatorPool, this`DirectAllocatorPool
      reads this`ComputeCommandQueue, this`CopyCommandQueue, this`DirectCommandQueue
      reads this`BundleAllocatorPool, this`Disposed
    {
      && BundleAllocatorPool == []
      && Disposed == []
      && QueueValid(DirectQueue)
      && QueueValid(ComputeQueue)
      && QueueValid(CopyQueue)
    }

    ghost predicate QueueValid(k: QueueKind)
      reads this`NextComputeFenceValue, this`NextCopyFenceValue, this`NextDirectFenceValue
      reads this`ComputeFenceCompletedValue, this`CopyFenceCompletedValue, this`DirectFenceCompletedValue
      reads this`ComputeAllocatorPool, this`CopyAllocatorPool, this`DirectAllocatorPool
      reads this`ComputeCommandQueue, this`CopyCommandQueue, this`DirectCommandQueue
    {
      QueueHistory(NextFenceValue(k), CompletedValue(k), AllocatorPool(k), CommandQueue(k))
    }

    /**
     * One submission of `commandLists` to queue kind `k` at `fenceValue`:
     * the counter of `k` supplied `fenceValue` and was post-incremented; the
     * pool of `k` received every list's allocator tagged `fenceValue` in
     * array order; the queue of `k` received the batch and then the signal
     * of `fenceValue`; the other counters, pools and queues are untouched.
     */
    twostate predicate SubmittedTo(k: QueueKind, commandLists: seq<CompiledCommandList>, fenceValue: int)
      reads this`NextComputeFenceValue, this`NextCopyFenceValue, this`NextDirectFenceValue
      reads this`ComputeAllocatorPool, this`CopyAllocatorPool, this`DirectAllocatorPool
      reads this`ComputeCommandQueue, this`CopyCommandQueue, this`DirectCommandQueue
      reads this`BundleAllocatorPool, this`Disposed
    {
      && fenceValue == old(NextFenceValue(k))
      && IsLong(fenceValue)
      && NextFenceValue(k) == PostIncrement(fenceValue)
      && AllocatorPool(k) == old(AllocatorPool(k)) + Released(commandLists, fenceValue)
      && CommandQueue(k) == old(CommandQueue(k)) + [Execute(NativeLists(commandLists))] + [Signal(fenceValue)]
      && (forall j :: j != k ==> NextFenceValue(j) == old(NextFenceValue(j)))
      && (forall j :: j != k ==> AllocatorPool(j) == old(AllocatorPool(j)))
      && (forall j :: j != k ==> CommandQueue(j) == old(CommandQueue(j)))
      && BundleAllocatorPool == old(BundleAllocatorPool)
      && Disposed == old(Disposed)
    }

    constructor (minFeatureLevel: int := Level11_0)
      ensures Valid()
      ensures FeatureLevel == EffectiveFeatureLevel(minFeatureLevel)
      ensures forall k :: NextFenceValue(k) == 1 && CompletedValue(k) == 0
      ensures forall k :: AllocatorPool(k) == [] && CommandQueue(k) == []
      ensures EventRegistrations == [] && !Direct3D11DeviceCreated && Disposed == []
      ensures DepthStencilViewAllocator == DescriptorAllocator(DepthStencilView, 1, false)
      ensures RenderTargetViewAllocator == DescriptorAllocator(RenderTargetView, 2, false)
      ensures ShaderResourceViewAllocator ==
        DescriptorAllocator(ConstantBufferViewShaderResourceViewUnorderedAccessView, 4096, false)
      ensures SamplerAllocator == DescriptorAllocator(Sampler, 256, false)
      ensures ShaderVisibleShaderResourceViewAllocator ==
        DescriptorAllocator(ConstantBufferViewShaderResourceViewUnorderedAccessView, 4096, true)
      ensures ShaderVisibleSamplerAllocator == DescriptorAllocator(Sampler, 256, true)
    {
      FeatureLevel := EffectiveFeatureLevel(minFeatureLevel);
      BundleAllocatorPool, ComputeAllocatorPool, CopyAllocatorPool, DirectAllocatorPool := [], [], [], [];
      ComputeCommandQueue, CopyCommandQueue, DirectCommandQueue := [], [], [];
      ComputeFenceCompletedValue, CopyFenceCompletedValue, DirectFenceCompletedValue := 0, 0, 0;
      DepthStencilViewAllocator := DescriptorAllocator(DepthStencilView, 1, false);
      RenderTargetViewAllocator := DescriptorAllocator(RenderTargetView, 2, false);
      ShaderResourceViewAllocator :=
        DescriptorAllocator(ConstantBufferViewShaderResourceViewUnorderedAccessView, 4096, false);
      SamplerAllocator := DescriptorAllocator(Sampler, 256, false);
      ShaderVisibleShaderResourceViewAllocator :=
        DescriptorAllocator(ConstantBufferViewShaderResourceViewUnorderedAccessView, 4096, true);
      ShaderVisibleSamplerAllocator := DescriptorAllocator(Sampler, 256, true);
      NextComputeFenceValue, NextCopyFenceValue, NextDirectFenceValue := 1, 1, 1;
      EventRegistrations := [];
      Direct3D11DeviceCreated := false;
      Disposed := [];
    }

    /**
     * Stores queue kind `k`'s new counter, pool and hardware queue, which
     * must keep that kind's history; the other kinds, the fences and
     * everything else stay as they were.
     */
    method UpdateQueueState(k: QueueKind, next: int, pool: seq<PoolEntry>, queue: seq<QueueOp>)
      requires Valid() && QueueHistory(next, CompletedValue(k), pool, queue)
      modifies this`NextComputeFenceValue, this`NextCopyFenceValue, this`NextDirectFenceValue
      modifies this`ComputeAllocatorPool, this`CopyAllocatorPool, this`DirectAllocatorPool
      modifies this`ComputeCommandQueue, this`CopyCommandQueue, this`DirectCommandQueue
      ensures Valid()
      ensures NextFenceValue(k) == next && AllocatorPool(k) == pool && CommandQueue(k) == queue
      ensures forall j :: j != k ==>
        && NextFenceValue(j) == old(NextFenceValue(j))
        && AllocatorPool(j) == old(AllocatorPool(j))
        && CommandQueue(j) == old(CommandQueue(j))
    {
      match k
      case ComputeQueue =>
        NextComputeFenceValue, ComputeAllocatorPool, ComputeCommandQueue := next, pool, queue;
      case CopyQueue =>
        NextCopyFenceValue, CopyAllocatorPool, CopyCommandQueue := next, pool, queue;
      case DirectQueue =>
        NextDirectFenceValue, DirectAllocatorPool, DirectCommandQueue := next, pool, queue;
    }

    /**
     * The private `ExecuteCommandLists`: routes by the first list's type and
     * rejects a type that has no queue before anything changes.
     */
    method SubmitCommandLists(commandLists: seq<CompiledCommandList>) returns (r: Result<int, Error>)
      requires Valid()
      requires |commandLists| > 0
      modifies this`NextComputeFenceValue, this`NextCopyFenceValue, this`NextDirectFenceValue
      modifies this`ComputeAllocatorPool, this`CopyAllocatorPool, this`DirectAllocatorPool
      modifies this`ComputeCommandQueue, this`CopyCommandQueue, this`DirectCommandQueue
      ensures Valid()
      ensures QueueOf(commandLists[0].listType).None? ==> r == Err(NotSupported) && unchanged(this)
      ensures QueueOf(commandLists[0].listType).Some? ==>
        r.Ok? && SubmittedTo(QueueOf(commandLists[0].listType).value, commandLists, r.value)
      ensures forall j :: CompletedValue(j) == old(CompletedValue(j))
      ensures EventRegistrations == old(EventRegistrations)
    {
      var k: QueueKind;
      match commandLists[0].listType {
        case Compute => k := ComputeQueue;
        case Copy => k := CopyQueue;
        case Direct => k := DirectQueue;
        case Bundle => return Err(NotSupported);
      }
      var fenceValue := SubmitToQueue(k, commandLists);
      r := Ok(fenceValue);
    }

    /**
     * The rest of the private `ExecuteCommandLists`, once queue kind `k` is
     * chosen: takes its next fence value (post-incrementing the counter),
     * releases every allocator into its pool tagged with that value, submits
     * the batch of native lists, then signals the fence with the value.
     */
    method SubmitToQueue(k: QueueKind, commandLists: seq<CompiledCommandList>) returns (fenceValue: int)
      requires Valid()
      modifies this`NextComputeFenceValue, this`NextCopyFenceValue, this`NextDirectFenceValue
      modifies this`ComputeAllocatorPool, this`CopyAllocatorPool, this`DirectAllocatorPool
      modifies this`ComputeCommandQueue, this`CopyCommandQueue, this`DirectCommandQueue
      ensures Valid()
      ensures SubmittedTo(k, commandLists, fenceValue)
    {
      assert QueueValid(k);
      fenceValue := NextFenceValue(k);
      var nativeCommandLists, pool := ReleaseAllocators(commandLists, fenceValue, AllocatorPool(k));
      var queue := CommandQueue(k) + [Execute(nativeCommandLists[..])] + [Signal(fenceValue)];
      assert Execute(nativeCommandLists[..]) == Execute(NativeLists(commandLists));
      SubmissionKeepsHistory(fenceValue, CompletedValue(k), AllocatorPool(k), CommandQueue(k), commandLists);
      UpdateQueueState(k, PostIncrement(fenceValue), pool, queue);
    }

    /** `fence.CompletedValue >= fenceValue`. */
    function IsFenceComplete(k: QueueKind, fenceValue: int): bool
      reads this`ComputeFenceCompletedValue, this`CopyFenceCompletedValue, this`DirectFenceCompletedValue
    {
      CompletedValue(k) >= fenceValue
    }

    /**
     * The GPU, outside the CPU's control, reaching a signal it has been
     * given: the fence's completed value rises to that signalled value.
     */
    method AdvanceFence(k: QueueKind, value: int)
      requires Valid()
      requires CompletedValue(k) <= value && Signalled(CommandQueue(k), value)
      modifies this`ComputeFenceCompletedValue, this`CopyFenceCompletedValue, this`DirectFenceCompletedValue
      ensures Valid()
      ensures CompletedValue(k) == value
      ensures forall j :: j != k ==> CompletedValue(j) == old(CompletedValue(j))
      ensures forall j ::
        && NextFenceValue(j) == old(NextFenceValue(j))
        && AllocatorPool(j) == old(AllocatorPool(j))
        && CommandQueue(j) == old(CommandQueue(j))
    {
      CompletionKeepsHistory(NextFenceValue(k), CompletedValue(k), AllocatorPool(k), CommandQueue(k), value);
      match k
      case ComputeQueue => ComputeFenceCompletedValue := value;
      case CopyQueue => CopyFenceCompletedValue := value;
      case DirectQueue => DirectFenceCompletedValue := value;
    }

    /**
     * `WaitForFence`: returns at once when the fence is complete; otherwise
     * registers the shared event for `fenceValue` and blocks until it fires.
     * `wake` is the completed value the fence has when the event fires; a
     * wait on a value that is never signalled would not return.
     */
    method WaitForFence(k: QueueKind, fenceValue: int, wake: int)
      requires Valid()
      requires !IsFenceComplete(k, fenceValue) ==> fenceValue <= wake && Signalled(CommandQueue(k), wake)
      modifies this`ComputeFenceCompletedValue, this`CopyFenceCompletedValue, this`DirectFenceCompletedValue
      modifies this`EventRegistrations
      ensures Valid()
      ensures IsFenceComplete(k, fenceValue)
      ensures old(IsFenceComplete(k, fenceValue)) ==>
        CompletedValue(k) == old(CompletedValue(k)) && EventRegistrations == old(EventRegistrations)
      ensures !old(IsFenceComplete(k, fenceValue)) ==>
        CompletedValue(k) == wake && EventRegistrations == old(EventRegistrations) + [EventRegistration(k, fenceValue)]
      ensures forall j :: j != k ==> CompletedValue(j) == old(CompletedValue(j))
      ensures unchanged(this`BundleAllocatorPool, this`Disposed)
      ensures forall j ::
        && NextFenceValue(j) == old(NextFenceValue(j))
        && AllocatorPool(j) == old(AllocatorPool(j))
        && CommandQueue(j) == old(CommandQueue(j))
    {
      if IsFenceComplete(k, fenceValue) {
        return;
      }
      EventRegistrations := EventRegistrations + [EventRegistration(k, fenceValue)];
      AdvanceFence(k, wake);
    }

    /**
     * `WaitForFenceAsync` without its task machinery: a finished task when
     * the fence is complete, otherwise a registration and a pending task.
     */
    method WaitForFenceAsync(k: QueueKind, fenceValue: int) returns (task: FenceTask)
      modifies this`EventRegistrations
      ensures old(IsFenceComplete(k, fenceValue)) ==>
        task == CompletedTask && EventRegistrations == old(EventRegistrations)
      ensures !old(IsFenceComplete(k, fenceValue)) ==>
        task == AwaitingFence(k, fenceValue)
        && EventRegistrations == old(EventRegistrations) + [EventRegistration(k, fenceValue)]
      ensures forall j ::
        && NextFenceValue(j) == old(NextFenceValue(j))
        && AllocatorPool(j) == old(AllocatorPool(j))
        && CommandQueue(j) == old(CommandQueue(j))
      ensures forall j :: CompletedValue(j) == old(CompletedValue(j))
      ensures unchanged(this`BundleAllocatorPool, this`Disposed)
    {
      if IsFenceComplete(k, fenceValue) {
        return CompletedTask;
      }
      EventRegistrations := EventRegistrations + [EventRegistration(k, fenceValue)];
      task := AwaitingFence(k, fenceValue);
    }

    /**
     * The public `ExecuteCommandLists(wait, commandLists)`: rejects an
     * unsupported first list before anything changes; otherwise submits and,
     * when `wait` is set, returns only once the signalled value is complete.
     */
    method ExecuteCommandLists(wait: bool, commandLists: seq<CompiledCommandList>) returns (r: Outcome<Error>)
      requires Valid()
      requires |commandLists| > 0
      modifies this`NextComputeFenceValue, this`NextCopyFenceValue, this`NextDirectFenceValue
      modifies this`ComputeAllocatorPool, this`CopyAllocatorPool, this`DirectAllocatorPool
      modifies this`ComputeCommandQueue, this`CopyCommandQueue, this`DirectCommandQueue
      modifies this`ComputeFenceCompletedValue, this`CopyFenceCompletedValue, this`DirectFenceCompletedValue
      modifies this`EventRegistrations
      ensures Valid()
      ensures QueueOf(commandLists[0].listType).None? ==> r == Fail(NotSupported) && unchanged(this)
      ensures QueueOf(commandLists[0].listType).Some? ==>
        var k := QueueOf(commandLists[0].listType).value;
        && r == Pass
        && SubmittedTo(k, commandLists, old(NextFenceValue(k)))
        && (wait ==> IsFenceComplete(k, old(NextFenceValue(k))))
        && (wait && old(IsFenceComplete(k, NextFenceValue(k))) ==>
              CompletedValue(k) == old(CompletedValue(k)) && EventRegistrations == old(EventRegistrations))
        && (wait && !old(IsFenceComplete(k, NextFenceValue(k))) ==>
              CompletedValue(k) == old(NextFenceValue(k))
              && EventRegistrations == old(EventRegistrations) + [EventRegistration(k, old(NextFenceValue(k)))])
        && (!wait ==> CompletedValue(k) == old(CompletedValue(k)) && EventRegistrations == old(EventRegistrations))
        && (forall j :: j != k ==> CompletedValue(j) == old(CompletedValue(j)))
    {
      var fence: QueueKind;
      match commandLists[0].listType {
        case Direct => fence := DirectQueue;
        case Compute => fence := ComputeQueue;
        case Copy => fence := CopyQueue;
        case Bundle => return Fail(NotSupported);
      }
      assert QueueOf(commandLists[0].listType) == Some(fence);
      var submitted := SubmitCommandLists(commandLists);
      var fenceValue := submitted.value;
      assert IsFenceComplete(fence, fenceValue) == old(IsFenceComplete(fence, NextFenceValue(fence)));
      if wait {
        WaitForFence(fence, fenceValue, fenceValue);
      }
      r := Pass;
    }

    /**
     * `ExecuteCommandListsAsync`: the same routing and submission, then the
     * task of `WaitForFenceAsync` for the value just signalled, which is a
     * pending one unless the fence had already passed that value (before
     * the counter wraps it never has: `CompletionOnlyForIssuedValues`).
     */
    method ExecuteCommandListsAsync(commandLists: seq<CompiledCommandList>) returns (r: Result<FenceTask, Error>)
      requires Valid()
      requires |commandLists| > 0
      modifies this`NextComputeFenceValue, this`NextCopyFenceValue, this`NextDirectFenceValue
      modifies this`ComputeAllocatorPool, this`CopyAllocatorPool, this`DirectAllocatorPool
      modifies this`ComputeCommandQueue, this`CopyCommandQueue, this`DirectCommandQueue
      modifies this`EventRegistrations
      ensures Valid()
      ensures QueueOf(commandLists[0].listType).None? ==> r == Err(NotSupported) && unchanged(this)
      ensures QueueOf(commandLists[0].listType).Some? ==>
        var k := QueueOf(commandLists[0].listType).value;
        && r.Ok?
        && SubmittedTo(k, commandLists, old(NextFenceValue(k)))
        && (forall j :: CompletedValue(j) == old(CompletedValue(j)))
        && (old(IsFenceComplete(k, NextFenceValue(k))) ==>
              r.value == CompletedTask && EventRegistrations == old(EventRegistrations))
        && (!old(IsFenceComplete(k, NextFenceValue(k))) ==>
              r.value == AwaitingFence(k, old(NextFenceValue(k)))
              && EventRegistrations == old(EventRegistrations) + [EventRegistration(k, old(NextFenceValue(k)))])
    {
      var fence: QueueKind;
      match commandLists[0].listType {
        case Direct => fence := DirectQueue;
        case Compute => fence := ComputeQueue;
        case Copy => fence := CopyQueue;
        case Bundle => return Err(NotSupported);
      }
      assert QueueOf(commandLists[0].listType) == Some(fence);
      var submitted := SubmitCommandLists(commandLists);
      var fenceValue := submitted.value;
      assert IsFenceComplete(fence, fenceValue) == old(IsFenceComplete(fence, NextFenceValue(fence)));
      var task := WaitForFenceAsync(fence, fenceValue);
      r := Ok(task);
    }

    /**
     * The `NativeDirect3D11Device` getter: creates the Direct3D 11 device on
     * first use and hands back the same one afterwards.
     */
    method NativeDirect3D11Device()
      modifies this`Direct3D11DeviceCreated
      ensures Direct3D11DeviceCreated
    {
      if !Direct3D11DeviceCreated {
        Direct3D11DeviceCreated := true;
      }
    }

    /**
     * `Dispose`: signals the direct fence with the current (not incremented)
     * next value and queues a GPU-side wait for it; the CPU does not wait.
     * Then it releases the device's objects in the order the code writes,
     * the Direct3D 11 device only when it was created.
     */
    method Dispose()
      modifies this`DirectCommandQueue, this`Disposed
      ensures DirectCommandQueue == old(DirectCommandQueue) + [Signal(NextDirectFenceValue), Wait(NextDirectFenceValue)]
      ensures Disposed == old(Disposed) + DisposalOrderAsWritten(Direct3D11DeviceCreated)
    {
      DirectCommandQueue := DirectCommandQueue + [Signal(NextDirectFenceValue), Wait(NextDirectFenceValue)];
      Disposed := Disposed + DisposalOrderAsWritten(Direct3D11DeviceCreated);
    }
  }

  // ---------------------------------------------------------------- properties of the device state

  /**
   * Before queue `k`'s counter wraps, the values it has issued are 1, 2, ...
   * in order (strictly increasing, none repeated) and its next value is one
   * past the last of them.
   */
  lemma IssuedValuesAreConsecutive(d: GraphicsDevice, k: QueueKind)
    requires d.Valid()
    requires |SignalValues(d.CommandQueue(k))| < MaxLong
    ensures var signals := SignalValues(d.CommandQueue(k));
      && d.NextFenceValue(k) == |signals| + 1
      && (forall i :: 0 <= i < |signals| ==> signals[i] == i + 1)
      && (forall i, j :: 0 <= i < j < |signals| ==> signals[i] < signals[j])
  {
    assert d.QueueValid(k);
    HistoryBounds(d.NextFenceValue(k), d.CompletedValue(k), d.AllocatorPool(k), d.CommandQueue(k));
  }

  /**
   * Before queue `k`'s counter wraps, the fence is complete for every value
   * up to 0, and complete only for values already issued: the next value is
   * never complete, so no issued fence value is "complete" before it is used.
   */
  lemma CompletionOnlyForIssuedValues(d: GraphicsDevice, k: QueueKind, v: int)
    requires d.Valid()
    requires |SignalValues(d.CommandQueue(k))| < MaxLong
    ensures v <= 0 ==> d.IsFenceComplete(k, v)
    ensures d.IsFenceComplete(k, v) ==> v < d.NextFenceValue(k)
    ensures !d.IsFenceComplete(k, d.NextFenceValue(k))
  {
    assert d.QueueValid(k);
    HistoryBounds(d.NextFenceValue(k), d.CompletedValue(k), d.AllocatorPool(k), d.CommandQueue(k));
  }

  /**
   * Before queue `k`'s counter wraps, every allocator waiting in its pool is
   * tagged with a value already handed out and signalled on that queue.
   */
  lemma PoolTagsWereIssued(d: GraphicsDevice, k: QueueKind, e: PoolEntry)
    requires d.Valid()
    requires |SignalValues(d.CommandQueue(k))| < MaxLong
    requires e in d.AllocatorPool(k)
    ensures 1 <= e.fenceValue < d.NextFenceValue(k)
    ensures Signal(e.fenceValue) in d.CommandQueue(k)
  {
    assert d.QueueValid(k);
    HistoryBounds(d.NextFenceValue(k), d.CompletedValue(k), d.AllocatorPool(k), d.CommandQueue(k));
    var i :| 0 <= i < |d.AllocatorPool(k)| && d.AllocatorPool(k)[i] == e;
    SignalledIsSignalValue(d.CommandQueue(k), e.fenceValue);
  }
}
