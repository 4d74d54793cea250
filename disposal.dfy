/** The objects GraphicsDevice.Dispose releases, and the order it releases them in. */
module Disposal {

  /** The objects `Dispose` releases. */
  datatype Owned =
    | CommandListObject | CopyCommandListObject
    | DepthStencilViewAllocatorObject | RenderTargetViewAllocatorObject | ShaderResourceViewAllocatorObject
    | SamplerAllocatorObject | ShaderVisibleShaderResourceViewAllocatorObject | ShaderVisibleSamplerAllocatorObject
    | BundleAllocatorPoolObject | ComputeAllocatorPoolObject | CopyAllocatorPoolObject | DirectAllocatorPoolObject
    | ComputeQueueObject | CopyQueueObject | DirectQueueObject
    | ComputeFenceObject | CopyFenceObject | DirectFenceObject
    | DisposablesObject | FenceEventObject | Direct3D11DeviceObject | NativeDeviceObject

  /**
   * The lazily created Direct3D 11 device, released only when it exists
   * (`nativeDirect3D11Device?.Dispose()`).
   */
  function Direct3D11Entry(direct3D11Created: bool): (entry: seq<Owned>)
    ensures Direct3D11DeviceObject in entry <==> direct3D11Created
    ensures forall i :: 0 <= i < |entry| ==> entry[i] == Direct3D11DeviceObject
  {
    if direct3D11Created then [Direct3D11DeviceObject] else []
  }

  /** The `Dispose` sequence as GraphicsDevice.cs writes it. */
  function DisposalOrderAsWritten(direct3D11Created: bool): seq<Owned> {
    [ CommandListObject, CopyCommandListObject,
      DepthStencilViewAllocatorObject, RenderTargetViewAllocatorObject, ShaderResourceViewAllocatorObject,
      BundleAllocatorPoolObject, ComputeAllocatorPoolObject, CopyAllocatorPoolObject, DirectAllocatorPoolObject,
      ComputeQueueObject, CopyQueueObject, DirectQueueObject,
      ComputeFenceObject, DirectFenceObject, DirectFenceObject,
      DisposablesObject, FenceEventObject ]
    + Direct3D11Entry(direct3D11Created) + [NativeDeviceObject]
  }

  /**
   * As written, `Dispose` releases the direct fence twice in a row and
   * never releases the copy fence, the sampler allocator or either
   * shader-visible allocator.
   */
  lemma DisposalAsWrittenMissesObjects(direct3D11Created: bool)
    ensures var order := DisposalOrderAsWritten(direct3D11Created);
      && order[13] == order[14] == DirectFenceObject
      && CopyFenceObject !in order
      && SamplerAllocatorObject !in order
      && ShaderVisibleShaderResourceViewAllocatorObject !in order
      && ShaderVisibleSamplerAllocatorObject !in order
  {
  }

  /**
   * The `Dispose` sequence as evidently intended: the as-written order with
   * the three missing allocators after the other descriptor allocators and
   * the copy fence released between the compute and the direct fence.
   */
  function DisposalOrder(direct3D11Created: bool): seq<Owned> {
    [ CommandListObject, CopyCommandListObject,
      DepthStencilViewAllocatorObject, RenderTargetViewAllocatorObject, ShaderResourceViewAllocatorObject,
      SamplerAllocatorObject, ShaderVisibleShaderResourceViewAllocatorObject, ShaderVisibleSamplerAllocatorObject,
      BundleAllocatorPoolObject, ComputeAllocatorPoolObject, CopyAllocatorPoolObject, DirectAllocatorPoolObject,
      ComputeQueueObject, CopyQueueObject, DirectQueueObject,
      ComputeFenceObject, CopyFenceObject, DirectFenceObject,
      DisposablesObject, FenceEventObject ]
    + Direct3D11Entry(direct3D11Created) + [NativeDeviceObject]
  }

  /**
   * Every object the device owns is released (the Direct3D 11 device
   * exactly when it was created), and the native device last.
   */
  lemma DisposalReleasesEveryObject(direct3D11Created: bool, o: Owned)
    ensures o in DisposalOrder(direct3D11Created) <==> o != Direct3D11DeviceObject || direct3D11Created
    ensures DisposalOrder(direct3D11Created)[|DisposalOrder(direct3D11Created)| - 1] == NativeDeviceObject
  {
  }

  /** The slot `o` takes in `DisposalOrder` when the Direct3D 11 device was created. */
  function DisposalSlot(o: Owned): nat {
    match o
    case CommandListObject => 0
    case CopyCommandListObject => 1
    case DepthStencilViewAllocatorObject => 2
    case RenderTargetViewAllocatorObject => 3
    case ShaderResourceViewAllocatorObject => 4
    case SamplerAllocatorObject => 5
    case ShaderVisibleShaderResourceViewAllocatorObject => 6
    case ShaderVisibleSamplerAllocatorObject => 7
    case BundleAllocatorPoolObject => 8
    case ComputeAllocatorPoolObject => 9
    case CopyAllocatorPoolObject => 10
    case DirectAllocatorPoolObject => 11
    case ComputeQueueObject => 12
    case CopyQueueObject => 13
    case DirectQueueObject => 14
    case ComputeFenceObject => 15
    case CopyFenceObject => 16
    case DirectFenceObject => 17
    case DisposablesObject => 18
    case FenceEventObject => 19
    case Direct3D11DeviceObject => 20
    case NativeDeviceObject => 21
  }

  /**
   * No object is released twice: slots strictly increase along
   * `DisposalOrder` (a proof that is much cheaper than comparing entries).
   */
  lemma DisposalReleasesNothingTwice(direct3D11Created: bool)
    ensures var order := DisposalOrder(direct3D11Created);
      forall i, j :: 0 <= i < j < |order| ==> order[i] != order[j]
  {
    var order := DisposalOrder(direct3D11Created);
    var n := |order|;
    forall i | 0 <= i < n - 1
      ensures DisposalSlot(order[i]) < DisposalSlot(order[i + 1])
    {
    }
    forall i, j | 0 <= i < j < n
      ensures DisposalSlot(order[i]) < DisposalSlot(order[j])
    {
      var m := i;
      while m < j
        invariant i <= m <= j
        invariant DisposalSlot(order[i]) <= DisposalSlot(order[m])
        invariant m > i ==> DisposalSlot(order[i]) < DisposalSlot(order[m])
      {
        m := m + 1;
      }
    }
  }
}
