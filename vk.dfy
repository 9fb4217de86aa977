/**
 * The Vulkan vocabulary the library works in: the enumerations it switches
 * on, opaque handles, the values that return proxies carry, and a device
 * that hands out fresh handles and keeps a log of what is created and
 * destroyed. Native calls are not modelled beyond that log: whatever the
 * driver would decide (a result code, an image count, a compiler log) is a
 * parameter of the operation that consumes it.
 */
module Vk {

  datatype Option<+T> = None | Some(value: T)

  /** An opaque native handle; 0 stands for VK_NULL_HANDLE. */
  type Handle = nat

  const NullHandle: Handle := 0

  /** The largest uint32_t, used by the library and Vulkan as a sentinel. */
  const Uint32Max: nat := 0xFFFF_FFFF

  datatype Format =
    | Undefined
    | B8G8R8A8Unorm
    | R8G8B8A8Unorm
    | R8G8B8A8Srgb
    | D32Sfloat
    | R32Sfloat
    | R32G32Sfloat
    | R32G32B32Sfloat
    | R32G32B32A32Sfloat
    | OtherFormat(code: nat)

  datatype ImageLayout =
    | LayoutUndefined
    | General
    | ColorAttachmentOptimal
    | DepthStencilAttachmentOptimal
    | DepthStencilReadOnlyOptimal
    | ShaderReadOnlyOptimal
    | TransferSrcOptimal
    | TransferDstOptimal
    | Preinitialized
    | PresentSrcKHR

  /** Single bits of VkShaderStageFlags, plus any combination the library passes through untouched. */
  datatype ShaderStage =
    | VertexStage
    | TessellationControlStage
    | TessellationEvaluationStage
    | GeometryStage
    | FragmentStage
    | ComputeStage
    | TaskStageEXT
    | MeshStageNV
    | RaygenStageNV
    | AnyHitStageNV
    | ClosestHitStageNV
    | MissStageNV
    | IntersectionStageNV
    | CallableStageNV
    | OtherStages(bits: nat)

  datatype DescriptorType =
    | SamplerDescriptor
    | CombinedImageSampler
    | SampledImage
    | StorageImage
    | UniformBuffer
    | StorageBuffer
    | InputAttachment

  /** The kinds of device object the library creates and destroys. */
  datatype Kind =
    | BufferObject
    | DeviceMemoryObject
    | ImageObject
    | ImageViewObject
    | SamplerObject
    | FramebufferObject
    | RenderPassObject
    | CommandPoolObject
    | DescriptorPoolObject
    | DescriptorSetObject
    | DescriptorSetLayoutObject
    | PipelineLayoutObject
    | PipelineObject
    | ShaderModuleObject
    | SemaphoreObject
    | FenceObject
    | SwapchainObject

  /** A native object: its kind and handle. */
  datatype Native = Native(kind: Kind, handle: Handle)

  /**
   * The value a return proxy carries: a single handle, a buffer with its
   * memory, an image with its view and memory, or the per-frame
   * synchronisation arrays of PresentSyncronization.
   */
  datatype Resource =
    | Object(kind: Kind, handle: Handle)
    | Buffer(buffer: Handle, memory: Handle)
    | Image(image: Handle, view: Handle, memory: Handle)
    | SyncSet(imageAvailable: seq<Handle>, renderFinished: seq<Handle>, inFlight: seq<Handle>)

  /** The value-initialised value (`T{}`) of the same C++ type as `r`: all handles null, all arrays empty. */
  function ZeroOf(r: Resource): Resource
  {
    match r
    case Object(k, _) => Object(k, NullHandle)
    case Buffer(_, _) => Buffer(NullHandle, NullHandle)
    case Image(_, _, _) => Image(NullHandle, NullHandle, NullHandle)
    case SyncSet(_, _, _) => SyncSet([], [], [])
  }

  /**
   * A logical device as far as the library can observe it: every creation
   * returns a handle never handed out before (the n-th creation gets handle
   * n, so none is null), and every destruction is logged in call order.
   */
  class Device {
    var created: seq<Native>
    var destroyed: seq<Resource>

    ghost predicate Valid()
      reads this
    {
      forall i :: 0 <= i < |created| ==> created[i].handle == i + 1
    }

    constructor ()
      ensures Valid() && created == [] && destroyed == []
    {
      created := [];
      destroyed := [];
    }

    /** Creates one object of the given kind (vkCreate*, vkAllocate*, vkGetSwapchainImagesKHR). */
    method Create(kind: Kind) returns (h: Handle)
      requires Valid()
      modifies this
      ensures Valid()
      ensures h == |old(created)| + 1
      ensures created == old(created) + [Native(kind, h)] && destroyed == old(destroyed)
    {
      h := |created| + 1;
      created := created + [Native(kind, h)];
    }

    /** Destroys a proxied value (vkDestroy*, vkFree*). */
    method Destroy(r: Resource)
      modifies this
      ensures destroyed == old(destroyed) + [r] && created == old(created)
    {
      destroyed := destroyed + [r];
    }
  }
}
