/**
 * descriptor_set_update: one descriptor write per binding, pointing at the
 * image or buffer information given for that binding.
 */
module Descriptors {
  import opened Vk
  import opened Pipelines

  /**
   * The information for one binding: an image (sampler, view, layout) or a
   * buffer range, each with the array element it was meant for.
   */
  datatype ElementInfo =
    | ImageElement(sampler: Handle, view: Handle, layout: ImageLayout, element: nat)
    | BufferElement(buffer: Handle, offset: nat, range: nat, element: nat)

  /** VkWriteDescriptorSet as the update fills it in. */
  datatype WriteDescriptorSet = WriteDescriptorSet(
    dstSet: Handle,
    dstBinding: nat,
    dstArrayElement: nat,
    descriptorCount: nat,
    descriptorType: DescriptorType,
    imageInfo: Option<ElementInfo>,
    bufferInfo: Option<ElementInfo>)

  /**
   * The write for one binding: it targets the binding's slot, count and
   * type in the set, always from array element 0, and points at exactly one
   * information record: the image one for image information, the buffer one
   * for buffer information.
   */
  function WriteFor(dset: Handle, binding: DescriptorSetLayoutBinding, info: ElementInfo): (w: WriteDescriptorSet)
    ensures w.dstSet == dset && w.dstBinding == binding.binding && w.dstArrayElement == 0
    ensures w.descriptorCount == binding.count && w.descriptorType == binding.descriptorType
    ensures w.imageInfo.Some? <==> info.ImageElement?
    ensures w.bufferInfo.Some? <==> info.BufferElement?
    ensures w.imageInfo.Some? ==> w.imageInfo.value == info
    ensures w.bufferInfo.Some? ==> w.bufferInfo.value == info
  {
    var blank := WriteDescriptorSet(dset, binding.binding, 0, binding.count, binding.descriptorType, None, None);
    match info
    case ImageElement(_, _, _, _) => blank.(imageInfo := Some(info))
    case BufferElement(_, _, _, _) => blank.(bufferInfo := Some(info))
  }

  /**
   * descriptor_set_update: the writes it hands to updateDescriptorSets, the
   * i-th built from the i-th binding and the i-th information record.
   */
  method DescriptorSetUpdate(dset: Handle, bindings: seq<DescriptorSetLayoutBinding>, infos: seq<ElementInfo>)
    returns (writes: seq<WriteDescriptorSet>)
    requires |bindings| == |infos|
    ensures |writes| == |bindings|
    ensures forall i :: 0 <= i < |writes| ==> writes[i] == WriteFor(dset, bindings[i], infos[i])
  {
    writes := [];
    var i := 0;
    while i < |bindings|
      invariant 0 <= i <= |bindings|
      invariant |writes| == i
      invariant forall k :: 0 <= k < i ==> writes[k] == WriteFor(dset, bindings[k], infos[k])
    {
      var binding := bindings[i];
      var w := WriteDescriptorSet(dset, binding.binding, 0, binding.count, binding.descriptorType, None, None);
      match infos[i] {
        case ImageElement(_, _, _, _) => w := w.(imageInfo := Some(infos[i]));
        case BufferElement(_, _, _, _) => w := w.(bufferInfo := Some(infos[i]));
      }
      writes := writes + [w];
      i := i + 1;
    }
  }

  /** The element an information record names never reaches the write. */
  lemma ElementIgnored(dset: Handle, binding: DescriptorSetLayoutBinding, info: ElementInfo)
    ensures WriteFor(dset, binding, info).dstArrayElement == 0
    ensures info.element > 0 ==> WriteFor(dset, binding, info).dstArrayElement != info.element
  {
  }
}
