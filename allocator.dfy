/**
 * Buffers and images as composite device objects, and the linked device
 * allocator: a chain that creates one buffer or image per step, hands each
 * to the deallocator at once, and remembers the objects in creation order.
 */
module Allocation {
  import opened Vk
  import opened Deallocation
  import opened Sequences

  /**
   * buffer(): the buffer, then its memory. Creation errors are thrown by
   * the native wrapper, so the proxy never fails.
   */
  method CreateBuffer(device: Device) returns (p: DeviceReturnProxy)
    requires device.Valid()
    modifies device
    ensures device.Valid() && device.destroyed == old(device.destroyed)
    ensures var n := |old(device.created)|;
      p == Succeeded(Buffer(n + 1, n + 2)) &&
      device.created == old(device.created) + [Native(BufferObject, n + 1), Native(DeviceMemoryObject, n + 2)]
  {
    var b := device.Create(BufferObject);
    var m := device.Create(DeviceMemoryObject);
    p := Succeeded(Buffer(b, m));
  }

  /** image(): the image, then its memory, then its view; the proxy never fails. */
  method CreateImage(device: Device) returns (p: DeviceReturnProxy)
    requires device.Valid()
    modifies device
    ensures device.Valid() && device.destroyed == old(device.destroyed)
    ensures var n := |old(device.created)|;
      p == Succeeded(Image(n + 1, n + 3, n + 2)) &&
      device.created == old(device.created) + [Native(ImageObject, n + 1), Native(DeviceMemoryObject, n + 2), Native(ImageViewObject, n + 3)]
  {
    var i := device.Create(ImageObject);
    var m := device.Create(DeviceMemoryObject);
    var v := device.Create(ImageViewObject);
    p := Succeeded(Image(i, v, m));
  }

  /**
   * The buffer() overloads that upload data: the buffer's record is
   * deferred onto a fresh local queue, which travels with the buffer in a
   * composed proxy.
   */
  method FilledBuffer(device: Device) returns (p: ComposedReturnProxy<Resource>)
    requires device.Valid()
    modifies device
    ensures device.Valid() && device.destroyed == old(device.destroyed)
    ensures fresh(p) && fresh(p.queue) && !p.failed
    ensures p.value == Buffer(|old(device.created)| + 1, |old(device.created)| + 2)
    ensures p.queue.records == [Record(p.value)]
    ensures device.created == old(device.created) + [Native(BufferObject, p.value.buffer), Native(DeviceMemoryObject, p.value.memory)]
  {
    var dq := new DeallocationQueue([]);
    var bp := CreateBuffer(device);
    var buffer := bp.Defer(dq);
    p := new ComposedReturnProxy(buffer, dq.records);
  }

  /** The records of a list of objects, in order. */
  function RecordsOf(values: seq<Resource>): (rs: seq<Record>)
    ensures |rs| == |values|
    ensures forall i :: 0 <= i < |values| ==> rs[i] == Record(values[i])
  {
    if values == [] then [] else [Record(values[0])] + RecordsOf(values[1..])
  }

  lemma RecordsOfAppend(a: seq<Resource>, b: seq<Resource>)
    ensures RecordsOf(a + b) == RecordsOf(a) + RecordsOf(b)
  {
  }

  /**
   * The device objects made for a buffer or an image, in creation order: a
   * buffer, then its memory; an image, then its memory, then its view.
   */
  function CreatedBy(r: Resource): (ns: seq<Native>)
    ensures r.Buffer? ==> |ns| == 2 && ns[0].kind == BufferObject && ns[1].kind == DeviceMemoryObject
    ensures r.Image? ==> |ns| == 3 && ns[0].kind == ImageObject && ns[1].kind == DeviceMemoryObject && ns[2].kind == ImageViewObject
  {
    match r
    case Buffer(b, m) => [Native(BufferObject, b), Native(DeviceMemoryObject, m)]
    case Image(i, v, m) => [Native(ImageObject, i), Native(DeviceMemoryObject, m), Native(ImageViewObject, v)]
    case Object(k, h) => [Native(k, h)]
    case SyncSet(_, _, _) => []
  }

  /** The device objects made for a list of buffers and images, object after object. */
  function CreatedByAll(values: seq<Resource>): (ns: seq<Native>)
    ensures values == [] ==> ns == []
  {
    if values == [] then [] else CreatedBy(values[0]) + CreatedByAll(values[1..])
  }

  lemma {:induction false} CreatedByAllAppend(a: seq<Resource>, b: seq<Resource>)
    ensures CreatedByAll(a + b) == CreatedByAll(a) + CreatedByAll(b)
    decreases |a|
  {
    if a != [] {
      assert (a + b)[1..] == a[1..] + b;
      CreatedByAllAppend(a[1..], b);
      AppendAssoc(CreatedBy(a[0]), CreatedByAll(a[1..]), CreatedByAll(b));
    } else {
      assert a + b == b;
    }
  }

  /** What linked_device_allocator's conversion yields: the lone object, or the whole tuple. */
  datatype Unpacked = Single(value: Resource) | Tuple(values: seq<Resource>)

  datatype AllocationStep = BufferStep | ImageStep

  /** Whether an object has the shape one step makes. */
  predicate Made(step: AllocationStep, r: Resource)
  {
    match step
    case BufferStep => r.Buffer?
    case ImageStep => r.Image?
  }

  /**
   * linked_device_allocator: the objects made so far. Each step creates its
   * object, unwraps it into the deallocator immediately and returns a new
   * allocator with the object appended; the allocator it was called on is
   * left as it was.
   */
  datatype LinkedAllocator = LinkedAllocator(device: Device, dal: Deallocator, values: seq<Resource>)
  {
    /** image(): one more image. */
    method WithImage() returns (next: LinkedAllocator)
      requires device.Valid()
      modifies device, dal.deallocators
      ensures device.Valid() && device.destroyed == old(device.destroyed)
      ensures next.device == device && next.dal == dal
      ensures |next.values| == |values| + 1 && next.values == values + [next.values[|values|]]
      ensures next.values[|values|] == Image(|old(device.created)| + 1, |old(device.created)| + 3, |old(device.created)| + 2)
      ensures device.created == old(device.created) + CreatedBy(next.values[|values|])
      ensures dal.deallocators.records == old(dal.deallocators.records) + [Record(next.values[|values|])]
    {
      var p := CreateImage(device);
      var image := p.Unwrap(dal);
      next := LinkedAllocator(device, dal, values + [image]);
    }

    /** buffer(): one more buffer. */
    method WithBuffer() returns (next: LinkedAllocator)
      requires device.Valid()
      modifies device, dal.deallocators
      ensures device.Valid() && device.destroyed == old(device.destroyed)
      ensures next.device == device && next.dal == dal
      ensures |next.values| == |values| + 1 && next.values == values + [next.values[|values|]]
      ensures next.values[|values|] == Buffer(|old(device.created)| + 1, |old(device.created)| + 2)
      ensures device.created == old(device.created) + CreatedBy(next.values[|values|])
      ensures dal.deallocators.records == old(dal.deallocators.records) + [Record(next.values[|values|])]
    {
      var p := CreateBuffer(device);
      var buffer := p.Unwrap(dal);
      next := LinkedAllocator(device, dal, values + [buffer]);
    }

    /** One step of a chain: the object the step names. */
    method With(step: AllocationStep) returns (next: LinkedAllocator)
      requires device.Valid()
      modifies device, dal.deallocators
      ensures device.Valid() && device.destroyed == old(device.destroyed)
      ensures next.device == device && next.dal == dal
      ensures |next.values| == |values| + 1 && next.values == values + [next.values[|values|]]
      ensures Made(step, next.values[|values|])
      ensures device.created == old(device.created) + CreatedBy(next.values[|values|])
      ensures dal.deallocators.records == old(dal.deallocators.records) + [Record(next.values[|values|])]
    {
      if step == ImageStep {
        next := WithImage();
      } else {
        next := WithBuffer();
      }
    }

    /** The conversion operator: one object by itself, any other number as the tuple. */
    function Unpack(): (u: Unpacked)
      ensures u.Single? <==> |values| == 1
      ensures u.Single? ==> u.value == values[0]
      ensures u.Tuple? ==> u.values == values
    {
      if |values| == 1 then Single(values[0]) else Tuple(values)
    }
  }

  /** bind(device, properties, dal): an allocator with nothing made yet. */
  function Bind(device: Device, dal: Deallocator): (a: LinkedAllocator)
    ensures a.values == [] && a.device == device && a.dal == dal
  {
    LinkedAllocator(device, dal, [])
  }

  /**
   * A chain of steps from bind(): the i-th object has the shape of the i-th
   * step, the device has made exactly the objects' parts, object after
   * object, and the deallocator has received exactly the objects' records,
   * in creation order, each as soon as its object was made.
   */
  method Chain(device: Device, dal: Deallocator, steps: seq<AllocationStep>) returns (a: LinkedAllocator)
    requires device.Valid()
    modifies device, dal.deallocators
    ensures device.Valid() && device.destroyed == old(device.destroyed)
    ensures a.device == device && a.dal == dal
    ensures |a.values| == |steps| && forall i :: 0 <= i < |steps| ==> Made(steps[i], a.values[i])
    ensures dal.deallocators.records == old(dal.deallocators.records) + RecordsOf(a.values)
    ensures device.created == old(device.created) + CreatedByAll(a.values)
  {
    a := Bind(device, dal);
    var i := 0;
    while i < |steps|
      invariant 0 <= i <= |steps|
      invariant device.Valid() && device.destroyed == old(device.destroyed)
      invariant a.device == device && a.dal == dal
      invariant |a.values| == i && forall k :: 0 <= k < i ==> Made(steps[k], a.values[k])
      invariant dal.deallocators.records == old(dal.deallocators.records) + RecordsOf(a.values)
      invariant device.created == old(device.created) + CreatedByAll(a.values)
    {
      ghost var before := a.values;
      a := a.With(steps[i]);
      RecordsStep(old(dal.deallocators.records), before, a.values[i]);
      CreatedByAllAppend(before, [a.values[i]]);
      assert CreatedByAll([a.values[i]]) == CreatedBy(a.values[i]) + CreatedByAll([]);
      AppendAssoc(old(device.created), CreatedByAll(before), CreatedBy(a.values[i]));
      i := i + 1;
    }
  }

  /** One step of a chain: the new object's record follows the records of those made before it. */
  lemma RecordsStep(initial: seq<Record>, before: seq<Resource>, v: Resource)
    ensures (initial + RecordsOf(before)) + [Record(v)] == initial + RecordsOf(before + [v])
  {
    RecordsOfAppend(before, [v]);
    AppendAssoc(initial, RecordsOf(before), [Record(v)]);
  }
}
