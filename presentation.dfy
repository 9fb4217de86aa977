/**
 * Presentation: the per-frame synchronisation objects, and what acquiring
 * and presenting a swapchain image report for each native result code.
 *
 * The library is compiled with Vulkan-Hpp's default error handling: a call
 * whose result is not one of that call's success codes throws the matching
 * vk::SystemError subclass instead of returning. The model writes a call as
 * `Returned(result)` or `Threw(error)` and an operation's effect as
 * `Completed(value)` or `Propagated(error)` (an exception leaving the
 * function).
 */
module Presentation {
  import opened Vk
  import opened Deallocation

  datatype VkResult =
    | Success
    | NotReady
    | Timeout
    | SuboptimalKHR
    | ErrorOutOfDateKHR
    | ErrorSurfaceLostKHR
    | ErrorDeviceLost
    | ErrorOutOfHostMemory
    | ErrorOutOfDeviceMemory
    | ErrorFullScreenExclusiveModeLostEXT

  /** The result of a Vulkan-Hpp call that checks its result code. */
  datatype Call = Returned(result: VkResult) | Threw(error: VkResult)

  /** The effect of a library operation: a value, or an exception that escapes it. */
  datatype Outcome<T> = Completed(value: T) | Propagated(error: VkResult)

  /** Vulkan-Hpp's result check: the call's success codes are returned, every other code is thrown. */
  function CheckResult(result: VkResult, successCodes: seq<VkResult>): (c: Call)
    ensures c.Returned? <==> result in successCodes
    ensures c.Returned? ==> c.result == result
    ensures c.Threw? ==> c.error == result
  {
    if result in successCodes then Returned(result) else Threw(result)
  }

  /** The success codes of vkAcquireNextImageKHR and of vkQueuePresentKHR. */
  const AcquireSuccessCodes: seq<VkResult> := [Success, Timeout, NotReady, SuboptimalKHR]
  const PresentSuccessCodes: seq<VkResult> := [Success, SuboptimalKHR]

  datatype Status = Ok | Resize | Failed

  datatype SurfaceOperation = SurfaceOperation(status: Status, index: nat)

  /** What acquire_image reports, and whether it reset the frame's in-flight fence. */
  datatype Acquired = Acquired(op: SurfaceOperation, resetsFence: bool)

  /**
   * acquire_image's branches on the (result, image index) pair it receives:
   * out-of-date asks for a resize, any other result except success and
   * suboptimal is a failure with index 0, and only a usable image resets
   * the in-flight fence.
   */
  function AcquireBranches(result: VkResult, imageIndex: nat): (a: Acquired)
    ensures a.op.status == Resize <==> result == ErrorOutOfDateKHR
    ensures a.op.status == Ok <==> result == Success || result == SuboptimalKHR
    ensures a.resetsFence <==> a.op.status == Ok
    ensures a.op.index == (if a.op.status == Ok then imageIndex else 0)
  {
    if result == ErrorOutOfDateKHR then Acquired(SurfaceOperation(Resize, 0), false)
    else if result != Success && result != SuboptimalKHR then Acquired(SurfaceOperation(Failed, 0), false)
    else Acquired(SurfaceOperation(Ok, imageIndex), true)
  }

  /**
   * acquire_image as written: the checked acquireNextImageKHR throws
   * OutOfDateKHRError before the out-of-date branch can see the code.
   */
  function AcquireImageAsWritten(result: VkResult, imageIndex: nat): (o: Outcome<Acquired>)
    ensures result == ErrorOutOfDateKHR ==> o == Propagated(ErrorOutOfDateKHR)
  {
    match CheckResult(result, AcquireSuccessCodes)
    case Returned(r) => Completed(AcquireBranches(r, imageIndex))
    case Threw(e) => Propagated(e)
  }

  /** As written, acquire_image never reports eResize. */
  lemma AcquireImageAsWrittenNeverResizes(result: VkResult, imageIndex: nat)
    ensures AcquireImageAsWritten(result, imageIndex).Completed? ==>
      AcquireImageAsWritten(result, imageIndex).value.op.status != Resize
  {
  }

  /**
   * acquire_image with the out-of-date error caught, as present_image does:
   * out-of-date reports eResize, success and suboptimal give the image,
   * timeout and not-ready report eFailed, and every other error escapes.
   */
  function AcquireImage(result: VkResult, imageIndex: nat): (o: Outcome<Acquired>)
    ensures o == Completed(Acquired(SurfaceOperation(Resize, 0), false)) <==> result == ErrorOutOfDateKHR
    ensures o == Completed(Acquired(SurfaceOperation(Ok, imageIndex), true)) <==> result == Success || result == SuboptimalKHR
    ensures o == Completed(Acquired(SurfaceOperation(Failed, 0), false)) <==> result == Timeout || result == NotReady
    ensures o.Propagated? <==> result !in AcquireSuccessCodes && result != ErrorOutOfDateKHR
    ensures o.Propagated? ==> o.error == result
  {
    if result == ErrorOutOfDateKHR then Completed(AcquireBranches(result, imageIndex))
    else AcquireImageAsWritten(result, imageIndex)
  }

  /** Where the written acquire completes, the corrected one completes the same way. */
  lemma AcquireImageAgrees(result: VkResult, imageIndex: nat)
    ensures AcquireImageAsWritten(result, imageIndex).Completed? ==>
      AcquireImage(result, imageIndex) == AcquireImageAsWritten(result, imageIndex)
  {
  }

  /** The handles of one frame slot: PresentSyncronization::Frame. */
  datatype Frame = Frame(imageAvailable: Handle, renderFinished: Handle, inFlight: Handle)

  /** A proxied value that is a well-formed PresentSyncronization: three arrays of one length. */
  predicate IsSync(sync: Resource)
  {
    sync.SyncSet? && |sync.imageAvailable| == |sync.renderFinished| == |sync.inFlight|
  }

  /** PresentSyncronization::operator[]: the three handles of slot `index`. */
  function FrameAt(sync: Resource, index: nat): (f: Frame)
    requires IsSync(sync) && index < |sync.inFlight|
    ensures f.imageAvailable == sync.imageAvailable[index] && f.renderFinished == sync.renderFinished[index]
    ensures f.inFlight == sync.inFlight[index]
  {
    Frame(sync.imageAvailable[index], sync.renderFinished[index], sync.inFlight[index])
  }

  /**
   * The handles of a synchronisation set made by PresentSynchronization on a
   * device that had `base` objects: slot i holds the next three objects, in
   * the order image-available, render-finished, in-flight.
   */
  ghost predicate SlotsFrom(sync: Resource, base: nat)
  {
    IsSync(sync) &&
    forall i :: 0 <= i < |sync.inFlight| ==>
      sync.imageAvailable[i] == base + 3 * i + 1 && sync.renderFinished[i] == base + 3 * i + 2 &&
      sync.inFlight[i] == base + 3 * i + 3
  }

  /** Every slot of such a set has three distinct objects, and two different slots share none. */
  lemma SlotsDisjoint(sync: Resource, base: nat, i: nat, j: nat)
    requires SlotsFrom(sync, base) && i < |sync.inFlight| && j < |sync.inFlight|
    ensures var f := FrameAt(sync, i);
      f.imageAvailable != f.renderFinished && f.renderFinished != f.inFlight && f.imageAvailable != f.inFlight
    ensures i != j ==>
      var f, g := FrameAt(sync, i), FrameAt(sync, j);
      f.imageAvailable !in {g.imageAvailable, g.renderFinished, g.inFlight} &&
      f.renderFinished !in {g.imageAvailable, g.renderFinished, g.inFlight} &&
      f.inFlight !in {g.imageAvailable, g.renderFinished, g.inFlight}
  {
  }

  /**
   * present_image: waits on the slot's render-finished semaphore when a
   * slot is given, and reports eResize for an out-of-date swapchain, eOk
   * (index 0) otherwise; any other thrown error escapes.
   */
  function PresentImage(result: VkResult): (o: Outcome<SurfaceOperation>)
    ensures o == Completed(SurfaceOperation(Resize, 0)) <==> result == ErrorOutOfDateKHR
    ensures o == Completed(SurfaceOperation(Ok, 0)) <==> result in PresentSuccessCodes
    ensures o.Propagated? <==> result !in PresentSuccessCodes && result != ErrorOutOfDateKHR
    ensures o.Completed? ==> o.value.index == 0
  {
    match CheckResult(result, PresentSuccessCodes)
    case Returned(_) => Completed(SurfaceOperation(Ok, 0))
    case Threw(e) => if e == ErrorOutOfDateKHR then Completed(SurfaceOperation(Resize, 0)) else Propagated(e)
  }

  /** The semaphores present_image waits on. */
  function PresentWaitSemaphores(syncFrame: Option<Frame>): (ws: seq<Handle>)
    ensures |ws| <= 1
    ensures ws != [] <==> syncFrame.Some?
    ensures syncFrame.Some? ==> ws == [syncFrame.value.renderFinished]
  {
    if syncFrame.Some? then [syncFrame.value.renderFinished] else []
  }

  /**
   * present_syncronization: for each of `framesInFlight` slots, in slot
   * order, an image-available semaphore, a render-finished semaphore and a
   * fence (created signalled); the proxy never fails.
   */
  method PresentSynchronization(device: Device, framesInFlight: nat) returns (p: DeviceReturnProxy)
    requires device.Valid()
    modifies device
    ensures device.Valid() && device.destroyed == old(device.destroyed)
    ensures !p.failed && IsSync(p.value) && |p.value.inFlight| == framesInFlight
    ensures |device.created| == |old(device.created)| + 3 * framesInFlight
    ensures device.created[..|old(device.created)|] == old(device.created)
    ensures forall i :: 0 <= i < framesInFlight ==>
      device.created[|old(device.created)| + 3 * i] == Native(SemaphoreObject, p.value.imageAvailable[i]) &&
      device.created[|old(device.created)| + 3 * i + 1] == Native(SemaphoreObject, p.value.renderFinished[i]) &&
      device.created[|old(device.created)| + 3 * i + 2] == Native(FenceObject, p.value.inFlight[i])
    ensures SlotsFrom(p.value, |old(device.created)|)
  {
    var imageAvailable, renderFinished, inFlight := [], [], [];
    ghost var base := |device.created|;
    var i := 0;
    while i < framesInFlight
      invariant 0 <= i <= framesInFlight
      invariant |imageAvailable| == |renderFinished| == |inFlight| == i
      invariant device.Valid() && device.destroyed == old(device.destroyed)
      invariant |device.created| == base + 3 * i
      invariant device.created[..base] == old(device.created)
      invariant forall k :: 0 <= k < i ==>
        device.created[base + 3 * k] == Native(SemaphoreObject, imageAvailable[k]) &&
        device.created[base + 3 * k + 1] == Native(SemaphoreObject, renderFinished[k]) &&
        device.created[base + 3 * k + 2] == Native(FenceObject, inFlight[k])
    {
      var a := device.Create(SemaphoreObject);
      var r := device.Create(SemaphoreObject);
      var f := device.Create(FenceObject);
      imageAvailable, renderFinished, inFlight := imageAvailable + [a], renderFinished + [r], inFlight + [f];
      i := i + 1;
    }
    p := Succeeded(SyncSet(imageAvailable, renderFinished, inFlight));
    forall k | 0 <= k < i
      ensures imageAvailable[k] == base + 3 * k + 1 && renderFinished[k] == base + 3 * k + 2 && inFlight[k] == base + 3 * k + 3
    {
      assert device.created[base + 3 * k].handle == base + 3 * k + 1;
      assert device.created[base + 3 * k + 1].handle == base + 3 * k + 2;
      assert device.created[base + 3 * k + 2].handle == base + 3 * k + 3;
    }
  }
}
