/**
 * The automatic deallocation system: a FIFO queue of destruction records,
 * the Deallocator that drains it when it goes out of scope, and the two
 * return proxies through which every creation helper hands back its value
 * and, on request, queues that value's destructor.
 *
 * A record is a closure over one value and the destructor for its type; the
 * model keeps the value and writes "running the record" as a logged
 * destruction on the device.
 */
module Deallocation {
  import opened Vk
  import opened Sequences

  /** A queued destructor, bound to the value it will destroy. */
  datatype Record = Record(value: Resource)

  /** The values the records destroy, in queue order. */
  function Released(records: seq<Record>): (vs: seq<Resource>)
    ensures |vs| == |records|
    ensures forall i :: 0 <= i < |records| ==> vs[i] == records[i].value
  {
    if records == [] then [] else [records[0].value] + Released(records[1..])
  }

  lemma {:induction false} ReleasedAppend(a: seq<Record>, b: seq<Record>)
    ensures Released(a + b) == Released(a) + Released(b)
  {
    if a == [] {
      assert a + b == b;
    } else {
      assert (a + b)[1..] == a[1..] + b;
      ReleasedAppend(a[1..], b);
    }
  }

  /** std::queue of destruction records. */
  class DeallocationQueue {
    var records: seq<Record>

    constructor (records: seq<Record>)
      ensures this.records == records
    {
      this.records := records;
    }

    method Push(r: Record)
      modifies this
      ensures records == old(records) + [r]
    {
      records := records + [r];
    }

    method Empty() returns (e: bool)
      ensures e <==> records == []
    {
      e := records == [];
    }

    method Front() returns (r: Record)
      requires records != []
      ensures r == records[0]
    {
      r := records[0];
    }

    method Pop()
      requires records != []
      modifies this
      ensures records == old(records)[1..]
    {
      records := records[1..];
    }
  }

  /** Owns the device-level destruction queue of one logical device. */
  class Deallocator {
    const device: Device
    const deallocators: DeallocationQueue

    constructor (device: Device)
      ensures this.device == device && fresh(deallocators) && deallocators.records == []
    {
      this.device := device;
      deallocators := new DeallocationQueue([]);
    }

    /**
     * The destructor: runs every queued record exactly once, oldest first,
     * and leaves the queue empty.
     */
    method Drop()
      modifies device, deallocators
      ensures device.destroyed == old(device.destroyed) + Released(old(deallocators.records))
      ensures device.created == old(device.created)
      ensures deallocators.records == []
    {
      ghost var pending := deallocators.records;
      ghost var k := 0;
      var empty := deallocators.Empty();
      while !empty
        invariant 0 <= k <= |pending|
        invariant deallocators.records == pending[k..]
        invariant device.destroyed == old(device.destroyed) + Released(pending[..k])
        invariant device.created == old(device.created)
        invariant empty <==> deallocators.records == []
        decreases |deallocators.records|
      {
        var r := deallocators.Front();
        device.Destroy(r.value);
        deallocators.Pop();
        assert r == pending[k] && pending[..k + 1] == pending[..k] + [r];
        ReleasedAppend(pending[..k], [r]);
        assert Released([r]) == [r.value];
        AppendAssoc(old(device.destroyed), Released(pending[..k]), [r.value]);
        k := k + 1;
        empty := deallocators.Empty();
      }
      assert pending[..k] == pending;
    }
  }

  /**
   * Return proxy for one device object. A failed proxy carries the
   * value-initialised value; the proxy has no spent state, so nothing stops
   * a second unwrap from queueing a second record.
   */
  datatype DeviceReturnProxy = DeviceReturnProxy(value: Resource, failed: bool)
  {
    /** Queues this value's destructor on `queue` unless the proxy failed. */
    method Defer(queue: DeallocationQueue) returns (v: Resource)
      modifies queue
      ensures failed ==> v == ZeroOf(value) && queue.records == old(queue.records)
      ensures !failed ==> v == value && queue.records == old(queue.records) + [Record(value)]
    {
      if failed {
        return ZeroOf(value);
      }
      queue.Push(Record(value));
      v := value;
    }

    /** Defer onto the deallocator's own queue. */
    method Unwrap(dal: Deallocator) returns (v: Resource)
      modifies dal.deallocators
      ensures failed ==> v == ZeroOf(value) && dal.deallocators.records == old(dal.deallocators.records)
      ensures !failed ==> v == value && dal.deallocators.records == old(dal.deallocators.records) + [Record(value)]
    {
      v := Defer(dal.deallocators);
    }
  }

  /** The proxy of a creation that succeeded. */
  function Succeeded(value: Resource): (p: DeviceReturnProxy)
    ensures !p.failed && p.value == value
  {
    DeviceReturnProxy(value, false)
  }

  /** The proxy `DeviceReturnProxy(true)` of a creation that failed: its value is left null. */
  function Failed(kind: Kind): (p: DeviceReturnProxy)
    ensures p.failed && p.value == Object(kind, NullHandle)
  {
    DeviceReturnProxy(Object(kind, NullHandle), true)
  }

  /** Without a spent state, deferring the same proxy twice queues two identical records. */
  method DeferTwice(p: DeviceReturnProxy, queue: DeallocationQueue) returns (first: Resource, second: Resource)
    requires !p.failed
    modifies queue
    ensures first == second == p.value
    ensures queue.records == old(queue.records) + [Record(p.value), Record(p.value)]
  {
    first := p.Defer(queue);
    second := p.Defer(queue);
  }

  /**
   * Return proxy for a value assembled from several device objects: it owns
   * a private queue with one record per object and hands the records over
   * when unwrapped or deferred. `zero` is the value-initialised T that a
   * failed proxy holds and returns, since a Dafny type parameter has no `T{}`.
   */
  class ComposedReturnProxy<T> {
    const value: T
    const failed: bool
    const queue: DeallocationQueue

    constructor (value: T, records: seq<Record>)
      ensures this.value == value && !failed
      ensures fresh(queue) && queue.records == records
    {
      this.value := value;
      failed := false;
      queue := new DeallocationQueue(records);
    }

    constructor Failure(zero: T)
      ensures value == zero && failed
      ensures fresh(queue) && queue.records == []
    {
      value := zero;
      failed := true;
      queue := new DeallocationQueue([]);
    }

    /**
     * Moves every record of the private queue, oldest first, to the back of
     * `target`, unless the proxy failed, in which case nothing moves.
     */
    method Defer(target: DeallocationQueue) returns (v: T)
      requires target != queue
      modifies queue, target
      ensures v == value
      ensures failed ==> queue.records == old(queue.records) && target.records == old(target.records)
      ensures !failed ==> target.records == old(target.records) + old(queue.records) && queue.records == []
    {
      if failed {
        return value;
      }
      ghost var pending := queue.records;
      ghost var k := 0;
      var empty := queue.Empty();
      while !empty
        invariant 0 <= k <= |pending|
        invariant queue.records == pending[k..]
        invariant target.records == old(target.records) + pending[..k]
        invariant empty <==> queue.records == []
        decreases |queue.records|
      {
        var r := queue.Front();
        target.Push(r);
        queue.Pop();
        assert pending[..k + 1] == pending[..k] + [r];
        k := k + 1;
        empty := queue.Empty();
      }
      assert pending[..k] == pending;
      v := value;
    }

    /** Defer onto the deallocator's own queue. */
    method Unwrap(dal: Deallocator) returns (v: T)
      requires dal.deallocators != queue
      modifies queue, dal.deallocators
      ensures v == value
      ensures failed ==> queue.records == old(queue.records) && dal.deallocators.records == old(dal.deallocators.records)
      ensures !failed ==> dal.deallocators.records == old(dal.deallocators.records) + old(queue.records) && queue.records == []
    {
      v := Defer(dal.deallocators);
    }
  }
}
