/**
 * Host-side model of device arrays (Sources/CUDARuntime/Array.swift).
 *
 * Device memory is an `array<int>`. A DeviceArrayBuffer owns one allocation
 * and carries the strong reference count that Swift's ARC keeps for it; the
 * ghost set `holders` names the DeviceArray values that hold the reference,
 * so "the count is 1" provably means "no other array value shares it".
 * A DeviceArray object stands for one variable of the Swift struct type:
 * copying the value (`var b = a`, `DeviceArray(a)`) is the Copy constructor,
 * the end of the variable's lifetime is Release.
 */
module CUDARuntime {
  import opened Wrappers

  // ---------------------------------------------------------------------
  // Index arithmetic, shared by the three RandomAccessCollection conformances
  // (the buffer pointer, the buffer and the array)
  // ---------------------------------------------------------------------

  function StartIndex(): int { 0 }

  function EndIndex(count: int): int { count }

  function IndexAfter(i: int): int { i + 1 }

  function IndexBefore(i: int): int { i - 1 }

  /** The positions a forward traversal visits, from `i` by IndexAfter until `end`. */
  function Traversal(i: int, end: int): seq<int>
    decreases end - i
  {
    if i >= end then [] else [i] + Traversal(IndexAfter(i), end)
  }

  lemma {:induction false} TraversalFrom(i: int, end: int)
    requires i <= end
    ensures |Traversal(i, end)| == end - i
    ensures forall k :: 0 <= k < end - i ==> Traversal(i, end)[k] == i + k
    decreases end - i
  {
    if i < end {
      TraversalFrom(IndexAfter(i), end);
    }
  }

  /** Walking from startIndex to endIndex visits 0, 1, ..., count - 1 in order,
      and index(before:) undoes index(after:). */
  lemma IndicesOfCollection(count: nat)
    ensures Traversal(StartIndex(), EndIndex(count)) == seq(count, k => k)
    ensures forall i :: IndexBefore(IndexAfter(i)) == i
    ensures forall i :: IndexAfter(IndexBefore(i)) == i
  {
    TraversalFrom(StartIndex(), EndIndex(count));
  }

  // ---------------------------------------------------------------------
  // UnsafeMutableDeviceBufferPointer: a non-owning view of device memory
  // ---------------------------------------------------------------------

  datatype UnsafeMutableDeviceBufferPointer =
    UnsafeMutableDeviceBufferPointer(baseAddress: Option<array<int>>, count: int)

  /** init(start:count:) — a view with no start address is empty. */
  function BufferPointer(start: Option<array<int>>, count: int): (p: UnsafeMutableDeviceBufferPointer)
    ensures p.baseAddress == start
    ensures start.None? ==> p.count == 0
    ensures start.Some? ==> p.count == count
  {
    UnsafeMutableDeviceBufferPointer(start, if start.None? then 0 else count)
  }

  // ---------------------------------------------------------------------
  // DeviceArrayBuffer: one device allocation of `count` elements
  // ---------------------------------------------------------------------

  class DeviceArrayBuffer {
    const baseAddress: array<int>
    /** Fixed when the buffer is allocated; nothing assigns it afterwards. */
    const count: nat
    /** Strong references to this buffer (what isKnownUniquelyReferenced inspects). */
    var refs: nat
    /** The array values holding those references. */
    ghost var holders: set<DeviceArray>

    ghost predicate Valid()
      reads this, holders
    {
      && baseAddress.Length == count
      && refs == |holders|
      && forall h :: h in holders ==> h.buffer == this
    }

    /** init(capacity:) — device memory is allocated, not initialised. */
    constructor (capacity: nat)
      ensures Valid() && fresh(baseAddress)
      ensures count == capacity && refs == 0 && holders == {}
    {
      baseAddress := new int[capacity];
      count := capacity;
      refs := 0;
      holders := {};
    }

    /** init(_ other) — a new allocation holding a device-to-device copy. */
    constructor Clone(other: DeviceArrayBuffer)
      requires other.baseAddress.Length == other.count
      ensures Valid() && fresh(baseAddress)
      ensures count == other.count && baseAddress[..] == other.baseAddress[..]
      ensures refs == 0 && holders == {}
    {
      var a := new int[other.count];
      forall i | 0 <= i < other.count {
        a[i] := other.baseAddress[i];
      }
      baseAddress := a;
      count := other.count;
      refs := 0;
      holders := {};
    }

    /** init(_ elements) — allocate |elements| and copy them from the host, in order. */
    constructor FromHost(elements: seq<int>)
      ensures Valid() && fresh(baseAddress)
      ensures count == |elements| && baseAddress[..] == elements
      ensures refs == 0 && holders == {}
    {
      var a := new int[|elements|];
      forall i | 0 <= i < |elements| {
        a[i] := elements[i];
      }
      baseAddress := a;
      count := |elements|;
      refs := 0;
      holders := {};
    }

    /** Subscript get. */
    method Get(i: int) returns (x: int)
      requires 0 <= i < baseAddress.Length
      ensures x == baseAddress[i]
    {
      x := baseAddress[i];
    }

    /** Subscript set: writes the allocation in place, whoever shares it. */
    method Set(i: int, v: int)
      requires 0 <= i < baseAddress.Length
      modifies baseAddress
      ensures baseAddress[..] == old(baseAddress[..])[i := v]
    {
      baseAddress[i] := v;
    }
  }

  lemma OnlyHolder(s: set<DeviceArray>, x: DeviceArray)
    requires x in s && |s| == 1
    ensures s == {x}
  {
    var rest := s - {x};
    assert s == rest + {x};
    assert |rest| == 0;
  }

  // ---------------------------------------------------------------------
  // DeviceArray: a value type sharing its buffer until the first write
  // ---------------------------------------------------------------------

  class DeviceArray {
    var buffer: DeviceArrayBuffer

    ghost predicate Valid()
      reads this, buffer, buffer.holders
    {
      this in buffer.holders && buffer.Valid()
    }

    /** The elements, as the device holds them. */
    function Contents(): seq<int>
      reads this, buffer.baseAddress
    {
      buffer.baseAddress[..]
    }

    /** `count` is the buffer's count. */
    function Count(): nat
      reads this
    {
      buffer.count
    }

    lemma CountIsLength()
      requires Valid()
      ensures Count() == |Contents()|
    {
    }

    /** init(capacity:) */
    constructor (capacity: nat)
      ensures Valid() && fresh(buffer) && fresh(buffer.baseAddress)
      ensures Count() == capacity && buffer.holders == {this}
    {
      var b := new DeviceArrayBuffer(capacity);
      buffer := b;
      new;
      b.refs := 1;
      b.holders := {this};
    }

    /** init(fromHost:) and init(arrayLiteral:) */
    constructor FromHost(elements: seq<int>)
      ensures Valid() && fresh(buffer) && fresh(buffer.baseAddress)
      ensures Contents() == elements && Count() == |elements| && buffer.holders == {this}
    {
      var b := new DeviceArrayBuffer.FromHost(elements);
      buffer := b;
      new;
      b.refs := 1;
      b.holders := {this};
    }

    /** init(_ other) and plain assignment: share the buffer, copy nothing. */
    constructor Copy(other: DeviceArray)
      requires other.Valid()
      modifies other.buffer
      ensures Valid() && other.Valid()
      ensures buffer == other.buffer && Contents() == other.Contents() == old(other.Contents())
      ensures buffer.refs == old(other.buffer.refs) + 1
      ensures buffer.holders == old(other.buffer.holders) + {this}
    {
      buffer := other.buffer;
      new;
      buffer.refs := buffer.refs + 1;
      buffer.holders := buffer.holders + {this};
    }

    /** End of this value's lifetime: its strong reference is dropped. When the
        count reaches zero ARC runs the buffer's deinit, which frees the memory. */
    method Release()
      requires Valid()
      modifies buffer
      ensures buffer == old(buffer) && buffer.Valid()
      ensures buffer.refs == old(buffer.refs) - 1
      ensures buffer.holders == old(buffer.holders) - {this}
    {
      buffer.refs := buffer.refs - 1;
      buffer.holders := buffer.holders - {this};
    }

    /** cowBuffer: clone the buffer unless this value is its only holder. */
    method CowBuffer() returns (b: DeviceArrayBuffer)
      requires Valid()
      modifies this, buffer
      ensures Valid() && b == buffer
      ensures buffer.holders == {this} && buffer.refs == 1
      ensures Contents() == old(Contents())
      ensures old(buffer.refs) == 1 ==> buffer == old(buffer)
      ensures old(buffer.refs) != 1 ==>
        && fresh(buffer) && fresh(buffer.baseAddress)
        && old(buffer).Valid()
        && old(buffer).refs == old(buffer.refs) - 1
        && old(buffer).holders == old(buffer.holders) - {this}
      ensures forall h :: h in old(buffer.holders) && h != this ==>
        h.Valid() && h.Contents() == old(h.Contents())
    {
      if buffer.refs != 1 {
        var shared := buffer;
        var copy := new DeviceArrayBuffer.Clone(shared);
        shared.refs := shared.refs - 1;
        shared.holders := shared.holders - {this};
        buffer := copy;
        copy.refs := 1;
        copy.holders := {this};
      } else {
        OnlyHolder(buffer.holders, this);
      }
      b := buffer;
    }

    /** makeHostArray: copy the elements into a temporary host buffer and
        append them to an empty host array. */
    method MakeHostArray() returns (elements: seq<int>)
      requires Valid()
      ensures elements == Contents()
    {
      elements := [];
      var n := Count();
      var temp := new int[n];
      forall i | 0 <= i < n {
        temp[i] := buffer.baseAddress[i];
      }
      elements := elements + temp[..];
    }

    /** Subscript get: reads through the shared buffer, clones nothing. */
    method Get(i: int) returns (x: int)
      requires Valid() && 0 <= i < Count()
      ensures x == Contents()[i]
    {
      x := buffer.Get(i);
    }

    /** Subscript set: goes through cowBuffer, so no other value sees the write. */
    method Set(i: int, v: int)
      requires Valid() && 0 <= i < Count()
      modifies this, buffer, if buffer.refs == 1 then {buffer.baseAddress} else {}
      ensures Valid() && buffer.holders == {this}
      ensures Count() == old(Count())
      ensures Contents() == old(Contents())[i := v]
      ensures old(buffer.refs) == 1 ==> buffer == old(buffer)
      ensures old(buffer.refs) != 1 ==>
        && fresh(buffer) && fresh(buffer.baseAddress)
        && old(buffer).Valid()
        && old(buffer).refs == old(buffer.refs) - 1
        && old(buffer).holders == old(buffer.holders) - {this}
      ensures forall h :: h in old(buffer.holders) && h != this ==>
        h.Valid() && h.Contents() == old(h.Contents())
    {
      var b := CowBuffer();
      b.Set(i, v);
    }

    /** withUnsafeDeviceMutableBufferPointer hands out a view of the buffer as it
        is, shared or not: writes through it bypass the copy-on-write check. */
    method WithUnsafeDeviceMutableBufferPointer() returns (p: UnsafeMutableDeviceBufferPointer)
      requires Valid()
      ensures p.baseAddress == Some(buffer.baseAddress) && p.count == Count()
      ensures EndIndex(p.count) == |Contents()|
    {
      p := BufferPointer(Some(buffer.baseAddress), Count());
    }
  }

  /** Array.init(_ elementsOnDevice:) */
  method HostArray(elementsOnDevice: DeviceArray) returns (elements: seq<int>)
    requires elementsOnDevice.Valid()
    ensures elements == elementsOnDevice.Contents()
    ensures |elements| == elementsOnDevice.Count()
  {
    elements := elementsOnDevice.MakeHostArray();
  }

  /** Host -> device -> host gives back the same elements, in order. */
  method HostRoundTrip(s: seq<int>) returns (r: seq<int>)
    ensures r == s
  {
    var a := new DeviceArray.FromHost(s);
    r := HostArray(a);
  }

  /** A copy written through its subscript leaves the original untouched,
      and the original, now the only holder of its buffer, is then written
      in place. */
  method CopyOnWrite(s: seq<int>, i: nat, v: int, w: int) returns (untouched: seq<int>, original: seq<int>, copied: seq<int>, inPlace: bool)
    requires i < |s|
    ensures untouched == s
    ensures original == s[i := w]
    ensures copied == s[i := v]
    ensures inPlace
  {
    var a := new DeviceArray.FromHost(s);
    var b := new DeviceArray.Copy(a);
    b.Set(i, v);
    untouched := a.MakeHostArray();
    var before := a.buffer;
    a.Set(i, w);
    inPlace := a.buffer == before;
    original := a.MakeHostArray();
    copied := b.MakeHostArray();
  }

  /** Once the other holder is released, a write happens in place, without a clone. */
  method WriteAfterRelease(s: seq<int>, i: nat, v: int) returns (contents: seq<int>, inPlace: bool)
    requires i < |s|
    ensures contents == s[i := v]
    ensures inPlace
  {
    var a := new DeviceArray.FromHost(s);
    var b := new DeviceArray.Copy(a);
    b.Release();
    var before := a.buffer;
    a.Set(i, v);
    inPlace := a.buffer == before;
    contents := a.MakeHostArray();
  }
}
