/** A named, fixed-capacity shared memory region. The mapped view is an
    array that every process mapping the region sees (two `SharedMemory`
    objects may hold the same array); `Write` stores one frame at its start
    and `Read` loads it back. Nothing serialises writers and readers. */
module SharedMemories {

  import opened Packets
  import opened Handles

  /** The region after a frame has been stored at its start: the frame's
      bytes, then the region's old bytes beyond it. */
  function StoreFrame(region: seq<uint8>, p: Packet): (r: seq<uint8>)
    requires HeaderSize + |p.data| <= |region|
    ensures |r| == |region|
    ensures r[..HeaderSize + |p.data|] == Frame(p)
    ensures r[HeaderSize + |p.data|..] == region[HeaderSize + |p.data|..]
  {
    Frame(p) + region[HeaderSize + |p.data|..]
  }

  /** The region holds a header block and the payload it announces. */
  predicate Loadable(region: seq<uint8>) {
    HeaderSize <= |region| &&
    HeaderSize + DecodeHeader(region[..HeaderSize]).length as int <= |region|
  }

  /** The packet whose frame starts the region. */
  function LoadFrame(region: seq<uint8>): (p: Packet)
    requires Loadable(region)
    ensures WellFormed(p) && HeaderSize + |p.data| <= |region|
    ensures region[..HeaderSize + |p.data|] == Frame(p)
  {
    var h := DecodeHeader(region[..HeaderSize]);
    HeaderBytesRoundTrip(region[..HeaderSize]);
    Packet(h, region[HeaderSize..HeaderSize + h.length as int])
  }

  /** A stored well-formed packet loads back unchanged, whatever the region
      held before. */
  lemma RegionRoundTrip(region: seq<uint8>, p: Packet)
    requires WellFormed(p) && HeaderSize + |p.data| <= |region|
    ensures Loadable(StoreFrame(region, p)) && LoadFrame(StoreFrame(region, p)) == p
  {
    var stored := StoreFrame(region, p);
    assert stored[..HeaderSize] == EncodeHeader(p.header);
    HeaderRoundTrip(p.header);
    assert stored[HeaderSize..HeaderSize + |p.data|] == p.data;
  }

  /** The capacity check `Write` applies: the announced payload length
      against `memory_size_`, with no room kept for the header and no look
      at the payload actually copied. */
  predicate WriteAccepted(p: Packet, capacity: uint32): (r: bool)
    ensures WellFormed(p) && HeaderSize + |p.data| <= capacity as int ==> r
  {
    p.header.length <= capacity
  }

  /** Whatever the capacity, a well-formed packet passes that check yet needs
      12 more bytes than the region has. */
  lemma AcceptedWriteOverruns(capacity: uint32)
    ensures exists p: Packet :: WriteAccepted(p, capacity) && WellFormed(p) &&
                                HeaderSize + |p.data| > capacity as int
  {
    var p := Packet(PacketHeader(Tag(Data), capacity, 0), seq(capacity as int, _ => 0));
    assert WriteAccepted(p, capacity) && WellFormed(p);
  }

  /** Whatever the capacity that holds a header, some region of that size
      announces more payload than it holds: a stale or corrupt length that
      an unchecked `Read` copies past the end of the view. */
  lemma UncheckedReadOverruns(capacity: uint32)
    requires HeaderSize <= capacity as int
    ensures exists region: seq<uint8> :: |region| == capacity as int && !Loadable(region)
  {
    var h := PacketHeader(Tag(Data), capacity, 0);
    var region := EncodeHeader(h) + seq(capacity as int - HeaderSize, _ => 0);
    assert region[..HeaderSize] == EncodeHeader(h);
    HeaderRoundTrip(h);
    assert !Loadable(region);
  }

  class SharedMemory {
    /** memory_handle_ */
    var handle: Handle
    /** memory_ptr_: the mapped view, null when nothing is mapped. */
    var view: array?<uint8>
    /** memory_size_ */
    var size: uint32

    /** `size` does not overstate the mapped view: true after `Create`, and
        after `Open` when the reported size is right. */
    predicate SizeWithinView()
      reads this
    {
      view != null ==> size as int <= view.Length
    }

    constructor()
      ensures handle == InvalidHandle && view == null && size == 0
    {
      handle, view, size := InvalidHandle, null, 0;
    }

    /** `mapping` is what CreateFileMappingW returned and `mapped` whether
        MapViewOfFile then succeeded; its result is not checked. When a
        region of that name already exists, `existing` is its memory: the
        call maps it as it is, and `size` is set to the requested size
        whatever that region's own size. Otherwise `existing` is null and the
        new page-file-backed region is zero-filled. */
    method Create(mapping: Handle, requested: uint32, existing: array?<uint8>, mapped: bool) returns (ok: bool)
      modifies this
      ensures handle == mapping
      ensures ok == (mapping != InvalidHandle)
      ensures ok ==> size == requested
      ensures ok && mapped && existing == null ==>
                view != null && fresh(view) && view.Length == requested as int &&
                forall i :: 0 <= i < view.Length ==> view[i] == 0
      ensures ok && mapped && existing != null ==> view == existing
      ensures ok && !mapped ==> view == null
      ensures !ok ==> view == old(view) && size == old(size)
    {
      handle := mapping;
      ok := false;
      if handle != InvalidHandle {
        if !mapped {
          view := null;
        } else if existing != null {
          view := existing;
        } else {
          view := new uint8[requested](_ => 0);
        }
        size := requested;
        ok := true;
      }
    }

    /** `mapping` is what OpenFileMappingW returned, `existing` the view
        MapViewOfFile gave (null on failure) and `reportedSize` what
        GetFileSize reported; nothing ties that size to the view. */
    method Open(mapping: Handle, existing: array?<uint8>, reportedSize: uint32) returns (ok: bool)
      modifies this
      ensures handle == mapping
      ensures ok == (mapping != InvalidHandle && existing != null)
      ensures view == if mapping != InvalidHandle then existing else old(view)
      ensures size == if ok then reportedSize else old(size)
    {
      handle := mapping;
      ok := false;
      if handle != InvalidHandle {
        view := existing;
        if view != null {
          size := reportedSize;
          ok := true;
        }
      }
    }

    /** Copies the header block, then the payload, to the start of the view
        when the announced length is at most `size`. The copies stay inside
        the view only when it holds 12 + |data| bytes, which the check does
        not ensure; that is this method's precondition. */
    method Write(p: Packet) returns (ok: bool)
      requires WriteAccepted(p, size) ==> view != null && HeaderSize + |p.data| <= view.Length
      modifies view
      ensures ok == WriteAccepted(p, size)
      ensures view != null && ok ==> view[..] == StoreFrame(old(view[..]), p)
      ensures view != null && !ok ==> view[..] == old(view[..])
    {
      ok := false;
      if p.header.length <= size {
        var header := EncodeHeader(p.header);
        forall i | 0 <= i < HeaderSize {
          view[i] := header[i];
        }
        forall i | 0 <= i < |p.data| {
          view[HeaderSize + i] := p.data[i];
        }
        assert view[..] == StoreFrame(old(view[..]), p);
        ok := true;
      }
    }

    /** Copies the header block out, then as many payload bytes as it
        announces; it never fails and checks nothing, so the copies stay
        inside the view only when the view is loadable. */
    method Read() returns (ok: bool, packet: Packet)
      requires view != null && Loadable(view[..])
      ensures ok && packet == LoadFrame(view[..])
    {
      var header := DecodeHeader(view[..HeaderSize]);
      packet := Packet(header, view[HeaderSize..HeaderSize + header.length as int]);
      ok := true;
    }

    /** `Write` with the capacity check on the bytes actually copied,
        12 + |data|, against `size`, and refusing when nothing is mapped. */
    method WriteChecked(p: Packet) returns (ok: bool)
      requires SizeWithinView()
      modifies view
      ensures ok == (view != null && HeaderSize + |p.data| <= size as int)
      ensures view != null && ok ==> view[..] == StoreFrame(old(view[..]), p)
      ensures view != null && !ok ==> view[..] == old(view[..])
    {
      ok := false;
      if view != null && HeaderSize + |p.data| <= size as int {
        var header := EncodeHeader(p.header);
        forall i | 0 <= i < HeaderSize {
          view[i] := header[i];
        }
        forall i | 0 <= i < |p.data| {
          view[HeaderSize + i] := p.data[i];
        }
        assert view[..] == StoreFrame(old(view[..]), p);
        ok := true;
      }
    }

    /** `Read` that fails, leaving the packet as it was, unless the first
        `size` bytes of the view hold a header and the payload it
        announces. */
    method ReadChecked(prior: Packet) returns (ok: bool, packet: Packet)
      requires SizeWithinView()
      ensures ok == (view != null && Loadable(view[..size]))
      ensures ok ==> packet == LoadFrame(view[..size])
      ensures !ok ==> packet == prior
    {
      ok, packet := false, prior;
      if view == null || (size as int) < HeaderSize {
        return;
      }
      ghost var region := view[..size];
      assert region[..HeaderSize] == view[..HeaderSize];
      var header := DecodeHeader(view[..HeaderSize]);
      if HeaderSize + header.length as int <= size as int {
        packet := Packet(header, view[HeaderSize..HeaderSize + header.length as int]);
        assert packet.data == region[HeaderSize..HeaderSize + header.length as int];
        ok := true;
      }
    }

    /** Unmaps a mapped view and closes an open mapping, forgetting each,
        and zeroes the size; a second call releases nothing. */
    method Close() returns (calls: seq<OsCall>)
      modifies this
      ensures handle == InvalidHandle && view == null && size == 0
      ensures calls == (if old(view) != null then [UnmapViewOfFile(old(view))] else [])
                     + (if old(handle) != InvalidHandle then [CloseHandle(old(handle))] else [])
    {
      calls := [];
      if view != null {
        calls := calls + [UnmapViewOfFile(view)];
        view := null;
      }
      if handle != InvalidHandle {
        calls := calls + [CloseHandle(handle)];
        handle := InvalidHandle;
      }
      size := 0;
    }
  }
}
