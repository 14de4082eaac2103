/** src/files.rs. */
module Files {
  import opened Types
  import opened Kernel
  import opened Ring
  import opened Shared

  function OpenAtEntry(dirfd: int, path: seq<Byte>, fileFlags: int, mode: nat, addr: Addr, sqeFlags: U8, id: nat): Sqe {
    Sqe(OpenAt, [dirfd, fileFlags, mode], Some(addr), |path| + 1, TruncateFlags(sqeFlags), id)
  }

  method PrepOpenAt(ring: TheIoRing, dirfd: int, filePath: seq<Byte>, userData: nat, fileFlags: int, mode: U32,
                    sqeFlags: U8, env: Enter) returns (r: Result<()>)
    requires ring.Ready()
    modifies ring
    ensures ring.Ready()
    // the copy is the path with its terminating zero
    ensures OwnedOutcome(ring.config, old(ring.View()), ring.View(), env, Refusal(ring.supported, OpenAt, sqeFlags),
                         OpenAtEntry(dirfd, filePath, fileFlags, mode, old(ring.nextAddr), sqeFlags, userData),
                         filePath + [0], r)
    ensures NeverReaps(old(ring.log), ring.log)
    ensures IdsKept(ring.config, old(ring.log), old(ring.View()),
                    OpenAtEntry(dirfd, filePath, fileFlags, mode, old(ring.nextAddr), sqeFlags, userData), ring.log)
    ensures r.Ok? ==>
      AskedWith(ring.View(), OpenAt, [dirfd, fileFlags, mode], sqeFlags % 128, userData, |filePath| + 1,
                OnePath(old(ring.nextAddr)))
  {
    var e := OpenAtEntry(dirfd, filePath, fileFlags, mode, ring.nextAddr, sqeFlags, userData);
    hide OwnedOutcome;
    if OpenAt !in ring.supported {
      RefusedOutcome(ring.config, ring.View(), env, NotSupported, e, filePath + [0]);
      return Err(NotSupported);
    }
    if SkipsSuccess(TruncateFlags(sqeFlags)) {
      RefusedOutcome(ring.config, ring.View(), env, SkipSuccessOnOwnedData, e, filePath + [0]);
      return Err(SkipSuccessOnOwnedData);
    }
    var ownedPath := filePath;
    ownedPath := ownedPath + [0];
    r := PushOwned(ring, e, ownedPath, env);
    OwnedAsked(ring.config, old(ring.View()), ring.View(), env, None, e, ownedPath, r);
  }

  function ReadEntry(fd: int, maxSize: U32, offset: U64, addr: Addr, sqeFlags: U8, id: nat): Sqe {
    Sqe(Kind.Read, [fd, offset], Some(addr), maxSize, TruncateFlags(sqeFlags), id)
  }

  method PrepRead(ring: TheIoRing, fd: int, maxSize: U32, offset: I64, userData: nat, sqeFlags: U8, env: Enter)
    returns (r: Result<()>)
    requires ring.Ready()
    modifies ring
    ensures ring.Ready()
    ensures OwnedOutcome(ring.config, old(ring.View()), ring.View(), env, Refusal(ring.supported, Kind.Read, sqeFlags),
                         ReadEntry(fd, maxSize, AsU64(offset), old(ring.nextAddr), sqeFlags, userData),
                         Zeros(maxSize), r)
    ensures NeverReaps(old(ring.log), ring.log)
    ensures IdsKept(ring.config, old(ring.log), old(ring.View()),
                    ReadEntry(fd, maxSize, AsU64(offset), old(ring.nextAddr), sqeFlags, userData), ring.log)
    ensures r.Ok? ==>
      AskedWith(ring.View(), Kind.Read, [fd, if offset >= 0 then offset else offset + U64_LIMIT], sqeFlags % 128,
                userData, maxSize, Buffer(old(ring.nextAddr)))
  {
    var e := ReadEntry(fd, maxSize, AsU64(offset), ring.nextAddr, sqeFlags, userData);
    hide OwnedOutcome;
    var buf := Zeros(maxSize);
    if Kind.Read !in ring.supported {
      RefusedOutcome(ring.config, ring.View(), env, NotSupported, e, buf);
      return Err(NotSupported);
    }
    if SkipsSuccess(TruncateFlags(sqeFlags)) {
      RefusedOutcome(ring.config, ring.View(), env, SkipSuccessOnOwnedData, e, buf);
      return Err(SkipSuccessOnOwnedData);
    }
    r := PushOwned(ring, e, buf, env);
    OwnedAsked(ring.config, old(ring.View()), ring.View(), env, None, e, buf, r);
  }

  /** The checks of a write or send: the early ones, then the bounds of the slice. */
  function WriteRefusal(supported: set<Kind>, kind: Kind, sqeFlags: U8, len: nat, size: U64, offset: U64)
    : (e: Option<Error>)
    requires len < BIT_63
    ensures Refusal(supported, kind, sqeFlags).Some? ==> e == Refusal(supported, kind, sqeFlags)
    ensures e == Some(BadBounds) <==> Refusal(supported, kind, sqeFlags).None? && offset + size > len
    ensures e.None? <==> Refusal(supported, kind, sqeFlags).None? && offset + size <= len
  {
    if Refusal(supported, kind, sqeFlags).Some? then Refusal(supported, kind, sqeFlags)
    else if CheckWriteBuffer(len, size, offset).Err? then Some(BadBounds)
    else None
  }

  /** The slice to send, when there is one. */
  function Slice(data: seq<Byte>, size: nat, offset: nat): (s: seq<Byte>) {
    if offset + size <= |data| then data[offset..offset + size] else []
  }

  /** `vec.len() as u32`: the kernel is never told more than the ring owns, and is told all of
      it below 2^32 bytes. */
  function KernelLength(len: nat): (n: U32)
    ensures n <= len && (len < 0x1_0000_0000 ==> n == len) && (len - n) % U32_LIMIT == 0
  {
    len % U32_LIMIT
  }

  function WriteEntry(fd: int, len: nat, offset: U64, addr: Addr, sqeFlags: U8, id: nat): Sqe {
    Sqe(Kind.Write, [fd, offset], Some(addr), KernelLength(len), TruncateFlags(sqeFlags), id)
  }

  method PrepWrite(ring: TheIoRing, fd: int, data: seq<Byte>, size: U64, bufferOffset: U64, fileOffset: I64,
                   userData: nat, sqeFlags: U8, env: Enter) returns (r: Result<()>)
    requires ring.Ready() && |data| < BIT_63
    modifies ring
    ensures ring.Ready()
    // the copy is exactly the slice asked for
    ensures OwnedOutcome(ring.config, old(ring.View()), ring.View(), env,
                         WriteRefusal(ring.supported, Kind.Write, sqeFlags, |data|, size, bufferOffset),
                         WriteEntry(fd, size, AsU64(fileOffset), old(ring.nextAddr), sqeFlags, userData),
                         Slice(data, size, bufferOffset), r)
    ensures NeverReaps(old(ring.log), ring.log)
    ensures IdsKept(ring.config, old(ring.log), old(ring.View()),
                    WriteEntry(fd, size, AsU64(fileOffset), old(ring.nextAddr), sqeFlags, userData), ring.log)
    ensures r.Ok? ==>
      AskedWith(ring.View(), Kind.Write, [fd, if fileOffset >= 0 then fileOffset else fileOffset + U64_LIMIT],
                sqeFlags % 128, userData, size % U32_LIMIT, Buffer(old(ring.nextAddr)))
    ensures r.Ok? ==>
      && bufferOffset + size <= |data| && old(ring.nextAddr) in ring.h.initial
      && ring.h.initial[old(ring.nextAddr)] == data[bufferOffset..bufferOffset + size]
  {
    var e := WriteEntry(fd, size, AsU64(fileOffset), ring.nextAddr, sqeFlags, userData);
    hide OwnedOutcome;
    ghost var slice := Slice(data, size, bufferOffset);
    if Kind.Write !in ring.supported {
      RefusedOutcome(ring.config, ring.View(), env, NotSupported, e, slice);
      return Err(NotSupported);
    }
    if SkipsSuccess(TruncateFlags(sqeFlags)) {
      RefusedOutcome(ring.config, ring.View(), env, SkipSuccessOnOwnedData, e, slice);
      return Err(SkipSuccessOnOwnedData);
    }
    var end := CheckWriteBuffer(|data|, size, bufferOffset);
    if end.Err? {
      RefusedOutcome(ring.config, ring.View(), env, BadBounds, e, slice);
      return Err(end.error);
    }
    var vec := data[bufferOffset..end.value];
    r := PushOwned(ring, e, vec, env);
    OwnedAsked(ring.config, old(ring.View()), ring.View(), env, None, e, vec, r);
  }
}
