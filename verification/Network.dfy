/** src/network.rs. */
module Network {
  import opened Types
  import opened Ring
  import opened Shared
  import opened Files

  function SocketEntry(domain: int, socketType: int, protocol: int, sqeFlags: U8, id: nat): Sqe {
    Sqe(Socket, [domain, socketType, protocol], None, 0, TruncateFlags(sqeFlags), id)
  }

  method PrepCreateSocket(ring: TheIoRing, domain: int, socketType: int, protocol: int, userData: nat, sqeFlags: U8,
                          env: Enter) returns (r: Result<()>)
    requires ring.Ready()
    modifies ring
    ensures ring.Ready()
    ensures PlainOutcome(ring.config, old(ring.View()), ring.View(), env, Refusal(ring.supported, Socket, sqeFlags),
                         SocketEntry(domain, socketType, protocol, sqeFlags, userData), r)
    ensures NeverReaps(old(ring.log), ring.log)
    ensures IdsKept(ring.config, old(ring.log), old(ring.View()),
                    SocketEntry(domain, socketType, protocol, sqeFlags, userData), ring.log)
    ensures r.Ok? ==>
      AskedPlain(ring.View(), Socket, [domain, socketType, protocol], sqeFlags % 128, userData)
  {
    var e := SocketEntry(domain, socketType, protocol, sqeFlags, userData);
    hide PlainOutcome;
    if Socket !in ring.supported {
      RefusedOutcome(ring.config, ring.View(), env, NotSupported, e, []);
      return Err(NotSupported);
    }
    r := PushPlain(ring, e, env);
    PlainAsked(ring.config, old(ring.View()), ring.View(), env, None, e, r);
  }

  function ConnectEntry(fd: int, len: nat, addr: Addr, sqeFlags: U8, id: nat): Sqe {
    Sqe(Connect, [fd], Some(addr), len, TruncateFlags(sqeFlags), id)
  }

  /** The probe comes first, then the parsing of the address, then the flags. */
  function ConnectRefusal(supported: set<Kind>, sqeFlags: U8, parsed: Option<seq<Byte>>): (e: Option<Error>)
    ensures e == Some(NotSupported) <==> Connect !in supported
    ensures e == Some(BadAddress) <==> Connect in supported && parsed.None?
    ensures e == Some(SkipSuccessOnOwnedData) <==> Connect in supported && parsed.Some? && sqeFlags % 128 >= 64
    ensures e.None? <==> Connect in supported && parsed.Some? && sqeFlags % 128 < 64
  {
    if Connect !in supported then Some(NotSupported)
    else if parsed.None? then Some(BadAddress)
    else Refusal(supported, Connect, sqeFlags)
  }

  /** `ioring_prep_connect_v4` and `_v6` with `do_sockaddr_submit`. The parser is not modelled:
      `sockaddr` is the address it yields, or None. */
  method PrepConnect(ring: TheIoRing, fd: int, sockaddr: Option<seq<Byte>>, userData: nat, sqeFlags: U8, env: Enter)
    returns (r: Result<()>)
    requires ring.Ready()
    modifies ring
    ensures ring.Ready()
    ensures var bytes := if sockaddr.Some? then sockaddr.value else [];
      OwnedOutcome(ring.config, old(ring.View()), ring.View(), env, ConnectRefusal(ring.supported, sqeFlags, sockaddr),
                   ConnectEntry(fd, |bytes|, old(ring.nextAddr), sqeFlags, userData), bytes, r)
    ensures NeverReaps(old(ring.log), ring.log)
    ensures IdsKept(ring.config, old(ring.log), old(ring.View()),
                    ConnectEntry(fd, if sockaddr.Some? then |sockaddr.value| else 0, old(ring.nextAddr), sqeFlags,
                                 userData), ring.log)
    ensures r.Ok? ==>
      sockaddr.Some? &&
      AskedWith(ring.View(), Connect, [fd], sqeFlags % 128, userData, |sockaddr.value|, SockAddr(old(ring.nextAddr)))
  {
    var bytes := if sockaddr.Some? then sockaddr.value else [];
    var e := ConnectEntry(fd, |bytes|, ring.nextAddr, sqeFlags, userData);
    hide OwnedOutcome;
    if Connect !in ring.supported {
      RefusedOutcome(ring.config, ring.View(), env, NotSupported, e, bytes);
      return Err(NotSupported);
    }
    if sockaddr.None? {
      RefusedOutcome(ring.config, ring.View(), env, BadAddress, e, bytes);
      return Err(BadAddress);
    }
    if SkipsSuccess(TruncateFlags(sqeFlags)) {
      RefusedOutcome(ring.config, ring.View(), env, SkipSuccessOnOwnedData, e, bytes);
      return Err(SkipSuccessOnOwnedData);
    }
    r := PushOwned(ring, e, bytes, env);
    OwnedAsked(ring.config, old(ring.View()), ring.View(), env, None, e, bytes, r);
  }

  function SendEntry(fd: int, len: nat, flags: int, addr: Addr, sqeFlags: U8, id: nat): Sqe {
    Sqe(Send, [fd, flags], Some(addr), KernelLength(len), TruncateFlags(sqeFlags), id)
  }

  method PrepSend(ring: TheIoRing, fd: int, data: seq<Byte>, size: U64, bufferOffset: U64, flags: int,
                  userData: nat, sqeFlags: U8, env: Enter) returns (r: Result<()>)
    requires ring.Ready() && |data| < BIT_63
    modifies ring
    ensures ring.Ready()
    ensures OwnedOutcome(ring.config, old(ring.View()), ring.View(), env,
                         WriteRefusal(ring.supported, Send, sqeFlags, |data|, size, bufferOffset),
                         SendEntry(fd, size, flags, old(ring.nextAddr), sqeFlags, userData),
                         Slice(data, size, bufferOffset), r)
    ensures NeverReaps(old(ring.log), ring.log)
    ensures IdsKept(ring.config, old(ring.log), old(ring.View()),
                    SendEntry(fd, size, flags, old(ring.nextAddr), sqeFlags, userData), ring.log)
    ensures r.Ok? ==>
      AskedWith(ring.View(), Send, [fd, flags], sqeFlags % 128, userData, size % U32_LIMIT,
                Buffer(old(ring.nextAddr)))
    ensures r.Ok? ==>
      && bufferOffset + size <= |data| && old(ring.nextAddr) in ring.h.initial
      && ring.h.initial[old(ring.nextAddr)] == data[bufferOffset..bufferOffset + size]
  {
    var e := SendEntry(fd, size, flags, ring.nextAddr, sqeFlags, userData);
    hide OwnedOutcome;
    ghost var slice := Slice(data, size, bufferOffset);
    if Send !in ring.supported {
      RefusedOutcome(ring.config, ring.View(), env, NotSupported, e, slice);
      return Err(NotSupported);
    }
    if SkipsSuccess(TruncateFlags(sqeFlags)) {
      RefusedOutcome(ring.config, ring.View(), env, SkipSuccessOnOwnedData, e, slice);
      return Err(SkipSuccessOnOwnedData);
    }
    var end := CheckWriteBuffer(|data|, size, bufferOffset);
    if end.Err? {
      RefusedOutcome(ring.config, ring.View(), env, BadBounds, e, slice);
      return Err(end.error);
    }
    var vec := data[bufferOffset..end.value];
    r := PushOwned(ring, e, vec, env);
    OwnedAsked(ring.config, old(ring.View()), ring.View(), env, None, e, vec, r);
  }

  function RecvEntry(fd: int, maxSize: U32, flags: int, addr: Addr, sqeFlags: U8, id: nat): Sqe {
    Sqe(Recv, [fd, flags], Some(addr), maxSize, TruncateFlags(sqeFlags), id)
  }

  method PrepRecv(ring: TheIoRing, fd: int, maxSize: U32, flags: int, userData: nat, sqeFlags: U8, env: Enter)
    returns (r: Result<()>)
    requires ring.Ready()
    modifies ring
    ensures ring.Ready()
    ensures OwnedOutcome(ring.config, old(ring.View()), ring.View(), env, Refusal(ring.supported, Recv, sqeFlags),
                         RecvEntry(fd, maxSize, flags, old(ring.nextAddr), sqeFlags, userData), Zeros(maxSize), r)
    ensures NeverReaps(old(ring.log), ring.log)
    ensures IdsKept(ring.config, old(ring.log), old(ring.View()),
                    RecvEntry(fd, maxSize, flags, old(ring.nextAddr), sqeFlags, userData), ring.log)
    ensures r.Ok? ==>
      AskedWith(ring.View(), Recv, [fd, flags], sqeFlags % 128, userData, maxSize, Buffer(old(ring.nextAddr)))
  {
    var e := RecvEntry(fd, maxSize, flags, ring.nextAddr, sqeFlags, userData);
    hide OwnedOutcome;
    var buf := Zeros(maxSize);
    if Recv !in ring.supported {
      RefusedOutcome(ring.config, ring.View(), env, NotSupported, e, buf);
      return Err(NotSupported);
    }
    if SkipsSuccess(TruncateFlags(sqeFlags)) {
      RefusedOutcome(ring.config, ring.View(), env, SkipSuccessOnOwnedData, e, buf);
      return Err(SkipSuccessOnOwnedData);
    }
    r := PushOwned(ring, e, buf, env);
    OwnedAsked(ring.config, old(ring.View()), ring.View(), env, None, e, buf, r);
  }
}
