/** Values shared by every part of the model: submission entries, owned data,
    completion events, and the errors the ring reports. */
module Types {

  type Byte = bv8

  /** An allocation. The model never reuses an address, so it names one allocation for good. */
  type Addr = nat

  const U32_LIMIT: nat := 0x1_0000_0000
  const U64_LIMIT: nat := 0x1_0000_0000_0000_0000
  const BIT_63: nat := 0x8000_0000_0000_0000
  const TIMEOUT_ID: nat := 0xFFFF_FFFF_FFFF_FF00

  type U8 = n: nat | n < 256
  type U32 = n: nat | n < U32_LIMIT
  type U64 = n: nat | n < U64_LIMIT
  type I64 = n: int | -0x8000_0000_0000_0000 <= n < 0x8000_0000_0000_0000

  datatype Option<+T> = None | Some(value: T)

  datatype Result<+T> = Ok(value: T) | Err(error: Error)

  datatype Error =
    | RingClosed
    | QueueFull
    | SubmitFailed
    | SkipSuccessOnOwnedData
    | NotSupported
    | BadBounds
    | BadAddress
    | HandleClosed
    | NegativeOffset
    | OsCloseFailed

  datatype Kind = OpenAt | Read | Write | Connect | Send | Recv | Close | Socket | Timeout

  /** The kinds whose entry carries a pointer into memory that the ring must keep alive. */
  predicate Carries(k: Kind) {
    k != Close && k != Socket && k != Timeout
  }

  /** The kinds through whose pointer the kernel writes. */
  predicate KernelFills(k: Kind) {
    k == Read || k == Recv
  }

  /** The kinds whose owned data is a buffer handed back with the completion. */
  predicate HasBuffer(k: Kind) {
    k == Read || k == Write || k == Send || k == Recv
  }

  /** `Flags::from_bits_truncate`: bits 0 to 6 are defined, bit 7 is not. */
  function TruncateFlags(f: U8): (r: U8)
    ensures r < 128 && (r == f || r + 128 == f)
  {
    f % 128
  }

  /** Bit 6, IOSQE_CQE_SKIP_SUCCESS. */
  predicate SkipsSuccess(f: nat): (b: bool)
    ensures f < 256 ==> (b <==> 64 <= f < 128 || 192 <= f)
  {
    f / 64 % 2 == 1
  }

  /** Bits 2 and 3, IOSQE_IO_LINK and IOSQE_IO_HARDLINK. */
  predicate Links(f: nat): (b: bool)
    ensures f < 16 ==> (b <==> f >= 4)
  {
    f / 4 % 4 != 0
  }

  /** A submission queue entry. `args` are its scalar operands in constructor order and
      `extent` is how many bytes at `ptr` the kernel may touch. */
  datatype Sqe = Sqe(kind: Kind, args: seq<int>, ptr: Option<Addr>, extent: nat, flags: nat, id: nat)

  datatype OwnedData = OnePath(addr: Addr) | Buffer(addr: Addr) | SockAddr(addr: Addr)

  function DataFor(e: Sqe): OwnedData
    requires e.ptr.Some?
  {
    match e.kind
    case OpenAt => OnePath(e.ptr.value)
    case Connect => SockAddr(e.ptr.value)
    case _ => Buffer(e.ptr.value)
  }

  datatype CompletionEvent = CompletionEvent(userData: nat, result: int, buffer: Option<seq<Byte>>)

  predicate ShouldBeIgnored(userData: nat) {
    userData / BIT_63 % 2 == 1
  }

  function Zeros(n: nat): (r: seq<Byte>)
    ensures |r| == n && forall i :: 0 <= i < n ==> r[i] == 0
  {
    seq(n, _ => 0)
  }

  /** The owned buffer of an operation that finished with `result`, as it is handed back. */
  function Trim(buf: seq<Byte>, result: int): seq<Byte> {
    if result < 0 || |buf| == result then buf
    else if result < |buf| then buf[..result]
    else buf + Zeros(result - |buf|)
  }

  /** An `i64` reinterpreted as a `u64`. */
  function AsU64(offset: I64): (r: U64)
    ensures r == offset || r == offset + U64_LIMIT
    ensures offset == -1 ==> r == 0xFFFF_FFFF_FFFF_FFFF
  {
    if offset < 0 then offset + U64_LIMIT else offset
  }
}
