/** The native side of the bridge: the records libchdb exchanges with the host
    and libchdb's entry points as an abstract oracle. The oracle returns
    arbitrary values within the native library's own contract and records every
    call in a ghost log, so that properties such as "no native call" and
    "closed exactly once" can be stated about the bridge. */
module Native {
  import opened CStrings

  /** Go's `uint64`, also the width of `uintptr` on the 64-bit targets libchdb
      is built for. */
  newtype uint64 = x: int | 0 <= x < 0x1_0000_0000_0000_0000

  /** A `float64` carried as its bit pattern: the bridge only copies it. */
  datatype Float64 = Float64(bits: bv64)

  /** A raw `*byte`: nil, or a byte offset into a block of memory. */
  datatype Ptr = Nil | Addr(block: array<byte>, offset: nat) {

    function Footprint(): set<object>
    {
      if Addr? then {block} else {}
    }

    /** `n` bytes starting here lie inside the block. */
    predicate Covers(n: nat)
      reads Footprint()
    {
      Addr? && offset + n <= block.Length
    }

    /** The pointer is non-nil and a zero byte lies at or after it. */
    predicate Terminated()
      reads Footprint()
    {
      Addr? && offset <= block.Length && 0 in block[offset..]
    }

    /** The bytes of `s`, then a zero byte, are stored here, and `s` holds no
        zero byte: `s` is the C string this pointer points to. */
    predicate HoldsCString(s: seq<byte>)
      reads Footprint()
    {
      Addr? && offset + |s| < block.Length
      && block[offset..offset + |s|] == s && block[offset + |s|] == 0 && 0 !in s
    }

    /** The string a NUL-terminated scan from this pointer yields; nil yields "". */
    function ReadCString(): (r: seq<byte>)
      requires Addr? ==> Terminated()
      reads Footprint()
      ensures Nil? ==> r == []
      ensures Addr? ==> HoldsCString(r)
    {
      if Nil? then [] else TakeCString(block[offset..])
    }
  }

  /** `chdb_conn`. Only its `connected` flag is read by the bridge; the
      `server` and `queue` pointers are opaque to it and not modelled. */
  class ChdbConn {
    var connected: bool
  }

  /** `**chdb_conn`: a stable handle whose target the native side may replace. */
  class ConnHandle {
    var conn: ChdbConn?
  }

  /** `local_result_v2`, owned by the native library until it is freed. The
      opaque `_vec` pointer, never touched by the bridge, is not modelled. */
  class LocalResultV2 {
    const buf: Ptr
    const len: uint64
    const elapsed: Float64
    const rowsRead: uint64
    const bytesRead: uint64
    const errorMessage: Ptr

    constructor (buf: Ptr, len: uint64, elapsed: Float64, rowsRead: uint64, bytesRead: uint64, errorMessage: Ptr)
      ensures this.buf == buf && this.len == len && this.elapsed == elapsed
      ensures this.rowsRead == rowsRead && this.bytesRead == bytesRead
      ensures this.errorMessage == errorMessage
    {
      this.buf := buf;
      this.len := len;
      this.elapsed := elapsed;
      this.rowsRead := rowsRead;
      this.bytesRead := bytesRead;
      this.errorMessage := errorMessage;
    }

    function Footprint(): set<object>
    {
      buf.Footprint() + errorMessage.Footprint()
    }

    /** What libchdb promises of a result record it returns: a non-nil buffer
        holds `len` readable bytes, and a non-nil error message is terminated. */
    predicate Valid()
      reads Footprint()
    {
      (buf.Addr? && len > 0 ==> buf.Covers(len as nat))
      && (errorMessage.Addr? ==> errorMessage.Terminated())
    }
  }

  /** An `argc`/`argv` pair the native side can read: nil when `argc` is 0,
      otherwise at least `argc` non-nil NUL-terminated buffers. */
  predicate ArgvReadable(argc: nat, argv: array?<array?<byte>>)
    reads argv, if argv == null then {} else set i | 0 <= i < argv.Length && argv[i] != null :: argv[i]
  {
    argc == 0 || (argv != null && argc <= argv.Length
                  && forall i :: 0 <= i < argc ==> argv[i] != null && 0 in argv[i][..])
  }

  /** The strings the native side reads from an argument vector. */
  ghost function Observed(argc: nat, argv: array?<array?<byte>>): seq<seq<byte>>
    requires ArgvReadable(argc, argv)
    reads argv, if argv == null then {} else set i | 0 <= i < argv.Length && argv[i] != null :: argv[i]
  {
    if argc == 0 then [] else Observed(argc - 1, argv) + [TakeCString(argv[argc - 1][..])]
  }

  /** An argument vector whose buffers hold `bufs` is observed as their decoding. */
  lemma {:induction false} ObservedBuffers(argc: nat, argv: array?<array?<byte>>, bufs: seq<seq<byte>>)
    requires ArgvReadable(argc, argv) && |bufs| == argc
    requires argc > 0 ==> forall i :: 0 <= i < argc ==> argv[i][..] == bufs[i]
    ensures Observed(argc, argv) == Unmarshal(bufs)
  {
    if argc > 0 {
      ObservedBuffers(argc - 1, argv, bufs[..argc - 1]);
    }
  }

  /** One native call, with what the native side read and returned. */
  datatype NativeCall =
    | ConnectCalled(argv: seq<seq<byte>>, returned: ConnHandle?)
    | CloseCalled(handle: ConnHandle)
    | QueryCalled(conn: ChdbConn?, query: seq<byte>, format: seq<byte>, result: LocalResultV2)
    | FreeCalled(result: LocalResultV2)

  /** `after` is `before` with exactly one more native call appended. */
  ghost predicate OneMoreCall(before: seq<NativeCall>, after: seq<NativeCall>)
  {
    |after| == |before| + 1 && after[..|before|] == before
  }

  /** The loaded libchdb: the entry points the bridge binds at start-up. */
  class LibChdb {
    /** Every native call made so far, oldest first. */
    ghost var log: seq<NativeCall>

    /** `connect_chdb(argc, argv)`: nil, or a handle to a connection record; whether the connection is `connected` is the library's choice. */
    method ConnectChdb(argc: nat, argv: array?<array?<byte>>) returns (h: ConnHandle?)
      requires ArgvReadable(argc, argv)
      modifies this
      ensures log == old(log) + [ConnectCalled(Observed(argc, argv), h)]
      ensures h != null ==> h.conn != null
    {
      var ok: bool := *;
      if ok {
        var c := new ChdbConn;
        c.connected := *;
        h := new ConnHandle;
        h.conn := c;
      } else {
        h := null;
      }
      log := log + [ConnectCalled(Observed(argc, argv), h)];
    }

    /** `close_conn(conn)`. */
    method CloseConn(h: ConnHandle)
      modifies this
      ensures log == old(log) + [CloseCalled(h)]
    {
      log := log + [CloseCalled(h)];
    }

    /** `query_conn(conn, query, format)`: a non-nil, valid result record; its
        payload, counters and error text are the library's choice. */
    method QueryConn(conn: ChdbConn?, query: array<byte>, format: array<byte>) returns (res: LocalResultV2)
      requires 0 in query[..] && 0 in format[..]
      modifies this
      ensures res.Valid()
      ensures log == old(log) + [QueryCalled(conn, TakeCString(query[..]), TakeCString(format[..]), res)]
    {
      var len: uint64 :| true;
      var hasData: bool := *;
      var data := new byte[len as int];
      var hasError: bool := *;
      var errorLen: nat :| true;
      var text := new byte[errorLen + 1];
      text[errorLen] := 0;
      assert text[..][errorLen] == 0;
      var elapsed: Float64 := *;
      var rowsRead: uint64 := *;
      var bytesRead: uint64 := *;
      res := new LocalResultV2(if hasData then Addr(data, 0) else Nil, len, elapsed, rowsRead, bytesRead,
                               if hasError then Addr(text, 0) else Nil);
      log := log + [QueryCalled(conn, TakeCString(query[..]), TakeCString(format[..]), res)];
    }

    /** `free_result_v2(result)`. */
    method FreeResultV2(res: LocalResultV2)
      modifies this
      ensures log == old(log) + [FreeCalled(res)]
    {
      log := log + [FreeCalled(res)];
    }
  }
}
