/** The Go bridge to libchdb: C-string marshalling, decoding of native result
    records, and the connection lifecycle. Every call into libchdb goes through
    a `LibChdb` value, the table of entry points bound when the package loads. */
module Chdb {
  import opened CStrings
  import opened Native

  // ---------------------------------------------------------------------------
  // C-string marshalling
  // ---------------------------------------------------------------------------

  /** `stringToPtr`: a new buffer holding the bytes of `s` and a zero byte. */
  method StringToPtr(s: seq<byte>) returns (buf: array<byte>)
    ensures fresh(buf)
    ensures buf.Length == |s| + 1 && buf[..|s|] == s && buf[|s|] == 0
    ensures buf[..] == CString(s)
  {
    buf := new byte[|s| + 1];
    forall i | 0 <= i < |s| {
      buf[i] := s[i];
    }
    buf[|s|] := 0;
    assert buf[..] == buf[..|s|] + [buf[|s|]];
  }

  /** `ptrToGoString`: "" for nil; otherwise the bytes from `ptr` up to, and
      not including, the first zero byte, which the scan does not pass. */
  method PtrToGoString(ptr: Ptr) returns (s: seq<byte>)
    requires ptr.Addr? ==> ptr.Terminated()
    ensures ptr.Nil? ==> s == []
    ensures ptr.Addr? ==> ptr.HoldsCString(s)
    ensures s == ptr.ReadCString()
  {
    if ptr.Nil? {
      return [];
    }
    var block, offset := ptr.block, ptr.offset;
    var length := 0;
    while true
      invariant offset + length <= block.Length
      invariant 0 in block[offset + length..]
      invariant 0 !in block[offset..offset + length]
      decreases block.Length - offset - length
    {
      if block[offset + length] == 0 {
        break;
      }
      assert block[offset..offset + length + 1] == block[offset..offset + length] + [block[offset + length]];
      assert block[offset + length..] == [block[offset + length]] + block[offset + length + 1..];
      length := length + 1;
    }
    s := block[offset..offset + length];
    TakeCStringUnique(block[offset..], s);
  }

  /** `ptrToGoString(stringToPtr(s))`: the string cut at its first zero byte,
      and so `s` itself exactly when `s` holds no zero byte. */
  method StringRoundTrip(s: seq<byte>) returns (t: seq<byte>)
    ensures t == TakeCString(s)
    ensures t == s <==> 0 !in s
  {
    var buf := StringToPtr(s);
    assert buf[..][|s|] == 0;
    t := PtrToGoString(Addr(buf, 0));
    assert buf[0..] == CString(s);
    CStringRoundTrip(s);
  }

  /** `convertArgs`: `(0, nil)` for no arguments; otherwise the count and a new
      vector whose entry `i` is a separate NUL-terminated copy of `args[i]`. */
  method ConvertArgs(args: seq<seq<byte>>) returns (argc: nat, argv: array?<array?<byte>>)
    ensures argc == |args|
    ensures argv == null <==> args == []
    ensures argv != null ==> fresh(argv) && argv.Length == |args|
    ensures argv != null ==> forall i :: 0 <= i < |args| ==>
              argv[i] != null && fresh(argv[i]) && argv[i][..] == CString(args[i])
    ensures argv != null ==> forall i, j :: 0 <= i < j < |args| ==> argv[i] != argv[j]
    ensures ArgvReadable(argc, argv) && Observed(argc, argv) == Unmarshal(Marshal(args))
  {
    if |args| == 0 {
      return 0, null;
    }
    var cArgs := new array?<byte>[|args|];
    for i := 0 to |args|
      invariant forall j :: 0 <= j < i ==> cArgs[j] != null && fresh(cArgs[j]) && cArgs[j][..] == CString(args[j])
      invariant forall j, k :: 0 <= j < k < i ==> cArgs[j] != cArgs[k]
    {
      var argData := StringToPtr(args[i]);
      cArgs[i] := argData;
    }
    argc, argv := |args|, cArgs;
    forall i | 0 <= i < argc
      ensures 0 in argv[i][..]
    {
      assert argv[i][..][|args[i]|] == 0;
    }
    ObservedBuffers(argc, argv, Marshal(args));
  }

  // ---------------------------------------------------------------------------
  // Result decoding
  // ---------------------------------------------------------------------------

  /** The release action a `Result` carries: nothing, or `free_result_v2` on the
      record the result was decoded from. */
  datatype FreeAction = NoFree | FreeV2(record: LocalResultV2)

  /** `Result`: the host view of one query answer. */
  datatype Result = Result(data: seq<byte>, elapsed: Float64, rowsRead: uint64, bytesRead: uint64,
                           error: seq<byte>, freeFunc: FreeAction)
  {
    /** `Result.Free`: runs the bound release action when there is one. It keeps
        no record of having run, so a second call frees the record again. */
    method Free(lib: LibChdb)
      modifies lib
      ensures freeFunc.FreeV2? ==> lib.log == old(lib.log) + [FreeCalled(freeFunc.record)]
      ensures freeFunc.NoFree? ==> lib.log == old(lib.log)
    {
      if freeFunc.FreeV2? {
        lib.FreeResultV2(freeFunc.record);
      }
    }
  }

  /** `NewResultFromV2`: decodes a native record without freeing it. */
  function NewResultFromV2(cRes: LocalResultV2): (r: Result)
    requires cRes.Valid()
    reads cRes.Footprint()
    ensures r.elapsed == cRes.elapsed && r.rowsRead == cRes.rowsRead && r.bytesRead == cRes.bytesRead
    ensures r.freeFunc == FreeV2(cRes)
    ensures r.data != [] <==> cRes.buf.Addr? && cRes.len > 0
    ensures r.data != [] ==> (|r.data| == cRes.len as int
              && forall i :: 0 <= i < |r.data| ==> r.data[i] == cRes.buf.block[cRes.buf.offset + i])
    ensures cRes.errorMessage.Nil? ==> r.error == []
    ensures cRes.errorMessage.Addr? ==> cRes.errorMessage.HoldsCString(r.error)
  {
    var data := if cRes.buf.Addr? && cRes.len > 0
                then cRes.buf.block[cRes.buf.offset..cRes.buf.offset + cRes.len as int]
                else [];
    var error := if cRes.errorMessage.Addr? then cRes.errorMessage.ReadCString() else [];
    Result(data, cRes.elapsed, cRes.rowsRead, cRes.bytesRead, error, FreeV2(cRes))
  }

  // ---------------------------------------------------------------------------
  // Connection lifecycle
  // ---------------------------------------------------------------------------

  /** Why `Connect` failed. */
  datatype ConnectError =
    | EmptyConnStr                        // "connection string cannot be empty"
    | ConnectionFailed(connStr: seq<byte>) // "connection failed for: " + connStr
    | NotInitialized                      // "connection not properly initialized"

  /** The `(*Conn, error)` pair `Connect` returns. */
  datatype ConnectResult = Connected(conn: Conn) | Failed(error: ConnectError)

  /** `Connect`: rejects "" before any native call; otherwise makes exactly one
      `connect_chdb` call with `[connStr]` and accepts the handle it returns
      only when it is non-nil and its connection reports `connected`. */
  method Connect(lib: LibChdb, connStr: seq<byte>) returns (r: ConnectResult)
    modifies lib
    ensures connStr == [] ==> r == Failed(EmptyConnStr) && lib.log == old(lib.log)
    ensures connStr != [] ==> (OneMoreCall(old(lib.log), lib.log)
              && lib.log[|lib.log| - 1].ConnectCalled?
              && lib.log[|lib.log| - 1].argv == [TakeCString(connStr)])
    ensures connStr != [] ==>
              var h := lib.log[|lib.log| - 1].returned;
              (h == null ==> r == Failed(ConnectionFailed(connStr)))
              && (h != null ==> (h.conn != null
                    && (!h.conn.connected ==> r == Failed(NotInitialized))
                    && (h.conn.connected ==> r.Connected? && fresh(r.conn) && r.conn.cConn == h)))
  {
    if connStr == [] {
      return Failed(EmptyConnStr);
    }
    var args := [connStr];
    var argc, argv := ConvertArgs(args);
    ArgvRoundTrip(args);
    assert Unmarshal(Marshal(args)) == [TakeCString(connStr)];
    var cConn := lib.ConnectChdb(argc, argv);
    if cConn == null {
      return Failed(ConnectionFailed(connStr));
    }
    var conn := new Conn(cConn);
    if !cConn.conn.connected {
      return Failed(NotInitialized);
    }
    return Connected(conn);
  }

  /** `Conn`: owns a native connection handle until `Close` clears it. */
  class Conn {
    var cConn: ConnHandle?

    constructor (cConn: ConnHandle?)
      ensures this.cConn == cConn
    {
      this.cConn := cConn;
    }

    /** `Conn.Query`: one `query_conn` call on the handle's current connection
        with the query and format strings, decoded into exactly one `Result`;
        the handle itself is left as it was. */
    method Query(lib: LibChdb, query: seq<byte>, format: seq<byte>) returns (res: Result)
      requires cConn != null
      modifies lib
      ensures cConn == old(cConn)
      ensures OneMoreCall(old(lib.log), lib.log)
      ensures var call := lib.log[|lib.log| - 1];
              call.QueryCalled? && call.conn == cConn.conn
              && call.query == TakeCString(query) && call.format == TakeCString(format)
              && call.result.Valid()
              && res == NewResultFromV2(call.result)
    {
      var qPtr := StringToPtr(query);
      var fPtr := StringToPtr(format);
      assert qPtr[..][|query|] == 0 && fPtr[..][|format|] == 0;
      var conn := cConn.conn;
      var cRes := lib.QueryConn(conn, qPtr, fPtr);
      CStringRoundTrip(query);
      CStringRoundTrip(format);
      res := NewResultFromV2(cRes);
    }

    /** `Conn.Close`: closes a held handle with exactly one `close_conn` call and
        clears it; on a cleared handle, makes no call and changes nothing. */
    method Close(lib: LibChdb)
      modifies this, lib
      ensures cConn == null
      ensures old(cConn) != null ==> lib.log == old(lib.log) + [CloseCalled(old(cConn))]
      ensures old(cConn) == null ==> lib.log == old(lib.log)
    {
      if cConn != null {
        lib.CloseConn(cConn);
        cConn := null;
      }
    }
  }
}
