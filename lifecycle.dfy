/** Call sequences of the bridge as its own test and example program use it,
    with the native calls each sequence makes. */
module Lifecycle {
  import opened CStrings
  import opened Native
  import opened Chdb

  /** The flow of the basic connect test and of the example program: connect,
      query, then the deferred `Free` and `Close`, which run last-in first-out.
      A failed connect stops the flow after its single native call. */
  method BasicConnect(lib: LibChdb, connStr: seq<byte>, query: seq<byte>, format: seq<byte>)
    returns (connected: bool, data: seq<byte>)
    requires connStr != []
    modifies lib
    ensures !connected ==> (OneMoreCall(old(lib.log), lib.log) && lib.log[|lib.log| - 1].ConnectCalled?
              && var h := lib.log[|lib.log| - 1].returned; h == null || (h.conn != null && !h.conn.connected))
    ensures connected ==> |lib.log| == |old(lib.log)| + 4 && lib.log[..|old(lib.log)|] == old(lib.log)
    ensures connected ==>
              var n := |old(lib.log)|;
              var c, q := lib.log[n], lib.log[n + 1];
              c.ConnectCalled? && c.argv == [TakeCString(connStr)] && c.returned != null
              && q.QueryCalled? && q.conn == c.returned.conn
              && q.query == TakeCString(query) && q.format == TakeCString(format)
              && lib.log[n + 2] == FreeCalled(q.result)
              && lib.log[n + 3] == CloseCalled(c.returned)
              && q.result.Valid() && data == NewResultFromV2(q.result).data
  {
    var r := Connect(lib, connStr);
    if r.Failed? {
      return false, [];
    }
    var conn := r.conn;
    var result := conn.Query(lib, query, format);
    data := result.data;
    result.Free(lib);
    conn.Close(lib);
    connected := true;
  }

  /** Connect followed by two closes: the handle is closed by exactly one
      native call, and the second `Close` is a no-op. */
  method CloseTwice(lib: LibChdb, connStr: seq<byte>) returns (connected: bool)
    requires connStr != []
    modifies lib
    ensures !connected ==> OneMoreCall(old(lib.log), lib.log) && lib.log[|lib.log| - 1].ConnectCalled?
    ensures connected ==>
              |lib.log| == |old(lib.log)| + 2 && lib.log[..|old(lib.log)|] == old(lib.log)
              && lib.log[|old(lib.log)|].ConnectCalled?
              && lib.log[|old(lib.log)|].returned != null
              && lib.log[|old(lib.log)| + 1] == CloseCalled(lib.log[|old(lib.log)|].returned)
  {
    var r := Connect(lib, connStr);
    if r.Failed? {
      return false;
    }
    var conn := r.conn;
    conn.Close(lib);
    ghost var afterFirst := lib.log;
    conn.Close(lib);
    assert lib.log == afterFirst;
    connected := true;
  }

  /** `Free` called twice on one decoded result releases the native record
      twice: nothing in the bridge turns the second call into a no-op. */
  method FreeTwice(lib: LibChdb, r: Result)
    modifies lib
    ensures r.freeFunc.FreeV2? ==> lib.log == old(lib.log) + [FreeCalled(r.freeFunc.record), FreeCalled(r.freeFunc.record)]
    ensures r.freeFunc.NoFree? ==> lib.log == old(lib.log)
  {
    r.Free(lib);
    r.Free(lib);
  }
}
