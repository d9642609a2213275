# chdb-purego bridge, modelled in Dafny

chdb-purego is a small Go package that drives the embedded chDB query engine
(libchdb) through its C ABI without cgo. This project models the package's own
logic, all of it in `chdb.go`:

- marshalling Go strings into NUL-terminated byte buffers and `argc`/`argv`
  vectors, and scanning NUL-terminated buffers back into Go strings;
- decoding a native `local_result_v2` record into a host `Result`;
- the connection lifecycle `Connect` → `Query` → `Close`, and `Result.Free`.

libchdb's code is out of reach, so the model treats the four entry points the
bridge calls as an abstract oracle. `Native.LibChdb` stands for the loaded library. Each of its
methods returns arbitrary values that stay within libchdb's contract, and
appends what it read and returned to a ghost log. "No native call", "exactly one
`close_conn`" and "no free during decode" are then statements about that log.

Files:

- `cstrings.dfy` (module `CStrings`): bytes and the C-string encoding as values.
  It defines `CString` (the bytes, then a zero) and `TakeCString` (the bytes
  before the first zero), with the round-trip lemmas.
- `native.dfy` (module `Native`): raw pointers (`Ptr`: nil, or an offset into a
  byte array), `chdb_conn`, the `**chdb_conn` handle, `local_result_v2`, and the
  oracle `LibChdb` with its log of `NativeCall`s.
- `chdb.dfy` (module `Chdb`): the bridge itself, in the source's form. The
  marshalling helpers are methods over arrays with loops. Result decoding is a
  function. `Conn` is a class whose `Close` clears its handle field.
- `lifecycle.dfy` (module `Lifecycle`): the call sequence of the package's
  test, a double `Close`, and a double `Free`, each with the native calls it
  makes.

Go strings are byte sequences, so host strings are `seq<byte>`. `uint64` and
`uintptr` are a 64-bit `newtype`. `float64` is carried as an opaque bit pattern.

Two safeguards one might expect of such a bridge are absent from the code.
The model follows the code:

- `Result.Free` has no one-shot guard. A second `Free` releases the record
  again (`Lifecycle.FreeTwice`).
- `Query` on a closed `Conn` has no use-after-close error. The code
  dereferences the cleared handle and panics, so the model makes a non-nil
  handle a precondition of `Conn.Query`.

## Model

| member | source | states |
|---|---|---|
| `CStrings.TakeCString` | chdb.go:161-174 | the decoded string is a prefix of the buffer, holds no zero byte, and ends at the first zero byte or at the end of the buffer |
| `CStrings.TakeCStringUnique` | chdb.go:166-172 | those three properties single out one string: any zero-free prefix that ends at a zero byte or at the end is the decoded string |
| `CStrings.TakeCStringIgnoresSuffix` | chdb.go:166-172 | the scan reads nothing past the first zero: bytes after a terminated buffer never change what is decoded |
| `CStrings.CStringRoundTrip` | chdb.go:161-189 | decoding the NUL-terminated copy of `s` gives `s` cut at its first zero byte, and gives `s` itself if and only if `s` holds no zero byte |
| `CStrings.ArgvRoundTrip` | chdb.go:191-217 | the native reader of a marshalled vector sees as many strings as were given, string `i` being `args[i]` cut at its first zero; it sees exactly `args` if and only if no argument holds a zero byte |
| `Native.Ptr.ReadCString` | chdb.go:161-174 | nil reads as ""; otherwise the result, then a zero byte, is what is stored at the pointer, and the result holds no zero byte |
| `Native.ObservedBuffers` | chdb.go:43 | what `connect_chdb` reads from an `argv` whose buffers hold given bytes is the decoding of each buffer, in order |
| `Native.LibChdb.ConnectChdb` | chdb.go:43 | `connect_chdb` logs the strings it read from `argv` and returns nil or a handle to a non-nil connection record whose `connected` flag may take either value |
| `Native.LibChdb.CloseConn` | chdb.go:44 | `close_conn` logs one close of the given handle |
| `Native.LibChdb.QueryConn` | chdb.go:45 | `query_conn` logs the connection and the query and format strings it read, and returns a non-nil record whose buffer covers `len` bytes and whose error message, if any, is terminated |
| `Native.LibChdb.FreeResultV2` | chdb.go:42 | `free_result_v2` logs one free of the given record |
| `Chdb.StringToPtr` | chdb.go:178-189 | a fresh buffer of length `len(s)+1`: its first `len(s)` bytes are `s` and its last byte is zero |
| `Chdb.PtrToGoString` | chdb.go:161-175 | "" for nil; otherwise exactly the bytes before the first zero, with that zero inside the buffer, so the loop never reads past it; equal to `Ptr.ReadCString` |
| `Chdb.StringRoundTrip` | chdb.go:161-189 | `ptrToGoString(stringToPtr(s))` is `s` cut at its first zero byte, and equals `s` if and only if `s` holds no zero byte |
| `Chdb.ConvertArgs` | chdb.go:191-218 | `(0, nil)` for no arguments; otherwise count `len(args)` and a fresh vector whose entry `i` is a fresh NUL-terminated copy of `args[i]`, each entry a separate buffer; the native reader sees the decoded arguments in order |
| `Chdb.NewResultFromV2` | chdb.go:83-100 | counters and elapsed copied unchanged; data non-empty exactly when the buffer is non-nil and `len > 0`, and then exactly the `len` bytes at the buffer; error "" for a nil message, otherwise the NUL-terminated string stored there; the release action is bound to this record; as a function it makes no native call, so nothing is freed |
| `Chdb.Result.Free` | chdb.go:103-107 | one `free_result_v2` on the bound record when a release action is present; no native call otherwise |
| `Chdb.Connect` | chdb.go:110-132 | "" is rejected with no native call; otherwise exactly one `connect_chdb` with `[connStr]`; a nil handle fails, a handle whose connection is not `connected` fails, and any other handle is returned in a fresh `Conn` |
| `Chdb.Conn.Query` | chdb.go:138-149 | requires a non-nil handle; exactly one native call, a `query_conn` on the handle's current connection with the query and format strings; the handle is unchanged; the one `Result` returned is that record decoded |
| `Chdb.Conn.Close` | chdb.go:152-157 | a held handle gets exactly one `close_conn` and is then cleared; a cleared handle gets no native call |
| `Lifecycle.BasicConnect` | chdb_test.go:10-24 | connect, query, deferred free and deferred close make exactly four native calls in that order: the free releases the queried record and the close releases the connected handle; a failed connect makes only its one call |
| `Lifecycle.CloseTwice` | chdb.go:152-157 | after a successful connect, two closes make exactly one `close_conn` on the handle; the second close is a no-op; a failed connect makes only its one call |
| `Lifecycle.FreeTwice` | chdb.go:103-107 | two `Free` calls on one result make two `free_result_v2` calls on the same record: `Free` is not idempotent |

## Left out

- Library loading (`init`, `purego.Dlopen`, `RegisterLibFunc`): dynamic loading and foreign symbol binding cannot be verified. The entry points the bridge calls are the `LibChdb` oracle, passed explicitly to every operation in place of Go's package-level function variables.
- `findLibrary`: it reads an environment variable and probes the filesystem, which is pure I/O.
- `runtime.Pinner`: pinning is about the Go garbage collector and is not modelled. `convertArgs` unpins its buffers when it returns, before `Connect` hands `argv` to `connect_chdb`. The model cannot express this defect.
- `query_stable`, `free_result` (with `local_result`) and `query_stable_v2`: the bridge declares and binds them but never calls them. The commented-out `getSystemLibrary` is also left out.
- Query semantics, SQL text and output formats: the payload is opaque bytes chosen by the oracle.
- `elapsed` is carried as an opaque 64-bit pattern, with no floating-point arithmetic.
- Go's `Data` is an `unsafe.Slice` that aliases native memory. The model's `Result.data` is a copy of those bytes taken at decode time, so invalidation after `Free` is not modelled.
- Freed records and closed handles are only recorded in the log. The model does not mark their memory invalid.
- `chdb_conn`'s `server` and `queue` pointers and `local_result_v2`'s `_vec` are never touched by the bridge, so they are not modelled.
- A non-nil handle whose inner `*chdb_conn` is nil would make `Connect` panic. The model assumes libchdb never returns such a handle: `LibChdb.ConnectChdb`'s contract rules it out.
- `Connect`'s error values are the constructors of `ConnectError`. Their message texts appear only as comments.
- `convertArgs` copies each argument inline with the same three steps as `stringToPtr`. The model calls `StringToPtr` for each argument instead.
- `Chdb.PtrToGoString`, `Native.Ptr.ReadCString`: they require a zero byte after a non-nil pointer, inside its block. On unterminated memory the Go loop reads past the allocation, which is undefined behaviour and not modelled.
- `Chdb.NewResultFromV2`: it requires the record to keep libchdb's promise that a non-nil buffer covers `len` bytes and a non-nil error message is terminated.
- `Native.LibChdb.QueryConn`: the model assumes the record it returns is non-nil. `query_conn` is declared to return a nullable `*local_result_v2`, and the bridge never checks it, so on a nil record Go would panic at chdb.go:85, where `NewResultFromV2` reads `cRes.elapsed`; the model does not capture that panic.
- Concurrency and thread safety: the bridge adds none, and none is modelled.
- `Native.LibChdb.ConnectChdb`, `Native.LibChdb.QueryConn`: the real entry points are libchdb's code. Their contracts are assumptions of the model about libchdb, not facts taken from its code: a non-nil handle has a non-nil connection record, and a result record is non-nil, covers `len` bytes and has a terminated error message.
