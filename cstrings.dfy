/** Bytes and the NUL-terminated ("C string") encoding of Go strings, as values.
    A Go string is a sequence of bytes; the bridge hands strings to the native
    library as a copy followed by one zero byte, and reads native strings back by
    taking every byte before the first zero. */
module CStrings {

  /** Go's `byte`. */
  newtype byte = b: int | 0 <= b < 256

  /** The NUL-terminated encoding of a Go string: its bytes, then one zero byte. */
  function CString(s: seq<byte>): seq<byte>
  {
    s + [0]
  }

  /** What a reader of a NUL-terminated buffer sees: the bytes of `s` before its
      first zero byte, or all of `s` when it holds none. */
  function TakeCString(s: seq<byte>): (r: seq<byte>)
    ensures |r| <= |s| && r == s[..|r|]
    ensures 0 !in r
    ensures |r| < |s| ==> s[|r|] == 0
  {
    if s == [] || s[0] == 0 then [] else [s[0]] + TakeCString(s[1..])
  }

  /** The three properties of TakeCString determine it: a zero-free prefix of `s`
      that ends at a zero byte or at the end of `s` is the decoded string. */
  lemma TakeCStringUnique(s: seq<byte>, t: seq<byte>)
    requires |t| <= |s| && t == s[..|t|]
    requires 0 !in t
    requires |t| < |s| ==> s[|t|] == 0
    ensures TakeCString(s) == t
  {
  }

  /** Decoding reads nothing past the first zero byte: whatever follows a
      terminated buffer does not change what is decoded from it. */
  lemma {:induction false} TakeCStringIgnoresSuffix(s: seq<byte>, t: seq<byte>)
    requires 0 in s
    ensures TakeCString(s + t) == TakeCString(s)
  {
    if s[0] != 0 {
      assert (s + t)[1..] == s[1..] + t;
      TakeCStringIgnoresSuffix(s[1..], t);
    }
  }

  /** Encoding then decoding gives back the string cut at its first zero byte,
      and gives back exactly the string if and only if it holds no zero byte. */
  lemma CStringRoundTrip(s: seq<byte>)
    ensures TakeCString(CString(s)) == TakeCString(s)
    ensures TakeCString(CString(s)) == s <==> 0 !in s
  {
    var r := TakeCString(s);
    var e := CString(s);
    assert e[..|s|] == s;
    if 0 in s {
      assert 0 in s[..|s|];
      assert |r| < |s|;
      assert e[..|r|] == s[..|r|];
      TakeCStringUnique(e, r);
    } else {
      assert r == s;
      TakeCStringUnique(e, s);
    }
  }

  /** The buffers of an argument vector, one NUL-terminated copy per string, in order. */
  function Marshal(args: seq<seq<byte>>): seq<seq<byte>>
  {
    seq(|args|, i requires 0 <= i < |args| => CString(args[i]))
  }

  /** What a native reader of an argument vector sees: each buffer decoded. */
  function Unmarshal(bufs: seq<seq<byte>>): seq<seq<byte>>
  {
    seq(|bufs|, i requires 0 <= i < |bufs| => TakeCString(bufs[i]))
  }

  /** The native side observes exactly the count and the strings it was given
      if and only if none of the strings holds a zero byte; otherwise each
      string is seen cut at its first zero byte. */
  lemma ArgvRoundTrip(args: seq<seq<byte>>)
    ensures |Unmarshal(Marshal(args))| == |args|
    ensures forall i :: 0 <= i < |args| ==> Unmarshal(Marshal(args))[i] == TakeCString(args[i])
    ensures Unmarshal(Marshal(args)) == args <==> forall i :: 0 <= i < |args| ==> 0 !in args[i]
  {
    var seen := Unmarshal(Marshal(args));
    forall i | 0 <= i < |args|
      ensures seen[i] == TakeCString(args[i])
      ensures seen[i] == args[i] <==> 0 !in args[i]
    {
      CStringRoundTrip(args[i]);
    }
    if seen != args {
      var k :| 0 <= k < |args| && seen[k] != args[k];
      assert 0 in args[k];
    }
  }
}
