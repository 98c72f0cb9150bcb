/** Reading and writing the guest module's linear memory: the null-terminated
    string reader `cstring` and the bulk copy that `mem.set` performs. Memory is
    a byte array, or null when no memory is available. */
module GuestMemory {

  /** The host's UTF-8 text decoder. How bytes become characters is left
      uninterpreted; the only fact used is that no bytes decode to no text. */
  type Decoder = d: seq<bv8> -> string | d([]) == "" witness (b: seq<bv8>) => ""

  /** Some byte at or after `ptr` is zero, so a forward scan from `ptr` stops
      inside the buffer. */
  predicate HasTerminator(s: seq<bv8>, ptr: nat) {
    exists k :: ptr <= k < |s| && s[k] == 0
  }

  /** Index of the first zero byte at or after `ptr`. */
  function TerminatorIndex(s: seq<bv8>, ptr: nat): (z: nat)
    requires HasTerminator(s, ptr)
    ensures ptr <= z < |s| && s[z] == 0
    ensures forall j :: ptr <= j < z ==> s[j] != 0
    decreases |s| - ptr
  {
    if s[ptr] == 0 then ptr else TerminatorIndex(s, ptr + 1)
  }

  /** The bytes `cstring` hands to the decoder: those from `ptr` up to, and not
      including, the first zero byte. */
  function CStringBytes(s: seq<bv8>, ptr: nat): (r: seq<bv8>)
    requires HasTerminator(s, ptr)
    ensures ptr + |r| < |s| && s[ptr..ptr + |r|] == r && s[ptr + |r|] == 0
    ensures forall k :: 0 <= k < |r| ==> r[k] != 0
    ensures r == [] <==> s[ptr] == 0
  {
    s[ptr..TerminatorIndex(s, ptr)]
  }

  /** A zero-free run of bytes `b` stored at `ptr` and followed by a zero byte is
      exactly what `cstring` selects at `ptr`. */
  lemma CStringBytesOf(s: seq<bv8>, ptr: nat, b: seq<bv8>)
    requires ptr + |b| < |s| && s[ptr..ptr + |b|] == b && s[ptr + |b|] == 0
    requires forall k :: 0 <= k < |b| ==> b[k] != 0
    ensures HasTerminator(s, ptr)
    ensures TerminatorIndex(s, ptr) == ptr + |b|
    ensures CStringBytes(s, ptr) == b
  {
  }

  /** What `cstring` selects depends only on the bytes from `ptr` through the
      first terminator: any buffer agreeing there, whatever its length and its
      later bytes, selects the same bytes. */
  lemma CStringBytesLocal(s: seq<bv8>, t: seq<bv8>, ptr: nat)
    requires HasTerminator(s, ptr)
    requires TerminatorIndex(s, ptr) < |t|
    requires forall j :: ptr <= j <= TerminatorIndex(s, ptr) ==> t[j] == s[j]
    ensures HasTerminator(t, ptr)
    ensures TerminatorIndex(t, ptr) == TerminatorIndex(s, ptr)
    ensures CStringBytes(t, ptr) == CStringBytes(s, ptr)
  {
  }

  /** `cstring(memory, ptr)`: the empty text when there is no memory; otherwise
      scan forward from `ptr` to the first zero byte and decode the bytes before
      it. `probed` is the set of indices the scan reads: exactly `ptr` through
      the terminator, never beyond. The method changes no memory. */
  method CString(memory: array?<bv8>, ptr: nat, decode: Decoder) returns (text: string, ghost probed: set<int>)
    requires memory != null ==> HasTerminator(memory[..], ptr)
    ensures memory == null ==> text == "" && probed == {}
    ensures memory != null ==> text == decode(CStringBytes(memory[..], ptr))
    ensures memory != null ==>
      forall j :: j in probed <==> ptr <= j <= TerminatorIndex(memory[..], ptr)
  {
    if memory == null {
      return "", {};
    }
    ghost var z := TerminatorIndex(memory[..], ptr);
    var len: nat := 0;
    probed := {};
    while memory[ptr + len] != 0
      invariant ptr + len <= z
      invariant forall j :: j in probed <==> ptr <= j < ptr + len
      decreases z - (ptr + len)
    {
      probed := probed + {ptr + len};
      len := len + 1;
    }
    probed := probed + {ptr + len};
    text := decode(memory[ptr..ptr + len]);
  }

  /** `s` with the bytes `b` copied in at `ptr`, as a typed-array `set` does. */
  function Overwrite(s: seq<bv8>, ptr: nat, b: seq<bv8>): (r: seq<bv8>)
    requires ptr + |b| <= |s|
    ensures |r| == |s|
    ensures r[ptr..ptr + |b|] == b
    ensures forall j :: 0 <= j < |s| && !(ptr <= j < ptr + |b|) ==> r[j] == s[j]
  {
    s[..ptr] + b + s[ptr + |b|..]
  }
}
