/** What both codecs of file transfer do to a byte buffer in place. */
module Buffers {
  import opened Base64url

  /** Uint8Array.set */
  method SetBytes(a: array<byte>, at: nat, bytes: seq<byte>)
    requires at + |bytes| <= a.Length
    modifies a
    ensures a[at..at + |bytes|] == bytes
    ensures forall j :: 0 <= j < a.Length && !(at <= j < at + |bytes|) ==> a[j] == old(a[j])
  {
    for i := 0 to |bytes|
      invariant forall j :: 0 <= j < i ==> a[at + j] == bytes[j]
      invariant forall j :: 0 <= j < a.Length && !(at <= j < at + i) ==> a[j] == old(a[j])
    {
      a[at + i] := bytes[i];
    }
  }
}
