/** Bytes, byte strings and the separators in them. Keys and child names are all sequences of bytes. */
module Bytes {

  type byte = b: int | 0 <= b < 256

  type Key = seq<byte>

  datatype Option<T> = None | Some(value: T)

  const SLASH: byte := 0x2F
  const DOT0: byte := 0xC2   // U+00B7, first byte
  const DOT1: byte := 0xB7   // and second

  /** ".kvspace-meta" */
  const META_NAME: Key := [0x2E, 0x6B, 0x76, 0x73, 0x70, 0x61, 0x63, 0x65, 0x2D, 0x6D, 0x65, 0x74, 0x61]

  /** The key "/.kvspace-meta" and everything under it. */
  predicate ReservedMeta(key: Key) {
    [SLASH] + META_NAME <= key && (|key| == |META_NAME| + 1 || key[|META_NAME| + 1] == SLASH)
  }

  lemma ReservedSpelled(rest: Key, key: Key)
    ensures var root := [0x2F, 0x2E, 0x6B, 0x76, 0x73, 0x70, 0x61, 0x63, 0x65, 0x2D, 0x6D, 0x65, 0x74, 0x61];
            && (ReservedMeta(root + rest) <==> rest == [] || rest[0] == 0x2F)
            && (ReservedMeta(key) ==> root <= key)
  {
    var root := [0x2F, 0x2E, 0x6B, 0x76, 0x73, 0x70, 0x61, 0x63, 0x65, 0x2D, 0x6D, 0x65, 0x74, 0x61];
    assert [SLASH] + META_NAME == root;
    assert rest != [] ==> (root + rest)[14] == rest[0];
  }

  /** A path segment ends at '/' and at U+00B7. */
  predicate Boundary(r: Key, i: nat)
    requires i < |r|
  {
    r[i] == SLASH || (i + 1 < |r| && r[i] == DOT0 && r[i + 1] == DOT1)
  }
}
