/** SHA-256 as an abstract function of the bytes fed to it.
    `sha256.update(a); sha256.update(b)` hashes the concatenation `a + b`, so a digest is the hash
    of the flattened list of updates. Collision freedom is assumed per pair, where a lemma needs it. */
module Hashing {

  /** `hexdigest()` of the SHA-256 of a byte stream (bytes modelled as characters). */
  type Hasher = string -> string

  /** The byte stream produced by a sequence of `update` calls. */
  function Flatten(chunks: seq<string>): string
  {
    if chunks == [] then "" else Flatten(chunks[..|chunks| - 1]) + chunks[|chunks| - 1]
  }

  lemma {:induction false} FlattenAppend(a: seq<string>, b: seq<string>)
    ensures Flatten(a + b) == Flatten(a) + Flatten(b)
    decreases |b|
  {
    if b == [] {
      assert a + b == a;
    } else {
      var ab, b' := a + b, b[..|b| - 1];
      assert ab[..|ab| - 1] == a + b' && ab[|ab| - 1] == b[|b| - 1];
      assert Flatten(ab) == Flatten(a + b') + b[|b| - 1];
      FlattenAppend(a, b');
      assert Flatten(b) == Flatten(b') + b[|b| - 1];
    }
  }

  /** Three updates in a row. */
  lemma FlattenThree(a: string, b: string, c: string)
    ensures Flatten([a, b, c]) == a + b + c
  {
    var x, y, z := [a, b, c], [a, b], [a];
    assert z[..0] == [] && Flatten(z) == a;
    assert y[..1] == z && Flatten(y) == a + b;
    assert x[..2] == y;
  }

  function Digest(h: Hasher, chunks: seq<string>): string
  {
    h(Flatten(chunks))
  }

  /** `h` does not collide on the two given inputs. */
  ghost predicate CollisionFree(h: Hasher, a: string, b: string)
  {
    h(a) == h(b) ==> a == b
  }

  /** Updates that differ only in the last chunk give different digests, if the hash does not collide. */
  lemma LastChunkChangesDigest(h: Hasher, prefix: seq<string>, x: string, y: string)
    requires x != y
    requires CollisionFree(h, Flatten(prefix + [x]), Flatten(prefix + [y]))
    ensures Digest(h, prefix + [x]) != Digest(h, prefix + [y])
  {
    FlattenAppend(prefix, [x]);
    FlattenAppend(prefix, [y]);
    assert Flatten([x]) == x && Flatten([y]) == y;
    var f := Flatten(prefix);
    assert (f + x)[|f|..] == x && (f + y)[|f|..] == y;
  }

  /** One more non-empty update changes the digest, if the hash does not collide. */
  lemma ExtraChunkChangesDigest(h: Hasher, prefix: seq<string>, x: string)
    requires x != ""
    requires CollisionFree(h, Flatten(prefix), Flatten(prefix + [x]))
    ensures Digest(h, prefix) != Digest(h, prefix + [x])
  {
    FlattenAppend(prefix, [x]);
    assert Flatten([x]) == x;
  }
}
