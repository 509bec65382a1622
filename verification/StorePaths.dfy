/** Where the content-addressed store keeps objects, aliases and temporary files. */
module StorePaths {
  import opened Prelude
  import opened ContentHash

  /** A path as its components. */
  type Path = seq<string>

  const OBJECTS_DIR := "objects"
  const ALIASES_DIR := "aliases"
  const TMP_DIR := "tmp"
  const SHARD_LEN: nat := 2

  function ObjectPath(root: Path, h: Hash): (p: Path)
    ensures |p| == |root| + 3
  {
    var hex := ToHex(h);
    root + [OBJECTS_DIR, hex[..SHARD_LEN], hex[SHARD_LEN..]]
  }

  function AliasPath(root: Path, namespace: string, key: string): Path {
    if |key| > SHARD_LEN
    then root + [ALIASES_DIR, namespace, key[..SHARD_LEN], key[SHARD_LEN..]]
    else root + [ALIASES_DIR, namespace, "_", key]
  }

  function TempPath(root: Path, name: string): Path {
    root + [TMP_DIR, name]
  }

  /** Where everything lies on disk. */
  lemma StoreLayout(root: Path, h: Hash, namespace: string, a: char, b: char, rest: string, name: string)
    ensures ObjectPath(root, h) == root + ["objects", ToHex(h)[..2], ToHex(h)[2..]]
    ensures rest != "" ==> AliasPath(root, namespace, [a, b] + rest) == root + ["aliases", namespace, [a, b], rest]
    ensures AliasPath(root, namespace, [a, b]) == root + ["aliases", namespace, "_", [a, b]]
    ensures TempPath(root, name) == root + ["tmp", name]
  {
    assert ([a, b] + rest)[..2] == [a, b] && ([a, b] + rest)[2..] == rest;
  }

  function HashFromObjectPath(path: Path): Option<Hash> {
    if |path| < 2 then None
    else
      var name, shard := path[|path| - 1], path[|path| - 2];
      if |shard| + |name| != HASH_HEX_LEN then None else Parse(shard + name)
  }

  ghost predicate IsObject(root: Path, path: Path) {
    exists h: Hash :: path == ObjectPath(root, h)
  }

  lemma ObjectPathRoundTrip(root: Path, h: Hash)
    ensures HashFromObjectPath(ObjectPath(root, h)) == Some(h)
  {
    var hex := ToHex(h);
    assert hex[..SHARD_LEN] + hex[SHARD_LEN..] == hex;
    HexRoundTrip(h);
  }

  lemma ObjectPathInjective(root: Path, g: Hash, h: Hash)
    requires ObjectPath(root, g) == ObjectPath(root, h)
    ensures g == h
  {
    ObjectPathRoundTrip(root, g);
    ObjectPathRoundTrip(root, h);
  }

  /** A file two levels below `objects` names a hash by its own object path iff it is spelled canonically. */
  lemma ObjectPathCanonical(root: Path, shard: string, name: string, h: Hash)
    requires HashFromObjectPath(root + [OBJECTS_DIR, shard, name]) == Some(h)
    ensures root + [OBJECTS_DIR, shard, name] == ObjectPath(root, h)
       <==> |shard| == SHARD_LEN && shard + name == ToHex(h)
  {
    var hex := ToHex(h);
    var path := root + [OBJECTS_DIR, shard, name];
    if path == ObjectPath(root, h) {
      assert shard == path[|root| + 1] == hex[..SHARD_LEN];
      assert name == path[|root| + 2] == hex[SHARD_LEN..];
      assert hex[..SHARD_LEN] + hex[SHARD_LEN..] == hex;
    }
    if |shard| == SHARD_LEN && shard + name == hex {
      assert hex[..SHARD_LEN] == shard && hex[SHARD_LEN..] == name;
    }
  }

  lemma AliasPathInjective(root: Path, n1: string, k1: string, n2: string, k2: string)
    requires AliasPath(root, n1, k1) == AliasPath(root, n2, k2)
    ensures n1 == n2 && k1 == k2
  {
    var p, q, d := AliasPath(root, n1, k1), AliasPath(root, n2, k2), |root|;
    assert p[d + 1] == q[d + 1] && p[d + 2] == q[d + 2] && p[d + 3] == q[d + 3];
    assert |p[d + 2]| == 2 <==> |k1| > SHARD_LEN;
    assert |q[d + 2]| == 2 <==> |k2| > SHARD_LEN;
    if |k1| > SHARD_LEN {
      assert k1 == k1[..SHARD_LEN] + k1[SHARD_LEN..] && k2 == k2[..SHARD_LEN] + k2[SHARD_LEN..];
    }
  }
}
