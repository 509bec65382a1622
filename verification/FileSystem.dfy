/** A file system as names bound to inodes, so that hard links and in-place writes are visible. */
module FileSystem {
  import opened Prelude
  import opened ContentHash
  import opened StorePaths

  datatype Node = Node(bytes: Bytes, readOnly: bool)

  datatype Fs = Fs(names: map<Path, nat>, nodes: map<nat, Node>, next: nat)
  {
    ghost predicate WellFormed() {
      && (forall p :: p in names ==> names[p] in nodes)
      && (forall i :: i in nodes ==> i < next)
    }

    function NodeAt(p: Path): Node
      requires p in names && names[p] in nodes
    {
      nodes[names[p]]
    }

    function BytesAt(p: Path): Bytes
      requires p in names && names[p] in nodes
    {
      nodes[names[p]].bytes
    }

    /** Binds `p` to a fresh inode. */
    function NewFile(p: Path, node: Node): Fs {
      Fs(names[p := next], nodes[next := node], next + 1)
    }

    /** Creates `p`, or truncates and rewrites the inode it already names. */
    function Overwrite(p: Path, bytes: Bytes): Fs
      requires p in names ==> names[p] in nodes
    {
      if p in names then Fs(names, nodes[names[p] := NodeAt(p).(bytes := bytes)], next)
      else NewFile(p, Node(bytes, false))
    }

    function Remove(p: Path): Fs {
      Fs(names - {p}, nodes, next)
    }

    function Rename(p: Path, q: Path): Fs
      requires p in names
    {
      Fs(names[q := names[p]] - {p}, nodes, next)
    }

    function HardLink(p: Path, q: Path): Fs
      requires p in names
    {
      Fs(names[q := names[p]], nodes, next)
    }

    function SetMode(p: Path, readOnly: bool): Fs
      requires p in names && names[p] in nodes
    {
      Fs(names, nodes[names[p] := NodeAt(p).(readOnly := readOnly)], next)
    }
  }

  /** ASCII text as file content, and file content as ASCII text. */
  function TextBytes(text: string): Bytes {
    seq(|text|, i requires 0 <= i < |text| => (text[i] as int) % 256)
  }

  function TextOf(bytes: Bytes): string {
    seq(|bytes|, i requires 0 <= i < |bytes| => bytes[i] as char)
  }

  lemma HexTextRoundTrip(h: Hash)
    ensures TextOf(TextBytes(ToHex(h))) == ToHex(h)
  {
  }

  datatype Config = Config(root: Path, blake3: Bytes -> Hash)

  datatype Area = Outside | Objects | Aliases | Temporary | Elsewhere

  function AreaOf(root: Path, p: Path): Area {
    if !(root <= p) || |p| == |root| then Outside
    else if p[|root|] == OBJECTS_DIR then Objects
    else if p[|root|] == ALIASES_DIR then Aliases
    else if p[|root|] == TMP_DIR then Temporary
    else Elsewhere
  }

  lemma StoreAreas(root: Path, h: Hash, namespace: string, key: string, name: string)
    ensures AreaOf(root, ObjectPath(root, h)) == Objects
    ensures AreaOf(root, AliasPath(root, namespace, key)) == Aliases
    ensures AreaOf(root, TempPath(root, name)) == Temporary
  {
  }

  /** Every stored object's content hashes to the name it is stored under. */
  ghost predicate Intact(cfg: Config, fs: Fs)
    requires fs.WellFormed()
  {
    forall h: Hash :: ObjectPath(cfg.root, h) in fs.names ==> cfg.blake3(fs.BytesAt(ObjectPath(cfg.root, h))) == h
  }

  /** Two names share an inode only when both are objects or destinations that were hard-linked. */
  ghost predicate Exclusive(cfg: Config, fs: Fs, shared: set<Path>) {
    forall p, q :: p in fs.names && q in fs.names && p != q && fs.names[p] == fs.names[q] ==>
      Linkable(cfg, shared, p) && Linkable(cfg, shared, q)
  }

  ghost predicate Linkable(cfg: Config, shared: set<Path>, p: Path) {
    AreaOf(cfg.root, p) == Objects || p in shared
  }

  ghost predicate FsInv(cfg: Config, fs: Fs, shared: set<Path>) {
    && fs.WellFormed()
    && Intact(cfg, fs)
    && Exclusive(cfg, fs, shared)
    && forall p :: p in shared ==> AreaOf(cfg.root, p) == Outside
  }

  /** Every name other than `p` is still there, with the same inode and the same bytes. */
  ghost predicate OthersKept(before: Fs, after: Fs, p: Path)
    requires before.WellFormed() && after.WellFormed()
  {
    && after.names.Keys <= before.names.Keys + {p}
    && forall q :: q in before.names && q != p ==>
         q in after.names && after.names[q] == before.names[q] && after.BytesAt(q) == before.BytesAt(q)
  }

  lemma ObjectsArea(cfg: Config, h: Hash)
    ensures AreaOf(cfg.root, ObjectPath(cfg.root, h)) == Objects
  {
  }

  lemma RemoveKeepsInv(cfg: Config, fs: Fs, shared: set<Path>, p: Path)
    requires FsInv(cfg, fs, shared)
    ensures FsInv(cfg, fs.Remove(p), shared) && FsInv(cfg, fs.Remove(p), shared - {p})
    ensures OthersKept(fs, fs.Remove(p), p) && p !in fs.Remove(p).names
  {
  }

  lemma NewFileKeepsInv(cfg: Config, fs: Fs, shared: set<Path>, p: Path, node: Node)
    requires FsInv(cfg, fs, shared)
    requires p !in fs.names && AreaOf(cfg.root, p) != Objects
    ensures FsInv(cfg, fs.NewFile(p, node), shared)
    ensures OthersKept(fs, fs.NewFile(p, node), p) && fs.NewFile(p, node).NodeAt(p) == node
  {
  }

  /** Rewriting a file that is neither an object nor a linked destination changes nobody else's bytes. */
  lemma OverwriteKeepsInv(cfg: Config, fs: Fs, shared: set<Path>, p: Path, bytes: Bytes)
    requires FsInv(cfg, fs, shared)
    requires AreaOf(cfg.root, p) != Objects && p !in shared
    ensures FsInv(cfg, fs.Overwrite(p, bytes), shared)
    ensures OthersKept(fs, fs.Overwrite(p, bytes), p)
    ensures p in fs.Overwrite(p, bytes).names && fs.Overwrite(p, bytes).BytesAt(p) == bytes
  {
    if p !in fs.names {
      NewFileKeepsInv(cfg, fs, shared, p, Node(bytes, false));
    } else {
      var after := fs.Overwrite(p, bytes);
      assert after.WellFormed();
      forall q | q in fs.names && q != p
        ensures after.BytesAt(q) == fs.BytesAt(q)
      {
        assert fs.names[q] == fs.names[p] ==> Linkable(cfg, shared, p);
      }
      forall h: Hash | ObjectPath(cfg.root, h) in after.names
        ensures cfg.blake3(after.BytesAt(ObjectPath(cfg.root, h))) == h
      {
        ObjectsArea(cfg, h);
      }
    }
  }

  /** Moving a file whose bytes hash to `h` onto the object path of `h`. */
  lemma RenameKeepsInv(cfg: Config, fs: Fs, shared: set<Path>, temp: Path, h: Hash)
    requires FsInv(cfg, fs, shared)
    requires temp in fs.names && AreaOf(cfg.root, temp) == Temporary
    requires cfg.blake3(fs.BytesAt(temp)) == h
    ensures var after := fs.Rename(temp, ObjectPath(cfg.root, h));
            && FsInv(cfg, after, shared)
            && temp !in after.names
            && ObjectPath(cfg.root, h) in after.names
            && after.BytesAt(ObjectPath(cfg.root, h)) == fs.BytesAt(temp)
            && OthersKept(fs.Remove(temp), after, ObjectPath(cfg.root, h))
  {
    var target := ObjectPath(cfg.root, h);
    var after := fs.Rename(temp, target);
    ObjectsArea(cfg, h);
    assert target != temp;
    assert after.names[target] == fs.names[temp];
    forall g: Hash | ObjectPath(cfg.root, g) in after.names
      ensures cfg.blake3(after.BytesAt(ObjectPath(cfg.root, g))) == g
    {
      if ObjectPath(cfg.root, g) == target {
        ObjectPathInjective(cfg.root, g, h);
      }
    }
    forall p, q | p in after.names && q in after.names && p != q && after.names[p] == after.names[q]
      ensures Linkable(cfg, shared, p) && Linkable(cfg, shared, q)
    {
      if p == target { assert q in fs.names && q != temp; }
      if q == target { assert p in fs.names && p != temp; }
    }
  }

  lemma HardLinkKeepsInv(cfg: Config, fs: Fs, shared: set<Path>, source: Path, dest: Path)
    requires FsInv(cfg, fs, shared)
    requires source in fs.names && AreaOf(cfg.root, source) == Objects
    requires dest !in fs.names && AreaOf(cfg.root, dest) == Outside
    ensures FsInv(cfg, fs.HardLink(source, dest), shared + {dest})
    ensures OthersKept(fs, fs.HardLink(source, dest), dest)
    ensures fs.HardLink(source, dest).BytesAt(dest) == fs.BytesAt(source)
  {
    var after := fs.HardLink(source, dest);
    forall h: Hash | ObjectPath(cfg.root, h) in after.names
      ensures cfg.blake3(after.BytesAt(ObjectPath(cfg.root, h))) == h
    {
      ObjectsArea(cfg, h);
    }
    forall p, q | p in after.names && q in after.names && p != q && after.names[p] == after.names[q]
      ensures Linkable(cfg, shared + {dest}, p) && Linkable(cfg, shared + {dest}, q)
    {
      if p == dest && q != source { assert fs.names[q] == fs.names[source]; }
      if q == dest && p != source { assert fs.names[p] == fs.names[source]; }
    }
  }

  lemma SetModeKeepsInv(cfg: Config, fs: Fs, shared: set<Path>, p: Path, readOnly: bool)
    requires FsInv(cfg, fs, shared) && p in fs.names
    ensures FsInv(cfg, fs.SetMode(p, readOnly), shared)
    ensures fs.SetMode(p, readOnly).names == fs.names
    ensures forall q :: q in fs.names ==> fs.SetMode(p, readOnly).BytesAt(q) == fs.BytesAt(q)
    ensures fs.SetMode(p, readOnly).NodeAt(p).readOnly == readOnly
  {
  }

  // ----- What stays as it is outside the store -----

  ghost predicate OwnInode(fs: Fs, p: Path) {
    p in fs.names && forall q :: q in fs.names && q != p ==> fs.names[q] != fs.names[p]
  }

  /**
   * The name keeps its inode and that its bytes, and one that was read-only stays so. An inode that no other name
   * has stays its own, mode and all.
   */
  ghost predicate KeptAsIs(before: Fs, after: Fs, p: Path)
    requires before.WellFormed() && after.WellFormed()
  {
    && (p in after.names <==> p in before.names)
    && (p in before.names ==>
          && after.names[p] == before.names[p] && after.BytesAt(p) == before.BytesAt(p)
          && (before.NodeAt(p).readOnly ==> after.NodeAt(p).readOnly)
          && (OwnInode(before, p) ==> OwnInode(after, p) && after.NodeAt(p) == before.NodeAt(p)))
  }

  ghost predicate OutsideKept(cfg: Config, before: Fs, after: Fs)
    requires before.WellFormed() && after.WellFormed()
  {
    forall p :: AreaOf(cfg.root, p) == Outside ==> KeptAsIs(before, after, p)
  }

  /** Nothing outside the store has changed but one destination. */
  ghost predicate KeptBut(cfg: Config, before: Fs, after: Fs, dest: Path)
    requires before.WellFormed() && after.WellFormed()
  {
    forall p :: AreaOf(cfg.root, p) == Outside && p != dest ==> KeptAsIs(before, after, p)
  }

  lemma OutsideKeptThrough(cfg: Config, a: Fs, b: Fs, c: Fs)
    requires a.WellFormed() && b.WellFormed() && c.WellFormed() && OutsideKept(cfg, a, b) && OutsideKept(cfg, b, c)
    ensures OutsideKept(cfg, a, c)
  {
    forall p | AreaOf(cfg.root, p) == Outside
      ensures KeptAsIs(a, c, p)
    {
      assert KeptAsIs(a, b, p) && KeptAsIs(b, c, p);
    }
  }

  lemma KeptButThrough(cfg: Config, a: Fs, b: Fs, c: Fs, dest: Path)
    requires a.WellFormed() && b.WellFormed() && c.WellFormed()
    requires KeptBut(cfg, a, b, dest) && KeptBut(cfg, b, c, dest)
    ensures KeptBut(cfg, a, c, dest)
  {
    forall p | AreaOf(cfg.root, p) == Outside && p != dest
      ensures KeptAsIs(a, c, p)
    {
      assert KeptAsIs(a, b, p) && KeptAsIs(b, c, p);
    }
  }

  lemma KeptButAfter(cfg: Config, a: Fs, b: Fs, c: Fs, dest: Path)
    requires a.WellFormed() && b.WellFormed() && c.WellFormed() && OutsideKept(cfg, a, b) && KeptBut(cfg, b, c, dest)
    ensures KeptBut(cfg, a, c, dest)
  {
    forall p | AreaOf(cfg.root, p) == Outside && p != dest
      ensures KeptAsIs(a, c, p)
    {
      assert KeptAsIs(a, b, p) && KeptAsIs(b, c, p);
    }
  }

  lemma RemoveLeavesOthers(cfg: Config, fs: Fs, p: Path)
    requires fs.WellFormed()
    ensures fs.Remove(p).WellFormed() && KeptBut(cfg, fs, fs.Remove(p), p)
    ensures AreaOf(cfg.root, p) != Outside ==> OutsideKept(cfg, fs, fs.Remove(p))
  {
  }

  lemma NewFileLeavesOthers(cfg: Config, fs: Fs, p: Path, node: Node)
    requires fs.WellFormed() && p !in fs.names
    ensures fs.NewFile(p, node).WellFormed() && KeptBut(cfg, fs, fs.NewFile(p, node), p)
    ensures AreaOf(cfg.root, p) != Outside ==> OutsideKept(cfg, fs, fs.NewFile(p, node))
  {
  }

  /** Rewriting a temporary file or an alias: nothing outside shares its inode. */
  lemma OverwriteLeavesOutside(cfg: Config, fs: Fs, shared: set<Path>, p: Path, bytes: Bytes)
    requires FsInv(cfg, fs, shared) && AreaOf(cfg.root, p) != Objects && AreaOf(cfg.root, p) != Outside
    ensures fs.Overwrite(p, bytes).WellFormed() && OutsideKept(cfg, fs, fs.Overwrite(p, bytes))
  {
    if p !in fs.names {
      NewFileLeavesOthers(cfg, fs, p, Node(bytes, false));
    } else {
      forall q | AreaOf(cfg.root, q) == Outside && q in fs.names
        ensures fs.names[q] != fs.names[p]
      {
        assert p !in shared;
      }
    }
  }

  lemma RenameLeavesOutside(cfg: Config, fs: Fs, shared: set<Path>, temp: Path, target: Path)
    requires FsInv(cfg, fs, shared) && temp in fs.names
    requires AreaOf(cfg.root, temp) == Temporary && AreaOf(cfg.root, target) == Objects
    ensures fs.Rename(temp, target).WellFormed() && OutsideKept(cfg, fs, fs.Rename(temp, target))
  {
  }

  /** Making something read-only, or an inode with one name writable, takes nothing from the other names. */
  lemma SetModeLeavesOthers(cfg: Config, fs: Fs, p: Path, readOnly: bool)
    requires fs.WellFormed() && p in fs.names && (readOnly || OwnInode(fs, p))
    ensures fs.SetMode(p, readOnly).WellFormed() && KeptBut(cfg, fs, fs.SetMode(p, readOnly), p)
    ensures AreaOf(cfg.root, p) != Outside ==> OutsideKept(cfg, fs, fs.SetMode(p, readOnly))
    ensures OwnInode(fs, p) ==> OwnInode(fs.SetMode(p, readOnly), p)
  {
  }

  lemma HardLinkLeavesOthers(cfg: Config, fs: Fs, source: Path, dest: Path)
    requires fs.WellFormed() && source in fs.names && dest !in fs.names && AreaOf(cfg.root, source) == Objects
    ensures fs.HardLink(source, dest).WellFormed() && KeptBut(cfg, fs, fs.HardLink(source, dest), dest)
  {
  }
}
