/** The content-addressed store's operations, one call at a time: writing, committing, placing, collecting. */
module ObjectStore {
  import opened Prelude
  import opened ContentHash
  import opened StorePaths
  import opened FileSystem
  import opened StoreMachine

  datatype StoreError = Missing(h: Hash) | Io

  datatype Link = Reflinked | Hardlinked | Copied

  datatype GcStats = GcStats(removedObjects: nat, removedBytes: nat, retainedObjects: nat, retainedBytes: nat)

  // ----- Aliases -----

  function AliasTarget(cfg: Config, fs: Fs, namespace: string, key: string): Option<Hash>
    requires forall p :: p in fs.names ==> fs.names[p] in fs.nodes
  {
    var p := AliasPath(cfg.root, namespace, key);
    if p in fs.names then Parse(Trim(TextOf(fs.BytesAt(p)))) else None
  }

  /** An alias counts only while its target is stored. */
  function ResolvedAlias(cfg: Config, fs: Fs, namespace: string, key: string): Option<Hash>
    requires forall p :: p in fs.names ==> fs.names[p] in fs.nodes
  {
    var target := AliasTarget(cfg, fs, namespace, key);
    if target.Some? && ObjectPath(cfg.root, target.value) in fs.names then target else None
  }

  /** A hash's text cut short does not read as any hash. */
  lemma CutHexIsNoHash(h: Hash, n: nat)
    requires n <= |ToHex(h)|
    ensures Parse(Trim(TextOf(TextBytes(ToHex(h)[..n])))) == if n == |ToHex(h)| then Some(h) else None
  {
    if n == |ToHex(h)| {
      assert ToHex(h)[..n] == ToHex(h);
      HexTextRoundTrip(h);
      HexIsTrimmed(h);
      HexRoundTrip(h);
    }
  }

  // ----- What the operations do to the files when nothing fails -----

  function Committed(fs: Fs, temp: Path, target: Path): Fs
    requires temp in fs.names && fs.names[temp] in fs.nodes && temp != target
  {
    if target in fs.names then fs.Remove(temp) else fs.Rename(temp, target).SetMode(target, true)
  }

  function PlacedAs(fs: Fs, source: Path, dest: Path, link: Link): (after: Fs)
    requires source in fs.names && fs.names[source] in fs.nodes
    ensures dest in after.names && after.names[dest] in after.nodes
  {
    if link.Hardlinked? then fs.HardLink(source, dest) else fs.NewFile(dest, fs.NodeAt(source))
  }

  function Materialized(fs: Fs, source: Path, dest: Path, mode: Mode, link: Link): Fs
    requires source in fs.names && fs.names[source] in fs.nodes && source != dest
  {
    PlacedAs(fs.Remove(dest), source, dest, link).SetMode(dest, mode.Shared?)
  }

  // ----- Collection -----

  predicate IsEntry(cfg: Config, p: Path) {
    |p| == |cfg.root| + 3 && cfg.root + [OBJECTS_DIR] <= p
  }

  /** The directory entries gc counts: files two levels below `objects` whose names spell a hash. */
  ghost function Counted(cfg: Config, names: set<Path>): set<Path> {
    set p | p in names && IsEntry(cfg, p) && HashFromObjectPath(p).Some?
  }

  ghost function Doomed(cfg: Config, names: set<Path>, live: set<Hash>): set<Path> {
    set p | p in Counted(cfg, names) && HashFromObjectPath(p).value !in live
  }

  ghost function Retained(cfg: Config, names: set<Path>, live: set<Hash>): set<Path> {
    set p | p in Counted(cfg, names) && HashFromObjectPath(p).value in live
  }

  ghost function TotalBytes(fs: Fs, ps: set<Path>): nat
    requires forall p :: p in ps ==> p in fs.names && fs.names[p] in fs.nodes
  {
    if ps == {} then 0
    else
      var p :| p in ps;
      |fs.BytesAt(p)| + TotalBytes(fs, ps - {p})
  }

  lemma {:induction false} TotalBytesInsert(fs: Fs, ps: set<Path>, p: Path)
    requires p !in ps && forall q :: q in ps + {p} ==> q in fs.names && fs.names[q] in fs.nodes
    ensures TotalBytes(fs, ps + {p}) == TotalBytes(fs, ps) + |fs.BytesAt(p)|
  {
    var all := ps + {p};
    var q :| q in all && TotalBytes(fs, all) == |fs.BytesAt(q)| + TotalBytes(fs, all - {q});
    if q == p {
      assert all - {q} == ps;
    } else {
      TotalBytesInsert(fs, ps - {q}, p);
      assert all - {q} == (ps - {q}) + {p};
      TotalBytesInsert(fs, ps - {q}, q);
      assert (ps - {q}) + {q} == ps;
    }
  }

  lemma {:induction false} TotalBytesUnion(fs: Fs, a: set<Path>, b: set<Path>)
    requires a !! b && forall q :: q in a + b ==> q in fs.names && fs.names[q] in fs.nodes
    ensures TotalBytes(fs, a + b) == TotalBytes(fs, a) + TotalBytes(fs, b)
  {
    if b == {} {
      assert a + b == a;
    } else {
      var p :| p in b;
      TotalBytesUnion(fs, a, b - {p});
      TotalBytesInsert(fs, a + (b - {p}), p);
      TotalBytesInsert(fs, b - {p}, p);
      assert a + (b - {p}) + {p} == a + b;
      assert (b - {p}) + {p} == b;
    }
  }

  function ShardOf(cfg: Config, p: Path): string
    requires IsEntry(cfg, p)
  {
    p[|cfg.root| + 1]
  }

  lemma TakenOn(before: Bytes, buffer: Bytes, at: nat, n: nat)
    requires at + n <= |buffer|
    ensures before + buffer[..at] + buffer[at..][..n] == before + buffer[..at + n]
  {
  }

  lemma MeetInsert(some: set<Path>, seen: set<Path>, p: Path)
    requires p !in seen
    ensures some * (seen + {p}) == if p in some then some * seen + {p} else some * seen
    ensures |some * (seen + {p})| == |some * seen| + (if p in some then 1 else 0)
  {
  }

  /** A collection's view of the store it started on. */
  datatype Scan = Scan(start: Fs, doomed: set<Path>, retained: set<Path>)
  {
    ghost predicate Sound() {
      && start.WellFormed()
      && doomed + retained <= start.names.Keys
      && doomed !! retained
    }

    ghost predicate Classifies(live: set<Hash>, p: Path) {
      && (p in doomed <==> HashFromObjectPath(p).Some? && HashFromObjectPath(p).value !in live)
      && (p in retained <==> HashFromObjectPath(p).Some? && HashFromObjectPath(p).value in live)
    }

    /** The file system and the statistics once the entries in `seen` are dealt with. */
    ghost function After(seen: set<Path>): Fs {
      Fs(start.names - (doomed * seen), start.nodes, start.next)
    }

    ghost function Stats(seen: set<Path>): GcStats
      requires Sound()
    {
      GcStats(|doomed * seen|, TotalBytes(start, doomed * seen), |retained * seen|, TotalBytes(start, retained * seen))
    }

    function Counting(p: Path, was: GcStats): GcStats
      requires start.WellFormed() && p in start.names
    {
      var size := |start.BytesAt(p)|;
      if p in doomed then was.(removedObjects := was.removedObjects + 1, removedBytes := was.removedBytes + size)
      else if p in retained then
        was.(retainedObjects := was.retainedObjects + 1, retainedBytes := was.retainedBytes + size)
      else was
    }

    lemma CountingBy(live: set<Hash>, p: Path, was: GcStats)
      requires start.WellFormed() && p in start.names && Classifies(live, p)
      ensures HashFromObjectPath(p).None? ==> Counting(p, was) == was
      ensures HashFromObjectPath(p).Some? && HashFromObjectPath(p).value in live ==>
                Counting(p, was) == was.(retainedObjects := was.retainedObjects + 1,
                                         retainedBytes := was.retainedBytes + |start.BytesAt(p)|)
      ensures HashFromObjectPath(p).Some? && HashFromObjectPath(p).value !in live ==>
                Counting(p, was) == was.(removedObjects := was.removedObjects + 1,
                                         removedBytes := was.removedBytes + |start.BytesAt(p)|)
    {
    }

    /** Dealing with one more entry removes it and counts it, counts it, or does nothing. */
    lemma SeenInsert(seen: set<Path>, p: Path)
      requires Sound() && p in start.names && p !in seen
      ensures After(seen + {p}) == if p in doomed then After(seen).Remove(p) else After(seen)
      ensures p in After(seen).names && After(seen).names[p] == start.names[p]
      ensures Stats(seen + {p}) == Counting(p, Stats(seen))
    {
      CountedOneMore(seen, p);
      RemovedOneMore(seen, p);
    }

    lemma CountedOneMore(seen: set<Path>, p: Path)
      requires Sound() && p in start.names && p !in seen
      ensures Stats(seen + {p}) == Counting(p, Stats(seen))
    {
      MeetInsert(doomed, seen, p);
      MeetInsert(retained, seen, p);
      if p in doomed {
        TotalBytesInsert(start, doomed * seen, p);
      } else if p in retained {
        TotalBytesInsert(start, retained * seen, p);
      }
    }

    lemma RemovedOneMore(seen: set<Path>, p: Path)
      requires p in start.names && p !in seen
      ensures After(seen + {p}) == if p in doomed then After(seen).Remove(p) else After(seen)
    {
    }
  }

  ghost function NewScan(cfg: Config, fs: Fs, live: set<Hash>): (scan: Scan)
    requires fs.WellFormed()
    ensures scan.Sound() && scan.start == fs
    ensures scan.doomed == Doomed(cfg, fs.names.Keys, live) && scan.retained == Retained(cfg, fs.names.Keys, live)
  {
    Scan(fs, Doomed(cfg, fs.names.Keys, live), Retained(cfg, fs.names.Keys, live))
  }

  lemma ScanClassifies(cfg: Config, fs: Fs, live: set<Hash>)
    requires fs.WellFormed()
    ensures forall p :: p in fs.names && IsEntry(cfg, p) ==> NewScan(cfg, fs, live).Classifies(live, p)
    ensures forall p :: p in NewScan(cfg, fs, live).doomed + NewScan(cfg, fs, live).retained ==> IsEntry(cfg, p)
  {
  }

  lemma ScanBegins(cfg: Config, fs: Fs, live: set<Hash>, shards: set<string>)
    requires fs.WellFormed()
    requires forall p :: p in fs.names && IsEntry(cfg, p) ==> ShardOf(cfg, p) in shards
    ensures ShardsSeen(cfg, fs.names.Keys, shards) == {}
    ensures NewScan(cfg, fs, live).After({}) == fs && NewScan(cfg, fs, live).Stats({}) == GcStats(0, 0, 0, 0)
    ensures forall p :: p in fs.names && IsEntry(cfg, p) ==> NewScan(cfg, fs, live).Classifies(live, p)
  {
  }

  lemma ScanEnds(cfg: Config, fs: Fs, live: set<Hash>, seen: set<Path>)
    requires fs.WellFormed() && seen == ShardsSeen(cfg, fs.names.Keys, {})
    ensures CollectedFrom(cfg, fs, NewScan(cfg, fs, live).After(seen), live, NewScan(cfg, fs, live).Stats(seen))
  {
    var scan := NewScan(cfg, fs, live);
    ScanClassifies(cfg, fs, live);
    assert scan.doomed * seen == scan.doomed && scan.retained * seen == scan.retained;
  }

  lemma OneMoreSeen(seen: set<Path>, files: set<Path>, left: set<Path>, p: Path)
    requires p in left && left <= files && files !! seen
    ensures p in files && p !in seen + (files - left)
    ensures seen + (files - (left - {p})) == seen + (files - left) + {p}
  {
  }

  lemma AllSeen(seen: set<Path>, files: set<Path>, left: set<Path>)
    requires left == {}
    ensures seen + (files - left) == seen + files
  {
  }

  /** The entries of the shards that are no longer waiting. */
  ghost function ShardsSeen(cfg: Config, names: set<Path>, waiting: set<string>): set<Path> {
    set p | p in names && IsEntry(cfg, p) && ShardOf(cfg, p) !in waiting
  }

  /** A shard still waiting is listed as it was at the start: removals have only hit shards already seen. */
  lemma ShardUntouched(cfg: Config, start: set<Path>, doomed: set<Path>, now: set<Path>, waiting: set<string>,
                       shard: string, seen: set<Path>)
    requires seen == ShardsSeen(cfg, start, waiting) && shard in waiting
    requires now == start - (doomed * seen)
    ensures (set p | p in now && IsEntry(cfg, p) && ShardOf(cfg, p) == shard)
         == (set p | p in start && IsEntry(cfg, p) && ShardOf(cfg, p) == shard)
    ensures seen + (set p | p in now && IsEntry(cfg, p) && ShardOf(cfg, p) == shard)
         == ShardsSeen(cfg, start, waiting - {shard})
    ensures seen !! set p | p in now && IsEntry(cfg, p) && ShardOf(cfg, p) == shard
  {
  }

  /** What a completed collection leaves. */
  ghost predicate CollectedFrom(cfg: Config, before: Fs, after: Fs, live: set<Hash>, stats: GcStats)
    requires before.WellFormed()
  {
    var names := before.names.Keys;
    && after == Fs(before.names - Doomed(cfg, names, live), before.nodes, before.next)
    && stats == GcStats(|Doomed(cfg, names, live)|, TotalBytes(before, Doomed(cfg, names, live)),
                        |Retained(cfg, names, live)|, TotalBytes(before, Retained(cfg, names, live)))
  }

  /** No inode that existed has lost or changed its bytes. */
  ghost predicate NodesKept(before: Fs, after: Fs) {
    forall i :: i in before.nodes ==> i in after.nodes && after.nodes[i].bytes == before.nodes[i].bytes
  }

  lemma NewFileFrame(fs: Fs, dest: Path, node: Node)
    requires fs.WellFormed()
    ensures var after := fs.Remove(dest).NewFile(dest, node);
            && after.WellFormed() && OthersKept(fs, after, dest) && NodesKept(fs, after)
            && OwnInode(after, dest) && after.NodeAt(dest) == node
  {
  }

  lemma SetModeFrame(before: Fs, fs: Fs, dest: Path, readOnly: bool)
    requires before.WellFormed() && fs.WellFormed() && dest in fs.names
    requires OthersKept(before, fs, dest) && NodesKept(before, fs)
    ensures var after := fs.SetMode(dest, readOnly);
            && after.WellFormed() && OthersKept(before, after, dest) && NodesKept(before, after)
            && after.NodeAt(dest) == Node(fs.BytesAt(dest), readOnly)
            && (OwnInode(fs, dest) ==> OwnInode(after, dest))
  {
  }

  lemma PermitFrame(cfg: Config, before: Fs, fs: Fs, shared: set<Path>, dest: Path, readOnly: bool)
    requires before.WellFormed() && FsInv(cfg, fs, shared) && dest in fs.names && (readOnly || OwnInode(fs, dest))
    requires OthersKept(before, fs, dest) && NodesKept(before, fs) && KeptBut(cfg, before, fs, dest)
    ensures var after := fs.SetMode(dest, readOnly);
            && FsInv(cfg, after, shared) && OthersKept(before, after, dest) && NodesKept(before, after)
            && KeptBut(cfg, before, after, dest)
            && after.NodeAt(dest) == Node(fs.BytesAt(dest), readOnly)
            && (OwnInode(fs, dest) ==> OwnInode(after, dest))
  {
    SetModeKeepsInv(cfg, fs, shared, dest, readOnly);
    SetModeFrame(before, fs, dest, readOnly);
    SetModeLeavesOthers(cfg, fs, dest, readOnly);
    KeptButThrough(cfg, before, fs, fs.SetMode(dest, readOnly), dest);
  }

  datatype Refusal = NoReflink | NoLink

  /** What has to be refused before an object is placed this way: a shared one is not copied while it can be linked. */
  function RefusedBefore(link: Link, mode: Mode): seq<Refusal> {
    match link
    case Reflinked => []
    case Hardlinked => [NoReflink]
    case Copied => if mode.Shared? then [NoReflink, NoLink] else [NoReflink]
  }

  class Writer {
    const name: string
    var hashed: Bytes
    var written: nat
    var isOpen: bool

    constructor (name: string)
      ensures this.name == name && hashed == [] && written == 0 && isOpen
    {
      this.name, hashed, written, isOpen := name, [], 0, true;
    }
  }

  class Store {
    const cfg: Config
    var fs: Fs
    ghost var shared: set<Path>
    /** The ways of placing that the file system refused, in the order they were tried. */
    ghost var refused: seq<Refusal>
    ghost var faults: nat

    ghost predicate Valid()
      reads this
    {
      FsInv(cfg, fs, shared)
    }

    /** The writer's temporary file holds exactly the bytes it has hashed. */
    ghost predicate Holds(w: Writer)
      reads this, w
    {
      && w.isOpen
      && w.written == |w.hashed|
      && TempPath(cfg.root, w.name) in fs.names
      && fs.names[TempPath(cfg.root, w.name)] in fs.nodes
      && fs.BytesAt(TempPath(cfg.root, w.name)) == w.hashed
    }

    constructor (root: Path, blake3: Bytes -> Hash, fs: Fs)
      requires FsInv(Config(root, blake3), fs, {})
      ensures Valid() && this.fs == fs && cfg == Config(root, blake3)
      ensures shared == {} && refused == [] && faults == 0
    {
      cfg, this.fs, shared, refused, faults := Config(root, blake3), fs, {}, [], 0;
    }

    /** One call to the file system, which may fail; failures are counted. */
    method Try() returns (ok: bool)
      modifies this`faults
      ensures faults == old(faults) + if ok then 0 else 1
    {
      ok := *;
      faults := faults + if ok then 0 else 1;
    }

    function Contains(h: Hash): bool
      reads this
    {
      ObjectPath(cfg.root, h) in fs.names
    }

    /** Temporary names are unique: a process id and a counter. */
    method NewWriter(name: string) returns (r: Result<Writer, StoreError>)
      requires Valid() && TempPath(cfg.root, name) !in fs.names
      modifies this`fs, this`faults
      ensures Valid()
      ensures faults >= old(faults) && (r.Err? <==> faults > old(faults))
      ensures r.Err? ==> r.error == Io && fs == old(fs)
      ensures r.Ok? ==>
                && fresh(r.value) && r.value.name == name && r.value.hashed == [] && Holds(r.value)
                && old(fs).WellFormed() && OthersKept(old(fs), fs, TempPath(cfg.root, name))
                && OutsideKept(cfg, old(fs), fs)
    {
      var created := Try();
      if !created {
        return Err(Io);
      }
      TempArea(cfg, name);
      NewFileKeepsInv(cfg, fs, shared, TempPath(cfg.root, name), Node([], false));
      NewFileLeavesOthers(cfg, fs, TempPath(cfg.root, name), Node([], false));
      fs := fs.NewFile(TempPath(cfg.root, name), Node([], false));
      var w := new Writer(name);
      return Ok(w);
    }

    /** One write accepts as many bytes as the file system takes, and hashes exactly those. */
    method Write(w: Writer, buffer: Bytes) returns (r: Result<nat, StoreError>)
      requires Valid() && Holds(w)
      modifies this`fs, this`faults, w
      ensures Valid() && Holds(w)
      ensures faults >= old(faults) && (r.Err? <==> faults > old(faults))
      ensures r.Ok? ==> r.value <= |buffer| && w.hashed == old(w.hashed) + buffer[..r.value]
      ensures r.Ok? && buffer != [] ==> r.value > 0
      ensures r.Err? ==> w.hashed == old(w.hashed)
      ensures old(fs).WellFormed() && OthersKept(old(fs), fs, TempPath(cfg.root, w.name))
      ensures OutsideKept(cfg, old(fs), fs)
    {
      var ok := Try();
      if !ok {
        return Err(Io);
      }
      var n :| 0 <= n <= |buffer| && (buffer != [] ==> n > 0);
      var temp := TempPath(cfg.root, w.name);
      TempArea(cfg, w.name);
      OverwriteKeepsInv(cfg, fs, shared, temp, w.hashed + buffer[..n]);
      OverwriteLeavesOutside(cfg, fs, shared, temp, w.hashed + buffer[..n]);
      fs := fs.Overwrite(temp, fs.BytesAt(temp) + buffer[..n]);
      w.hashed := w.hashed + buffer[..n];
      w.written := w.written + n;
      return Ok(n);
    }

    method WriteAll(w: Writer, buffer: Bytes) returns (ok: bool)
      requires Valid() && Holds(w)
      modifies this`fs, this`faults, w
      ensures Valid() && Holds(w)
      ensures faults >= old(faults) && (!ok <==> faults > old(faults))
      ensures ok ==> w.hashed == old(w.hashed) + buffer
      ensures old(fs).WellFormed() && OthersKept(old(fs), fs, TempPath(cfg.root, w.name))
      ensures OutsideKept(cfg, old(fs), fs)
    {
      var at := 0;
      while at < |buffer|
        invariant 0 <= at <= |buffer|
        invariant Valid() && Holds(w) && faults == old(faults)
        invariant w.hashed == old(w.hashed) + buffer[..at]
        invariant old(fs).WellFormed() && OthersKept(old(fs), fs, TempPath(cfg.root, w.name))
        invariant OutsideKept(cfg, old(fs), fs)
        decreases |buffer| - at
      {
        ghost var before := fs;
        var n := Write(w, buffer[at..]);
        OutsideKeptThrough(cfg, old(fs), before, fs);
        if n.Err? {
          return false;
        }
        TakenOn(old(w.hashed), buffer, at, n.value);
        at := at + n.value;
      }
      assert buffer[..|buffer|] == buffer;
      return true;
    }

    method FlushWriter(w: Writer) returns (ok: bool)
      requires Valid() && Holds(w)
      modifies this`faults
      ensures Valid() && Holds(w)
      ensures faults >= old(faults) && (!ok <==> faults > old(faults))
    {
      ok := Try();
    }

    /** Dropping an open writer removes its temporary file, if the file system lets it. */
    method Drop(w: Writer)
      requires Valid() && Holds(w)
      modifies this`fs, this`faults, w
      ensures Valid() && !w.isOpen && faults >= old(faults)
      ensures old(fs).WellFormed() && OthersKept(old(fs), fs, TempPath(cfg.root, w.name))
      ensures OutsideKept(cfg, old(fs), fs)
    {
      w.isOpen := false;
      RemoveKeepsInv(cfg, fs, shared, TempPath(cfg.root, w.name));
      TempArea(cfg, w.name);
      RemoveLeavesOthers(cfg, fs, TempPath(cfg.root, w.name));
      var removed := Try();
      if removed {
        fs := fs.Remove(TempPath(cfg.root, w.name));
      }
    }

    /**
     * Stores the written bytes under their hash. Objects already stored are never replaced or lost, and a
     * new one holds exactly what was written, read-only.
     */
    method Commit(w: Writer) returns (r: Result<Hash, StoreError>)
      requires Valid() && Holds(w)
      modifies this`fs, this`faults, w
      ensures faults >= old(faults) && (r.Err? <==> faults > old(faults)) && (r.Err? ==> r.error == Io)
      ensures Valid() && !w.isOpen && w.hashed == old(w.hashed)
      ensures r.Ok? ==>
                && r.value == cfg.blake3(w.hashed) && Contains(r.value)
                && TempPath(cfg.root, w.name) !in fs.names
      ensures r.Ok? ==> fs == Committed(old(fs), TempPath(cfg.root, w.name), ObjectPath(cfg.root, r.value))
      ensures r.Ok? && ObjectPath(cfg.root, r.value) !in old(fs).names ==>
                fs.NodeAt(ObjectPath(cfg.root, r.value)) == Node(w.hashed, true)
      ensures fs.names.Keys <= old(fs).names.Keys + {ObjectPath(cfg.root, cfg.blake3(w.hashed))}
      ensures old(fs).WellFormed() && OutsideKept(cfg, old(fs), fs)
      ensures forall p :: p in old(fs).names && p != TempPath(cfg.root, w.name) ==>
                p in fs.names && fs.BytesAt(p) == old(fs).BytesAt(p)
      ensures ObjectPath(cfg.root, cfg.blake3(w.hashed)) in fs.names
              && ObjectPath(cfg.root, cfg.blake3(w.hashed)) !in old(fs).names ==>
                fs.BytesAt(ObjectPath(cfg.root, cfg.blake3(w.hashed))) == w.hashed
    {
      w.isOpen := false;
      var synced := Try();
      if !synced {
        return Err(Io);
      }
      var temp, h := TempPath(cfg.root, w.name), cfg.blake3(w.hashed);
      var dest := ObjectPath(cfg.root, h);
      TempArea(cfg, w.name);
      ObjectsArea(cfg, h);

      if dest in fs.names {
        var removed := Try();
        if !removed {
          return Err(Io);
        }
        RemoveKeepsInv(cfg, fs, shared, temp);
        RemoveLeavesOthers(cfg, fs, temp);
        fs := fs.Remove(temp);
        return Ok(h);
      }

      var renamed := Try();
      if !renamed {
        return Err(Io);
      }
      RenameKeepsInv(cfg, fs, shared, temp, h);
      RenameLeavesOutside(cfg, fs, shared, temp, dest);
      fs := fs.Rename(temp, dest);
      ghost var renamedFs := fs;

      var sealed := Try();
      if !sealed {
        return Err(Io);
      }
      SetModeKeepsInv(cfg, fs, shared, dest, true);
      SetModeLeavesOthers(cfg, fs, dest, true);
      fs := fs.SetMode(dest, true);
      OutsideKeptThrough(cfg, old(fs), renamedFs, fs);
      return Ok(h);
    }

    method RemoveIfPresent(p: Path) returns (ok: bool)
      requires Valid() && AreaOf(cfg.root, p) == Outside
      modifies this`fs, this`faults, this`shared
      ensures Valid()
      ensures faults >= old(faults) && (!ok <==> faults > old(faults))
      ensures ok ==> fs == old(fs).Remove(p) && shared == old(shared) - {p}
      ensures !ok || (p !in old(fs).names && p !in old(shared)) ==> fs == old(fs) && shared == old(shared)
    {
      ok := Try();
      if ok {
        RemoveKeepsInv(cfg, fs, shared, p);
        fs := fs.Remove(p);
        shared := shared - {p};
        assert p !in old(fs).names ==> fs.names == old(fs).names;
      }
    }

    method Reflink(source: Path, dest: Path) returns (ok: bool)
      requires Valid() && source in fs.names
      requires AreaOf(cfg.root, dest) == Outside && dest !in fs.names
      modifies this`fs, this`refused
      ensures Valid()
      ensures fs == if ok then old(fs).NewFile(dest, old(fs).NodeAt(source)) else old(fs)
      ensures refused == old(refused) + if ok then [] else [NoReflink]
    {
      ok := *;
      refused := refused + if ok then [] else [NoReflink];
      if ok {
        NewFileKeepsInv(cfg, fs, shared, dest, fs.NodeAt(source));
        fs := fs.NewFile(dest, fs.NodeAt(source));
      }
    }

    method LinkTo(source: Path, dest: Path) returns (ok: bool)
      requires Valid() && source in fs.names && AreaOf(cfg.root, source) == Objects
      requires AreaOf(cfg.root, dest) == Outside && dest !in fs.names
      modifies this`fs, this`shared, this`refused
      ensures Valid()
      ensures ok ==> fs == old(fs).HardLink(source, dest) && shared == old(shared) + {dest}
      ensures !ok ==> fs == old(fs) && shared == old(shared)
      ensures refused == old(refused) + if ok then [] else [NoLink]
    {
      ok := *;
      refused := refused + if ok then [] else [NoLink];
      if ok {
        HardLinkKeepsInv(cfg, fs, shared, source, dest);
        fs := fs.HardLink(source, dest);
        shared := shared + {dest};
      }
    }

    /** A copy that fails may leave a truncated destination. */
    method CopyTo(source: Path, dest: Path) returns (ok: bool)
      requires Valid() && source in fs.names
      requires AreaOf(cfg.root, dest) == Outside && dest !in fs.names && dest !in shared
      modifies this`fs, this`faults
      ensures Valid()
      ensures faults >= old(faults) && (!ok <==> faults > old(faults))
      ensures exists node :: fs == old(fs).NewFile(dest, node) && (ok ==> node == old(fs).NodeAt(source))
    {
      ok := Try();
      var bytes := fs.BytesAt(source);
      var n :| 0 <= n <= |bytes| && (ok ==> n == |bytes|);
      assert bytes[..|bytes|] == bytes;
      var node := Node(bytes[..n], fs.NodeAt(source).readOnly);
      NewFileKeepsInv(cfg, fs, shared, dest, node);
      fs := fs.NewFile(dest, node);
    }

    /** Reflink if the file system can; for shared placements else a hard link; else a copy. */
    method Place(source: Path, dest: Path, mode: Mode) returns (r: Result<Link, StoreError>)
      requires Valid() && source in fs.names && AreaOf(cfg.root, source) == Objects
      requires AreaOf(cfg.root, dest) == Outside && dest !in fs.names && dest !in shared
      modifies this`fs, this`faults, this`shared, this`refused
      ensures Valid()
      ensures r.Ok? ==> refused == old(refused) + RefusedBefore(r.value, mode)
      ensures faults >= old(faults) && (r.Err? <==> faults > old(faults))
      ensures r.Ok? ==> fs == PlacedAs(old(fs), source, dest, r.value) && (r.value.Hardlinked? ==> mode.Shared?)
      ensures r.Err? ==> r.error == Io && (fs == old(fs) || exists node :: fs == old(fs).NewFile(dest, node))
    {
      var reflinked := Reflink(source, dest);
      if reflinked {
        return Ok(Reflinked);
      }
      if mode == Shared {
        var cleared := RemoveIfPresent(dest);
        if !cleared {
          return Err(Io);
        }
        var linked := LinkTo(source, dest);
        if linked {
          return Ok(Hardlinked);
        }
      }
      var cleared := RemoveIfPresent(dest);
      if !cleared {
        return Err(Io);
      }
      var copied := CopyTo(source, dest);
      if !copied {
        return Err(Io);
      }
      return Ok(Copied);
    }

    /** `Place` seen from before the destination was cleared. */
    method PlaceOver(source: Path, dest: Path, mode: Mode, ghost fs0: Fs) returns (r: Result<Link, StoreError>)
      requires Valid() && source in fs.names && AreaOf(cfg.root, source) == Objects
      requires AreaOf(cfg.root, dest) == Outside && dest !in shared
      requires fs0.WellFormed() && fs == fs0.Remove(dest)
      modifies this`fs, this`faults, this`shared, this`refused
      ensures r.Ok? ==> refused == old(refused) + RefusedBefore(r.value, mode)
      ensures Valid() && OthersKept(fs0, fs, dest) && NodesKept(fs0, fs) && KeptBut(cfg, fs0, fs, dest)
      ensures r.Ok? ==> fs == PlacedAs(old(fs), source, dest, r.value)
      ensures r.Ok? ==> dest in fs.names && fs.BytesAt(dest) == old(fs).BytesAt(source)
      ensures r.Ok? && r.value.Hardlinked? ==> mode.Shared? && source in fs.names && fs.names[dest] == fs.names[source]
      ensures r.Ok? && !r.value.Hardlinked? ==> OwnInode(fs, dest)
      ensures r.Err? ==> r.error == Io
      ensures faults >= old(faults) && (r.Err? <==> faults > old(faults))
    {
      ghost var cleared := fs;
      r := Place(source, dest, mode);
      RemoveLeavesOthers(cfg, fs0, dest);
      if r.Ok? && r.value.Hardlinked? {
        HardLinkLeavesOthers(cfg, cleared, source, dest);
        KeptButThrough(cfg, fs0, cleared, fs, dest);
      } else if fs != old(fs) {
        ghost var node :| fs == old(fs).NewFile(dest, node)
                          && (r.Ok? ==> node.bytes == old(fs).BytesAt(source));
        NewFileFrame(fs0, dest, node);
        NewFileLeavesOthers(cfg, cleared, dest, node);
        KeptButThrough(cfg, fs0, cleared, fs, dest);
      }
    }

    /**
     * Materializes an object at a path outside the store. Only that path is rebound and no inode that
     * existed changes its bytes; on success the path holds the object's bytes, and a private one has its
     * own inode and is writable.
     */
    method Materialize(h: Hash, dest: Path, mode: Mode) returns (r: Result<Link, StoreError>)
      requires Valid() && AreaOf(cfg.root, dest) == Outside
      modifies this`fs, this`faults, this`shared, this`refused
      ensures r.Ok? ==> refused == old(refused) + RefusedBefore(r.value, mode)
      ensures Valid() && old(fs).WellFormed()
      ensures OthersKept(old(fs), fs, dest) && NodesKept(old(fs), fs) && KeptBut(cfg, old(fs), fs, dest)
      ensures r == Err(Missing(h)) <==> ObjectPath(cfg.root, h) !in old(fs).names
      ensures r == Err(Missing(h)) ==> fs == old(fs)
      ensures faults >= old(faults) && (r == Err(Io) <==> faults > old(faults))
      ensures r.Err? ==> r.error == Io || r.error == Missing(h)
      ensures r.Ok? ==>
                && dest in fs.names && Contains(h)
                && fs.BytesAt(dest) == old(fs).BytesAt(ObjectPath(cfg.root, h))
                && cfg.blake3(fs.BytesAt(dest)) == h
                && fs.NodeAt(dest).readOnly == mode.Shared?
                && fs == Materialized(old(fs), ObjectPath(cfg.root, h), dest, mode, r.value)
      ensures r.Ok? && r.value.Hardlinked? ==> mode.Shared? && fs.names[dest] == fs.names[ObjectPath(cfg.root, h)]
      ensures r.Ok? && !r.value.Hardlinked? ==> OwnInode(fs, dest)
    {
      ObjectsArea(cfg, h);
      if !Contains(h) {
        return Err(Missing(h));
      }
      var parentOk := Try();
      if !parentOk {
        return Err(Io);
      }
      var cleared := RemoveIfPresent(dest);
      if !cleared {
        return Err(Io);
      }
      r := PlaceOver(ObjectPath(cfg.root, h), dest, mode, old(fs));
      if r.Ok? {
        var permitted := Try();
        if !permitted {
          return Err(Io);
        }
        PermitFrame(cfg, old(fs), fs, shared, dest, mode.Shared?);
        fs := fs.SetMode(dest, mode.Shared?);
      }
    }

    method SizeOf(h: Hash) returns (r: Result<nat, StoreError>)
      requires Valid()
      modifies this`faults
      ensures faults >= old(faults) && (r == Err(Io) <==> faults > old(faults))
      ensures r.Ok? ==> Contains(h) && r.value == |fs.BytesAt(ObjectPath(cfg.root, h))|
      ensures r.Err? ==> r.error == Io || (r.error == Missing(h) && !Contains(h))
    {
      if !Contains(h) {
        return Err(Missing(h));
      }
      var readable := Try();
      return if readable then Ok(|fs.BytesAt(ObjectPath(cfg.root, h))|) else Err(Io);
    }

    /** `alias` then `contains`: a dangling or unreadable alias resolves to nothing. */
    method ResolveAlias(namespace: string, key: string) returns (r: Result<Option<Hash>, StoreError>)
      requires Valid()
      modifies this`faults
      ensures faults >= old(faults) && (r.Err? <==> faults > old(faults))
      ensures r.Ok? ==> r.value == ResolvedAlias(cfg, fs, namespace, key)
      ensures r.Err? ==> r.error == Io
    {
      var p := AliasPath(cfg.root, namespace, key);
      if p !in fs.names {
        return Ok(None);
      }
      var readable := Try();
      if !readable {
        return Err(Io);
      }
      var target := Parse(Trim(TextOf(fs.BytesAt(p))));
      if target.Some? && Contains(target.value) {
        return Ok(target);
      }
      return Ok(None);
    }

    /** Writes the alias file; a write that fails may leave it cut short, and it then names nothing. */
    method SetAlias(namespace: string, key: string, h: Hash) returns (r: Result<(), StoreError>)
      requires Valid()
      modifies this`fs, this`faults
      ensures Valid() && old(fs).WellFormed()
      ensures OthersKept(old(fs), fs, AliasPath(cfg.root, namespace, key)) && OutsideKept(cfg, old(fs), fs)
      ensures r.Ok? ==> AliasTarget(cfg, fs, namespace, key) == Some(h)
      ensures r.Err? ==> r.error == Io
                         && (fs == old(fs) || AliasTarget(cfg, fs, namespace, key) in {None, Some(h)})
      ensures faults >= old(faults) && (r.Err? <==> faults > old(faults))
    {
      var parentOk := Try();
      if !parentOk {
        return Err(Io);
      }
      var p, hex := AliasPath(cfg.root, namespace, key), ToHex(h);
      var written := Try();
      var created: bool, n: int :| 0 <= n <= |hex| && (written ==> created && n == |hex|);
      if !created {
        return Err(Io);
      }
      StoreAreas(cfg.root, h, namespace, key, "");
      OverwriteKeepsInv(cfg, fs, shared, p, TextBytes(hex[..n]));
      OverwriteLeavesOutside(cfg, fs, shared, p, TextBytes(hex[..n]));
      fs := fs.Overwrite(p, TextBytes(hex[..n]));
      CutHexIsNoHash(h, n);
      return if written then Ok(()) else Err(Io);
    }

    /** Deals with one directory entry: skip what names no hash, keep what is live, remove the rest. */
    method Visit(p: Path, live: set<Hash>, stats: GcStats, ghost scan: Scan, ghost seen: set<Path>)
      returns (ok: bool, next: GcStats)
      requires Valid() && scan.Sound() && Progress(scan, seen, stats)
      requires p in scan.start.names && p !in seen && scan.Classifies(live, p)
      modifies this`fs, this`faults
      ensures Valid()
      ensures faults >= old(faults) && (!ok <==> faults > old(faults))
      ensures ok ==> Progress(scan, seen + {p}, next)
      ensures !ok ==> fs == old(fs)
    {
      scan.SeenInsert(seen, p);
      scan.CountingBy(live, p, stats);
      var h := HashFromObjectPath(p);
      if h.None? {
        return true, stats;
      }
      ok := Try();
      next := stats;
      if !ok {
        return;
      }
      assert fs.BytesAt(p) == scan.start.BytesAt(p);
      var size := |fs.BytesAt(p)|;
      if h.value in live {
        next := stats.(retainedObjects := stats.retainedObjects + 1, retainedBytes := stats.retainedBytes + size);
      } else {
        RemoveKeepsInv(cfg, fs, shared, p);
        fs := fs.Remove(p);
        next := stats.(removedObjects := stats.removedObjects + 1, removedBytes := stats.removedBytes + size);
      }
    }

    method CollectShard(files: set<Path>, live: set<Hash>, stats: GcStats, ghost scan: Scan, ghost seen: set<Path>)
      returns (ok: bool, next: GcStats)
      requires Valid() && scan.Sound() && Progress(scan, seen, stats)
      requires files !! seen && forall p :: p in files ==> p in scan.start.names && scan.Classifies(live, p)
      modifies this`fs, this`faults
      ensures Valid()
      ensures faults >= old(faults) && (!ok <==> faults > old(faults))
      ensures ok ==> Progress(scan, seen + files, next)
      ensures !ok ==> Underway(scan)
    {
      next := stats;
      var left := files;
      ghost var done, stats1 := seen, stats;
      while left != {}
        invariant Valid() && left <= files && faults == old(faults)
        invariant done == seen + (files - left)
        invariant Progress(scan, done, next) && stats1 == next
        decreases left
      {
        var p :| p in left;
        OneMoreSeen(seen, files, left, p);
        ok, next := Visit(p, live, next, scan, done);
        if !ok {
          ProgressIsUnderway(scan, done, stats1);
          return;
        }
        left, done := left - {p}, done + {p};
        stats1 := next;
      }
      AllSeen(seen, files, left);
      ok := true;
    }

    ghost predicate Scanning(scan: Scan, live: set<Hash>) {
      scan.Sound() && forall p :: p in scan.start.names && IsEntry(cfg, p) ==> scan.Classifies(live, p)
    }

    /** Lists one shard's directory and deals with its files. */
    method ListShard(shard: string, live: set<Hash>, stats: GcStats, ghost scan: Scan, ghost waiting: set<string>)
      returns (ok: bool, next: GcStats)
      requires Valid() && Scanning(scan, live) && shard in waiting
      requires Progress(scan, ShardsSeen(cfg, scan.start.names.Keys, waiting), stats)
      modifies this`fs, this`faults
      ensures Valid()
      ensures faults >= old(faults) && (!ok <==> faults > old(faults))
      ensures ok ==> Progress(scan, ShardsSeen(cfg, scan.start.names.Keys, waiting - {shard}), next)
      ensures !ok ==> Underway(scan)
    {
      ghost var seen := ShardsSeen(cfg, scan.start.names.Keys, waiting);
      ok := Try();
      next := stats;
      if !ok {
        ProgressIsUnderway(scan, seen, stats);
        return;
      }
      var files := set p | p in fs.names && IsEntry(cfg, p) && ShardOf(cfg, p) == shard;
      ShardUntouched(cfg, scan.start.names.Keys, scan.doomed, fs.names.Keys, waiting, shard, seen);
      ok, next := CollectShard(files, live, stats, scan, seen);
    }

    /** Removes every counted entry whose hash is not live; any directory or file call may fail midway. */
    method Gc(live: set<Hash>) returns (r: Result<GcStats, StoreError>)
      requires Valid()
      modifies this`fs, this`faults
      ensures Valid() && old(fs).WellFormed()
      ensures faults >= old(faults) && (r.Err? <==> faults > old(faults))
      ensures r.Ok? ==> CollectedFrom(cfg, old(fs), fs, live, r.value)
      ensures Underway(NewScan(cfg, old(fs), live))
    {
      ghost var scan := NewScan(cfg, fs, live);
      var stats := GcStats(0, 0, 0, 0);
      var entries := set p | p in fs.names && IsEntry(cfg, p);
      var shards := set p | p in entries :: ShardOf(cfg, p);
      ghost var seen: set<Path> := {};
      ScanBegins(cfg, fs, live, shards);

      while shards != {}
        invariant Valid() && faults == old(faults)
        invariant seen == ShardsSeen(cfg, scan.start.names.Keys, shards)
        invariant Progress(scan, seen, stats)
        decreases shards
      {
        var shard :| shard in shards;
        var ok, next := ListShard(shard, live, stats, scan, shards);
        if !ok {
          return Err(Io);
        }
        stats, shards := next, shards - {shard};
        seen := ShardsSeen(cfg, scan.start.names.Keys, shards);
      }
      ScanEnds(cfg, scan.start, live, seen);
      ProgressIsUnderway(scan, seen, stats);
      return Ok(stats);
    }

    lemma ProgressIsUnderway(scan: Scan, seen: set<Path>, stats: GcStats)
      requires scan.Sound() && Progress(scan, seen, stats)
      ensures Underway(scan)
    {
    }

    /** How far a collection has come once the entries in `seen` are dealt with. */
    ghost predicate Progress(scan: Scan, seen: set<Path>, stats: GcStats)
      requires scan.Sound()
      reads this
    {
      fs == scan.After(seen) && stats == scan.Stats(seen)
    }

    /** However far a collection got, only doomed entries are gone and nothing else has changed. */
    ghost predicate Underway(scan: Scan)
      reads this
    {
      exists gone: set<Path> ::
        gone <= scan.doomed && fs == Fs(scan.start.names - gone, scan.start.nodes, scan.start.next)
    }
  }

  // ----- What a collection guarantees -----

  lemma ObjectIsEntry(cfg: Config, h: Hash)
    ensures IsEntry(cfg, ObjectPath(cfg.root, h)) && HashFromObjectPath(ObjectPath(cfg.root, h)) == Some(h)
  {
    ObjectPathRoundTrip(cfg.root, h);
  }

  /** An object is stored after a collection iff it was stored before and is live; survivors keep their bytes. */
  lemma CollectionKeepsLive(cfg: Config, before: Fs, after: Fs, live: set<Hash>, stats: GcStats, h: Hash)
    requires before.WellFormed() && CollectedFrom(cfg, before, after, live, stats)
    ensures ObjectPath(cfg.root, h) in after.names <==> ObjectPath(cfg.root, h) in before.names && h in live
    ensures ObjectPath(cfg.root, h) in after.names ==>
              after.BytesAt(ObjectPath(cfg.root, h)) == before.BytesAt(ObjectPath(cfg.root, h))
  {
    ObjectIsEntry(cfg, h);
  }

  /** Afterwards an alias resolves iff its target was stored and live; the alias files are untouched. */
  lemma CollectionAndAliases(cfg: Config, before: Fs, after: Fs, live: set<Hash>, stats: GcStats,
                             namespace: string, key: string, h: Hash)
    requires before.WellFormed() && CollectedFrom(cfg, before, after, live, stats)
    ensures after.WellFormed()
    ensures AliasTarget(cfg, after, namespace, key) == AliasTarget(cfg, before, namespace, key)
    ensures ResolvedAlias(cfg, after, namespace, key) == Some(h)
       <==> AliasTarget(cfg, before, namespace, key) == Some(h)
            && ObjectPath(cfg.root, h) in before.names && h in live
  {
    var p := AliasPath(cfg.root, namespace, key);
    assert |p| == |cfg.root| + 4;
    CollectionKeepsLive(cfg, before, after, live, stats, h);
  }

  /** The statistics of removal are those of the names that are gone. */
  lemma CollectionCounts(cfg: Config, before: Fs, after: Fs, live: set<Hash>, stats: GcStats)
    requires before.WellFormed() && CollectedFrom(cfg, before, after, live, stats)
    ensures after.names.Keys <= before.names.Keys
    ensures stats.removedObjects == |before.names.Keys - after.names.Keys|
    ensures stats.removedBytes == TotalBytes(before, before.names.Keys - after.names.Keys)
  {
    assert before.names.Keys - after.names.Keys == Doomed(cfg, before.names.Keys, live);
  }

  /** Objects and bytes are conserved: what is removed and what is retained make up what was there. */
  lemma CollectionConserves(cfg: Config, before: Fs, after: Fs, live: set<Hash>, stats: GcStats)
    requires before.WellFormed() && CollectedFrom(cfg, before, after, live, stats)
    ensures stats.removedObjects + stats.retainedObjects == |Counted(cfg, before.names.Keys)|
    ensures stats.removedBytes + stats.retainedBytes == TotalBytes(before, Counted(cfg, before.names.Keys))
    ensures Counted(cfg, after.names.Keys) == Retained(cfg, before.names.Keys, live)
  {
    var doomed, retained := Doomed(cfg, before.names.Keys, live), Retained(cfg, before.names.Keys, live);
    assert doomed + retained == Counted(cfg, before.names.Keys);
    assert |doomed + retained| == |doomed| + |retained|;
    TotalBytesUnion(before, doomed, retained);
  }

  /** Every file two levels below `objects` is some object under its own canonical name. */
  ghost predicate Tidy(cfg: Config, fs: Fs) {
    forall p :: p in fs.names && AreaOf(cfg.root, p) == Objects ==> IsObject(cfg.root, p)
  }

  ghost predicate JobsOutside(cfg: Config, s: State) {
    forall j :: j in s.jobs ==> AreaOf(cfg.root, s.jobs[j].dest) == Outside
  }

  /** In every run, disciplined or not, nothing but objects ever lies in the objects directory. */
  lemma {:induction false} RunStaysTidy(cfg: Config, policy: Policy, states: seq<State>, steps: seq<Step>, n: nat)
    requires Run(cfg, policy, states, steps) && n < |states|
    ensures Tidy(cfg, states[n].fs) && JobsOutside(cfg, states[n])
  {
    if n > 0 {
      RunStaysTidy(cfg, policy, states, steps, n - 1);
      assert Follows(cfg, policy, states[n - 1], steps[n - 1], states[n]);
      StepStaysTidy(cfg, policy, states[n - 1], steps[n - 1]);
    }
  }

  lemma StepStaysTidy(cfg: Config, policy: Policy, s: State, step: Step)
    requires s.fs.WellFormed() && Enabled(cfg, policy, s, step) && Tidy(cfg, s.fs) && JobsOutside(cfg, s)
    ensures Tidy(cfg, Apply(cfg, policy, s, step).fs) && JobsOutside(cfg, Apply(cfg, policy, s, step))
  {
    StepKeepsJobsOutside(cfg, policy, s, step);
    var after := Apply(cfg, policy, s, step);
    forall p | p in after.fs.names && AreaOf(cfg.root, p) == Objects
      ensures IsObject(cfg.root, p)
    {
      if p !in s.fs.names { NewNameIsObject(cfg, policy, s, step, p); }
    }
  }

  lemma StepKeepsJobsOutside(cfg: Config, policy: Policy, s: State, step: Step)
    requires s.fs.WellFormed() && Enabled(cfg, policy, s, step) && JobsOutside(cfg, s)
    ensures JobsOutside(cfg, Apply(cfg, policy, s, step))
  {
  }

  lemma NewNameIsObject(cfg: Config, policy: Policy, s: State, step: Step, p: Path)
    requires s.fs.WellFormed() && Enabled(cfg, policy, s, step) && JobsOutside(cfg, s)
    requires p in Apply(cfg, policy, s, step).fs.names && p !in s.fs.names && AreaOf(cfg.root, p) == Objects
    ensures IsObject(cfg.root, p)
  {
  }

  /** In a tidy store gc counts exactly the stored objects. */
  lemma TidyCountsObjects(cfg: Config, fs: Fs, p: Path)
    requires Tidy(cfg, fs)
    ensures p in Counted(cfg, fs.names.Keys) <==> p in fs.names && IsObject(cfg.root, p)
  {
    if p in fs.names && IsObject(cfg.root, p) {
      var h: Hash :| p == ObjectPath(cfg.root, h);
      ObjectIsEntry(cfg, h);
    }
    if p in Counted(cfg, fs.names.Keys) {
      assert p[..|cfg.root| + 1] == cfg.root + [OBJECTS_DIR];
      assert cfg.root <= p;
      assert AreaOf(cfg.root, p) == Objects;
    }
  }
}
