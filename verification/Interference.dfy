/** What vendor digests vouch for in a store, and the other work on the same store that goes on meanwhile. */
module Interference {
  import opened Prelude
  import opened IntegrityCheck
  import opened ContentHash
  import opened StorePaths
  import opened FileSystem
  import opened ObjectStore

  const SHA1_NAMESPACE := "sha1"

  /** The bytes are the content named by a vendor digest, compared as the verifier compares. */
  predicate IsContentOf(hashes: Hashes, sha1: string, bytes: Bytes) {
    EqIgnoreAsciiCase(sha1, hashes.sha1(bytes))
  }

  /** `h` is the store's name for some committed content that the vendor digest names. */
  ghost predicate Vouched(hashes: Hashes, cfg: Config, committed: set<Bytes>, sha1: string, h: Hash) {
    exists bytes :: bytes in committed && cfg.blake3(bytes) == h && IsContentOf(hashes, sha1, bytes)
  }

  /** No two contents committed so far collide under the store's hash. */
  ghost predicate NoCollision(cfg: Config, committed: set<Bytes>) {
    forall a, b :: a in committed && b in committed && cfg.blake3(a) == cfg.blake3(b) ==> a == b
  }

  /** Every object was committed, and every alias points at something its digest names. */
  ghost predicate Sound(hashes: Hashes, cfg: Config, fs: Fs, committed: set<Bytes>)
    requires fs.WellFormed()
  {
    && (forall h: Hash :: ObjectPath(cfg.root, h) in fs.names ==> fs.BytesAt(ObjectPath(cfg.root, h)) in committed)
    && (forall key :: AliasSound(hashes, cfg, fs, committed, key))
  }

  ghost predicate AliasSound(hashes: Hashes, cfg: Config, fs: Fs, committed: set<Bytes>, key: string)
    requires fs.WellFormed()
  {
    var target := AliasTarget(cfg, fs, SHA1_NAMESPACE, key);
    target.Some? ==> Vouched(hashes, cfg, committed, key, target.value)
  }

  /** What an alias resolves to is stored, and its content is what the digest names, whatever the case. */
  lemma ResolvedIsContent(hashes: Hashes, cfg: Config, fs: Fs, shared: set<Path>, committed: set<Bytes>,
                          key: string, h: Hash)
    requires FsInv(cfg, fs, shared) && Sound(hashes, cfg, fs, committed) && NoCollision(cfg, committed)
    requires ResolvedAlias(cfg, fs, SHA1_NAMESPACE, key) == Some(h)
    ensures ObjectPath(cfg.root, h) in fs.names
    ensures IsContentOf(hashes, key, fs.BytesAt(ObjectPath(cfg.root, h)))
  {
    assert AliasSound(hashes, cfg, fs, committed, key);
    VouchedIsContent(hashes, cfg, fs, shared, committed, key, h);
  }

  /** Anything stored under a vouched-for hash - now or after any later collection and commit - is that content. */
  lemma VouchedIsContent(hashes: Hashes, cfg: Config, fs: Fs, shared: set<Path>, committed: set<Bytes>,
                         key: string, h: Hash)
    requires FsInv(cfg, fs, shared) && Sound(hashes, cfg, fs, committed) && NoCollision(cfg, committed)
    requires Vouched(hashes, cfg, committed, key, h) && ObjectPath(cfg.root, h) in fs.names
    ensures IsContentOf(hashes, key, fs.BytesAt(ObjectPath(cfg.root, h)))
  {
  }

  lemma VouchedGrows(hashes: Hashes, cfg: Config, before: set<Bytes>, after: set<Bytes>, key: string, h: Hash)
    requires before <= after && Vouched(hashes, cfg, before, key, h)
    ensures Vouched(hashes, cfg, after, key, h)
  {
  }

  /** Objects only from `fs` or from newly committed bytes, and alias files as they were: soundness stays. */
  lemma SoundKept(hashes: Hashes, cfg: Config, fs: Fs, after: Fs, committed: set<Bytes>, grown: set<Bytes>)
    requires fs.WellFormed() && after.WellFormed() && Sound(hashes, cfg, fs, committed) && committed <= grown
    requires forall h: Hash :: ObjectPath(cfg.root, h) in after.names ==>
               after.BytesAt(ObjectPath(cfg.root, h)) in grown
    requires forall p :: AreaOf(cfg.root, p) == Aliases && p in after.names ==>
               p in fs.names && after.BytesAt(p) == fs.BytesAt(p)
    ensures Sound(hashes, cfg, after, grown)
  {
    forall key
      ensures AliasSound(hashes, cfg, after, grown, key)
    {
      var target := AliasTarget(cfg, after, SHA1_NAMESPACE, key);
      AliasArea(cfg, key);
      if target.Some? {
        assert AliasTarget(cfg, fs, SHA1_NAMESPACE, key) == target;
        assert AliasSound(hashes, cfg, fs, committed, key);
        VouchedGrows(hashes, cfg, committed, grown, key, target.value);
      }
    }
  }

  lemma AliasArea(cfg: Config, key: string)
    ensures AreaOf(cfg.root, AliasPath(cfg.root, SHA1_NAMESPACE, key)) == Aliases
  {
  }

  /** Pointing one key at a vouched-for hash, or at nothing, leaves every other key alone. */
  lemma AliasWriteSound(hashes: Hashes, cfg: Config, fs: Fs, after: Fs, committed: set<Bytes>, key: string, h: Hash)
    requires fs.WellFormed() && after.WellFormed() && Sound(hashes, cfg, fs, committed)
    requires OthersKept(fs, after, AliasPath(cfg.root, SHA1_NAMESPACE, key))
    requires AliasTarget(cfg, after, SHA1_NAMESPACE, key) in {None, Some(h)} && Vouched(hashes, cfg, committed, key, h)
    ensures Sound(hashes, cfg, after, committed)
  {
    AliasArea(cfg, key);
    forall g: Hash | ObjectPath(cfg.root, g) in after.names
      ensures after.BytesAt(ObjectPath(cfg.root, g)) in committed
    {
      ObjectsArea(cfg, g);
    }
    forall k
      ensures AliasSound(hashes, cfg, after, committed, k)
    {
      if AliasPath(cfg.root, SHA1_NAMESPACE, k) == AliasPath(cfg.root, SHA1_NAMESPACE, key) {
        AliasPathInjective(cfg.root, SHA1_NAMESPACE, k, SHA1_NAMESPACE, key);
      } else {
        assert AliasTarget(cfg, after, SHA1_NAMESPACE, k).Some? ==>
          AliasTarget(cfg, fs, SHA1_NAMESPACE, k) == AliasTarget(cfg, after, SHA1_NAMESPACE, k);
        assert AliasSound(hashes, cfg, fs, committed, k);
      }
    }
  }

  // ----- Frames -----

  ghost predicate StaysAt(before: Fs, after: Fs, p: Path)
    requires before.WellFormed() && after.WellFormed()
  {
    (p in after.names <==> p in before.names) && (p in before.names ==> after.BytesAt(p) == before.BytesAt(p))
  }

  predicate IsContents(cfg: Config, p: Path) {
    AreaOf(cfg.root, p) == Objects || AreaOf(cfg.root, p) == Aliases
  }

  /** Everything outside the store is as it was, and so are its objects and aliases but for `touched`. */
  ghost predicate OnlyTouched(cfg: Config, before: Fs, after: Fs, touched: set<Path>)
    requires before.WellFormed() && after.WellFormed()
  {
    OutsideKept(cfg, before, after) && ContentsKept(cfg, before, after, touched)
  }

  ghost predicate ContentsKept(cfg: Config, before: Fs, after: Fs, touched: set<Path>)
    requires before.WellFormed() && after.WellFormed()
  {
    forall p :: IsContents(cfg, p) && p !in touched ==> StaysAt(before, after, p)
  }

  lemma TouchedAdds(cfg: Config, a: Fs, b: Fs, c: Fs, first: set<Path>, second: set<Path>)
    requires a.WellFormed() && b.WellFormed() && c.WellFormed()
    requires OnlyTouched(cfg, a, b, first) && OnlyTouched(cfg, b, c, second)
    ensures OnlyTouched(cfg, a, c, first + second)
  {
    OutsideKeptThrough(cfg, a, b, c);
    forall p | IsContents(cfg, p) && p !in first + second
      ensures StaysAt(a, c, p)
    {
      assert StaysAt(a, b, p) && StaysAt(b, c, p);
    }
  }

  lemma TempWriteTouchesNothing(cfg: Config, before: Fs, after: Fs, temp: Path)
    requires before.WellFormed() && after.WellFormed() && OthersKept(before, after, temp)
    requires AreaOf(cfg.root, temp) == Temporary && OutsideKept(cfg, before, after)
    ensures OnlyTouched(cfg, before, after, {})
  {
  }

  // ----- One file-system call of other work -----

  /**
   * Collections, and other acquisitions: creating, extending and removing temporary files, publishing one under
   * its hash, making an object read-only, and recording an alias, which may be cut short.
   */
  datatype Other =
    | Collect(h: Hash)
    | CreateTemp(name: string)
    | AppendTemp(name: string, bytes: Bytes)
    | DropTemp(name: string)
    | Publish(name: string, h: Hash)
    | SealObject(h: Hash)
    | Alias(key: string, content: Bytes, cut: nat)

  /** Temporary names are unique, so `mine` is nobody else's; an alias is recorded for committed content. */
  predicate Possible(hashes: Hashes, cfg: Config, fs: Fs, committed: set<Bytes>, mine: string, o: Other)
    requires forall p :: p in fs.names ==> fs.names[p] in fs.nodes
  {
    match o
    case Collect(_) => true
    case CreateTemp(name) => name != mine && TempPath(cfg.root, name) !in fs.names
    case AppendTemp(name, _) => name != mine && TempPath(cfg.root, name) in fs.names
    case DropTemp(name) => name != mine
    case Publish(name, h) =>
      name != mine && TempPath(cfg.root, name) in fs.names && cfg.blake3(fs.BytesAt(TempPath(cfg.root, name))) == h
    case SealObject(h) => ObjectPath(cfg.root, h) in fs.names
    case Alias(key, content, cut) => content in committed && IsContentOf(hashes, key, content) && cut <= HASH_HEX_LEN
  }

  function After(hashes: Hashes, cfg: Config, fs: Fs, committed: set<Bytes>, mine: string, o: Other): Fs
    requires forall p :: p in fs.names ==> fs.names[p] in fs.nodes
    requires Possible(hashes, cfg, fs, committed, mine, o)
  {
    match o
    case Collect(h) => fs.Remove(ObjectPath(cfg.root, h))
    case CreateTemp(name) => fs.NewFile(TempPath(cfg.root, name), Node([], false))
    case AppendTemp(name, bytes) =>
      fs.Overwrite(TempPath(cfg.root, name), fs.BytesAt(TempPath(cfg.root, name)) + bytes)
    case DropTemp(name) => fs.Remove(TempPath(cfg.root, name))
    case Publish(name, h) => fs.Rename(TempPath(cfg.root, name), ObjectPath(cfg.root, h))
    case SealObject(h) => fs.SetMode(ObjectPath(cfg.root, h), true)
    case Alias(key, content, cut) =>
      fs.Overwrite(AliasPath(cfg.root, SHA1_NAMESPACE, key), TextBytes(ToHex(cfg.blake3(content))[..cut]))
  }

  /** What has been committed once the call is done. */
  function Grown(cfg: Config, fs: Fs, committed: set<Bytes>, o: Other): set<Bytes>
    requires forall p :: p in fs.names ==> fs.names[p] in fs.nodes
  {
    if o.Publish? && TempPath(cfg.root, o.name) in fs.names
    then committed + {fs.BytesAt(TempPath(cfg.root, o.name))}
    else committed
  }

  /** The objects and aliases a call can change. */
  function Touches(cfg: Config, o: Other): set<Path> {
    match o
    case Collect(h) => {ObjectPath(cfg.root, h)}
    case Publish(_, h) => {ObjectPath(cfg.root, h)}
    case Alias(key, _, _) => {AliasPath(cfg.root, SHA1_NAMESPACE, key)}
    case _ => {}
  }

  ghost function TouchedBy(cfg: Config, calls: seq<Other>): set<Path> {
    set o, p | o in calls && p in Touches(cfg, o) :: p
  }

  /** The calls still to come are the last of those that were, so the first of them have been made since. */
  predicate Consumed(was: seq<Other>, left: seq<Other>) {
    |left| <= |was| && left == was[|was| - |left|..]
  }

  function Made(was: seq<Other>, left: seq<Other>): (calls: seq<Other>)
    requires |left| <= |was|
  {
    was[..|was| - |left|]
  }

  /**
   * While other work's calls to come went from `was` to `left`, nothing outside the store has changed, and of its
   * objects and aliases only those that the calls made touch, and one's `own`.
   */
  ghost predicate ChangedBy(cfg: Config, before: Fs, after: Fs, was: seq<Other>, left: seq<Other>, own: set<Path>)
    requires before.WellFormed() && after.WellFormed()
  {
    Consumed(was, left) && OnlyTouched(cfg, before, after, TouchedBy(cfg, Made(was, left)) + own)
  }

  lemma ChangedByOwn(cfg: Config, before: Fs, after: Fs, calls: seq<Other>, own: set<Path>)
    requires before.WellFormed() && after.WellFormed() && OnlyTouched(cfg, before, after, own)
    ensures ChangedBy(cfg, before, after, calls, calls, own)
  {
    assert TouchedBy(cfg, Made(calls, calls)) + own == own;
  }

  lemma ChangesFollow(cfg: Config, a: Fs, b: Fs, c: Fs, was: seq<Other>, mid: seq<Other>, left: seq<Other>,
                      own: set<Path>)
    requires a.WellFormed() && b.WellFormed() && c.WellFormed()
    requires ChangedBy(cfg, a, b, was, mid, {}) && ChangedBy(cfg, b, c, mid, left, own)
    ensures ChangedBy(cfg, a, c, was, left, own)
  {
    ChangesAdd(cfg, a, b, c, was, mid, left, {}, own);
    assert {} + own == own;
  }

  lemma ChangedByMore(cfg: Config, before: Fs, after: Fs, was: seq<Other>, left: seq<Other>, own: set<Path>,
                      more: set<Path>)
    requires before.WellFormed() && after.WellFormed() && ChangedBy(cfg, before, after, was, left, own) && own <= more
    ensures ChangedBy(cfg, before, after, was, left, more)
  {
  }

  lemma MadeAdds(cfg: Config, was: seq<Other>, mid: seq<Other>, left: seq<Other>)
    requires Consumed(was, mid) && Consumed(mid, left)
    ensures Consumed(was, left)
    ensures TouchedBy(cfg, Made(was, left)) == TouchedBy(cfg, Made(was, mid)) + TouchedBy(cfg, Made(mid, left))
  {
    assert Made(was, left) == Made(was, mid) + Made(mid, left);
  }

  lemma ChangesAdd(cfg: Config, a: Fs, b: Fs, c: Fs, was: seq<Other>, mid: seq<Other>, left: seq<Other>,
                   first: set<Path>, second: set<Path>)
    requires a.WellFormed() && b.WellFormed() && c.WellFormed()
    requires ChangedBy(cfg, a, b, was, mid, first) && ChangedBy(cfg, b, c, mid, left, second)
    ensures ChangedBy(cfg, a, c, was, left, first + second)
  {
    MadeAdds(cfg, was, mid, left);
    var early, late := TouchedBy(cfg, Made(was, mid)) + first, TouchedBy(cfg, Made(mid, left)) + second;
    TouchedAdds(cfg, a, b, c, early, late);
    assert early + late == TouchedBy(cfg, Made(was, left)) + (first + second);
  }

  /** What one's own work can rely on while other work goes on. */
  ghost predicate Harmless(hashes: Hashes, cfg: Config, before: Fs, after: Fs, shared: set<Path>,
                           grown: set<Bytes>, mine: string, touched: set<Path>)
    requires before.WellFormed()
  {
    && FsInv(cfg, after, shared) && Sound(hashes, cfg, after, grown)
    && OnlyTouched(cfg, before, after, touched)
    && StaysAt(before, after, TempPath(cfg.root, mine))
  }

  lemma TempStepHarmless(hashes: Hashes, cfg: Config, fs: Fs, shared: set<Path>, committed: set<Bytes>, mine: string,
                         o: Other)
    requires FsInv(cfg, fs, shared) && Sound(hashes, cfg, fs, committed)
    requires Possible(hashes, cfg, fs, committed, mine, o) && (o.CreateTemp? || o.AppendTemp? || o.DropTemp?)
    ensures Harmless(hashes, cfg, fs, After(hashes, cfg, fs, committed, mine, o), shared, committed, mine, {})
  {
    var temp, after := TempPath(cfg.root, o.name), After(hashes, cfg, fs, committed, mine, o);
    StoreMachineTemp(cfg, o.name, mine);
    if o.CreateTemp? {
      NewFileKeepsInv(cfg, fs, shared, temp, Node([], false));
      NewFileLeavesOthers(cfg, fs, temp, Node([], false));
    } else if o.AppendTemp? {
      OverwriteKeepsInv(cfg, fs, shared, temp, fs.BytesAt(temp) + o.bytes);
      OverwriteLeavesOutside(cfg, fs, shared, temp, fs.BytesAt(temp) + o.bytes);
    } else {
      RemoveKeepsInv(cfg, fs, shared, temp);
      RemoveLeavesOthers(cfg, fs, temp);
    }
    TempWriteTouchesNothing(cfg, fs, after, temp);
    StillSound(hashes, cfg, fs, after, committed, temp);
  }

  lemma StoreMachineTemp(cfg: Config, name: string, mine: string)
    ensures AreaOf(cfg.root, TempPath(cfg.root, name)) == Temporary
    ensures name != mine ==> TempPath(cfg.root, name) != TempPath(cfg.root, mine)
  {
    assert TempPath(cfg.root, name)[|cfg.root| + 1] == name && TempPath(cfg.root, mine)[|cfg.root| + 1] == mine;
  }

  /** Changing a single path that is neither an object nor an alias leaves everything vouched for. */
  lemma StillSound(hashes: Hashes, cfg: Config, fs: Fs, after: Fs, committed: set<Bytes>, p: Path)
    requires fs.WellFormed() && after.WellFormed() && Sound(hashes, cfg, fs, committed)
    requires OthersKept(fs, after, p) && !IsContents(cfg, p)
    ensures Sound(hashes, cfg, after, committed)
  {
    forall h: Hash | ObjectPath(cfg.root, h) in after.names
      ensures after.BytesAt(ObjectPath(cfg.root, h)) in committed
    {
      ObjectsArea(cfg, h);
    }
    SoundKept(hashes, cfg, fs, after, committed, committed);
  }

  lemma ObjectStepHarmless(hashes: Hashes, cfg: Config, fs: Fs, shared: set<Path>, committed: set<Bytes>, mine: string,
                           o: Other)
    requires FsInv(cfg, fs, shared) && Sound(hashes, cfg, fs, committed)
    requires Possible(hashes, cfg, fs, committed, mine, o) && (o.Collect? || o.SealObject?)
    ensures Harmless(hashes, cfg, fs, After(hashes, cfg, fs, committed, mine, o), shared, committed, mine,
                     Touches(cfg, o))
  {
    var p, after := ObjectPath(cfg.root, o.h), After(hashes, cfg, fs, committed, mine, o);
    ObjectsArea(cfg, o.h);
    StoreMachineTemp(cfg, mine, mine);
    if o.Collect? {
      RemoveKeepsInv(cfg, fs, shared, p);
      RemoveLeavesOthers(cfg, fs, p);
    } else {
      SetModeKeepsInv(cfg, fs, shared, p, true);
      SetModeLeavesOthers(cfg, fs, p, true);
    }
    SoundKept(hashes, cfg, fs, after, committed, committed);
  }

  lemma PublishHarmless(hashes: Hashes, cfg: Config, fs: Fs, shared: set<Path>, committed: set<Bytes>, mine: string,
                        o: Other)
    requires FsInv(cfg, fs, shared) && Sound(hashes, cfg, fs, committed)
    requires Possible(hashes, cfg, fs, committed, mine, o) && o.Publish?
    ensures Harmless(hashes, cfg, fs, After(hashes, cfg, fs, committed, mine, o), shared,
                     Grown(cfg, fs, committed, o), mine, Touches(cfg, o))
  {
    var temp, after := TempPath(cfg.root, o.name), After(hashes, cfg, fs, committed, mine, o);
    var bytes, grown := fs.BytesAt(temp), Grown(cfg, fs, committed, o);
    StoreMachineTemp(cfg, o.name, mine);
    StoreMachineTemp(cfg, mine, mine);
    ObjectsArea(cfg, cfg.blake3(bytes));
    RenameKeepsInv(cfg, fs, shared, temp, cfg.blake3(bytes));
    RenameLeavesOutside(cfg, fs, shared, temp, ObjectPath(cfg.root, cfg.blake3(bytes)));
    forall h: Hash | ObjectPath(cfg.root, h) in after.names
      ensures after.BytesAt(ObjectPath(cfg.root, h)) in grown
    {
      ObjectsArea(cfg, h);
    }
    SoundKept(hashes, cfg, fs, after, committed, grown);
  }

  lemma AliasHarmless(hashes: Hashes, cfg: Config, fs: Fs, shared: set<Path>, committed: set<Bytes>, mine: string,
                      o: Other)
    requires FsInv(cfg, fs, shared) && Sound(hashes, cfg, fs, committed)
    requires Possible(hashes, cfg, fs, committed, mine, o) && o.Alias?
    ensures Harmless(hashes, cfg, fs, After(hashes, cfg, fs, committed, mine, o), shared, committed, mine,
                     Touches(cfg, o))
  {
    var p, h := AliasPath(cfg.root, SHA1_NAMESPACE, o.key), cfg.blake3(o.content);
    var after := After(hashes, cfg, fs, committed, mine, o);
    AliasArea(cfg, o.key);
    StoreMachineTemp(cfg, mine, mine);
    OverwriteKeepsInv(cfg, fs, shared, p, TextBytes(ToHex(h)[..o.cut]));
    OverwriteLeavesOutside(cfg, fs, shared, p, TextBytes(ToHex(h)[..o.cut]));
    CutHexIsNoHash(h, o.cut);
    AliasWriteSound(hashes, cfg, fs, after, committed, o.key, h);
  }

  /** Whatever call of other work comes next, objects stay intact, aliases vouched for, and one's own files alone. */
  lemma OtherHarmless(hashes: Hashes, cfg: Config, fs: Fs, shared: set<Path>, committed: set<Bytes>, mine: string,
                      o: Other)
    requires FsInv(cfg, fs, shared) && Sound(hashes, cfg, fs, committed)
    requires Possible(hashes, cfg, fs, committed, mine, o)
    ensures Harmless(hashes, cfg, fs, After(hashes, cfg, fs, committed, mine, o), shared,
                     Grown(cfg, fs, committed, o), mine, Touches(cfg, o))
  {
    if o.CreateTemp? || o.AppendTemp? || o.DropTemp? {
      TempStepHarmless(hashes, cfg, fs, shared, committed, mine, o);
    } else if o.Collect? || o.SealObject? {
      ObjectStepHarmless(hashes, cfg, fs, shared, committed, mine, o);
    } else if o.Publish? {
      PublishHarmless(hashes, cfg, fs, shared, committed, mine, o);
    } else {
      AliasHarmless(hashes, cfg, fs, shared, committed, mine, o);
    }
  }
}
