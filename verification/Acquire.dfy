/** Acquiring a planned artifact: from the store by its vendor digest, or by a verified download. */
module Acquire {
  import opened Prelude
  import opened IntegrityCheck
  import opened ContentHash
  import opened StorePaths
  import opened FileSystem
  import opened ObjectStore
  import opened Interference
  import StoreMachine
  import LoaderMerge
  import Classpath
  import Fetch

  datatype Error =
    | FetchFailed(reason: Fetch.Error)
    | StoreFailed(cause: StoreError)
    | BadUrl
    | NoOrigin

  function IntegrityOf(artifact: LoaderMerge.PlannedArtifact): Integrity {
    Integrity(artifact.size, artifact.sha1, artifact.sha512)
  }

  /** What a download comes to when every file operation succeeds. */
  function Fetched(hashes: Hashes, blake3: Bytes -> Hash, integrity: Integrity, reply: Fetch.Reply, urlOk: bool,
                   hostAllowed: bool): (r: Result<Hash, Error>)
    ensures r.Ok? <==> && urlOk && hostAllowed && reply.Answer? && 200 <= reply.status < 300
                       && reply.ending.Complete? && Meets(hashes, integrity, BodyOf(reply))
    ensures r.Ok? ==> r.value == blake3(BodyOf(reply))
    ensures r == Err(BadUrl) <==> !urlOk
    ensures r == Err(FetchFailed(Fetch.HostNotAllowed)) <==> urlOk && !hostAllowed
  {
    assert [] + BodyOf(reply) == BodyOf(reply);
    if !urlOk then Err(BadUrl)
    else if !hostAllowed then Err(FetchFailed(Fetch.HostNotAllowed))
    else
      match Fetch.Attempt(hashes, None, integrity, reply).1
      case Err(reason) => Err(FetchFailed(reason))
      case Ok(_) => Ok(blake3(Fetch.Flatten(reply.chunks)))
  }

  /** What a miss comes to when every file operation succeeds. */
  function Missed(hashes: Hashes, blake3: Bytes -> Hash, artifact: LoaderMerge.PlannedArtifact, origin: Origin)
    : Result<Hash, Error>
  {
    if artifact.origin == [] then Err(NoOrigin)
    else
      var url := artifact.origin[0];
      Fetched(hashes, blake3, IntegrityOf(artifact), origin.reply(url), origin.urlOk(url), origin.hostAllowed(url))
  }

  /** The whole body a reply carries. */
  function BodyOf(reply: Fetch.Reply): Bytes {
    if reply.Answer? then Fetch.Flatten(reply.chunks) else []
  }

  /** The one object a download of this reply can add. */
  function OwnObject(cfg: Config, reply: Fetch.Reply): set<Path> {
    {ObjectPath(cfg.root, cfg.blake3(BodyOf(reply)))}
  }

  function AliasOf(cfg: Config, sha1: Option<string>): set<Path> {
    if sha1.Some? then {AliasPath(cfg.root, SHA1_NAMESPACE, sha1.value)} else {}
  }

  /** The object and the alias that acquiring an artifact can write. */
  function OwnPaths(cfg: Config, artifact: LoaderMerge.PlannedArtifact, origin: Origin): set<Path> {
    if artifact.origin == [] then {}
    else OwnObject(cfg, origin.reply(artifact.origin[0])) + AliasOf(cfg, artifact.sha1)
  }

  /** Where a plan's artifacts come from: the server, and which URLs parse and are allowed. */
  datatype Origin = Origin(reply: string -> Fetch.Reply, urlOk: string -> bool, hostAllowed: string -> bool)

  class Counters {
    var completedBytes: nat
    var completedFiles: nat
    var reusedBytes: nat

    constructor ()
      ensures completedBytes == completedFiles == reusedBytes == 0
    {
      completedBytes, completedFiles, reusedBytes := 0, 0, 0;
    }
  }

  class Installer {
    const store: Store
    const hashes: Hashes
    /** The calls that other work on the same store is yet to make, in their order. */
    var script: seq<Other>
    var committed: set<Bytes>

    ghost predicate Valid()
      reads this, store
    {
      store.Valid() && Sound(hashes, store.cfg, store.fs, committed)
    }

    constructor (store: Store, hashes: Hashes, script: seq<Other>)
      requires store.Valid() && Sound(hashes, store.cfg, store.fs, {})
      ensures Valid() && this.store == store && this.hashes == hashes && this.script == script && committed == {}
    {
      this.store, this.hashes, this.script, committed := store, hashes, script, {};
    }

    /**
     * Other work goes on for any number of its calls. `mine` is a temporary name of one's own; the faults of
     * others are not counted.
     */
    method Interfere(mine: string)
      requires Valid()
      modifies this`committed, this`script, store`fs
      ensures Valid() && old(committed) <= committed && old(store.fs).WellFormed()
      ensures ChangedBy(store.cfg, old(store.fs), store.fs, old(script), script, {})
      ensures StaysAt(old(store.fs), store.fs, TempPath(store.cfg.root, mine))
    {
      var turns: nat :| turns <= |script|;
      ChangedByOwn(store.cfg, store.fs, store.fs, script, {});
      for turn := 0 to turns
        invariant Valid() && old(committed) <= committed && old(store.fs).WellFormed()
        invariant |script| == |old(script)| - turn
        invariant ChangedBy(store.cfg, old(store.fs), store.fs, old(script), script, {})
        invariant StaysAt(old(store.fs), store.fs, TempPath(store.cfg.root, mine))
      {
        ghost var before, calls := store.fs, script;
        OtherCall(mine);
        ChangesFollow(store.cfg, old(store.fs), before, store.fs, old(script), calls, script, {});
      }
    }

    /** The next call of other work; one that is not possible by now has failed, and does nothing. */
    method OtherCall(mine: string)
      requires Valid() && script != []
      modifies this`committed, this`script, store`fs
      ensures Valid() && old(committed) <= committed && old(store.fs).WellFormed() && |script| == |old(script)| - 1
      ensures ChangedBy(store.cfg, old(store.fs), store.fs, old(script), script, {})
      ensures StaysAt(old(store.fs), store.fs, TempPath(store.cfg.root, mine))
    {
      var o := script[0];
      script := script[1..];
      assert Made(old(script), script) == [o];
      if Possible(hashes, store.cfg, store.fs, committed, mine, o) {
        OtherHarmless(hashes, store.cfg, store.fs, store.shared, committed, mine, o);
        var after := After(hashes, store.cfg, store.fs, committed, mine, o);
        committed := Grown(store.cfg, store.fs, committed, o);
        store.fs := after;
      }
    }

    /** Streams a body into a store writer while verifying it; there is no retry and no resume here. */
    method ToWriter(integrity: Integrity, reply: Fetch.Reply, w: Writer)
      returns (r: Result<nat, Fetch.Error>)
      requires Valid() && store.Holds(w) && w.hashed == []
      modifies this`committed, this`script, store`fs, store`faults, w
      ensures Valid() && store.Holds(w) && old(committed) <= committed
      ensures old(store.fs).WellFormed() && ChangedBy(store.cfg, old(store.fs), store.fs, old(script), script, {})
      ensures r.Ok? ==> Meets(hashes, integrity, w.hashed) && r.value == |w.hashed|
      ensures store.faults >= old(store.faults) && (r == Err(Fetch.Sink) <==> store.faults > old(store.faults))
      ensures r != Err(Fetch.Sink) ==> r == Fetch.Attempt(hashes, None, integrity, reply).1
      ensures r.Ok? ==> w.hashed == BodyOf(reply)
    {
      ChangedByOwn(store.cfg, store.fs, store.fs, script, {});
      if reply.Unreachable? {
        return Err(Fetch.Transport(reply.retryable));
      }
      if !Fetch.IsSuccess(reply.status) {
        return Err(Fetch.Status(reply.status));
      }
      var verifier := new Verifier(integrity);
      var streamed := Stream(reply.chunks, verifier, w);
      if !streamed {
        return Err(Fetch.Sink);
      }
      if reply.ending.CutOff? {
        return Err(Fetch.Transport(reply.ending.retryable));
      }
      var flushed := store.FlushWriter(w);
      if !flushed {
        return Err(Fetch.Sink);
      }
      Scratch(integrity, reply);
      var verdict := verifier.Finish(hashes);
      match verdict {
        case Ok(n) => return Ok(n);
        case Err(reason) => return Err(Fetch.IntegrityFailed(reason));
      }
    }

    lemma Scratch(integrity: Integrity, reply: Fetch.Reply)
      requires reply.Answer? && Fetch.IsSuccess(reply.status) && reply.ending.Complete?
      ensures Fetch.Attempt(hashes, None, integrity, reply).1
           == match Judge(hashes, integrity, Fetch.Flatten(reply.chunks))
              case Ok(n) => Ok(n)
              case Err(reason) => Err(Fetch.IntegrityFailed(reason))
    {
      assert [] + Fetch.Flatten(reply.chunks) == Fetch.Flatten(reply.chunks);
    }

    /** Hashes and writes each chunk in turn; other work goes on while the next one is awaited. */
    method Stream(chunks: seq<Bytes>, verifier: Verifier, w: Writer) returns (ok: bool)
      requires Valid() && store.Holds(w) && w.hashed == []
      requires verifier.Valid() && verifier.stream == []
      modifies this`committed, this`script, store`fs, store`faults, w, verifier
      ensures Valid() && store.Holds(w) && verifier.Valid() && old(committed) <= committed
      ensures old(store.fs).WellFormed() && ChangedBy(store.cfg, old(store.fs), store.fs, old(script), script, {})
      ensures store.faults >= old(store.faults) && (!ok <==> store.faults > old(store.faults))
      ensures ok ==> verifier.stream == w.hashed == Fetch.Flatten(chunks)
    {
      ChangedByOwn(store.cfg, store.fs, store.fs, script, {});
      for n := 0 to |chunks|
        invariant Valid() && store.Holds(w) && verifier.Valid() && old(committed) <= committed
        invariant store.faults == old(store.faults)
        invariant verifier.stream == w.hashed == Fetch.Flatten(chunks[..n])
        invariant old(store.fs).WellFormed()
        invariant ChangedBy(store.cfg, old(store.fs), store.fs, old(script), script, {})
      {
        Fetch.FlattenNext(chunks, n);
        ghost var before, calls := store.fs, script;
        ok := NextChunk(chunks[n], verifier, w);
        ChangesFollow(store.cfg, old(store.fs), before, store.fs, old(script), calls, script, {});
        if !ok {
          return;
        }
      }
      assert chunks[..|chunks|] == chunks;
      ok := true;
    }

    method NextChunk(chunk: Bytes, verifier: Verifier, w: Writer) returns (ok: bool)
      requires Valid() && store.Holds(w) && verifier.Valid() && verifier.stream == w.hashed
      modifies this`committed, this`script, store`fs, store`faults, w, verifier
      ensures Valid() && store.Holds(w) && verifier.Valid() && old(committed) <= committed
      ensures old(store.fs).WellFormed() && ChangedBy(store.cfg, old(store.fs), store.fs, old(script), script, {})
      ensures store.faults >= old(store.faults) && (!ok <==> store.faults > old(store.faults))
      ensures ok ==> verifier.stream == w.hashed == old(w.hashed) + chunk
    {
      ghost var began, calls := store.fs, script;
      Interfere(w.name);
      verifier.Update(chunk);
      ghost var interrupted := store.fs;
      ok := store.WriteAll(w, chunk);
      OwnWriteKeepsSound(interrupted, w.name);
      OwnWriteChanges(began, interrupted, store.fs, calls, script, {}, w.name);
    }

    /** Writing to one's own temporary file changes nothing that is vouched for. */
    lemma OwnWriteKeepsSound(before: Fs, name: string)
      requires before.WellFormed() && store.Valid() && Sound(hashes, store.cfg, before, committed)
      requires OthersKept(before, store.fs, TempPath(store.cfg.root, name))
      ensures Valid()
    {
      StoreMachine.TempArea(store.cfg, name);
      StillSound(hashes, store.cfg, before, store.fs, committed, TempPath(store.cfg.root, name));
    }

    /** Writing to one's own temporary file adds nothing to what has changed. */
    lemma OwnWriteChanges(start: Fs, before: Fs, after: Fs, was: seq<Other>, left: seq<Other>, own: set<Path>,
                          name: string)
      requires start.WellFormed() && before.WellFormed() && after.WellFormed()
      requires ChangedBy(store.cfg, start, before, was, left, own)
      requires OthersKept(before, after, TempPath(store.cfg.root, name)) && OutsideKept(store.cfg, before, after)
      ensures ChangedBy(store.cfg, start, after, was, left, own)
    {
      StoreMachine.TempArea(store.cfg, name);
      TempWriteTouchesNothing(store.cfg, before, after, TempPath(store.cfg.root, name));
      ChangedByOwn(store.cfg, before, after, left, {});
      ChangesAdd(store.cfg, start, before, after, was, left, left, own, {});
      assert own + {} == own;
    }

    /**
     * Downloads into the store, with other work going on at every await. Success commits content that meets
     * the whole declared integrity; a fetch that fails or fails verification changes no object and no alias:
     * only others did, by the very calls they made meanwhile.
     */
    method DownloadIntoStore(integrity: Integrity, reply: Fetch.Reply, urlOk: bool, hostAllowed: bool, name: string)
      returns (r: Result<Hash, Error>)
      requires Valid() && TempPath(store.cfg.root, name) !in store.fs.names
      modifies this`committed, this`script, store`fs, store`faults
      ensures Valid() && old(committed) <= committed && old(store.fs).WellFormed()
      ensures r.Ok? ==>
                && store.Contains(r.value) && r.value == store.cfg.blake3(BodyOf(reply))
                && BodyOf(reply) in committed && Meets(hashes, integrity, BodyOf(reply))
      ensures ChangedBy(store.cfg, old(store.fs), store.fs, old(script), script,
                        if r.Err? && !r.error.StoreFailed? then {} else OwnObject(store.cfg, reply))
      ensures store.faults >= old(store.faults)
      ensures store.faults == old(store.faults) ==>
                r == Fetched(hashes, store.cfg.blake3, integrity, reply, urlOk, hostAllowed)
      ensures !urlOk ==> r == Err(BadUrl)
      ensures r.Err? ==> r.error != NoOrigin && (r.error.StoreFailed? ==> r.error.cause == Io)
    {
      ghost var start, calls := store.fs, script;
      ChangedByOwn(store.cfg, start, start, calls, {});
      ChangedByOwn(store.cfg, start, start, calls, OwnObject(store.cfg, reply));
      if !urlOk {
        return Err(BadUrl);
      }
      var opening := store.NewWriter(name);
      if opening.Err? {
        return Err(StoreFailed(opening.error));
      }
      var w := opening.value;
      OwnWriteKeepsSound(start, name);
      OwnWriteChanges(start, start, store.fs, calls, script, {}, name);
      var received: Result<nat, Fetch.Error> := Err(Fetch.HostNotAllowed);
      if hostAllowed {
        ghost var ready := store.fs;
        received := ToWriter(integrity, reply, w);
        ChangesFollow(store.cfg, start, ready, store.fs, calls, calls, script, {});
      }
      ghost var before := store.fs;
      if received.Err? {
        store.Drop(w);
        OwnWriteKeepsSound(before, name);
        OwnWriteChanges(start, before, store.fs, calls, script, {}, name);
        return Err(FetchFailed(received.error));
      }
      ghost var left := script;
      var outcome := CommitContent(w);
      ChangesFollow(store.cfg, start, before, store.fs, calls, left, script, OwnObject(store.cfg, reply));
      if outcome.Err? {
        return Err(StoreFailed(outcome.error));
      }
      return Ok(outcome.value);
    }

    /** Commits a writer after a last interruption; only its own object is added to what others touched. */
    method CommitContent(w: Writer) returns (r: Result<Hash, StoreError>)
      requires Valid() && store.Holds(w)
      modifies this`committed, this`script, store`fs, store`faults, w
      ensures Valid() && old(committed) <= committed && old(w.hashed) in committed
      ensures old(store.fs).WellFormed()
      ensures ChangedBy(store.cfg, old(store.fs), store.fs, old(script), script,
                        {ObjectPath(store.cfg.root, store.cfg.blake3(old(w.hashed)))})
      ensures r.Ok? ==> r.value == store.cfg.blake3(old(w.hashed)) && store.Contains(r.value)
      ensures r.Err? ==> r.error == Io
      ensures store.faults >= old(store.faults) && (r.Err? <==> store.faults > old(store.faults))
    {
      ghost var began, calls := store.fs, script;
      Interfere(w.name);
      ghost var interrupted := store.fs;
      var content := w.hashed;
      r := store.Commit(w);
      CommitKeepsSound(interrupted, w.name, content);
      committed := committed + {content};
      ghost var own := {ObjectPath(store.cfg.root, store.cfg.blake3(content))};
      CommitTouches(interrupted, w.name, content);
      ChangedByOwn(store.cfg, interrupted, store.fs, script, own);
      ChangesFollow(store.cfg, began, interrupted, store.fs, calls, script, script, own);
    }

    ghost predicate CommitFrame(before: Fs, name: string, content: Bytes)
      requires before.WellFormed() && store.fs.WellFormed()
      reads store
    {
      var target := ObjectPath(store.cfg.root, store.cfg.blake3(content));
      && store.fs.names.Keys <= before.names.Keys + {target}
      && (target in store.fs.names && target !in before.names ==> store.fs.BytesAt(target) == content)
      && forall p :: p in before.names && p != TempPath(store.cfg.root, name) ==>
           p in store.fs.names && store.fs.BytesAt(p) == before.BytesAt(p)
    }

    lemma CommitTouches(before: Fs, name: string, content: Bytes)
      requires before.WellFormed() && store.fs.WellFormed() && CommitFrame(before, name, content)
      requires OutsideKept(store.cfg, before, store.fs)
      ensures OnlyTouched(store.cfg, before, store.fs, {ObjectPath(store.cfg.root, store.cfg.blake3(content))})
    {
      StoreMachine.TempArea(store.cfg, name);
      ObjectsArea(store.cfg, store.cfg.blake3(content));
    }

    lemma CommitKeepsSound(before: Fs, name: string, content: Bytes)
      requires before.WellFormed() && store.Valid() && Sound(hashes, store.cfg, before, committed)
      requires CommitFrame(before, name, content)
      ensures Sound(hashes, store.cfg, store.fs, committed + {content})
    {
      StoreMachine.TempArea(store.cfg, name);
      ObjectsArea(store.cfg, store.cfg.blake3(content));
      forall h: Hash | ObjectPath(store.cfg.root, h) in store.fs.names
        ensures store.fs.BytesAt(ObjectPath(store.cfg.root, h)) in committed + {content}
      {
        ObjectsArea(store.cfg, h);
      }
      SoundKept(hashes, store.cfg, before, store.fs, committed, committed + {content});
    }

    method RecordAlias(key: string, h: Hash) returns (r: Result<(), StoreError>)
      requires Valid() && Vouched(hashes, store.cfg, committed, key, h)
      modifies store`fs, store`faults
      ensures Valid() && store.faults >= old(store.faults) && (r.Err? <==> store.faults > old(store.faults))
      ensures r.Err? ==> r.error == Io
      ensures old(store.fs).WellFormed()
      ensures OnlyTouched(store.cfg, old(store.fs), store.fs, {AliasPath(store.cfg.root, SHA1_NAMESPACE, key)})
      ensures r.Ok? ==> AliasTarget(store.cfg, store.fs, SHA1_NAMESPACE, key) == Some(h)
    {
      ghost var before := store.fs;
      AliasArea(store.cfg, key);
      r := store.SetAlias(SHA1_NAMESPACE, key, h);
      if store.fs != before {
        AliasWriteSound(hashes, store.cfg, before, store.fs, committed, key, h);
      }
    }

    /** The miss: download from the first origin, then record the alias, while other work goes on. */
    method Download(artifact: LoaderMerge.PlannedArtifact, origin: Origin, name: string)
      returns (r: Result<Hash, Error>)
      requires Valid() && TempPath(store.cfg.root, name) !in store.fs.names
      modifies this`committed, this`script, store`fs, store`faults
      ensures Valid() && old(committed) <= committed && old(store.fs).WellFormed()
      ensures ChangedBy(store.cfg, old(store.fs), store.fs, old(script), script,
                        if r.Err? && !r.error.StoreFailed? then {} else OwnPaths(store.cfg, artifact, origin))
      ensures r.Ok? ==> Downloaded(hashes, store.cfg, committed, artifact, r.value)
      ensures r.Ok? ==>
                artifact.origin != [] && r.value == store.cfg.blake3(BodyOf(origin.reply(artifact.origin[0])))
      ensures r.Ok? && artifact.sha1.Some? ==>
                && Vouched(hashes, store.cfg, committed, artifact.sha1.value, r.value)
                && AliasTarget(store.cfg, store.fs, SHA1_NAMESPACE, artifact.sha1.value) == Some(r.value)
      ensures artifact.origin == [] <==> r == Err(NoOrigin)
      ensures r.Err? && r.error.StoreFailed? ==> r.error.cause == Io
      ensures store.faults >= old(store.faults)
      ensures store.faults == old(store.faults) ==> r == Missed(hashes, store.cfg.blake3, artifact, origin)
    {
      ghost var start, calls := store.fs, script;
      Interfere(name);
      if artifact.origin == [] {
        return Err(NoOrigin);
      }
      var url := artifact.origin[0];
      ghost var began, left := store.fs, script;
      r := DownloadIntoStore(IntegrityOf(artifact), origin.reply(url), origin.urlOk(url), origin.hostAllowed(url),
                             name);
      ghost var own := if r.Err? && !r.error.StoreFailed? then {} else OwnObject(store.cfg, origin.reply(url));
      ChangesFollow(store.cfg, start, began, store.fs, calls, left, script, own);
      if r.Err? {
        ChangedByMore(store.cfg, start, store.fs, calls, script, own, OwnPaths(store.cfg, artifact, origin));
        return;
      }
      assert Downloaded(hashes, store.cfg, committed, artifact, r.value);
      var recorded := KeepAlias(artifact.sha1, r.value, name, start, calls, own);
      ChangedByMore(store.cfg, start, store.fs, calls, script, own + AliasOf(store.cfg, artifact.sha1),
                    OwnPaths(store.cfg, artifact, origin));
      if recorded.Err? {
        return Err(StoreFailed(recorded.error));
      }
    }

    /** After an interruption, records the alias of what was downloaded, if its digest is declared. */
    method KeepAlias(sha1: Option<string>, h: Hash, name: string, ghost start: Fs, ghost calls: seq<Other>,
                     ghost own: set<Path>)
      returns (r: Result<(), StoreError>)
      requires Valid() && (sha1.Some? ==> Vouched(hashes, store.cfg, committed, sha1.value, h))
      requires start.WellFormed() && ChangedBy(store.cfg, start, store.fs, calls, script, own)
      modifies this`committed, this`script, store`fs, store`faults
      ensures Valid() && old(committed) <= committed
      ensures ChangedBy(store.cfg, start, store.fs, calls, script, own + AliasOf(store.cfg, sha1))
      ensures store.faults >= old(store.faults) && (r.Err? <==> store.faults > old(store.faults))
      ensures r.Err? ==> r.error == Io
      ensures sha1.Some? ==> Vouched(hashes, store.cfg, committed, sha1.value, h)
      ensures r.Ok? && sha1.Some? ==> AliasTarget(store.cfg, store.fs, SHA1_NAMESPACE, sha1.value) == Some(h)
    {
      ghost var before, was, known := store.fs, script, committed;
      Interfere(name);
      ghost var own1 := own + {};
      ChangesAdd(store.cfg, start, before, store.fs, calls, was, script, own, {});
      r := Ok(());
      if sha1.Some? {
        VouchedGrows(hashes, store.cfg, known, committed, sha1.value, h);
        before := store.fs;
        r := RecordAlias(sha1.value, h);
        ChangedByOwn(store.cfg, before, store.fs, script, AliasOf(store.cfg, sha1));
        ChangesAdd(store.cfg, start, before, store.fs, calls, script, script, own1, AliasOf(store.cfg, sha1));
      }
      assert own + {} == own;
    }

    /**
     * Reuses the stored object a vendor digest resolves to, else downloads it and records the alias, with
     * other work going on between the steps and during the download. Either way the hash returned is vouched
     * for by the digest; a download also satisfies everything else the artifact declares.
     */
    method Acquire(artifact: LoaderMerge.PlannedArtifact, origin: Origin, name: string, counters: Counters)
      returns (r: Result<Hash, Error>, ghost reused: bool)
      requires Valid() && TempPath(store.cfg.root, name) !in store.fs.names
      modifies this`committed, this`script, store`fs, store`faults, counters
      ensures Valid() && old(committed) <= committed && old(store.fs).WellFormed()
      ensures ChangedBy(store.cfg, old(store.fs), store.fs, old(script), script,
                        if r.Err? && !r.error.StoreFailed? then {} else OwnPaths(store.cfg, artifact, origin))
      ensures r.Ok? && artifact.sha1.Some? ==>
                Vouched(hashes, store.cfg, committed, artifact.sha1.value, r.value)
      ensures r.Ok? && !reused ==>
                && Downloaded(hashes, store.cfg, committed, artifact, r.value) && artifact.origin != []
                && r.value == store.cfg.blake3(BodyOf(origin.reply(artifact.origin[0])))
      ensures reused ==> r.Ok? && artifact.sha1.Some? && store.fs == old(store.fs)
                         && ResolvedAlias(store.cfg, store.fs, SHA1_NAMESPACE, artifact.sha1.value) == Some(r.value)
      ensures old(store.fs).WellFormed() && artifact.sha1.Some?
              && ResolvedAlias(store.cfg, old(store.fs), SHA1_NAMESPACE, artifact.sha1.value).Some? ==>
                reused || (r == Err(StoreFailed(Io)) && store.faults > old(store.faults))
      ensures r.Ok? && artifact.sha1.Some? ==>
                AliasTarget(store.cfg, store.fs, SHA1_NAMESPACE, artifact.sha1.value) == Some(r.value)
      ensures store.faults >= old(store.faults)
      ensures store.faults == old(store.faults) && !reused ==>
                r == Missed(hashes, store.cfg.blake3, artifact, origin)
      ensures r.Err? && r.error.StoreFailed? ==> r.error.cause == Io
      ensures counters.completedFiles == old(counters.completedFiles) + if r.Ok? then 1 else 0
      ensures counters.completedBytes == old(counters.completedBytes) + if r.Ok? then artifact.size.UnwrapOr(0) else 0
      ensures counters.reusedBytes == old(counters.reusedBytes) + if reused then artifact.size.UnwrapOr(0) else 0
    {
      reused := false;
      ChangedByOwn(store.cfg, store.fs, store.fs, script, OwnPaths(store.cfg, artifact, origin));
      if artifact.sha1.Some? {
        var existing := store.ResolveAlias(SHA1_NAMESPACE, artifact.sha1.value);
        if existing.Err? {
          return Err(StoreFailed(existing.error)), false;
        }
        if existing.value.Some? {
          var h := existing.value.value;
          assert AliasSound(hashes, store.cfg, store.fs, committed, artifact.sha1.value);
          counters.reusedBytes := counters.reusedBytes + artifact.size.UnwrapOr(0);
          counters.completedFiles := counters.completedFiles + 1;
          counters.completedBytes := counters.completedBytes + artifact.size.UnwrapOr(0);
          return Ok(h), true;
        }
      }
      r := Download(artifact, origin, name);
      if r.Err? {
        return;
      }
      counters.completedFiles := counters.completedFiles + 1;
      counters.completedBytes := counters.completedBytes + artifact.size.UnwrapOr(0);
    }

    // ----- Installing a plan -----

    /** A temporary name nobody uses, as the process-wide counter guarantees. */
    method FreshName() returns (name: string)
      requires Valid()
      ensures TempPath(store.cfg.root, name) !in store.fs.names
    {
      ghost var longest := LongerThanAll(store.fs.names.Keys);
      ghost var fits := seq(longest, i => 'x');
      assert TempPath(store.cfg.root, fits)[|store.cfg.root| + 1] == fits;
      assert TempPath(store.cfg.root, fits) !in store.fs.names;
      name :| TempPath(store.cfg.root, name) !in store.fs.names;
    }

    /** Acquires every artifact in plan order and makes its lock entry, with other work in between. */
    method LockAll(artifacts: seq<LoaderMerge.PlannedArtifact>, origin: Origin, counters: Counters)
      returns (r: Result<seq<Classpath.LockArtifact>, Error>)
      requires Valid()
      modifies this`committed, this`script, store`fs, store`faults, counters
      ensures Valid() && old(committed) <= committed && store.faults >= old(store.faults)
      ensures old(store.fs).WellFormed() && OutsideKept(store.cfg, old(store.fs), store.fs)
      ensures r.Ok? ==> |r.value| == |artifacts| && AllVouched(hashes, store.cfg, committed, artifacts, r.value)
      ensures r.Err? && r.error.StoreFailed? && r.error.cause == Io ==> store.faults > old(store.faults)
    {
      var locked: seq<Classpath.LockArtifact> := [];
      for i := 0 to |artifacts|
        invariant Valid() && old(committed) <= committed && store.faults >= old(store.faults)
        invariant old(store.fs).WellFormed() && OutsideKept(store.cfg, old(store.fs), store.fs)
        invariant |locked| == i
        invariant AllVouched(hashes, store.cfg, committed, artifacts, locked)
      {
        ghost var before, fs := committed, store.fs;
        var entry := LockOne(artifacts[i], origin, counters);
        OutsideKeptThrough(store.cfg, old(store.fs), fs, store.fs);
        EntriesStayVouched(hashes, store.cfg, before, committed, artifacts, locked);
        if entry.Err? {
          return Err(entry.error);
        }
        locked := locked + [entry.value];
      }
      return Ok(locked);
    }

    method LockOne(artifact: LoaderMerge.PlannedArtifact, origin: Origin, counters: Counters)
      returns (r: Result<Classpath.LockArtifact, Error>)
      requires Valid()
      modifies this`committed, this`script, store`fs, store`faults, counters
      ensures Valid() && old(committed) <= committed && store.faults >= old(store.faults)
      ensures old(store.fs).WellFormed() && OutsideKept(store.cfg, old(store.fs), store.fs)
      ensures r.Ok? ==> EntryVouched(hashes, store.cfg, committed, artifact, r.value)
      ensures r.Err? && r.error.StoreFailed? && r.error.cause == Io ==> store.faults > old(store.faults)
    {
      var name := FreshName();
      var acquired, reused := Acquire(artifact, origin, name, counters);
      if acquired.Err? {
        return Err(acquired.error);
      }
      var h := acquired.value;
      Interfere(name);
      var size := store.SizeOf(h);
      if size.Err? {
        return Err(StoreFailed(size.error));
      }
      ObjectsArea(store.cfg, h);
      ghost var content := store.fs.BytesAt(ObjectPath(store.cfg.root, h));
      assert content in committed && store.cfg.blake3(content) == h;
      EntryMade(hashes, store.cfg, committed, artifact, content);
      return Ok(Classpath.LockEntry(artifact, ToHex(h), size.value));
    }

    /** Places one locked artifact; the object may have been collected since, and is then missing. */
    method PlaceOne(artifact: LoaderMerge.PlannedArtifact, entry: Classpath.LockArtifact, dest: Path)
      returns (r: Result<(), Error>)
      requires Valid() && EntryVouched(hashes, store.cfg, committed, artifact, entry)
      requires AreaOf(store.cfg.root, dest) == Outside
      modifies this`committed, this`script, store`fs, store`faults, store`shared, store`refused
      ensures Valid() && old(committed) <= committed && store.faults >= old(store.faults)
      ensures old(store.fs).WellFormed() && KeptBut(store.cfg, old(store.fs), store.fs, dest)
      ensures r.Ok? ==> Holding(store.cfg, committed, store.fs, artifact, entry, dest)
      ensures r.Err? ==>
                r.error.StoreFailed? && (r.error.cause == Io ==> store.faults > old(store.faults))
                && (r.error.cause.Missing? || r.error.cause == Io)
    {
      Interfere("");
      EntryHash(hashes, store.cfg, committed, artifact, entry);
      var h := Parse(entry.blake3).value;
      ghost var before := store.fs;
      var mode := if artifact.role.Override? then StoreMachine.Private else StoreMachine.Shared;
      var placed := store.Materialize(h, dest, mode);
      PlacementKeepsSound(before, dest);
      KeptButAfter(store.cfg, old(store.fs), before, store.fs, dest);
      if placed.Err? {
        return Err(StoreFailed(placed.error));
      }
      ObjectsArea(store.cfg, h);
      return Ok(());
    }

    lemma PlacementKeepsSound(before: Fs, dest: Path)
      requires before.WellFormed() && store.Valid() && Sound(hashes, store.cfg, before, committed)
      requires OthersKept(before, store.fs, dest) && AreaOf(store.cfg.root, dest) == Outside
      ensures Valid()
    {
      StillSound(hashes, store.cfg, before, store.fs, committed, dest);
    }

    /**
     * Installs a plan: acquire and lock everything, then place everything, with collections and other
     * acquisitions in between. Success means every destination holds, at the end, content of the hash of the
     * last entry for it and of no other; a collection that gets in between can only make an object missing.
     * Nothing else outside the store changes, whether the plan is installed or not.
     */
    method Install(artifacts: seq<LoaderMerge.PlannedArtifact>, origin: Origin,
                   destination: LoaderMerge.PlannedArtifact -> Path, counters: Counters)
      returns (r: Result<seq<Classpath.LockArtifact>, Error>)
      requires Valid()
      requires Placeable(store.cfg, artifacts, destination)
      modifies this`committed, this`script, store`fs, store`faults, store`shared, store`refused, counters
      ensures Valid() && old(committed) <= committed && store.faults >= old(store.faults)
      ensures old(store.fs).WellFormed()
      ensures BesidesKept(store.cfg, old(store.fs), store.fs, artifacts, destination, |artifacts|)
      ensures r.Ok? ==> |r.value| == |artifacts| && AllVouched(hashes, store.cfg, committed, artifacts, r.value)
      ensures r.Ok? ==> AllHold(store.cfg, committed, store.fs, artifacts, r.value, destination, |artifacts|)
      ensures r.Err? && r.error.StoreFailed? && store.faults == old(store.faults) ==> r.error.cause.Missing?
    {
      var locked := LockAll(artifacts, origin, counters);
      ghost var mid := store.fs;
      if locked.Err? {
        return Err(locked.error);
      }
      var placed := PlaceAll(artifacts, locked.value, destination);
      BesidesKeptAfter(store.cfg, old(store.fs), mid, store.fs, artifacts, destination);
      return if placed.Ok? then Ok(locked.value) else Err(placed.error);
    }

    method PlaceAll(artifacts: seq<LoaderMerge.PlannedArtifact>, entries: seq<Classpath.LockArtifact>,
                    destination: LoaderMerge.PlannedArtifact -> Path)
      returns (r: Result<(), Error>)
      requires Valid() && AllVouched(hashes, store.cfg, committed, artifacts, entries) && |entries| == |artifacts|
      requires Placeable(store.cfg, artifacts, destination)
      modifies this`committed, this`script, store`fs, store`faults, store`shared, store`refused
      ensures Valid() && old(committed) <= committed && store.faults >= old(store.faults)
      ensures old(store.fs).WellFormed()
      ensures BesidesKept(store.cfg, old(store.fs), store.fs, artifacts, destination, |artifacts|)
      ensures AllVouched(hashes, store.cfg, committed, artifacts, entries)
      ensures r.Ok? ==> AllHold(store.cfg, committed, store.fs, artifacts, entries, destination, |artifacts|)
      ensures r.Err? ==>
                r.error.StoreFailed? && (store.faults == old(store.faults) ==> r.error.cause.Missing?)
    {
      for i := 0 to |artifacts|
        invariant Valid() && old(committed) <= committed && store.faults >= old(store.faults)
        invariant old(store.fs).WellFormed()
        invariant BesidesKept(store.cfg, old(store.fs), store.fs, artifacts, destination, i)
        invariant AllVouched(hashes, store.cfg, committed, artifacts, entries)
        invariant AllHold(store.cfg, committed, store.fs, artifacts, entries, destination, i)
      {
        ghost var before := store.fs;
        r := PlaceNext(artifacts, entries, destination, i);
        BesidesKeptNext(store.cfg, old(store.fs), before, store.fs, artifacts, destination, i);
        if r.Err? {
          return;
        }
      }
      return Ok(());
    }

    method PlaceNext(artifacts: seq<LoaderMerge.PlannedArtifact>, entries: seq<Classpath.LockArtifact>,
                     destination: LoaderMerge.PlannedArtifact -> Path, i: nat)
      returns (r: Result<(), Error>)
      requires Valid() && AllVouched(hashes, store.cfg, committed, artifacts, entries)
      requires i < |entries| == |artifacts| && Placeable(store.cfg, artifacts, destination)
      requires AllHold(store.cfg, committed, store.fs, artifacts, entries, destination, i)
      modifies this`committed, this`script, store`fs, store`faults, store`shared, store`refused
      ensures Valid() && old(committed) <= committed && store.faults >= old(store.faults)
      ensures old(store.fs).WellFormed() && KeptBut(store.cfg, old(store.fs), store.fs, destination(artifacts[i]))
      ensures AllVouched(hashes, store.cfg, committed, artifacts, entries)
      ensures r.Ok? ==> AllHold(store.cfg, committed, store.fs, artifacts, entries, destination, i + 1)
      ensures r.Err? ==>
                r.error.StoreFailed? && (store.faults == old(store.faults) ==> r.error.cause.Missing?)
    {
      ghost var before, known := store.fs, committed;
      assert artifacts[i] in artifacts;
      r := PlaceOne(artifacts[i], entries[i], destination(artifacts[i]));
      EntriesStayVouched(hashes, store.cfg, known, committed, artifacts, entries);
      if r.Ok? {
        OthersStillHold(store.cfg, known, committed, before, store.fs, artifacts, entries, destination, i);
      }
    }
  }

  // ----- What an installed plan means -----

  /** The entry locks an artifact under the hash and size of committed content its digest vouches for. */
  ghost predicate EntryVouched(hashes: Hashes, cfg: Config, committed: set<Bytes>,
                               artifact: LoaderMerge.PlannedArtifact, entry: Classpath.LockArtifact)
  {
    exists content :: content in committed && EntryOf(hashes, cfg, committed, artifact, entry, content)
  }

  ghost predicate EntryOf(hashes: Hashes, cfg: Config, committed: set<Bytes>, artifact: LoaderMerge.PlannedArtifact,
                          entry: Classpath.LockArtifact, content: Bytes)
  {
    && entry.path == artifact.path && entry.role == artifact.role
    && entry.blake3 == ToHex(cfg.blake3(content)) && entry.size == |content|
    && entry.sha1 == artifact.sha1 && entry.sha512 == artifact.sha512
    && entry.origin == artifact.origin && entry.extract == artifact.extract
    && (artifact.sha1.Some? ==> Vouched(hashes, cfg, committed, artifact.sha1.value, cfg.blake3(content)))
  }

  lemma EntryMade(hashes: Hashes, cfg: Config, committed: set<Bytes>, artifact: LoaderMerge.PlannedArtifact,
                  content: Bytes)
    requires content in committed
    requires artifact.sha1.Some? ==> Vouched(hashes, cfg, committed, artifact.sha1.value, cfg.blake3(content))
    ensures EntryVouched(hashes, cfg, committed, artifact,
                         Classpath.LockEntry(artifact, ToHex(cfg.blake3(content)), |content|))
  {
    var entry := Classpath.LockEntry(artifact, ToHex(cfg.blake3(content)), |content|);
    assert EntryOf(hashes, cfg, committed, artifact, entry, content);
  }

  ghost predicate AllVouched(hashes: Hashes, cfg: Config, committed: set<Bytes>,
                             artifacts: seq<LoaderMerge.PlannedArtifact>, entries: seq<Classpath.LockArtifact>)
  {
    |entries| <= |artifacts|
    && forall k :: 0 <= k < |entries| ==> EntryVouched(hashes, cfg, committed, artifacts[k], entries[k])
  }

  /** Destinations lie outside the store. */
  predicate Placeable(cfg: Config, artifacts: seq<LoaderMerge.PlannedArtifact>,
                      destination: LoaderMerge.PlannedArtifact -> Path)
  {
    forall a :: a in artifacts ==> AreaOf(cfg.root, destination(a)) == Outside
  }

  /** Of the first `n` artifacts, number `k` is the last to be placed at its destination. */
  predicate LastThere(artifacts: seq<LoaderMerge.PlannedArtifact>, destination: LoaderMerge.PlannedArtifact -> Path,
                      k: nat, n: nat)
    requires k < |artifacts| && n <= |artifacts|
  {
    forall m :: k < m < n ==> destination(artifacts[m]) != destination(artifacts[k])
  }

  /** Nothing outside the store has changed but the destinations of the first `n` artifacts. */
  ghost predicate BesidesKept(cfg: Config, before: Fs, after: Fs, artifacts: seq<LoaderMerge.PlannedArtifact>,
                              destination: LoaderMerge.PlannedArtifact -> Path, n: nat)
    requires before.WellFormed() && after.WellFormed() && n <= |artifacts|
  {
    forall p :: AreaOf(cfg.root, p) == Outside && (forall k :: 0 <= k < n ==> destination(artifacts[k]) != p) ==>
      KeptAsIs(before, after, p)
  }

  lemma BesidesKeptNext(cfg: Config, a: Fs, b: Fs, c: Fs, artifacts: seq<LoaderMerge.PlannedArtifact>,
                        destination: LoaderMerge.PlannedArtifact -> Path, i: nat)
    requires a.WellFormed() && b.WellFormed() && c.WellFormed() && i < |artifacts|
    requires BesidesKept(cfg, a, b, artifacts, destination, i) && KeptBut(cfg, b, c, destination(artifacts[i]))
    ensures BesidesKept(cfg, a, c, artifacts, destination, i + 1)
    ensures BesidesKept(cfg, a, c, artifacts, destination, |artifacts|)
  {
    forall p | AreaOf(cfg.root, p) == Outside && forall k :: 0 <= k < i + 1 ==> destination(artifacts[k]) != p
      ensures KeptAsIs(a, c, p)
    {
      assert KeptAsIs(a, b, p) && KeptAsIs(b, c, p);
    }
  }

  lemma BesidesKeptAfter(cfg: Config, a: Fs, b: Fs, c: Fs, artifacts: seq<LoaderMerge.PlannedArtifact>,
                         destination: LoaderMerge.PlannedArtifact -> Path)
    requires a.WellFormed() && b.WellFormed() && c.WellFormed() && OutsideKept(cfg, a, b)
    requires BesidesKept(cfg, b, c, artifacts, destination, |artifacts|)
    ensures BesidesKept(cfg, a, c, artifacts, destination, |artifacts|)
  {
    forall p | AreaOf(cfg.root, p) == Outside && forall k :: 0 <= k < |artifacts| ==> destination(artifacts[k]) != p
      ensures KeptAsIs(a, c, p)
    {
      assert KeptAsIs(a, b, p) && KeptAsIs(b, c, p);
    }
  }

  /**
   * The destination holds committed content of the entry's hash, read-only unless the player may write it; such a
   * file has its inode to itself.
   */
  ghost predicate Holding(cfg: Config, committed: set<Bytes>, fs: Fs, artifact: LoaderMerge.PlannedArtifact,
                          entry: Classpath.LockArtifact, dest: Path)
  {
    && dest in fs.names && fs.names[dest] in fs.nodes
    && fs.BytesAt(dest) in committed && entry.blake3 == ToHex(cfg.blake3(fs.BytesAt(dest)))
    && (fs.NodeAt(dest).readOnly <==> !artifact.role.Override?)
    && (artifact.role.Override? ==> OwnInode(fs, dest))
  }

  /**
   * When no two committed contents share a hash, what lies at an installed entry's destination is the content
   * that was locked: it has the entry's size, and the digest its vendor declared.
   */
  lemma InstalledIsLocked(hashes: Hashes, cfg: Config, committed: set<Bytes>, fs: Fs,
                          artifact: LoaderMerge.PlannedArtifact, entry: Classpath.LockArtifact, dest: Path)
    requires NoCollision(cfg, committed) && EntryVouched(hashes, cfg, committed, artifact, entry)
    requires Holding(cfg, committed, fs, artifact, entry, dest)
    ensures entry.size == |fs.BytesAt(dest)|
    ensures artifact.sha1.Some? ==> IsContentOf(hashes, artifact.sha1.value, fs.BytesAt(dest))
  {
    var content :| content in committed && EntryOf(hashes, cfg, committed, artifact, entry, content);
    var held := fs.BytesAt(dest);
    HexRoundTrip(cfg.blake3(content));
    HexRoundTrip(cfg.blake3(held));
    assert held == content;
    if artifact.sha1.Some? {
      var named :| named in committed && cfg.blake3(named) == cfg.blake3(content)
                   && IsContentOf(hashes, artifact.sha1.value, named);
      assert named == content;
    }
  }

  /** The entries of an installed plan are its lock in the classpath's sense, so what is proved of that applies. */
  lemma {:induction false} EntriesAreLocked(hashes: Hashes, cfg: Config, committed: set<Bytes>,
                                            artifacts: seq<LoaderMerge.PlannedArtifact>,
                                            entries: seq<Classpath.LockArtifact>)
    returns (acquired: seq<(string, nat)>)
    requires AllVouched(hashes, cfg, committed, artifacts, entries) && |entries| == |artifacts|
    ensures |acquired| == |artifacts| && entries == Classpath.Locked(artifacts, acquired)
  {
    if artifacts == [] {
      acquired := [];
    } else {
      var content :| content in committed && EntryOf(hashes, cfg, committed, artifacts[0], entries[0], content);
      forall k | 0 <= k < |entries| - 1
        ensures EntryVouched(hashes, cfg, committed, artifacts[1..][k], entries[1..][k])
      {
        assert EntryVouched(hashes, cfg, committed, artifacts[k + 1], entries[k + 1]);
      }
      var rest := EntriesAreLocked(hashes, cfg, committed, artifacts[1..], entries[1..]);
      acquired := [(ToHex(cfg.blake3(content)), |content|)] + rest;
      assert acquired[1..] == rest && entries == [entries[0]] + entries[1..];
    }
  }

  lemma EntryHash(hashes: Hashes, cfg: Config, committed: set<Bytes>, artifact: LoaderMerge.PlannedArtifact,
                  entry: Classpath.LockArtifact)
    requires EntryVouched(hashes, cfg, committed, artifact, entry)
    ensures Parse(entry.blake3).Some? && ToHex(Parse(entry.blake3).value) == entry.blake3
  {
    var content :| content in committed && EntryOf(hashes, cfg, committed, artifact, entry, content);
    HexRoundTrip(cfg.blake3(content));
  }

  lemma EntriesStayVouched(hashes: Hashes, cfg: Config, before: set<Bytes>, after: set<Bytes>,
                           artifacts: seq<LoaderMerge.PlannedArtifact>, entries: seq<Classpath.LockArtifact>)
    requires before <= after && AllVouched(hashes, cfg, before, artifacts, entries)
    ensures AllVouched(hashes, cfg, after, artifacts, entries)
  {
    forall k | 0 <= k < |entries|
      ensures EntryVouched(hashes, cfg, after, artifacts[k], entries[k])
    {
      var content :| content in before && EntryOf(hashes, cfg, before, artifacts[k], entries[k], content);
      if artifacts[k].sha1.Some? {
        VouchedGrows(hashes, cfg, before, after, artifacts[k].sha1.value, cfg.blake3(content));
      }
      assert EntryOf(hashes, cfg, after, artifacts[k], entries[k], content);
    }
  }

  /** Every destination of the first `n` artifacts holds the content of the last entry for it. */
  ghost predicate AllHold(cfg: Config, committed: set<Bytes>, fs: Fs, artifacts: seq<LoaderMerge.PlannedArtifact>,
                          entries: seq<Classpath.LockArtifact>, destination: LoaderMerge.PlannedArtifact -> Path,
                          n: nat)
  {
    n <= |entries| <= |artifacts|
    && forall k :: 0 <= k < n && LastThere(artifacts, destination, k, n) ==>
         Holding(cfg, committed, fs, artifacts[k], entries[k], destination(artifacts[k]))
  }

  /** What one placement did leaves the other destinations placed before it alone. */
  lemma OthersStillHold(cfg: Config, before: set<Bytes>, after: set<Bytes>, fs: Fs, now: Fs,
                        artifacts: seq<LoaderMerge.PlannedArtifact>, entries: seq<Classpath.LockArtifact>,
                        destination: LoaderMerge.PlannedArtifact -> Path, i: nat)
    requires before <= after && fs.WellFormed() && now.WellFormed() && i < |artifacts|
    requires AllHold(cfg, before, fs, artifacts, entries, destination, i)
    requires KeptBut(cfg, fs, now, destination(artifacts[i])) && Placeable(cfg, artifacts, destination)
    requires i < |entries| && Holding(cfg, after, now, artifacts[i], entries[i], destination(artifacts[i]))
    ensures AllHold(cfg, after, now, artifacts, entries, destination, i + 1)
  {
    forall k | 0 <= k < i && LastThere(artifacts, destination, k, i + 1)
      ensures Holding(cfg, after, now, artifacts[k], entries[k], destination(artifacts[k]))
    {
      assert artifacts[k] in artifacts && LastThere(artifacts, destination, k, i);
      StillHolding(cfg, before, after, fs, now, artifacts[k], entries[k], destination(artifacts[k]));
    }
  }

  lemma StillHolding(cfg: Config, before: set<Bytes>, after: set<Bytes>, fs: Fs, now: Fs,
                     artifact: LoaderMerge.PlannedArtifact, entry: Classpath.LockArtifact, dest: Path)
    requires before <= after && fs.WellFormed() && now.WellFormed() && KeptAsIs(fs, now, dest)
    requires Holding(cfg, before, fs, artifact, entry, dest)
    ensures Holding(cfg, after, now, artifact, entry, dest)
  {
  }

  /** A length that no last component of some paths has. */
  lemma {:induction false} LongerThanAll(ps: set<Path>) returns (n: nat)
    ensures forall p :: p in ps && p != [] ==> |p[|p| - 1]| < n
  {
    if ps == {} {
      n := 0;
    } else {
      var p :| p in ps;
      var m := LongerThanAll(ps - {p});
      n := m + if p == [] then 0 else |p[|p| - 1]| + 1;
      forall q | q in ps && q != []
        ensures |q[|q| - 1]| < n
      {
        if q != p { assert q in ps - {p}; }
      }
    }
  }

  /** `h` is the store's name for some committed content of the artifact's declared size and digests. */
  ghost predicate Downloaded(hashes: Hashes, cfg: Config, committed: set<Bytes>, artifact: LoaderMerge.PlannedArtifact,
                             h: Hash)
  {
    exists bytes :: bytes in committed && cfg.blake3(bytes) == h && IsAsDeclared(hashes, artifact, bytes)
  }

  ghost predicate IsAsDeclared(hashes: Hashes, artifact: LoaderMerge.PlannedArtifact, bytes: Bytes) {
    && (artifact.size.Some? ==> |bytes| == artifact.size.value)
    && (artifact.sha1.Some? ==> EqIgnoreAsciiCase(artifact.sha1.value, hashes.sha1(bytes)))
    && (artifact.sha512.Some? ==> EqIgnoreAsciiCase(artifact.sha512.value, hashes.sha512(bytes)))
  }

  /** No two committed contents share a vendor digest. */
  ghost predicate DigestsDistinct(hashes: Hashes, committed: set<Bytes>) {
    forall a, b :: a in committed && b in committed && EqIgnoreAsciiCase(hashes.sha1(a), hashes.sha1(b)) ==> a == b
  }

  /**
   * The cache agrees with the network: when no two committed contents share a vendor digest, one digest
   * vouches for one hash only, so reuse returns what a fresh download would.
   */
  lemma ReuseAgreesWithDownload(hashes: Hashes, cfg: Config, committed: set<Bytes>,
                                artifact: LoaderMerge.PlannedArtifact, reused: Hash, downloaded: Hash)
    requires DigestsDistinct(hashes, committed)
    requires artifact.sha1.Some? && Vouched(hashes, cfg, committed, artifact.sha1.value, reused)
    requires Downloaded(hashes, cfg, committed, artifact, downloaded)
    ensures reused == downloaded
    ensures Downloaded(hashes, cfg, committed, artifact, reused)
  {
    var sha1 := artifact.sha1.value;
    var a :| a in committed && cfg.blake3(a) == reused && IsContentOf(hashes, sha1, a);
    var b :| b in committed && cfg.blake3(b) == downloaded && IsAsDeclared(hashes, artifact, b);
    forall i | 0 <= i < |sha1|
      ensures LowerAscii(hashes.sha1(a)[i]) == LowerAscii(hashes.sha1(b)[i])
    {
      assert LowerAscii(sha1[i]) == LowerAscii(hashes.sha1(a)[i]);
      assert LowerAscii(sha1[i]) == LowerAscii(hashes.sha1(b)[i]);
    }
    assert EqIgnoreAsciiCase(hashes.sha1(a), hashes.sha1(b));
  }
}
