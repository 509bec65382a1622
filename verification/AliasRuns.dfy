/**
 * Vendor digests over whole runs of the concurrent store: other work's calls are the machine's own steps, and an
 * alias that resolves names content of its digest at every moment.
 */
module AliasRuns {
  import opened Prelude
  import opened IntegrityCheck
  import opened ContentHash
  import opened StorePaths
  import opened FileSystem
  import opened StoreMachine
  import ObjectStore
  import I = Interference

  predicate IsStoreStep(step: Step) {
    IsWriterStep(step) || step.Collect? || step.WriteAlias?
  }

  /** An alias is recorded, perhaps cut short, for content committed before that its digest names. */
  ghost predicate Recorded(hashes: Hashes, cfg: Config, committed: set<Bytes>, step: Step) {
    step.WriteAlias? && step.namespace == I.SHA1_NAMESPACE ==>
      exists content, cut :: RecordsCut(hashes, cfg, committed, step, content, cut)
  }

  predicate RecordsCut(hashes: Hashes, cfg: Config, committed: set<Bytes>, step: Step, content: Bytes, cut: nat)
    requires step.WriteAlias?
  {
    content in committed && I.IsContentOf(hashes, step.key, content) && cut <= HASH_HEX_LEN
    && step.text == ToHex(cfg.blake3(content))[..cut]
  }

  /** No writer under way has this temporary name, and none is opened under it. */
  ghost predicate NobodyUses(s: State, step: Step, name: string) {
    (step.Open? ==> step.name != name) && forall w :: w in s.writers ==> s.writers[w].name != name
  }

  /** What has been committed once a step is done. */
  ghost function CommittedAfter(s: State, step: Step, committed: set<Bytes>): set<Bytes> {
    if step.Rename? && step.w in s.writers then committed + {s.writers[step.w].hashed} else committed
  }

  /** What the renames among the first `n` steps of a run committed. */
  ghost function Committed(states: seq<State>, steps: seq<Step>, n: nat): set<Bytes>
    requires |states| == |steps| + 1 && n <= |steps|
  {
    if n == 0 then {} else CommittedAfter(states[n - 1], steps[n - 1], Committed(states, steps, n - 1))
  }

  /** A step reaches the files by one call of other work, or not at all. */
  ghost predicate IsCall(hashes: Hashes, cfg: Config, s: State, step: Step, after: Fs, committed: set<Bytes>,
                         mine: string, o: Option<I.Other>)
    requires s.fs.WellFormed()
  {
    match o
    case None => after == s.fs && CommittedAfter(s, step, committed) == committed
    case Some(call) =>
      && I.Possible(hashes, cfg, s.fs, committed, mine, call)
      && after == I.After(hashes, cfg, s.fs, committed, mine, call)
      && CommittedAfter(s, step, committed) == I.Grown(cfg, s.fs, committed, call)
  }

  lemma TempIsCall(hashes: Hashes, cfg: Config, policy: Policy, s: State, step: Step, committed: set<Bytes>,
                   mine: string)
    returns (o: Option<I.Other>)
    requires Inv(cfg, s) && Enabled(cfg, policy, s, step) && NobodyUses(s, step, mine)
    requires step.Open? || step.Write? || step.Discard? || step.Abandon?
    ensures IsCall(hashes, cfg, s, step, Apply(cfg, policy, s, step).fs, committed, mine, o)
  {
    o := if step.Open? then Some(I.CreateTemp(step.name))
         else if step.Write? then Some(I.AppendTemp(s.writers[step.w].name, step.buffer[..step.accepted]))
         else Some(I.DropTemp(s.writers[step.w].name));
  }

  lemma CommitIsCall(hashes: Hashes, cfg: Config, policy: Policy, s: State, step: Step, committed: set<Bytes>,
                     mine: string)
    returns (o: Option<I.Other>)
    requires Inv(cfg, s) && Enabled(cfg, policy, s, step) && NobodyUses(s, step, mine)
    requires step.Rename? || step.Seal?
    ensures IsCall(hashes, cfg, s, step, Apply(cfg, policy, s, step).fs, committed, mine, o)
  {
    var writer, h := s.writers[step.w], HashOf(cfg, s.writers[step.w]);
    o := if step.Rename? then Some(I.Publish(writer.name, h))
         else if ObjectPath(cfg.root, h) in s.fs.names then Some(I.SealObject(h)) else None;
  }

  /**
   * A step of a writer, a collection or an alias record reaches the files, if at all, by one of the calls that
   * other work makes, so whatever holds through all of those calls holds through these steps.
   */
  lemma StepIsCall(hashes: Hashes, cfg: Config, policy: Policy, s: State, step: Step, committed: set<Bytes>,
                   mine: string)
    returns (o: Option<I.Other>)
    requires Inv(cfg, s) && ObjectStore.Tidy(cfg, s.fs) && Enabled(cfg, policy, s, step) && IsStoreStep(step)
    requires step.WriteAlias? ==> step.namespace == I.SHA1_NAMESPACE
    requires Recorded(hashes, cfg, committed, step) && NobodyUses(s, step, mine)
    ensures IsCall(hashes, cfg, s, step, Apply(cfg, policy, s, step).fs, committed, mine, o)
  {
    if step.Open? || step.Write? || step.Discard? || step.Abandon? {
      o := TempIsCall(hashes, cfg, policy, s, step, committed, mine);
    } else if step.Rename? || step.Seal? {
      o := CommitIsCall(hashes, cfg, policy, s, step, committed, mine);
    } else if step.Collect? {
      o := CollectIsCall(cfg, s.fs, step.shard, step.file);
    } else if step.WriteAlias? {
      var content, cut :| RecordsCut(hashes, cfg, committed, step, content, cut);
      o := Some(I.Alias(step.key, content, cut));
    } else {
      o := None;
    }
  }

  /** Collecting a file that is there removes an object; collecting one that is not does nothing. */
  lemma CollectIsCall(cfg: Config, fs: Fs, shard: string, file: string) returns (o: Option<I.Other>)
    requires fs.WellFormed() && ObjectStore.Tidy(cfg, fs)
    requires HashFromObjectPath(cfg.root + [OBJECTS_DIR, shard, file]).Some?
    ensures o.None? ==> fs.Remove(cfg.root + [OBJECTS_DIR, shard, file]) == fs
    ensures o.Some? ==> o.value.Collect? && ObjectPath(cfg.root, o.value.h) == cfg.root + [OBJECTS_DIR, shard, file]
  {
    var p := cfg.root + [OBJECTS_DIR, shard, file];
    if p in fs.names {
      assert AreaOf(cfg.root, p) == Objects;
      var h: Hash :| p == ObjectPath(cfg.root, h);
      o := Some(I.Collect(h));
    } else {
      assert fs.names - {p} == fs.names;
      o := None;
    }
  }

  // ----- Aliases over whole runs -----

  ghost predicate AllRecorded(hashes: Hashes, cfg: Config, states: seq<State>, steps: seq<Step>)
    requires |states| == |steps| + 1
  {
    forall i: nat :: i < |steps| ==> RecordedAt(hashes, cfg, states, steps, i)
  }

  ghost predicate RecordedAt(hashes: Hashes, cfg: Config, states: seq<State>, steps: seq<Step>, i: nat)
    requires i < |steps| == |states| - 1
  {
    Recorded(hashes, cfg, Committed(states, steps, i), steps[i])
  }

  /** Some temporary name that a state's writers and its next step do not use. */
  lemma SomeUnusedName(s: State, step: Step) returns (name: string)
    ensures NobodyUses(s, step, name)
  {
    var names := (set w | w in s.writers :: s.writers[w].name) + if step.Open? then {step.name} else {};
    name := LongerName(names);
    assert forall w :: w in s.writers ==> s.writers[w].name in names;
  }

  lemma {:induction false} LongerName(names: set<string>) returns (name: string)
    ensures forall n :: n in names ==> |n| < |name|
  {
    if names == {} {
      name := "";
    } else {
      var n :| n in names;
      var rest := LongerName(names - {n});
      name := rest + n + "x";
    }
  }

  /** Writing an alias of another namespace leaves every vendor digest's alone. */
  lemma OtherNamespaceSound(hashes: Hashes, cfg: Config, fs: Fs, after: Fs, committed: set<Bytes>, namespace: string,
                            name: string)
    requires fs.WellFormed() && after.WellFormed() && I.Sound(hashes, cfg, fs, committed)
    requires OthersKept(fs, after, AliasPath(cfg.root, namespace, name)) && namespace != I.SHA1_NAMESPACE
    ensures I.Sound(hashes, cfg, after, committed)
  {
    var p := AliasPath(cfg.root, namespace, name);
    assert AreaOf(cfg.root, p) == Aliases;
    forall h: Hash | ObjectPath(cfg.root, h) in after.names
      ensures after.BytesAt(ObjectPath(cfg.root, h)) in committed
    {
      ObjectsArea(cfg, h);
    }
    forall key
      ensures I.AliasSound(hashes, cfg, after, committed, key)
    {
      if AliasPath(cfg.root, I.SHA1_NAMESPACE, key) == p {
        AliasPathInjective(cfg.root, I.SHA1_NAMESPACE, key, namespace, name);
      }
      assert ObjectStore.AliasTarget(cfg, after, I.SHA1_NAMESPACE, key).Some? ==>
        ObjectStore.AliasTarget(cfg, fs, I.SHA1_NAMESPACE, key)
        == ObjectStore.AliasTarget(cfg, after, I.SHA1_NAMESPACE, key);
      assert I.AliasSound(hashes, cfg, fs, committed, key);
    }
  }

  lemma StoreStepSound(hashes: Hashes, cfg: Config, policy: Policy, s: State, step: Step, committed: set<Bytes>)
    requires Inv(cfg, s) && ObjectStore.Tidy(cfg, s.fs) && Enabled(cfg, policy, s, step) && IsStoreStep(step)
    requires policy.Disciplined() && I.Sound(hashes, cfg, s.fs, committed) && Recorded(hashes, cfg, committed, step)
    ensures Apply(cfg, policy, s, step).fs.WellFormed()
    ensures I.Sound(hashes, cfg, Apply(cfg, policy, s, step).fs, CommittedAfter(s, step, committed))
  {
    StepKeepsInv(cfg, policy, s, step);
    if step.WriteAlias? && step.namespace != I.SHA1_NAMESPACE {
      var p := AliasPath(cfg.root, step.namespace, step.key);
      assert AreaOf(cfg.root, p) == Aliases;
      OverwriteKeepsInv(cfg, s.fs, s.shared, p, TextBytes(step.text));
      OtherNamespaceSound(hashes, cfg, s.fs, Apply(cfg, policy, s, step).fs, committed, step.namespace, step.key);
    } else {
      var mine := SomeUnusedName(s, step);
      var o := StepIsCall(hashes, cfg, policy, s, step, committed, mine);
      if o.Some? { I.OtherHarmless(hashes, cfg, s.fs, s.shared, committed, mine, o.value); }
    }
  }

  /** A placement's or the player's step changes nothing in the store. */
  lemma OutsideStepSound(hashes: Hashes, cfg: Config, policy: Policy, s: State, step: Step, committed: set<Bytes>)
    requires Inv(cfg, s) && Enabled(cfg, policy, s, step) && !IsStoreStep(step)
    requires policy.Disciplined() && I.Sound(hashes, cfg, s.fs, committed)
    ensures Apply(cfg, policy, s, step).fs.WellFormed()
    ensures I.Sound(hashes, cfg, Apply(cfg, policy, s, step).fs, committed)
  {
    var after := Apply(cfg, policy, s, step).fs;
    var p := if IsJobStep(step) then JobDest(s, step) else step.p;
    if IsJobStep(step) {
      JobStepKeepsInv(cfg, policy, s, step);
    } else {
      PlayerStepKeepsInv(cfg, policy, s, step);
    }
    I.StillSound(hashes, cfg, s.fs, after, committed, p);
  }

  lemma StepStaysSound(hashes: Hashes, cfg: Config, policy: Policy, s: State, step: Step, after: State,
                       committed: set<Bytes>)
    requires Inv(cfg, s) && ObjectStore.Tidy(cfg, s.fs) && Follows(cfg, policy, s, step, after)
    requires policy.Disciplined() && I.Sound(hashes, cfg, s.fs, committed) && Recorded(hashes, cfg, committed, step)
    ensures after.fs.WellFormed() && I.Sound(hashes, cfg, after.fs, CommittedAfter(s, step, committed))
  {
    if IsStoreStep(step) {
      StoreStepSound(hashes, cfg, policy, s, step, committed);
    } else {
      OutsideStepSound(hashes, cfg, policy, s, step, committed);
    }
  }

  lemma SoundNext(hashes: Hashes, cfg: Config, policy: Policy, states: seq<State>, steps: seq<Step>, n: nat,
                  committed: set<Bytes>)
    requires Run(cfg, policy, states, steps) && n < |steps| && policy.Disciplined()
    requires Recorded(hashes, cfg, committed, steps[n])
    requires states[n].fs.WellFormed() && I.Sound(hashes, cfg, states[n].fs, committed)
    ensures states[n + 1].fs.WellFormed()
    ensures I.Sound(hashes, cfg, states[n + 1].fs, CommittedAfter(states[n], steps[n], committed))
  {
    var s, step, after := states[n], steps[n], states[n + 1];
    assert Follows(cfg, policy, s, step, after);
    RunKeepsInv(cfg, policy, states, steps, n);
    ObjectStore.RunStaysTidy(cfg, policy, states, steps, n);
    StepStaysSound(hashes, cfg, policy, s, step, after, committed);
  }

  lemma {:induction false} RunStaysSound(hashes: Hashes, cfg: Config, policy: Policy, states: seq<State>,
                                         steps: seq<Step>, n: nat)
    requires Run(cfg, policy, states, steps) && n < |states| && policy.Disciplined()
    requires AllRecorded(hashes, cfg, states, steps)
    ensures states[n].fs.WellFormed() && I.Sound(hashes, cfg, states[n].fs, Committed(states, steps, n))
    decreases n
  {
    if n == 0 {
      EmptyIsSound(hashes, cfg, states[0]);
    } else {
      RunStaysSound(hashes, cfg, policy, states, steps, n - 1);
      assert RecordedAt(hashes, cfg, states, steps, n - 1);
      SoundNext(hashes, cfg, policy, states, steps, n - 1, Committed(states, steps, n - 1));
    }
  }

  lemma EmptyIsSound(hashes: Hashes, cfg: Config, s: State)
    requires Initial(cfg, s)
    ensures I.Sound(hashes, cfg, s.fs, {})
  {
    forall h: Hash
      ensures ObjectPath(cfg.root, h) !in s.fs.names
    {
      ObjectsArea(cfg, h);
    }
    forall key
      ensures I.AliasSound(hashes, cfg, s.fs, {}, key)
    {
      I.AliasArea(cfg, key);
    }
  }

  /**
   * At every moment of a disciplined run whose aliases are recorded for committed content, what an alias resolves
   * to is stored, and its content is what the vendor digest names, as long as committed contents do not collide.
   */
  lemma AliasesAlwaysSound(hashes: Hashes, cfg: Config, policy: Policy, states: seq<State>, steps: seq<Step>, n: nat,
                           key: string, h: Hash)
    requires Run(cfg, policy, states, steps) && n < |states| && policy.Disciplined()
    requires AllRecorded(hashes, cfg, states, steps) && I.NoCollision(cfg, Committed(states, steps, n))
    requires states[n].fs.WellFormed()
    requires ObjectStore.ResolvedAlias(cfg, states[n].fs, I.SHA1_NAMESPACE, key) == Some(h)
    ensures ObjectPath(cfg.root, h) in states[n].fs.names
    ensures I.IsContentOf(hashes, key, states[n].fs.BytesAt(ObjectPath(cfg.root, h)))
  {
    RunKeepsInv(cfg, policy, states, steps, n);
    RunStaysSound(hashes, cfg, policy, states, steps, n);
    I.ResolvedIsContent(hashes, cfg, states[n].fs, states[n].shared, Committed(states, steps, n), key, h);
  }
}
