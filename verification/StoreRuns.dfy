/** What every run of the store guarantees, and exactly which discipline of its callers that takes. */
module StoreRuns {
  import opened Prelude
  import opened ContentHash
  import opened StorePaths
  import opened FileSystem
  import opened StoreMachine

  // ----- Every run, whatever callers do -----

  /** A temporary file's inode has no other name. */
  ghost predicate TempsAlone(cfg: Config, fs: Fs) {
    forall p, q :: p in fs.names && q in fs.names && p != q && AreaOf(cfg.root, p) == Temporary ==>
      fs.names[p] != fs.names[q]
  }

  ghost predicate Basic(cfg: Config, s: State) {
    && s.fs.WellFormed() && TempsAlone(cfg, s.fs) && WritersSound(cfg, s)
    && forall j :: j in s.jobs ==> AreaOf(cfg.root, s.jobs[j].dest) == Outside
  }

  lemma OpenKeepsBasic(cfg: Config, policy: Policy, s: State, step: Step)
    requires Basic(cfg, s) && Enabled(cfg, policy, s, step) && step.Open?
    ensures Basic(cfg, Apply(cfg, policy, s, step))
  {
    TempArea(cfg, step.name);
    TempOfOne(cfg, s, step.name);
    TempsAreInside(cfg, s);
  }

  lemma WriteKeepsBasic(cfg: Config, policy: Policy, s: State, step: Step)
    requires Basic(cfg, s) && Enabled(cfg, policy, s, step) && step.Write?
    ensures Basic(cfg, Apply(cfg, policy, s, step))
  {
    TempArea(cfg, s.writers[step.w].name);
    TempOfOne(cfg, s, s.writers[step.w].name);
    TempsAreInside(cfg, s);
  }

  lemma RenameKeepsBasic(cfg: Config, policy: Policy, s: State, step: Step)
    requires Basic(cfg, s) && Enabled(cfg, policy, s, step) && step.Rename?
    ensures Basic(cfg, Apply(cfg, policy, s, step))
  {
    TempArea(cfg, s.writers[step.w].name);
    ObjectsArea(cfg, HashOf(cfg, s.writers[step.w]));
    RenameKeepsWriters(cfg, s, step.w);
  }

  lemma SealKeepsBasic(cfg: Config, policy: Policy, s: State, step: Step)
    requires Basic(cfg, s) && Enabled(cfg, policy, s, step) && step.Seal?
    ensures Basic(cfg, Apply(cfg, policy, s, step))
  {
    TempsAreInside(cfg, s);
    ObjectsArea(cfg, HashOf(cfg, s.writers[step.w]));
  }

  lemma CheckKeepsBasic(cfg: Config, policy: Policy, s: State, step: Step)
    requires Basic(cfg, s) && Enabled(cfg, policy, s, step) && (step.Check? || step.FailWriter?)
    ensures Basic(cfg, Apply(cfg, policy, s, step))
  {
  }

  lemma EndKeepsBasic(cfg: Config, policy: Policy, s: State, step: Step)
    requires Basic(cfg, s) && Enabled(cfg, policy, s, step) && (step.Discard? || step.Abandon?)
    ensures Basic(cfg, Apply(cfg, policy, s, step))
  {
    TempOfOne(cfg, s, s.writers[step.w].name);
    TempsAreInside(cfg, s);
  }

  ghost predicate TempsKept(cfg: Config, before: Fs, after: Fs)
    requires before.WellFormed() && after.WellFormed()
  {
    forall p :: AreaOf(cfg.root, p) == Temporary && p in before.names ==>
      p in after.names && after.BytesAt(p) == before.BytesAt(p)
  }

  /** What leaves the temporary files and their inodes alone leaves the writers sound. */
  lemma OutsideKeepsBasic(cfg: Config, s: State, after: State)
    requires Basic(cfg, s) && after.fs.WellFormed() && after.writers == s.writers
    requires TempsAlone(cfg, after.fs) && TempsKept(cfg, s.fs, after.fs)
    requires forall j :: j in after.jobs ==> AreaOf(cfg.root, after.jobs[j].dest) == Outside
    ensures Basic(cfg, after)
  {
    TempsAreInside(cfg, s);
  }

  lemma OverwriteKeepsTemps(cfg: Config, fs: Fs, dest: Path, bytes: Bytes)
    requires fs.WellFormed() && TempsAlone(cfg, fs) && AreaOf(cfg.root, dest) == Outside
    ensures var written := fs.Overwrite(dest, bytes);
            written.WellFormed() && TempsAlone(cfg, written) && TempsKept(cfg, fs, written)
  {
  }

  lemma SetModeKeepsTemps(cfg: Config, fs: Fs, dest: Path, readOnly: bool)
    requires fs.WellFormed() && TempsAlone(cfg, fs) && AreaOf(cfg.root, dest) == Outside && dest in fs.names
    ensures var moded := fs.SetMode(dest, readOnly);
            moded.WellFormed() && TempsAlone(cfg, moded) && TempsKept(cfg, fs, moded)
  {
  }

  lemma CopyKeepsBasic(cfg: Config, policy: Policy, s: State, step: Step)
    requires Basic(cfg, s) && Enabled(cfg, policy, s, step) && step.Copy?
    ensures Basic(cfg, Apply(cfg, policy, s, step))
  {
    var source, dest := ObjectPath(cfg.root, s.jobs[step.j].h), s.jobs[step.j].dest;
    var all := Copied(s.fs, source, dest);
    var bytes := all[..if step.copied < |all| then step.copied else |all|];
    OverwriteKeepsTemps(cfg, s.fs, dest, bytes);
    SetModeKeepsTemps(cfg, s.fs.Overwrite(dest, bytes), dest, s.fs.NodeAt(source).readOnly);
    OutsideKeepsBasic(cfg, s, Apply(cfg, policy, s, step));
  }

  lemma LinkKeepsBasic(cfg: Config, policy: Policy, s: State, step: Step)
    requires Basic(cfg, s) && Enabled(cfg, policy, s, step)
    requires step.Reflink? || step.RefuseReflink? || step.HardLinkTo?
    ensures Basic(cfg, Apply(cfg, policy, s, step))
  {
    if step.HardLinkTo? { ObjectsArea(cfg, s.jobs[step.j].h); }
    OutsideKeepsBasic(cfg, s, Apply(cfg, policy, s, step));
  }

  lemma QuietKeepsBasic(cfg: Config, policy: Policy, s: State, step: Step)
    requires Basic(cfg, s) && Enabled(cfg, policy, s, step)
    requires step.Start? || step.Reclear? || step.RefuseLink? || step.FailJob? || step.Permit?
    ensures Basic(cfg, Apply(cfg, policy, s, step))
  {
    OutsideKeepsBasic(cfg, s, Apply(cfg, policy, s, step));
  }

  lemma JobKeepsBasic(cfg: Config, policy: Policy, s: State, step: Step)
    requires Basic(cfg, s) && Enabled(cfg, policy, s, step) && IsJobStep(step)
    ensures Basic(cfg, Apply(cfg, policy, s, step))
  {
    if step.Copy? {
      CopyKeepsBasic(cfg, policy, s, step);
    } else if step.Reflink? || step.RefuseReflink? || step.HardLinkTo? {
      LinkKeepsBasic(cfg, policy, s, step);
    } else {
      QuietKeepsBasic(cfg, policy, s, step);
    }
  }

  lemma RestKeepsBasic(cfg: Config, policy: Policy, s: State, step: Step)
    requires Basic(cfg, s) && Enabled(cfg, policy, s, step) && !IsJobStep(step) && !IsWriterStep(step)
    ensures Basic(cfg, Apply(cfg, policy, s, step))
  {
    TempsAreInside(cfg, s);
  }

  lemma {:induction false} RunKeepsBasic(cfg: Config, policy: Policy, states: seq<State>, steps: seq<Step>, n: nat)
    requires Run(cfg, policy, states, steps) && n < |states|
    ensures Basic(cfg, states[n])
    decreases n
  {
    if n > 0 {
      var s, step := states[n - 1], steps[n - 1];
      RunKeepsBasic(cfg, policy, states, steps, n - 1);
      assert Follows(cfg, policy, s, step, states[n]);
      if step.Open? {
        OpenKeepsBasic(cfg, policy, s, step);
      } else if step.Write? {
        WriteKeepsBasic(cfg, policy, s, step);
      } else if step.Rename? {
        RenameKeepsBasic(cfg, policy, s, step);
      } else if step.Seal? {
        SealKeepsBasic(cfg, policy, s, step);
      } else if step.Check? || step.FailWriter? {
        CheckKeepsBasic(cfg, policy, s, step);
      } else if IsWriterStep(step) {
        EndKeepsBasic(cfg, policy, s, step);
      } else if IsJobStep(step) {
        JobKeepsBasic(cfg, policy, s, step);
      } else {
        RestKeepsBasic(cfg, policy, s, step);
      }
    }
  }

  /** A commit that renames stores exactly the bytes written, under their own hash. */
  lemma CommitStoresWhatWasWritten(cfg: Config, policy: Policy, states: seq<State>, steps: seq<Step>, n: nat)
    requires Run(cfg, policy, states, steps) && n < |steps| && steps[n].Rename?
    ensures steps[n].w in states[n].writers && states[n + 1].fs.WellFormed()
    ensures var hashed := states[n].writers[steps[n].w].hashed;
            var target := ObjectPath(cfg.root, cfg.blake3(hashed));
            target in states[n + 1].fs.names && states[n + 1].fs.BytesAt(target) == hashed
  {
    RunKeepsBasic(cfg, policy, states, steps, n);
    RunKeepsBasic(cfg, policy, states, steps, n + 1);
    assert Follows(cfg, policy, states[n], steps[n], states[n + 1]);
    var writer := states[n].writers[steps[n].w];
    TempArea(cfg, writer.name);
    ObjectsArea(cfg, HashOf(cfg, writer));
  }

  // ----- Every moment of a disciplined run -----

  /** At every moment, what is stored under a hash hashes to it. */
  lemma ObjectsAlwaysIntact(cfg: Config, policy: Policy, states: seq<State>, steps: seq<Step>, n: nat, h: Hash)
    requires Run(cfg, policy, states, steps) && n < |states| && policy.Disciplined()
    requires ObjectPath(cfg.root, h) in states[n].fs.names
    ensures states[n].fs.WellFormed() && cfg.blake3(states[n].fs.BytesAt(ObjectPath(cfg.root, h))) == h
  {
    RunKeepsInv(cfg, policy, states, steps, n);
  }

  /** At every moment, a privately placed destination has an inode of its own. */
  lemma PrivateNeverShares(cfg: Config, policy: Policy, states: seq<State>, steps: seq<Step>, n: nat, p: Path, q: Path)
    requires Run(cfg, policy, states, steps) && n < |states| && policy.Disciplined()
    requires p in states[n].private && p in states[n].fs.names && q in states[n].fs.names && p != q
    ensures states[n].fs.names[p] != states[n].fs.names[q]
  {
    RunKeepsInv(cfg, policy, states, steps, n);
  }

  /** The state before and after step `n`, and that the invariant holds of both. */
  lemma AtStep(cfg: Config, policy: Policy, states: seq<State>, steps: seq<Step>, n: nat)
    requires Run(cfg, policy, states, steps) && n < |steps| && policy.Disciplined()
    ensures Inv(cfg, states[n]) && Inv(cfg, states[n + 1])
    ensures Follows(cfg, policy, states[n], steps[n], states[n + 1])
  {
    RunKeepsInv(cfg, policy, states, steps, n);
    RunKeepsInv(cfg, policy, states, steps, n + 1);
  }

  /** Whatever the player writes or removes, every other name keeps its inode and its bytes. */
  lemma EditsStayLocal(cfg: Config, policy: Policy, states: seq<State>, steps: seq<Step>, n: nat)
    requires Run(cfg, policy, states, steps) && n < |steps| && policy.Disciplined()
    requires steps[n].Edit? || steps[n].Unlink?
    ensures states[n].fs.WellFormed() && states[n + 1].fs.WellFormed()
    ensures OthersKept(states[n].fs, states[n + 1].fs, steps[n].p)
  {
    AtStep(cfg, policy, states, steps, n);
    PlayerStepKeepsInv(cfg, policy, states[n], steps[n]);
  }

  /** Placing an object, however placements overlap, changes no name but its destination. */
  lemma PlacementTouchesOnlyDest(cfg: Config, policy: Policy, states: seq<State>, steps: seq<Step>, n: nat)
    requires Run(cfg, policy, states, steps) && n < |steps| && IsJobStep(steps[n]) && policy.Disciplined()
    ensures HasDest(states[n], steps[n]) && states[n].fs.WellFormed() && states[n + 1].fs.WellFormed()
    ensures OthersKept(states[n].fs, states[n + 1].fs, JobDest(states[n], steps[n]))
  {
    AtStep(cfg, policy, states, steps, n);
    JobStepKeepsInv(cfg, policy, states[n], steps[n]);
  }

  // ----- Delivery -----

  predicate Touches(s: State, step: Step, p: Path) {
    (HasDest(s, step) && JobDest(s, step) == p) || ((step.Edit? || step.Unlink?) && step.p == p)
  }

  ghost predicate KeptAt(before: Fs, after: Fs, q: Path)
    requires before.WellFormed() && after.WellFormed()
  {
    && (q in after.names <==> q in before.names)
    && (q in before.names ==> after.names[q] == before.names[q] && after.BytesAt(q) == before.BytesAt(q))
  }

  lemma WriterLeavesOutside(cfg: Config, policy: Policy, s: State, step: Step, q: Path)
    requires Inv(cfg, s) && Enabled(cfg, policy, s, step) && IsWriterStep(step) && AreaOf(cfg.root, q) == Outside
    ensures Apply(cfg, policy, s, step).fs.WellFormed()
    ensures KeptAt(s.fs, Apply(cfg, policy, s, step).fs, q)
  {
    if step.Rename? || step.Seal? {
      CommitLeavesOutside(cfg, policy, s, step, q);
    } else {
      TempLeavesOutside(cfg, policy, s, step, q);
    }
  }

  lemma CommitLeavesOutside(cfg: Config, policy: Policy, s: State, step: Step, q: Path)
    requires Inv(cfg, s) && Enabled(cfg, policy, s, step) && AreaOf(cfg.root, q) == Outside
    requires step.Rename? || step.Seal?
    ensures Apply(cfg, policy, s, step).fs.WellFormed()
    ensures KeptAt(s.fs, Apply(cfg, policy, s, step).fs, q)
  {
    var writer := s.writers[step.w];
    var h := cfg.blake3(writer.hashed);
    TempArea(cfg, writer.name);
    ObjectsArea(cfg, h);
    if step.Rename? {
      RenameKeepsInv(cfg, s.fs, s.shared, TempOf(cfg, writer), h);
    } else if ObjectPath(cfg.root, h) in s.fs.names {
      SetModeKeepsInv(cfg, s.fs, s.shared, ObjectPath(cfg.root, h), true);
    }
  }

  lemma TempLeavesOutside(cfg: Config, policy: Policy, s: State, step: Step, q: Path)
    requires Inv(cfg, s) && Enabled(cfg, policy, s, step) && AreaOf(cfg.root, q) == Outside
    requires IsWriterStep(step) && !step.Rename? && !step.Seal?
    ensures Apply(cfg, policy, s, step).fs.WellFormed()
    ensures KeptAt(s.fs, Apply(cfg, policy, s, step).fs, q)
  {
    var name := if step.Open? then step.name else s.writers[step.w].name;
    var temp := TempPath(cfg.root, name);
    TempArea(cfg, name);
    match step {
      case Open(_, _) => NewFileKeepsInv(cfg, s.fs, s.shared, temp, Node([], false));
      case Write(_, buffer, accepted) =>
        OverwriteKeepsInv(cfg, s.fs, s.shared, temp, s.fs.BytesAt(temp) + buffer[..accepted]);
      case _ => RemoveKeepsInv(cfg, s.fs, s.shared, temp);
    }
  }

  lemma StoreLeavesOutside(cfg: Config, policy: Policy, s: State, step: Step, q: Path)
    requires Inv(cfg, s) && Enabled(cfg, policy, s, step) && AreaOf(cfg.root, q) == Outside
    requires step.Collect? || step.WriteAlias?
    ensures Apply(cfg, policy, s, step).fs.WellFormed()
    ensures KeptAt(s.fs, Apply(cfg, policy, s, step).fs, q)
  {
    if step.Collect? {
      var p := cfg.root + [OBJECTS_DIR, step.shard, step.file];
      assert AreaOf(cfg.root, p) == Objects;
      RemoveKeepsInv(cfg, s.fs, s.shared, p);
    } else {
      var p := AliasPath(cfg.root, step.namespace, step.key);
      assert AreaOf(cfg.root, p) == Aliases;
      OverwriteKeepsInv(cfg, s.fs, s.shared, p, TextBytes(step.text));
    }
  }

  /** A path outside the store that a step does not name stays as it is. */
  lemma UntouchedKept(cfg: Config, policy: Policy, s: State, step: Step, q: Path)
    requires Inv(cfg, s) && Enabled(cfg, policy, s, step) && policy.Disciplined()
    requires AreaOf(cfg.root, q) == Outside && !Touches(s, step, q)
    ensures Apply(cfg, policy, s, step).fs.WellFormed()
    ensures KeptAt(s.fs, Apply(cfg, policy, s, step).fs, q)
  {
    if IsWriterStep(step) {
      WriterLeavesOutside(cfg, policy, s, step, q);
    } else if IsJobStep(step) {
      JobStepKeepsInv(cfg, policy, s, step);
    } else if step.Edit? || step.Unlink? {
      PlayerStepKeepsInv(cfg, policy, s, step);
    } else {
      StoreLeavesOutside(cfg, policy, s, step, q);
    }
  }

  /** Placement `j` is under way, and so far right: nothing, or the requested content, is at its destination. */
  ghost predicate Underway(cfg: Config, s: State, j: nat, h: Hash, dest: Path, mode: Mode)
    requires s.fs.WellFormed()
  {
    j in s.jobs &&
    var job := s.jobs[j];
    && job.h == h && job.dest == dest && job.mode == mode && AreaOf(cfg.root, dest) == Outside
    && (job.stage.Cleared? || job.stage.Linking? || job.stage.Copying? ==> dest !in s.fs.names)
    && (job.stage.Placed? ==> dest in s.fs.names && cfg.blake3(s.fs.BytesAt(dest)) == h)
  }

  predicate OfJob(step: Step, j: nat) {
    IsJobStep(step) && step.j == j
  }

  lemma CopyDelivers(cfg: Config, policy: Policy, s: State, step: Step, h: Hash, dest: Path, mode: Mode)
    requires Inv(cfg, s) && Enabled(cfg, policy, s, step) && step.Copy?
    requires Underway(cfg, s, step.j, h, dest, mode) && step.j in Apply(cfg, policy, s, step).jobs
    ensures Apply(cfg, policy, s, step).fs.WellFormed()
    ensures Underway(cfg, Apply(cfg, policy, s, step), step.j, h, dest, mode)
  {
    CopyStepKeepsInv(cfg, policy, s, step);
  }

  lemma LinkDelivers(cfg: Config, policy: Policy, s: State, step: Step, h: Hash, dest: Path, mode: Mode)
    requires Inv(cfg, s) && Enabled(cfg, policy, s, step) && step.HardLinkTo? && policy.Disciplined()
    requires Underway(cfg, s, step.j, h, dest, mode)
    ensures Apply(cfg, policy, s, step).fs.WellFormed()
    ensures Underway(cfg, Apply(cfg, policy, s, step), step.j, h, dest, mode)
  {
    ObjectsArea(cfg, h);
    HardLinkKeepsInv(cfg, s.fs, s.shared, ObjectPath(cfg.root, h), dest);
  }

  lemma OwnStepDelivers(cfg: Config, policy: Policy, s: State, step: Step, j: nat, h: Hash, dest: Path, mode: Mode)
    requires Inv(cfg, s) && Enabled(cfg, policy, s, step) && policy.Disciplined()
    requires Underway(cfg, s, j, h, dest, mode) && OfJob(step, j) && j in Apply(cfg, policy, s, step).jobs
    ensures Apply(cfg, policy, s, step).fs.WellFormed()
    ensures Underway(cfg, Apply(cfg, policy, s, step), j, h, dest, mode)
  {
    if step.Copy? {
      CopyDelivers(cfg, policy, s, step, h, dest, mode);
    } else if step.HardLinkTo? {
      LinkDelivers(cfg, policy, s, step, h, dest, mode);
    }
  }

  lemma OtherStepLeaves(cfg: Config, policy: Policy, s: State, step: Step, j: nat, h: Hash, dest: Path, mode: Mode)
    requires Inv(cfg, s) && Enabled(cfg, policy, s, step) && policy.Disciplined()
    requires Underway(cfg, s, j, h, dest, mode) && !OfJob(step, j) && !Touches(s, step, dest)
    ensures Apply(cfg, policy, s, step).fs.WellFormed()
    ensures Underway(cfg, Apply(cfg, policy, s, step), j, h, dest, mode)
  {
    UntouchedKept(cfg, policy, s, step, dest);
    JobKept(cfg, policy, s, step, j);
  }

  lemma JobKept(cfg: Config, policy: Policy, s: State, step: Step, j: nat)
    requires s.fs.WellFormed() && Enabled(cfg, policy, s, step) && j in s.jobs && !OfJob(step, j)
    ensures j in Apply(cfg, policy, s, step).jobs && Apply(cfg, policy, s, step).jobs[j] == s.jobs[j]
  {
  }

  /** From step `m` on, up to step `n`, placement `j` stays under way and nobody else touches `dest`. */
  ghost predicate Undisturbed(states: seq<State>, steps: seq<Step>, m: nat, n: nat, j: nat, dest: Path)
    requires |states| == |steps| + 1 && m <= n < |steps|
  {
    forall i :: m < i <= n ==>
      j in states[i].jobs && (i < n ==> OfJob(steps[i], j) || !Touches(states[i], steps[i], dest))
  }

  /** What holds once and is carried over every step holds at the end. */
  lemma {:induction false} Carried(holds: int -> bool, m: int, n: int)
    requires m <= n && holds(m) && forall i :: m <= i < n && holds(i) ==> holds(i + 1)
    ensures holds(n)
    decreases n - m
  {
    if m < n {
      Carried(holds, m + 1, n);
    }
  }

  ghost predicate UnderwayAt(cfg: Config, states: seq<State>, i: int, j: nat, h: Hash, dest: Path, mode: Mode) {
    0 <= i < |states| && states[i].fs.WellFormed() && Underway(cfg, states[i], j, h, dest, mode)
  }

  lemma UnderwayUpTo(cfg: Config, policy: Policy, states: seq<State>, steps: seq<Step>,
                     m: nat, n: nat, j: nat, h: Hash, dest: Path, mode: Mode)
    requires Run(cfg, policy, states, steps) && m < n < |steps| && policy.Disciplined()
    requires steps[m] == Start(j, h, dest, mode) && Undisturbed(states, steps, m, n, j, dest)
    ensures UnderwayAt(cfg, states, n, j, h, dest, mode)
  {
    var holds: int -> bool := (i: int) => UnderwayAt(cfg, states, i, j, h, dest, mode);
    StartedAt(cfg, policy, states, steps, m, j, h, dest, mode);
    forall i | m + 1 <= i < n && holds(i)
      ensures holds(i + 1)
    {
      UnderwayOn(cfg, policy, states, steps, m, n, i, states[i], states[i + 1], j, h, dest, mode);
    }
    Carried(holds, m + 1, n);
  }

  lemma StartedAt(cfg: Config, policy: Policy, states: seq<State>, steps: seq<Step>, m: nat,
                  j: nat, h: Hash, dest: Path, mode: Mode)
    requires Run(cfg, policy, states, steps) && m < |steps| && policy.Disciplined()
    requires steps[m] == Start(j, h, dest, mode)
    ensures states[m + 1].fs.WellFormed() && Underway(cfg, states[m + 1], j, h, dest, mode)
  {
    AtStep(cfg, policy, states, steps, m);
    StartUnderway(cfg, policy, states[m], j, h, dest, mode);
  }

  lemma UnderwayOn(cfg: Config, policy: Policy, states: seq<State>, steps: seq<Step>, m: nat, n: nat, i: nat,
                   s: State, after: State, j: nat, h: Hash, dest: Path, mode: Mode)
    requires Run(cfg, policy, states, steps) && m < i < n < |steps| && policy.Disciplined()
    requires Undisturbed(states, steps, m, n, j, dest) && s == states[i] && after == states[i + 1]
    requires s.fs.WellFormed() && Underway(cfg, s, j, h, dest, mode)
    ensures after.fs.WellFormed() && Underway(cfg, after, j, h, dest, mode)
  {
    var step := steps[i];
    QuietAt(states, steps, m, n, j, dest, i, s, step, after);
    AtStep(cfg, policy, states, steps, i);
    UnderwayStep(cfg, policy, s, step, after, j, h, dest, mode);
  }

  lemma QuietAt(states: seq<State>, steps: seq<Step>, m: nat, n: nat, j: nat, dest: Path, i: nat,
                s: State, step: Step, after: State)
    requires |states| == |steps| + 1 && m < i < n < |steps| && Undisturbed(states, steps, m, n, j, dest)
    requires s == states[i] && step == steps[i] && after == states[i + 1]
    ensures j in after.jobs && (OfJob(step, j) || !Touches(s, step, dest))
  {
    assert j in states[i].jobs;
  }

  lemma StartUnderway(cfg: Config, policy: Policy, s: State, j: nat, h: Hash, dest: Path, mode: Mode)
    requires s.fs.WellFormed() && Enabled(cfg, policy, s, Start(j, h, dest, mode))
    ensures Apply(cfg, policy, s, Start(j, h, dest, mode)).fs.WellFormed()
    ensures Underway(cfg, Apply(cfg, policy, s, Start(j, h, dest, mode)), j, h, dest, mode)
  {
  }

  lemma UnderwayStep(cfg: Config, policy: Policy, s: State, step: Step, after: State, j: nat, h: Hash, dest: Path,
                     mode: Mode)
    requires Inv(cfg, s) && Follows(cfg, policy, s, step, after) && policy.Disciplined()
    requires Underway(cfg, s, j, h, dest, mode) && j in after.jobs
    requires OfJob(step, j) || !Touches(s, step, dest)
    ensures after.fs.WellFormed() && Underway(cfg, after, j, h, dest, mode)
  {
    if OfJob(step, j) {
      OwnStepDelivers(cfg, policy, s, step, j, h, dest, mode);
    } else {
      OtherStepLeaves(cfg, policy, s, step, j, h, dest, mode);
    }
  }

  /**
   * A placement that finishes undisturbed at its destination leaves exactly the requested content there,
   * with its mode, whatever else runs in between - collections of the object included.
   */
  lemma PlacementDelivers(cfg: Config, policy: Policy, states: seq<State>, steps: seq<Step>, m: nat, n: nat,
                          j: nat, h: Hash, dest: Path, mode: Mode)
    requires Run(cfg, policy, states, steps) && m < n < |steps| && policy.Disciplined()
    requires steps[m] == Start(j, h, dest, mode) && steps[n] == Permit(j)
    requires Undisturbed(states, steps, m, n, j, dest)
    ensures states[n + 1].fs.WellFormed() && dest in states[n + 1].fs.names
    ensures cfg.blake3(states[n + 1].fs.BytesAt(dest)) == h
    ensures states[n + 1].fs.NodeAt(dest).readOnly == mode.Shared?
    ensures mode.Private? <==> dest in states[n + 1].private
  {
    UnderwayUpTo(cfg, policy, states, steps, m, n, j, h, dest, mode);
    AtStep(cfg, policy, states, steps, n);
    SetModeKeepsInv(cfg, states[n].fs, states[n].shared, dest, mode.Shared?);
  }

  // ----- The discipline is needed -----

  ghost predicate IntactNow(cfg: Config, s: State) {
    s.fs.WellFormed() && Intact(cfg, s.fs)
  }

  ghost predicate PrivateApart(s: State) {
    forall p, q :: p in s.private && p in s.fs.names && q in s.fs.names && p != q ==> s.fs.names[p] != s.fs.names[q]
  }

  ghost predicate Safe(cfg: Config, policy: Policy) {
    forall states, steps, n: nat :: Run(cfg, policy, states, steps) && n < |states| ==>
      IntactNow(cfg, states[n]) && PrivateApart(states[n])
  }

  /** Some steps that lead from one state to another. */
  ghost predicate Leads(cfg: Config, policy: Policy, from: State, states: seq<State>, steps: seq<Step>, s: State) {
    Moves(cfg, policy, states, steps) && states[0] == from && states[|steps|] == s
  }

  lemma Extend(cfg: Config, policy: Policy, from: State, states: seq<State>, steps: seq<Step>, s: State, step: Step,
               after: State)
    returns (longer: seq<State>, more: seq<Step>)
    requires Leads(cfg, policy, from, states, steps, s) && Follows(cfg, policy, s, step, after)
    ensures longer == states + [after] && more == steps + [step] && Leads(cfg, policy, from, longer, more, after)
  {
    longer, more := states + [after], steps + [step];
  }

  const FRESH := State(Fs(map[], map[], 0), map[], map[], {}, {})

  /** One stored object and, perhaps, a destination bound to an inode. */
  ghost function OneObject(o: Path, node: Node, jobs: map<nat, Job>): State {
    State(Fs(map[o := 0], map[0 := node], 1), map[], jobs, {}, {})
  }

  /** A new writer that has written all of some content. */
  ghost function HasWritten(cfg: Config, s: State, w: nat, name: string, a: Bytes): State {
    s.(fs := s.fs.NewFile(TempPath(cfg.root, name), Node(a, false)),
       writers := s.writers[w := Writer(name, a, Writing)])
  }

  lemma Writes(cfg: Config, policy: Policy, states0: seq<State>, steps0: seq<Step>, s: State, w: nat, name: string,
               a: Bytes)
    returns (states: seq<State>, steps: seq<Step>)
    requires Leads(cfg, policy, FRESH, states0, steps0, s) && s.fs.WellFormed()
    requires Enabled(cfg, policy, s, Open(w, name))
    ensures Leads(cfg, policy, FRESH, states, steps, HasWritten(cfg, s, w, name, a))
  {
    var temp, last := TempPath(cfg.root, name), HasWritten(cfg, s, w, name, a);
    var open := Apply(cfg, policy, s, Open(w, name));
    states, steps := Extend(cfg, policy, FRESH, states0, steps0, s, Open(w, name), open);
    assert a[..|a|] == a && [] + a == a;
    assert open.fs.Overwrite(temp, a) == last.fs && open.writers[w := last.writers[w]] == last.writers;
    states, steps := Extend(cfg, policy, FRESH, states, steps, open, Write(w, a, |a|), last);
  }

  /** Some content is written to a temporary file, and a commit is about to rename it. */
  lemma Written(cfg: Config, policy: Policy, a: Bytes, t: Path) returns (states: seq<State>, steps: seq<Step>)
    requires t == TempPath(cfg.root, "t")
    ensures Leads(cfg, policy, FRESH, states, steps, Renamable(a, t))
  {
    TempArea(cfg, "t");
    ObjectsArea(cfg, cfg.blake3(a));
    states, steps := Writes(cfg, policy, [FRESH], [], FRESH, 0, "t", a);
    var s := HasWritten(cfg, FRESH, 0, "t", a);
    assert s.fs == Renamable(a, t).fs && s.writers[0 := Writer("t", a, Renaming)] == Renamable(a, t).writers;
    states, steps := Extend(cfg, policy, FRESH, states, steps, s, Check(0), Renamable(a, t));
  }

  ghost function Renamable(a: Bytes, t: Path): State {
    State(Fs(map[t := 0], map[0 := Node(a, false)], 1), map[0 := Writer("t", a, Renaming)], map[], {}, {})
  }

  /** Some content is written and committed; the commit may end before its object is made read-only. */
  lemma Stored(cfg: Config, policy: Policy, a: Bytes, isSealed: bool) returns (states: seq<State>, steps: seq<Step>)
    ensures Leads(cfg, policy, FRESH, states, steps,
                    OneObject(ObjectPath(cfg.root, cfg.blake3(a)), Node(a, isSealed), map[]))
  {
    var o, t := ObjectPath(cfg.root, cfg.blake3(a)), TempPath(cfg.root, "t");
    ObjectsArea(cfg, cfg.blake3(a));
    TempArea(cfg, "t");
    states, steps := Written(cfg, policy, a, t);
    var sealing := map[0 := Writer("t", a, Sealing)];
    var moved := State(Fs(map[o := 0], map[0 := Node(a, false)], 1), sealing, map[], {}, {});
    assert map[t := 0][o := 0] - {t} == map[o := 0];
    states, steps := Extend(cfg, policy, FRESH, states, steps, Renamable(a, t), Rename(0), moved);
    assert sealing - {0} == map[];
    var last := if isSealed then Seal(0) else FailWriter(0);
    states, steps := Extend(cfg, policy, FRESH, states, steps, moved, last, OneObject(o, Node(a, isSealed), map[]));
  }

  /** A placement that has cleared its destination and is about to link, or to copy. */
  ghost function Ready(s: State, j: nat, h: Hash, dest: Path, mode: Mode): State {
    ClearDest(s, dest).(jobs := s.jobs[j := Job(h, dest, mode, if mode.Shared? then Linking else Copying)])
  }

  /** A placement gets ready on a file system without reflinks. */
  lemma Prepared(cfg: Config, policy: Policy, from: State, states0: seq<State>, steps0: seq<Step>, s: State,
                 j: nat, h: Hash, dest: Path, mode: Mode)
    returns (states: seq<State>, steps: seq<Step>)
    requires Leads(cfg, policy, from, states0, steps0, s) && s.fs.WellFormed()
    requires Enabled(cfg, policy, s, Start(j, h, dest, mode))
    ensures Leads(cfg, policy, from, states, steps, Ready(s, j, h, dest, mode))
  {
    var cleared := ClearDest(s, dest);
    var s1 := cleared.(jobs := s.jobs[j := Job(h, dest, mode, Cleared)]);
    var s2 := cleared.(jobs := s.jobs[j := Job(h, dest, mode, Refused)]);
    var s3 := Ready(s, j, h, dest, mode);
    states, steps := Extend(cfg, policy, from, states0, steps0, s, Start(j, h, dest, mode), s1);
    assert s1.jobs[j := s2.jobs[j]] == s2.jobs;
    states, steps := Extend(cfg, policy, from, states, steps, s1, RefuseReflink(j, Untouched), s2);
    assert s2.jobs[j := s3.jobs[j]] == s3.jobs;
    assert cleared.fs.names - {dest} == cleared.fs.names && ClearDest(cleared, dest) == cleared;
    states, steps := Extend(cfg, policy, from, states, steps, s2, Reclear(j), s3);
  }

  /** A path outside the store. */
  function SomeDest(cfg: Config): (dest: Path)
    requires cfg.root != []
    ensures AreaOf(cfg.root, dest) == Outside
  {
    assert |cfg.root[0] + "x"| != |cfg.root[0]|;
    [cfg.root[0] + "x"]
  }

  /** The object's path, and that the destination is another. */
  lemma DestApart(cfg: Config, h: Hash, dest: Path)
    requires AreaOf(cfg.root, dest) == Outside
    ensures dest != ObjectPath(cfg.root, h)
  {
    ObjectsArea(cfg, h);
  }

  /** The object and its destination under one inode, with one placement still to set its permissions. */
  ghost function Linked(o: Path, dest: Path, node: Node, jobs: map<nat, Job>, next: nat): State {
    State(Fs(map[o := 0, dest := 0], if next == 2 then map[0 := node, 1 := node] else map[0 := node], next),
          map[], jobs, {dest}, {})
  }

  /** A shared placement that links an object that is writable gives the player a way to write into it. */
  lemma EditThroughLink(cfg: Config, policy: Policy, states0: seq<State>, steps0: seq<Step>, s: State, h: Hash,
                        dest: Path, b: Bytes)
    returns (states: seq<State>, steps: seq<Step>)
    requires Leads(cfg, policy, FRESH, states0, steps0, s) && s.fs.WellFormed()
    requires 0 in s.jobs && s.jobs[0] == Job(h, dest, Shared, Linking) && dest !in s.fs.names
    requires AreaOf(cfg.root, dest) == Outside && cfg.blake3(b) != h
    requires ObjectPath(cfg.root, h) in s.fs.names && !s.fs.NodeAt(ObjectPath(cfg.root, h)).readOnly
    ensures Run(cfg, policy, states, steps) && !IntactNow(cfg, states[|steps|])
  {
    var o := ObjectPath(cfg.root, h);
    DestApart(cfg, h, dest);
    var linked := Apply(cfg, policy, s, HardLinkTo(0));
    states, steps := Extend(cfg, policy, FRESH, states0, steps0, s, HardLinkTo(0), linked);
    assert linked.fs.names[dest] == linked.fs.names[o] == s.fs.names[o];
    var after := linked.(fs := linked.fs.Overwrite(dest, b));
    states, steps := Extend(cfg, policy, FRESH, states, steps, linked, Edit(dest, b), after);
    assert after.fs.WellFormed() && o in after.fs.names && after.fs.BytesAt(o) == b;
    Corrupted(cfg, after, h, b);
  }

  /** The object of a commit that ended before it was made read-only is linked. */
  lemma UnsealedObjectCorrupts(cfg: Config, policy: Policy, a: Bytes, b: Bytes, dest: Path)
    returns (states: seq<State>, steps: seq<Step>)
    requires !policy.sealedObjects && AreaOf(cfg.root, dest) == Outside && cfg.blake3(a) != cfg.blake3(b)
    ensures Run(cfg, policy, states, steps) && !IntactNow(cfg, states[|steps|])
  {
    var h := cfg.blake3(a);
    DestApart(cfg, h, dest);
    states, steps := Stored(cfg, policy, a, false);
    var s := OneObject(ObjectPath(cfg.root, h), Node(a, false), map[]);
    states, steps := Prepared(cfg, policy, FRESH, states, steps, s, 0, h, dest, Shared);
    states, steps := EditThroughLink(cfg, policy, states, steps, Ready(s, 0, h, dest, Shared), h, dest, b);
  }

  /** An object stored read-only, and a second commit of the same content that is past its check. */
  ghost function TwoWriters(o: Path, u: Path, a: Bytes): State {
    State(Fs(map[o := 0, u := 1], map[0 := Node(a, true), 1 := Node(a, false)], 2),
          map[1 := Writer("u", a, Renaming)], map[], {}, {})
  }

  lemma SecondCommit(cfg: Config, policy: Policy, a: Bytes) returns (states: seq<State>, steps: seq<Step>)
    ensures Leads(cfg, policy, FRESH, states, steps,
                  TwoWriters(ObjectPath(cfg.root, cfg.blake3(a)), TempPath(cfg.root, "u"), a))
  {
    var o, t, u := ObjectPath(cfg.root, cfg.blake3(a)), TempPath(cfg.root, "t"), TempPath(cfg.root, "u");
    ObjectsArea(cfg, cfg.blake3(a));
    TempArea(cfg, "t");
    TempArea(cfg, "u");
    TempInjective(cfg.root, "t", "u");
    states, steps := FirstRenames(cfg, policy, a, o, t, u);
    var s, last := FirstRenamed(o, u, a), TwoWriters(o, u, a);
    assert s.writers - {0} == last.writers && s.fs.SetMode(o, true) == last.fs;
    states, steps := Extend(cfg, policy, FRESH, states, steps, s, Seal(0), last);
  }

  ghost function FirstRenamed(o: Path, u: Path, a: Bytes): State {
    State(Fs(map[o := 0, u := 1], map[0 := Node(a, false), 1 := Node(a, false)], 2),
          map[0 := Writer("t", a, Sealing), 1 := Writer("u", a, Renaming)], map[], {}, {})
  }

  lemma FirstRenames(cfg: Config, policy: Policy, a: Bytes, o: Path, t: Path, u: Path)
    returns (states: seq<State>, steps: seq<Step>)
    requires t == TempPath(cfg.root, "t") && u == TempPath(cfg.root, "u") && t != u
    requires o == ObjectPath(cfg.root, cfg.blake3(a)) && o != t && o != u
    ensures Leads(cfg, policy, FRESH, states, steps, FirstRenamed(o, u, a))
  {
    states, steps := BothCheck(cfg, policy, a, t, u);
    var s, last := BothRenaming(a, t, u), FirstRenamed(o, u, a);
    assert s.fs.names[o := 0] - {t} == last.fs.names && s.writers[0 := last.writers[0]] == last.writers;
    states, steps := Extend(cfg, policy, FRESH, states, steps, s, Rename(0), last);
  }

  ghost function BothRenaming(a: Bytes, t: Path, u: Path): State {
    State(Fs(map[t := 0, u := 1], map[0 := Node(a, false), 1 := Node(a, false)], 2),
          map[0 := Writer("t", a, Renaming), 1 := Writer("u", a, Renaming)], map[], {}, {})
  }

  lemma BothCheck(cfg: Config, policy: Policy, a: Bytes, t: Path, u: Path)
    returns (states: seq<State>, steps: seq<Step>)
    requires t == TempPath(cfg.root, "t") && u == TempPath(cfg.root, "u") && t != u
    ensures Leads(cfg, policy, FRESH, states, steps, BothRenaming(a, t, u))
  {
    ObjectsArea(cfg, cfg.blake3(a));
    TempArea(cfg, "t");
    TempArea(cfg, "u");
    states, steps := Written(cfg, policy, a, t);
    states, steps := Writes(cfg, policy, states, steps, Renamable(a, t), 1, "u", a);
    var s, last := HasWritten(cfg, Renamable(a, t), 1, "u", a), BothRenaming(a, t, u);
    assert s.fs == last.fs && s.writers[1 := last.writers[1]] == last.writers;
    states, steps := Extend(cfg, policy, FRESH, states, steps, s, Check(1), last);
  }

  /**
   * A placement starts on a read-only object, alone; but a commit of the same content that had passed its
   * check replaces the object, by one that is not read-only yet, just before the link is made.
   */
  lemma UnsettledCommitCorrupts(cfg: Config, policy: Policy, a: Bytes, b: Bytes, dest: Path)
    returns (states: seq<State>, steps: seq<Step>)
    requires !policy.settledCommits && AreaOf(cfg.root, dest) == Outside && cfg.blake3(a) != cfg.blake3(b)
    ensures Run(cfg, policy, states, steps) && !IntactNow(cfg, states[|steps|])
  {
    var h := cfg.blake3(a);
    var o, u := ObjectPath(cfg.root, h), TempPath(cfg.root, "u");
    DestApart(cfg, h, dest);
    ObjectsArea(cfg, h);
    TempArea(cfg, "u");
    states, steps := SecondCommit(cfg, policy, a);
    var s0 := TwoWriters(o, u, a);
    states, steps := Prepared(cfg, policy, FRESH, states, steps, s0, 0, h, dest, Shared);
    var s1 := Ready(s0, 0, h, dest, Shared);
    assert s1.fs == s0.fs;
    var s2 := s1.(fs := Fs(map[o := 1], s0.fs.nodes, 2), writers := map[1 := Writer("u", a, Sealing)]);
    assert s1.fs.names[o := 1] - {u} == map[o := 1] && s1.writers[1 := Writer("u", a, Sealing)] == s2.writers;
    states, steps := Extend(cfg, policy, FRESH, states, steps, s1, Rename(1), s2);
    states, steps := EditThroughLink(cfg, policy, states, steps, s2, h, dest, b);
  }

  /**
   * While a placement is under way its object is collected, and a commit of the same content passes its check
   * and puts an object in place that is not read-only yet.
   */
  lemma LateCommitCorrupts(cfg: Config, policy: Policy, a: Bytes, b: Bytes, dest: Path)
    returns (states: seq<State>, steps: seq<Step>)
    requires !policy.quietChecks && AreaOf(cfg.root, dest) == Outside && cfg.blake3(a) != cfg.blake3(b)
    ensures Run(cfg, policy, states, steps) && !IntactNow(cfg, states[|steps|])
  {
    var h := cfg.blake3(a);
    var o, t := ObjectPath(cfg.root, h), TempPath(cfg.root, "t");
    DestApart(cfg, h, dest);
    states, steps := Stored(cfg, policy, a, true);
    var s0 := OneObject(o, Node(a, true), map[]);
    states, steps := Prepared(cfg, policy, FRESH, states, steps, s0, 0, h, dest, Shared);
    var s1 := OneObject(o, Node(a, true), map[0 := Job(h, dest, Shared, Linking)]);
    assert ClearDest(s0, dest) == s0 && Ready(s0, 0, h, dest, Shared) == s1;
    var s2 := s1.(fs := Fs(map[], s1.fs.nodes, 1));
    ObjectPathRoundTrip(cfg.root, h);
    assert map[o := 0] - {o} == map[];
    states, steps := Extend(cfg, policy, FRESH, states, steps, s1,
                            Collect(ToHex(h)[..SHARD_LEN], ToHex(h)[SHARD_LEN..]), s2);
    states, steps := CommittedLate(cfg, policy, states, steps, s2, a, t);
    var s3 := s2.(fs := Fs(map[o := 1], s2.fs.nodes[1 := Node(a, false)], 2),
                  writers := map[0 := Writer("t", a, Sealing)]);
    states, steps := EditThroughLink(cfg, policy, states, steps, s3, h, dest, b);
  }

  lemma CommittedLate(cfg: Config, policy: Policy, states0: seq<State>, steps0: seq<Step>, s: State, a: Bytes, t: Path)
    returns (states: seq<State>, steps: seq<Step>)
    requires !policy.quietChecks && t == TempPath(cfg.root, "t") && Leads(cfg, policy, FRESH, states0, steps0, s)
    requires s.fs == Fs(map[], map[0 := Node(a, true)], 1) && s.writers == map[]
    ensures Leads(cfg, policy, FRESH, states, steps,
                  s.(fs := Fs(map[ObjectPath(cfg.root, cfg.blake3(a)) := 1], s.fs.nodes[1 := Node(a, false)], 2),
                     writers := map[0 := Writer("t", a, Sealing)]))
  {
    var o := ObjectPath(cfg.root, cfg.blake3(a));
    TempArea(cfg, "t");
    ObjectsArea(cfg, cfg.blake3(a));
    states, steps := Writes(cfg, policy, states0, steps0, s, 0, "t", a);
    var held, s2 := Fs(map[t := 1], s.fs.nodes[1 := Node(a, false)], 2), HasWritten(cfg, s, 0, "t", a);
    assert s2.fs == held;
    var s3 := s.(fs := held, writers := map[0 := Writer("t", a, Renaming)]);
    assert s2.writers[0 := s3.writers[0]] == s3.writers;
    states, steps := Extend(cfg, policy, FRESH, states, steps, s2, Check(0), s3);
    var s4 := s.(fs := Fs(map[o := 1], held.nodes, 2), writers := map[0 := Writer("t", a, Sealing)]);
    assert held.names[o := 1] - {t} == map[o := 1];
    states, steps := Extend(cfg, policy, FRESH, states, steps, s3, Rename(0), s4);
  }

  /** What a private placement has copied, just before it sets its permissions. */
  ghost function Apart(o: Path, dest: Path, node: Node, jobs: map<nat, Job>): State {
    State(Fs(map[o := 0, dest := 1], map[0 := node, 1 := node], 2), map[], jobs, {}, {dest})
  }

  lemma PrivateCopied(cfg: Config, policy: Policy, a: Bytes, dest: Path) returns (states: seq<State>, steps: seq<Step>)
    requires AreaOf(cfg.root, dest) == Outside
    ensures Leads(cfg, policy, FRESH, states, steps,
                    Apart(ObjectPath(cfg.root, cfg.blake3(a)), dest, Node(a, true),
                          map[1 := Job(cfg.blake3(a), dest, Private, Placed)]))
  {
    var h := cfg.blake3(a);
    var o, node := ObjectPath(cfg.root, h), Node(a, true);
    DestApart(cfg, h, dest);
    states, steps := Stored(cfg, policy, a, true);
    var s0 := OneObject(o, node, map[]);
    states, steps := Prepared(cfg, policy, FRESH, states, steps, s0, 1, h, dest, Private);
    var job := Job(h, dest, Private, Copying);
    assert ClearDest(s0, dest) == s0;
    var s1 := OneObject(o, node, map[1 := job]);
    var s2 := Apart(o, dest, node, map[1 := job.(stage := Placed)]);
    assert map[1 := job][1 := job.(stage := Placed)] == s2.jobs;
    assert a[..|a|] == a;
    assert CopyOver(s1.fs, o, dest, |a|) == s2.fs;
    states, steps := Extend(cfg, policy, FRESH, states, steps, s1, Copy(1, |a|), s2);
  }

  /** While the private placement has still to finish, a shared one links the object at the same destination. */
  lemma LinkedBeside(cfg: Config, policy: Policy, a: Bytes, dest: Path) returns (states: seq<State>, steps: seq<Step>)
    requires !policy.separateModes && AreaOf(cfg.root, dest) == Outside
    ensures Leads(cfg, policy, FRESH, states, steps,
                    Linked(ObjectPath(cfg.root, cfg.blake3(a)), dest, Node(a, true),
                           map[1 := Job(cfg.blake3(a), dest, Private, Placed),
                               0 := Job(cfg.blake3(a), dest, Shared, Placed)], 2))
  {
    var h := cfg.blake3(a);
    var o, node := ObjectPath(cfg.root, h), Node(a, true);
    DestApart(cfg, h, dest);
    states, steps := PrivateCopied(cfg, policy, a, dest);
    var other, job := Job(h, dest, Private, Placed), Job(h, dest, Shared, Linking);
    var s0 := Apart(o, dest, node, map[1 := other]);
    states, steps := Prepared(cfg, policy, FRESH, states, steps, s0, 0, h, dest, Shared);
    assert map[o := 0, dest := 1] - {dest} == map[o := 0];
    var s1 := State(Fs(map[o := 0], map[0 := node, 1 := node], 2), map[], map[1 := other, 0 := job], {}, {});
    assert Ready(s0, 0, h, dest, Shared) == s1;
    var s2 := Linked(o, dest, node, map[1 := other, 0 := job.(stage := Placed)], 2);
    assert s1.jobs[0 := job.(stage := Placed)] == s2.jobs;
    states, steps := Extend(cfg, policy, FRESH, states, steps, s1, HardLinkTo(0), s2);
  }

  /**
   * A shared and a private placement of one destination at the same time: the private one finishes by making
   * the shared one's hard link writable, so its destination shares its inode with the object.
   */
  lemma MixedModesShare(cfg: Config, policy: Policy, a: Bytes, dest: Path)
    returns (states: seq<State>, steps: seq<Step>, last: State)
    requires !policy.separateModes && AreaOf(cfg.root, dest) == Outside
    ensures Leads(cfg, policy, FRESH, states, steps, last) && !PrivateApart(last)
    ensures last.fs.WellFormed() && dest in last.fs.names && !last.fs.NodeAt(dest).readOnly
    ensures ObjectPath(cfg.root, cfg.blake3(a)) in last.fs.names
    ensures last.fs.names[dest] == last.fs.names[ObjectPath(cfg.root, cfg.blake3(a))]
  {
    var h := cfg.blake3(a);
    var o := ObjectPath(cfg.root, h);
    DestApart(cfg, h, dest);
    states, steps := LinkedBeside(cfg, policy, a, dest);
    var jobs := map[1 := Job(h, dest, Private, Placed), 0 := Job(h, dest, Shared, Placed)];
    var s := Linked(o, dest, Node(a, true), jobs, 2);
    last := DoPermit(cfg, s, 1);
    states, steps := Extend(cfg, policy, FRESH, states, steps, s, Permit(1), last);
    assert dest in last.private && dest in last.fs.names && o in last.fs.names && o != dest;
    assert last.fs.names[dest] == last.fs.names[o];
  }

  /** And then an edit of the private destination goes through the link into the object. */
  lemma MixedModesCorrupt(cfg: Config, policy: Policy, a: Bytes, b: Bytes, dest: Path)
    returns (states: seq<State>, steps: seq<Step>)
    requires !policy.separateModes && AreaOf(cfg.root, dest) == Outside && cfg.blake3(a) != cfg.blake3(b)
    ensures Run(cfg, policy, states, steps) && !IntactNow(cfg, states[|steps|])
  {
    var s;
    states, steps, s := MixedModesShare(cfg, policy, a, dest);
    var after := s.(fs := s.fs.Overwrite(dest, b));
    states, steps := Extend(cfg, policy, FRESH, states, steps, s, Edit(dest, b), after);
    var o := ObjectPath(cfg.root, cfg.blake3(a));
    assert after.fs.WellFormed() && o in after.fs.names && after.fs.BytesAt(o) == b;
    Corrupted(cfg, after, cfg.blake3(a), b);
  }

  lemma Corrupted(cfg: Config, s: State, h: Hash, b: Bytes)
    requires s.fs.WellFormed() && ObjectPath(cfg.root, h) in s.fs.names
    requires s.fs.BytesAt(ObjectPath(cfg.root, h)) == b && cfg.blake3(b) != h
    ensures !IntactNow(cfg, s)
  {
  }

  /**
   * Which discipline of its callers the store needs: every run keeps every object intact and every private
   * destination's inode its own if and only if callers keep to all four parts of it. Nothing else about how
   * placements, commits, collections and edits overlap matters.
   */
  lemma SafeIffDisciplined(cfg: Config, policy: Policy, a: Bytes, b: Bytes)
    requires cfg.root != [] && cfg.blake3(a) != cfg.blake3(b)
    ensures Safe(cfg, policy) <==> policy.Disciplined()
  {
    if policy.Disciplined() {
      forall states, steps, n: nat | Run(cfg, policy, states, steps) && n < |states|
        ensures IntactNow(cfg, states[n]) && PrivateApart(states[n])
      {
        RunKeepsInv(cfg, policy, states, steps, n);
      }
    } else {
      var states, steps;
      if !policy.separateModes {
        states, steps := MixedModesCorrupt(cfg, policy, a, b, SomeDest(cfg));
      } else if !policy.sealedObjects {
        states, steps := UnsealedObjectCorrupts(cfg, policy, a, b, SomeDest(cfg));
      } else if !policy.settledCommits {
        states, steps := UnsettledCommitCorrupts(cfg, policy, a, b, SomeDest(cfg));
      } else {
        states, steps := LateCommitCorrupts(cfg, policy, a, b, SomeDest(cfg));
      }
      NotSafe(cfg, policy, states, steps);
    }
  }

  /** In a disciplined run the object a link is made to is read-only at that moment. */
  lemma LinkedObjectsAreSealed(cfg: Config, policy: Policy, states: seq<State>, steps: seq<Step>, n: nat)
    requires Run(cfg, policy, states, steps) && n < |steps| && steps[n].HardLinkTo? && policy.Disciplined()
    ensures steps[n].j in states[n].jobs && states[n].fs.WellFormed() && HasObject(cfg, states[n], steps[n].j)
    ensures states[n].fs.NodeAt(ObjectPath(cfg.root, states[n].jobs[steps[n].j].h)).readOnly
  {
    AtStep(cfg, policy, states, steps, n);
  }

  lemma NotSafe(cfg: Config, policy: Policy, states: seq<State>, steps: seq<Step>)
    requires Run(cfg, policy, states, steps) && !IntactNow(cfg, states[|steps|])
    ensures !Safe(cfg, policy)
  {
  }
}
