/** The store's operations, uninterrupted, are sequences of the concurrent machine's steps. */
module StoreSteps {
  import opened Prelude
  import opened ContentHash
  import opened StorePaths
  import opened FileSystem
  import opened StoreMachine
  import opened StoreRuns
  import ObjectStore

  ghost function CommitResult(cfg: Config, s: State, w: nat): State
    requires s.fs.WellFormed() && w in s.writers && TempOf(cfg, s.writers[w]) in s.fs.names
  {
    var writer := s.writers[w];
    var temp, target := TempOf(cfg, writer), ObjectPath(cfg.root, cfg.blake3(writer.hashed));
    assert |temp| != |target|;
    DropWriter(s.(fs := ObjectStore.Committed(s.fs, temp, target)), w)
  }

  /** What a successful `commit` does to the files is what check, rename and seal, or check and discard, do. */
  lemma CommitIsSteps(cfg: Config, policy: Policy, s: State, w: nat) returns (states: seq<State>, steps: seq<Step>)
    requires s.fs.WellFormed() && Enabled(cfg, policy, s, Check(w))
    requires TempOf(cfg, s.writers[w]) in s.fs.names
    ensures Leads(cfg, policy, s, states, steps, CommitResult(cfg, s, w))
  {
    var writer, after := s.writers[w], CommitResult(cfg, s, w);
    var temp, target := TempOf(cfg, writer), ObjectPath(cfg.root, cfg.blake3(writer.hashed));
    states, steps := [s], [];
    if target in s.fs.names {
      var s1 := WithWriter(s, w, writer.(phase := Discarding));
      states, steps := Extend(cfg, policy, s, states, steps, s, Check(w), s1);
      assert s1.writers - {w} == s.writers - {w};
      states, steps := Extend(cfg, policy, s, states, steps, s1, Discard(w), after);
    } else {
      var s1 := WithWriter(s, w, writer.(phase := Renaming));
      states, steps := Extend(cfg, policy, s, states, steps, s, Check(w), s1);
      var s2 := WithWriter(s1.(fs := s.fs.Rename(temp, target)), w, writer.(phase := Sealing));
      states, steps := Extend(cfg, policy, s, states, steps, s1, Rename(w), s2);
      assert s2.writers - {w} == s.writers - {w};
      states, steps := Extend(cfg, policy, s, states, steps, s2, Seal(w), after);
    }
  }

  /** A placement that is about to set its permissions. */
  ghost function PlacedState(cfg: Config, s: State, j: nat, h: Hash, dest: Path, mode: Mode, link: ObjectStore.Link)
    : State
    requires s.fs.WellFormed() && ObjectPath(cfg.root, h) in s.fs.names && ObjectPath(cfg.root, h) != dest
  {
    State(ObjectStore.PlacedAs(s.fs.Remove(dest), ObjectPath(cfg.root, h), dest, link), s.writers,
          s.jobs[j := Job(h, dest, mode, Placed)],
          if link.Hardlinked? then s.shared - {dest} + {dest} else s.shared - {dest},
          if mode.Private? then s.private - {dest} + {dest} else s.private - {dest})
  }

  lemma ReflinkIsSteps(cfg: Config, policy: Policy, s: State, j: nat, h: Hash, dest: Path, mode: Mode)
    returns (states: seq<State>, steps: seq<Step>)
    requires s.fs.WellFormed() && Enabled(cfg, policy, s, Start(j, h, dest, mode)) && ObjectPath(cfg.root, h) != dest
    ensures Leads(cfg, policy, s, states, steps, PlacedState(cfg, s, j, h, dest, mode, ObjectStore.Reflinked))
  {
    var s1 := ClearDest(s, dest).(jobs := s.jobs[j := Job(h, dest, mode, Cleared)]);
    var s2 := PlacedState(cfg, s, j, h, dest, mode, ObjectStore.Reflinked);
    states, steps := [s], [];
    states, steps := Extend(cfg, policy, s, states, steps, s, Start(j, h, dest, mode), s1);
    assert s1.jobs[j := s2.jobs[j]] == s2.jobs;
    states, steps := Extend(cfg, policy, s, states, steps, s1, Reflink(j), s2);
  }

  lemma LinkIsSteps(cfg: Config, policy: Policy, s: State, j: nat, h: Hash, dest: Path)
    returns (states: seq<State>, steps: seq<Step>)
    requires s.fs.WellFormed() && Enabled(cfg, policy, s, Start(j, h, dest, Shared)) && ObjectPath(cfg.root, h) != dest
    ensures Leads(cfg, policy, s, states, steps, PlacedState(cfg, s, j, h, dest, Shared, ObjectStore.Hardlinked))
  {
    var s1, s2 := Ready(s, j, h, dest, Shared), PlacedState(cfg, s, j, h, dest, Shared, ObjectStore.Hardlinked);
    states, steps := Prepared(cfg, policy, s, [s], [], s, j, h, dest, Shared);
    assert s1.jobs[j := s2.jobs[j]] == s2.jobs;
    states, steps := Extend(cfg, policy, s, states, steps, s1, HardLinkTo(j), s2);
  }

  lemma CopyIsSteps(cfg: Config, policy: Policy, s: State, j: nat, h: Hash, dest: Path, mode: Mode)
    returns (states: seq<State>, steps: seq<Step>)
    requires s.fs.WellFormed() && Enabled(cfg, policy, s, Start(j, h, dest, mode)) && ObjectPath(cfg.root, h) != dest
    ensures Leads(cfg, policy, s, states, steps, PlacedState(cfg, s, j, h, dest, mode, ObjectStore.Copied))
  {
    states, steps := CopyReady(cfg, policy, s, j, h, dest, mode);
    var source, last := ObjectPath(cfg.root, h), PlacedState(cfg, s, j, h, dest, mode, ObjectStore.Copied);
    var s1 := ClearDest(s, dest).(jobs := s.jobs[j := Job(h, dest, mode, Copying)]);
    var n := |s.fs.BytesAt(source)|;
    assert s.fs.BytesAt(source)[..n] == s.fs.BytesAt(source);
    assert CopyOver(s1.fs, source, dest, n) == last.fs;
    assert s1.jobs[j := last.jobs[j]] == last.jobs;
    states, steps := Extend(cfg, policy, s, states, steps, s1, Copy(j, n), last);
  }

  /** A shared placement whose link is refused clears its destination once more before it copies. */
  lemma CopyReady(cfg: Config, policy: Policy, s: State, j: nat, h: Hash, dest: Path, mode: Mode)
    returns (states: seq<State>, steps: seq<Step>)
    requires s.fs.WellFormed() && Enabled(cfg, policy, s, Start(j, h, dest, mode))
    ensures Leads(cfg, policy, s, states, steps, ClearDest(s, dest).(jobs := s.jobs[j := Job(h, dest, mode, Copying)]))
  {
    states, steps := Prepared(cfg, policy, s, [s], [], s, j, h, dest, mode);
    if mode.Shared? {
      var cleared, s1 := ClearDest(s, dest), Ready(s, j, h, dest, mode);
      var s2 := cleared.(jobs := s.jobs[j := Job(h, dest, mode, LinkRefused)]);
      var s3 := cleared.(jobs := s.jobs[j := Job(h, dest, mode, Copying)]);
      assert s1.jobs[j := s2.jobs[j]] == s2.jobs;
      states, steps := Extend(cfg, policy, s, states, steps, s1, RefuseLink(j), s2);
      assert s2.jobs[j := s3.jobs[j]] == s3.jobs;
      assert cleared.fs.names - {dest} == cleared.fs.names && ClearDest(cleared, dest) == cleared;
      states, steps := Extend(cfg, policy, s, states, steps, s2, Reclear(j), s3);
    }
  }

  /**
   * What a successful `materialize` does to the files, whichever way it placed the object, is what the steps
   * of one placement do.
   */
  lemma MaterializeIsSteps(cfg: Config, policy: Policy, s: State, j: nat, h: Hash, dest: Path, mode: Mode,
                           link: ObjectStore.Link)
    returns (states: seq<State>, steps: seq<Step>, after: State)
    requires s.fs.WellFormed() && Enabled(cfg, policy, s, Start(j, h, dest, mode))
    requires link.Hardlinked? ==> mode.Shared?
    ensures Leads(cfg, policy, s, states, steps, after) && ObjectPath(cfg.root, h) != dest
    ensures after.fs == ObjectStore.Materialized(s.fs, ObjectPath(cfg.root, h), dest, mode, link)
    ensures after.writers == s.writers && after.jobs == s.jobs
    ensures dest in after.shared <==> link.Hardlinked?
    ensures dest in after.private <==> mode.Private?
  {
    DestApart(cfg, h, dest);
    match link {
      case Reflinked => states, steps := ReflinkIsSteps(cfg, policy, s, j, h, dest, mode);
      case Hardlinked => states, steps := LinkIsSteps(cfg, policy, s, j, h, dest);
      case Copied => states, steps := CopyIsSteps(cfg, policy, s, j, h, dest, mode);
    }
    var placed := PlacedState(cfg, s, j, h, dest, mode, link);
    PermitEnds(cfg, s, j, h, dest, mode, link);
    after := DoPermit(cfg, placed, j);
    states, steps := Extend(cfg, policy, s, states, steps, placed, Permit(j), after);
  }

  lemma PermitEnds(cfg: Config, s: State, j: nat, h: Hash, dest: Path, mode: Mode, link: ObjectStore.Link)
    requires s.fs.WellFormed() && ObjectPath(cfg.root, h) in s.fs.names && ObjectPath(cfg.root, h) != dest
    requires j !in s.jobs
    ensures var placed := PlacedState(cfg, s, j, h, dest, mode, link);
            && placed.fs.WellFormed() && dest in placed.fs.names && j in placed.jobs
            && DoPermit(cfg, placed, j).jobs == s.jobs
  {
    assert PlacedState(cfg, s, j, h, dest, mode, link).jobs - {j} == s.jobs;
  }
}
