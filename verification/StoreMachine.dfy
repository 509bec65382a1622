/**
 * The store under concurrency: writers, commits, placements, collections, alias writes and the player's
 * own edits, interleaved one file-system call at a time, each of which may also fail. Permission bits bind
 * everyone: neither the daemon nor the player is the superuser.
 */
module StoreMachine {
  import opened Prelude
  import opened ContentHash
  import opened StorePaths
  import opened FileSystem

  datatype Mode = Shared | Private

  /** Where a commit stands: still writing, told the object exists, about to rename, about to chmod. */
  datatype Phase = Writing | Discarding | Renaming | Sealing

  datatype Writer = Writer(name: string, hashed: Bytes, phase: Phase)

  /** Where a placement stands; every removal of the destination is followed by the call it prepares. */
  datatype Stage = Cleared | Refused | Linking | LinkRefused | Copying | Placed

  datatype Job = Job(h: Hash, dest: Path, mode: Mode, stage: Stage)

  /** What a refused reflink leaves at its destination: nothing new, a partial file, or nothing at all. */
  datatype Debris = Untouched | Left(bytes: Bytes) | Swept

  /** `shared` and `private` record which destinations were hard-linked and which were placed privately. */
  datatype State = State(
    fs: Fs,
    writers: map<nat, Writer>,
    jobs: map<nat, Job>,
    shared: set<Path>,
    private: set<Path>)

  datatype Step =
    | Open(w: nat, name: string)
    | Write(w: nat, buffer: Bytes, accepted: nat)
    | Check(w: nat)
    | Discard(w: nat)
    | Rename(w: nat)
    | Seal(w: nat)
    | Abandon(w: nat)
    | FailWriter(w: nat)
    | Start(j: nat, h: Hash, dest: Path, mode: Mode)
    | Reflink(j: nat)
    | RefuseReflink(j: nat, debris: Debris)
    | Reclear(j: nat)
    | HardLinkTo(j: nat)
    | RefuseLink(j: nat)
    | Copy(j: nat, copied: nat)
    | Permit(j: nat)
    | FailJob(j: nat)
    | Collect(shard: string, file: string)
    | WriteAlias(namespace: string, key: string, text: string)
    | Edit(p: Path, bytes: Bytes)
    | Unlink(p: Path)

  /**
   * What callers of the store may keep to, beyond what the code enforces, when they call `materialize` or
   * `commit`. A placement does not start while one of the other mode is under way at its destination. A shared
   * one does not start unless its object is read-only, nor while a commit of the same hash stands between its
   * check and its seal. And a commit does not pass its check, on to the rename, while a shared placement of
   * its hash is under way.
   */
  datatype Policy = Policy(separateModes: bool, sealedObjects: bool, settledCommits: bool, quietChecks: bool)
  {
    predicate Disciplined() {
      separateModes && sealedObjects && settledCommits && quietChecks
    }
  }

  function TempOf(cfg: Config, w: Writer): Path {
    TempPath(cfg.root, w.name)
  }

  predicate HoldsTemp(w: Writer) {
    !w.phase.Sealing?
  }

  ghost predicate OneModeAt(s: State, dest: Path, mode: Mode) {
    forall j :: j in s.jobs && s.jobs[j].dest == dest ==> s.jobs[j].mode == mode
  }

  function HashOf(cfg: Config, w: Writer): Hash {
    cfg.blake3(w.hashed)
  }

  /** Between its check and its seal, a commit of `h` may still put an object that is not read-only in place. */
  predicate Commits(cfg: Config, w: Writer, h: Hash) {
    (w.phase.Renaming? || w.phase.Sealing?) && HashOf(cfg, w) == h
  }

  ghost predicate CommitsSettled(cfg: Config, s: State, h: Hash) {
    forall w :: w in s.writers ==> !Commits(cfg, s.writers[w], h)
  }

  /** No shared placement of `h` is under way. */
  ghost predicate NoneShared(s: State, h: Hash) {
    forall j :: j in s.jobs && s.jobs[j].h == h ==> s.jobs[j].mode.Private?
  }

  predicate AtStage(s: State, j: nat, stage: Stage) {
    j in s.jobs && s.jobs[j].stage == stage
  }

  predicate HasObject(cfg: Config, s: State, j: nat)
    requires j in s.jobs
  {
    ObjectPath(cfg.root, s.jobs[j].h) in s.fs.names
  }

  predicate Writable(fs: Fs, p: Path)
    requires p in fs.names ==> fs.names[p] in fs.nodes
  {
    p in fs.names ==> !fs.NodeAt(p).readOnly
  }

  /** When a step can happen. Temporary names come from a counter. */
  ghost predicate Enabled(cfg: Config, policy: Policy, s: State, step: Step)
    requires s.fs.WellFormed()
  {
    match step
    case Open(w, name) => w !in s.writers && TempPath(cfg.root, name) !in s.fs.names
    case Write(w, buffer, accepted) => w in s.writers && s.writers[w].phase.Writing? && accepted <= |buffer|
    case Check(w) =>
      w in s.writers && s.writers[w].phase.Writing?
      && (policy.quietChecks ==> ObjectPath(cfg.root, HashOf(cfg, s.writers[w])) in s.fs.names
                                 || NoneShared(s, HashOf(cfg, s.writers[w])))
    case Discard(w) => w in s.writers && s.writers[w].phase.Discarding?
    case Rename(w) => w in s.writers && s.writers[w].phase.Renaming?
    case Seal(w) => w in s.writers && s.writers[w].phase.Sealing?
    case Abandon(w) => w in s.writers && s.writers[w].phase.Writing?
    case FailWriter(w) => w in s.writers
    case Start(j, h, dest, mode) =>
      j !in s.jobs && ObjectPath(cfg.root, h) in s.fs.names && AreaOf(cfg.root, dest) == Outside
      && (policy.separateModes ==> OneModeAt(s, dest, mode))
      && (policy.sealedObjects && mode.Shared? ==> s.fs.NodeAt(ObjectPath(cfg.root, h)).readOnly)
      && (policy.settledCommits && mode.Shared? ==> CommitsSettled(cfg, s, h))
    case Reflink(j) => AtStage(s, j, Cleared) && HasObject(cfg, s, j) && s.jobs[j].dest !in s.fs.names
    case RefuseReflink(j, debris) => AtStage(s, j, Cleared) && (debris.Left? ==> s.jobs[j].dest !in s.fs.names)
    case Reclear(j) => AtStage(s, j, Refused) || AtStage(s, j, LinkRefused)
    case HardLinkTo(j) =>
      AtStage(s, j, Linking) && s.jobs[j].mode.Shared? && HasObject(cfg, s, j) && s.jobs[j].dest !in s.fs.names
    case RefuseLink(j) => AtStage(s, j, Linking)
    case Copy(j, _) => AtStage(s, j, Copying) && HasObject(cfg, s, j) && Writable(s.fs, s.jobs[j].dest)
    case Permit(j) => AtStage(s, j, Placed)
    case FailJob(j) => j in s.jobs
    case Collect(shard, file) => HashFromObjectPath(cfg.root + [OBJECTS_DIR, shard, file]).Some?
    case WriteAlias(_, _, _) => true
    case Edit(p, _) => AreaOf(cfg.root, p) == Outside && Writable(s.fs, p)
    case Unlink(p) => AreaOf(cfg.root, p) == Outside
  }

  // ----- The effect of each step -----

  function WithWriter(s: State, w: nat, writer: Writer): State {
    s.(writers := s.writers[w := writer])
  }

  function DropWriter(s: State, w: nat): State {
    s.(writers := s.writers - {w})
  }

  function WithJob(s: State, j: nat, job: Job): State {
    s.(jobs := s.jobs[j := job])
  }

  function DropJob(s: State, j: nat): State {
    s.(jobs := s.jobs - {j})
  }

  ghost function DoWrite(cfg: Config, s: State, w: nat, data: Bytes): State
    requires w in s.writers && s.fs.WellFormed()
  {
    var writer := s.writers[w];
    var temp := TempOf(cfg, writer);
    if temp in s.fs.names then
      WithWriter(s.(fs := s.fs.Overwrite(temp, s.fs.BytesAt(temp) + data)), w, writer.(hashed := writer.hashed + data))
    else s
  }

  ghost function DoRename(cfg: Config, s: State, w: nat): State
    requires w in s.writers
  {
    var writer := s.writers[w];
    var temp := TempOf(cfg, writer);
    if temp in s.fs.names then
      WithWriter(s.(fs := s.fs.Rename(temp, ObjectPath(cfg.root, cfg.blake3(writer.hashed)))), w,
                 writer.(phase := Sealing))
    else DropWriter(s, w)
  }

  ghost function DoSeal(cfg: Config, s: State, w: nat): State
    requires w in s.writers && s.fs.WellFormed()
  {
    var target := ObjectPath(cfg.root, cfg.blake3(s.writers[w].hashed));
    var fs := if target in s.fs.names then s.fs.SetMode(target, true) else s.fs;
    DropWriter(s.(fs := fs), w)
  }

  function ClearDest(s: State, dest: Path): State {
    s.(fs := s.fs.Remove(dest), shared := s.shared - {dest}, private := s.private - {dest})
  }

  function MarkPlaced(s: State, j: nat): State
    requires j in s.jobs
  {
    var job := s.jobs[j];
    WithJob(s, j, job.(stage := Placed)).(private := if job.mode.Private? then s.private + {job.dest} else s.private)
  }

  function DoRefuseReflink(s: State, j: nat, debris: Debris): State
    requires j in s.jobs
  {
    var job := s.jobs[j];
    var after := match debris
      case Untouched => s
      case Left(bytes) => s.(fs := s.fs.NewFile(job.dest, Node(bytes, false)))
      case Swept => ClearDest(s, job.dest);
    WithJob(after, j, job.(stage := Refused))
  }

  /**
   * `fs::copy` truncates whatever inode it finds at the destination before it reads, and gives it the
   * source's permissions; when that inode is the source's own, there is nothing left to read.
   */
  ghost function Copied(fs: Fs, source: Path, dest: Path): (content: Bytes)
    requires fs.WellFormed() && source in fs.names
  {
    if dest in fs.names && fs.names[dest] == fs.names[source] then [] else fs.BytesAt(source)
  }

  ghost function CopyOver(fs: Fs, source: Path, dest: Path, n: nat): (after: Fs)
    requires fs.WellFormed() && source in fs.names && n <= |Copied(fs, source, dest)|
  {
    fs.Overwrite(dest, Copied(fs, source, dest)[..n]).SetMode(dest, fs.NodeAt(source).readOnly)
  }

  ghost function DoCopy(cfg: Config, s: State, j: nat, copied: nat): State
    requires j in s.jobs && s.fs.WellFormed() && HasObject(cfg, s, j)
  {
    var job, source := s.jobs[j], ObjectPath(cfg.root, s.jobs[j].h);
    var all := |Copied(s.fs, source, job.dest)|;
    var n := if copied < all then copied else all;
    var after := s.(fs := CopyOver(s.fs, source, job.dest, n));
    if n == all then MarkPlaced(after, j) else DropJob(after, j)
  }

  /** Setting the permissions of what is at the destination by then ends a placement; it may find nothing. */
  ghost function DoPermit(cfg: Config, s: State, j: nat): State
    requires j in s.jobs && s.fs.WellFormed()
  {
    var job := s.jobs[j];
    if job.dest !in s.fs.names then DropJob(s, j)
    else
      DropJob(s.(fs := s.fs.SetMode(job.dest, job.mode.Shared?),
                 private := if job.mode.Private? then s.private + {job.dest} else s.private - {job.dest}), j)
  }

  ghost function Apply(cfg: Config, policy: Policy, s: State, step: Step): State
    requires s.fs.WellFormed() && Enabled(cfg, policy, s, step)
  {
    match step
    case Open(w, name) =>
      WithWriter(s.(fs := s.fs.NewFile(TempPath(cfg.root, name), Node([], false))), w, Writer(name, [], Writing))
    case Write(w, buffer, accepted) => DoWrite(cfg, s, w, buffer[..accepted])
    case Check(w) =>
      var stored := ObjectPath(cfg.root, cfg.blake3(s.writers[w].hashed)) in s.fs.names;
      WithWriter(s, w, s.writers[w].(phase := if stored then Discarding else Renaming))
    case Discard(w) => DropWriter(s.(fs := s.fs.Remove(TempOf(cfg, s.writers[w]))), w)
    case Rename(w) => DoRename(cfg, s, w)
    case Seal(w) => DoSeal(cfg, s, w)
    case Abandon(w) => DropWriter(s.(fs := s.fs.Remove(TempOf(cfg, s.writers[w]))), w)
    case FailWriter(w) => DropWriter(s, w)
    case Start(j, h, dest, mode) => WithJob(ClearDest(s, dest), j, Job(h, dest, mode, Cleared))
    case Reflink(j) =>
      var job := s.jobs[j];
      MarkPlaced(s.(fs := s.fs.NewFile(job.dest, s.fs.NodeAt(ObjectPath(cfg.root, job.h)))), j)
    case RefuseReflink(j, debris) => DoRefuseReflink(s, j, debris)
    case Reclear(j) =>
      var job := s.jobs[j];
      var next := if job.stage.Refused? && job.mode.Shared? then Linking else Copying;
      WithJob(ClearDest(s, job.dest), j, job.(stage := next))
    case HardLinkTo(j) =>
      var job := s.jobs[j];
      MarkPlaced(s.(fs := s.fs.HardLink(ObjectPath(cfg.root, job.h), job.dest), shared := s.shared + {job.dest}), j)
    case RefuseLink(j) => WithJob(s, j, s.jobs[j].(stage := LinkRefused))
    case Copy(j, copied) => DoCopy(cfg, s, j, copied)
    case Permit(j) => DoPermit(cfg, s, j)
    case FailJob(j) => DropJob(s, j)
    case Collect(shard, file) => s.(fs := s.fs.Remove(cfg.root + [OBJECTS_DIR, shard, file]))
    case WriteAlias(namespace, key, text) =>
      s.(fs := s.fs.Overwrite(AliasPath(cfg.root, namespace, key), TextBytes(text)))
    case Edit(p, bytes) => s.(fs := s.fs.Overwrite(p, bytes))
    case Unlink(p) => ClearDest(s, p)
  }

  predicate IsWriterStep(step: Step) {
    step.Open? || step.Write? || step.Check? || step.Discard? || step.Rename? || step.Seal? || step.Abandon?
    || step.FailWriter?
  }

  predicate IsJobStep(step: Step) {
    step.Start? || step.Reflink? || step.RefuseReflink? || step.Reclear? || step.HardLinkTo? || step.RefuseLink?
    || step.Copy? || step.Permit? || step.FailJob?
  }

  predicate HasDest(s: State, step: Step) {
    IsJobStep(step) && (step.Start? || step.j in s.jobs)
  }

  function JobDest(s: State, step: Step): Path
    requires HasDest(s, step)
  {
    if step.Start? then step.dest else s.jobs[step.j].dest
  }

  function JobMode(s: State, step: Step): Mode
    requires HasDest(s, step)
  {
    if step.Start? then step.mode else s.jobs[step.j].mode
  }

  // ----- The invariant of disciplined runs -----

  ghost predicate WritersSound(cfg: Config, s: State)
    requires s.fs.WellFormed()
  {
    && (forall w :: w in s.writers && HoldsTemp(s.writers[w]) ==>
          TempOf(cfg, s.writers[w]) in s.fs.names && s.fs.BytesAt(TempOf(cfg, s.writers[w])) == s.writers[w].hashed)
    && (forall v, w :: v in s.writers && w in s.writers && v != w && HoldsTemp(s.writers[v]) && HoldsTemp(s.writers[w])
          ==> s.writers[v].name != s.writers[w].name)
  }

  /** Placements under way at one destination have one mode, and it agrees with the records. */
  ghost predicate JobsSound(cfg: Config, s: State) {
    && (forall j :: j in s.jobs ==> AreaOf(cfg.root, s.jobs[j].dest) == Outside)
    && (forall j :: j in s.jobs ==> OneModeAt(s, s.jobs[j].dest, s.jobs[j].mode))
    && (forall j :: j in s.jobs ==> ModeAgrees(s, s.jobs[j].dest, s.jobs[j].mode))
  }

  ghost predicate ModeAgrees(s: State, dest: Path, mode: Mode) {
    && (mode.Private? ==> dest !in s.shared)
    && (mode.Shared? ==> dest !in s.private)
  }

  /** Every hard-linked destination is read-only, so nobody can write through the link. */
  ghost predicate LinksSealed(fs: Fs, shared: set<Path>)
    requires fs.WellFormed()
  {
    forall p :: p in shared ==> p in fs.names && fs.NodeAt(p).readOnly
  }

  ghost predicate Base(cfg: Config, s: State) {
    && FsInv(cfg, s.fs, s.shared)
    && LinksSealed(s.fs, s.shared)
    && WritersSound(cfg, s)
    && JobsSound(cfg, s)
    && s.shared !! s.private
    && forall p :: p in s.private ==> AreaOf(cfg.root, p) == Outside
  }

  /** While a shared placement is under way, its object is read-only whenever it is there, and stays so. */
  ghost predicate LinksReady(cfg: Config, s: State)
    requires s.fs.WellFormed()
  {
    forall j :: j in s.jobs && s.jobs[j].mode.Shared? ==> ReadyFor(cfg, s, s.jobs[j].h)
  }

  ghost predicate ReadyFor(cfg: Config, s: State, h: Hash)
    requires s.fs.WellFormed()
  {
    && (ObjectPath(cfg.root, h) in s.fs.names ==> s.fs.NodeAt(ObjectPath(cfg.root, h)).readOnly)
    && CommitsSettled(cfg, s, h)
  }

  ghost predicate Inv(cfg: Config, s: State) {
    Base(cfg, s) && LinksReady(cfg, s)
  }

  /** A fresh file system in which the store's own directories are still empty. */
  ghost predicate Initial(cfg: Config, s: State) {
    && s.fs.WellFormed()
    && (forall p :: p in s.fs.names ==> AreaOf(cfg.root, p) == Outside)
    && (forall p, q :: p in s.fs.names && q in s.fs.names && p != q ==> s.fs.names[p] != s.fs.names[q])
    && s.writers == map[] && s.jobs == map[] && s.shared == {} && s.private == {}
  }

  lemma InitialInv(cfg: Config, s: State)
    requires Initial(cfg, s)
    ensures Inv(cfg, s)
  {
  }

  lemma TempArea(cfg: Config, name: string)
    ensures AreaOf(cfg.root, TempPath(cfg.root, name)) == Temporary
  {
  }

  lemma TempInjective(root: Path, a: string, b: string)
    ensures TempPath(root, a) == TempPath(root, b) <==> a == b
  {
    assert TempPath(root, a)[|root| + 1] == a && TempPath(root, b)[|root| + 1] == b;
  }

  /** No inode that was read-only has become writable. */
  ghost predicate SealsKept(before: Fs, after: Fs) {
    forall i :: i in before.nodes && before.nodes[i].readOnly ==> i in after.nodes && after.nodes[i].readOnly
  }

  lemma LinksStaySealed(before: Fs, after: Fs, shared: set<Path>, p: Path)
    requires before.WellFormed() && after.WellFormed() && LinksSealed(before, shared)
    requires SealsKept(before, after) && OthersKept(before, after, p) && p !in shared
    ensures LinksSealed(after, shared)
  {
  }

  // ----- Steps of writers, collections and alias writes -----

  lemma TempOfOne(cfg: Config, s: State, name: string)
    ensures forall w :: w in s.writers ==>
              (TempOf(cfg, s.writers[w]) == TempPath(cfg.root, name) <==> s.writers[w].name == name)
  {
    forall w | w in s.writers
      ensures TempOf(cfg, s.writers[w]) == TempPath(cfg.root, name) <==> s.writers[w].name == name
    {
      TempInjective(cfg.root, s.writers[w].name, name);
    }
  }

  lemma OpenStepKeepsInv(cfg: Config, policy: Policy, s: State, step: Step)
    requires Base(cfg, s) && Enabled(cfg, policy, s, step) && step.Open?
    ensures Base(cfg, Apply(cfg, policy, s, step))
  {
    var temp, after := TempPath(cfg.root, step.name), Apply(cfg, policy, s, step);
    TempArea(cfg, step.name);
    TempOfOne(cfg, s, step.name);
    NewFileKeepsInv(cfg, s.fs, s.shared, temp, Node([], false));
    LinksStaySealed(s.fs, after.fs, s.shared, temp);
  }

  lemma WriteStepKeepsInv(cfg: Config, policy: Policy, s: State, step: Step)
    requires Base(cfg, s) && Enabled(cfg, policy, s, step) && step.Write?
    ensures Base(cfg, Apply(cfg, policy, s, step))
  {
    var name := s.writers[step.w].name;
    var temp, after := TempPath(cfg.root, name), Apply(cfg, policy, s, step);
    TempArea(cfg, name);
    TempOfOne(cfg, s, name);
    OverwriteKeepsInv(cfg, s.fs, s.shared, temp, s.fs.BytesAt(temp) + step.buffer[..step.accepted]);
    LinksStaySealed(s.fs, after.fs, s.shared, temp);
  }

  lemma EndWriterKeepsInv(cfg: Config, policy: Policy, s: State, step: Step)
    requires Base(cfg, s) && Enabled(cfg, policy, s, step)
    requires step.Check? || step.Discard? || step.Abandon? || step.FailWriter?
    ensures Base(cfg, Apply(cfg, policy, s, step))
  {
    var name := s.writers[step.w].name;
    TempArea(cfg, name);
    TempOfOne(cfg, s, name);
    RemoveKeepsInv(cfg, s.fs, s.shared, TempPath(cfg.root, name));
  }

  lemma TempsAreInside(cfg: Config, s: State)
    ensures forall w :: w in s.writers ==> AreaOf(cfg.root, TempOf(cfg, s.writers[w])) == Temporary
  {
  }

  /** Renaming one's temporary file leaves the other writers theirs. */
  lemma RenameKeepsWriters(cfg: Config, s: State, w: nat)
    requires s.fs.WellFormed() && WritersSound(cfg, s) && w in s.writers && s.writers[w].phase.Renaming?
    ensures DoRename(cfg, s, w).fs.WellFormed() && WritersSound(cfg, DoRename(cfg, s, w))
  {
    var writer := s.writers[w];
    TempsAreInside(cfg, s);
    TempOfOne(cfg, s, writer.name);
    ObjectsArea(cfg, HashOf(cfg, writer));
  }

  lemma RenameStepKeepsInv(cfg: Config, policy: Policy, s: State, step: Step)
    requires Base(cfg, s) && Enabled(cfg, policy, s, step) && step.Rename?
    ensures Base(cfg, Apply(cfg, policy, s, step))
  {
    var writer := s.writers[step.w];
    var h, temp := HashOf(cfg, writer), TempOf(cfg, writer);
    TempArea(cfg, writer.name);
    RenameKeepsInv(cfg, s.fs, s.shared, temp, h);
    RenameKeepsLinks(cfg, s.fs, s.shared, temp, ObjectPath(cfg.root, h));
    RenameKeepsWriters(cfg, s, step.w);
  }

  lemma RenameKeepsLinks(cfg: Config, fs: Fs, shared: set<Path>, temp: Path, target: Path)
    requires FsInv(cfg, fs, shared) && LinksSealed(fs, shared)
    requires temp in fs.names && fs.Rename(temp, target).WellFormed()
    requires AreaOf(cfg.root, temp) == Temporary && AreaOf(cfg.root, target) == Objects
    ensures LinksSealed(fs.Rename(temp, target), shared)
  {
  }

  lemma SealStepKeepsInv(cfg: Config, policy: Policy, s: State, step: Step)
    requires Base(cfg, s) && Enabled(cfg, policy, s, step) && step.Seal?
    ensures Base(cfg, Apply(cfg, policy, s, step))
  {
    var target := ObjectPath(cfg.root, cfg.blake3(s.writers[step.w].hashed));
    if target in s.fs.names {
      SetModeKeepsInv(cfg, s.fs, s.shared, target, true);
    }
  }

  lemma CollectStepKeepsInv(cfg: Config, policy: Policy, s: State, step: Step)
    requires Base(cfg, s) && Enabled(cfg, policy, s, step) && step.Collect?
    ensures Base(cfg, Apply(cfg, policy, s, step))
  {
    TempsAreInside(cfg, s);
    var p := cfg.root + [OBJECTS_DIR, step.shard, step.file];
    assert AreaOf(cfg.root, p) == Objects;
    RemoveKeepsInv(cfg, s.fs, s.shared, p);
  }

  lemma AliasStepKeepsInv(cfg: Config, policy: Policy, s: State, step: Step)
    requires Base(cfg, s) && Enabled(cfg, policy, s, step) && step.WriteAlias?
    ensures Base(cfg, Apply(cfg, policy, s, step))
  {
    TempsAreInside(cfg, s);
    var p := AliasPath(cfg.root, step.namespace, step.key);
    assert AreaOf(cfg.root, p) == Aliases;
    OverwriteKeepsInv(cfg, s.fs, s.shared, p, TextBytes(step.text));
    LinksStaySealed(s.fs, s.fs.Overwrite(p, TextBytes(step.text)), s.shared, p);
  }

  // ----- Steps of placements and of the player -----

  /** Nothing done to a destination outside the store disturbs a writer. */
  lemma WritersUndisturbed(cfg: Config, s: State, after: State, p: Path)
    requires s.fs.WellFormed() && after.fs.WellFormed() && WritersSound(cfg, s)
    requires OthersKept(s.fs, after.fs, p) && AreaOf(cfg.root, p) == Outside
    requires after.writers == s.writers
    ensures WritersSound(cfg, after)
  {
    TempsAreInside(cfg, s);
  }

  /** The records about other destinations are as they were. */
  ghost predicate SameRecords(s: State, after: State, dest: Path) {
    forall p :: p != dest ==> (p in after.shared <==> p in s.shared) && (p in after.private <==> p in s.private)
  }

  /** Placements keep their destination and mode; a new one is at `dest` with the mode in force there. */
  ghost predicate SameJobs(s: State, after: State, dest: Path, mode: Mode) {
    forall j :: j in after.jobs ==>
      (j in s.jobs && after.jobs[j].dest == s.jobs[j].dest && after.jobs[j].mode == s.jobs[j].mode)
      || (after.jobs[j].dest == dest && after.jobs[j].mode == mode)
  }

  lemma JobsStaySound(cfg: Config, s: State, after: State, dest: Path, mode: Mode)
    requires JobsSound(cfg, s) && OneModeAt(s, dest, mode) && AreaOf(cfg.root, dest) == Outside
    requires SameJobs(s, after, dest, mode) && SameRecords(s, after, dest) && ModeAgrees(after, dest, mode)
    ensures JobsSound(cfg, after)
  {
  }

  /** What a placement's step has to get right about the files for the whole invariant to hold. */
  lemma JobStepSound(cfg: Config, s: State, after: State, dest: Path, mode: Mode)
    requires Base(cfg, s) && OneModeAt(s, dest, mode) && AreaOf(cfg.root, dest) == Outside
    requires FsInv(cfg, after.fs, after.shared) && OthersKept(s.fs, after.fs, dest)
    requires LinksSealed(after.fs, after.shared)
    requires after.writers == s.writers && after.shared !! after.private
    requires SameJobs(s, after, dest, mode) && SameRecords(s, after, dest) && ModeAgrees(after, dest, mode)
    ensures Base(cfg, after)
  {
    JobsStaySound(cfg, s, after, dest, mode);
    WritersUndisturbed(cfg, s, after, dest);
  }

  lemma ClearKeepsInv(cfg: Config, s: State, after: State, dest: Path, mode: Mode)
    requires Base(cfg, s) && OneModeAt(s, dest, mode) && AreaOf(cfg.root, dest) == Outside
    requires after.(jobs := s.jobs) == ClearDest(s, dest) && SameJobs(s, after, dest, mode)
    ensures Base(cfg, after) && OthersKept(s.fs, after.fs, dest)
  {
    RemoveKeepsInv(cfg, s.fs, s.shared, dest);
    JobStepSound(cfg, s, after, dest, mode);
  }

  /** Whatever is written to a destination nobody linked stays there. */
  lemma FreshKeepsInv(cfg: Config, s: State, after: State, dest: Path, mode: Mode, node: Node)
    requires Base(cfg, s) && OneModeAt(s, dest, mode) && ModeAgrees(s, dest, mode) && AreaOf(cfg.root, dest) == Outside
    requires dest !in s.fs.names && after.fs == s.fs.NewFile(dest, node)
    requires after.writers == s.writers && after.shared == s.shared && SameJobs(s, after, dest, mode)
    requires after.private == s.private || (mode.Private? && after.private == s.private + {dest})
    ensures Base(cfg, after) && OthersKept(s.fs, after.fs, dest)
  {
    NewFileKeepsInv(cfg, s.fs, s.shared, dest, node);
    JobStepSound(cfg, s, after, dest, mode);
  }

  lemma ReflinkStepKeepsInv(cfg: Config, policy: Policy, s: State, step: Step)
    requires Base(cfg, s) && Enabled(cfg, policy, s, step) && (step.Reflink? || step.RefuseReflink?)
    ensures Base(cfg, Apply(cfg, policy, s, step))
    ensures OthersKept(s.fs, Apply(cfg, policy, s, step).fs, s.jobs[step.j].dest)
  {
    var after, job := Apply(cfg, policy, s, step), s.jobs[step.j];
    if step.Reflink? {
      FreshKeepsInv(cfg, s, after, job.dest, job.mode, s.fs.NodeAt(ObjectPath(cfg.root, job.h)));
    } else {
      match step.debris {
        case Untouched => JobStepSound(cfg, s, after, job.dest, job.mode);
        case Left(bytes) => FreshKeepsInv(cfg, s, after, job.dest, job.mode, Node(bytes, false));
        case Swept => ClearKeepsInv(cfg, s, after, job.dest, job.mode);
      }
    }
  }

  lemma HardLinkStepKeepsInv(cfg: Config, policy: Policy, s: State, step: Step)
    requires Base(cfg, s) && Enabled(cfg, policy, s, step) && step.HardLinkTo? && LinksReady(cfg, s)
    ensures Base(cfg, Apply(cfg, policy, s, step))
    ensures OthersKept(s.fs, Apply(cfg, policy, s, step).fs, s.jobs[step.j].dest)
  {
    var after, job := Apply(cfg, policy, s, step), s.jobs[step.j];
    ObjectsArea(cfg, job.h);
    HardLinkKeepsInv(cfg, s.fs, s.shared, ObjectPath(cfg.root, job.h), job.dest);
    assert ModeAgrees(s, job.dest, job.mode);
    JobStepSound(cfg, s, after, job.dest, job.mode);
  }

  /** A name that is neither an object nor linked has its inode to itself. */
  lemma UnlinkedIsAlone(cfg: Config, fs: Fs, shared: set<Path>, p: Path, q: Path)
    requires FsInv(cfg, fs, shared) && AreaOf(cfg.root, p) == Outside && p !in shared
    requires p in fs.names && q in fs.names && p != q
    ensures fs.names[p] != fs.names[q]
  {
  }

  lemma CopyStepKeepsInv(cfg: Config, policy: Policy, s: State, step: Step)
    requires Base(cfg, s) && Enabled(cfg, policy, s, step) && step.Copy?
    ensures Base(cfg, Apply(cfg, policy, s, step))
    ensures OthersKept(s.fs, Apply(cfg, policy, s, step).fs, s.jobs[step.j].dest)
    ensures var after, job := Apply(cfg, policy, s, step), s.jobs[step.j];
            step.j in after.jobs ==> job.dest in after.fs.names
                                     && after.fs.BytesAt(job.dest) == s.fs.BytesAt(ObjectPath(cfg.root, job.h))
  {
    var after, job := Apply(cfg, policy, s, step), s.jobs[step.j];
    var source := ObjectPath(cfg.root, job.h);
    ObjectsArea(cfg, job.h);
    assert job.dest !in s.shared;
    if job.dest in s.fs.names { UnlinkedIsAlone(cfg, s.fs, s.shared, job.dest, source); }
    var all := s.fs.BytesAt(source);
    assert Copied(s.fs, source, job.dest) == all && all[..|all|] == all;
    var n := if step.copied < |all| then step.copied else |all|;
    CopyKeepsInv(cfg, s.fs, s.shared, source, job.dest, all[..n]);
    JobStepSound(cfg, s, after, job.dest, job.mode);
  }

  lemma CopyKeepsInv(cfg: Config, fs: Fs, shared: set<Path>, source: Path, dest: Path, bytes: Bytes)
    requires FsInv(cfg, fs, shared) && LinksSealed(fs, shared) && source in fs.names
    requires AreaOf(cfg.root, dest) == Outside && dest !in shared
    ensures var after := fs.Overwrite(dest, bytes).SetMode(dest, fs.NodeAt(source).readOnly);
            FsInv(cfg, after, shared) && OthersKept(fs, after, dest) && LinksSealed(after, shared)
            && dest in after.names && after.BytesAt(dest) == bytes
  {
    var written := fs.Overwrite(dest, bytes);
    OverwriteKeepsInv(cfg, fs, shared, dest, bytes);
    LinksStaySealed(fs, written, shared, dest);
    SetModeKeepsInv(cfg, written, shared, dest, fs.NodeAt(source).readOnly);
    ModeOfOwn(cfg, written, shared, dest, fs.NodeAt(source).readOnly);
  }

  /** Setting the mode of an unlinked destination leaves every link as it is. */
  lemma ModeOfOwn(cfg: Config, fs: Fs, shared: set<Path>, dest: Path, readOnly: bool)
    requires FsInv(cfg, fs, shared) && LinksSealed(fs, shared) && dest in fs.names
    requires AreaOf(cfg.root, dest) == Outside && dest !in shared
    ensures fs.SetMode(dest, readOnly).WellFormed() && LinksSealed(fs.SetMode(dest, readOnly), shared)
  {
    forall p | p in shared
      ensures fs.SetMode(dest, readOnly).NodeAt(p).readOnly
    {
      UnlinkedIsAlone(cfg, fs, shared, dest, p);
    }
  }

  lemma PermitStepKeepsInv(cfg: Config, policy: Policy, s: State, step: Step)
    requires Base(cfg, s) && Enabled(cfg, policy, s, step) && step.Permit?
    ensures Base(cfg, Apply(cfg, policy, s, step))
    ensures OthersKept(s.fs, Apply(cfg, policy, s, step).fs, s.jobs[step.j].dest)
  {
    var after, job := Apply(cfg, policy, s, step), s.jobs[step.j];
    if job.dest in s.fs.names {
      SetModeKeepsInv(cfg, s.fs, s.shared, job.dest, job.mode.Shared?);
      if job.mode.Private? { ModeOfOwn(cfg, s.fs, s.shared, job.dest, false); }
    }
    JobStepSound(cfg, s, after, job.dest, job.mode);
  }

  /** Clearing the destination, being refused a link, and giving up. */
  lemma QuietStepKeepsInv(cfg: Config, policy: Policy, s: State, step: Step)
    requires Base(cfg, s) && Enabled(cfg, policy, s, step) && policy.Disciplined()
    requires step.Start? || step.Reclear? || step.RefuseLink? || step.FailJob?
    ensures Base(cfg, Apply(cfg, policy, s, step))
    ensures OthersKept(s.fs, Apply(cfg, policy, s, step).fs, JobDest(s, step))
  {
    var after, dest, mode := Apply(cfg, policy, s, step), JobDest(s, step), JobMode(s, step);
    if step.Start? || step.Reclear? {
      ClearKeepsInv(cfg, s, after, dest, mode);
    } else {
      JobStepSound(cfg, s, after, dest, mode);
    }
  }

  /** A placement's step keeps the invariant and changes nothing but its destination. */
  lemma JobStepKeepsInv(cfg: Config, policy: Policy, s: State, step: Step)
    requires Inv(cfg, s) && Enabled(cfg, policy, s, step) && IsJobStep(step) && policy.Disciplined()
    ensures Base(cfg, Apply(cfg, policy, s, step))
    ensures OthersKept(s.fs, Apply(cfg, policy, s, step).fs, JobDest(s, step))
  {
    match step {
      case Reflink(_) => ReflinkStepKeepsInv(cfg, policy, s, step);
      case RefuseReflink(_, _) => ReflinkStepKeepsInv(cfg, policy, s, step);
      case HardLinkTo(_) => HardLinkStepKeepsInv(cfg, policy, s, step);
      case Copy(_, _) => CopyStepKeepsInv(cfg, policy, s, step);
      case Permit(_) => PermitStepKeepsInv(cfg, policy, s, step);
      case _ => QuietStepKeepsInv(cfg, policy, s, step);
    }
  }

  /** The player's step keeps the invariant and changes nothing but its own path. */
  lemma PlayerStepKeepsInv(cfg: Config, policy: Policy, s: State, step: Step)
    requires Base(cfg, s) && Enabled(cfg, policy, s, step) && (step.Edit? || step.Unlink?)
    ensures Base(cfg, Apply(cfg, policy, s, step))
    ensures OthersKept(s.fs, Apply(cfg, policy, s, step).fs, step.p)
  {
    var after := Apply(cfg, policy, s, step);
    if step.Edit? {
      OverwriteKeepsInv(cfg, s.fs, s.shared, step.p, step.bytes);
      LinksStaySealed(s.fs, after.fs, s.shared, step.p);
    } else {
      RemoveKeepsInv(cfg, s.fs, s.shared, step.p);
    }
    WritersUndisturbed(cfg, s, after, step.p);
  }

  lemma StepKeepsBase(cfg: Config, policy: Policy, s: State, step: Step)
    requires Inv(cfg, s) && Enabled(cfg, policy, s, step) && policy.Disciplined()
    ensures Base(cfg, Apply(cfg, policy, s, step))
  {
    if step.Open? {
      OpenStepKeepsInv(cfg, policy, s, step);
    } else if step.Write? {
      WriteStepKeepsInv(cfg, policy, s, step);
    } else if step.Check? || step.Discard? || step.Abandon? || step.FailWriter? {
      EndWriterKeepsInv(cfg, policy, s, step);
    } else if step.Rename? {
      RenameStepKeepsInv(cfg, policy, s, step);
    } else if step.Seal? {
      SealStepKeepsInv(cfg, policy, s, step);
    } else if IsJobStep(step) {
      JobStepKeepsInv(cfg, policy, s, step);
    } else if step.Collect? {
      CollectStepKeepsInv(cfg, policy, s, step);
    } else if step.WriteAlias? {
      AliasStepKeepsInv(cfg, policy, s, step);
    } else {
      PlayerStepKeepsInv(cfg, policy, s, step);
    }
  }

  // ----- Objects under way to be linked stay read-only -----

  /** No new object appears, and none that was read-only has become writable. */
  ghost predicate ObjectsStay(cfg: Config, before: Fs, after: Fs)
    requires before.WellFormed() && after.WellFormed()
  {
    forall p :: AreaOf(cfg.root, p) == Objects && p in after.names ==>
      p in before.names && (before.NodeAt(p).readOnly ==> after.NodeAt(p).readOnly)
  }

  lemma CopyLeavesObjects(cfg: Config, policy: Policy, s: State, step: Step)
    requires Base(cfg, s) && Enabled(cfg, policy, s, step) && (step.Copy? || step.Permit?)
    ensures Apply(cfg, policy, s, step).fs.WellFormed() && ObjectsStay(cfg, s.fs, Apply(cfg, policy, s, step).fs)
  {
    var after, dest := Apply(cfg, policy, s, step).fs, s.jobs[step.j].dest;
    assert step.Copy? || s.jobs[step.j].mode.Private? ==> dest !in s.shared;
    forall p | AreaOf(cfg.root, p) == Objects && p in after.names
      ensures p in s.fs.names && (s.fs.NodeAt(p).readOnly ==> after.NodeAt(p).readOnly)
    {
      if dest in s.fs.names && dest !in s.shared { UnlinkedIsAlone(cfg, s.fs, s.shared, dest, p); }
    }
  }

  lemma WriterLeavesObjects(cfg: Config, policy: Policy, s: State, step: Step)
    requires Base(cfg, s) && Enabled(cfg, policy, s, step) && IsWriterStep(step) && !step.Rename?
    ensures Apply(cfg, policy, s, step).fs.WellFormed() && ObjectsStay(cfg, s.fs, Apply(cfg, policy, s, step).fs)
  {
    TempArea(cfg, if step.Open? then step.name else s.writers[step.w].name);
  }

  lemma StepLeavesObjects(cfg: Config, policy: Policy, s: State, step: Step)
    requires Base(cfg, s) && Enabled(cfg, policy, s, step) && !step.Rename?
    ensures Apply(cfg, policy, s, step).fs.WellFormed() && ObjectsStay(cfg, s.fs, Apply(cfg, policy, s, step).fs)
  {
    if step.Copy? || step.Permit? {
      CopyLeavesObjects(cfg, policy, s, step);
    } else if IsWriterStep(step) {
      WriterLeavesObjects(cfg, policy, s, step);
    }
  }

  lemma ReadyStays(cfg: Config, s: State, after: State, h: Hash)
    requires s.fs.WellFormed() && after.fs.WellFormed() && ReadyFor(cfg, s, h) && ObjectsStay(cfg, s.fs, after.fs)
    requires forall w :: w in after.writers && Commits(cfg, after.writers[w], h) ==>
               w in s.writers && Commits(cfg, s.writers[w], h)
    ensures ReadyFor(cfg, after, h)
  {
    ObjectsArea(cfg, h);
  }

  lemma RenameKeepsReady(cfg: Config, policy: Policy, s: State, step: Step, h: Hash)
    requires Base(cfg, s) && Enabled(cfg, policy, s, step) && step.Rename? && ReadyFor(cfg, s, h)
    ensures Apply(cfg, policy, s, step).fs.WellFormed() && ReadyFor(cfg, Apply(cfg, policy, s, step), h)
  {
    var g := HashOf(cfg, s.writers[step.w]);
    assert g != h;
    if ObjectPath(cfg.root, g) == ObjectPath(cfg.root, h) {
      ObjectPathInjective(cfg.root, g, h);
    }
  }

  /** Whoever commits between its check and its seal afterwards did so before, unless it passes its check now. */
  lemma OnlyChecksCommit(cfg: Config, policy: Policy, s: State, step: Step, h: Hash)
    requires s.fs.WellFormed() && Enabled(cfg, policy, s, step) && policy.quietChecks && !step.Rename?
    requires step.Check? ==> !NoneShared(s, h)
    ensures var writers := Apply(cfg, policy, s, step).writers;
            forall w :: w in writers && Commits(cfg, writers[w], h) ==> w in s.writers && Commits(cfg, s.writers[w], h)
  {
  }

  lemma StepKeepsReady(cfg: Config, policy: Policy, s: State, step: Step)
    requires Inv(cfg, s) && Enabled(cfg, policy, s, step) && policy.Disciplined()
    ensures Apply(cfg, policy, s, step).fs.WellFormed() && LinksReady(cfg, Apply(cfg, policy, s, step))
  {
    var after := Apply(cfg, policy, s, step);
    StepKeepsBase(cfg, policy, s, step);
    forall j | j in after.jobs && after.jobs[j].mode.Shared?
      ensures ReadyFor(cfg, after, after.jobs[j].h)
    {
      JobsFrom(cfg, policy, s, step, j);
      var h := after.jobs[j].h;
      if step.Rename? {
        RenameKeepsReady(cfg, policy, s, step, h);
      } else {
        StepLeavesObjects(cfg, policy, s, step);
        OnlyChecksCommit(cfg, policy, s, step, h);
        ReadyStays(cfg, s, after, h);
      }
    }
  }

  /** A shared placement under way was so before, or it has just started on an object that is ready. */
  lemma JobsFrom(cfg: Config, policy: Policy, s: State, step: Step, j: nat)
    requires Inv(cfg, s) && Enabled(cfg, policy, s, step) && policy.Disciplined()
    requires j in Apply(cfg, policy, s, step).jobs && Apply(cfg, policy, s, step).jobs[j].mode.Shared?
    ensures ReadyFor(cfg, s, Apply(cfg, policy, s, step).jobs[j].h)
    ensures step.Check? ==> !NoneShared(s, Apply(cfg, policy, s, step).jobs[j].h)
  {
    if !(step.Start? && step.j == j) {
      assert j in s.jobs && s.jobs[j].h == Apply(cfg, policy, s, step).jobs[j].h && s.jobs[j].mode.Shared?;
    }
  }

  lemma StepKeepsInv(cfg: Config, policy: Policy, s: State, step: Step)
    requires Inv(cfg, s) && Enabled(cfg, policy, s, step) && policy.Disciplined()
    ensures Inv(cfg, Apply(cfg, policy, s, step))
  {
    StepKeepsBase(cfg, policy, s, step);
    StepKeepsReady(cfg, policy, s, step);
  }

  // ----- Whole runs -----

  ghost predicate Run(cfg: Config, policy: Policy, states: seq<State>, steps: seq<Step>) {
    Moves(cfg, policy, states, steps) && Initial(cfg, states[0])
  }

  ghost predicate Moves(cfg: Config, policy: Policy, states: seq<State>, steps: seq<Step>) {
    && |states| == |steps| + 1
    && forall i :: 0 <= i < |steps| ==> Follows(cfg, policy, states[i], steps[i], states[i + 1])
  }

  ghost predicate Follows(cfg: Config, policy: Policy, s: State, step: Step, after: State) {
    s.fs.WellFormed() && Enabled(cfg, policy, s, step) && after == Apply(cfg, policy, s, step)
  }

  lemma {:induction false} RunKeepsInv(cfg: Config, policy: Policy, states: seq<State>, steps: seq<Step>, n: nat)
    requires Run(cfg, policy, states, steps) && n < |states| && policy.Disciplined()
    ensures Inv(cfg, states[n])
  {
    if n == 0 {
      InitialInv(cfg, states[0]);
    } else {
      RunKeepsInv(cfg, policy, states, steps, n - 1);
      assert Follows(cfg, policy, states[n - 1], steps[n - 1], states[n]);
      StepKeepsInv(cfg, policy, states[n - 1], steps[n - 1]);
    }
  }
}
