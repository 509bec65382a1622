/** Resolving vanilla libraries, locking a plan, and the order the game's classpath comes out in. */
module Classpath {
  import opened Prelude
  import opened Seqs
  import opened Maven
  import opened LoaderMerge

  // ----- Resolving a version's libraries -----

  datatype Artifact = Artifact(path: Option<string>, sha1: string, size: nat, url: string)

  /** A library entry; `applicable` and `nativeClassifier` are its rules and natives evaluated for one platform. */
  datatype VanillaLibrary = VanillaLibrary(
    name: string,
    applicable: bool,
    nativeClassifier: Option<string>,
    artifact: Option<Artifact>,
    classifiers: map<string, Artifact>,
    mavenUrl: Option<string>,
    exclude: seq<string>)

  datatype ResolvedArtifact = ResolvedArtifact(
    name: string,
    path: string,
    sha1: Option<string>,
    size: Option<nat>,
    url: string)

  datatype ResolvedNative = ResolvedNative(artifact: ResolvedArtifact, exclude: seq<string>)

  function ResolveArtifact(library: VanillaLibrary, artifact: Artifact): (r: Option<ResolvedArtifact>)
    ensures r.Some? ==> r.value.name == library.name
  {
    var path := if artifact.path.Some? then artifact.path else NamePath(library.name);
    match path
    case None => None
    case Some(p) => Some(ResolvedArtifact(library.name, p, Some(artifact.sha1), Some(artifact.size), artifact.url))
  }

  function ResolveFromMavenUrl(library: VanillaLibrary): (r: Option<ResolvedArtifact>)
    ensures r.Some? ==> r.value.name == library.name
  {
    if library.mavenUrl.None? || NamePath(library.name).None? then None
    else
      var base, path := library.mavenUrl.value, NamePath(library.name).value;
      var separator := if base != "" && base[|base| - 1] == '/' then "" else "/";
      Some(ResolvedArtifact(library.name, path, None, None, base + separator + path))
  }

  function ClasspathEntry(library: VanillaLibrary): (r: Option<ResolvedArtifact>)
    ensures r.Some? ==> r.value.name == library.name
  {
    var direct := if library.artifact.Some? then ResolveArtifact(library, library.artifact.value) else None;
    if direct.Some? then direct else ResolveFromMavenUrl(library)
  }

  function NativeEntry(library: VanillaLibrary): Option<ResolvedNative> {
    if library.nativeClassifier.None? || library.nativeClassifier.value !in library.classifiers then None
    else
      match ResolveArtifact(library, library.classifiers[library.nativeClassifier.value])
      case None => None
      case Some(artifact) => Some(ResolvedNative(artifact, library.exclude))
  }

  function ResolveKey(library: VanillaLibrary): string {
    NameKey(library.name).UnwrapOr(library.name)
  }

  predicate OnClasspath(library: VanillaLibrary) {
    library.applicable && ClasspathEntry(library).Some?
  }

  /** Library `i` is the first usable one of its key: read off the list, with no running state. */
  ghost predicate FirstOfKey(libraries: seq<VanillaLibrary>, i: nat)
    requires i < |libraries|
  {
    OnClasspath(libraries[i])
    && forall j :: 0 <= j < i && OnClasspath(libraries[j]) ==> ResolveKey(libraries[j]) != ResolveKey(libraries[i])
  }

  ghost function ChosenEntries(libraries: seq<VanillaLibrary>, n: nat): seq<ResolvedArtifact>
    requires n <= |libraries|
  {
    if n == 0 then []
    else if FirstOfKey(libraries, n - 1) then
      ChosenEntries(libraries, n - 1) + [ClasspathEntry(libraries[n - 1]).value]
    else
      ChosenEntries(libraries, n - 1)
  }

  ghost function ChosenNatives(libraries: seq<VanillaLibrary>, n: nat): seq<ResolvedNative>
    requires n <= |libraries|
  {
    if n == 0 then []
    else if libraries[n - 1].applicable && NativeEntry(libraries[n - 1]).Some? then
      ChosenNatives(libraries, n - 1) + [NativeEntry(libraries[n - 1]).value]
    else
      ChosenNatives(libraries, n - 1)
  }

  /** The keys of the usable libraries among the first `n`. */
  ghost predicate SeenBefore(libraries: seq<VanillaLibrary>, n: nat, seen: set<string>)
    requires n <= |libraries|
  {
    forall k :: k in seen <==> exists j :: 0 <= j < n && OnClasspath(libraries[j]) && ResolveKey(libraries[j]) == k
  }

  lemma SeenMeansFirst(libraries: seq<VanillaLibrary>, n: nat, seen: set<string>)
    requires n < |libraries| && SeenBefore(libraries, n, seen)
    ensures FirstOfKey(libraries, n) <==> OnClasspath(libraries[n]) && ResolveKey(libraries[n]) !in seen
  {
  }

  lemma SeenGrows(libraries: seq<VanillaLibrary>, n: nat, seen: set<string>)
    requires n < |libraries| && SeenBefore(libraries, n, seen)
    ensures SeenBefore(libraries, n + 1, if OnClasspath(libraries[n]) then seen + {ResolveKey(libraries[n])} else seen)
  {
    var after := if OnClasspath(libraries[n]) then seen + {ResolveKey(libraries[n])} else seen;
    forall k
      ensures k in after <==>
                exists j :: 0 <= j < n + 1 && OnClasspath(libraries[j]) && ResolveKey(libraries[j]) == k
    {
      if k in seen {
        var j :| 0 <= j < n && OnClasspath(libraries[j]) && ResolveKey(libraries[j]) == k;
      }
    }
  }

  lemma SeenStep(libraries: seq<VanillaLibrary>, n: nat, seen: set<string>)
    requires n < |libraries| && SeenBefore(libraries, n, seen)
    ensures FirstOfKey(libraries, n) <==> OnClasspath(libraries[n]) && ResolveKey(libraries[n]) !in seen
    ensures SeenBefore(libraries, n + 1, if OnClasspath(libraries[n]) then seen + {ResolveKey(libraries[n])} else seen)
    ensures ResolveKey(libraries[n]) in seen ==> seen + {ResolveKey(libraries[n])} == seen
  {
    SeenMeansFirst(libraries, n, seen);
    SeenGrows(libraries, n, seen);
  }

  /** What one more library adds, when `seen` are the keys of those before it. */
  lemma ChosenNext(libraries: seq<VanillaLibrary>, n: nat, seen: set<string>)
    requires n < |libraries| && SeenBefore(libraries, n, seen)
    ensures ChosenEntries(libraries, n + 1)
         == ChosenEntries(libraries, n)
            + if OnClasspath(libraries[n]) && ResolveKey(libraries[n]) !in seen
              then [ClasspathEntry(libraries[n]).value] else []
    ensures ChosenNatives(libraries, n + 1)
         == ChosenNatives(libraries, n)
            + if libraries[n].applicable && NativeEntry(libraries[n]).Some?
              then [NativeEntry(libraries[n]).value] else []
  {
    SeenMeansFirst(libraries, n, seen);
  }

  method ResolveLibraries(libraries: seq<VanillaLibrary>)
    returns (classpath: seq<ResolvedArtifact>, natives: seq<ResolvedNative>)
    ensures classpath == ChosenEntries(libraries, |libraries|)
    ensures natives == ChosenNatives(libraries, |libraries|)
  {
    classpath, natives := [], [];
    var seen: set<string> := {};
    for i := 0 to |libraries|
      invariant classpath == ChosenEntries(libraries, i)
      invariant natives == ChosenNatives(libraries, i)
      invariant SeenBefore(libraries, i, seen)
    {
      var library := libraries[i];
      SeenStep(libraries, i, seen);
      ChosenNext(libraries, i, seen);
      if !library.applicable {
        continue;
      }
      var native := NativeEntry(library);
      if native.Some? {
        natives := natives + [native.value];
      }
      var entry := ClasspathEntry(library);
      if entry.Some? {
        var key := ResolveKey(library);
        if key !in seen {
          seen := seen + {key};
          classpath := classpath + [entry.value];
        }
      }
    }
  }

  function EntryKey(entry: ResolvedArtifact): string {
    NameKey(entry.name).UnwrapOr(entry.name)
  }

  ghost predicate EntriesOfDistinctKeys(entries: seq<ResolvedArtifact>) {
    forall i, j :: 0 <= i < j < |entries| ==> EntryKey(entries[i]) != EntryKey(entries[j])
  }

  ghost predicate HasKey(entries: seq<ResolvedArtifact>, key: string) {
    exists e :: e in entries && EntryKey(e) == key
  }

  lemma HasKeySnoc(before: seq<ResolvedArtifact>, last: ResolvedArtifact, key: string)
    ensures HasKey(before + [last], key) <==> HasKey(before, key) || EntryKey(last) == key
  {
  }

  lemma {:induction false} ResolvedFromLibraries(libraries: seq<VanillaLibrary>, n: nat, e: ResolvedArtifact)
    requires n <= |libraries| && e in ChosenEntries(libraries, n)
    ensures exists j :: 0 <= j < n && OnClasspath(libraries[j]) && ClasspathEntry(libraries[j]) == Some(e)
  {
    if FirstOfKey(libraries, n - 1) && ClasspathEntry(libraries[n - 1]) == Some(e) {
    } else {
      ResolvedFromLibraries(libraries, n - 1, e);
    }
  }

  lemma EarlierOfKey(libraries: seq<VanillaLibrary>, j: nat) returns (i: nat)
    requires j < |libraries| && OnClasspath(libraries[j]) && !FirstOfKey(libraries, j)
    ensures i < j && OnClasspath(libraries[i]) && ResolveKey(libraries[i]) == ResolveKey(libraries[j])
  {
    i :| 0 <= i < j && OnClasspath(libraries[i]) && ResolveKey(libraries[i]) == ResolveKey(libraries[j]);
  }

  /** A usable library's key is on the resolved classpath: its first usable holder put it there. */
  lemma {:induction false} ResolvedCovers(libraries: seq<VanillaLibrary>, n: nat, j: nat)
    requires j < n <= |libraries| && OnClasspath(libraries[j])
    ensures HasKey(ChosenEntries(libraries, n), ResolveKey(libraries[j]))
    decreases j
  {
    if FirstOfKey(libraries, j) {
      ChosenHasMore(libraries, j + 1, ResolveKey(libraries[j]));
      ChosenKeeps(libraries, j + 1, n, ResolveKey(libraries[j]));
    } else {
      var i := EarlierOfKey(libraries, j);
      ResolvedCovers(libraries, n, i);
    }
  }

  lemma {:induction false} ChosenKeeps(libraries: seq<VanillaLibrary>, m: nat, n: nat, key: string)
    requires m <= n <= |libraries| && HasKey(ChosenEntries(libraries, m), key)
    ensures HasKey(ChosenEntries(libraries, n), key)
    decreases n
  {
    if m < n {
      ChosenKeeps(libraries, m, n - 1, key);
      ChosenHasMore(libraries, n, key);
    }
  }

  lemma ChosenHasMore(libraries: seq<VanillaLibrary>, n: nat, key: string)
    requires 0 < n <= |libraries|
    ensures HasKey(ChosenEntries(libraries, n), key)
       <==> HasKey(ChosenEntries(libraries, n - 1), key)
            || (FirstOfKey(libraries, n - 1) && ResolveKey(libraries[n - 1]) == key)
  {
    if FirstOfKey(libraries, n - 1) {
      HasKeySnoc(ChosenEntries(libraries, n - 1), ClasspathEntry(libraries[n - 1]).value, key);
    }
  }

  /** Each usable key is on the resolved classpath exactly once. */
  lemma ResolvedOncePerKey(libraries: seq<VanillaLibrary>, n: nat)
    requires n <= |libraries|
    ensures EntriesOfDistinctKeys(ChosenEntries(libraries, n))
    ensures forall j :: 0 <= j < n && OnClasspath(libraries[j]) ==>
              HasKey(ChosenEntries(libraries, n), ResolveKey(libraries[j]))
  {
    forall j | 0 <= j < n && OnClasspath(libraries[j])
      ensures HasKey(ChosenEntries(libraries, n), ResolveKey(libraries[j]))
    {
      ResolvedCovers(libraries, n, j);
    }
    ResolvedDistinct(libraries, n);
  }

  predicate SameLibrary(a: Coordinates, b: Coordinates) {
    a.group == b.group && a.artifact == b.artifact && a.classifier == b.classifier
  }

  /**
   * Of two usable entries for one library, in whatever versions, the later never stays; and an entry stays when all
   * usable ones before it are for other libraries.
   */
  lemma FirstOfLibrary(libraries: seq<VanillaLibrary>, j: nat, c: Coordinates)
    requires j < |libraries| && OnClasspath(libraries[j]) && Parse(libraries[j].name) == Some(c)
    requires forall i :: 0 <= i < j && OnClasspath(libraries[i]) ==> Parse(libraries[i].name).Some?
    ensures FirstOfKey(libraries, j) <==>
            forall i :: 0 <= i < j && OnClasspath(libraries[i]) ==> !SameLibrary(Parse(libraries[i].name).value, c)
  {
    forall i | 0 <= i < j && OnClasspath(libraries[i])
      ensures ResolveKey(libraries[i]) == ResolveKey(libraries[j])
         <==> SameLibrary(Parse(libraries[i].name).value, c)
    {
      KeysIdentify(libraries[i].name, libraries[j].name);
    }
  }

  lemma {:induction false} ResolvedDistinct(libraries: seq<VanillaLibrary>, n: nat)
    requires n <= |libraries|
    ensures EntriesOfDistinctKeys(ChosenEntries(libraries, n))
  {
    if n > 0 {
      ResolvedDistinct(libraries, n - 1);
      if FirstOfKey(libraries, n - 1) {
        var before, entry := ChosenEntries(libraries, n - 1), ClasspathEntry(libraries[n - 1]).value;
        forall e | e in before
          ensures EntryKey(e) != EntryKey(entry)
        {
          ResolvedFromLibraries(libraries, n - 1, e);
        }
        DistinctSnoc(before, entry);
      }
    }
  }

  lemma DistinctSnoc(before: seq<ResolvedArtifact>, last: ResolvedArtifact)
    requires EntriesOfDistinctKeys(before) && forall e :: e in before ==> EntryKey(e) != EntryKey(last)
    ensures EntriesOfDistinctKeys(before + [last])
  {
  }

  // ----- Locking a plan -----

  datatype LockArtifact = LockArtifact(
    path: string,
    role: Role,
    size: nat,
    blake3: string,
    sha1: Option<string>,
    sha512: Option<string>,
    origin: seq<string>,
    extract: Option<seq<string>>)

  function LockEntry(artifact: PlannedArtifact, hash: string, size: nat): LockArtifact {
    LockArtifact(artifact.path, artifact.role, size, hash, artifact.sha1, artifact.sha512, artifact.origin,
                 artifact.extract)
  }

  /** The lock entries of a plan whose artifacts were acquired with these hashes and sizes. */
  function Locked(artifacts: seq<PlannedArtifact>, acquired: seq<(string, nat)>): seq<LockArtifact>
    requires |artifacts| == |acquired|
  {
    if artifacts == [] then []
    else [LockEntry(artifacts[0], acquired[0].0, acquired[0].1)] + Locked(artifacts[1..], acquired[1..])
  }

  predicate IsClasspath(artifact: LockArtifact) {
    artifact.role.Client? || artifact.role.Library? || artifact.role.Mod?
  }

  function CmpOrder(artifact: LockArtifact): nat {
    match artifact.role
    case Mod => 0
    case Library => 1
    case Client => 2
    case _ => 3
  }

  class Lockfile {
    const artifacts: seq<LockArtifact>

    constructor (artifacts: seq<LockArtifact>)
      ensures this.artifacts == artifacts
    {
      this.artifacts := artifacts;
    }

    method ClasspathOf() returns (entries: seq<LockArtifact>)
      ensures entries == OfRole(artifacts, Mod) + OfRole(artifacts, Library) + OfRole(artifacts, Client)
    {
      entries := Filter(artifacts, IsClasspath);
      entries := StableSort(entries, CmpOrder);
      ClasspathByRole(artifacts);
    }
  }

  function OfRole(artifacts: seq<LockArtifact>, role: Role): seq<LockArtifact> {
    if artifacts == [] then []
    else if artifacts[0].role == role then [artifacts[0]] + OfRole(artifacts[1..], role)
    else OfRole(artifacts[1..], role)
  }

  lemma {:induction false} OfRoleOnly(artifacts: seq<LockArtifact>, role: Role)
    ensures forall i :: 0 <= i < |OfRole(artifacts, role)| ==> OfRole(artifacts, role)[i].role == role
  {
    if artifacts != [] {
      OfRoleOnly(artifacts[1..], role);
    }
  }

  lemma {:induction false} GroupsOfClasspath(artifacts: seq<LockArtifact>, k: nat)
    ensures k == 0 ==> WithKey(Filter(artifacts, IsClasspath), CmpOrder, k) == OfRole(artifacts, Mod)
    ensures k == 1 ==> WithKey(Filter(artifacts, IsClasspath), CmpOrder, k) == OfRole(artifacts, Library)
    ensures k == 2 ==> WithKey(Filter(artifacts, IsClasspath), CmpOrder, k) == OfRole(artifacts, Client)
    ensures k > 2 ==> WithKey(Filter(artifacts, IsClasspath), CmpOrder, k) == []
  {
    if artifacts != [] {
      GroupsOfClasspath(artifacts[1..], k);
      var rest := Filter(artifacts[1..], IsClasspath);
      if IsClasspath(artifacts[0]) {
        assert ([artifacts[0]] + rest)[1..] == rest;
      }
    }
  }

  lemma {:induction false} GroupOfOneRole(s: seq<LockArtifact>, order: nat, k: nat)
    requires forall i :: 0 <= i < |s| ==> CmpOrder(s[i]) == order
    ensures WithKey(s, CmpOrder, k) == if k == order then s else []
  {
    if s != [] {
      GroupOfOneRole(s[1..], order, k);
      assert s == [s[0]] + s[1..];
    }
  }

  lemma RoleBlocksGroup(artifacts: seq<LockArtifact>, k: nat)
    ensures WithKey(OfRole(artifacts, Mod) + OfRole(artifacts, Library) + OfRole(artifacts, Client), CmpOrder, k)
         == WithKey(Filter(artifacts, IsClasspath), CmpOrder, k)
  {
    var mods, libraries, clients := OfRole(artifacts, Mod), OfRole(artifacts, Library), OfRole(artifacts, Client);
    OfRoleOnly(artifacts, Mod);
    OfRoleOnly(artifacts, Library);
    OfRoleOnly(artifacts, Client);
    GroupOfOneRole(mods, 0, k);
    GroupOfOneRole(libraries, 1, k);
    GroupOfOneRole(clients, 2, k);
    WithKeyConcat(mods + libraries, clients, CmpOrder, k);
    WithKeyConcat(mods, libraries, CmpOrder, k);
    GroupsOfClasspath(artifacts, k);
  }

  lemma RoleBlocksSorted(artifacts: seq<LockArtifact>)
    ensures SortedBy(OfRole(artifacts, Mod) + OfRole(artifacts, Library) + OfRole(artifacts, Client), CmpOrder)
  {
    OfRoleOnly(artifacts, Mod);
    OfRoleOnly(artifacts, Library);
    OfRoleOnly(artifacts, Client);
  }

  /** The stable role sort puts mods first, then libraries, then clients, each in lockfile order. */
  lemma ClasspathByRole(artifacts: seq<LockArtifact>)
    ensures StableSort(Filter(artifacts, IsClasspath), CmpOrder)
         == OfRole(artifacts, Mod) + OfRole(artifacts, Library) + OfRole(artifacts, Client)
  {
    var blocks := OfRole(artifacts, Mod) + OfRole(artifacts, Library) + OfRole(artifacts, Client);
    RoleBlocksSorted(artifacts);
    forall k: nat
      ensures WithKey(blocks, CmpOrder, k) == WithKey(Filter(artifacts, IsClasspath), CmpOrder, k)
    {
      RoleBlocksGroup(artifacts, k);
    }
    StableSortUnique(Filter(artifacts, IsClasspath), blocks, CmpOrder);
  }

  // ----- End to end -----

  function PathsOfRole(artifacts: seq<PlannedArtifact>, role: Role): seq<string> {
    if artifacts == [] then []
    else if artifacts[0].role == role then [artifacts[0].path] + PathsOfRole(artifacts[1..], role)
    else PathsOfRole(artifacts[1..], role)
  }

  lemma PathsCons(first: PlannedArtifact, rest: seq<PlannedArtifact>, role: Role)
    ensures PathsOfRole([first] + rest, role)
         == (if first.role == role then [first.path] else []) + PathsOfRole(rest, role)
  {
    assert ([first] + rest)[1..] == rest;
  }

  lemma {:induction false} PathsConcat(a: seq<PlannedArtifact>, b: seq<PlannedArtifact>, role: Role)
    ensures PathsOfRole(a + b, role) == PathsOfRole(a, role) + PathsOfRole(b, role)
  {
    if a == [] {
      assert a + b == b;
    } else {
      PathsConcat(a[1..], b, role);
      assert a + b == [a[0]] + (a[1..] + b) && a == [a[0]] + a[1..];
      PathsCons(a[0], a[1..] + b, role);
      PathsCons(a[0], a[1..], role);
      Regroup(if a[0].role == role then [a[0].path] else [], PathsOfRole(a[1..], role), PathsOfRole(b, role));
    }
  }

  function LockPaths(entries: seq<LockArtifact>): (paths: seq<string>)
    ensures |paths| == |entries|
  {
    seq(|entries|, i requires 0 <= i < |entries| => entries[i].path)
  }

  lemma LockPathsConcat(a: seq<LockArtifact>, b: seq<LockArtifact>)
    ensures LockPaths(a + b) == LockPaths(a) + LockPaths(b)
  {
  }

  /** Locking keeps every artifact's place. */
  lemma {:induction false} LockingKeepsOrder(artifacts: seq<PlannedArtifact>, acquired: seq<(string, nat)>, role: Role)
    requires |artifacts| == |acquired|
    ensures LockPaths(OfRole(Locked(artifacts, acquired), role)) == PathsOfRole(artifacts, role)
  {
    if artifacts != [] {
      LockingKeepsOrder(artifacts[1..], acquired[1..], role);
      var rest, first := Locked(artifacts[1..], acquired[1..]), LockEntry(artifacts[0], acquired[0].0, acquired[0].1);
      OfRoleCons(first, rest, role);
      LockPathsConcat(if first.role == role then [first] else [], OfRole(rest, role));
      PathsCons(artifacts[0], artifacts[1..], role);
      assert artifacts == [artifacts[0]] + artifacts[1..];
    }
  }

  lemma OfRoleCons(first: LockArtifact, rest: seq<LockArtifact>, role: Role)
    ensures OfRole([first] + rest, role) == (if first.role == role then [first] else []) + OfRole(rest, role)
  {
    assert ([first] + rest)[1..] == rest;
  }

  lemma {:induction false} NoneOfRole(artifacts: seq<PlannedArtifact>, role: Role)
    requires forall i :: 0 <= i < |artifacts| ==> artifacts[i].role != role
    ensures PathsOfRole(artifacts, role) == []
  {
    if artifacts != [] {
      NoneOfRole(artifacts[1..], role);
    }
  }

  lemma {:induction false} AllOfRole(artifacts: seq<PlannedArtifact>, role: Role)
    requires forall i :: 0 <= i < |artifacts| ==> artifacts[i].role == role
    ensures |PathsOfRole(artifacts, role)| == |artifacts|
    ensures forall i :: 0 <= i < |artifacts| ==> PathsOfRole(artifacts, role)[i] == artifacts[i].path
  {
    if artifacts != [] {
      AllOfRole(artifacts[1..], role);
    }
  }

  lemma {:induction false} PathsOfOthers(artifacts: seq<PlannedArtifact>, role: Role)
    requires role != Library
    ensures PathsOfRole(artifacts, role) == PathsOfRole(NonLibraries(artifacts), role)
  {
    if artifacts != [] {
      PathsOfOthers(artifacts[1..], role);
      var rest := NonLibraries(artifacts[1..]);
      if artifacts[0].role != Library {
        assert ([artifacts[0]] + rest)[1..] == rest;
      }
    }
  }

  lemma PathsOfThree(a: seq<PlannedArtifact>, b: seq<PlannedArtifact>, c: seq<PlannedArtifact>, role: Role)
    ensures PathsOfRole(a + b + c, role) == PathsOfRole(a, role) + PathsOfRole(b, role) + PathsOfRole(c, role)
  {
    PathsConcat(a + b, c, role);
    PathsConcat(a, b, role);
  }

  /** Splicing puts the loader's block in front of every library that was kept. */
  lemma SplicedLibraryPaths(kept: seq<PlannedArtifact>, planned: seq<PlannedArtifact>)
    ensures PathsOfRole(Spliced(kept, planned), Library) == PathsOfRole(planned, Library) + PathsOfRole(kept, Library)
  {
    var at := FirstLibrary(kept);
    LibrariesAfter(kept[..at], planned, kept[at..]);
    assert kept == kept[..at] + kept[at..];
  }

  lemma LibrariesAfter(before: seq<PlannedArtifact>, planned: seq<PlannedArtifact>, after: seq<PlannedArtifact>)
    requires forall i :: 0 <= i < |before| ==> before[i].role != Library
    ensures PathsOfRole(before + planned + after, Library)
         == PathsOfRole(planned, Library) + PathsOfRole(before + after, Library)
  {
    NoneOfRole(before, Library);
    PathsOfThree(before, planned, after, Library);
    PathsConcat(before, after, Library);
  }

  /** The paths a lockfile's classpath lists, in order. */
  ghost function ClasspathPaths(artifacts: seq<LockArtifact>): seq<string> {
    LockPaths(StableSort(Filter(artifacts, IsClasspath), CmpOrder))
  }

  lemma ClasspathOfLocked(artifacts: seq<PlannedArtifact>, acquired: seq<(string, nat)>)
    requires |artifacts| == |acquired|
    ensures ClasspathPaths(Locked(artifacts, acquired))
         == PathsOfRole(artifacts, Mod) + PathsOfRole(artifacts, Library) + PathsOfRole(artifacts, Client)
  {
    var locked := Locked(artifacts, acquired);
    ClasspathByRole(locked);
    LockPathsConcat(OfRole(locked, Mod) + OfRole(locked, Library), OfRole(locked, Client));
    LockPathsConcat(OfRole(locked, Mod), OfRole(locked, Library));
    LockingKeepsOrder(artifacts, acquired, Mod);
    LockingKeepsOrder(artifacts, acquired, Library);
    LockingKeepsOrder(artifacts, acquired, Client);
  }

  /**
   * Merge a loader, lock the plan whatever the acquired hashes and sizes are, and ask for the classpath:
   * mods, then the loader's libraries in profile order, then the surviving vanilla libraries in their
   * original order, then the client.
   */
  lemma ModdedClasspath(artifacts: seq<PlannedArtifact>, libraries: seq<LoaderLibrary>, planned: seq<PlannedArtifact>,
                        acquired: seq<(string, nat)>)
    requires PlannedFrom(planned, libraries)
    requires |acquired| == |Spliced(Survivors(artifacts, LoaderKeys(libraries), |artifacts|), planned)|
    ensures ClasspathPaths(Locked(Spliced(Survivors(artifacts, LoaderKeys(libraries), |artifacts|), planned), acquired))
         == PathsOfRole(artifacts, Mod)
            + LoaderPaths(libraries)
            + PathsOfRole(Survivors(artifacts, LoaderKeys(libraries), |artifacts|), Library)
            + PathsOfRole(artifacts, Client)
  {
    var kept := Survivors(artifacts, LoaderKeys(libraries), |artifacts|);
    var merged := Spliced(kept, planned);
    ClasspathOfLocked(merged, acquired);
    SplicedLibraryPaths(kept, planned);
    PlannedPaths(libraries, planned);
    MergeKeepsOthers(artifacts, libraries, planned);
    SameOtherPaths(merged, artifacts, Mod);
    SameOtherPaths(merged, artifacts, Client);
    assert PathsOfRole(merged, Library) == LoaderPaths(libraries) + PathsOfRole(kept, Library);
    Regroup(PathsOfRole(artifacts, Mod), LoaderPaths(libraries), PathsOfRole(kept, Library));
  }

  lemma SameOtherPaths(a: seq<PlannedArtifact>, b: seq<PlannedArtifact>, role: Role)
    requires role != Library && NonLibraries(a) == NonLibraries(b)
    ensures PathsOfRole(a, role) == PathsOfRole(b, role)
  {
    PathsOfOthers(a, role);
    PathsOfOthers(b, role);
  }

  /** Where the loader's libraries are installed, in profile order. */
  function LoaderPaths(libraries: seq<LoaderLibrary>): seq<string> {
    seq(|libraries|, i requires 0 <= i < |libraries| => LIBRARIES + NamePath(libraries[i].name).UnwrapOr(""))
  }

  lemma PlannedPaths(libraries: seq<LoaderLibrary>, planned: seq<PlannedArtifact>)
    requires PlannedFrom(planned, libraries)
    ensures PathsOfRole(planned, Library) == LoaderPaths(libraries)
  {
    forall i | 0 <= i < |planned|
      ensures planned[i].role == Library && planned[i].path == LoaderPaths(libraries)[i]
    {
      assert PlannedLibrary(libraries[i]) == Ok(planned[i]);
    }
    AllOfRole(planned, Library);
  }

  // ----- The plan of a vanilla version -----

  datatype NamedFile = NamedFile(name: string, sha1: string, size: nat, url: string)

  function PlannedAs(path: string, role: Role, entry: ResolvedArtifact, extract: Option<seq<string>>): PlannedArtifact {
    PlannedArtifact(path, role, entry.size, entry.sha1, None, [entry.url], extract)
  }

  function PlannedClasspath(classpath: seq<ResolvedArtifact>): seq<PlannedArtifact> {
    seq(|classpath|, i requires 0 <= i < |classpath| =>
      PlannedAs(LIBRARIES + classpath[i].path, Library, classpath[i], None))
  }

  function PlannedNatives(natives: seq<ResolvedNative>): seq<PlannedArtifact> {
    seq(|natives|, i requires 0 <= i < |natives| =>
      PlannedAs("natives/jars/" + natives[i].artifact.path, Native, natives[i].artifact, Some(natives[i].exclude)))
  }

  function PlannedFile(path: string, role: Role, file: NamedFile): PlannedArtifact {
    PlannedArtifact(path, role, Some(file.size), Some(file.sha1), None, [file.url], None)
  }

  /** Client, libraries, natives, then the logging configuration and asset index a version may have. */
  function VanillaPlan(client: NamedFile, classpath: seq<ResolvedArtifact>, natives: seq<ResolvedNative>,
                       logging: Option<NamedFile>, assetIndex: Option<NamedFile>): seq<PlannedArtifact> {
    [PlannedFile("client.jar", Client, client)]
    + PlannedClasspath(classpath)
    + VanillaRest(natives, logging, assetIndex)
  }

  function VanillaRest(natives: seq<ResolvedNative>, logging: Option<NamedFile>, assetIndex: Option<NamedFile>)
    : (rest: seq<PlannedArtifact>)
    ensures forall i :: 0 <= i < |rest| ==> rest[i].role in {Native, LoggingConfig, Asset}
  {
    PlannedNatives(natives)
    + (if logging.Some? then [PlannedFile("logging/" + logging.value.name, LoggingConfig, logging.value)] else [])
    + (if assetIndex.Some?
       then [PlannedFile("assets/indexes/" + assetIndex.value.name + ".json", Asset, assetIndex.value)] else [])
  }

  /** Where a version's own libraries are installed. */
  function EntryPaths(classpath: seq<ResolvedArtifact>): seq<string> {
    seq(|classpath|, i requires 0 <= i < |classpath| => LIBRARIES + classpath[i].path)
  }

  lemma VanillaPaths(client: NamedFile, classpath: seq<ResolvedArtifact>, natives: seq<ResolvedNative>,
                     logging: Option<NamedFile>, assetIndex: Option<NamedFile>)
    ensures PathsOfRole(VanillaPlan(client, classpath, natives, logging, assetIndex), Mod) == []
    ensures PathsOfRole(VanillaPlan(client, classpath, natives, logging, assetIndex), Client) == ["client.jar"]
    ensures PathsOfRole(VanillaPlan(client, classpath, natives, logging, assetIndex), Library)
         == EntryPaths(classpath)
  {
    var plan := VanillaPlan(client, classpath, natives, logging, assetIndex);
    var first, libraries := [PlannedFile("client.jar", Client, client)], PlannedClasspath(classpath);
    var rest := VanillaRest(natives, logging, assetIndex);
    assert plan == first + libraries + rest;
    PathsOfThree(first, libraries, rest, Mod);
    PathsOfThree(first, libraries, rest, Client);
    PathsOfThree(first, libraries, rest, Library);
    NoneOfRole(plan, Mod);
    NoneOfRole(libraries, Client);
    NoneOfRole(rest, Client);
    NoneOfRole(first, Library);
    NoneOfRole(rest, Library);
    AllOfRole(first, Client);
    AllOfRole(libraries, Library);
    assert PathsOfRole(first, Client) == ["client.jar"];
  }

  /** Without a loader, the classpath is the resolved libraries in order and then the client. */
  lemma VanillaClasspath(client: NamedFile, classpath: seq<ResolvedArtifact>, natives: seq<ResolvedNative>,
                         logging: Option<NamedFile>, assetIndex: Option<NamedFile>, acquired: seq<(string, nat)>)
    requires |acquired| == |VanillaPlan(client, classpath, natives, logging, assetIndex)|
    ensures ClasspathPaths(Locked(VanillaPlan(client, classpath, natives, logging, assetIndex), acquired))
         == EntryPaths(classpath) + ["client.jar"]
  {
    ClasspathOfLocked(VanillaPlan(client, classpath, natives, logging, assetIndex), acquired);
    VanillaPaths(client, classpath, natives, logging, assetIndex);
  }

  lemma ModlessClasspath(artifacts: seq<PlannedArtifact>, libraries: seq<LoaderLibrary>, planned: seq<PlannedArtifact>,
                         acquired: seq<(string, nat)>)
    requires PlannedFrom(planned, libraries) && PathsOfRole(artifacts, Mod) == []
    requires |acquired| == |Spliced(Survivors(artifacts, LoaderKeys(libraries), |artifacts|), planned)|
    ensures ClasspathPaths(Locked(Spliced(Survivors(artifacts, LoaderKeys(libraries), |artifacts|), planned), acquired))
         == LoaderPaths(libraries)
            + PathsOfRole(Survivors(artifacts, LoaderKeys(libraries), |artifacts|), Library)
            + PathsOfRole(artifacts, Client)
  {
    ModdedClasspath(artifacts, libraries, planned, acquired);
    assert [] + LoaderPaths(libraries) == LoaderPaths(libraries);
  }

  /** With a loader, its block comes first and the client still comes last. */
  lemma ModdedVanillaClasspath(client: NamedFile, classpath: seq<ResolvedArtifact>, natives: seq<ResolvedNative>,
                               logging: Option<NamedFile>, assetIndex: Option<NamedFile>,
                               libraries: seq<LoaderLibrary>, planned: seq<PlannedArtifact>,
                               vanilla: seq<PlannedArtifact>, acquired: seq<(string, nat)>)
    requires vanilla == VanillaPlan(client, classpath, natives, logging, assetIndex)
    requires PlannedFrom(planned, libraries)
    requires |acquired| == |Spliced(Survivors(vanilla, LoaderKeys(libraries), |vanilla|), planned)|
    ensures ClasspathPaths(Locked(Spliced(Survivors(vanilla, LoaderKeys(libraries), |vanilla|), planned), acquired))
         == LoaderPaths(libraries)
            + PathsOfRole(Survivors(vanilla, LoaderKeys(libraries), |vanilla|), Library)
            + ["client.jar"]
  {
    VanillaPaths(client, classpath, natives, logging, assetIndex);
    ModlessClasspath(vanilla, libraries, planned, acquired);
  }

  // ----- From a version and a loader profile to the classpath -----

  datatype Version = Version(client: NamedFile, libraries: seq<VanillaLibrary>, logging: Option<NamedFile>,
                             assetIndex: Option<NamedFile>, mainClass: string, javaMajor: nat)

  ghost function PlanOf(version: Version): seq<PlannedArtifact> {
    var n := |version.libraries|;
    VanillaPlan(version.client, ChosenEntries(version.libraries, n), ChosenNatives(version.libraries, n),
                version.logging, version.assetIndex)
  }

  /** The version's usable libraries in order, and the client. */
  ghost function VanillaOnly(version: Version): seq<string> {
    EntryPaths(ChosenEntries(version.libraries, |version.libraries|)) + ["client.jar"]
  }

  /** The loader's libraries in profile order, what it leaves of the version's own in theirs, and the client. */
  ghost function InstanceClasspath(version: Version, libraries: seq<LoaderLibrary>): seq<string> {
    var vanilla := PlanOf(version);
    LoaderPaths(libraries)
    + PathsOfRole(Survivors(vanilla, LoaderKeys(libraries), |vanilla|), Library)
    + ["client.jar"]
  }

  ghost function MergedPlan(version: Version, libraries: seq<LoaderLibrary>, planned: seq<PlannedArtifact>)
    : seq<PlannedArtifact>
  {
    Spliced(Survivors(PlanOf(version), LoaderKeys(libraries), |PlanOf(version)|), planned)
  }

  /** However the artifacts are acquired, this is the classpath of the lockfile they make. */
  ghost predicate HasClasspath(artifacts: seq<PlannedArtifact>, paths: seq<string>) {
    forall acquired: seq<(string, nat)> :: |acquired| == |artifacts| ==>
      ClasspathPaths(Locked(artifacts, acquired)) == paths
  }

  /** Which libraries a loader replaces, and where its own go, depends on their names alone. */
  lemma SameNamesSameClasspath(version: Version, done: seq<LoaderLibrary>, libraries: seq<LoaderLibrary>)
    requires SameNames(done, libraries)
    ensures InstanceClasspath(version, done) == InstanceClasspath(version, libraries)
  {
    SameNamesSameKeys(done, libraries);
    assert LoaderPaths(done) == LoaderPaths(libraries);
  }

  lemma SameNamesSameKeys(done: seq<LoaderLibrary>, libraries: seq<LoaderLibrary>)
    requires SameNames(done, libraries)
    ensures LoaderKeys(done) == LoaderKeys(libraries)
  {
    KeysAmong(done, libraries);
    KeysAmong(libraries, done);
  }

  lemma KeysAmong(a: seq<LoaderLibrary>, b: seq<LoaderLibrary>)
    requires SameNames(a, b)
    ensures LoaderKeys(a) <= LoaderKeys(b)
  {
    forall k | k in LoaderKeys(a)
      ensures k in LoaderKeys(b)
    {
      var i :| 0 <= i < |a| && NameKey(a[i].name) == Some(k);
      assert b[i] in b && NameKey(b[i].name) == Some(k);
    }
  }

  lemma MergedClasspath(version: Version, libraries: seq<LoaderLibrary>, planned: seq<PlannedArtifact>,
                        merged: seq<PlannedArtifact>)
    requires PlannedFrom(planned, libraries)
    requires merged == MergedPlan(version, libraries, planned)
    ensures HasClasspath(merged, InstanceClasspath(version, libraries))
  {
    var n := |version.libraries|;
    forall acquired: seq<(string, nat)> | |acquired| == |merged|
      ensures ClasspathPaths(Locked(merged, acquired)) == InstanceClasspath(version, libraries)
    {
      ModdedVanillaClasspath(version.client, ChosenEntries(version.libraries, n),
                             ChosenNatives(version.libraries, n), version.logging, version.assetIndex,
                             libraries, planned, PlanOf(version), acquired);
    }
  }

  // ----- What is planned for a version -----

  lemma {:induction false} ChosenAreThere(libraries: seq<VanillaLibrary>, n: nat, i: nat)
    requires i < n <= |libraries|
    ensures FirstOfKey(libraries, i) ==> ClasspathEntry(libraries[i]).value in ChosenEntries(libraries, n)
    ensures libraries[i].applicable && NativeEntry(libraries[i]).Some? ==>
              NativeEntry(libraries[i]).value in ChosenNatives(libraries, n)
  {
    if i < n - 1 {
      ChosenAreThere(libraries, n - 1, i);
    }
  }

  /** Where a download goes in the repository layout: where it says, or where its library's name puts it. */
  function PlacedAt(library: VanillaLibrary, artifact: Artifact): Option<string> {
    if artifact.path.Some? then artifact.path
    else if Parse(library.name).Some? then Some(Parse(library.name).value.ToPath()) else None
  }

  lemma EntryInPlan(version: Version, entry: ResolvedArtifact)
    requires entry in ChosenEntries(version.libraries, |version.libraries|)
    ensures PlannedAs("libraries/" + entry.path, Library, entry, None) in PlanOf(version)
  {
    var entries := ChosenEntries(version.libraries, |version.libraries|);
    var k :| 0 <= k < |entries| && entries[k] == entry;
    assert PlannedClasspath(entries)[k] == PlannedAs("libraries/" + entry.path, Library, entry, None);
    assert PlannedClasspath(entries)[k] in PlannedClasspath(entries);
  }

  lemma NativeInPlan(version: Version, native: ResolvedNative)
    requires native in ChosenNatives(version.libraries, |version.libraries|)
    ensures PlannedAs("natives/jars/" + native.artifact.path, Native, native.artifact, Some(native.exclude))
         in PlanOf(version)
  {
    var natives := ChosenNatives(version.libraries, |version.libraries|);
    var k :| 0 <= k < |natives| && natives[k] == native;
    assert PlannedNatives(natives)[k]
        == PlannedAs("natives/jars/" + native.artifact.path, Native, native.artifact, Some(native.exclude));
    assert PlannedNatives(natives)[k] in VanillaRest(natives, version.logging, version.assetIndex);
  }

  /** The first usable library of its key is planned as its download, with the declared size and digest. */
  lemma DownloadPlanned(version: Version, i: nat, path: string)
    requires i < |version.libraries| && FirstOfKey(version.libraries, i) && version.libraries[i].artifact.Some?
    requires PlacedAt(version.libraries[i], version.libraries[i].artifact.value) == Some(path)
    ensures var artifact := version.libraries[i].artifact.value;
            PlannedArtifact("libraries/" + path, Library, Some(artifact.size), Some(artifact.sha1), None,
                            [artifact.url], None) in PlanOf(version)
  {
    ChosenAreThere(version.libraries, |version.libraries|, i);
    EntryInPlan(version, ClasspathEntry(version.libraries[i]).value);
  }

  /** Without a download of its own, it is what its repository has under its coordinates, with nothing to verify by. */
  lemma RepositoryPlanned(version: Version, i: nat, c: Coordinates)
    requires i < |version.libraries| && FirstOfKey(version.libraries, i) && version.libraries[i].artifact.None?
    requires version.libraries[i].mavenUrl.Some? && Parse(version.libraries[i].name) == Some(c)
    ensures PlannedArtifact("libraries/" + c.ToPath(), Library, None, None, None,
                            [WithOneSlash(version.libraries[i].mavenUrl.value) + c.ToPath()], None) in PlanOf(version)
  {
    ChosenAreThere(version.libraries, |version.libraries|, i);
    EntryInPlan(version, ClasspathEntry(version.libraries[i]).value);
    assert version.libraries[i].mavenUrl.value + "" == version.libraries[i].mavenUrl.value;
  }

  /** Every applicable library's native for this platform is planned, with what to leave out when unpacking. */
  lemma NativePlanned(version: Version, i: nat, classifier: string, path: string)
    requires i < |version.libraries| && version.libraries[i].applicable
    requires version.libraries[i].nativeClassifier == Some(classifier) && classifier in version.libraries[i].classifiers
    requires PlacedAt(version.libraries[i], version.libraries[i].classifiers[classifier]) == Some(path)
    ensures var native := version.libraries[i].classifiers[classifier];
            PlannedArtifact("natives/jars/" + path, Native, Some(native.size), Some(native.sha1), None, [native.url],
                            Some(version.libraries[i].exclude)) in PlanOf(version)
  {
    ChosenAreThere(version.libraries, |version.libraries|, i);
    NativeInPlan(version, NativeEntry(version.libraries[i]).value);
  }

  ghost predicate PlansFile(version: Version, path: string, role: Role, file: NamedFile) {
    PlannedArtifact(path, role, Some(file.size), Some(file.sha1), None, [file.url], None) in PlanOf(version)
  }

  lemma FilesPlanned(version: Version)
    ensures PlansFile(version, "client.jar", Client, version.client)
    ensures version.logging.Some? ==>
              PlansFile(version, "logging/" + version.logging.value.name, LoggingConfig, version.logging.value)
    ensures version.assetIndex.Some? ==>
              PlansFile(version, "assets/indexes/" + version.assetIndex.value.name + ".json", Asset,
                        version.assetIndex.value)
  {
  }

  /** A collection in which every request took part had every checksum. */
  lemma CollectedAllFetched(profile: LoaderProfile, fetched: seq<Result<string, Error>>, completion: seq<nat>,
                            result: seq<LoaderLibrary>)
    requires |fetched| == |profile.libraries| && Within(completion, |fetched|)
    requires IsPermutation(completion, |fetched|) && Collected(profile, fetched, completion, result)
    ensures AllFetched(profile, fetched)
  {
    var arrived :| Arrived(profile, fetched, completion, arrived)
                   && result == StableSort(arrived, ProfileOrder(profile.libraries));
    forall i: nat | i < |fetched|
      ensures profile.libraries[i].sha1.Some? || fetched[i].Ok?
    {
      var at := TurnOf(completion, |fetched|, i);
      assert Ok(arrived[at]) == WithChecksum(profile.libraries[i], fetched[i]);
    }
  }

  lemma TurnOf(order: seq<nat>, n: nat, i: nat) returns (at: nat)
    requires IsPermutation(order, n) && i < n
    ensures at < |order| && order[at] == i
  {
    var inOrder: seq<nat> := seq(n, k => k);
    assert inOrder[i] == i && i in multiset(inOrder) && i in multiset(order);
    at :| 0 <= at < |order| && order[at] == i;
  }

  /**
   * Resolves a version's libraries and applies a loader's profile, if there is one, whose checksum requests
   * finish in some order. The classpath that comes out after locking has the loader's libraries in the profile's
   * own order, whatever that order of completion was, as long as entries of one name stand together and say the
   * same.
   */
  method PlanInstance(version: Version, profile: Option<LoaderProfile>, fetched: seq<Result<string, Error>>,
                      completion: seq<nat>)
    returns (r: Result<seq<PlannedArtifact>, Error>)
    requires profile.Some? ==> |fetched| == |profile.value.libraries| && Within(completion, |fetched|)
    ensures profile.None? ==> r == Ok(PlanOf(version)) && HasClasspath(r.value, VanillaOnly(version))
    ensures profile.Some? && r.Ok? ==>
              exists libraries, planned :: Collected(profile.value, fetched, completion, libraries)
                && PlannedFrom(planned, libraries) && r.value == MergedPlan(version, libraries, planned)
                && HasClasspath(r.value, InstanceClasspath(version, libraries))
    ensures profile.Some? && r.Ok? && IsPermutation(completion, |fetched|) && EntriesGrouped(profile.value, fetched) ==>
              HasClasspath(r.value, InstanceClasspath(version, profile.value.libraries))
  {
    var classpath, natives := ResolveLibraries(version.libraries);
    var vanilla := VanillaPlan(version.client, classpath, natives, version.logging, version.assetIndex);
    if profile.None? {
      forall acquired: seq<(string, nat)> | |acquired| == |vanilla|
        ensures ClasspathPaths(Locked(vanilla, acquired))
             == EntryPaths(classpath) + ["client.jar"]
      {
        VanillaClasspath(version.client, classpath, natives, version.logging, version.assetIndex, acquired);
      }
      return Ok(vanilla);
    }
    var plan := new Plan(vanilla, version.mainClass, version.javaMajor);
    var applied := plan.Apply(profile.value, fetched, completion);
    if applied.Err? {
      return Err(applied.error);
    }
    ghost var planned :| PlannedFrom(planned, applied.value)
      && plan.artifacts == Spliced(Survivors(vanilla, LoaderKeys(applied.value), |vanilla|), planned);
    MergedClasspath(version, applied.value, planned, plan.artifacts);
    if IsPermutation(completion, |fetched|) && EntriesGrouped(profile.value, fetched) {
      CollectedAllFetched(profile.value, fetched, completion, applied.value);
      CollectedInProfileOrder(profile.value, fetched, completion, applied.value);
      SameNamesSameClasspath(version, applied.value, profile.value.libraries);
    }
    return Ok(plan.artifacts);
  }
}
