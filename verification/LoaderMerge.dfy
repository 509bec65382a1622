/** Merging a mod loader's libraries into the plan of a vanilla version. */
module LoaderMerge {
  import opened Prelude
  import opened Seqs
  import opened Maven

  datatype Role = Client | Library | Native | Asset | LoggingConfig | Mod | Runtime | Override

  datatype PlannedArtifact = PlannedArtifact(
    path: string,
    role: Role,
    size: Option<nat>,
    sha1: Option<string>,
    sha512: Option<string>,
    origin: seq<string>,
    extract: Option<seq<string>>)

  datatype LoaderLibrary = LoaderLibrary(name: string, mavenBase: string, sha1: Option<string>, size: Option<nat>)

  datatype LoaderKind = Fabric | Quilt

  datatype LockLoader = LockLoader(kind: LoaderKind, version: string, intermediaryVersion: Option<string>)

  datatype LoaderProfile = LoaderProfile(
    kind: LoaderKind,
    loaderVersion: string,
    intermediaryVersion: Option<string>,
    mainClass: string,
    minJavaVersion: Option<nat>,
    libraries: seq<LoaderLibrary>)

  datatype Error =
    | BadCoordinates(name: string)
    | BadUrl(url: string)
    | NoChecksum(name: string)

  // ----- Published checksums -----

  /** One library after its checksum request has finished; libraries that carry a digest ask for none. */
  function WithChecksum(library: LoaderLibrary, fetched: Result<string, Error>): (r: Result<LoaderLibrary, Error>)
    ensures library.sha1.Some? ==> r == Ok(library)
    ensures library.sha1.None? ==> (r.Ok? <==> fetched.Ok?)
    ensures r.Ok? ==> r.value.(sha1 := library.sha1) == library
    ensures r.Ok? && library.sha1.None? ==> r.value.sha1 == Some(fetched.value)
    ensures r.Err? ==> fetched == Err(r.error)
  {
    if library.sha1.Some? then Ok(library)
    else
      match fetched
      case Ok(digest) => Ok(library.(sha1 := Some(digest)))
      case Err(error) => Err(error)
  }

  const USIZE_MAX: nat := 0xFFFF_FFFF_FFFF_FFFF

  function Position(libraries: seq<LoaderLibrary>, name: string): (at: Option<nat>)
    ensures at.Some? ==> at.value < |libraries| && libraries[at.value].name == name
    ensures at.Some? ==> forall j :: 0 <= j < at.value ==> libraries[j].name != name
    ensures at.None? ==> forall j :: 0 <= j < |libraries| ==> libraries[j].name != name
  {
    if libraries == [] then None
    else if libraries[0].name == name then Some(0)
    else
      match Position(libraries[1..], name)
      case None => None
      case Some(i) => Some(i + 1)
  }

  function ProfileOrder(libraries: seq<LoaderLibrary>): LoaderLibrary -> nat {
    (library: LoaderLibrary) => Position(libraries, library.name).UnwrapOr(USIZE_MAX)
  }

  /** `result` is what collecting the outcomes in completion order and sorting them back yields. */
  ghost predicate Collected(profile: LoaderProfile, fetched: seq<Result<string, Error>>, completion: seq<nat>,
                            result: seq<LoaderLibrary>)
    requires |fetched| == |profile.libraries|
    requires forall i :: 0 <= i < |completion| ==> completion[i] < |fetched|
  {
    exists arrived: seq<LoaderLibrary> ::
      Arrived(profile, fetched, completion, arrived)
      && result == StableSort(arrived, ProfileOrder(profile.libraries))
  }

  ghost predicate Arrived(profile: LoaderProfile, fetched: seq<Result<string, Error>>, completion: seq<nat>,
                          arrived: seq<LoaderLibrary>)
    requires |fetched| == |profile.libraries|
    requires forall i :: 0 <= i < |completion| ==> completion[i] < |fetched|
  {
    && |arrived| == |completion|
    && forall i :: 0 <= i < |arrived| ==>
         Ok(arrived[i]) == WithChecksum(profile.libraries[completion[i]], fetched[completion[i]])
  }

  /**
   * Every checksum is requested concurrently, so results arrive in some order `completion`; they are
   * collected in that order and sorted back by position in the profile.
   */
  method WithChecksums(profile: LoaderProfile, fetched: seq<Result<string, Error>>, completion: seq<nat>)
    returns (r: Result<seq<LoaderLibrary>, Error>)
    requires |fetched| == |profile.libraries|
    requires forall i :: 0 <= i < |completion| ==> completion[i] < |fetched|
    ensures r.Ok? <==> forall i :: 0 <= i < |completion| ==>
                         WithChecksum(profile.libraries[completion[i]], fetched[completion[i]]).Ok?
    ensures r.Ok? ==> Collected(profile, fetched, completion, r.value)
    ensures r.Err? ==> exists i :: 0 <= i < |completion|
                         && WithChecksum(profile.libraries[completion[i]], fetched[completion[i]]) == Err(r.error)
  {
    var libraries: seq<LoaderLibrary> := [];
    for n := 0 to |completion|
      invariant |libraries| == n
      invariant forall i :: 0 <= i < n ==>
                  Ok(libraries[i]) == WithChecksum(profile.libraries[completion[i]], fetched[completion[i]])
    {
      var outcome := WithChecksum(profile.libraries[completion[n]], fetched[completion[n]]);
      if outcome.Err? {
        return Err(outcome.error);
      }
      libraries := libraries + [outcome.value];
    }
    assert Arrived(profile, fetched, completion, libraries);
    return Ok(StableSort(libraries, ProfileOrder(profile.libraries)));
  }

  lemma SortedIsFixed<T>(s: seq<T>, key: T -> nat)
    requires SortedBy(s, key)
    ensures StableSort(s, key) == s
  {
    StableSortUnique(s, s, key);
  }

  /** Entries that share a name stand together and are the same library. */
  ghost predicate NamesGrouped(done: seq<LoaderLibrary>) {
    forall i, j, k :: 0 <= i <= k <= j < |done| && done[i].name == done[j].name ==> done[k] == done[i]
  }

  ghost predicate SameNames(done: seq<LoaderLibrary>, libraries: seq<LoaderLibrary>) {
    |done| == |libraries| && forall i :: 0 <= i < |done| ==> done[i].name == libraries[i].name
  }

  lemma GroupedIsSorted(done: seq<LoaderLibrary>, libraries: seq<LoaderLibrary>)
    requires SameNames(done, libraries)
    requires NamesGrouped(done)
    ensures SortedBy(done, ProfileOrder(libraries))
  {
    var key := ProfileOrder(libraries);
    forall i, j | 0 <= i < j < |done|
      ensures key(done[i]) <= key(done[j])
    {
      assert libraries[i].name == done[i].name && libraries[j].name == done[j].name;
      var q := key(done[j]);
      if q < i {
        assert done[q].name == done[j].name;
        assert done[i] == done[q];
      }
    }
  }

  lemma GroupedDetermines(done: seq<LoaderLibrary>, libraries: seq<LoaderLibrary>)
    requires SameNames(done, libraries) && NamesGrouped(done)
    ensures KeyDetermines(done, ProfileOrder(libraries))
  {
    var key := ProfileOrder(libraries);
    forall i, j | 0 <= i < |done| && 0 <= j < |done| && key(done[i]) == key(done[j])
      ensures done[i] == done[j]
    {
      KeyIsName(done, libraries, i, j);
    }
  }

  lemma KeyIsName(done: seq<LoaderLibrary>, libraries: seq<LoaderLibrary>, i: nat, j: nat)
    requires SameNames(done, libraries) && i < |done| && j < |done|
    ensures ProfileOrder(libraries)(done[i]) == ProfileOrder(libraries)(done[j]) <==> done[i].name == done[j].name
  {
    assert libraries[i].name == done[i].name && libraries[j].name == done[j].name;
  }

  lemma GroupedOrderInvisible(done: seq<LoaderLibrary>, libraries: seq<LoaderLibrary>, arrived: seq<LoaderLibrary>)
    requires SameNames(done, libraries) && NamesGrouped(done) && multiset(arrived) == multiset(done)
    ensures StableSort(arrived, ProfileOrder(libraries)) == done
  {
    var key := ProfileOrder(libraries);
    GroupedIsSorted(done, libraries);
    GroupedDetermines(done, libraries);
    StableSortSorted(arrived, key);
    SortedPermutationUnique(done, StableSort(arrived, key), key);
  }

  lemma SwapKeepsMultiset<T>(s: seq<T>, i: nat, j: nat)
    requires i < j < |s|
    ensures multiset(s[i := s[j]][j := s[i]]) == multiset(s)
  {
  }

  ghost predicate IsPermutation(order: seq<nat>, n: nat) {
    multiset(order) == multiset(seq(n, i => i))
  }

  ghost predicate Within(order: seq<nat>, n: nat) {
    forall i :: 0 <= i < |order| ==> order[i] < n
  }

  function Pick(order: seq<nat>, done: seq<LoaderLibrary>): seq<LoaderLibrary>
    requires Within(order, |done|)
  {
    seq(|order|, i requires 0 <= i < |order| => done[order[i]])
  }

  lemma RemoveAt<T>(s: seq<T>, j: nat)
    requires j < |s|
    ensures multiset(s) == multiset(s[..j] + s[j + 1..]) + multiset{s[j]}
  {
    assert s == s[..j] + ([s[j]] + s[j + 1..]);
  }

  lemma PickRemoveAt(order: seq<nat>, j: nat, done: seq<LoaderLibrary>)
    requires Within(order, |done|) && j < |order|
    ensures Within(order[..j] + order[j + 1..], |done|)
    ensures multiset(Pick(order, done)) == multiset(Pick(order[..j] + order[j + 1..], done)) + multiset{done[order[j]]}
  {
    var picked := Pick(order, done);
    RemoveAt(picked, j);
    assert picked[..j] + picked[j + 1..] == Pick(order[..j] + order[j + 1..], done);
  }

  lemma WithoutFirst(a: seq<nat>, b: seq<nat>) returns (j: nat)
    requires multiset(a) == multiset(b) && a != []
    ensures j < |b| && b[j] == a[0]
    ensures multiset(a[..0] + a[0 + 1..]) == multiset(b[..j] + b[j + 1..])
  {
    assert a[0] in multiset(b);
    j :| 0 <= j < |b| && b[j] == a[0];
    RemoveAt(a, 0);
    RemoveAt(b, j);
    var restA, restB := a[..0] + a[0 + 1..], b[..j] + b[j + 1..];
    assert multiset(restA) == multiset(a) - multiset{a[0]};
    assert multiset(restB) == multiset(b) - multiset{a[0]};
  }

  lemma {:induction false} PickRearranged(a: seq<nat>, b: seq<nat>, done: seq<LoaderLibrary>)
    requires multiset(a) == multiset(b)
    requires Within(a, |done|) && Within(b, |done|)
    ensures multiset(Pick(a, done)) == multiset(Pick(b, done))
  {
    assert |multiset(a)| == |multiset(b)|;
    if a != [] {
      var j := WithoutFirst(a, b);
      PickRemoveAt(a, 0, done);
      PickRemoveAt(b, j, done);
      PickRearranged(a[..0] + a[0 + 1..], b[..j] + b[j + 1..], done);
    }
  }

  lemma ArrivedIsRearranged(profile: LoaderProfile, fetched: seq<Result<string, Error>>, completion: seq<nat>,
                            arrived: seq<LoaderLibrary>, done: seq<LoaderLibrary>)
    requires AllFetched(profile, fetched) && done == Finished(profile, fetched)
    requires IsPermutation(completion, |fetched|) && Within(completion, |fetched|)
    requires Arrived(profile, fetched, completion, arrived)
    ensures multiset(arrived) == multiset(done)
  {
    var inOrder := seq(|done|, i => i);
    assert arrived == Pick(completion, done);
    assert done == Pick(inOrder, done);
    PickRearranged(completion, inOrder, done);
  }

  /** A collection in which every request took part, in any order, comes back in the profile's order. */
  lemma CollectedInProfileOrder(profile: LoaderProfile, fetched: seq<Result<string, Error>>, completion: seq<nat>,
                                result: seq<LoaderLibrary>)
    requires AllFetched(profile, fetched) && EntriesGrouped(profile, fetched)
    requires IsPermutation(completion, |fetched|) && Within(completion, |fetched|)
    requires Collected(profile, fetched, completion, result)
    ensures result == Finished(profile, fetched)
  {
    var done := Finished(profile, fetched);
    var arrived :| Arrived(profile, fetched, completion, arrived)
                   && result == StableSort(arrived, ProfileOrder(profile.libraries));
    ArrivedIsRearranged(profile, fetched, completion, arrived, done);
    GroupedAfterwards(profile, fetched);
    GroupedOrderInvisible(done, profile.libraries, arrived);
  }

  /** Every checksum can be had. */
  ghost predicate AllFetched(profile: LoaderProfile, fetched: seq<Result<string, Error>>) {
    |fetched| == |profile.libraries|
    && forall i :: 0 <= i < |fetched| ==> profile.libraries[i].sha1.Some? || fetched[i].Ok?
  }

  /** The profile's libraries in its order, with their checksums. */
  ghost function Finished(profile: LoaderProfile, fetched: seq<Result<string, Error>>): (done: seq<LoaderLibrary>)
    requires AllFetched(profile, fetched)
    ensures SameNames(done, profile.libraries)
  {
    seq(|fetched|, i requires 0 <= i < |fetched| => WithChecksum(profile.libraries[i], fetched[i]).value)
  }

  function DigestOf(library: LoaderLibrary, fetched: Result<string, Error>): Option<string> {
    if library.sha1.Some? then library.sha1
    else
      match fetched
      case Ok(digest) => Some(digest)
      case Err(_) => None
  }

  predicate SameEntry(a: LoaderLibrary, fetchedA: Result<string, Error>, b: LoaderLibrary,
                      fetchedB: Result<string, Error>)
  {
    a.name == b.name && a.mavenBase == b.mavenBase && a.size == b.size && DigestOf(a, fetchedA) == DigestOf(b, fetchedB)
  }

  /** Profile entries that share a name stand together and say the same, published checksums included. */
  ghost predicate EntriesGrouped(profile: LoaderProfile, fetched: seq<Result<string, Error>>)
    requires |fetched| == |profile.libraries|
  {
    forall i, j, k :: 0 <= i <= k <= j < |fetched| && profile.libraries[i].name == profile.libraries[j].name ==>
      SameEntry(profile.libraries[i], fetched[i], profile.libraries[k], fetched[k])
  }

  lemma GroupedAfterwards(profile: LoaderProfile, fetched: seq<Result<string, Error>>)
    requires AllFetched(profile, fetched)
    ensures EntriesGrouped(profile, fetched) <==> NamesGrouped(Finished(profile, fetched))
  {
    var done, libraries := Finished(profile, fetched), profile.libraries;
    assert forall i :: 0 <= i < |done| ==> Some(done[i].sha1.value) == DigestOf(libraries[i], fetched[i]);
    if NamesGrouped(done) {
      forall i, j, k | 0 <= i <= k <= j < |fetched| && libraries[i].name == libraries[j].name
        ensures SameEntry(libraries[i], fetched[i], libraries[k], fetched[k])
      {
        assert done[i].name == done[j].name && done[k] == done[i];
      }
    }
  }

  /** Whatever order the requests finish in, what is collected is the profile in its own order. */
  ghost predicate OrderInvisible(profile: LoaderProfile, fetched: seq<Result<string, Error>>)
    requires AllFetched(profile, fetched)
  {
    forall completion, result :: HappensIn(profile, fetched, completion, result) ==>
      result == Finished(profile, fetched)
  }

  ghost predicate HappensIn(profile: LoaderProfile, fetched: seq<Result<string, Error>>, completion: seq<nat>,
                            result: seq<LoaderLibrary>)
    requires AllFetched(profile, fetched)
  {
    IsPermutation(completion, |fetched|) && Within(completion, |fetched|)
    && Collected(profile, fetched, completion, result)
  }

  /**
   * The checksum requests may finish in any order without showing in the result exactly when the profile's
   * entries of one name are adjacent and say the same.
   */
  lemma CompletionOrderInvisible(profile: LoaderProfile, fetched: seq<Result<string, Error>>)
    requires AllFetched(profile, fetched)
    ensures OrderInvisible(profile, fetched) <==> EntriesGrouped(profile, fetched)
  {
    if EntriesGrouped(profile, fetched) {
      forall completion, result | HappensIn(profile, fetched, completion, result)
        ensures result == Finished(profile, fetched)
      {
        CollectedInProfileOrder(profile, fetched, completion, result);
      }
    }
    if OrderInvisible(profile, fetched) {
      var done := Finished(profile, fetched);
      forall i, j, k | 0 <= i <= k <= j < |done| && done[i].name == done[j].name
        ensures done[k] == done[i]
      {
        InvisibleMeansEqual(profile, fetched, i, j, k);
      }
      GroupedAfterwards(profile, fetched);
    }
  }

  /** Collecting in a given order sorts what was picked in that order. */
  lemma PickedHappens(profile: LoaderProfile, fetched: seq<Result<string, Error>>, order: seq<nat>)
    requires AllFetched(profile, fetched) && IsPermutation(order, |fetched|) && Within(order, |fetched|)
    requires OrderInvisible(profile, fetched)
    ensures StableSort(Pick(order, Finished(profile, fetched)), ProfileOrder(profile.libraries))
         == Finished(profile, fetched)
  {
    var arrived := Pick(order, Finished(profile, fetched));
    assert Arrived(profile, fetched, order, arrived);
    assert HappensIn(profile, fetched, order, StableSort(arrived, ProfileOrder(profile.libraries)));
  }

  lemma InvisibleMeansEqual(profile: LoaderProfile, fetched: seq<Result<string, Error>>, i: nat, j: nat, k: nat)
    requires AllFetched(profile, fetched) && OrderInvisible(profile, fetched)
    requires i <= k <= j < |fetched| && Finished(profile, fetched)[i].name == Finished(profile, fetched)[j].name
    ensures Finished(profile, fetched)[k] == Finished(profile, fetched)[i]
  {
    var done, key := Finished(profile, fetched), ProfileOrder(profile.libraries);
    FinishedSorted(profile, fetched, done);
    KeyIsName(done, profile.libraries, i, j);
    KeyBetween(done, key, i, k, j);
    if i < k {
      SwappedIsPermutation(|fetched|, i, k);
      PickedHappens(profile, fetched, Swapped(|fetched|, i, k));
      SwapInvisible(done, key, i, k);
    }
  }

  lemma FinishedSorted(profile: LoaderProfile, fetched: seq<Result<string, Error>>, done: seq<LoaderLibrary>)
    requires AllFetched(profile, fetched) && OrderInvisible(profile, fetched) && done == Finished(profile, fetched)
    ensures SortedBy(done, ProfileOrder(profile.libraries))
  {
    var inOrder: seq<nat> := seq(|fetched|, n => n);
    PickedHappens(profile, fetched, inOrder);
    assert Pick(inOrder, done) == done;
    StableSortSorted(done, ProfileOrder(profile.libraries));
  }

  lemma KeyBetween<T>(s: seq<T>, key: T -> nat, i: nat, k: nat, j: nat)
    requires SortedBy(s, key) && i <= k <= j < |s| && key(s[i]) == key(s[j])
    ensures key(s[i]) == key(s[k])
  {
    assert key(s[i]) <= key(s[k]) <= key(s[j]);
  }

  function Swapped(n: nat, i: nat, k: nat): (order: seq<nat>)
    requires i < k < n
    ensures |order| == n
  {
    seq(n, x => x)[i := k][k := i]
  }

  lemma SwappedIsPermutation(n: nat, i: nat, k: nat)
    requires i < k < n
    ensures IsPermutation(Swapped(n, i, k), n) && Within(Swapped(n, i, k), n)
  {
    SwapKeepsMultiset(seq(n, x => x), i, k);
  }

  /** If sorting puts two swapped entries of one key back, they are equal: a stable sort does not move them. */
  lemma SwapInvisible(done: seq<LoaderLibrary>, key: LoaderLibrary -> nat, i: nat, k: nat)
    requires i < k < |done| && SortedBy(done, key) && key(done[i]) == key(done[k])
    requires Within(Swapped(|done|, i, k), |done|)
    requires StableSort(Pick(Swapped(|done|, i, k), done), key) == done
    ensures done[k] == done[i]
  {
    PickSwapped(done, i, k);
    SwapKeepsSorted(done, key, i, k);
    SortedIsFixed(done[i := done[k]][k := done[i]], key);
  }

  lemma PickSwapped(done: seq<LoaderLibrary>, i: nat, k: nat)
    requires i < k < |done| && Within(Swapped(|done|, i, k), |done|)
    ensures Pick(Swapped(|done|, i, k), done) == done[i := done[k]][k := done[i]]
  {
    forall x | 0 <= x < |done|
      ensures Pick(Swapped(|done|, i, k), done)[x] == done[i := done[k]][k := done[i]][x]
    {
    }
  }

  lemma SwapKeepsSorted<T>(s: seq<T>, key: T -> nat, i: nat, k: nat)
    requires i < k < |s| && SortedBy(s, key) && key(s[i]) == key(s[k])
    ensures SortedBy(s[i := s[k]][k := s[i]], key) && s[i := s[k]][k := s[i]][i] == s[k]
  {
  }

  /** Distinct names are enough. */
  lemma DistinctNamesSuffice(profile: LoaderProfile, fetched: seq<Result<string, Error>>)
    requires AllFetched(profile, fetched)
    requires forall i, j :: 0 <= i < j < |profile.libraries| ==> profile.libraries[i].name != profile.libraries[j].name
    ensures OrderInvisible(profile, fetched)
  {
    CompletionOrderInvisible(profile, fetched);
  }

  // ----- The merge -----

  /** A base ends in the slash that joins it to a path, whether or not it brought its own. */
  function WithOneSlash(base: string): (r: string)
    ensures r != "" && r[|r| - 1] == '/' && base <= r && |r| <= |base| + 1
    ensures base != "" && base[|base| - 1] == '/' ==> r == base
  {
    if base != "" && base[|base| - 1] == '/' then base else base + "/"
  }

  function LibraryUrl(library: LoaderLibrary): Option<string> {
    match NamePath(library.name)
    case None => None
    case Some(path) =>
      var slashed := library.mavenBase != "" && library.mavenBase[|library.mavenBase| - 1] == '/';
      Some(library.mavenBase + (if slashed then "" else "/") + path)
  }

  function PlannedLibrary(library: LoaderLibrary): (r: Result<PlannedArtifact, Error>)
    ensures r.Ok? <==> Parse(library.name).Some? && library.sha1.Some?
    ensures r.Ok? ==> r.value.role == Library && r.value.sha1 == library.sha1
  {
    if NamePath(library.name).None? || LibraryUrl(library).None? then Err(BadCoordinates(library.name))
    else if library.sha1.None? then Err(NoChecksum(library.name))
    else
      Ok(PlannedArtifact(LIBRARIES + NamePath(library.name).value, Library, library.size, library.sha1, None,
                         [LibraryUrl(library).value], None))
  }

  /** A loader's library is planned from its repository, under its coordinates, with its checksum and size. */
  lemma LoaderLibraryPlanned(library: LoaderLibrary)
    ensures Parse(library.name).None? ==> PlannedLibrary(library) == Err(BadCoordinates(library.name))
    ensures Parse(library.name).Some? && library.sha1.None? ==>
              PlannedLibrary(library) == Err(NoChecksum(library.name))
    ensures Parse(library.name).Some? && library.sha1.Some? ==>
              var path := Parse(library.name).value.ToPath();
              PlannedLibrary(library)
              == Ok(PlannedArtifact("libraries/" + path, Library, library.size, library.sha1, None,
                                    [WithOneSlash(library.mavenBase) + path], None))
  {
    assert library.mavenBase + "" == library.mavenBase;
  }

  function LoaderKeys(libraries: seq<LoaderLibrary>): set<string> {
    set l | l in libraries && NameKey(l.name).Some? :: NameKey(l.name).value
  }

  /** The key a planned artifact takes part in deduplication with, if it does at all. */
  function LibraryKey(artifact: PlannedArtifact): Option<string> {
    if artifact.role == Library then ArtifactKey(artifact.path) else None
  }

  /** Which artifact of the vanilla plan stays: read off the original plan, without any running state. */
  ghost predicate Survives(artifacts: seq<PlannedArtifact>, loaderKeys: set<string>, i: nat)
    requires i < |artifacts|
  {
    var key := LibraryKey(artifacts[i]);
    key.None? ||
    (key.value !in loaderKeys && forall j :: 0 <= j < i ==> LibraryKey(artifacts[j]) != key)
  }

  ghost function Survivors(artifacts: seq<PlannedArtifact>, loaderKeys: set<string>, n: nat): seq<PlannedArtifact>
    requires n <= |artifacts|
  {
    if n == 0 then []
    else if Survives(artifacts, loaderKeys, n - 1) then
      Survivors(artifacts, loaderKeys, n - 1) + [artifacts[n - 1]]
    else
      Survivors(artifacts, loaderKeys, n - 1)
  }

  function FirstLibrary(artifacts: seq<PlannedArtifact>): (i: nat)
    ensures i <= |artifacts|
    ensures forall j :: 0 <= j < i ==> artifacts[j].role != Library
    ensures i < |artifacts| ==> artifacts[i].role == Library
  {
    if artifacts == [] || artifacts[0].role == Library then 0 else 1 + FirstLibrary(artifacts[1..])
  }

  ghost function Spliced(kept: seq<PlannedArtifact>, planned: seq<PlannedArtifact>): seq<PlannedArtifact> {
    var at := FirstLibrary(kept);
    kept[..at] + planned + kept[at..]
  }

  ghost predicate PlannedFrom(planned: seq<PlannedArtifact>, libraries: seq<LoaderLibrary>) {
    |planned| == |libraries| && forall i :: 0 <= i < |planned| ==> PlannedLibrary(libraries[i]) == Ok(planned[i])
  }

  ghost predicate AllPlannable(libraries: seq<LoaderLibrary>) {
    forall i :: 0 <= i < |libraries| ==> PlannedLibrary(libraries[i]).Ok?
  }

  /** Does something to every item in turn, stopping at the first error. */
  method ForAll<T, U, E>(each: T -> Result<U, E>, items: seq<T>) returns (r: Result<seq<U>, E>)
    ensures r.Ok? <==> forall i :: 0 <= i < |items| ==> each(items[i]).Ok?
    ensures r.Ok? ==> |r.value| == |items| && forall i :: 0 <= i < |items| ==> each(items[i]) == Ok(r.value[i])
    ensures r.Err? ==> exists i :: 0 <= i < |items| && each(items[i]) == Err(r.error)
                                   && forall j :: 0 <= j < i ==> each(items[j]).Ok?
  {
    var done: seq<U> := [];
    for i := 0 to |items|
      invariant |done| == i && forall j :: 0 <= j < i ==> each(items[j]) == Ok(done[j])
    {
      var next := each(items[i]);
      if next.Err? {
        return Err(next.error);
      }
      done := done + [next.value];
    }
    return Ok(done);
  }

  method PlanAll(libraries: seq<LoaderLibrary>) returns (r: Result<seq<PlannedArtifact>, Error>)
    ensures r.Ok? <==> AllPlannable(libraries)
    ensures r.Ok? ==> PlannedFrom(r.value, libraries)
  {
    r := ForAll(PlannedLibrary, libraries);
  }

  /** The name reads as coordinates, and a checksum is given or has been fetched. */
  predicate CanBePlanned(library: LoaderLibrary, fetched: Result<string, Error>) {
    Parse(library.name).Some? && (library.sha1.Some? || fetched.Ok?)
  }

  lemma CollectedPlannable(profile: LoaderProfile, fetched: seq<Result<string, Error>>, completion: seq<nat>,
                           result: seq<LoaderLibrary>)
    requires |fetched| == |profile.libraries| && Within(completion, |fetched|)
    requires Collected(profile, fetched, completion, result)
    ensures AllPlannable(result) <==>
            forall i :: 0 <= i < |completion| ==>
              CanBePlanned(profile.libraries[completion[i]], fetched[completion[i]])
  {
    var arrived :| Arrived(profile, fetched, completion, arrived)
                   && result == StableSort(arrived, ProfileOrder(profile.libraries));
    ArrivedPlannable(profile, fetched, completion, arrived);
    if AllPlannable(arrived) { PlannableAmong(result, arrived); }
    if AllPlannable(result) { PlannableAmong(arrived, result); }
  }

  lemma ArrivedPlannable(profile: LoaderProfile, fetched: seq<Result<string, Error>>, completion: seq<nat>,
                         arrived: seq<LoaderLibrary>)
    requires |fetched| == |profile.libraries| && Within(completion, |fetched|)
    requires Arrived(profile, fetched, completion, arrived)
    ensures AllPlannable(arrived) <==>
            forall i :: 0 <= i < |completion| ==>
              CanBePlanned(profile.libraries[completion[i]], fetched[completion[i]])
  {
    forall i | 0 <= i < |arrived|
      ensures PlannedLibrary(arrived[i]).Ok?
         <==> CanBePlanned(profile.libraries[completion[i]], fetched[completion[i]])
    {
      assert Ok(arrived[i]) == WithChecksum(profile.libraries[completion[i]], fetched[completion[i]]);
    }
  }

  lemma PlannableAmong(a: seq<LoaderLibrary>, b: seq<LoaderLibrary>)
    requires multiset(a) == multiset(b) && AllPlannable(b)
    ensures AllPlannable(a)
  {
    forall i | 0 <= i < |a|
      ensures PlannedLibrary(a[i]).Ok?
    {
      assert a[i] in multiset(b);
      var j :| 0 <= j < |b| && b[j] == a[i];
    }
  }

  class Plan {
    var artifacts: seq<PlannedArtifact>
    var mainClass: string
    var loader: Option<LockLoader>
    var javaMajor: nat

    constructor (artifacts: seq<PlannedArtifact>, mainClass: string, javaMajor: nat)
      ensures this.artifacts == artifacts && this.mainClass == mainClass && this.javaMajor == javaMajor
      ensures loader == None
    {
      this.artifacts, this.mainClass, this.loader, this.javaMajor := artifacts, mainClass, None, javaMajor;
    }

    /** `retain` with a `seen` set that grows as keys are met. */
    method RetainLibraries(loaderKeys: set<string>)
      modifies this`artifacts
      ensures artifacts == Survivors(old(artifacts), loaderKeys, |old(artifacts)|)
    {
      var seen := loaderKeys;
      var kept: seq<PlannedArtifact> := [];
      for i := 0 to |artifacts|
        invariant artifacts == old(artifacts)
        invariant forall k :: k in seen <==>
                    k in loaderKeys || exists j :: 0 <= j < i && LibraryKey(artifacts[j]) == Some(k)
        invariant kept == Survivors(artifacts, loaderKeys, i)
      {
        var artifact := artifacts[i];
        if artifact.role != Library {
          kept := kept + [artifact];
        } else {
          match ArtifactKey(artifact.path) {
            case None =>
              kept := kept + [artifact];
            case Some(key) =>
              if key !in seen {
                kept := kept + [artifact];
                seen := seen + {key};
              }
          }
        }
      }
      artifacts := kept;
    }

    /** Inserts one by one before the first library, or at the end when there is none. */
    method InsertPlanned(planned: seq<PlannedArtifact>)
      modifies this`artifacts
      ensures artifacts == Spliced(old(artifacts), planned)
    {
      var at := FirstLibrary(artifacts);
      ghost var before, after := artifacts[..at], artifacts[at..];
      assert before + planned[..0] + after == artifacts;
      for offset := 0 to |planned|
        invariant artifacts == before + planned[..offset] + after
      {
        InsertOne(before, planned, after, offset);
        artifacts := artifacts[..at + offset] + [planned[offset]] + artifacts[at + offset..];
      }
      assert planned[..|planned|] == planned;
    }

    static lemma InsertOne(before: seq<PlannedArtifact>, planned: seq<PlannedArtifact>, after: seq<PlannedArtifact>,
                           offset: nat)
      requires offset < |planned|
      ensures var now, k := before + planned[..offset] + after, |before| + offset;
              now[..k] + [planned[offset]] + now[k..] == before + planned[..offset + 1] + after
    {
    }

    method MergeLibraries(seen: set<string>, planned: seq<PlannedArtifact>)
      modifies this`artifacts
      ensures artifacts == Spliced(Survivors(old(artifacts), seen, |old(artifacts)|), planned)
    {
      RetainLibraries(seen);
      InsertPlanned(planned);
    }

    method Apply(profile: LoaderProfile, fetched: seq<Result<string, Error>>, completion: seq<nat>)
      returns (r: Result<seq<LoaderLibrary>, Error>)
      requires |fetched| == |profile.libraries|
      requires forall i :: 0 <= i < |completion| ==> completion[i] < |fetched|
      modifies this
      ensures r.Err? ==>
                artifacts == old(artifacts) && mainClass == old(mainClass) && loader == old(loader)
                && javaMajor == old(javaMajor)
      ensures r.Ok? ==>
                exists planned :: PlannedFrom(planned, r.value)
                  && artifacts == Spliced(Survivors(old(artifacts), LoaderKeys(r.value), |old(artifacts)|), planned)
      ensures r.Ok? <==> forall i :: 0 <= i < |completion| ==>
                           CanBePlanned(profile.libraries[completion[i]], fetched[completion[i]])
      ensures r.Ok? ==> Collected(profile, fetched, completion, r.value)
      ensures r.Ok? ==>
                && mainClass == profile.mainClass
                && loader == Some(LockLoader(profile.kind, profile.loaderVersion, profile.intermediaryVersion))
                && javaMajor >= old(javaMajor)
                && (profile.minJavaVersion.Some? ==> javaMajor >= profile.minJavaVersion.value)
                && (javaMajor == old(javaMajor) || Some(javaMajor) == profile.minJavaVersion)
    {
      var summed := WithChecksums(profile, fetched, completion);
      if summed.Err? {
        return Err(summed.error);
      }
      var libraries := summed.value;
      CollectedPlannable(profile, fetched, completion, libraries);
      var seen := LoaderKeys(libraries);

      var all := PlanAll(libraries);
      if all.Err? {
        return Err(all.error);
      }

      MergeLibraries(seen, all.value);

      Adopt(profile);
      return Ok(libraries);
    }

    /** Takes over what the profile says of the launch itself. */
    method Adopt(profile: LoaderProfile)
      modifies this`mainClass, this`loader, this`javaMajor
      ensures mainClass == profile.mainClass
      ensures loader == Some(LockLoader(profile.kind, profile.loaderVersion, profile.intermediaryVersion))
      ensures javaMajor >= old(javaMajor)
      ensures profile.minJavaVersion.Some? ==> javaMajor >= profile.minJavaVersion.value
      ensures javaMajor == old(javaMajor) || Some(javaMajor) == profile.minJavaVersion
    {
      mainClass := profile.mainClass;
      loader := Some(LockLoader(profile.kind, profile.loaderVersion, profile.intermediaryVersion));
      if profile.minJavaVersion.Some? && profile.minJavaVersion.value > javaMajor {
        javaMajor := profile.minJavaVersion.value;
      }
    }
  }

  // ----- What the merge guarantees -----

  function NonLibraries(artifacts: seq<PlannedArtifact>): seq<PlannedArtifact> {
    Filter(artifacts, IsOther)
  }

  predicate IsOther(artifact: PlannedArtifact) {
    artifact.role != Library
  }

  lemma {:induction false} SurvivorsKeepOthers(artifacts: seq<PlannedArtifact>, loaderKeys: set<string>, n: nat)
    requires n <= |artifacts|
    ensures NonLibraries(Survivors(artifacts, loaderKeys, n)) == NonLibraries(artifacts[..n])
  {
    if n > 0 {
      SurvivorsKeepOthers(artifacts, loaderKeys, n - 1);
      var before, next := Survivors(artifacts, loaderKeys, n - 1), artifacts[n - 1];
      assert artifacts[..n] == artifacts[..n - 1] + [next];
      FilterSnoc(artifacts[..n - 1], next, IsOther);
      FilterSnoc(before, next, IsOther);
    }
  }

  lemma {:induction false} OnlyLibrariesDropped(artifacts: seq<PlannedArtifact>)
    requires forall i :: 0 <= i < |artifacts| ==> artifacts[i].role == Library
    ensures NonLibraries(artifacts) == []
  {
    if artifacts != [] {
      OnlyLibrariesDropped(artifacts[1..]);
    }
  }

  /** Client, natives, assets and the rest all survive the merge, in their order. */
  lemma MergeKeepsOthers(artifacts: seq<PlannedArtifact>, libraries: seq<LoaderLibrary>, planned: seq<PlannedArtifact>)
    requires PlannedFrom(planned, libraries)
    ensures NonLibraries(Spliced(Survivors(artifacts, LoaderKeys(libraries), |artifacts|), planned))
         == NonLibraries(artifacts)
  {
    var kept := Survivors(artifacts, LoaderKeys(libraries), |artifacts|);
    SurvivorsKeepOthers(artifacts, LoaderKeys(libraries), |artifacts|);
    assert artifacts[..|artifacts|] == artifacts;
    forall i | 0 <= i < |planned|
      ensures planned[i].role == Library
    {
      assert PlannedLibrary(libraries[i]) == Ok(planned[i]);
    }
    SplicedKeepsOthers(kept, planned);
  }

  lemma SplicedKeepsOthers(kept: seq<PlannedArtifact>, planned: seq<PlannedArtifact>)
    requires forall i :: 0 <= i < |planned| ==> planned[i].role == Library
    ensures NonLibraries(Spliced(kept, planned)) == NonLibraries(kept)
  {
    var at := FirstLibrary(kept);
    var before, after := kept[..at], kept[at..];
    OnlyLibrariesDropped(planned);
    FilterConcat(before, after, IsOther);
    FilterConcat(before + planned, after, IsOther);
    FilterConcat(before, planned, IsOther);
    assert kept == before + after;
    assert NonLibraries(before) + [] == NonLibraries(before);
  }

  ghost predicate KeysDistinct(artifacts: seq<PlannedArtifact>) {
    forall i, j :: 0 <= i < j < |artifacts| && LibraryKey(artifacts[i]).Some? ==>
      LibraryKey(artifacts[i]) != LibraryKey(artifacts[j])
  }

  lemma {:induction false} SurvivorsKeyed(artifacts: seq<PlannedArtifact>, loaderKeys: set<string>, n: nat)
    requires n <= |artifacts|
    ensures KeysDistinct(Survivors(artifacts, loaderKeys, n))
  {
    if n > 0 {
      SurvivorsKeyed(artifacts, loaderKeys, n - 1);
      if Survives(artifacts, loaderKeys, n - 1) {
        if LibraryKey(artifacts[n - 1]).Some? { SurvivorIsFresh(artifacts, loaderKeys, n - 1); }
        KeysDistinctSnoc(Survivors(artifacts, loaderKeys, n - 1), artifacts[n - 1]);
      }
    }
  }

  /**
   * A vanilla library under the path of its coordinates goes when the loader has one of its key, and when an
   * earlier library of the plan has; if no earlier one does and the loader has none, it stays.
   */
  lemma VanillaReplaced(artifacts: seq<PlannedArtifact>, libraries: seq<LoaderLibrary>, i: nat, c: Coordinates)
    requires i < |artifacts| && artifacts[i].role == Library && c.PathRecoverable()
    requires artifacts[i].path == "libraries/" + c.ToPath()
    ensures Survives(artifacts, LoaderKeys(libraries), i) ==>
              && (forall l :: l in libraries ==> NameKey(l.name) != Some(c.DedupKey()))
              && (forall j :: 0 <= j < i && artifacts[j].role == Library ==>
                    ArtifactKey(artifacts[j].path) != Some(c.DedupKey()))
    ensures && (forall l :: l in libraries ==> NameKey(l.name) != Some(c.DedupKey()))
            && (forall j :: 0 <= j < i && artifacts[j].role == Library ==>
                  ArtifactKey(artifacts[j].path) != Some(c.DedupKey())) ==>
              Survives(artifacts, LoaderKeys(libraries), i)
  {
    KeysAgree(c);
    assert LibraryKey(artifacts[i]) == Some(c.DedupKey());
  }

  lemma SurvivorIsFresh(artifacts: seq<PlannedArtifact>, loaderKeys: set<string>, n: nat)
    requires n < |artifacts| && Survives(artifacts, loaderKeys, n) && LibraryKey(artifacts[n]).Some?
    ensures forall a :: a in Survivors(artifacts, loaderKeys, n) ==> LibraryKey(a) != LibraryKey(artifacts[n])
  {
    SurvivorsFrom(artifacts, loaderKeys, n);
    forall a | a in Survivors(artifacts, loaderKeys, n)
      ensures LibraryKey(a) != LibraryKey(artifacts[n])
    {
      var j :| 0 <= j < n && artifacts[j] == a;
    }
  }

  lemma KeysDistinctSnoc(before: seq<PlannedArtifact>, next: PlannedArtifact)
    requires KeysDistinct(before)
    requires LibraryKey(next).Some? ==> forall a :: a in before ==> LibraryKey(a) != LibraryKey(next)
    ensures KeysDistinct(before + [next])
  {
  }

  lemma {:induction false} SurvivorsFrom(artifacts: seq<PlannedArtifact>, loaderKeys: set<string>, n: nat)
    requires n <= |artifacts|
    ensures forall a :: a in Survivors(artifacts, loaderKeys, n) ==>
              && (exists j :: 0 <= j < n && artifacts[j] == a)
              && (LibraryKey(a).Some? ==> LibraryKey(a).value !in loaderKeys)
  {
    if n > 0 {
      SurvivorsFrom(artifacts, loaderKeys, n - 1);
    }
  }

  /** The coordinates of a loader library that can be keyed back from its path. */
  ghost predicate WellFormedName(library: LoaderLibrary) {
    Parse(library.name).Some? && Parse(library.name).value.PathRecoverable()
  }

  lemma PlannedKey(library: LoaderLibrary, artifact: PlannedArtifact)
    requires WellFormedName(library) && PlannedLibrary(library) == Ok(artifact)
    ensures LibraryKey(artifact) == NameKey(library.name) && LibraryKey(artifact).Some?
  {
    KeysAgree(Parse(library.name).value);
  }

  ghost predicate NameKeysDistinct(libraries: seq<LoaderLibrary>) {
    forall i, j :: 0 <= i < j < |libraries| ==> NameKey(libraries[i].name) != NameKey(libraries[j].name)
  }

  lemma PlannedKeysDistinct(libraries: seq<LoaderLibrary>, planned: seq<PlannedArtifact>)
    requires PlannedFrom(planned, libraries)
    requires forall l :: l in libraries ==> WellFormedName(l)
    ensures KeysDistinct(planned) <==> NameKeysDistinct(libraries)
    ensures forall a :: a in planned ==> LibraryKey(a).Some? && LibraryKey(a).value in LoaderKeys(libraries)
  {
    forall i | 0 <= i < |planned|
      ensures LibraryKey(planned[i]) == NameKey(libraries[i].name) && LibraryKey(planned[i]).Some?
    {
      assert libraries[i] in libraries;
      PlannedKey(libraries[i], planned[i]);
    }
    forall a | a in planned
      ensures LibraryKey(a).Some? && LibraryKey(a).value in LoaderKeys(libraries)
    {
      var i :| 0 <= i < |planned| && planned[i] == a;
      assert libraries[i] in libraries;
    }
  }

  /**
   * After a merge no two libraries share a key exactly when the loader's own libraries had distinct keys:
   * vanilla duplicates are always removed, the loader's own never are.
   */
  lemma MergedKeysDistinct(artifacts: seq<PlannedArtifact>, libraries: seq<LoaderLibrary>,
                           planned: seq<PlannedArtifact>)
    requires PlannedFrom(planned, libraries)
    requires forall l :: l in libraries ==> WellFormedName(l)
    ensures KeysDistinct(Spliced(Survivors(artifacts, LoaderKeys(libraries), |artifacts|), planned))
       <==> NameKeysDistinct(libraries)
  {
    var kept := Survivors(artifacts, LoaderKeys(libraries), |artifacts|);
    SurvivorsKeyed(artifacts, LoaderKeys(libraries), |artifacts|);
    SurvivorsFrom(artifacts, LoaderKeys(libraries), |artifacts|);
    PlannedKeysDistinct(libraries, planned);
    SplicedDistinct(kept, planned);
  }

  lemma SplicedDistinct(kept: seq<PlannedArtifact>, planned: seq<PlannedArtifact>)
    requires KeysDistinct(kept)
    requires forall a, b :: a in kept && b in planned && LibraryKey(a).Some? ==> LibraryKey(a) != LibraryKey(b)
    requires forall b :: b in planned ==> LibraryKey(b).Some?
    ensures KeysDistinct(Spliced(kept, planned)) <==> KeysDistinct(planned)
  {
    var at := FirstLibrary(kept);
    SplicedDistinctAt(kept, planned, Spliced(kept, planned), at);
  }

  lemma SplicedDistinctAt(kept: seq<PlannedArtifact>, planned: seq<PlannedArtifact>, all: seq<PlannedArtifact>, at: nat)
    requires at <= |kept| && all == kept[..at] + planned + kept[at..] && KeysDistinct(kept)
    requires forall a, b :: a in kept && b in planned && LibraryKey(a).Some? ==> LibraryKey(a) != LibraryKey(b)
    requires forall b :: b in planned ==> LibraryKey(b).Some?
    ensures KeysDistinct(all) <==> KeysDistinct(planned)
  {
    if KeysDistinct(all) {
      forall i, j | 0 <= i < j < |planned|
        ensures LibraryKey(planned[i]) != LibraryKey(planned[j])
      {
        assert all[at + i] == planned[i] && all[at + j] == planned[j];
      }
    }
    if KeysDistinct(planned) {
      forall i, j | 0 <= i < j < |all| && LibraryKey(all[i]).Some?
        ensures LibraryKey(all[i]) != LibraryKey(all[j])
      {
        SplicedEntry(kept, planned, all, at, i);
        SplicedEntry(kept, planned, all, at, j);
      }
    }
  }

  /** An entry of a splice comes from one part or the other, at a known place. */
  lemma SplicedEntry(kept: seq<PlannedArtifact>, planned: seq<PlannedArtifact>, all: seq<PlannedArtifact>, at: nat,
                     i: nat)
    requires at <= |kept| && all == kept[..at] + planned + kept[at..] && i < |all|
    ensures if at <= i < at + |planned| then all[i] == planned[i - at] && all[i] in planned
            else all[i] == kept[if i < at then i else i - |planned|] && all[i] in kept
  {
  }
}
