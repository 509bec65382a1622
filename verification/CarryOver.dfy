/** Carrying a player's files over from another launcher's instance: a recursive copy that overlays a tree. */
module CarryOver {
  import opened Prelude

  type Path = seq<string>

  datatype Node = File(bytes: Bytes) | Dir | Symlink | Special

  type Tree = map<Path, Node>

  datatype Carried = Carried(files: nat, bytes: nat)

  /** Top-level names the launcher manages itself and therefore does not take over. */
  const MANAGED: set<string> := {"assets", "libraries", "versions", "natives", "bin", ".fabric", "logs"}

  const REPORT_EVERY: nat := 200

  predicate IsPlain(node: Node) {
    node.File? || node.Dir?
  }

  function Parent(p: Path): Path
    requires p != []
  {
    p[..|p| - 1]
  }

  /** Every entry lies in a directory, up to the root. */
  ghost predicate TreeSound(t: Tree) {
    && [] in t && t[[]].Dir?
    && forall p {:trigger Parent(p)} :: p in t && p != [] ==> Parent(p) in t && t[Parent(p)].Dir?
  }

  predicate Apart(a: Path, b: Path) {
    !(a <= b) && !(b <= a)
  }

  /** Listing the directories from `from` down to `p` loses no entry on the way. */
  ghost predicate Listed(lost: set<Path>, from: Path, p: Path) {
    forall n :: |from| < n <= |p| ==> p[..n] !in lost
  }

  /** What a copy of `from` takes: files and directories, but no symlink, no special file and nothing lost. */
  ghost function PlainSet(t: Tree, from: Path, lost: set<Path>): set<Path> {
    set p | p in t && from <= p && IsPlain(t[p]) && Listed(lost, from, p)
  }

  /** Where a destination path comes from. */
  function Src(q: Path, from: Path, into: Path): Path
    requires into <= q
  {
    from + q[|into|..]
  }

  ghost predicate SameAt(before: Tree, after: Tree, q: Path) {
    (q in after <==> q in before) && (q in before ==> after[q] == before[q])
  }

  ghost predicate GraftedAt(before: Tree, after: Tree, from: Path, into: Path, copied: set<Path>, q: Path)
    requires copied <= before.Keys
  {
    if into <= q && Src(q, from, into) in copied
    then q in after && after[q] == before[Src(q, from, into)]
    else SameAt(before, after, q)
  }

  /** `after` is `before` with the source paths `copied` laid over `into`, and nothing else changed. */
  ghost predicate Grafted(before: Tree, after: Tree, from: Path, into: Path, copied: set<Path>)
    requires copied <= before.Keys
  {
    forall q :: GraftedAt(before, after, from, into, copied, q)
  }

  ghost predicate SameOutside(before: Tree, after: Tree, into: Path) {
    forall q :: !(into <= q) ==> SameAt(before, after, q)
  }

  ghost predicate SameUnder(before: Tree, after: Tree, from: Path) {
    forall p :: from <= p ==> SameAt(before, after, p)
  }

  ghost predicate SameElsewhere(before: Tree, after: Tree, into: Path) {
    forall q :: !(into <= q) && !(q <= into) ==> SameAt(before, after, q)
  }

  /** Nothing changed but that missing ancestors of `into`, and itself, may have appeared. */
  ghost predicate OnlyAncestorsMade(before: Tree, after: Tree, into: Path) {
    forall q :: !(q <= into) || q in before ==> SameAt(before, after, q)
  }

  lemma GraftedSameOutside(before: Tree, after: Tree, from: Path, into: Path, copied: set<Path>)
    requires copied <= before.Keys && Grafted(before, after, from, into, copied)
    ensures SameOutside(before, after, into)
  {
    forall q | !(into <= q)
      ensures SameAt(before, after, q)
    {
      assert GraftedAt(before, after, from, into, copied, q);
    }
  }

  /** What lies under the source is not under the destination, so writing there leaves it alone. */
  lemma SourceKept(before: Tree, after: Tree, from: Path, into: Path)
    requires Apart(from, into) && SameOutside(before, after, into)
    ensures SameUnder(before, after, from)
  {
  }

  // ----- Counting what was carried -----

  function Size(node: Node): Carried {
    if node.File? then Carried(1, |node.bytes|) else Carried(0, 0)
  }

  function Plus(a: Carried, b: Carried): Carried {
    Carried(a.files + b.files, a.bytes + b.bytes)
  }

  function Length(t: Tree, p: Path): nat {
    if p in t && t[p].File? then |t[p].bytes| else 0
  }

  ghost function Sum(t: Tree, ps: set<Path>): nat {
    if ps == {} then 0
    else
      var p :| p in ps;
      Length(t, p) + Sum(t, ps - {p})
  }

  ghost function Files(t: Tree, ps: set<Path>): set<Path> {
    set p | p in ps && p in t && t[p].File?
  }

  /** The number and total length of the regular files among some paths. */
  ghost function Tally(t: Tree, ps: set<Path>): Carried {
    Carried(|Files(t, ps)|, Sum(t, ps))
  }

  lemma {:induction false} SumInsert(t: Tree, ps: set<Path>, p: Path)
    requires p !in ps
    ensures Sum(t, ps + {p}) == Sum(t, ps) + Length(t, p)
  {
    var all := ps + {p};
    var q :| q in all && Sum(t, all) == Length(t, q) + Sum(t, all - {q});
    if q == p {
      assert all - {q} == ps;
    } else {
      SumInsert(t, ps - {q}, p);
      assert all - {q} == (ps - {q}) + {p};
      SumInsert(t, ps - {q}, q);
      assert (ps - {q}) + {q} == ps;
    }
  }

  lemma {:induction false} SumUnion(t: Tree, a: set<Path>, b: set<Path>)
    requires a !! b
    ensures Sum(t, a + b) == Sum(t, a) + Sum(t, b)
  {
    if b == {} {
      assert a + b == a;
    } else {
      var p :| p in b;
      var rest := b - {p};
      SumUnion(t, a, rest);
      SumInsert(t, a + rest, p);
      SumInsert(t, rest, p);
      assert a + rest + {p} == a + b && rest + {p} == b;
    }
  }

  lemma {:induction false} SumSame(t: Tree, u: Tree, ps: set<Path>)
    requires forall p :: p in ps ==> Length(t, p) == Length(u, p)
    ensures Sum(t, ps) == Sum(u, ps)
  {
    if ps != {} {
      var p :| p in ps;
      SumSame(t, u, ps - {p});
      assert (ps - {p}) + {p} == ps;
      SumInsert(t, ps - {p}, p);
      SumInsert(u, ps - {p}, p);
    }
  }

  lemma TallyParts(t: Tree, a: set<Path>, b: set<Path>, both: set<Path>)
    requires Sum(t, both) == Sum(t, a) + Sum(t, b)
    requires |Files(t, both)| == |Files(t, a)| + |Files(t, b)|
    ensures Tally(t, both) == Plus(Tally(t, a), Tally(t, b))
  {
  }

  lemma TallyUnion(t: Tree, a: set<Path>, b: set<Path>, both: set<Path>)
    requires a !! b && both == a + b
    ensures Tally(t, both) == Plus(Tally(t, a), Tally(t, b))
  {
    SumUnion(t, a, b);
    FilesUnion(t, a, b);
    TallyParts(t, a, b, both);
  }

  lemma FilesUnion(t: Tree, a: set<Path>, b: set<Path>)
    requires a !! b
    ensures |Files(t, a + b)| == |Files(t, a)| + |Files(t, b)|
  {
    assert Files(t, a + b) == Files(t, a) + Files(t, b);
    assert Files(t, a) !! Files(t, b);
  }

  lemma TallySame(t: Tree, u: Tree, ps: set<Path>)
    requires ps <= t.Keys && ps <= u.Keys && forall p :: p in ps ==> t[p] == u[p]
    ensures Tally(t, ps) == Tally(u, ps)
  {
    SumSame(t, u, ps);
    assert Files(t, ps) == Files(u, ps);
  }

  lemma TallyOne(t: Tree, p: Path)
    requires p in t
    ensures Tally(t, {p}) == Size(t[p])
  {
    SumInsert(t, {}, p);
    assert {} + {p} == {p};
    assert Files(t, {p}) == if t[p].File? then {p} else {};
  }

  lemma PlusRegroups(a: Carried, b: Carried, c: Carried)
    ensures Plus(Plus(a, b), c) == Plus(a, Plus(b, c))
  {
  }

  // ----- Composing copies -----

  /** Copying one more child of a directory extends the graft. */
  lemma GraftChild(t0: Tree, t1: Tree, t2: Tree, from: Path, into: Path, name: string,
                   done: set<Path>, more: set<Path>)
    requires done + more <= t0.Keys && more <= t1.Keys
    requires forall p :: p in more ==> from + [name] <= p && t1[p] == t0[p]
    requires Grafted(t0, t1, from, into, done)
    requires Grafted(t1, t2, from + [name], into + [name], more)
    ensures Grafted(t0, t2, from, into, done + more)
  {
    forall q
      ensures GraftedAt(t0, t2, from, into, done + more, q)
    {
      assert GraftedAt(t0, t1, from, into, done, q);
      assert GraftedAt(t1, t2, from + [name], into + [name], more, q);
      ExtendedPrefix(into, name, q);
      if into <= q {
        ChildSrc(from, into, name, q);
      }
    }
  }

  lemma ExtendedPrefix(p: Path, name: string, q: Path)
    ensures p + [name] <= q ==> p <= q && p != q
  {
  }

  lemma ChildSrc(from: Path, into: Path, name: string, q: Path)
    requires into <= q
    ensures from + [name] <= Src(q, from, into) <==> into + [name] <= q
    ensures into + [name] <= q ==> Src(q, from + [name], into + [name]) == Src(q, from, into)
  {
    var p := Src(q, from, into);
    if into + [name] <= q {
      assert q[|into|] == name;
      assert p == from + [name] + q[|into| + 1..];
    }
    if from + [name] <= p {
      assert p[|from|] == name == q[|into|];
      assert q == into + [name] + q[|into| + 1..];
    }
  }

  lemma PrefixOfExtended(a: Path, b: Path, name: string)
    requires a + [name] <= b + [name]
    ensures a <= b
  {
    assert (b + [name])[..|a|] == a;
    assert b[..|a|] == a;
  }

  lemma ApartChildren(from: Path, into: Path, name: string)
    requires Apart(from, into)
    ensures Apart(from + [name], into + [name])
  {
    if from + [name] <= into + [name] { PrefixOfExtended(from, into, name); }
    if into + [name] <= from + [name] { PrefixOfExtended(into, from, name); }
  }

  /** The names listed in a directory. */
  function Children(t: Tree, dir: Path): set<string> {
    set p | p in t && |p| == |dir| + 1 && dir <= p :: p[|dir|]
  }

  lemma {:induction false} DescendantsHaveChild(t: Tree, dir: Path, p: Path)
    requires TreeSound(t) && p in t && dir <= p && p != dir
    ensures p[|dir|] in Children(t, dir)
    decreases |p|
  {
    if |p| == |dir| + 1 {
    } else {
      var up := Parent(p);
      assert dir <= up && up != dir && up[|dir|] == p[|dir|];
      DescendantsHaveChild(t, dir, up);
    }
  }

  /** Below a file, a link or a special file there is nothing. */
  lemma {:induction false} LeafAlone(t: Tree, leaf: Path, p: Path)
    requires TreeSound(t) && leaf in t && !t[leaf].Dir? && p in t && leaf <= p
    ensures p == leaf
    decreases |p|
  {
    if p != leaf {
      LeafAlone(t, leaf, Parent(p));
    }
  }

  predicate Grows(a: Carried, b: Carried) {
    a.files <= b.files && a.bytes <= b.bytes
  }

  /** There has been a report for every two hundred files, and none else. */
  ghost predicate Paced(reports: seq<Carried>, now: Carried) {
    |reports| == now.files / 200 && forall i :: 0 <= i < |reports| ==> reports[i].files == 200 * (i + 1)
  }

  ghost predicate Monotone(reports: seq<Carried>, now: Carried) {
    && (forall i, j :: 0 <= i < j < |reports| ==> Grows(reports[i], reports[j]))
    && (forall i :: 0 <= i < |reports| ==> Grows(reports[i], now))
  }

  /** The parent of a path that is about to be created is there. */
  ghost predicate ParentReady(t: Tree, p: Path) {
    p != [] && Parent(p) in t && t[Parent(p)].Dir?
  }

  /** No path is longer than the system allows. */
  ghost predicate WithinLimit(t: Tree, limit: nat) {
    forall p :: p in t ==> |p| <= limit
  }

  lemma SetFileSound(t: Tree, p: Path, bytes: Bytes)
    requires TreeSound(t) && ParentReady(t, p) && (p in t ==> !t[p].Dir?)
    ensures TreeSound(t[p := File(bytes)])
  {
  }

  lemma SetDirSound(t: Tree, p: Path)
    requires TreeSound(t) && ParentReady(t, p)
    ensures TreeSound(t[p := Dir])
  {
  }

  /** Replacing the one destination path by the one source node is a graft of that node. */
  lemma OneGrafts(before: Tree, after: Tree, from: Path, into: Path)
    requires from in before && after == before[into := before[from]]
    ensures {from} <= before.Keys && Grafted(before, after, from, into, {from})
    ensures Tally(before, {from}) == Size(before[from])
  {
    forall q
      ensures GraftedAt(before, after, from, into, {from}, q)
    {
      if into <= q {
        assert |Src(q, from, into)| == |from| + |q| - |into|;
        assert Src(q, from, into) == from <==> q == into;
      }
    }
    TallyOne(before, from);
  }

  /** The names a listing of the directory shows. */
  function Listing(t: Tree, dir: Path, lost: set<Path>): set<string> {
    set name | name in Children(t, dir) && dir + [name] !in lost
  }

  /** The descendants of a directory that a copy takes when it is given some of the directory's names. */
  ghost function Taken(t: Tree, dir: Path, names: set<string>, lost: set<Path>): set<Path> {
    set p | p in PlainSet(t, dir, lost) && p != dir && p[|dir|] in names
  }

  lemma ListedChild(t: Tree, dir: Path, lost: set<Path>, p: Path)
    requires TreeSound(t) && p in PlainSet(t, dir, lost) && p != dir
    ensures p[|dir|] in Listing(t, dir, lost)
  {
    DescendantsHaveChild(t, dir, p);
    assert p[..|dir| + 1] == dir + [p[|dir|]];
  }

  lemma DirTakes(t: Tree, dir: Path, lost: set<Path>)
    requires TreeSound(t) && dir in t && t[dir].Dir?
    ensures PlainSet(t, dir, lost) == {dir} + Taken(t, dir, Listing(t, dir, lost), lost)
  {
    forall p | p in PlainSet(t, dir, lost) && p != dir
      ensures p[|dir|] in Listing(t, dir, lost)
    {
      ListedChild(t, dir, lost, p);
    }
  }

  lemma LeafTakes(t: Tree, leaf: Path, lost: set<Path>)
    requires TreeSound(t) && leaf in t && !t[leaf].Dir?
    ensures PlainSet(t, leaf, lost) == if IsPlain(t[leaf]) then {leaf} else {}
  {
    forall p | p in t && leaf <= p
      ensures p == leaf
    {
      LeafAlone(t, leaf, p);
    }
  }

  /** What a carry-over is to take: everything plain below the source but the managed top-level entries. */
  ghost function Wanted(t: Tree, from: Path, lost: set<Path>): set<Path> {
    set p | p in PlainSet(t, from, lost) && p != from && p[|from|] !in MANAGED
  }

  lemma WantedIsTaken(t: Tree, from: Path, lost: set<Path>)
    requires TreeSound(t)
    ensures Wanted(t, from, lost) == Taken(t, from, Listing(t, from, lost) - MANAGED, lost)
  {
    forall p | p in PlainSet(t, from, lost) && p != from
      ensures p[|from|] in Listing(t, from, lost)
    {
      ListedChild(t, from, lost, p);
    }
  }

  /** What is already at the place a source path will be copied to is of the same kind. */
  ghost predicate FitsAt(t: Tree, from: Path, into: Path, p: Path)
    requires p in t && from <= p
  {
    var q := into + p[|from|..];
    q in t ==> t[q].File? == t[p].File? && t[q].Dir? == t[p].Dir?
  }

  ghost predicate Fits(t: Tree, from: Path, into: Path, ps: set<Path>) {
    forall p :: p in ps ==> p in t && from <= p && FitsAt(t, from, into, p)
  }

  /** Nothing but directories is in the way of creating `into`. */
  ghost predicate WayClear(t: Tree, into: Path) {
    forall q :: q <= into && q in t ==> t[q].Dir?
  }

  ghost predicate CanCopy(t: Tree, from: Path, into: Path, lost: set<Path>) {
    from in t && Fits(t, from, into, PlainSet(t, from, lost))
  }

  ghost predicate CanCarry(t: Tree, from: Path, into: Path, lost: set<Path>) {
    WayClear(t, into) && Fits(t, from, into, Wanted(t, from, lost))
  }

  lemma FitsHere(t: Tree, from: Path, into: Path, lost: set<Path>)
    requires from in t && IsPlain(t[from])
    ensures Fits(t, from, into, PlainSet(t, from, lost)) && into in t ==>
              t[into].File? == t[from].File? && t[into].Dir? == t[from].Dir?
  {
    assert into + from[|from|..] == into;
    if Fits(t, from, into, PlainSet(t, from, lost)) {
      assert FitsAt(t, from, into, from);
    }
  }

  lemma FitsSome(t: Tree, from: Path, into: Path, all: set<Path>, some: set<Path>)
    requires some <= all
    ensures Fits(t, from, into, all) ==> Fits(t, from, into, some)
  {
  }

  /** Below a listed child, what is listed from there is what is listed from its directory. */
  lemma ListedBelow(lost: set<Path>, dir: Path, name: string, p: Path)
    requires dir + [name] !in lost && dir + [name] <= p
    ensures dir <= p && p != dir && p[|dir|] == name
    ensures Listed(lost, dir, p) <==> Listed(lost, dir + [name], p)
  {
    ExtendedPrefix(dir, name, p);
    assert p[..|dir| + 1] == dir + [name];
  }

  lemma NamedTakes(t: Tree, dir: Path, names: set<string>, name: string, lost: set<Path>)
    requires name in names && dir + [name] !in lost
    ensures PlainSet(t, dir + [name], lost) <= Taken(t, dir, names, lost)
  {
    forall p | p in t && dir + [name] <= p
      ensures dir <= p && p != dir && p[|dir|] == name
      ensures Listed(lost, dir, p) <==> Listed(lost, dir + [name], p)
    {
      ListedBelow(lost, dir, name, p);
    }
  }

  lemma ChildrenSame(before: Tree, after: Tree, dir: Path)
    requires SameUnder(before, after, dir)
    ensures Children(before, dir) == Children(after, dir)
  {
    forall p
      ensures p in before && dir <= p <==> p in after && dir <= p
    {
      if dir <= p { assert SameAt(before, after, p); }
    }
  }

  /** Taking one more name takes that child's whole plain subtree. */
  lemma TakenOneMore(t: Tree, dir: Path, names: set<string>, name: string, lost: set<Path>)
    requires name !in names && dir + [name] !in lost
    ensures Taken(t, dir, names + {name}, lost) == Taken(t, dir, names, lost) + PlainSet(t, dir + [name], lost)
    ensures Taken(t, dir, names, lost) !! PlainSet(t, dir + [name], lost)
  {
    forall p
      ensures p in Taken(t, dir, {name}, lost) <==> p in PlainSet(t, dir + [name], lost)
    {
      if dir <= p && p != dir && p[|dir|] == name {
        assert p[..|dir| + 1] == dir + [name];
        ListedBelow(lost, dir, name, p);
      } else {
        assert !(dir + [name] <= p) by { if dir + [name] <= p { ListedBelow(lost, dir, name, p); } }
      }
    }
    assert Taken(t, dir, names + {name}, lost) == Taken(t, dir, names, lost) + Taken(t, dir, {name}, lost);
    assert Taken(t, dir, {name}, lost) == PlainSet(t, dir + [name], lost);
  }

  /** The copy of a directory's entries: where it starts from, and whether the directory itself counts as taken. */
  datatype Errand = Errand(start: Tree, from: Path, into: Path, base: set<Path>, lost: set<Path>)
  {
    /** What is taken once some of the names are done. */
    ghost function Copied(names: set<string>): set<Path> {
      base + Taken(start, from, names, lost)
    }

    ghost predicate Sound() {
      base <= {from} && base <= start.Keys
    }

    lemma OneMore(names: set<string>, name: string)
      requires Sound() && name !in names && from + [name] !in lost
      ensures Copied(names + {name}) == Copied(names) + PlainSet(start, from + [name], lost)
      ensures Copied(names) !! PlainSet(start, from + [name], lost)
    {
      TakenOneMore(start, from, names, name, lost);
      forall p | p in PlainSet(start, from + [name], lost)
        ensures p != from
      {
        assert from + [name] <= p;
      }
    }
  }

  /** A child's copy finds its destination as it was at the start: the other children went elsewhere. */
  lemma FitsChild(errand: Errand, now: Tree, done: set<string>, name: string)
    requires errand.Sound() && name !in done && Apart(errand.from, errand.into)
    requires errand.from + [name] !in errand.lost && errand.Copied(done) <= errand.start.Keys
    requires Grafted(errand.start, now, errand.from, errand.into, errand.Copied(done))
    ensures Fits(errand.start, errand.from, errand.into, PlainSet(errand.start, errand.from + [name], errand.lost)) ==>
              Fits(now, errand.from + [name], errand.into + [name], PlainSet(now, errand.from + [name], errand.lost))
    ensures name in Children(errand.start, errand.from) ==> errand.from + [name] in now
  {
    var start, from, into := errand.start, errand.from, errand.into;
    GraftedSameOutside(start, now, from, into, errand.Copied(done));
    SourceKept(start, now, from, into);
    errand.OneMore(done, name);
    if name in Children(start, from) {
      var p :| p in start && |p| == |from| + 1 && from <= p && p[|from|] == name;
      assert p == from + [name];
      assert SameAt(start, now, p);
    }
    if Fits(start, from, into, PlainSet(start, from + [name], errand.lost)) {
      forall p | p in PlainSet(now, from + [name], errand.lost)
        ensures FitsAt(now, from + [name], into + [name], p)
      {
        ExtendedPrefix(from, name, p);
        assert SameAt(start, now, p);
        assert FitsAt(start, from, into, p);
        var q := into + p[|from|..];
        ChildDestination(from, into, name, p);
        assert Src(q, from, into) == p && p !in errand.Copied(done);
        assert GraftedAt(start, now, from, into, errand.Copied(done), q);
      }
    }
  }

  lemma ChildDestination(from: Path, into: Path, name: string, p: Path)
    requires from + [name] <= p
    ensures from <= p && p != from && p[|from|] == name
    ensures into + p[|from|..] == (into + [name]) + p[|from + [name]|..]
    ensures Src(into + p[|from|..], from, into) == p
  {
    ExtendedPrefix(from, name, p);
    assert p[|from|..] == [name] + p[|from| + 1..];
  }

  /** The destination lies strictly inside the source. */
  predicate Inside(from: Path, into: Path) {
    from <= into && from != into
  }

  /** Some entry below the path is lost. */
  ghost predicate LosesBelow(lost: set<Path>, from: Path) {
    exists p :: p in lost && from <= p && p != from
  }

  lemma LosesAbove(lost: set<Path>, from: Path, name: string)
    requires from + [name] in lost || LosesBelow(lost, from + [name])
    ensures LosesBelow(lost, from)
  {
    var p :| p in lost && from + [name] <= p;
    ExtendedPrefix(from, name, p);
  }

  /** The destination lies in an unmanaged entry the source already has. */
  ghost predicate IntoItself(t: Tree, from: Path, into: Path) {
    Inside(from, into) && into[|from|] in Children(t, from) - MANAGED
  }

  lemma {:induction false} AncestorThere(t: Tree, from: Path, p: Path)
    requires TreeSound(t) && p in t && from <= p
    ensures from in t && (t[p].Dir? ==> t[from].Dir?)
    decreases |p|
  {
    if p != from {
      AncestorThere(t, from, Parent(p));
    }
  }

  /** A source with the destination inside is a directory that lists a name on the way there. */
  lemma InsideIsListed(t: Tree, from: Path, into: Path)
    requires TreeSound(t) && ParentReady(t, into) && Inside(from, into)
    ensures from in t && t[from].Dir? && into[|from|] in Children(t[into := Dir], from)
    ensures from + [into[|from|]] <= into
  {
    var parent, child := Parent(into), into[..|from| + 1];
    AncestorThere(t, from, parent);
    SetDirSound(t, into);
    AncestorThere(t[into := Dir], child, into);
    assert child == from + [into[|from|]];
  }

  /** `lost` says in advance which entries the listings of their directories silently leave out. */
  class FileTree {
    const limit: nat
    const lost: set<Path>
    var nodes: Tree
    var carried: Carried
    var reports: seq<Carried>
    ghost var faults: nat

    constructor (nodes: Tree, limit: nat, lost: set<Path>)
      ensures this.nodes == nodes && this.limit == limit && this.lost == lost
      ensures carried == Carried(0, 0) && reports == [] && faults == 0
    {
      this.nodes, this.limit, this.lost, carried, reports, faults := nodes, limit, lost, Carried(0, 0), [], 0;
    }

    /** One file operation, which may fail; failures are counted. */
    method Try() returns (ok: bool)
      modifies this`faults
      ensures faults == old(faults) + if ok then 0 else 1
    {
      ok := *;
      faults := faults + if ok then 0 else 1;
    }

    ghost predicate Sized()
      reads this
    {
      TreeSound(nodes) && WithinLimit(nodes, limit)
    }

    ghost predicate Valid()
      reads this
    {
      Sized() && Monotone(reports, carried) && Paced(reports, carried)
    }

    ghost predicate IsDir(p: Path)
      reads this
    {
      p in nodes && nodes[p].Dir?
    }

    /** How an errand's progress matches the tree and the totals. */
    ghost predicate Stands(errand: Errand, done: set<string>, carried0: Carried)
      reads this
    {
      && errand.Sound() && errand.lost == lost && errand.Copied(done) <= errand.start.Keys
      && Grafted(errand.start, nodes, errand.from, errand.into, errand.Copied(done))
      && carried == Plus(carried0, Tally(errand.start, errand.Copied(done)))
    }

    /** Creating something at a path that is too long fails like any other operation. */
    method TryAt(p: Path) returns (ok: bool)
      modifies this`faults
      ensures faults == old(faults) + if ok then 0 else 1
      ensures ok ==> |p| <= limit
    {
      ok := *;
      ok := ok && |p| <= limit;
      faults := faults + if ok then 0 else 1;
    }

    method CreateDir(p: Path) returns (ok: bool)
      requires Sized() && ParentReady(nodes, p)
      modifies this`nodes, this`faults
      ensures faults >= old(faults)
      ensures !ok ==> faults > old(faults) || (p in nodes && !nodes[p].Dir?)
      ensures Sized()
      ensures ok ==> nodes == old(nodes)[p := Dir] && (p in old(nodes) ==> old(nodes)[p].Dir?)
      ensures !ok ==> nodes == old(nodes)
    {
      if p in nodes && !nodes[p].Dir? {
        return false;
      }
      ok := TryAt(p);
      if ok {
        SetDirSound(nodes, p);
        nodes := nodes[p := Dir];
      }
    }

    /**
     * Copies a file's bytes, whole or in part, over nothing or over another file. A file copied onto itself is
     * truncated before it is read.
     */
    method CopyFile(from: Path, into: Path) returns (ok: bool)
      requires Valid() && from in nodes && nodes[from].File?
      requires ParentReady(nodes, into)
      modifies this
      ensures Valid()
      ensures ok ==> nodes == old(nodes)[into := if from == into then File([]) else old(nodes)[from]]
                     && (into in old(nodes) ==> !old(nodes)[into].Dir?)
      ensures ok ==> carried == Plus(old(carried), Size(old(nodes)[from]))
      ensures faults >= old(faults)
      ensures !ok ==> faults > old(faults) || (into in old(nodes) && !old(nodes)[into].File?)
      ensures !ok ==> SameOutside(old(nodes), nodes, into)
    {
      if into in nodes && !nodes[into].File? {
        return false;
      }
      ok := TryAt(into);
      if !ok {
        var partial: Option<Bytes> :| true;
        if partial.Some? && |into| <= limit {
          SetFileSound(nodes, into, partial.value);
          nodes := nodes[into := File(partial.value)];
        }
        return;
      }
      var size, bytes := |nodes[from].bytes|, if from == into then [] else nodes[from].bytes;
      SetFileSound(nodes, into, bytes);
      nodes := nodes[into := File(bytes)];
      Count(size);
    }

    /** Counts one copied file, and reports every so often. */
    method Count(size: nat)
      requires Monotone(reports, carried) && Paced(reports, carried)
      modifies this`carried, this`reports
      ensures Monotone(reports, carried) && Paced(reports, carried)
      ensures carried == Plus(old(carried), Carried(1, size))
    {
      carried := Carried(carried.files + 1, carried.bytes + size);
      if carried.files % REPORT_EVERY == 0 {
        Report();
      }
    }

    method Report()
      requires Monotone(reports, carried)
      modifies this`reports
      ensures Monotone(reports, carried) && reports == old(reports) + [carried]
    {
      reports := reports + [carried];
    }

    /** Copies what is at `from` to `into`. A copy into the source itself has no end unless a listing loses it. */
    method CopyTree(from: Path, into: Path) returns (ok: bool)
      requires Valid() && ParentReady(nodes, into) && |from| <= limit + 1
      modifies this
      ensures Valid() && SameOutside(old(nodes), nodes, into) && faults >= old(faults)
      ensures Apart(from, into) && ok ==>
                && Grafted(old(nodes), nodes, from, into, PlainSet(old(nodes), from, lost))
                && carried == Plus(old(carried), Tally(old(nodes), PlainSet(old(nodes), from, lost)))
      ensures Apart(from, into) && !ok && CanCopy(old(nodes), from, into, lost) ==> faults > old(faults)
      ensures Inside(from, into) && ok ==> LosesBelow(lost, from)
      decreases limit + 1 - |from|, 1
    {
      if Inside(from, into) { InsideIsListed(nodes, from, into); }
      var statOk := Try();
      if from !in nodes || !statOk {
        return false;
      }
      var node := nodes[from];
      if node.File? {
        ok := CopyFile(from, into);
        if Apart(from, into) {
          FitsHere(old(nodes), from, into, lost);
          if ok { FileCopied(old(nodes), nodes, from, into, lost); }
        }
        return;
      }
      if !node.Dir? {
        LeafTakes(nodes, from, lost);
        NothingGrafts(nodes, from, into, {}, carried);
        return true;
      }
      ok := CopyDir(from, into);
    }

    static lemma FileCopied(before: Tree, after: Tree, from: Path, into: Path, lost: set<Path>)
      requires TreeSound(before) && from in before && before[from].File? && after == before[into := before[from]]
      ensures PlainSet(before, from, lost) == {from} && Grafted(before, after, from, into, {from})
      ensures Tally(before, {from}) == Size(before[from]) && SameOutside(before, after, into)
    {
      OneGrafts(before, after, from, into);
      LeafTakes(before, from, lost);
      GraftedSameOutside(before, after, from, into, {from});
    }

    method CopyDir(from: Path, into: Path) returns (ok: bool)
      requires Valid() && ParentReady(nodes, into) && IsDir(from)
      modifies this
      ensures Valid() && SameOutside(old(nodes), nodes, into) && faults >= old(faults)
      ensures Apart(from, into) && ok ==>
                && Grafted(old(nodes), nodes, from, into, PlainSet(old(nodes), from, lost))
                && carried == Plus(old(carried), Tally(old(nodes), PlainSet(old(nodes), from, lost)))
      ensures Apart(from, into) && !ok && CanCopy(old(nodes), from, into, lost) ==> faults > old(faults)
      ensures Inside(from, into) && ok ==> LosesBelow(lost, from)
      decreases limit + 1 - |from|, 0, 3
    {
      ghost var start := nodes;
      if Apart(from, into) { FitsHere(start, from, into, lost); }
      if Inside(from, into) { InsideIsListed(start, from, into); }
      ok := CreateDir(into);
      if !ok {
        return;
      }
      ok := CopyEntries(from, into, start);
    }

    /** Lists a directory whose destination has just been made, and copies its entries there. */
    method CopyEntries(from: Path, into: Path, ghost start: Tree) returns (ok: bool)
      requires Valid() && IsDir(into) && |from| <= limit && nodes == start[into := Dir]
      requires TreeSound(start) && from in start && start[from].Dir?
      modifies this
      ensures Valid() && SameOutside(start, nodes, into) && faults >= old(faults)
      ensures Apart(from, into) && ok ==>
                && Grafted(start, nodes, from, into, PlainSet(start, from, lost))
                && carried == Plus(old(carried), Tally(start, PlainSet(start, from, lost)))
      ensures Apart(from, into) && !ok && CanCopy(start, from, into, lost) ==> faults > old(faults)
      ensures Inside(from, into) && into[|from|] in Children(start[into := Dir], from) && ok ==> LosesBelow(lost, from)
      decreases limit + 1 - |from|, 0, 2
    {
      ghost var errand := Errand(start, from, into, {from}, lost);
      DirMade(start, into);
      if Apart(from, into) {
        DirReady(start, nodes, from, into, lost, carried);
        DirListed(start, from, into, lost);
      }
      var names := List(from);
      if names.None? {
        return false;
      }
      if Inside(from, into) && into[|from|] !in names.value && into[|from|] in Children(nodes, from) {
        LosesAbove(lost, from, into[|from|]);
      }
      ok := CopyNamed(from, into, names.value, errand, carried);
    }

    static lemma DirMade(start: Tree, into: Path)
      ensures SameOutside(start, start[into := Dir], into)
    {
    }

    /** What the listed names of a directory contribute to its copy. */
    static lemma DirListed(start: Tree, from: Path, into: Path, lost: set<Path>)
      requires TreeSound(start) && from in start && start[from].Dir?
      ensures var names := Listing(start, from, lost);
              && Errand(start, from, into, {from}, lost).Copied(names) == PlainSet(start, from, lost)
              && (Fits(start, from, into, PlainSet(start, from, lost)) ==>
                    Fits(start, from, into, Taken(start, from, names, lost)))
    {
      DirTakes(start, from, lost);
    }

    /** Where a directory's copy stands once its destination directory exists. */
    static lemma DirReady(start: Tree, now: Tree, from: Path, into: Path, lost: set<Path>, c: Carried)
      requires TreeSound(start) && from in start && start[from].Dir? && now == start[into := Dir] && Apart(from, into)
      ensures Children(now, from) == Children(start, from)
      ensures Errand(start, from, into, {from}, lost).Copied({}) == {from}
      ensures Grafted(start, now, from, into, {from}) && Plus(c, Tally(start, {from})) == c
    {
      OneGrafts(start, now, from, into);
      GraftedSameOutside(start, now, from, into, {from});
      ChildrenKept(start, now, from, into);
    }

    static lemma ChildrenKept(before: Tree, after: Tree, from: Path, into: Path)
      requires Apart(from, into) && SameOutside(before, after, into)
      ensures Children(before, from) == Children(after, from)
    {
      SourceKept(before, after, from, into);
      ChildrenSame(before, after, from);
    }

    /** Lists a directory; an entry that cannot be read is left out without an error. */
    method List(dir: Path) returns (names: Option<set<string>>)
      modifies this`faults
      ensures faults == old(faults) + if names.Some? then 0 else 1
      ensures names.Some? ==> names.value == Listing(nodes, dir, lost)
    {
      var readable := Try();
      names := if readable then Some(Listing(nodes, dir, lost)) else None;
    }

    /** Copies the named entries of a directory one by one. */
    method CopyNamed(from: Path, into: Path, names: set<string>, ghost errand: Errand, ghost carried0: Carried)
      returns (ok: bool)
      requires Valid() && IsDir(into) && |from| <= limit
      requires errand.from == from && errand.into == into && SameOutside(errand.start, nodes, into)
      requires Apart(from, into) ==> Stands(errand, {}, carried0) && names <= Listing(errand.start, from, lost)
      modifies this
      ensures Valid() && SameOutside(errand.start, nodes, into) && faults >= old(faults)
      ensures Apart(from, into) && ok ==> Stands(errand, names, carried0)
      ensures Apart(from, into) && !ok && Fits(errand.start, from, into, Taken(errand.start, from, names, lost)) ==>
                faults > old(faults)
      ensures Inside(from, into) && into[|from|] in names && ok ==> LosesBelow(lost, from)
      decreases limit + 1 - |from|, 0, 1
    {
      var left := names;
      assert names - left == {};
      while left != {}
        invariant left <= names
        invariant Valid() && IsDir(into) && faults >= old(faults) && SameOutside(errand.start, nodes, into)
        invariant Apart(from, into) ==> Stands(errand, names - left, carried0)
        invariant Inside(from, into) && into[|from|] in names - left ==> LosesBelow(lost, from)
        decreases left
      {
        var name :| name in left;
        assert names - (left - {name}) == (names - left) + {name};
        if Apart(from, into) { NamedFits(errand.start, from, into, names, name, lost); }
        ok := CopyOne(from, into, name, names - left, errand, carried0);
        if !ok {
          return;
        }
        left := left - {name};
      }
      assert names - left == names;
      ok := true;
    }

    static lemma NamedFits(start: Tree, from: Path, into: Path, names: set<string>, name: string, lost: set<Path>)
      requires name in names && from + [name] !in lost
      ensures Fits(start, from, into, Taken(start, from, names, lost)) ==>
                Fits(start, from, into, PlainSet(start, from + [name], lost))
    {
      NamedTakes(start, from, names, name, lost);
      FitsSome(start, from, into, Taken(start, from, names, lost), PlainSet(start, from + [name], lost));
    }

    method CopyOne(from: Path, into: Path, name: string, ghost done: set<string>, ghost errand: Errand,
                   ghost carried0: Carried)
      returns (ok: bool)
      requires Valid() && IsDir(into) && |from| <= limit && name !in done
      requires errand.from == from && errand.into == into && SameOutside(errand.start, nodes, into)
      requires Apart(from, into) ==> Stands(errand, done, carried0) && name in Listing(errand.start, from, lost)
      modifies this
      ensures Valid() && SameOutside(errand.start, nodes, into) && faults >= old(faults)
      ensures ok ==> IsDir(into)
      ensures Apart(from, into) && ok ==> Stands(errand, done + {name}, carried0)
      ensures Apart(from, into) && !ok ==>
                faults > old(faults) || !Fits(errand.start, from, into, PlainSet(errand.start, from + [name], lost))
      ensures Inside(from, into) && into[|from|] == name && ok ==> LosesBelow(lost, from)
      decreases limit + 1 - |from|, 0, 0
    {
      ghost var before := nodes;
      assert (into + [name])[..|into|] == into;
      if Apart(from, into) {
        ApartChildren(from, into, name);
        FitsChild(errand, before, done, name);
      }
      if Inside(from, into) && into[|from|] == name { InsideChild(from, into); }
      ok := CopyTree(from + [name], into + [name]);
      OutsideChild(errand.start, before, nodes, into, name);
      if Apart(from, into) && ok {
        Advanced(errand, before, nodes, done, name, carried0);
      }
      if Inside(from, into) && into[|from|] == name && ok { LosesAbove(lost, from, name); }
    }

    /** One more child's copy extends a directory's copy. */
    static lemma Advanced(errand: Errand, before: Tree, after: Tree, done: set<string>, name: string, carried0: Carried)
      requires Apart(errand.from, errand.into) && name !in done && errand.Sound()
      requires errand.from + [name] !in errand.lost && errand.Copied(done) <= errand.start.Keys
      requires SameOutside(errand.start, before, errand.into)
      requires Grafted(errand.start, before, errand.from, errand.into, errand.Copied(done))
      requires Grafted(before, after, errand.from + [name], errand.into + [name],
                       PlainSet(before, errand.from + [name], errand.lost))
      ensures errand.Copied(done + {name}) <= errand.start.Keys
      ensures Grafted(errand.start, after, errand.from, errand.into, errand.Copied(done + {name}))
      ensures Plus(Plus(carried0, Tally(errand.start, errand.Copied(done))),
                   Tally(before, PlainSet(before, errand.from + [name], errand.lost)))
           == Plus(carried0, Tally(errand.start, errand.Copied(done + {name})))
    {
      var start, copied, more := errand.start, errand.Copied(done), PlainSet(before, errand.from + [name], errand.lost);
      PlainSetKept(start, before, errand.from, errand.into, name, errand.lost);
      errand.OneMore(done, name);
      GraftChild(start, before, after, errand.from, errand.into, name, copied, more);
      TallySame(before, start, more);
      TallyUnion(start, copied, more, copied + more);
      PlusRegroups(carried0, Tally(start, copied), Tally(start, more));
    }

    static lemma InsideChild(from: Path, into: Path)
      requires Inside(from, into)
      ensures Inside(from + [into[|from|]], into + [into[|from|]])
    {
      var name := into[|from|];
      assert from + [name] == into[..|from| + 1];
      assert (into + [name])[..|from| + 1] == into[..|from| + 1];
    }

    static lemma PlainSetKept(start: Tree, now: Tree, from: Path, into: Path, name: string, lost: set<Path>)
      requires Apart(from, into) && SameOutside(start, now, into)
      ensures PlainSet(now, from + [name], lost) == PlainSet(start, from + [name], lost)
      ensures forall p :: p in PlainSet(start, from + [name], lost) ==> p in now && now[p] == start[p]
    {
      SourceKept(start, now, from, into);
      forall p
        ensures p in PlainSet(now, from + [name], lost) <==> p in PlainSet(start, from + [name], lost)
        ensures p in PlainSet(start, from + [name], lost) ==> p in now && now[p] == start[p]
      {
        ExtendedPrefix(from, name, p);
        if from + [name] <= p { assert SameAt(start, now, p); }
      }
    }

    static lemma OutsideChild(start: Tree, before: Tree, after: Tree, into: Path, name: string)
      requires SameOutside(start, before, into) && SameOutside(before, after, into + [name])
      ensures SameOutside(start, after, into)
      ensures SameAt(before, after, into)
    {
      forall q | !(into <= q)
        ensures SameAt(start, after, q)
      {
        ExtendedPrefix(into, name, q);
        assert SameAt(start, before, q) && SameAt(before, after, q);
      }
      assert !(into + [name] <= into);
    }

    // ----- The whole carry-over -----

    static lemma AncestorMade(before: Tree, now: Tree, p: Path, n: nat)
      requires n <= |p| && OnlyAncestorsMade(before, now, p) && (p[..n] in now ==> now[p[..n]].Dir?)
      ensures OnlyAncestorsMade(before, now[p[..n] := Dir], p)
      ensures WayClear(now, p) ==> WayClear(now[p[..n] := Dir], p)
    {
      var after := now[p[..n] := Dir];
      forall q | !(q <= p) || q in before
        ensures SameAt(before, after, q)
      {
        assert SameAt(before, now, q);
      }
    }

    /** Creates a directory and every missing ancestor. */
    method CreateDirAll(p: Path) returns (ok: bool)
      requires Sized()
      modifies this`nodes, this`faults
      ensures faults >= old(faults)
      ensures !ok && WayClear(old(nodes), p) ==> faults > old(faults)
      ensures Sized()
      ensures ok ==> IsDir(p)
      ensures OnlyAncestorsMade(old(nodes), nodes, p)
    {
      ok := true;
      for n := 1 to |p| + 1
        invariant faults >= old(faults)
        invariant Sized() && IsDir(p[..n - 1])
        invariant OnlyAncestorsMade(old(nodes), nodes, p) && (WayClear(old(nodes), p) ==> WayClear(nodes, p))
      {
        assert p[..n][..|p[..n]| - 1] == p[..n - 1];
        assert p[..n] <= p;
        ghost var now := nodes;
        ok := CreateDir(p[..n]);
        if !ok {
          return;
        }
        AncestorMade(old(nodes), now, p, n);
      }
      assert p[..|p|] == p;
    }

    /**
     * Lays the source's files and directories, less the managed top-level names and whatever the listings lose,
     * over the destination. From a source apart from the destination, the source is untouched, the totals
     * returned are those of exactly the files taken, and the reports grow up to them. Nothing beside the
     * destination ever changes. A copy into an unmanaged part of the source that was there before ends only
     * when a listing loses an entry.
     */
    method CarryOverReporting(from: Path, into: Path) returns (r: Option<Carried>)
      requires Sized()
      modifies this
      ensures Sized() && SameElsewhere(old(nodes), nodes, into) && faults >= old(faults)
      ensures r.Some? && from !in old(nodes) ==> r.value == Carried(0, 0) && nodes == old(nodes) && reports == []
      ensures Apart(from, into) ==> SameUnder(old(nodes), nodes, from)
      ensures Apart(from, into) && r.None? ==>
                || faults > old(faults) || (from in old(nodes) && !old(nodes)[from].Dir?)
                || !CanCarry(old(nodes), from, into, lost)
      ensures Apart(from, into) && r.Some? && from in old(nodes) ==>
                CarriedOver(old(nodes), nodes, from, into, lost, r.value)
      ensures r.Some? && from in old(nodes) ==>
                && reports != [] && reports[|reports| - 1] == r.value && Monotone(reports, r.value)
                && Paced(reports[..|reports| - 1], r.value)
      ensures r.Some? && from in old(nodes) && IntoItself(old(nodes), from, into) ==> LosesBelow(lost, from)
    {
      carried, reports := Carried(0, 0), [];
      if from !in nodes {
        return Some(Carried(0, 0));
      }
      if !nodes[from].Dir? {
        return None;
      }
      var names := List(from);
      if names.None? {
        return None;
      }
      var ok := CarryInto(from, into, names.value);
      if !ok {
        return None;
      }
      ghost var before := reports;
      Report();
      assert reports[..|reports| - 1] == before;
      return Some(carried);
    }

    /**
     * Makes the destination and copies the unmanaged ones of the listed entries there. The listing was opened
     * before the destination was made, and may or may not show what that adds.
     */
    method CarryInto(from: Path, into: Path, names: set<string>) returns (ok: bool)
      requires Valid() && IsDir(from) && names == Listing(nodes, from, lost)
      modifies this
      ensures Valid() && SameElsewhere(old(nodes), nodes, into) && faults >= old(faults)
      ensures Apart(from, into) ==> SameUnder(old(nodes), nodes, from)
      ensures Apart(from, into) && !ok && CanCarry(old(nodes), from, into, lost) ==> faults > old(faults)
      ensures Apart(from, into) && ok ==>
                && LaidOver(old(nodes), nodes, from, into, Wanted(old(nodes), from, lost))
                && carried == Plus(old(carried), Tally(old(nodes), Wanted(old(nodes), from, lost)))
      ensures IntoItself(old(nodes), from, into) && ok ==> LosesBelow(lost, from)
    {
      ghost var before := nodes;
      ok := CreateDirAll(into);
      ghost var made := nodes;
      ElsewhereKept(before, made, into);
      if Apart(from, into) {
        MadeAncestors(before, made, from, into);
        ChildrenSame(before, made, from);
        FitsMade(before, made, from, into, lost);
      }
      if !ok {
        return;
      }
      if IntoItself(before, from, into) && into[|from|] !in names { LosesAbove(lost, from, into[|from|]); }
      var late: bool := *;
      var seen := if late && Inside(from, into) then names + {into[|from|]} else names;
      ghost var errand := Errand(made, from, into, {}, lost);
      NothingTaken(errand);
      NothingGrafts(made, from, into, errand.Copied({}), carried);
      assert Stands(errand, {}, carried);
      assert Apart(from, into) ==> seen - MANAGED <= Listing(made, from, lost);
      ok := CopyNamed(from, into, seen - MANAGED, errand, carried);
      StillElsewhere(before, made, nodes, into);
      if Apart(from, into) {
        BothKept(before, made, nodes, from, into);
        if ok {
          Concluded(before, errand, nodes);
        }
      }
    }

    static lemma ElsewhereKept(before: Tree, made: Tree, into: Path)
      requires OnlyAncestorsMade(before, made, into)
      ensures SameElsewhere(before, made, into)
    {
      forall q | !(into <= q) && !(q <= into)
        ensures SameAt(before, made, q)
      {
      }
    }

    static lemma StillElsewhere(before: Tree, made: Tree, after: Tree, into: Path)
      requires SameElsewhere(before, made, into) && SameOutside(made, after, into)
      ensures SameElsewhere(before, after, into)
    {
      forall q | !(into <= q) && !(q <= into)
        ensures SameAt(before, after, q)
      {
        assert SameAt(before, made, q) && SameAt(made, after, q);
      }
    }

    static lemma Concluded(before: Tree, errand: Errand, after: Tree)
      requires TreeSound(before) && Apart(errand.from, errand.into) && errand.base == {}
      requires SameUnder(before, errand.start, errand.from)
      requires OnlyAncestorsMade(before, errand.start, errand.into)
      requires var taken := errand.Copied(Listing(before, errand.from, errand.lost) - MANAGED);
               taken <= errand.start.Keys && Grafted(errand.start, after, errand.from, errand.into, taken)
      ensures var wanted := Wanted(before, errand.from, errand.lost);
              && LaidOver(before, after, errand.from, errand.into, wanted)
              && Tally(errand.start, errand.Copied(Listing(before, errand.from, errand.lost) - MANAGED))
              == Tally(before, wanted)
    {
      var made, from, names := errand.start, errand.from, Listing(before, errand.from, errand.lost) - MANAGED;
      assert errand.Copied(names) == Taken(made, from, names, errand.lost);
      TakenKept(before, made, from, names, errand.lost);
      WantedIsTaken(before, from, errand.lost);
      TallySame(made, before, Wanted(before, from, errand.lost));
      GraftLaysOver(before, made, after, from, errand.into, Wanted(before, from, errand.lost));
    }

    /** Before anything is copied, an errand that does not count its directory has taken nothing. */
    static lemma NothingTaken(errand: Errand)
      requires errand.base == {}
      ensures errand.Sound() && errand.Copied({}) == {}
    {
    }

    static lemma BothKept(before: Tree, made: Tree, after: Tree, from: Path, into: Path)
      requires Apart(from, into) && SameOutside(made, after, into) && SameUnder(before, made, from)
      ensures SameUnder(before, after, from)
    {
      SourceKept(made, after, from, into);
      forall p | from <= p
        ensures SameAt(before, after, p)
      {
        assert SameAt(before, made, p) && SameAt(made, after, p);
      }
    }

    static lemma NothingGrafts(t: Tree, from: Path, into: Path, copied: set<Path>, c: Carried)
      requires copied == {}
      ensures Grafted(t, t, from, into, copied) && Plus(c, Tally(t, copied)) == c
    {
    }

    static lemma MadeAncestors(before: Tree, after: Tree, from: Path, into: Path)
      requires TreeSound(before) && from in before && Apart(from, into) && OnlyAncestorsMade(before, after, into)
      ensures SameUnder(before, after, from)
    {
    }

    /** Making the destination puts nothing in the way of what is to be copied. */
    static lemma FitsMade(before: Tree, made: Tree, from: Path, into: Path, lost: set<Path>)
      requires TreeSound(before) && SameUnder(before, made, from) && OnlyAncestorsMade(before, made, into)
      ensures Fits(before, from, into, Wanted(before, from, lost)) ==>
                Fits(made, from, into, Taken(made, from, Listing(before, from, lost) - MANAGED, lost))
    {
      var names := Listing(before, from, lost) - MANAGED;
      TakenKept(before, made, from, names, lost);
      WantedIsTaken(before, from, lost);
      if Fits(before, from, into, Wanted(before, from, lost)) {
        forall p | p in Taken(made, from, names, lost)
          ensures FitsAt(made, from, into, p)
        {
          assert p in Wanted(before, from, lost) && FitsAt(before, from, into, p);
          assert SameAt(before, made, into + p[|from|..]);
        }
      }
    }

    static lemma TakenKept(before: Tree, after: Tree, from: Path, names: set<string>, lost: set<Path>)
      requires SameUnder(before, after, from)
      ensures Taken(after, from, names, lost) == Taken(before, from, names, lost)
      ensures forall p :: p in Taken(before, from, names, lost) ==> p in before && p in after && after[p] == before[p]
    {
      forall p
        ensures p in Taken(after, from, names, lost) <==> p in Taken(before, from, names, lost)
        ensures p in Taken(before, from, names, lost) ==> p in before && p in after && after[p] == before[p]
      {
        if from <= p { assert SameAt(before, after, p); }
      }
    }

    static lemma GraftLaysOver(before: Tree, made: Tree, after: Tree, from: Path, into: Path, copied: set<Path>)
      requires copied <= made.Keys && copied <= before.Keys && Grafted(made, after, from, into, copied)
      requires SameUnder(before, made, from)
      requires forall p :: p in copied ==> from <= p && p != from
      requires OnlyAncestorsMade(before, made, into)
      ensures LaidOver(before, after, from, into, copied)
      ensures SameElsewhere(before, after, into)
    {
      forall q
        ensures into <= q && q != into ==> GraftedAt(before, after, from, into, copied, q)
        ensures !(into <= q) && !(q <= into) ==> SameAt(before, after, q)
      {
        assert GraftedAt(made, after, from, into, copied, q);
        if into <= q && Src(q, from, into) in copied {
          assert SameAt(before, made, Src(q, from, into));
        } else if !(q <= into) {
          assert SameAt(before, made, q);
        }
      }
    }
  }

  /** Below `into` the copied source is found, over whatever else was there before. */
  ghost predicate LaidOver(before: Tree, after: Tree, from: Path, into: Path, copied: set<Path>)
    requires copied <= before.Keys
  {
    forall q :: into <= q && q != into ==> GraftedAt(before, after, from, into, copied, q)
  }

  /** A finished carry-over: what was wanted lies over the destination, and the total is exactly its files. */
  ghost predicate CarriedOver(before: Tree, after: Tree, from: Path, into: Path, lost: set<Path>, total: Carried) {
    && LaidOver(before, after, from, into, Wanted(before, from, lost))
    && total == Tally(before, Wanted(before, from, lost))
  }

  /** A file or directory below the source under none of the names the launcher manages. */
  ghost predicate PlayersOwn(t: Tree, from: Path, p: Path) {
    && p in t && from <= p && p != from && (t[p].File? || t[p].Dir?)
    && p[|from|] !in {"assets", "libraries", "versions", "natives", "bin", ".fabric", "logs"}
  }

  ghost predicate Arrives(t: Tree, from: Path, lost: set<Path>, p: Path) {
    PlayersOwn(t, from, p) && Listed(lost, from, p)
  }

  /**
   * Every file and directory of the player's own, saves for instance, arrives unless a listing loses it or a
   * directory above it; any other destination path, one under a managed name for instance, keeps what it had.
   */
  lemma WantedArrives(before: Tree, after: Tree, from: Path, into: Path, lost: set<Path>, total: Carried)
    requires CarriedOver(before, after, from, into, lost, total)
    ensures forall p :: Arrives(before, from, lost, p) ==>
              into + p[|from|..] in after && after[into + p[|from|..]] == before[p]
    ensures forall q :: into <= q && q != into && !Arrives(before, from, lost, Src(q, from, into)) ==>
              SameAt(before, after, q)
    ensures total.files == |set p | p in before && Arrives(before, from, lost, p) && before[p].File?|
    ensures total.bytes == Sum(before, set p | p in before && Arrives(before, from, lost, p))
  {
    assert (set p | p in before && Arrives(before, from, lost, p)) == Wanted(before, from, lost);
    assert (set p | p in before && Arrives(before, from, lost, p) && before[p].File?)
        == Files(before, Wanted(before, from, lost));
    forall p | p in Wanted(before, from, lost)
      ensures into + p[|from|..] in after && after[into + p[|from|..]] == before[p]
    {
      var q := into + p[|from|..];
      assert Src(q, from, into) == p;
      assert |q| > |into|;
      assert GraftedAt(before, after, from, into, Wanted(before, from, lost), q);
    }
    forall q | into <= q && q != into && !Arrives(before, from, lost, Src(q, from, into))
      ensures SameAt(before, after, q)
    {
      assert GraftedAt(before, after, from, into, Wanted(before, from, lost), q);
    }
  }
}
