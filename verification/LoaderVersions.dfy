/** Choosing a loader build, with precedence as in section 11 of Semantic Versioning 2.0.0. */
module LoaderVersions {
  import opened Prelude

  datatype Identifier = Numeric(n: nat) | Alphanumeric(s: string)

  /**
   * A parsed version. Precedence ignores build metadata; the parser's own order breaks ties by it, and
   * `build` is where the metadata stands in that order, as a number.
   */
  datatype Version = Version(major: nat, minor: nat, patch: nat, pre: seq<Identifier>, build: real)

  datatype Order = Less | Equal | Greater

  function Flip(o: Order): Order {
    match o
    case Less => Greater
    case Equal => Equal
    case Greater => Less
  }

  function CompareNat(a: nat, b: nat): Order {
    if a < b then Less else if a > b then Greater else Equal
  }

  function CompareReal(a: real, b: real): Order {
    if a < b then Less else if a > b then Greater else Equal
  }

  /** ASCII sort order; a proper prefix comes first. */
  function CompareText(a: string, b: string): Order {
    if a == "" && b == "" then Equal
    else if a == "" then Less
    else if b == "" then Greater
    else if a[0] < b[0] then Less
    else if a[0] > b[0] then Greater
    else CompareText(a[1..], b[1..])
  }

  function CompareIdentifier(a: Identifier, b: Identifier): Order {
    match (a, b)
    case (Numeric(m), Numeric(n)) => CompareNat(m, n)
    case (Numeric(_), Alphanumeric(_)) => Less
    case (Alphanumeric(_), Numeric(_)) => Greater
    case (Alphanumeric(s), Alphanumeric(t)) => CompareText(s, t)
  }

  /** Field by field; a larger set of fields wins when all before are equal. */
  function CompareFields(a: seq<Identifier>, b: seq<Identifier>): Order {
    if a == [] && b == [] then Equal
    else if a == [] then Less
    else if b == [] then Greater
    else
      var first := CompareIdentifier(a[0], b[0]);
      if first != Equal then first else CompareFields(a[1..], b[1..])
  }

  /** A version without prerelease fields is above every prerelease of it. */
  function ComparePre(a: seq<Identifier>, b: seq<Identifier>): Order {
    if a == [] && b == [] then Equal
    else if a == [] then Greater
    else if b == [] then Less
    else CompareFields(a, b)
  }

  function Then(first: Order, second: Order): Order {
    if first != Equal then first else second
  }

  function Precedence(a: Version, b: Version): Order {
    Then(CompareNat(a.major, b.major),
         Then(CompareNat(a.minor, b.minor),
              Then(CompareNat(a.patch, b.patch), ComparePre(a.pre, b.pre))))
  }

  function Compare(a: Version, b: Version): Order {
    Then(Precedence(a, b), CompareReal(a.build, b.build))
  }

  // ----- The order is a total order -----

  lemma {:induction false} TextFlips(a: string, b: string)
    ensures CompareText(a, b) == Flip(CompareText(b, a))
    ensures CompareText(a, b) == Equal <==> a == b
  {
    if a != "" && b != "" {
      TextFlips(a[1..], b[1..]);
      assert a == [a[0]] + a[1..] && b == [b[0]] + b[1..];
    }
  }

  lemma {:induction false} TextTransitive(a: string, b: string, c: string)
    requires CompareText(a, b) != Greater && CompareText(b, c) != Greater
    ensures CompareText(a, c) != Greater
    ensures CompareText(a, b) == Less || CompareText(b, c) == Less ==> CompareText(a, c) == Less
  {
    if a != "" && b != "" && c != "" && a[0] == b[0] == c[0] {
      TextTransitive(a[1..], b[1..], c[1..]);
    }
  }

  lemma IdentifierFlips(a: Identifier, b: Identifier)
    ensures CompareIdentifier(a, b) == Flip(CompareIdentifier(b, a))
    ensures CompareIdentifier(a, b) == Equal <==> a == b
  {
    if a.Alphanumeric? && b.Alphanumeric? {
      TextFlips(a.s, b.s);
    }
  }

  lemma IdentifierTransitive(a: Identifier, b: Identifier, c: Identifier)
    requires CompareIdentifier(a, b) != Greater && CompareIdentifier(b, c) != Greater
    ensures CompareIdentifier(a, c) != Greater
    ensures CompareIdentifier(a, b) == Less || CompareIdentifier(b, c) == Less ==> CompareIdentifier(a, c) == Less
  {
    if a.Alphanumeric? && b.Alphanumeric? && c.Alphanumeric? {
      TextTransitive(a.s, b.s, c.s);
    }
  }

  lemma {:induction false} FieldsFlip(a: seq<Identifier>, b: seq<Identifier>)
    ensures CompareFields(a, b) == Flip(CompareFields(b, a))
    ensures CompareFields(a, b) == Equal <==> a == b
  {
    if a != [] && b != [] {
      IdentifierFlips(a[0], b[0]);
      FieldsFlip(a[1..], b[1..]);
      assert a == [a[0]] + a[1..] && b == [b[0]] + b[1..];
    }
  }

  lemma {:induction false} FieldsTransitive(a: seq<Identifier>, b: seq<Identifier>, c: seq<Identifier>)
    requires CompareFields(a, b) != Greater && CompareFields(b, c) != Greater
    ensures CompareFields(a, c) != Greater
    ensures CompareFields(a, b) == Less || CompareFields(b, c) == Less ==> CompareFields(a, c) == Less
  {
    if a != [] && b != [] && c != [] {
      IdentifierTransitive(a[0], b[0], c[0]);
      IdentifierFlips(a[0], b[0]);
      IdentifierFlips(b[0], c[0]);
      IdentifierFlips(a[0], c[0]);
      if a[0] == b[0] == c[0] {
        FieldsTransitive(a[1..], b[1..], c[1..]);
      }
    }
  }

  lemma PreFlips(a: seq<Identifier>, b: seq<Identifier>)
    ensures ComparePre(a, b) == Flip(ComparePre(b, a))
    ensures ComparePre(a, b) == Equal <==> a == b
  {
    FieldsFlip(a, b);
  }

  lemma PreTransitive(a: seq<Identifier>, b: seq<Identifier>, c: seq<Identifier>)
    requires ComparePre(a, b) != Greater && ComparePre(b, c) != Greater
    ensures ComparePre(a, c) != Greater
    ensures ComparePre(a, b) == Less || ComparePre(b, c) == Less ==> ComparePre(a, c) == Less
  {
    if a != [] && b != [] && c != [] {
      FieldsTransitive(a, b, c);
    }
  }

  /** Antisymmetry and totality: two versions compare equal only when they are the same version. */
  lemma CompareFlips(a: Version, b: Version)
    ensures Compare(a, b) == Flip(Compare(b, a))
    ensures Compare(a, b) == Equal <==> a == b
    ensures Precedence(a, b) == Flip(Precedence(b, a))
    ensures Precedence(a, b) == Equal <==> a.(build := b.build) == b
  {
    PreFlips(a.pre, b.pre);
  }

  lemma CompareTransitive(a: Version, b: Version, c: Version)
    requires Compare(a, b) != Greater && Compare(b, c) != Greater
    ensures Compare(a, c) != Greater
  {
    CompareFlips(a, b);
    CompareFlips(b, c);
    CompareFlips(a, c);
    PreFlips(a.pre, b.pre);
    PreFlips(b.pre, c.pre);
    if ComparePre(a.pre, b.pre) != Greater && ComparePre(b.pre, c.pre) != Greater {
      PreTransitive(a.pre, b.pre, c.pre);
    }
  }

  // ----- What precedence means -----

  /** Up to some place the texts agree; there `a` ends first, or has the smaller character. */
  ghost predicate TextBelow(a: string, b: string) {
    exists k: nat :: TextBelowAt(a, b, k)
  }

  ghost predicate TextBelowAt(a: string, b: string, k: nat) {
    k <= |a| && k < |b| && a[..k] == b[..k] && (k < |a| ==> a[k] < b[k])
  }

  /** Numbers by value and below every other identifier; those by their text. */
  ghost predicate IdentifierBelow(a: Identifier, b: Identifier) {
    if a.Numeric? then b.Numeric? ==> a.n < b.n else b.Alphanumeric? && TextBelow(a.s, b.s)
  }

  /** Up to some place the fields agree; there `a` has no more of them, or the lower one. */
  ghost predicate FieldsBelow(a: seq<Identifier>, b: seq<Identifier>) {
    exists k: nat :: FieldsBelowAt(a, b, k)
  }

  ghost predicate FieldsBelowAt(a: seq<Identifier>, b: seq<Identifier>, k: nat) {
    k <= |a| && k < |b| && a[..k] == b[..k] && (k < |a| ==> IdentifierBelow(a[k], b[k]))
  }

  /** Major, minor and patch decide in turn; then a prerelease is below its release, and fields are compared. */
  ghost predicate Below(a: Version, b: Version) {
    if a.major != b.major then a.major < b.major
    else if a.minor != b.minor then a.minor < b.minor
    else if a.patch != b.patch then a.patch < b.patch
    else a.pre != [] && (b.pre == [] || FieldsBelow(a.pre, b.pre))
  }

  /** Below in precedence, or by build metadata alone. */
  ghost predicate Under(a: Version, b: Version) {
    Below(a, b) || (a.(build := b.build) == b && a.build < b.build)
  }

  lemma {:induction false} TextIsBelow(a: string, b: string)
    ensures CompareText(a, b) == Less <==> TextBelow(a, b)
  {
    if a == "" && b != "" {
      assert TextBelowAt(a, b, 0);
    } else if a != "" && b != "" && a[0] < b[0] {
      assert TextBelowAt(a, b, 0);
    } else if a != "" && b != "" && a[0] == b[0] {
      TextIsBelow(a[1..], b[1..]);
      TextBelowCons(a, b);
    }
  }

  lemma TextBelowCons(a: string, b: string)
    requires a != "" && b != "" && a[0] == b[0]
    ensures TextBelow(a, b) <==> TextBelow(a[1..], b[1..])
  {
    if TextBelow(a, b) {
      var k: nat :| TextBelowAt(a, b, k);
      assert a[1..][..k - 1] == a[..k][1..] && b[1..][..k - 1] == b[..k][1..];
      assert TextBelowAt(a[1..], b[1..], k - 1);
    }
    if TextBelow(a[1..], b[1..]) {
      var k: nat :| TextBelowAt(a[1..], b[1..], k);
      assert a[..k + 1] == [a[0]] + a[1..][..k] && b[..k + 1] == [b[0]] + b[1..][..k];
      assert TextBelowAt(a, b, k + 1);
    }
  }

  lemma IdentifierIsBelow(a: Identifier, b: Identifier)
    ensures CompareIdentifier(a, b) == Less <==> IdentifierBelow(a, b)
  {
    if a.Alphanumeric? && b.Alphanumeric? {
      TextIsBelow(a.s, b.s);
    }
  }

  lemma {:induction false} FieldsAreBelow(a: seq<Identifier>, b: seq<Identifier>)
    ensures CompareFields(a, b) == Less <==> FieldsBelow(a, b)
  {
    if a == [] && b != [] {
      assert FieldsBelowAt(a, b, 0);
    } else if a != [] && b != [] {
      IdentifierIsBelow(a[0], b[0]);
      IdentifierFlips(a[0], b[0]);
      if a[0] == b[0] {
        FieldsAreBelow(a[1..], b[1..]);
        FieldsBelowCons(a, b);
      } else {
        FieldsDiffer(a, b);
      }
    }
  }

  lemma FieldsDiffer(a: seq<Identifier>, b: seq<Identifier>)
    requires a != [] && b != [] && a[0] != b[0]
    ensures FieldsBelow(a, b) <==> IdentifierBelow(a[0], b[0])
  {
    if IdentifierBelow(a[0], b[0]) {
      assert FieldsBelowAt(a, b, 0);
    }
    if FieldsBelow(a, b) {
      var k: nat :| FieldsBelowAt(a, b, k);
      FirstAgrees(a, b, k);
    }
  }

  lemma FirstAgrees(a: seq<Identifier>, b: seq<Identifier>, k: nat)
    requires k <= |a| && k <= |b| && a[..k] == b[..k]
    ensures k > 0 ==> a[0] == b[0]
  {
    assert k > 0 ==> a[..k][0] == a[0] && b[..k][0] == b[0];
  }

  lemma FieldsBelowCons(a: seq<Identifier>, b: seq<Identifier>)
    requires a != [] && b != [] && a[0] == b[0]
    ensures FieldsBelow(a, b) <==> FieldsBelow(a[1..], b[1..])
  {
    if FieldsBelow(a, b) {
      var k: nat :| FieldsBelowAt(a, b, k);
      IdentifierFlips(a[0], b[0]);
      IdentifierIsBelow(a[0], b[0]);
      assert a[1..][..k - 1] == a[..k][1..] && b[1..][..k - 1] == b[..k][1..];
      assert FieldsBelowAt(a[1..], b[1..], k - 1);
    }
    if FieldsBelow(a[1..], b[1..]) {
      var k: nat :| FieldsBelowAt(a[1..], b[1..], k);
      assert a[..k + 1] == [a[0]] + a[1..][..k] && b[..k + 1] == [b[0]] + b[1..][..k];
      assert FieldsBelowAt(a, b, k + 1);
    }
  }

  /** The field-by-field comparison is precedence as the standard words it, then the metadata's order. */
  lemma CompareIsUnder(a: Version, b: Version)
    ensures Precedence(a, b) == Less <==> Below(a, b)
    ensures Compare(a, b) == Less <==> Under(a, b)
    ensures Compare(a, b) == Greater <==> Under(b, a)
    ensures Compare(a, b) == Equal <==> a == b
  {
    FieldsAreBelow(a.pre, b.pre);
    FieldsAreBelow(b.pre, a.pre);
    CompareFlips(a, b);
    CompareFlips(b, a);
  }

  // ----- The newest build -----

  /** A published build; its version text may not parse. */
  datatype Profile = Profile(loaderVersion: string, build: int)

  type Parser = string -> Option<Version>

  /** A build the loop considers for one of its two slots. */
  predicate Candidate(parse: Parser, profile: Profile, stable: bool) {
    parse(profile.loaderVersion).Some? && (parse(profile.loaderVersion).value.pre == [] <==> stable)
  }

  /** Entry `k` is a candidate, none of the first `n` is above it, and those before it are below it. */
  ghost predicate GreatestAt(parse: Parser, profiles: seq<Profile>, n: nat, stable: bool, k: int)
    requires n <= |profiles|
  {
    && 0 <= k < n && Candidate(parse, profiles[k], stable)
    && forall i :: 0 <= i < n && Candidate(parse, profiles[i], stable) ==>
         var version, best := parse(profiles[i].loaderVersion).value, parse(profiles[k].loaderVersion).value;
         if i < k then Under(version, best) else !Under(best, version)
  }

  /** A slot holds the first greatest candidate among the first `n` entries, if there is a candidate. */
  ghost predicate Holds(parse: Parser, profiles: seq<Profile>, n: nat, stable: bool, best: Option<(Profile, Version)>)
    requires n <= |profiles|
  {
    if best.None? then forall i :: 0 <= i < n ==> !Candidate(parse, profiles[i], stable)
    else exists k :: GreatestAt(parse, profiles, n, stable, k) && profiles[k] == best.value.0
                  && parse(profiles[k].loaderVersion) == Some(best.value.1)
  }

  /** One turn of the loop for the slot the entry belongs to; the other slot is unaffected. */
  lemma SlotStep(parse: Parser, profiles: seq<Profile>, n: nat, stable: bool, best: Option<(Profile, Version)>)
    requires n < |profiles| && Holds(parse, profiles, n, stable, best)
    ensures var parsed := parse(profiles[n].loaderVersion);
            if !Candidate(parse, profiles[n], stable) then Holds(parse, profiles, n + 1, stable, best)
            else if best.None? || Compare(parsed.value, best.value.1) == Greater
            then Holds(parse, profiles, n + 1, stable, Some((profiles[n], parsed.value)))
            else Holds(parse, profiles, n + 1, stable, best)
  {
    if best.Some? {
      var k :| GreatestAt(parse, profiles, n, stable, k) && profiles[k] == best.value.0
               && parse(profiles[k].loaderVersion) == Some(best.value.1);
      if Candidate(parse, profiles[n], stable) {
        var version := parse(profiles[n].loaderVersion).value;
        CompareIsUnder(version, version);
        CompareIsUnder(version, best.value.1);
        if Compare(version, best.value.1) == Greater {
          forall i | 0 <= i < n && Candidate(parse, profiles[i], stable)
            ensures Under(parse(profiles[i].loaderVersion).value, version)
          {
            StrictlyBelow(parse(profiles[i].loaderVersion).value, best.value.1, version);
          }
          assert GreatestAt(parse, profiles, n + 1, stable, n);
        } else {
          assert GreatestAt(parse, profiles, n + 1, stable, k);
        }
      } else {
        assert GreatestAt(parse, profiles, n + 1, stable, k);
      }
    } else if Candidate(parse, profiles[n], stable) {
      CompareIsUnder(parse(profiles[n].loaderVersion).value, parse(profiles[n].loaderVersion).value);
      assert GreatestAt(parse, profiles, n + 1, stable, n);
    }
  }

  lemma StrictlyBelow(a: Version, b: Version, c: Version)
    requires Under(a, b) || !Under(b, a)
    requires Under(b, c)
    ensures Under(a, c)
  {
    CompareIsUnder(a, b);
    CompareIsUnder(b, c);
    CompareIsUnder(a, c);
    CompareIsUnder(c, b);
    CompareFlips(a, b);
    CompareFlips(c, b);
    CompareTransitive(a, b, c);
    if a == c {
      CompareFlips(b, c);
    }
  }

  method Newest(parse: Parser, profiles: seq<Profile>) returns (r: Option<Profile>)
    ensures r.None? <==> profiles == []
    ensures r.Some? ==> r.value in profiles
    ensures r.Some? ==> IsNewest(parse, profiles, r.value)
    ensures r.Some? ==> NoneNewer(parse, profiles, r.value)
  {
    var stable: Option<(Profile, Version)> := None;
    var prerelease: Option<(Profile, Version)> := None;
    for n := 0 to |profiles|
      invariant Holds(parse, profiles, n, true, stable)
      invariant Holds(parse, profiles, n, false, prerelease)
    {
      SlotStep(parse, profiles, n, true, stable);
      SlotStep(parse, profiles, n, false, prerelease);
      var profile := profiles[n];
      var parsed := parse(profile.loaderVersion);
      if parsed.None? {
        continue;
      }
      var version := parsed.value;
      var slot := if version.pre == [] then stable else prerelease;
      var better := slot.None? || Compare(version, slot.value.1) == Greater;
      if better {
        if version.pre == [] {
          stable := Some((profile, version));
        } else {
          prerelease := Some((profile, version));
        }
      }
    }
    if stable.Some? {
      NewestIsUnsurpassed(parse, profiles, stable.value.0);
      return Some(stable.value.0);
    }
    if prerelease.Some? {
      NewestIsUnsurpassed(parse, profiles, prerelease.value.0);
      return Some(prerelease.value.0);
    }
    if profiles == [] {
      return None;
    }
    NewestIsUnsurpassed(parse, profiles, profiles[0]);
    return Some(profiles[0]);
  }

  ghost predicate Has(parse: Parser, profiles: seq<Profile>, stable: bool) {
    exists p :: p in profiles && Candidate(parse, p, stable)
  }

  /** The first greatest stable build if there is one, else the first greatest prerelease, else the first entry. */
  ghost predicate IsNewest(parse: Parser, profiles: seq<Profile>, chosen: Profile) {
    if Has(parse, profiles, true) then FirstGreatest(parse, profiles, true, chosen)
    else if Has(parse, profiles, false) then FirstGreatest(parse, profiles, false, chosen)
    else profiles != [] && chosen == profiles[0]
  }

  ghost predicate FirstGreatest(parse: Parser, profiles: seq<Profile>, stable: bool, chosen: Profile) {
    exists k :: GreatestAt(parse, profiles, |profiles|, stable, k) && profiles[k] == chosen
  }

  /**
   * If any stable build is listed, the chosen one is stable and no stable one listed has a greater major, minor and
   * patch, in this order; if only prereleases are, none of them is above the chosen one.
   */
  ghost predicate NoneNewer(parse: Parser, profiles: seq<Profile>, chosen: Profile) {
    forall p :: p in profiles && parse(p.loaderVersion).Some? ==>
      parse(chosen.loaderVersion).Some? &&
      var other, best := parse(p.loaderVersion).value, parse(chosen.loaderVersion).value;
      if other.pre == [] then
        best.pre == []
        && (|| other.major < best.major
            || (other.major == best.major
                && (other.minor < best.minor || (other.minor == best.minor && other.patch <= best.patch))))
      else best.pre == [] || !Below(best, other)
  }

  lemma NewestIsUnsurpassed(parse: Parser, profiles: seq<Profile>, chosen: Profile)
    requires IsNewest(parse, profiles, chosen)
    ensures NoneNewer(parse, profiles, chosen)
  {
    forall p | p in profiles && parse(p.loaderVersion).Some?
      ensures parse(chosen.loaderVersion).Some?
      ensures var other, best := parse(p.loaderVersion).value, parse(chosen.loaderVersion).value;
              (other.pre == [] ==> best.pre == []) && ((best.pre == [] && other.pre != []) || !Below(best, other))
    {
      var stable := parse(p.loaderVersion).value.pre == [];
      assert Candidate(parse, p, stable) && Has(parse, profiles, stable);
      var k :| GreatestAt(parse, profiles, |profiles|, Has(parse, profiles, true), k) && profiles[k] == chosen;
      var i :| 0 <= i < |profiles| && profiles[i] == p;
      CompareIsUnder(parse(p.loaderVersion).value, parse(chosen.loaderVersion).value);
    }
  }

  /** No stable build has higher precedence than a newest one, and any prerelease only wins without a stable. */
  lemma NewestHasTopPrecedence(parse: Parser, profiles: seq<Profile>, chosen: Profile, other: Profile)
    requires IsNewest(parse, profiles, chosen) && other in profiles && Candidate(parse, other, true)
    ensures Candidate(parse, chosen, true)
    ensures !Below(parse(chosen.loaderVersion).value, parse(other.loaderVersion).value)
  {
    NewestIsUnsurpassed(parse, profiles, chosen);
  }

  /** The chosen version does not depend on the order builds are listed in, if any of them parses. */
  lemma ListingOrderInvisible(parse: Parser, a: seq<Profile>, b: seq<Profile>, fromA: Profile, fromB: Profile)
    requires multiset(a) == multiset(b)
    requires fromA in a && fromB in b && IsNewest(parse, a, fromA) && IsNewest(parse, b, fromB)
    requires Has(parse, a, true) || Has(parse, a, false)
    ensures parse(fromA.loaderVersion) == parse(fromB.loaderVersion) && parse(fromA.loaderVersion).Some?
  {
    SameMembers(a, b);
    assert Has(parse, a, true) <==> Has(parse, b, true);
    assert Has(parse, a, false) <==> Has(parse, b, false);
    var stable := Has(parse, a, true);
    var k :| GreatestAt(parse, a, |a|, stable, k) && a[k] == fromA;
    var l :| GreatestAt(parse, b, |b|, stable, l) && b[l] == fromB;
    var i :| 0 <= i < |a| && a[i] == fromB;
    var j :| 0 <= j < |b| && b[j] == fromA;
    CompareIsUnder(parse(fromA.loaderVersion).value, parse(fromB.loaderVersion).value);
  }

  lemma SameMembers(a: seq<Profile>, b: seq<Profile>)
    requires multiset(a) == multiset(b)
    ensures forall p :: p in a <==> p in b
  {
    forall p
      ensures p in a <==> p in b
    {
      assert p in a <==> p in multiset(a);
      assert p in b <==> p in multiset(b);
    }
  }

  datatype SelectError = NoBuilds | UnknownVersion(version: string)

  /** A pinned version is the first entry that spells it exactly; otherwise the newest. */
  method Select(parse: Parser, profiles: seq<Profile>, wanted: Option<string>) returns (r: Result<Profile, SelectError>)
    ensures wanted.None? && profiles == [] ==> r == Err(NoBuilds)
    ensures wanted.None? && profiles != [] ==>
              && r.Ok? && r.value in profiles && IsNewest(parse, profiles, r.value)
              && NoneNewer(parse, profiles, r.value)
    ensures wanted.Some? ==>
              match r
              case Ok(p) => exists i :: 0 <= i < |profiles| && profiles[i] == p && p.loaderVersion == wanted.value
                                     && forall j :: 0 <= j < i ==> profiles[j].loaderVersion != wanted.value
              case Err(e) => e == UnknownVersion(wanted.value)
                             && forall p :: p in profiles ==> p.loaderVersion != wanted.value
  {
    match wanted {
      case None =>
        var newest := Newest(parse, profiles);
        return if newest.Some? then Ok(newest.value) else Err(NoBuilds);
      case Some(version) =>
        for i := 0 to |profiles|
          invariant forall j :: 0 <= j < i ==> profiles[j].loaderVersion != version
        {
          if profiles[i].loaderVersion == version {
            return Ok(profiles[i]);
          }
        }
        return Err(UnknownVersion(version));
    }
  }
}
