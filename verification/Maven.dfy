/** Maven coordinates and the two ways Acelus keys a library: by its coordinate and by its path. */
module Maven {
  import opened Prelude
  import opened Text

  datatype Coordinates = Coordinates(
    group: string,
    artifact: string,
    version: string,
    classifier: Option<string>,
    extension: string)
  {
    function ToPath(): string {
      ReplaceChar(group, '.', '/') + "/" + artifact + "/" + version + "/" + FileName()
    }

    function Suffix(): string {
      match classifier
      case Some(c) => "-" + c
      case None => ""
    }

    function FileName(): string {
      artifact + "-" + version + Suffix() + "." + extension
    }

    function DedupKey(): string {
      match classifier
      case Some(c) => group + ":" + artifact + ":" + c
      case None => group + ":" + artifact
    }

    /** What a caller can check before relying on the two keys being the same. */
    predicate PathRecoverable() {
      && '/' !in group && '/' !in artifact && '/' !in version && '/' !in extension
      && (classifier.Some? ==> classifier.value != "" && '/' !in classifier.value && extension == "jar")
    }
  }

  /** The piece before the first `c` and the piece after it. */
  function SplitOnce(s: string, c: char): (r: Option<(string, string)>)
    ensures r.Some? <==> c in s
    ensures r.Some? ==> s == r.value.0 + [c] + r.value.1 && c !in r.value.0
  {
    if s == [] then None
    else if s[0] == c then Some(("", s[1..]))
    else
      match SplitOnce(s[1..], c)
      case None => None
      case Some((left, right)) => Some(([s[0]] + left, right))
  }

  function FromParts(parts: seq<string>, extension: string): (r: Option<Coordinates>)
    ensures r.Some? ==> r.value.group != "" && r.value.artifact != "" && r.value.version != ""
  {
    if |parts| < 3 || parts[0] == "" || parts[1] == "" || parts[2] == "" then None
    else
      var classifier := if |parts| > 3 then Some(parts[3]) else None;
      Some(Coordinates(parts[0], parts[1], parts[2], classifier, extension))
  }

  function Parse(name: string): (r: Option<Coordinates>)
    ensures r.Some? ==> r.value.group != "" && r.value.artifact != "" && r.value.version != ""
  {
    match SplitOnce(name, '@')
    case Some((coords, extension)) => FromParts(Split(coords, ':'), extension)
    case None => FromParts(Split(name, ':'), "jar")
  }

  /** The usual way to write a coordinate: `group:artifact:version[:classifier][@extension]`. */
  function Spelling(c: Coordinates, explicit: bool): string {
    Join(Parts(c), ":") + if explicit then "@" + c.extension else ""
  }

  function Parts(c: Coordinates): seq<string> {
    [c.group, c.artifact, c.version] + if c.classifier.Some? then [c.classifier.value] else []
  }

  ghost predicate Spellable(c: Coordinates) {
    && c.group != "" && c.artifact != "" && c.version != ""
    && forall i :: 0 <= i < |Parts(c)| ==> ':' !in Parts(c)[i] && '@' !in Parts(c)[i]
  }

  lemma {:induction false} SplitOnceAt(left: string, c: char, right: string)
    requires c !in left
    ensures SplitOnce(left + [c] + right, c) == Some((left, right))
  {
    if left != [] {
      SplitOnceAt(left[1..], c, right);
      assert (left + [c] + right)[1..] == left[1..] + [c] + right;
      assert (left + [c] + right)[0] == left[0];
      assert [left[0]] + left[1..] == left;
    } else {
      assert (left + [c] + right)[1..] == right;
    }
  }

  /** Parsing reads back every coordinate that can be written down; `jar` is the default extension. */
  lemma ParseReadsSpelling(c: Coordinates, explicit: bool)
    requires Spellable(c)
    requires explicit || c.extension == "jar"
    ensures Parse(Spelling(c, explicit)) == Some(c)
  {
    var coords := Join(Parts(c), ":");
    JoinFree(Parts(c), ":", '@');
    SplitJoin(Parts(c), ':');
    if explicit {
      SplitOnceAt(coords, '@', c.extension);
      assert Spelling(c, explicit) == coords + ['@'] + c.extension;
      assert FromParts(Parts(c), c.extension) == Some(c);
    } else {
      assert Spelling(c, explicit) == coords;
    }
  }

  /** Where a library's name says it lies in a repository. */
  function NamePath(name: string): Option<string> {
    match Parse(name)
    case Some(c) => Some(c.ToPath())
    case None => None
  }

  function NameKey(name: string): Option<string> {
    match Parse(name)
    case Some(c) => Some(c.DedupKey())
    case None => None
  }

  /** A key takes apart into the group, the artifact and the classifier it was made of. */
  lemma KeyParts(c: Coordinates)
    requires ':' !in c.group && ':' !in c.artifact && (c.classifier.Some? ==> ':' !in c.classifier.value)
    ensures Split(c.DedupKey(), ':')
         == [c.group, c.artifact] + if c.classifier.Some? then [c.classifier.value] else []
  {
    var parts := [c.group, c.artifact] + if c.classifier.Some? then [c.classifier.value] else [];
    SplitJoin(parts, ':');
    if c.classifier.Some? {
      assert parts == [c.group, c.artifact, c.classifier.value];
      assert parts[1..] == [c.artifact, c.classifier.value];
      assert [c.artifact, c.classifier.value][1..] == [c.classifier.value];
      assert Join([c.artifact, c.classifier.value], ":") == c.artifact + ":" + c.classifier.value;
      assert Join(parts, ":") == c.group + ":" + Join(parts[1..], ":");
      assert Join(parts, ":") == c.group + ":" + (c.artifact + ":" + c.classifier.value);
      assert c.DedupKey() == c.group + ":" + (c.artifact + ":" + c.classifier.value);
    } else {
      assert parts[1..] == [c.artifact];
    }
  }

  lemma ParsedFree(name: string)
    requires Parse(name).Some?
    ensures var c := Parse(name).value;
            ':' !in c.group && ':' !in c.artifact && (c.classifier.Some? ==> ':' !in c.classifier.value)
  {
    SplitPiecesFree(if SplitOnce(name, '@').Some? then SplitOnce(name, '@').value.0 else name, ':');
  }

  /** Two names have one key exactly when they name the same library, whatever version and extension of it. */
  lemma KeysIdentify(a: string, b: string)
    requires Parse(a).Some? && Parse(b).Some?
    ensures NameKey(a) == NameKey(b) <==>
            var c, d := Parse(a).value, Parse(b).value;
            c.group == d.group && c.artifact == d.artifact && c.classifier == d.classifier
  {
    var c, d := Parse(a).value, Parse(b).value;
    ParsedFree(a);
    ParsedFree(b);
    KeyParts(c);
    KeyParts(d);
    if NameKey(a) == NameKey(b) {
      var p, q := Split(c.DedupKey(), ':'), Split(d.DedupKey(), ':');
      assert p[0] == q[0] && p[1] == q[1] && |p| == |q|;
      assert |p| == 3 ==> p[2] == q[2];
    }
  }

  function StripPrefix(s: string, prefix: string): (r: Option<string>)
    ensures r.Some? <==> prefix <= s
    ensures r.Some? ==> s == prefix + r.value
  {
    if prefix <= s then Some(s[|prefix|..]) else None
  }

  function StripSuffix(s: string, suffix: string): (r: Option<string>)
    ensures r.Some? ==> s == r.value + suffix
    ensures r.None? ==> forall t: string :: s != t + suffix
  {
    if |suffix| <= |s| && s[|s| - |suffix|..] == suffix then Some(s[..|s| - |suffix|])
    else
      assert forall t: string {:trigger t + suffix} :: (t + suffix)[|t + suffix| - |suffix|..] == suffix;
      None
  }

  const LIBRARIES := "libraries/"
  const JAR := ".jar"

  /** The classifier a file name carries after `name-version`, if any. */
  function FileClassifier(file: string, name: string, version: string): Option<string> {
    var stem := StripSuffix(file, JAR).UnwrapOr(file);
    match StripPrefix(stem, name + "-" + version)
    case None => None
    case Some(rest) => RestClassifier(rest)
  }

  /** What follows a hyphen, if anything does. */
  function RestClassifier(rest: string): Option<string> {
    match StripPrefix(rest, "-")
    case None => None
    case Some(c) => if c == "" then None else Some(c)
  }

  function KeyFrom(group: string, name: string, classifier: Option<string>): string {
    match classifier
    case Some(c) => group + ":" + name + ":" + c
    case None => group + ":" + name
  }

  /** The key that the last three segments of a path, and the group before them, spell. */
  function SegmentsKey(segments: seq<string>): string
    requires |segments| >= 3
  {
    var n := |segments|;
    var version, name := segments[n - 2], segments[n - 3];
    KeyFrom(Join(segments[..n - 3], "."), name, FileClassifier(segments[n - 1], name, version))
  }

  /** The key of a planned library, read back from where it will be installed. */
  function ArtifactKey(path: string): Option<string> {
    match StripPrefix(path, LIBRARIES)
    case None => None
    case Some(rest) =>
      var segments := Split(rest, '/');
      if |segments| < 3 then None else Some(SegmentsKey(segments))
  }

  lemma PathSegments(c: Coordinates)
    ensures Split(c.ToPath(), '/')
         == Split(ReplaceChar(c.group, '.', '/'), '/') + Split(c.artifact, '/') + Split(c.version, '/')
            + Split(c.FileName(), '/')
  {
    SplitFour(ReplaceChar(c.group, '.', '/'), c.artifact, c.version, c.FileName(), '/');
  }

  /** A key read from a path never contains a slash: every part of it is a path segment. */
  lemma ArtifactKeySlashFree(path: string)
    requires ArtifactKey(path).Some?
    ensures '/' !in ArtifactKey(path).value
  {
    var rest := StripPrefix(path, LIBRARIES).value;
    var segments := Split(rest, '/');
    var n := |segments|;
    SplitPiecesFree(rest, '/');
    JoinFree(segments[..n - 3], ".", '/');
    var file, name, version := segments[n - 1], segments[n - 3], segments[n - 2];
    var stem := StripSuffix(file, JAR).UnwrapOr(file);
    assert '/' !in stem;
    if StripPrefix(stem, name + "-" + version).Some? {
      assert '/' !in StripPrefix(stem, name + "-" + version).value;
    }
    assert FileClassifier(file, name, version).Some? ==> '/' !in FileClassifier(file, name, version).value;
  }

  lemma StemClassifier(file: string, name: string, version: string, rest: string)
    requires StripSuffix(file, JAR).UnwrapOr(file) == name + "-" + version + rest
    ensures FileClassifier(file, name, version) == RestClassifier(rest)
  {
    var stem, prefix := StripSuffix(file, JAR).UnwrapOr(file), name + "-" + version;
    assert stem == prefix + rest && stem[|prefix|..] == rest;
  }

  lemma SuffixRead(classifier: Option<string>)
    ensures RestClassifier(match classifier case Some(c) => "-" + c case None => "")
         == if classifier == Some("") then None else classifier
  {
    if classifier.Some? { assert ("-" + classifier.value)[1..] == classifier.value; }
  }

  /** After a suffix with a dot behind it no classifier reads back as it was given. */
  lemma LongerRead(suffix: string, rest: string)
    requires suffix + "." <= rest && (suffix != "" ==> suffix[0] == '-')
    ensures suffix == "" ==> RestClassifier(rest).None?
    ensures suffix != "" ==> RestClassifier(rest) != Some(suffix[1..])
  {
    assert rest[|suffix|] == '.';
    assert suffix != "" ==> |rest[1..]| > |suffix[1..]|;
  }

  /** The file name with the path-safe shape carries its classifier iff one is given and the file is a jar. */
  lemma ClassifierRead(c: Coordinates)
    ensures c.classifier.None? ==> FileClassifier(c.FileName(), c.artifact, c.version).None?
    ensures c.classifier.Some? ==>
              (FileClassifier(c.FileName(), c.artifact, c.version) == c.classifier
               <==> c.classifier.value != "" && c.extension == "jar")
  {
    var prefix, suffix, file := c.artifact + "-" + c.version, c.Suffix(), c.FileName();
    assert file == prefix + suffix + "." + c.extension;
    if c.extension == "jar" {
      assert file == (prefix + suffix) + JAR;
      StripsBack(prefix + suffix, JAR);
      StemClassifier(file, c.artifact, c.version, suffix);
      SuffixRead(c.classifier);
    } else {
      OtherStem(prefix + suffix, c.extension);
      var stem := StripSuffix(file, JAR).UnwrapOr(file);
      var rest := AfterPrefix(stem, prefix, suffix + ".");
      StemClassifier(file, c.artifact, c.version, rest);
      LongerRead(suffix, rest);
      assert c.classifier.Some? ==> suffix[1..] == c.classifier.value;
    }
  }

  lemma StripsBack(body: string, suffix: string)
    ensures StripSuffix(body + suffix, suffix) == Some(body)
  {
  }

  lemma AfterPrefix(s: string, prefix: string, more: string) returns (rest: string)
    requires prefix + more <= s
    ensures s == prefix + rest && more <= rest
  {
    rest := s[|prefix|..];
    assert rest[..|more|] == more;
  }

  /** Without the extension `jar`, the stem of a name still holds its body and the dot. */
  lemma OtherStem(body: string, extension: string)
    requires extension != "jar"
    ensures body + "." <= StripSuffix(body + "." + extension, JAR).UnwrapOr(body + "." + extension)
  {
    var file := body + "." + extension;
    var stripped := StripSuffix(file, JAR);
    if stripped.Some? {
      var stem := stripped.value;
      assert |stem| > |body| by {
        if |stem| <= |body| { JarTail(body, extension, stem); }
      }
      assert stem[..|body| + 1] == file[..|body| + 1];
    }
  }

  /** Stripping `.jar` into the body of a name needs the extension to be exactly `jar`. */
  lemma JarTail(body: string, extension: string, stem: string)
    requires body + "." + extension == stem + JAR && |stem| <= |body|
    ensures extension == "jar"
  {
    var whole := body + "." + extension;
    assert |stem| == |body| by {
      assert whole[|body|] == '.';
      assert JAR[|body| - |stem|] == '.';
    }
    assert whole[|body| + 1..] == extension;
    assert whole[|stem| + 1..] == JAR[1..];
  }

  /** With no stray slash, the key read from the path has the coordinate's own group and artifact. */
  lemma RecoveredKey(c: Coordinates)
    requires '/' !in c.group && '/' !in c.artifact && '/' !in c.version && '/' !in c.FileName()
    ensures ArtifactKey(LIBRARIES + c.ToPath())
         == Some(KeyFrom(c.group, c.artifact, FileClassifier(c.FileName(), c.artifact, c.version)))
  {
    PathSegments(c);
    SplitReplaced(c.group, '.', '/');
    SplitWhole(c.artifact, '/');
    SplitWhole(c.version, '/');
    SplitWhole(c.FileName(), '/');
    var groups := Split(c.group, '.');
    var segments := Split(c.ToPath(), '/');
    assert segments == groups + [c.artifact, c.version, c.FileName()];
    SegmentsKeyOf(groups, c.artifact, c.version, c.FileName());
    JoinSplit(c.group, '.');
    ReadsKey(c, segments);
  }

  /** What the installed path of a coordinate is read back as. */
  lemma ReadsKey(c: Coordinates, segments: seq<string>)
    requires segments == Split(c.ToPath(), '/') && |segments| >= 3
    ensures ArtifactKey(LIBRARIES + c.ToPath()) == Some(SegmentsKey(segments))
  {
  }

  /** A slash in the version or the extension pushes extra segments into the group. */
  lemma ExtraSegmentsBreakKey(c: Coordinates)
    requires '/' !in c.group && '/' !in c.artifact
    requires '/' in c.version || '/' in c.FileName()
    ensures ArtifactKey(LIBRARIES + c.ToPath()) != Some(c.DedupKey())
  {
    PathSegments(c);
    SplitReplaced(c.group, '.', '/');
    SplitWhole(c.artifact, '/');
    var versions, files := Split(c.version, '/'), Split(c.FileName(), '/');
    assert |versions| + |files| > 2 by {
      if '/' in c.version { SplitSeveral(c.version, '/'); } else { SplitSeveral(c.FileName(), '/'); }
    }
    RegroupFour(Split(c.group, '.'), [c.artifact], versions, files);
    LongGroupBreaksKey(c, Split(c.ToPath(), '/'), Split(c.group, '.'), [c.artifact] + versions + files);
  }

  lemma RegroupFour<T>(p: seq<T>, q: seq<T>, r: seq<T>, t: seq<T>)
    ensures p + q + r + t == p + (q + r + t)
  {
  }

  lemma LongGroupBreaksKey(c: Coordinates, segments: seq<string>, groups: seq<string>, more: seq<string>)
    requires segments == Split(c.ToPath(), '/') == groups + more && |more| > 3
    requires groups == Split(c.group, '.')
    ensures ArtifactKey(LIBRARIES + c.ToPath()) != Some(c.DedupKey())
  {
    ReadsKey(c, segments);
    JoinSplit(c.group, '.');
    LongGroupKey(groups, more, c.artifact, c.classifier);
  }

  lemma LongGroupKey(groups: seq<string>, more: seq<string>, name: string, classifier: Option<string>)
    requires groups != [] && |more| > 3
    ensures SegmentsKey(groups + more) != KeyFrom(Join(groups, "."), name, classifier)
  {
    var k := |more| - 3;
    var extra, name1, version1, file1 := more[..k], more[k], more[k + 1], more[k + 2];
    assert groups + more == (groups + extra) + [name1, version1, file1];
    SegmentsKeyOf(groups + extra, name1, version1, file1);
    JoinConcat(groups, extra, ".");
    DottedKeyDiffers(Join(groups, "."), Join(extra, "."), name1, FileClassifier(file1, name1, version1),
                     name, classifier);
  }

  lemma SegmentsKeyOf(groups: seq<string>, name: string, version: string, file: string)
    ensures SegmentsKey(groups + [name, version, file])
         == KeyFrom(Join(groups, "."), name, FileClassifier(file, name, version))
  {
  }

  lemma DottedKeyDiffers(group: string, more: string, name: string, classifier: Option<string>,
                         other: string, otherClassifier: Option<string>)
    ensures KeyFrom(group + "." + more, name, classifier) != KeyFrom(group, other, otherClassifier)
  {
    KeyStarts(group + "." + more, name, classifier);
    KeyStarts(group, other, otherClassifier);
    var dotted, key := KeyFrom(group + "." + more, name, classifier), KeyFrom(group, other, otherClassifier);
    assert dotted[|group|] == (group + "." + more)[|group|] == '.';
    assert key[|group|] == ':';
  }

  lemma KeyStarts(group: string, name: string, classifier: Option<string>)
    ensures group + ":" <= KeyFrom(group, name, classifier)
  {
  }

  /**
   * The path key and the coordinate key of a library are the same string exactly when the coordinate
   * has no slash and any classifier it has is non-empty and names a jar.
   */
  lemma KeysAgree(c: Coordinates)
    ensures ArtifactKey(LIBRARIES + c.ToPath()) == Some(c.DedupKey()) <==> c.PathRecoverable()
  {
    var found := ArtifactKey(LIBRARIES + c.ToPath());
    if '/' in c.group || '/' in c.artifact || (c.classifier.Some? && '/' in c.classifier.value) {
      assert '/' in c.DedupKey();
      if found.Some? {
        ArtifactKeySlashFree(LIBRARIES + c.ToPath());
      }
    } else if '/' in c.version || '/' in c.extension {
      assert '/' in c.extension ==> '/' in c.FileName();
      ExtraSegmentsBreakKey(c);
    } else {
      RecoveredKey(c);
      ClassifierRead(c);
      KeyInjective(c.group, c.artifact, FileClassifier(c.FileName(), c.artifact, c.version), c.classifier);
    }
  }

  lemma KeyInjective(group: string, name: string, a: Option<string>, b: Option<string>)
    ensures KeyFrom(group, name, a) == KeyFrom(group, name, b) <==> a == b
  {
    var base := group + ":" + name;
    if a.Some? { assert KeyFrom(group, name, a) == base + ":" + a.value; }
    if b.Some? { assert KeyFrom(group, name, b) == base + ":" + b.value; }
    if a.Some? && b.Some? && KeyFrom(group, name, a) == KeyFrom(group, name, b) {
      assert (base + ":" + a.value)[|base| + 1..] == a.value;
      assert (base + ":" + b.value)[|base| + 1..] == b.value;
    }
  }
}
