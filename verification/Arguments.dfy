/** Filling `${name}` placeholders in launch arguments. */
module Arguments {
  import opened Prelude
  import opened Seqs

  type Substitutions = map<string, string>

  /** A piece of an argument: plain text, a closed placeholder, or a `${` that is never closed. */
  datatype Token = Text(text: string) | Placeholder(name: string) | Unclosed

  predicate OpensAt(s: string, i: int) {
    0 <= i && i + 2 <= |s| && s[i] == '$' && s[i + 1] == '{'
  }

  function FindOpen(s: string): (r: Option<nat>)
    ensures r.Some? ==> OpensAt(s, r.value) && forall i :: 0 <= i < r.value ==> !OpensAt(s, i)
    ensures r.None? ==> forall i :: !OpensAt(s, i)
  {
    if |s| < 2 then None
    else if OpensAt(s, 0) then Some(0)
    else
      assert forall i :: i > 0 ==> (OpensAt(s, i) <==> OpensAt(s[1..], i - 1));
      match FindOpen(s[1..])
      case None => None
      case Some(i) => Some(i + 1)
  }

  function FindClose(s: string): (r: Option<nat>)
    ensures r.Some? ==> r.value < |s| && s[r.value] == '}' && '}' !in s[..r.value]
    ensures r.None? ==> '}' !in s
  {
    if s == "" then None
    else if s[0] == '}' then Some(0)
    else
      match FindClose(s[1..])
      case None => None
      case Some(i) =>
        assert s[..i + 1] == [s[0]] + s[1..][..i];
        Some(i + 1)
  }

  /** What the first `${` opens. */
  function Head(s: string): Token
    requires FindOpen(s).Some?
  {
    var after := s[FindOpen(s).value + 2..];
    match FindClose(after)
    case Some(end) => Placeholder(after[..end])
    case None => Unclosed
  }

  /** The text after the first placeholder, or after a `${` that is never closed. */
  function Left(s: string): (left: string)
    requires FindOpen(s).Some?
    ensures |left| < |s|
  {
    var after := s[FindOpen(s).value + 2..];
    match FindClose(after)
    case Some(end) => after[end + 1..]
    case None => after
  }

  function Tokens(s: string): seq<Token>
    decreases |s|
  {
    match FindOpen(s)
    case None => [Text(s)]
    case Some(start) => [Text(s[..start])] + ([Head(s)] + Tokens(Left(s)))
  }

  function PrintToken(token: Token): string {
    match token
    case Text(text) => text
    case Placeholder(name) => "${" + name + "}"
    case Unclosed => "${"
  }

  function Print(tokens: seq<Token>): string {
    if tokens == [] then "" else PrintToken(tokens[0]) + Print(tokens[1..])
  }

  function RenderToken(token: Token, subs: Substitutions): string {
    match token
    case Placeholder(name) => if name in subs then subs[name] else PrintToken(token)
    case _ => PrintToken(token)
  }

  /** Each placeholder becomes its value; the value itself is not looked at. */
  function Render(tokens: seq<Token>, subs: Substitutions): string {
    if tokens == [] then "" else RenderToken(tokens[0], subs) + Render(tokens[1..], subs)
  }

  function Unbound(tokens: seq<Token>, subs: Substitutions): seq<string> {
    if tokens == [] then []
    else if tokens[0].Placeholder? && tokens[0].name !in subs then [tokens[0].name] + Unbound(tokens[1..], subs)
    else Unbound(tokens[1..], subs)
  }

  /** First occurrences only. */
  function Dedup(names: seq<string>): seq<string> {
    if names == [] then []
    else
      var before := Dedup(names[..|names| - 1]);
      if names[|names| - 1] in before then before else before + [names[|names| - 1]]
  }

  function UnboundIn(arguments: seq<string>, subs: Substitutions): seq<string> {
    if arguments == [] then []
    else UnboundIn(arguments[..|arguments| - 1], subs) + Unbound(Tokens(arguments[|arguments| - 1]), subs)
  }

  function Rendered(arguments: seq<string>, subs: Substitutions): seq<string> {
    seq(|arguments|, i requires 0 <= i < |arguments| => Render(Tokens(arguments[i]), subs))
  }

  /** The specification: tokenise, then render, or report the unbound names. */
  function Substituted(arguments: seq<string>, subs: Substitutions): Result<seq<string>, seq<string>> {
    if UnboundIn(arguments, subs) == [] then Ok(Rendered(arguments, subs))
    else Err(Dedup(UnboundIn(arguments, subs)))
  }

  lemma ConsPrint(token: Token, rest: seq<Token>)
    ensures Print([token] + rest) == PrintToken(token) + Print(rest)
  {
    assert ([token] + rest)[1..] == rest;
  }

  lemma ConsRender(token: Token, rest: seq<Token>, subs: Substitutions)
    ensures Render([token] + rest, subs) == RenderToken(token, subs) + Render(rest, subs)
  {
    assert ([token] + rest)[1..] == rest;
  }

  lemma ConsUnbound(token: Token, rest: seq<Token>, subs: Substitutions)
    ensures Unbound([token] + rest, subs)
         == (if token.Placeholder? && token.name !in subs then [token.name] else []) + Unbound(rest, subs)
  {
    assert ([token] + rest)[1..] == rest;
  }

  lemma ConsToken(token: Token, rest: seq<Token>, subs: Substitutions)
    ensures Print([token] + rest) == PrintToken(token) + Print(rest)
    ensures Render([token] + rest, subs) == RenderToken(token, subs) + Render(rest, subs)
    ensures Unbound([token] + rest, subs)
         == (if token.Placeholder? && token.name !in subs then [token.name] else []) + Unbound(rest, subs)
  {
    ConsPrint(token, rest);
    ConsRender(token, rest, subs);
    ConsUnbound(token, rest, subs);
  }

  /** The tokens of a text up to and including its first `${`, and what follows. */
  lemma TwoTokens(text: string, second: Token, rest: seq<Token>, subs: Substitutions)
    ensures Print([Text(text)] + ([second] + rest)) == text + PrintToken(second) + Print(rest)
    ensures Render([Text(text)] + ([second] + rest), subs) == text + RenderToken(second, subs) + Render(rest, subs)
    ensures Unbound([Text(text)] + ([second] + rest), subs) == Unbound([second] + rest, subs)
  {
    ConsToken(Text(text), [second] + rest, subs);
    ConsToken(second, rest, subs);
    Regroup(text, PrintToken(second), Print(rest));
    Regroup(text, RenderToken(second, subs), Render(rest, subs));
  }

  lemma OneText(text: string, subs: Substitutions)
    ensures Print([Text(text)]) == text && Render([Text(text)], subs) == text && Unbound([Text(text)], subs) == []
  {
  }

  lemma DedupSnoc(names: seq<string>, name: string)
    ensures Dedup(names + [name]) == if name in Dedup(names) then Dedup(names) else Dedup(names) + [name]
  {
  }

  method Note(name: string, missing: seq<string>, ghost seen: seq<string>) returns (noted: seq<string>)
    requires missing == Dedup(seen)
    ensures noted == Dedup(seen + [name])
  {
    DedupSnoc(seen, name);
    return if name in missing then missing else missing + [name];
  }

  /** What rendering produces for the text up to and including the first `${` and its placeholder. */
  function Piece(s: string, subs: Substitutions): string
    requires FindOpen(s).Some?
  {
    s[..FindOpen(s).value] + RenderToken(Head(s), subs)
  }

  function Named(s: string, subs: Substitutions): seq<string>
    requires FindOpen(s).Some?
  {
    if Head(s).Placeholder? && Head(s).name !in subs then [Head(s).name] else []
  }

  lemma NamedAtMostOne(s: string, subs: Substitutions, seen: seq<string>)
    requires FindOpen(s).Some?
    ensures seen + Named(s, subs)
         == if Head(s).Placeholder? && Head(s).name !in subs then seen + [Head(s).name] else seen
  {
  }

  lemma Step(s: string, subs: Substitutions)
    requires FindOpen(s).Some?
    ensures Render(Tokens(s), subs) == Piece(s, subs) + Render(Tokens(Left(s)), subs)
    ensures Unbound(Tokens(s), subs) == Named(s, subs) + Unbound(Tokens(Left(s)), subs)
  {
    TwoTokens(s[..FindOpen(s).value], Head(s), Tokens(Left(s)), subs);
    ConsToken(Head(s), Tokens(Left(s)), subs);
  }

  /** The text up to the next `${` is copied, a bound name replaced, an unbound one kept and noted. */
  method SubstituteNext(rest: string, subs: Substitutions, missing: seq<string>, ghost seen: seq<string>)
    returns (piece: string, left: string, noted: seq<string>)
    requires FindOpen(rest).Some? && missing == Dedup(seen)
    ensures piece == Piece(rest, subs) && left == Left(rest)
    ensures noted == Dedup(seen + Named(rest, subs))
  {
    var start := FindOpen(rest).value;
    var after := rest[start + 2..];
    piece, noted := rest[..start], missing;
    NamedAtMostOne(rest, subs, seen);
    match FindClose(after) {
      case Some(end) =>
        var name := after[..end];
        left := after[end + 1..];
        assert Head(rest) == Placeholder(name) && Left(rest) == left;
        if name in subs {
          piece := piece + subs[name];
        } else {
          noted := Note(name, missing, seen);
          piece := piece + ("${" + name + "}");
        }
      case None =>
        assert Head(rest) == Unclosed && Left(rest) == after;
        piece, left := piece + "${", after;
    }
  }

  method SubstituteOne(argument: string, subs: Substitutions, missing: seq<string>, ghost names: seq<string>)
    returns (result: string, noted: seq<string>)
    requires missing == Dedup(names)
    ensures result == Render(Tokens(argument), subs)
    ensures noted == Dedup(names + Unbound(Tokens(argument), subs))
  {
    var rest := argument;
    result, noted := "", missing;
    ghost var seen := names;
    assert "" + Render(Tokens(rest), subs) == Render(Tokens(rest), subs);
    while FindOpen(rest).Some?
      invariant result + Render(Tokens(rest), subs) == Render(Tokens(argument), subs)
      invariant noted == Dedup(seen)
      invariant seen + Unbound(Tokens(rest), subs) == names + Unbound(Tokens(argument), subs)
      decreases |rest|
    {
      var piece, left, more := SubstituteNext(rest, subs, noted, seen);
      Step(rest, subs);
      Regroup(result, piece, Render(Tokens(left), subs));
      Regroup(seen, Named(rest, subs), Unbound(Tokens(left), subs));
      seen := seen + Named(rest, subs);
      result, rest, noted := result + piece, left, more;
    }
    OneText(rest, subs);
    assert seen + [] == seen;
    result := result + rest;
  }

  lemma OneMore(before: seq<string>, argument: string, subs: Substitutions)
    ensures Rendered(before + [argument], subs) == Rendered(before, subs) + [Render(Tokens(argument), subs)]
    ensures UnboundIn(before + [argument], subs) == UnboundIn(before, subs) + Unbound(Tokens(argument), subs)
  {
  }

  method Substitute(arguments: seq<string>, subs: Substitutions) returns (r: Result<seq<string>, seq<string>>)
    ensures r == Substituted(arguments, subs)
  {
    var output: seq<string> := [];
    var missing: seq<string> := [];
    for n := 0 to |arguments|
      invariant output == Rendered(arguments[..n], subs)
      invariant missing == Dedup(UnboundIn(arguments[..n], subs))
    {
      var result, noted := SubstituteOne(arguments[n], subs, missing, UnboundIn(arguments[..n], subs));
      output, missing := output + [result], noted;
      OneMore(arguments[..n], arguments[n], subs);
      assert arguments[..n] + [arguments[n]] == arguments[..n + 1];
    }
    assert arguments[..|arguments|] == arguments;
    DedupEmpty(UnboundIn(arguments, subs));
    return if missing == [] then Ok(output) else Err(missing);
  }

  lemma {:induction false} DedupEmpty(names: seq<string>)
    ensures Dedup(names) == [] <==> names == []
  {
  }

  // ----- What the specification means -----

  lemma SplitAtOpen(s: string, start: nat)
    requires OpensAt(s, start)
    ensures s == s[..start] + "${" + s[start + 2..]
  {
  }

  lemma SplitAtClose(s: string, end: nat)
    requires end < |s| && s[end] == '}'
    ensures s == s[..end] + "}" + s[end + 1..]
  {
  }

  lemma HeadPrints(s: string)
    requires FindOpen(s).Some?
    ensures s == s[..FindOpen(s).value] + PrintToken(Head(s)) + Left(s)
  {
    var start := FindOpen(s).value;
    var after := s[start + 2..];
    SplitAtOpen(s, start);
    match FindClose(after)
    case None =>
    case Some(end) =>
      SplitAtClose(after, end);
      Around(s[..start], after[..end], after[end + 1..]);
  }

  lemma Around(a: string, b: string, c: string)
    ensures a + "${" + (b + "}" + c) == a + ("${" + b + "}") + c
  {
  }

  /** Tokenising loses nothing. */
  lemma {:induction false} TokensPrintBack(s: string)
    ensures Print(Tokens(s)) == s
    decreases |s|
  {
    match FindOpen(s) {
      case None => OneText(s, map[]);
      case Some(start) =>
        TokensPrintBack(Left(s));
        TwoTokens(s[..start], Head(s), Tokens(Left(s)), map[]);
        HeadPrints(s);
    }
  }

  /** No text piece hides an opening, no placeholder name a closing, and nothing closes after an unclosed one. */
  ghost predicate Canonical(tokens: seq<Token>)
    decreases tokens
  {
    tokens == [] ||
    (Canonical(tokens[1..]) &&
     match tokens[0]
     case Text(text) => forall k :: !OpensAt(text, k)
     case Placeholder(name) => '}' !in name
     case Unclosed => '}' !in Print(tokens[1..]))
  }

  lemma CanonicalCons(token: Token, rest: seq<Token>)
    requires Canonical(rest)
    requires match token
             case Text(text) => forall k :: !OpensAt(text, k)
             case Placeholder(name) => '}' !in name
             case Unclosed => '}' !in Print(rest)
    ensures Canonical([token] + rest)
  {
  }

  lemma {:induction false} TokensCanonical(s: string)
    ensures Canonical(Tokens(s))
    decreases |s|
  {
    match FindOpen(s) {
      case None =>
        assert Canonical([]);
        assert [Text(s)] == [Text(s)] + [];
        CanonicalCons(Text(s), []);
      case Some(start) =>
        var text := s[..start];
        assert forall k :: OpensAt(text, k) ==> OpensAt(s, k);
        TokensCanonical(Left(s));
        TokensPrintBack(Left(s));
        CanonicalCons(Head(s), Tokens(Left(s)));
        CanonicalCons(Text(text), [Head(s)] + Tokens(Left(s)));
    }
  }

  lemma {:induction false} UnboundMember(tokens: seq<Token>, subs: Substitutions, name: string)
    ensures name in Unbound(tokens, subs) <==> Placeholder(name) in tokens && name !in subs
  {
    if tokens != [] {
      UnboundMember(tokens[1..], subs, name);
      assert tokens == [tokens[0]] + tokens[1..];
    }
  }

  /** Some argument has a closed placeholder of this name. */
  ghost predicate Mentions(arguments: seq<string>, name: string) {
    exists i :: 0 <= i < |arguments| && Placeholder(name) in Tokens(arguments[i])
  }

  lemma MentionsSnoc(before: seq<string>, last: string, name: string)
    ensures Mentions(before + [last], name) <==> Mentions(before, name) || Placeholder(name) in Tokens(last)
  {
    if i :| 0 <= i < |before| && Placeholder(name) in Tokens(before[i]) {
      assert Placeholder(name) in Tokens((before + [last])[i]);
    }
    if Placeholder(name) in Tokens(last) {
      assert Placeholder(name) in Tokens((before + [last])[|before|]);
    }
  }

  lemma {:induction false} UnboundInMember(arguments: seq<string>, subs: Substitutions, name: string)
    ensures name in UnboundIn(arguments, subs) <==> name !in subs && Mentions(arguments, name)
  {
    if arguments != [] {
      var n := |arguments| - 1;
      UnboundInMember(arguments[..n], subs, name);
      UnboundMember(Tokens(arguments[n]), subs, name);
      MentionsSnoc(arguments[..n], arguments[n], name);
      assert arguments[..n] + [arguments[n]] == arguments;
    }
  }

  /** Substitution succeeds iff every closed placeholder is bound. */
  lemma OkIffBound(arguments: seq<string>, subs: Substitutions)
    ensures Substituted(arguments, subs).Ok?
       <==> forall name :: Mentions(arguments, name) ==> name in subs
  {
    var unbound := UnboundIn(arguments, subs);
    if unbound != [] {
      UnboundInMember(arguments, subs, unbound[0]);
    }
    forall name | Mentions(arguments, name) && unbound == []
      ensures name in subs
    {
      UnboundInMember(arguments, subs, name);
    }
  }

  function FirstIndex(names: seq<string>, name: string): (i: nat)
    requires name in names
    ensures i < |names| && names[i] == name && name !in names[..i]
  {
    if names[0] == name then 0
    else
      var i := FirstIndex(names[1..], name);
      assert names[..i + 1] == [names[0]] + names[1..][..i];
      i + 1
  }

  lemma {:induction false} FirstIndexPrefix(names: seq<string>, last: string, name: string)
    requires name in names
    ensures name in names + [last] && FirstIndex(names + [last], name) == FirstIndex(names, name)
  {
    if names[0] != name {
      assert name in names[1..];
      FirstIndexPrefix(names[1..], last, name);
      assert (names + [last])[1..] == names[1..] + [last];
    }
  }

  /** The reported names are the unbound ones, each once, in order of first appearance. */
  lemma {:induction false} DedupKeepsFirsts(names: seq<string>)
    ensures forall x :: x in Dedup(names) <==> x in names
    ensures forall p, q :: 0 <= p < q < |Dedup(names)| ==>
              FirstIndex(names, Dedup(names)[p]) < FirstIndex(names, Dedup(names)[q])
  {
    if names != [] {
      var n := |names| - 1;
      var before, last := names[..n], names[n];
      assert names == before + [last];
      DedupKeepsFirsts(before);
      forall x | x in before
        ensures FirstIndex(names, x) == FirstIndex(before, x)
      {
        FirstIndexPrefix(before, last, x);
      }
      if last !in Dedup(before) {
        assert FirstIndex(names, last) == n by {
          assert last !in before;
          assert names[FirstIndex(names, last)] == last;
        }
      }
    }
  }

  // ----- Substituting twice -----

  /** No `${` is followed anywhere by a `}`. */
  ghost predicate NothingClosed(s: string) {
    forall i, j :: OpensAt(s, i) && i + 2 <= j < |s| ==> s[j] != '}'
  }

  lemma NothingClosedAfter(s: string, start: nat)
    requires NothingClosed(s) && OpensAt(s, start)
    ensures '}' !in s[start + 2..] && NothingClosed(s[start + 2..])
  {
  }

  /** What has no closed placeholder is left as it is. */
  lemma {:induction false} NothingClosedUnchanged(s: string, subs: Substitutions)
    requires NothingClosed(s)
    ensures Render(Tokens(s), subs) == s && Unbound(Tokens(s), subs) == []
    decreases |s|
  {
    match FindOpen(s) {
      case None => OneText(s, subs);
      case Some(start) =>
        NothingClosedAfter(s, start);
        NothingClosedUnchanged(Left(s), subs);
        Step(s, subs);
        HeadPrints(s);
    }
  }

  /** Values that contain no `${` of their own. */
  ghost predicate Plain(subs: Substitutions) {
    forall name, i :: name in subs ==> !OpensAt(subs[name], i)
  }

  /** A value that cannot complete a `${` with its surroundings. Names containing `}` are never looked up. */
  predicate Insulating(value: string) {
    value != "" && value[0] != '{' && value[|value| - 1] != '$'
  }

  ghost predicate AllInsulating(subs: Substitutions) {
    forall name :: name in subs && '}' !in name ==> Insulating(subs[name])
  }

  lemma JoinHasNoNewOpening(text: string, value: string, rest: string, i: nat)
    requires Insulating(value) && (forall k :: !OpensAt(text, k)) && (forall k :: !OpensAt(value, k))
    ensures OpensAt(text + value + rest, i) ==> i >= |text| + |value| && OpensAt(rest, i - |text| - |value|)
  {
    var s, a, b := text + value + rest, |text|, |text| + |value|;
    if i + 2 <= a {
      assert OpensAt(s, i) <==> OpensAt(text, i);
    } else if i < a {
      assert s[a] == value[0];
    } else if i + 2 <= b {
      assert OpensAt(s, i) <==> OpensAt(value, i - a);
    } else if i < b {
      assert s[i] == value[|value| - 1];
    } else {
      assert OpensAt(s, i) <==> OpensAt(rest, i - b);
    }
  }

  lemma JoinHasNothingClosed(text: string, value: string, rest: string)
    requires Insulating(value) && (forall k :: !OpensAt(text, k)) && (forall k :: !OpensAt(value, k))
    requires NothingClosed(rest)
    ensures NothingClosed(text + value + rest)
  {
    var s, b := text + value + rest, |text| + |value|;
    forall i, j | OpensAt(s, i) && i + 2 <= j < |s|
      ensures s[j] != '}'
    {
      JoinHasNoNewOpening(text, value, rest, i);
      assert s[j] == rest[j - b];
    }
  }

  lemma {:induction false} RenderedHasNothingClosed(s: string, subs: Substitutions)
    requires Plain(subs) && AllInsulating(subs) && Unbound(Tokens(s), subs) == []
    ensures NothingClosed(Render(Tokens(s), subs))
    decreases |s|
  {
    match FindOpen(s) {
      case None => OneText(s, subs);
      case Some(start) =>
        var text := s[..start];
        assert forall k :: OpensAt(text, k) ==> OpensAt(s, k);
        Step(s, subs);
        match Head(s) {
          case Placeholder(name) =>
            RenderedHasNothingClosed(Left(s), subs);
            JoinHasNothingClosed(text, subs[name], Render(Tokens(Left(s)), subs));
          case _ =>
            UnclosedHasNothingClosed(s, start);
            NothingClosedUnchanged(s, subs);
        }
    }
  }

  lemma UnclosedHasNothingClosed(s: string, start: nat)
    requires FindOpen(s) == Some(start) && '}' !in s[start + 2..]
    ensures NothingClosed(s)
  {
  }

  /** Substituting the result again changes nothing and reports nothing. */
  ghost predicate Idempotent(argument: string, subs: Substitutions) {
    Unbound(Tokens(argument), subs) == [] ==>
      var once := Render(Tokens(argument), subs);
      Unbound(Tokens(once), subs) == [] && Render(Tokens(once), subs) == once
  }

  lemma InsulatingMeansIdempotent(argument: string, subs: Substitutions)
    requires Plain(subs) && AllInsulating(subs)
    ensures Idempotent(argument, subs)
  {
    if Unbound(Tokens(argument), subs) == [] {
      RenderedHasNothingClosed(argument, subs);
      NothingClosedUnchanged(Render(Tokens(argument), subs), subs);
    }
  }

  lemma FirstOpenIs(s: string, start: nat)
    requires OpensAt(s, start) && forall i :: 0 <= i < start ==> !OpensAt(s, i)
    ensures FindOpen(s) == Some(start)
  {
  }

  lemma {:induction false} FirstCloseIs(before: string, rest: string)
    requires '}' !in before
    ensures FindClose(before + "}" + rest) == Some(|before|)
  {
    var s := before + "}" + rest;
    if before != "" {
      FirstCloseIs(before[1..], rest);
      assert s[1..] == before[1..] + "}" + rest;
      assert s[0] == before[0];
    }
  }

  /** An argument holding one placeholder between two texts renders to text, value, text. */
  lemma OnePlaceholder(text: string, name: string, rest: string, subs: Substitutions)
    requires (forall i :: 0 <= i < |text| ==> !OpensAt(text + "${", i)) && '}' !in name
    ensures Tokens(text + "${" + name + "}" + rest) == [Text(text)] + ([Placeholder(name)] + Tokens(rest))
  {
    var s := text + "${" + name + "}" + rest;
    FirstOpening(text, name + "}" + rest);
    assert s == text + "${" + (name + "}" + rest);
    FirstCloseIs(name, rest);
    assert (name + "}" + rest)[..|name|] == name && (name + "}" + rest)[|name| + 1..] == rest;
  }

  /** What substitution makes of one argument, when every closed placeholder is bound. */
  function RenderedOne(s: string, subs: Substitutions): string {
    Render(Tokens(s), subs)
  }

  function MissingIn(s: string, subs: Substitutions): seq<string> {
    Unbound(Tokens(s), subs)
  }

  /**
   * From left to right: the text before the first `${` stays, the name up to the next brace becomes its value or is
   * missing, and the rest of the argument follows by the same rule.
   */
  lemma PlaceholderReplaced(text: string, name: string, rest: string, subs: Substitutions)
    requires (forall i :: 0 <= i < |text| ==> !OpensAt(text + "${", i)) && '}' !in name
    ensures var s := text + "${" + name + "}" + rest;
            && (name in subs ==> RenderedOne(s, subs) == text + subs[name] + RenderedOne(rest, subs)
                                 && MissingIn(s, subs) == MissingIn(rest, subs))
            && (name !in subs ==> MissingIn(s, subs) == [name] + MissingIn(rest, subs))
  {
    OnePlaceholder(text, name, rest, subs);
    TwoTokens(text, Placeholder(name), Tokens(rest), subs);
    ConsToken(Placeholder(name), Tokens(rest), subs);
  }

  /** An argument without `${`, and one whose only `${` is never closed, stay as they are. */
  lemma NothingReplaced(text: string, rest: string, subs: Substitutions)
    requires forall i :: !OpensAt(text, i)
    requires forall i :: 0 <= i < |text| ==> !OpensAt(text + "${", i)
    requires (forall i :: !OpensAt(rest, i)) && '}' !in rest
    ensures RenderedOne(text, subs) == text && MissingIn(text, subs) == []
    ensures RenderedOne(text + "${" + rest, subs) == text + "${" + rest && MissingIn(text + "${" + rest, subs) == []
  {
    OneText(text, subs);
    OneText(rest, subs);
    FirstOpening(text, rest);
    assert Tokens(text + "${" + rest) == [Text(text)] + ([Unclosed] + Tokens(rest));
    TwoTokens(text, Unclosed, Tokens(rest), subs);
    ConsToken(Unclosed, Tokens(rest), subs);
  }

  /** A whole command line succeeds with every argument rendered, or reports what is missing, each name once. */
  lemma CommandLine(arguments: seq<string>, subs: Substitutions)
    ensures Substituted(arguments, subs).Ok? <==>
            forall i :: 0 <= i < |arguments| ==> MissingIn(arguments[i], subs) == []
    ensures Substituted(arguments, subs).Ok? ==>
              && |Substituted(arguments, subs).value| == |arguments|
              && forall i :: 0 <= i < |arguments| ==>
                   Substituted(arguments, subs).value[i] == RenderedOne(arguments[i], subs)
  {
    NothingMissing(arguments, subs);
  }

  lemma {:induction false} NothingMissing(arguments: seq<string>, subs: Substitutions)
    ensures UnboundIn(arguments, subs) == [] <==>
            forall i :: 0 <= i < |arguments| ==> MissingIn(arguments[i], subs) == []
  {
    if arguments != [] {
      var before, last := arguments[..|arguments| - 1], arguments[|arguments| - 1];
      NothingMissing(before, subs);
      assert forall i :: 0 <= i < |before| ==> arguments[i] == before[i];
    }
  }

  lemma FirstOpening(text: string, after: string)
    requires forall i :: 0 <= i < |text| ==> !OpensAt(text + "${", i)
    ensures var s := text + "${" + after;
            FindOpen(s) == Some(|text|) && s[..|text|] == text && s[|text| + 2..] == after
  {
    var s := text + "${" + after;
    assert forall i :: 0 <= i < |text| && OpensAt(s, i) ==> OpensAt(text + "${", i);
    FirstOpenIs(s, |text|);
  }

  /**
   * Walking the print and the rendering of the same tokens along one string: a plain value can never reach
   * past the `${` it stands for, so the rendering falls behind at the first placeholder and never catches up.
   */
  lemma {:induction false} PlainRenderingFallsBehind(s: string, tokens: seq<Token>, subs: Substitutions,
                                                     printed: nat, rendered: nat)
    requires rendered <= printed <= |s|
    requires s[printed..] == Print(tokens) && s[rendered..] == Render(tokens, subs)
    requires Plain(subs) && Unbound(tokens, subs) == []
    ensures rendered == printed && forall t :: t in tokens ==> !t.Placeholder?
  {
    if tokens != [] {
      var p, r := OneTokenOn(s, tokens, subs, printed, rendered);
      PlainRenderingFallsBehind(s, tokens[1..], subs, p, r);
    }
  }

  /** Past the first token the rendering has not caught up, and past a placeholder it has fallen behind. */
  lemma OneTokenOn(s: string, tokens: seq<Token>, subs: Substitutions, printed: nat, rendered: nat)
    returns (p: nat, r: nat)
    requires rendered <= printed <= |s| && tokens != []
    requires s[printed..] == Print(tokens) && s[rendered..] == Render(tokens, subs)
    requires Plain(subs) && Unbound(tokens, subs) == []
    ensures r <= p <= |s| && s[p..] == Print(tokens[1..]) && s[r..] == Render(tokens[1..], subs)
    ensures Unbound(tokens[1..], subs) == []
    ensures if tokens[0].Placeholder? then r < p else p - r == printed - rendered
  {
    var token, rest := tokens[0], tokens[1..];
    var head, value := PrintToken(token), RenderToken(token, subs);
    assert tokens == [token] + rest;
    ConsToken(token, rest, subs);
    DropTwice(s, printed, head, Print(rest));
    DropTwice(s, rendered, value, Render(rest, subs));
    p, r := printed + |head|, rendered + |value|;
    if token.Placeholder? { ValueFallsShort(s, printed, rendered, token.name, subs, Print(rest), Render(rest, subs)); }
  }

  /** A plain value laid at or before a printed placeholder ends before it does. */
  lemma ValueFallsShort(s: string, printed: nat, rendered: nat, name: string, subs: Substitutions, ptail: string,
                        rtail: string)
    requires rendered <= printed <= |s| && Plain(subs) && name in subs
    requires s[printed..] == "${" + name + "}" + ptail && s[rendered..] == subs[name] + rtail
    ensures rendered + |subs[name]| < printed + |name| + 3
  {
    if |subs[name]| >= printed - rendered + 2 {
      ReachingValueOpens(s, printed, rendered, name, subs[name], ptail, rtail);
    }
  }

  lemma DropTwice(s: string, at: nat, head: string, tail: string)
    requires at <= |s| && s[at..] == head + tail
    ensures at + |head| <= |s| && s[at + |head|..] == tail
  {
  }

  /** A value laid at or before a printed placeholder and reaching past its brace contains the `${`. */
  lemma ReachingValueOpens(s: string, printed: nat, rendered: nat, name: string, value: string, ptail: string,
                           rtail: string)
    requires rendered <= printed <= |s|
    requires s[printed..] == "${" + name + "}" + ptail && s[rendered..] == value + rtail
    requires |value| >= printed - rendered + 2
    ensures OpensAt(value, printed - rendered)
  {
    var gap := printed - rendered;
    assert s[printed] == s[printed..][0] == '$' && s[printed + 1] == s[printed..][1] == '{';
    assert value[gap] == s[rendered..][gap] == s[printed];
    assert value[gap + 1] == s[rendered..][gap + 1] == s[printed + 1];
  }

  /** With plain values, the texts that substitution leaves alone are exactly those without placeholders. */
  lemma FixedHasNoPlaceholder(s: string, subs: Substitutions)
    requires Plain(subs) && Unbound(Tokens(s), subs) == [] && Render(Tokens(s), subs) == s
    ensures forall t :: t in Tokens(s) ==> !t.Placeholder?
  {
    TokensPrintBack(s);
    assert s[0..] == s;
    PlainRenderingFallsBehind(s, Tokens(s), subs, 0, 0);
  }

  lemma BreaksIdempotence(argument: string, subs: Substitutions, text: string, name: string, rest: string)
    requires Plain(subs) && Unbound(Tokens(argument), subs) == []
    requires Render(Tokens(argument), subs) == text + "${" + name + "}" + rest
    requires (forall i :: 0 <= i < |text| ==> !OpensAt(text + "${", i)) && '}' !in name
    ensures !Idempotent(argument, subs)
  {
    var once := Render(Tokens(argument), subs);
    OnePlaceholder(text, name, rest, subs);
    assert Placeholder(name) in Tokens(once);
    if Unbound(Tokens(once), subs) == [] && Render(Tokens(once), subs) == once {
      FixedHasNoPlaceholder(once, subs);
    }
  }

  /** What an argument with one bound placeholder and unremarkable surroundings renders to. */
  lemma RenderOne(text: string, name: string, rest: string, subs: Substitutions)
    requires (forall i :: 0 <= i < |text| ==> !OpensAt(text + "${", i)) && '}' !in name && name in subs
    requires forall i :: !OpensAt(rest, i)
    ensures Render(Tokens(text + "${" + name + "}" + rest), subs) == text + subs[name] + rest
    ensures Unbound(Tokens(text + "${" + name + "}" + rest), subs) == []
  {
    OnePlaceholder(text, name, rest, subs);
    TwoTokens(text, Placeholder(name), Tokens(rest), subs);
    ConsToken(Placeholder(name), Tokens(rest), subs);
    OneText(rest, subs);
  }

  lemma EmptyJoins(value: string)
    requires value == ""
    ensures "$" + value + "{}" == "" + "${" + "" + "}" + ""
  {
  }

  lemma EmptyValueBreaks(name: string, subs: Substitutions) returns (argument: string)
    requires Plain(subs) && name in subs && '}' !in name && subs[name] == ""
    ensures argument == "$" + "${" + name + "}" + "{}"
    ensures !Idempotent(argument, subs)
  {
    argument := "$" + "${" + name + "}" + "{}";
    RenderOne("$", name, "{}", subs);
    EmptyJoins(subs[name]);
    BreaksIdempotence(argument, subs, "", "", "");
  }

  lemma BraceValueBreaks(name: string, subs: Substitutions) returns (argument: string)
    requires Plain(subs) && name in subs && '}' !in name && subs[name] != "" && subs[name][0] == '{'
    ensures argument == "$" + "${" + name + "}" + "}"
    ensures !Idempotent(argument, subs)
  {
    argument := "$" + "${" + name + "}" + "}";
    RenderOne("$", name, "}", subs);
    var tail, end := BraceTail(subs[name]);
    BreaksIdempotence(argument, subs, "", tail[..end], tail[end + 1..]);
  }

  lemma BraceTail(value: string) returns (tail: string, end: nat)
    requires value != "" && value[0] == '{'
    ensures end < |tail| && '}' !in tail[..end]
    ensures "$" + value + "}" == "" + "${" + tail[..end] + "}" + tail[end + 1..]
  {
    tail := value[1..] + "}";
    assert tail[|tail| - 1] == '}';
    end := FindClose(tail).value;
    SplitAtClose(tail, end);
    assert "$" + value + "}" == "${" + tail;
  }

  lemma DollarText(value: string) returns (text: string)
    requires value != "" && value[|value| - 1] == '$' && forall i :: !OpensAt(value, i)
    ensures forall i :: 0 <= i < |text| ==> !OpensAt(text + "${", i)
    ensures "" + value + "{}" == text + "${" + "" + "}" + ""
  {
    text := value[..|value| - 1];
    forall i | 0 <= i < |text|
      ensures !OpensAt(text + "${", i)
    {
      assert (text + "${")[i] == value[i] && (text + "${")[i + 1] == value[i + 1];
      assert !OpensAt(value, i);
    }
  }

  lemma DollarValueBreaks(name: string, subs: Substitutions) returns (argument: string)
    requires Plain(subs) && name in subs && '}' !in name && subs[name] != ""
    requires subs[name][|subs[name]| - 1] == '$'
    ensures argument == "" + "${" + name + "}" + "{}"
    ensures !Idempotent(argument, subs)
  {
    argument := "" + "${" + name + "}" + "{}";
    RenderOne("", name, "{}", subs);
    var text := DollarText(subs[name]);
    BreaksIdempotence(argument, subs, text, "", "");
  }

  /** Every argument can be substituted twice without a difference. */
  ghost predicate AlwaysIdempotent(subs: Substitutions) {
    forall argument :: Idempotent(argument, subs)
  }

  lemma NotAlways(argument: string, subs: Substitutions)
    requires !Idempotent(argument, subs)
    ensures !AlwaysIdempotent(subs)
  {
  }

  lemma UninsulatedBreaks(subs: Substitutions, name: string)
    requires Plain(subs) && name in subs && '}' !in name && !Insulating(subs[name])
    ensures !AlwaysIdempotent(subs)
  {
    var argument;
    if subs[name] == "" {
      argument := EmptyValueBreaks(name, subs);
    } else if subs[name][0] == '{' {
      argument := BraceValueBreaks(name, subs);
    } else {
      argument := DollarValueBreaks(name, subs);
    }
    NotAlways(argument, subs);
  }

  /**
   * With values that contain no `${` themselves, substituting twice is the same as substituting once for
   * every argument exactly when each value is non-empty, does not begin with `{` and does not end with `$`.
   */
  lemma IdempotentIffInsulating(subs: Substitutions)
    requires Plain(subs)
    ensures AlwaysIdempotent(subs) <==> AllInsulating(subs)
  {
    if AllInsulating(subs) {
      forall argument
        ensures Idempotent(argument, subs)
      {
        InsulatingMeansIdempotent(argument, subs);
      }
    }
    if !AllInsulating(subs) {
      var name :| name in subs && '}' !in name && !Insulating(subs[name]);
      UninsulatedBreaks(subs, name);
    }
  }
}
