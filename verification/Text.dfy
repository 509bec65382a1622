/** Splitting and joining strings, as `str::split` on a character and `[_]::join` do. */
module Text {

  /** The pieces of `s` between occurrences of `c`; one empty piece when `s` is empty. */
  function Split(s: string, c: char): (r: seq<string>)
    ensures |r| >= 1
  {
    if s == [] then [""]
    else if s[0] == c then [""] + Split(s[1..], c)
    else
      var r := Split(s[1..], c);
      [[s[0]] + r[0]] + r[1..]
  }

  function Join(parts: seq<string>, sep: string): string {
    if parts == [] then ""
    else if |parts| == 1 then parts[0]
    else parts[0] + sep + Join(parts[1..], sep)
  }

  /** `str::replace` for single characters. */
  function ReplaceChar(s: string, from: char, to: char): (r: string)
    ensures |r| == |s|
    ensures forall i :: 0 <= i < |s| ==> r[i] == if s[i] == from then to else s[i]
  {
    if s == [] then "" else [if s[0] == from then to else s[0]] + ReplaceChar(s[1..], from, to)
  }

  lemma SplitCons(x: char, s: string, c: char)
    ensures Split([x] + s, c)
         == if x == c then [""] + Split(s, c) else [[x] + Split(s, c)[0]] + Split(s, c)[1..]
  {
  }

  lemma Glue(x: char, c: char, r: seq<string>, t: seq<string>)
    requires r != []
    ensures (if x == c then [""] + (r + t) else [[x] + (r + t)[0]] + (r + t)[1..])
         == (if x == c then [""] + r else [[x] + r[0]] + r[1..]) + t
  {
  }

  lemma {:induction false} SplitConcat(a: string, b: string, c: char)
    ensures Split(a + [c] + b, c) == Split(a, c) + Split(b, c)
  {
    if a == [] {
      assert a + [c] + b == [c] + b;
      SplitCons(c, b, c);
    } else {
      SplitConcat(a[1..], b, c);
      assert a + [c] + b == [a[0]] + (a[1..] + [c] + b);
      SplitCons(a[0], a[1..] + [c] + b, c);
      assert a == [a[0]] + a[1..];
      SplitCons(a[0], a[1..], c);
      Glue(a[0], c, Split(a[1..], c), Split(b, c));
    }
  }

  lemma SplitFour(p: string, q: string, r: string, t: string, c: char)
    ensures Split(p + [c] + q + [c] + r + [c] + t, c) == Split(p, c) + Split(q, c) + Split(r, c) + Split(t, c)
  {
    SplitConcat(p + [c] + q + [c] + r, t, c);
    SplitConcat(p + [c] + q, r, c);
    SplitConcat(p, q, c);
  }

  lemma {:induction false} SplitWhole(s: string, c: char)
    requires c !in s
    ensures Split(s, c) == [s]
  {
    if s != [] {
      SplitWhole(s[1..], c);
      assert [s[0]] + s[1..] == s;
    }
  }

  lemma {:induction false} SplitSeveral(s: string, c: char)
    requires c in s
    ensures |Split(s, c)| >= 2
  {
    if s[0] != c {
      assert c in s[1..];
      SplitSeveral(s[1..], c);
    }
  }

  lemma {:induction false} SplitPiecesFree(s: string, c: char)
    ensures forall i :: 0 <= i < |Split(s, c)| ==> c !in Split(s, c)[i]
  {
    if s != [] {
      SplitPiecesFree(s[1..], c);
    }
  }

  /** Joining the pieces restores the string. */
  lemma {:induction false} JoinSplit(s: string, c: char)
    ensures Join(Split(s, c), [c]) == s
  {
    if s != [] {
      JoinSplit(s[1..], c);
      var r := Split(s[1..], c);
      if s[0] == c {
        assert ([""] + r)[1..] == r;
      } else {
        var first := [s[0]] + r[0];
        assert ([first] + r[1..])[1..] == r[1..];
        assert Join([first] + r[1..], [c]) == [s[0]] + Join(r, [c]);
      }
    }
  }

  /** Pieces free of the separator are what splitting their join gives back. */
  lemma {:induction false} SplitJoin(parts: seq<string>, c: char)
    requires parts != [] && forall i :: 0 <= i < |parts| ==> c !in parts[i]
    ensures Split(Join(parts, [c]), c) == parts
  {
    SplitWhole(parts[0], c);
    if |parts| == 1 {
      assert parts == [parts[0]];
    } else {
      SplitJoin(parts[1..], c);
      SplitConcat(parts[0], Join(parts[1..], [c]), c);
      assert parts == [parts[0]] + parts[1..];
    }
  }

  lemma {:induction false} JoinConcat(a: seq<string>, b: seq<string>, sep: string)
    requires a != [] && b != []
    ensures Join(a + b, sep) == Join(a, sep) + sep + Join(b, sep)
  {
    if |a| == 1 {
      assert (a + b)[1..] == b;
    } else {
      JoinConcat(a[1..], b, sep);
      assert (a + b)[1..] == a[1..] + b;
      assert Join(a + b, sep) == a[0] + sep + (Join(a[1..], sep) + sep + Join(b, sep));
    }
  }

  lemma {:induction false} JoinFree(parts: seq<string>, sep: string, c: char)
    requires c !in sep && forall i :: 0 <= i < |parts| ==> c !in parts[i]
    ensures c !in Join(parts, sep)
  {
    if |parts| > 1 {
      JoinFree(parts[1..], sep, c);
    }
  }

  /** Replacing one separator by another the string does not contain moves the split points only. */
  lemma {:induction false} SplitReplaced(s: string, from: char, to: char)
    requires to !in s
    ensures Split(ReplaceChar(s, from, to), to) == Split(s, from)
  {
    if s != [] {
      SplitReplaced(s[1..], from, to);
      var r := ReplaceChar(s, from, to);
      assert r[1..] == ReplaceChar(s[1..], from, to);
    }
  }
}
