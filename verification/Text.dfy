// Text cut and glued at a separator.

module Text {
  function Join(parts: seq<string>, sep: char): string {
    if parts == [] then ""
    else if |parts| == 1 then parts[0]
    else parts[0] + [sep] + Join(parts[1..], sep)
  }

  /** Where the first separator is, or the length. */
  function First(s: string, sep: char): (n: nat)
    ensures n <= |s| && (n < |s| ==> s[n] == sep) && sep !in s[..n]
  {
    if s == "" || s[0] == sep then 0
    else
      var n := First(s[1..], sep);
      assert s[..n + 1] == [s[0]] + s[1..][..n];
      n + 1
  }

  /** The pieces between separators; a text with none is one piece. */
  function Split(s: string, sep: char): (parts: seq<string>)
    ensures parts != []
    decreases |s|
  {
    var n := First(s, sep);
    if n == |s| then [s] else [s[..n]] + Split(s[n + 1..], sep)
  }

  lemma {:induction false} FirstIs(s: string, sep: char, n: nat)
    requires n <= |s| && (n < |s| ==> s[n] == sep) && sep !in s[..n]
    ensures First(s, sep) == n
  {
    if n > 0 {
      assert s[0] == s[..n][0] && s[1..][..n - 1] == s[..n][1..];
      FirstIs(s[1..], sep, n - 1);
    }
  }

  lemma FirstAt(a: string, sep: char, rest: string)
    requires sep !in a
    ensures First(a, sep) == |a|
    ensures First(a + [sep] + rest, sep) == |a|
  {
    assert a[..|a|] == a && (a + [sep] + rest)[..|a|] == a;
    FirstIs(a, sep, |a|);
    FirstIs(a + [sep] + rest, sep, |a|);
  }

  lemma JoinOne(s: string, sep: char)
    ensures Join([s], sep) == s
  {
  }

  lemma JoinMore(a: string, rest: seq<string>, sep: char)
    requires rest != []
    ensures Join([a] + rest, sep) == a + [sep] + Join(rest, sep)
  {
    assert ([a] + rest)[1..] == rest;
  }

  lemma SplitOne(a: string, sep: char)
    requires sep !in a
    ensures Split(a, sep) == [a]
  {
    FirstAt(a, sep, "");
    assert a[..|a|] == a;
  }

  lemma SplitMore(a: string, sep: char, rest: string)
    requires sep !in a
    ensures Split(a + [sep] + rest, sep) == [a] + Split(rest, sep)
  {
    var s := a + [sep] + rest;
    FirstAt(a, sep, rest);
    assert s[..|a|] == a && s[|a| + 1..] == rest;
  }

  /** Pieces without the separator come back as they were. */
  lemma {:induction false} SplitJoin(parts: seq<string>, sep: char)
    requires parts != [] && forall p :: p in parts ==> sep !in p
    ensures Split(Join(parts, sep), sep) == parts
  {
    hide Split, Join;
    var a, rest := parts[0], parts[1..];
    assert parts == [a] + rest;
    if rest == [] {
      assert parts == [a];
      JoinOne(a, sep);
      SplitOne(a, sep);
    } else {
      JoinMore(a, rest, sep);
      SplitMore(a, sep, Join(rest, sep));
      SplitJoin(rest, sep);
    }
  }

  /** Cutting and gluing again at the same separator never loses a text either. */
  lemma {:induction false} JoinSplit(s: string, sep: char)
    ensures Join(Split(s, sep), sep) == s
    decreases |s|
  {
    hide Split, Join;
    var n := First(s, sep);
    if n == |s| {
      assert s[..n] == s;
      SplitOne(s, sep);
      JoinOne(s, sep);
    } else {
      var rest := s[n + 1..];
      assert s == s[..n] + [sep] + rest;
      SplitMore(s[..n], sep, rest);
      JoinMore(s[..n], Split(rest, sep), sep);
      JoinSplit(rest, sep);
    }
  }

  lemma {:induction false} SplitAppend(a: string, sep: char, rest: string)
    ensures Split(a + [sep] + rest, sep) == Split(a, sep) + Split(rest, sep)
    decreases |a|
  {
    hide Split;
    var n := First(a, sep);
    if n == |a| {
      assert a[..n] == a;
      SplitOne(a, sep);
      SplitMore(a, sep, rest);
    } else {
      var b, c := a[..n], a[n + 1..];
      SplitAppend(c, sep, rest);
      assert a == b + [sep] + c;
      assert a + [sep] + rest == b + [sep] + (c + [sep] + rest);
      SplitMore(b, sep, c);
      SplitMore(b, sep, c + [sep] + rest);
    }
  }
}
