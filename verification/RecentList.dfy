// The browser's recent workspaces: a list without repeats, most recent first, cut
// to a budget, and written to a cookie.
// Sources: apps/api/src/auth/cookies.ts, packages/contracts/src/cookies.ts and
// packages/contracts/src/slug.ts.

module RecentList {
  import Text

  const MAX_TENANT_PAIRS: nat := 5
  const SLUG_MIN_LENGTH: nat := 3
  const SLUG_MAX_LENGTH: nat := 30

  predicate SlugChar(c: char) {
    ('a' <= c <= 'z') || ('0' <= c <= '9')
  }

  /** Alphanumeric groups joined by single hyphens, of a slug's length. */
  predicate IsSlug(s: string) {
    && SLUG_MIN_LENGTH <= |s| <= SLUG_MAX_LENGTH
    && SlugChar(s[0]) && SlugChar(s[|s| - 1])
    && (forall c :: c in s ==> SlugChar(c) || c == '-')
    && (forall i :: 0 <= i < |s| - 1 ==> SlugChar(s[i]) || SlugChar(s[i + 1]))
  }

  predicate NoRepeats(s: seq<string>) {
    forall i, j :: 0 <= i < j < |s| ==> s[i] != s[j]
  }

  predicate AllSlugs(s: seq<string>) {
    forall x :: x in s ==> IsSlug(x)
  }

  /** `[...new Set(slugs)]`: each once, where it first was. */
  function Unique(s: seq<string>): (r: seq<string>)
    ensures NoRepeats(r) && forall x :: x in r <==> x in s
  {
    if s == [] then []
    else
      var before := Unique(s[..|s| - 1]);
      assert s == s[..|s| - 1] + [s[|s| - 1]];
      if s[|s| - 1] in before then before else before + [s[|s| - 1]]
  }

  function Take(s: seq<string>, n: nat): seq<string> {
    if |s| <= n then s else s[..n]
  }

  function Except(s: seq<string>, gone: set<string>): (r: seq<string>)
    ensures forall x :: x in r <==> x in s && x !in gone
    ensures NoRepeats(s) ==> NoRepeats(r)
    ensures |r| <= |s|
  {
    if s == [] then []
    else
      var before := Except(s[..|s| - 1], gone);
      assert s == s[..|s| - 1] + [s[|s| - 1]];
      if s[|s| - 1] in gone then before else before + [s[|s| - 1]]
  }

  function Slugs(s: seq<string>): (r: seq<string>)
    ensures forall x :: x in r <==> x in s && IsSlug(x)
  {
    if s == [] then []
    else
      var before := Slugs(s[..|s| - 1]);
      assert s == s[..|s| - 1] + [s[|s| - 1]];
      if IsSlug(s[|s| - 1]) then before + [s[|s| - 1]] else before
  }

  /** `parseRecent`: whatever the browser sends, only slugs, each once, four budgets at most. */
  function Parse(value: string): (r: seq<string>)
    ensures NoRepeats(r) && AllSlugs(r) && |r| <= 4 * MAX_TENANT_PAIRS
  {
    Take(Unique(Slugs(Text.Split(value, '.'))), 4 * MAX_TENANT_PAIRS)
  }

  // ---- What a slug is, and which of them a cookie's text gives ----

  /** Letters and digits, at least one. */
  predicate Group(s: string) {
    s != "" && forall c :: c in s ==> SlugChar(c)
  }

  predicate Grouped(s: string) {
    && s != "" && SlugChar(s[0]) && SlugChar(s[|s| - 1])
    && (forall c :: c in s ==> SlugChar(c) || c == '-')
    && (forall i :: 0 <= i < |s| - 1 ==> SlugChar(s[i]) || SlugChar(s[i + 1]))
  }

  lemma {:induction false} GroupedIff(s: string)
    ensures Grouped(s) <==> forall p :: p in Text.Split(s, '-') ==> Group(p)
    decreases |s|
  {
    hide Text.Split;
    var n := Text.First(s, '-');
    if n == |s| {
      assert s[..n] == s;
      Text.SplitOne(s, '-');
      assert s in [s];
      assert Grouped(s) <==> Group(s);
    } else {
      var a, rest := s[..n], s[n + 1..];
      assert s == a + ['-'] + rest;
      Text.SplitMore(a, '-', rest);
      GroupedIff(rest);
      GroupedMore(a, rest);
      assert a in [a];
    }
  }

  lemma GroupedMore(a: string, rest: string)
    requires '-' !in a
    ensures Grouped(a + ['-'] + rest) <==> Group(a) && Grouped(rest)
  {
    var s := a + ['-'] + rest;
    assert s[|a|] == '-' && !SlugChar('-');
    if Grouped(s) {
      assert s[0] == if a == "" then '-' else a[0];
      assert s[|s| - 1] == if rest == "" then '-' else rest[|rest| - 1];
      assert SlugChar(s[|a| + 1]) by { assert SlugChar(s[|a|]) || SlugChar(s[|a| + 1]); }
      forall c | c in a ensures SlugChar(c) { assert c in s; }
      forall c | c in rest ensures SlugChar(c) || c == '-' { assert c in s; }
      forall i | 0 <= i < |rest| - 1 ensures SlugChar(rest[i]) || SlugChar(rest[i + 1]) {
        var j := |a| + 1 + i;
        assert s[j] == rest[i] && s[j + 1] == rest[i + 1] && (SlugChar(s[j]) || SlugChar(s[j + 1]));
      }
    }
    if Group(a) && Grouped(rest) {
      forall i | 0 <= i < |s| - 1 ensures SlugChar(s[i]) || SlugChar(s[i + 1]) {
        if i < |a| {
          assert s[i] == a[i] && a[i] in a;
        } else if i == |a| {
          assert s[i + 1] == rest[0];
        } else {
          var j := i - |a| - 1;
          assert s[i] == rest[j] && s[i + 1] == rest[j + 1] && (SlugChar(rest[j]) || SlugChar(rest[j + 1]));
        }
      }
      assert s[0] in a;
    }
  }

  /** A slug: three to thirty characters, groups of letters and digits with one hyphen between each and the next. */
  lemma SlugIff(s: string)
    ensures IsSlug(s) <==>
            3 <= |s| <= 30 && forall group :: group in Text.Split(s, '-') ==>
              group != "" && forall c :: c in group ==> ('a' <= c <= 'z') || ('0' <= c <= '9')
  {
    hide Text.Split;
    GroupedIff(s);
    assert forall p :: p in Text.Split(s, '-') ==> (Group(p) <==> p != "" && forall c :: c in p ==> ('a' <= c <= 'z') || ('0' <= c <= '9'));
  }

  /** Every slug among the pieces is read, but for those that come after twenty others; and nothing else is. */
  lemma ParseReads(value: string, x: string)
    ensures x in Parse(value) ==> IsSlug(x) && x in Text.Split(value, '.')
    ensures IsSlug(x) && x in Text.Split(value, '.') && x !in Parse(value) ==> |Parse(value)| == 20
  {
    hide Text.Split, IsSlug;
    var all := Unique(Slugs(Text.Split(value, '.')));
    assert x in Parse(value) ==> x in all;
  }

  // ---- The list survives its own cookie ----

  lemma {:induction false} UniqueOfUnique(s: seq<string>)
    requires NoRepeats(s)
    ensures Unique(s) == s
  {
    if s != [] {
      UniqueOfUnique(s[..|s| - 1]);
      assert s == s[..|s| - 1] + [s[|s| - 1]];
    }
  }

  lemma {:induction false} SlugsOfSlugs(s: seq<string>)
    requires AllSlugs(s)
    ensures Slugs(s) == s
  {
    if s != [] {
      SlugsOfSlugs(s[..|s| - 1]);
      assert s == s[..|s| - 1] + [s[|s| - 1]];
    }
  }

  lemma ParseJoin(list: seq<string>)
    requires NoRepeats(list) && AllSlugs(list) && |list| <= 4 * MAX_TENANT_PAIRS
    ensures Parse(Text.Join(list, '.')) == list
  {
    hide NoRepeats, Text.Join, Text.Split, Slugs, Unique;
    if list == [] {
      ParseNothing();
    } else {
      forall p | p in list ensures '.' !in p {
        NoDotInSlugs(p);
      }
      Text.SplitJoin(list, '.');
      SlugsOfSlugs(list);
      UniqueOfUnique(list);
    }
  }

  lemma NoDotInSlugs(s: string)
    requires IsSlug(s)
    ensures '.' !in s
  {
  }

  lemma ParseNothing()
    ensures Text.Join([], '.') == "" && Parse("") == []
  {
    Text.FirstIs("", '.', 0);
    assert Text.Split("", '.') == [""];
    assert [""][..0] == [] && !IsSlug("");
    assert Slugs([""]) == [];
  }

  // ---- Most recent first ----

  lemma UniqueSnoc(s: seq<string>, x: string)
    ensures Unique(s + [x]) == if x in s then Unique(s) else Unique(s) + [x]
  {
    assert (s + [x])[..|s|] == s;
  }

  lemma ExceptSnoc(s: seq<string>, x: string, gone: set<string>)
    ensures Except(s + [x], gone) == if x in gone then Except(s, gone) else Except(s, gone) + [x]
  {
    assert (s + [x])[..|s|] == s;
  }

  lemma {:induction false} UniqueGrows(a: seq<string>, b: seq<string>)
    ensures Unique(a) <= Unique(a + b)
    decreases |b|
  {
    if b == [] {
      assert a + b == a;
    } else {
      UniqueGrows(a, b[..|b| - 1]);
      assert (a + b)[..|a + b| - 1] == a + b[..|b| - 1];
    }
  }

  /** Repeats behind may be dropped first. */
  lemma {:induction false} UniqueBehind(m: seq<string>, s: seq<string>)
    ensures Unique(m + s) == Unique(m + Unique(s))
    decreases |s|
  {
    if s != [] {
      var less, last := s[..|s| - 1], s[|s| - 1];
      UniqueBehind(m, less);
      assert s == less + [last];
      OneMoreBehind(m, less, last);
    }
  }

  lemma OneMoreBehind(m: seq<string>, less: seq<string>, last: string)
    requires Unique(m + less) == Unique(m + Unique(less))
    ensures Unique(m + (less + [last])) == Unique(m + Unique(less + [last]))
  {
    hide NoRepeats, Unique;
    assert m + (less + [last]) == (m + less) + [last];
    UniqueSnoc(m + less, last);
    UniqueSnoc(less, last);
    if last !in less {
      assert m + (Unique(less) + [last]) == (m + Unique(less)) + [last];
      UniqueSnoc(m + Unique(less), last);
    }
  }

  /** What is cut behind the budget never comes back by moving others to the front. */
  lemma CutsCompose(m: seq<string>, s: seq<string>, n: nat)
    requires NoRepeats(s)
    ensures Take(Unique(m + Take(s, n)), n) == Take(Unique(m + s), n)
  {
    if |s| > n {
      var cut := s[..n];
      assert m + s == m + cut + s[n..];
      UniqueGrows(m + cut, s[n..]);
      ManyDistinct(Unique(m + cut), cut);
    }
  }

  lemma ManyDistinct(r: seq<string>, cut: seq<string>)
    requires NoRepeats(r) && NoRepeats(cut) && forall x :: x in cut ==> x in r
    ensures |r| >= |cut|
  {
    SetSize(cut);
    SetSize(r);
    Subset(Elements(cut), Elements(r));
  }

  function Elements(s: seq<string>): set<string> {
    set x | x in s
  }

  lemma {:induction false} SetSize(s: seq<string>)
    requires NoRepeats(s)
    ensures |Elements(s)| == |s|
  {
    if s != [] {
      SetSize(s[..|s| - 1]);
      assert s == s[..|s| - 1] + [s[|s| - 1]];
      assert Elements(s) == Elements(s[..|s| - 1]) + {s[|s| - 1]};
    }
  }

  lemma {:induction false} Subset(a: set<string>, b: set<string>)
    requires a <= b
    ensures |a| <= |b|
  {
    if a != {} {
      var x :| x in a;
      Subset(a - {x}, b - {x});
    }
  }

  lemma {:induction false} ExceptGrows(a: seq<string>, b: seq<string>, gone: set<string>)
    ensures Except(a, gone) <= Except(a + b, gone)
    decreases |b|
  {
    hide NoRepeats;
    if b == [] {
      assert a + b == a;
    } else {
      var less, last := b[..|b| - 1], b[|b| - 1];
      ExceptGrows(a, less, gone);
      assert a + b == (a + less) + [last];
      ExceptSnoc(a + less, last, gone);
    }
  }

  lemma {:induction false} UniqueExcept(s: seq<string>, gone: set<string>)
    ensures Unique(Except(s, gone)) == Except(Unique(s), gone)
  {
    hide NoRepeats;
    if s != [] {
      var less, last := s[..|s| - 1], s[|s| - 1];
      UniqueExcept(less, gone);
      assert s == less + [last];
      ExceptSnoc(less, last, gone);
      UniqueSnoc(less, last);
      UniqueSnoc(Except(less, gone), last);
      ExceptSnoc(Unique(less), last, gone);
    }
  }

  /** A prefix cut to the budget stays one when workspaces are moved to the front, or taken out. */
  lemma FrontKeepsPrefix(m: seq<string>, list: seq<string>, all: seq<string>, n: nat)
    requires list <= Unique(all)
    ensures Take(Unique(m + list), n) <= Unique(m + all)
  {
    hide NoRepeats, Unique;
    var u := Unique(all);
    var rest := u[|list|..];
    UniqueBehind(m, all);
    assert u == list + rest;
    Regroup(m, list, rest);
    UniqueGrows(m + list, rest);
    TakeIsPrefix(Unique(m + list), n);
  }

  lemma Regroup(m: seq<string>, list: seq<string>, rest: seq<string>)
    ensures m + (list + rest) == (m + list) + rest
  {
  }

  lemma TakeIsPrefix(s: seq<string>, n: nat)
    ensures Take(s, n) <= s
  {
  }

  lemma ExceptKeepsPrefix(list: seq<string>, all: seq<string>, gone: set<string>)
    requires list <= Unique(all)
    ensures Except(list, gone) <= Unique(Except(all, gone))
  {
    var u := Unique(all);
    UniqueExcept(all, gone);
    assert u == list + u[|list|..];
    ExceptGrows(list, u[|list|..], gone);
  }

  /** Minting one workspace moves it to the front. */
  lemma {:induction false} MovesToFront(s: string, list: seq<string>)
    requires NoRepeats(list)
    ensures Unique([s] + list) == [s] + Except(list, {s})
  {
    if list == [] {
      UniqueSnoc([], s);
      assert [s] + list == [] + [s];
    } else {
      var less, last := list[..|list| - 1], list[|list| - 1];
      MovesToFront(s, less);
      assert list == less + [last];
      MovesOneMore(s, less, last);
    }
  }

  lemma MovesOneMore(s: string, less: seq<string>, last: string)
    requires Unique([s] + less) == [s] + Except(less, {s}) && last !in less
    ensures Unique([s] + (less + [last])) == [s] + Except(less + [last], {s})
  {
    hide NoRepeats, Unique, Except;
    assert [s] + (less + [last]) == ([s] + less) + [last];
    UniqueSnoc([s] + less, last);
    ExceptSnoc(less, last, {s});
  }
}
