// SLA targets as people write them: "1h 15m", "3d".
// Source: apps/app/lib/duration.ts.

module Durations {
  import opened LogOrder
  import opened Digits

  datatype Unit = Day | Hour | Minute

  function Size(u: Unit): nat {
    match u
    case Day => 1440
    case Hour => 60
    case Minute => 1
  }

  function Letter(u: Unit): char {
    match u
    case Day => 'd'
    case Hour => 'h'
    case Minute => 'm'
  }

  function UnitOf(c: char): Option<Unit> {
    if c == 'd' then Some(Day) else if c == 'h' then Some(Hour) else if c == 'm' then Some(Minute) else None
  }

  datatype Group = Group(count: nat, unit: Unit)

  function Minutes(g: Group): nat {
    g.count * Size(g.unit)
  }

  function Total(groups: seq<Group>): nat {
    if groups == [] then 0 else Minutes(groups[0]) + Total(groups[1..])
  }

  // ---- Writing ----

  function Part(g: Group): string {
    Decimal(g.count) + [Letter(g.unit)]
  }

  /** `parts.join(" ")` */
  function Spell(groups: seq<Group>): string
    decreases |groups|, 0
  {
    if groups == [] then "" else Part(groups[0]) + Spaced(groups[1..])
  }

  function Spaced(groups: seq<Group>): string
    decreases |groups|, 1
  {
    if groups == [] then "" else " " + Spell(groups)
  }

  /** Only the counts that are not zero, days first. */
  function GroupsOf(minutes: nat): seq<Group> {
    Nonzero(minutes / 1440, Day) + Nonzero(minutes % 1440 / 60, Hour) + Nonzero(minutes % 60, Minute)
  }

  function Nonzero(count: nat, unit: Unit): seq<Group> {
    if count > 0 then [Group(count, unit)] else []
  }

  function Format(minutes: nat): string {
    if minutes == 0 then "0m" else Spell(GroupsOf(minutes))
  }

  // ---- Reading ----

  /** `toLowerCase`, where it matters: no character but a letter's capital becomes a digit or a unit. */
  function Lower(s: string): (r: string)
    ensures |r| == |s|
  {
    seq(|s|, i requires 0 <= i < |s| => if 'A' <= s[i] <= 'Z' then (s[i] as int + 32) as char else s[i])
  }

  predicate AllDigits(s: string) {
    forall c :: c in s ==> IsDigit(c)
  }

  /** One or more of: spaces, digits, spaces, a unit; then spaces to the end. What they add up to. */
  function Scan(s: string): Option<nat> {
    ScanGroup(SkipSpaces(s))
  }

  function ScanGroup(a: string): Option<nat>
    decreases |a|, 0
  {
    var n := Run(a, IsDigit);
    var b := SkipSpaces(a[n..]);
    if n == 0 || b == "" || UnitOf(b[0]).None? then None
    else
      assert AllDigits(a[..n]);
      Then(Value(a[..n]) * Size(UnitOf(b[0]).value), b[1..])
  }

  /** One group's minutes, and what follows it. */
  function Then(here: nat, rest: string): Option<nat>
    decreases |rest|, 1
  {
    var next := SkipSpaces(rest);
    if next == "" then Some(here)
    else
      var more := ScanGroup(next);
      if more.None? then None else Some(here + more.value)
  }

  function Positive(n: nat): Option<nat> {
    if n > 0 then Some(n) else None
  }

  function Parse(input: string): Option<nat> {
    var text := Lower(Trim(input));
    if text != "" && AllDigits(text) then Positive(Value(text))
    else
      var total := Scan(text);
      if total.None? then None else Positive(total.value)
  }

  // ---- Reading what was written ----

  lemma {:induction false} SpellShape(groups: seq<Group>)
    requires groups != []
    ensures var s := Spell(groups); s != "" && IsDigit(s[0]) && UnitOf(s[|s| - 1]).Some? && Lower(s) == s
  {
    var part := Part(groups[0]);
    if |groups| > 1 { SpellShape(groups[1..]); }
    var s := Spell(groups);
    assert s[0] == Decimal(groups[0].count)[0];
    assert s[0] in Decimal(groups[0].count);
    forall i | 0 <= i < |s| ensures !('A' <= s[i] <= 'Z') {
      if i < |part| - 1 {
        assert s[i] in Decimal(groups[0].count);
      } else if |groups| > 1 && i > |part| {
        assert s[i] == Lower(Spell(groups[1..]))[i - |part| - 1];
      }
    }
  }

  lemma ScanOne(s: string, n: nat, unit: Unit, rest: string)
    requires s != "" && !IsSpace(s[0]) && 0 < n < |s| && Run(s, IsDigit) == n
    requires s[n..] == [Letter(unit)] + rest
    ensures AllDigits(s[..n]) && ScanGroup(s) == Then(Value(s[..n]) * Size(unit), rest)
  {
    NoSpaceNoSkip(s);
    assert !IsSpace(Letter(unit)) && UnitOf(Letter(unit)) == Some(unit);
    hide Run, Value, IsSpace, SkipSpaces, Size, Letter, UnitOf, Then;
    NoSpaceNoSkip(s[n..]);
    assert s[n..][1..] == rest;
  }

  /** A group in front is read as it was written, whatever comes after it. */
  lemma ScanPart(g: Group, rest: string)
    ensures SkipSpaces(Part(g) + rest) == Part(g) + rest && Scan(Part(g) + rest) == Then(Minutes(g), rest)
  {
    hide ScanGroup, Then;
    var digits := Decimal(g.count);
    var s := Part(g) + rest;
    assert s == digits + ([Letter(g.unit)] + rest);
    forall i | 0 <= i < |digits| ensures IsDigit(s[i]) {
      assert s[i] == digits[i] && digits[i] in digits;
    }
    RunIs(s, IsDigit, |digits|);
    assert s[..|digits|] == digits && s[|digits|..] == [Letter(g.unit)] + rest;
    ScanOne(s, |digits|, g.unit, rest);
    NoSpaceNoSkip(s);
    ValueOfDecimal(g.count);
  }

  lemma {:induction false} ScanSpell(groups: seq<Group>)
    requires groups != []
    ensures Scan(Spell(groups)) == Some(Total(groups))
  {
    hide Then, Part, Minutes, Run, SkipSpaces, ScanGroup, IsSpace;
    var g, rest := groups[0], groups[1..];
    SpellMore(groups);
    ScanPart(g, Spaced(rest));
    if rest == [] {
      ThenNothing(Minutes(g));
      NothingToAdd();
    } else {
      ScanSpell(rest);
      ThenMore(Minutes(g), rest);
    }
  }

  lemma NothingToAdd()
    ensures Total([]) == 0 && Spaced([]) == ""
  {
  }

  lemma SpellMore(groups: seq<Group>)
    requires groups != []
    ensures Spell(groups) == Part(groups[0]) + Spaced(groups[1..])
    ensures Total(groups) == Minutes(groups[0]) + Total(groups[1..])
  {
    hide Part, Minutes;
  }

  lemma ThenNothing(here: nat)
    ensures Then(here, "") == Some(here)
  {
  }

  lemma ThenMore(here: nat, groups: seq<Group>)
    requires groups != [] && Scan(Spell(groups)).Some?
    ensures Then(here, Spaced(groups)) == Some(here + Scan(Spell(groups)).value)
  {
    hide ScanGroup, Spell, SkipSpaces;
    ScanSpace(groups);
  }

  /** The space between two groups is skipped. */
  lemma ScanSpace(groups: seq<Group>)
    requires groups != []
    ensures SkipSpaces(" " + Spell(groups)) == SkipSpaces(Spell(groups)) == Spell(groups) != ""
  {
    SpellShape(groups);
    LeadingSpace(Spell(groups));
  }

  lemma LeadingSpace(s: string)
    requires s != "" && !IsSpace(s[0])
    ensures SkipSpaces(" " + s) == SkipSpaces(s) == s
  {
    RunIs(" " + s, IsSpace, 1);
    assert (" " + s)[1..] == s;
    NoSpaceNoSkip(s);
  }

  lemma GroupsAddUp(minutes: nat)
    ensures Total(GroupsOf(minutes)) == minutes
    ensures minutes > 0 ==> GroupsOf(minutes) != []
  {
    var d, h, m := Nonzero(minutes / 1440, Day), Nonzero(minutes % 1440 / 60, Hour), Nonzero(minutes % 60, Minute);
    Carried(minutes);
    hide Total, Nonzero;
    TotalBoth(d + h, m);
    TotalBoth(d, h);
    TotalOne(minutes / 1440, Day);
    TotalOne(minutes % 1440 / 60, Hour);
    TotalOne(minutes % 60, Minute);
  }

  lemma Carried(minutes: nat)
    ensures minutes / 1440 * 1440 + minutes % 1440 / 60 * 60 + minutes % 60 == minutes
  {
    assert minutes % 1440 % 60 == minutes % 60;
  }

  lemma TotalOne(count: nat, unit: Unit)
    ensures Total(Nonzero(count, unit)) == count * Size(unit)
  {
    if count > 0 { assert [Group(count, unit)][1..] == []; }
  }

  lemma {:induction false} TotalBoth(a: seq<Group>, b: seq<Group>)
    ensures Total(a + b) == Total(a) + Total(b)
  {
    if a == [] {
      assert a + b == b;
    } else {
      assert (a + b)[1..] == a[1..] + b;
      TotalBoth(a[1..], b);
    }
  }

  lemma ParseSpell(groups: seq<Group>)
    requires groups != []
    ensures Parse(Spell(groups)) == Positive(Total(groups))
  {
    SpellShape(groups);
    var s := Spell(groups);
    assert s[|s| - 1] in s;
    ScanSpell(groups);
    hide Spell, Scan, Total, IsSpace, Trim, Lower, Value;
    UnitsAreNoSpaces(s);
    TrimsNothing(s);
  }

  lemma UnitsAreNoSpaces(s: string)
    requires s != "" && IsDigit(s[0]) && UnitOf(s[|s| - 1]).Some?
    ensures !IsSpace(s[0]) && !IsSpace(s[|s| - 1])
  {
  }

  /** `parseDuration(formatDuration(n)) === n`, for every n but zero, which is no target. */
  lemma ParseFormat(minutes: nat)
    ensures Parse(Format(minutes)) == Positive(minutes)
  {
    hide Parse, Spell, Total, GroupsOf;
    GroupsAddUp(minutes);
    ZeroIsSpelled();
    ParseSpell(if minutes == 0 then [Group(0, Minute)] else GroupsOf(minutes));
  }

  lemma ZeroIsSpelled()
    ensures Spell([Group(0, Minute)]) == "0m" && Total([Group(0, Minute)]) == 0
  {
    assert Decimal(0) == "0";
    assert [Group(0, Minute)][1..] == [];
  }

  // ---- The code ----

  /** `formatDuration`: whole units from the largest down, what is left carried on. */
  method FormatDuration(minutes: nat) returns (text: string)
    ensures text == Format(minutes)
  {
    hide Spell, Total;
    var units := [Day, Hour, Minute];
    var parts: seq<Group> := [];
    var rest := minutes;
    for i := 0 to 3
      invariant rest == if i == 0 then minutes else minutes % Size(units[i - 1])
      invariant parts == if i == 0 then [] else if i == 1 then Nonzero(minutes / 1440, Day)
                         else if i == 2 then Nonzero(minutes / 1440, Day) + Nonzero(minutes % 1440 / 60, Hour)
                         else GroupsOf(minutes)
    {
      var size := Size(units[i]);
      var count := rest / size;
      if count > 0 { parts := parts + [Group(count, units[i])]; }
      rest := rest - count * size;
    }
    GroupsAddUp(minutes);
    text := if parts == [] then "0m" else Spell(parts);
  }

  /** What the group at the front contributes, and what follows it. */
  lemma GroupInFront(rest: string)
    requires ScanGroup(rest).Some?
    ensures var n := Run(rest, IsDigit); var unit := SkipSpaces(rest[n..]);
            && AllDigits(rest[..n]) && unit != "" && UnitOf(unit[0]).Some? && |SkipSpaces(unit[1..])| < |rest|
            && ScanGroup(rest) == Then(Value(rest[..n]) * Size(UnitOf(unit[0]).value), unit[1..])
  {
    hide Value, IsSpace, Size, Then;
  }

  lemma FollowedBy(here: nat, rest: string)
    ensures var next := SkipSpaces(rest);
            Then(here, rest) == if next == "" then Some(here)
                                else if ScanGroup(next).None? then None else Some(here + ScanGroup(next).value)
  {
    hide ScanGroup, SkipSpaces;
  }

  lemma NothingScans()
    ensures ScanGroup("").None?
  {
  }

  /** `parseDuration`: a bare number, or the groups' minutes added up one by one. */
  method ParseDuration(input: string) returns (minutes: Option<nat>)
    ensures minutes == Parse(input)
  {
    hide Value, IsSpace, Trim, Lower, Run, Size, ScanGroup, Then;
    var text := Lower(Trim(input));
    if text != "" && AllDigits(text) { return Positive(Value(text)); }
    if Scan(text).None? { return None; }
    NothingScans();
    var total, rest := 0, SkipSpaces(text);
    while rest != ""
      invariant rest != "" ==> ScanGroup(rest).Some?
      invariant Scan(text) == Some(total + if rest == "" then 0 else ScanGroup(rest).value)
      decreases |rest|
    {
      var n := Run(rest, IsDigit);
      var unit := SkipSpaces(rest[n..]);
      GroupInFront(rest);
      var here := Value(rest[..n]) * Size(UnitOf(unit[0]).value);
      FollowedBy(here, unit[1..]);
      total := total + here;
      rest := SkipSpaces(unit[1..]);
    }
    minutes := Positive(total);
  }

  // ---- Exactly what is read ----

  /** One match of `\s*\d+\s*[dhm]`. */
  datatype Lexeme = Lexeme(before: string, digits: string, between: string, letter: char)
  {
    predicate Fits() {
      && Blank(before) && digits != "" && AllDigits(digits) && Blank(between)
      && (letter == 'd' || letter == 'h' || letter == 'm')
    }

    function Text(): string {
      before + (digits + (between + [letter]))
    }

    function Worth(): nat
      requires AllDigits(digits)
    {
      Value(digits) * (if letter == 'd' then 24 * 60 else if letter == 'h' then 60 else 1)
    }
  }

  predicate Blank(s: string) {
    forall c :: c in s ==> IsSpace(c)
  }

  ghost predicate AllFit(l: seq<Lexeme>) {
    l != [] && forall x :: x in l ==> x.Fits()
  }

  function Flat(l: seq<Lexeme>): string {
    if l == [] then "" else l[0].Text() + Flat(l[1..])
  }

  function Sum(l: seq<Lexeme>): nat
    requires forall x :: x in l ==> AllDigits(x.digits)
  {
    if l == [] then 0 else l[0].Worth() + Sum(l[1..])
  }

  lemma SkipsBlank(blank: string, s: string)
    requires Blank(blank) && (s == "" || !IsSpace(s[0]))
    ensures SkipSpaces(blank + s) == s
  {
    assert forall i :: 0 <= i < |blank| ==> (blank + s)[i] in blank;
    RunIs(blank + s, IsSpace, |blank|);
  }

  lemma SkipsToBlank(s: string)
    requires SkipSpaces(s) == ""
    ensures Blank(s)
  {
  }

  /** A lexeme in front is read, and then what follows it. */
  lemma ReadsOne(x: Lexeme, rest: string)
    requires x.Fits()
    ensures Scan(x.Text() + rest) == Then(x.Worth(), rest)
  {
    hide Then, Value, Run, IsSpace, Size, SkipSpaces;
    var b := [x.letter] + rest;
    var a := x.digits + (x.between + b);
    assert x.Text() + rest == x.before + a by { Regrouped(x, rest); }
    NotSpaces(x);
    assert a[0] in x.digits;
    SkipsBlank(x.before, a);
    forall i | 0 <= i < |x.digits| ensures IsDigit(a[i]) { assert a[i] in x.digits; }
    assert a[|x.digits|] in x.between || a[|x.digits|] == x.letter;
    RunIs(a, IsDigit, |x.digits|);
    assert a[..|x.digits|] == x.digits && a[|x.digits|..] == x.between + b;
    SkipsBlank(x.between, b);
    ScansTo(a, |x.digits|, b);
    assert b[1..] == rest;
  }

  lemma Regrouped(x: Lexeme, rest: string)
    ensures x.Text() + rest == x.before + (x.digits + (x.between + ([x.letter] + rest)))
  {
    Assoc(x.before, x.digits + (x.between + [x.letter]), rest);
    Assoc(x.digits, x.between + [x.letter], rest);
    Assoc(x.between, [x.letter], rest);
  }

  /** No space is a digit or a unit. */
  lemma NotSpaces(x: Lexeme)
    requires x.Fits()
    ensures forall c :: c in x.digits ==> !IsSpace(c)
    ensures forall c :: c in x.between ==> !IsDigit(c)
    ensures !IsSpace(x.letter) && !IsDigit(x.letter)
    ensures UnitOf(x.letter).Some? && Size(UnitOf(x.letter).value) == if x.letter == 'd' then 24 * 60 else if x.letter == 'h' then 60 else 1
  {
  }

  lemma ScansTo(a: string, n: nat, b: string)
    requires 0 < n <= |a| && Run(a, IsDigit) == n && SkipSpaces(a[n..]) == b != "" && UnitOf(b[0]).Some?
    ensures AllDigits(a[..n]) && ScanGroup(a) == Then(Value(a[..n]) * Size(UnitOf(b[0]).value), b[1..])
  {
    hide Value, IsSpace, Size, Then, SkipSpaces;
  }

  lemma Assoc(a: string, b: string, c: string)
    ensures a + b + c == a + (b + c)
  {
  }

  lemma FlatMore(l: seq<Lexeme>, tail: string)
    requires AllFit(l)
    ensures Flat(l) + tail == l[0].Text() + (Flat(l[1..]) + tail) && Sum(l) == l[0].Worth() + Sum(l[1..]) && l[0].Fits()
    ensures |l| > 1 ==> AllFit(l[1..])
    ensures |l| == 1 ==> Flat(l[1..]) + tail == tail && Sum(l[1..]) == 0
  {
    hide Value, Blank, IsSpace, Lexeme.Text, Lexeme.Worth;
    Assoc(l[0].Text(), Flat(l[1..]), tail);
  }

  lemma {:induction false} ReadsAll(l: seq<Lexeme>, tail: string)
    requires AllFit(l) && Blank(tail)
    ensures Scan(Flat(l) + tail) == Some(Sum(l))
  {
    hide Flat, Sum, ScanGroup, Then, SkipSpaces, Blank, Lexeme.Text, Lexeme.Worth;
    var rest := Flat(l[1..]) + tail;
    FlatMore(l, tail);
    ReadsOne(l[0], rest);
    FollowedBy(l[0].Worth(), rest);
    if |l| == 1 {
      SkipsBlank(tail, "");
      assert tail + "" == tail;
    } else {
      ReadsAll(l[1..], tail);
      NothingScans();
    }
  }

  /** And nothing else is. */
  lemma {:induction false} ReadsOnlyLexemes(s: string) returns (l: seq<Lexeme>, tail: string)
    requires Scan(s).Some?
    ensures AllFit(l) && Blank(tail) && s == Flat(l) + tail
    decreases |s|
  {
    hide ScanGroup, SkipSpaces, Flat, Then;
    var x, rest := FrontLexeme(s);
    FollowedBy(x.Worth(), rest);
    if SkipSpaces(rest) == "" {
      SkipsToBlank(rest);
      l, tail := [x], rest;
    } else {
      l, tail := ReadsOnlyLexemes(rest);
      l := [x] + l;
    }
    assert AllFit(l);
    FlatMore(l, tail);
  }

  lemma FrontLexeme(s: string) returns (x: Lexeme, rest: string)
    requires Scan(s).Some?
    ensures x.Fits() && s == x.Text() + rest && |rest| < |s|
    ensures Scan(s) == Then(x.Worth(), rest)
  {
    hide Then, Value, IsSpace, Size, ScanGroup;
    var k := Run(s, IsSpace);
    var a := s[k..];
    GroupInFront(a);
    var n := Run(a, IsDigit);
    var m := Run(a[n..], IsSpace);
    var b := a[n..][m..];
    x, rest := Lexeme(s[..k], a[..n], a[n..][..m], b[0]), b[1..];
    SomeDigits(a);
    assert x.Fits();
    NotSpaces(x);
    Pieces(s, k, n, m);
  }

  lemma SomeDigits(a: string)
    requires ScanGroup(a).Some?
    ensures Run(a, IsDigit) > 0
  {
  }

  lemma Pieces(s: string, k: nat, n: nat, m: nat)
    requires k + n + m < |s|
    ensures var a := s[k..]; var b := a[n..][m..]; s == s[..k] + (a[..n] + (a[n..][..m] + [b[0]])) + b[1..]
  {
  }

  /** What parses, and to what: a positive bare number of minutes, or a run of counted units that adds up to more than nothing. */
  lemma ParseIff(input: string, minutes: nat)
    ensures Parse(input) == Some(minutes) <==>
            var text := Lower(Trim(input));
            && minutes > 0
            && ((text != "" && AllDigits(text) && Value(text) == minutes) ||
                exists l, tail :: AllFit(l) && Blank(tail) && text == Flat(l) + tail && Sum(l) == minutes)
  {
    hide Lower, Trim, Flat, Sum, ScanGroup;
    var text := Lower(Trim(input));
    if l, tail :| AllFit(l) && Blank(tail) && text == Flat(l) + tail && Sum(l) == minutes {
      ReadsAll(l, tail);
      NotAllDigits(l, tail);
    }
    if Scan(text).Some? {
      var l, tail := ReadsOnlyLexemes(text);
      ReadsAll(l, tail);
    }
  }

  lemma NotAllDigits(l: seq<Lexeme>, tail: string)
    requires AllFit(l)
    ensures !AllDigits(Flat(l) + tail)
  {
    hide Flat, Sum, Lexeme.Worth;
    FlatMore(l, tail);
    var x := l[0];
    assert x.Text()[|x.Text()| - 1] == x.letter && !IsDigit(x.letter);
    assert (Flat(l) + tail)[|x.Text()| - 1] == x.letter;
  }
}
