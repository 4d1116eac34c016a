// Session cookies over whole browser sessions: every workspace pair the jar holds
// is on the recent list, which keeps the last few workspaces signed in to.
// Source: apps/api/src/auth/cookies.ts.

module Cookies {
  import opened LogOrder
  import opened RecentList
  import Text

  /** A workspace's access and refresh cookies, the list, and every other cookie. */
  datatype Name = Access(slug: string) | Refresh(slug: string) | Recent | Other(name: string)

  datatype Cookie = Cookie(name: Name, value: string)

  /** What a response tells the browser, in order. */
  datatype Header = Keep(name: Name, value: string) | Expire(name: Name)

  type Jar = map<Name, string>

  function Applied(jar: Jar, h: Header): Jar {
    match h
    case Keep(name, value) => jar[name := value]
    case Expire(name) => jar - {name}
  }

  function AppliedAll(jar: Jar, hs: seq<Header>): Jar {
    if hs == [] then jar else Applied(AppliedAll(jar, hs[..|hs| - 1]), hs[|hs| - 1])
  }

  lemma {:induction false} AppliedBoth(jar: Jar, a: seq<Header>, b: seq<Header>)
    ensures AppliedAll(jar, a + b) == AppliedAll(AppliedAll(jar, a), b)
    decreases |b|
  {
    if b == [] {
      assert a + b == a;
    } else {
      AppliedBoth(jar, a, b[..|b| - 1]);
      assert (a + b)[..|a + b| - 1] == a + b[..|b| - 1];
    }
  }

  // ---- What set and clear answer ----

  /** The slugs of the access cookies among some names, if they are slug-shaped. */
  function AccessSlugs(names: seq<Name>): (r: seq<string>)
    ensures forall s :: s in r <==> Access(s) in names && IsSlug(s)
  {
    if names == [] then []
    else
      var before, last := AccessSlugs(names[..|names| - 1]), names[|names| - 1];
      assert names == names[..|names| - 1] + [last];
      if last.Access? && IsSlug(last.slug) then before + [last.slug] else before
  }

  function NamesOf(cookies: seq<Cookie>): (r: seq<Name>)
    ensures |r| == |cookies| && forall i :: 0 <= i < |r| ==> r[i] == cookies[i].name
  {
    seq(|cookies|, i requires 0 <= i < |cookies| => cookies[i].name)
  }

  function Keeps(cookies: seq<Cookie>): seq<Header> {
    seq(|cookies|, i requires 0 <= i < |cookies| => Keep(cookies[i].name, cookies[i].value))
  }

  function Expires(names: seq<Name>): seq<Header> {
    seq(|names|, i requires 0 <= i < |names| => Expire(names[i]))
  }

  function PairsOf(slugs: seq<string>): seq<Header> {
    if slugs == [] then []
    else PairsOf(slugs[..|slugs| - 1]) + [Expire(Access(slugs[|slugs| - 1])), Expire(Refresh(slugs[|slugs| - 1]))]
  }

  function Remember(list: seq<string>): Header {
    Keep(Recent, Text.Join(list, '.'))
  }

  function Ordered(cookies: seq<Cookie>, recent: seq<string>): seq<string> {
    Unique(AccessSlugs(NamesOf(cookies)) + recent)
  }

  function Dropped(order: seq<string>): seq<string> {
    if |order| <= MAX_TENANT_PAIRS then [] else order[MAX_TENANT_PAIRS..]
  }

  /** A workspace pair moves its workspace to the front, and expires the pairs past the budget. */
  function SetHeaders(cookies: seq<Cookie>, recent: seq<string>): seq<Header> {
    if AccessSlugs(NamesOf(cookies)) == [] then Keeps(cookies)
    else
      var order := Ordered(cookies, recent);
      Keeps(cookies) + PairsOf(Dropped(order)) + [Remember(Take(order, MAX_TENANT_PAIRS))]
  }

  function Gone(names: seq<Name>): set<string> {
    set s | s in AccessSlugs(names)
  }

  function ClearHeaders(names: seq<Name>, recent: seq<string>): seq<Header> {
    if Gone(names) == {} then Expires(names)
    else Expires(names) + [Remember(Except(recent, Gone(names)))]
  }

  datatype Op = Set(cookies: seq<Cookie>) | Clear(names: seq<Name>)

  function HeadersOf(op: Op, recent: seq<string>): seq<Header> {
    match op
    case Set(cookies) => SetHeaders(cookies, recent)
    case Clear(names) => ClearHeaders(names, recent)
  }

  /** The list after one operation. */
  function ListAfter(op: Op, recent: seq<string>): seq<string> {
    match op
    case Set(cookies) =>
      if AccessSlugs(NamesOf(cookies)) == [] then recent else Take(Ordered(cookies, recent), MAX_TENANT_PAIRS)
    case Clear(names) =>
      if Gone(names) == {} then recent else Except(recent, Gone(names))
  }

  // ---- The jar ----

  /** The list cookie reads back as this list, within the budget, and no pair is outside it. */
  ghost predicate Budgeted(jar: Jar, list: seq<string>) {
    && NoRepeats(list) && AllSlugs(list) && |list| <= MAX_TENANT_PAIRS
    && (if Recent in jar then jar[Recent] == Text.Join(list, '.') else list == [])
    && Covered(jar, list)
  }

  predicate Covered(jar: Jar, list: seq<string>) {
    forall name :: name in jar && (name.Access? || name.Refresh?) ==> name.slug in list
  }

  /** Which names some headers leave as they set them, or take away. */
  lemma {:induction false} KeepsLeave(jar: Jar, cookies: seq<Cookie>, name: Name)
    ensures name in AppliedAll(jar, Keeps(cookies)) <==> name in jar || name in NamesOf(cookies)
    ensures name !in NamesOf(cookies) && name in jar ==> AppliedAll(jar, Keeps(cookies))[name] == jar[name]
  {
    if cookies != [] {
      var less, last := cookies[..|cookies| - 1], cookies[|cookies| - 1];
      KeepsLeave(jar, less, name);
      assert Keeps(cookies)[..|less|] == Keeps(less);
      assert NamesOf(cookies) == NamesOf(less) + [last.name];
    }
  }

  lemma {:induction false} ExpiresLeave(jar: Jar, names: seq<Name>, name: Name)
    ensures name in AppliedAll(jar, Expires(names)) <==> name in jar && name !in names
    ensures name in jar && name !in names ==> AppliedAll(jar, Expires(names))[name] == jar[name]
  {
    if names != [] {
      var less, last := names[..|names| - 1], names[|names| - 1];
      ExpiresLeave(jar, less, name);
      assert Expires(names)[..|less|] == Expires(less);
      assert names == less + [last];
    }
  }

  predicate OfPair(name: Name, slugs: seq<string>) {
    (name.Access? || name.Refresh?) && name.slug in slugs
  }

  lemma {:induction false} PairsLeave(jar: Jar, slugs: seq<string>, name: Name)
    ensures name in AppliedAll(jar, PairsOf(slugs)) <==> name in jar && !OfPair(name, slugs)
    ensures name in jar && !OfPair(name, slugs) ==> AppliedAll(jar, PairsOf(slugs))[name] == jar[name]
  {
    if slugs != [] {
      var less, last := slugs[..|slugs| - 1], slugs[|slugs| - 1];
      PairsLeave(jar, less, name);
      AppliedBoth(jar, PairsOf(less), [Expire(Access(last)), Expire(Refresh(last))]);
      var two := [Expire(Access(last)), Expire(Refresh(last))];
      var j := AppliedAll(jar, PairsOf(less));
      LastHeader(j, [two[0]], two[1]);
      LastHeader(j, [], two[0]);
      assert two == [two[0]] + [two[1]] && [two[0]] == [] + [two[0]];
      assert slugs == less + [last];
    }
  }

  /** Names no operation of the server sets or clears by itself. */
  predicate LeavesListAlone(op: Op) {
    match op
    case Set(cookies) => Recent !in NamesOf(cookies)
    case Clear(names) => Recent !in names
  }

  /**
   * The operations after which the jar holds a pair the list does not name: a
   * cookie set for a workspace that is neither minted now nor listed, or an
   * access cookie cleared while its refresh cookie stays.
   */
  predicate Strays(jar: Jar, op: Op, list: seq<string>) {
    match op
    case Set(cookies) =>
      exists name :: name in NamesOf(cookies) && (name.Access? || name.Refresh?) &&
        name.slug !in AccessSlugs(NamesOf(cookies)) && name.slug !in list
    case Clear(names) =>
      exists s :: s in Gone(names) && Refresh(s) in jar && Refresh(s) !in names
  }

  lemma SetLeaves(jar: Jar, cookies: seq<Cookie>, list: seq<string>, name: Name)
    requires name != Recent
    ensures var dropped := if AccessSlugs(NamesOf(cookies)) == [] then [] else Dropped(Ordered(cookies, list));
            name in AppliedAll(jar, SetHeaders(cookies, list)) <==> (name in jar || name in NamesOf(cookies)) && !OfPair(name, dropped)
  {
    KeepsLeave(jar, cookies, name);
    if AccessSlugs(NamesOf(cookies)) != [] {
      var order := Ordered(cookies, list);
      var last := Remember(Take(order, MAX_TENANT_PAIRS));
      AppliedBoth(jar, Keeps(cookies), PairsOf(Dropped(order)));
      PairsLeave(AppliedAll(jar, Keeps(cookies)), Dropped(order), name);
      LastHeader(jar, Keeps(cookies) + PairsOf(Dropped(order)), last);
    }
  }

  lemma LastHeader(jar: Jar, hs: seq<Header>, h: Header)
    ensures AppliedAll(jar, hs + [h]) == Applied(AppliedAll(jar, hs), h)
  {
    assert (hs + [h])[..|hs|] == hs;
  }

  lemma ClearLeaves(jar: Jar, names: seq<Name>, list: seq<string>, name: Name)
    requires name != Recent
    ensures name in AppliedAll(jar, ClearHeaders(names, list)) <==> name in jar && name !in names
  {
    ExpiresLeave(jar, names, name);
    if Gone(names) != {} { LastHeader(jar, Expires(names), Remember(Except(list, Gone(names)))); }
  }

  /** The list cookie is always the new list. */
  lemma ListIsWritten(jar: Jar, op: Op, list: seq<string>)
    requires LeavesListAlone(op)
    ensures var now := AppliedAll(jar, HeadersOf(op, list));
            if ListAfter(op, list) == list && Recent !in now then Recent !in jar
            else Recent in now && (now[Recent] == Text.Join(ListAfter(op, list), '.') ||
                                   (ListAfter(op, list) == list && Recent in jar && now[Recent] == jar[Recent]))
  {
    match op
    case Set(cookies) =>
      KeepsLeave(jar, cookies, Recent);
      if AccessSlugs(NamesOf(cookies)) != [] {
        var order := Ordered(cookies, list);
        LastHeader(jar, Keeps(cookies) + PairsOf(Dropped(order)), Remember(Take(order, MAX_TENANT_PAIRS)));
      }
    case Clear(names) =>
      ExpiresLeave(jar, names, Recent);
      if Gone(names) != {} { LastHeader(jar, Expires(names), Remember(Except(list, Gone(names)))); }
  }

  lemma ListStaysGood(op: Op, list: seq<string>)
    requires NoRepeats(list) && AllSlugs(list) && |list| <= MAX_TENANT_PAIRS
    ensures var after := ListAfter(op, list); NoRepeats(after) && AllSlugs(after) && |after| <= MAX_TENANT_PAIRS
  {
    hide IsSlug;
    forall x | x in ListAfter(op, list) ensures IsSlug(x) {
      if op.Set? && AccessSlugs(NamesOf(op.cookies)) != [] { assert x in Ordered(op.cookies, list); } else { assert x in list; }
    }
  }

  lemma TakeOrDrop(order: seq<string>, s: string)
    requires NoRepeats(order)
    ensures s in order <==> s in Take(order, MAX_TENANT_PAIRS) || s in Dropped(order)
    ensures !(s in Take(order, MAX_TENANT_PAIRS) && s in Dropped(order))
  {
    if |order| > MAX_TENANT_PAIRS { assert order == order[..MAX_TENANT_PAIRS] + order[MAX_TENANT_PAIRS..]; }
  }

  lemma SetCovers(jar: Jar, cookies: seq<Cookie>, list: seq<string>)
    requires Budgeted(jar, list)
    ensures Covered(AppliedAll(jar, HeadersOf(Set(cookies), list)), ListAfter(Set(cookies), list)) <==> !Strays(jar, Set(cookies), list)
  {
    var op, names, minted := Set(cookies), NamesOf(cookies), AccessSlugs(NamesOf(cookies));
    var now, after, order := AppliedAll(jar, HeadersOf(op, list)), ListAfter(op, list), Ordered(cookies, list);
    if Strays(jar, op, list) {
      var name :| name in names && (name.Access? || name.Refresh?) && name.slug !in minted && name.slug !in list;
      SetLeaves(jar, cookies, list, name);
      TakeOrDrop(order, name.slug);
      assert name in now && name.slug !in after;
    } else {
      forall name | name in now && (name.Access? || name.Refresh?) ensures name.slug in after {
        SetLeaves(jar, cookies, list, name);
        TakeOrDrop(order, name.slug);
      }
    }
  }

  lemma ClearCovers(jar: Jar, names: seq<Name>, list: seq<string>)
    requires Budgeted(jar, list)
    ensures Covered(AppliedAll(jar, HeadersOf(Clear(names), list)), ListAfter(Clear(names), list)) <==> !Strays(jar, Clear(names), list)
  {
    var op := Clear(names);
    var now, after := AppliedAll(jar, HeadersOf(op, list)), ListAfter(op, list);
    if Strays(jar, op, list) {
      var s :| s in Gone(names) && Refresh(s) in jar && Refresh(s) !in names;
      ClearLeaves(jar, names, list, Refresh(s));
      assert Refresh(s) in now && s !in after;
    } else {
      forall name | name in now && (name.Access? || name.Refresh?) ensures name.slug in after {
        ClearLeaves(jar, names, list, name);
      }
    }
  }

  /** Exactly when an operation keeps every pair in the jar on the list. */
  lemma BudgetKeptIff(jar: Jar, op: Op, list: seq<string>)
    requires Budgeted(jar, list) && LeavesListAlone(op)
    ensures Budgeted(AppliedAll(jar, HeadersOf(op, list)), ListAfter(op, list)) <==> !Strays(jar, op, list)
  {
    hide AppliedAll, HeadersOf, NoRepeats, Covered, Strays, ListAfter;
    ListIsWritten(jar, op, list);
    ListStaysGood(op, list);
    if op.Set? { SetCovers(jar, op.cookies, list); } else { ClearCovers(jar, op.names, list); }
  }

  // ---- Whole sessions ----

  /** A browser, and the response being written: the list its request sent, and what it has written of it. */
  datatype Session = Session(jar: Jar, sent: seq<string>, pending: Option<seq<string>>)

  datatype Event =
    // A request: some of the jar's pairs come with it, in some order.
    | Request(held: seq<string>)
    | Do(op: Op)
    | PairExpires(name: Name)

  function Listed(jar: Jar): seq<string> {
    if Recent in jar && jar[Recent] != "" then Parse(jar[Recent]) else []
  }

  /** `recent`: what this response wrote, or what the request carried. */
  function RecentOf(s: Session): seq<string> {
    if s.pending.Some? then s.pending.value else s.sent
  }

  predicate Happens(s: Session, e: Event) {
    match e
    case Request(held) => forall x :: x in held ==> IsSlug(x) && (Access(x) in s.jar || Refresh(x) in s.jar)
    case Do(op) => LeavesListAlone(op)
    case PairExpires(name) => name.Access? || name.Refresh?
  }

  function Wrote(op: Op): bool {
    match op
    case Set(cookies) => AccessSlugs(NamesOf(cookies)) != []
    case Clear(names) => Gone(names) != {}
  }

  function Then(s: Session, e: Event): Session {
    match e
    case Request(held) => Session(s.jar, Unique(Listed(s.jar) + held), None)
    case Do(op) =>
      s.(jar := AppliedAll(s.jar, HeadersOf(op, RecentOf(s))),
         pending := if Wrote(op) then Some(ListAfter(op, RecentOf(s))) else s.pending)
    case PairExpires(name) => s.(jar := s.jar - {name})
  }

  function Fresh(): Session {
    Session(map[], [], None)
  }

  function After(events: seq<Event>): Session {
    if events == [] then Fresh() else Then(After(events[..|events| - 1]), events[|events| - 1])
  }

  ghost predicate Plausible(events: seq<Event>) {
    events == [] ||
    (Plausible(events[..|events| - 1]) && Happens(After(events[..|events| - 1]), events[|events| - 1]))
  }

  /** No operation leaves a pair off the list. */
  ghost predicate NeverStrays(events: seq<Event>) {
    events == [] ||
    (NeverStrays(events[..|events| - 1]) &&
     var s, e := After(events[..|events| - 1]), events[|events| - 1];
     e.Do? ==> !Strays(s.jar, e.op, RecentOf(s)))
  }

  /** Every workspace ever signed in to, most recent first; signing out takes it off. */
  function History(events: seq<Event>): seq<string> {
    if events == [] then []
    else
      var before, e := History(events[..|events| - 1]), events[|events| - 1];
      if e.Do? && e.op.Set? then AccessSlugs(NamesOf(e.op.cookies)) + before
      else if e.Do? && e.op.Clear? then Except(before, Gone(e.op.names))
      else before
  }

  predicate NoSignOuts(events: seq<Event>) {
    forall i :: 0 <= i < |events| && events[i].Do? && events[i].op.Clear? ==> Gone(events[i].op.names) == {}
  }

  ghost predicate SessionInv(s: Session) {
    Budgeted(s.jar, RecentOf(s))
  }

  lemma ReadsBack(jar: Jar, list: seq<string>)
    requires Budgeted(jar, list)
    ensures Listed(jar) == list
  {
    hide Covered, NoRepeats, AllSlugs, Parse, Text.Join;
    ParseJoin(list);
    ParseNothing();
  }

  /** A request brings exactly the list, whatever pairs come with it. */
  lemma RequestBringsTheList(s: Session, held: seq<string>)
    requires SessionInv(s) && Happens(s, Event.Request(held))
    ensures RecentOf(Then(s, Event.Request(held))) == RecentOf(s)
  {
    hide IsSlug, Parse;
    var list := RecentOf(s);
    ReadsBack(s.jar, list);
    forall x | x in held ensures x in list {
      assert (Access(x) in s.jar && Access(x).slug in list) || (Refresh(x) in s.jar && Refresh(x).slug in list);
    }
    OnlyRepeats(list, held);
  }

  lemma {:induction false} OnlyRepeats(list: seq<string>, held: seq<string>)
    requires NoRepeats(list) && forall x :: x in held ==> x in list
    ensures Unique(list + held) == list
    decreases |held|
  {
    hide NoRepeats;
    if held == [] {
      assert list + held == list;
      UniqueOfUnique(list);
    } else {
      var less := held[..|held| - 1];
      OnlyRepeats(list, less);
      assert list + held == (list + less) + [held[|held| - 1]];
      UniqueSnoc(list + less, held[|held| - 1]);
    }
  }

  lemma NoWriteNoMove(op: Op, list: seq<string>)
    requires !Wrote(op)
    ensures ListAfter(op, list) == list
  {
  }

  lemma SessionStays(s: Session, e: Event)
    requires SessionInv(s) && Happens(s, e) && (e.Do? ==> !Strays(s.jar, e.op, RecentOf(s)))
    ensures SessionInv(Then(s, e))
    ensures RecentOf(Then(s, e)) == if e.Do? then ListAfter(e.op, RecentOf(s)) else RecentOf(s)
  {
    hide AppliedAll, HeadersOf, ListAfter, Wrote, Unique, Strays;
    match e
    case Request(held) => RequestBringsTheList(s, held);
    case Do(op) =>
      BudgetKeptIff(s.jar, op, RecentOf(s));
      if !Wrote(op) { NoWriteNoMove(op, RecentOf(s)); }
    case PairExpires(name) =>
  }

  /**
   * After any session: at most five workspaces, none twice, the list reading back
   * from its own cookie, no pair outside it, and the list the front of all the
   * workspaces signed in to, most recent first; exactly the first five while
   * nobody signs out.
   */
  lemma {:induction false} SessionsKeepTheBudget(events: seq<Event>)
    requires Plausible(events) && NeverStrays(events)
    ensures SessionInv(After(events)) && Listed(After(events).jar) == RecentOf(After(events))
    ensures RecentOf(After(events)) <= Unique(History(events))
    ensures NoSignOuts(events) ==> RecentOf(After(events)) == Take(Unique(History(events)), MAX_TENANT_PAIRS)
  {
    hide Then, ListAfter, Strays, Budgeted, Unique, Happens, NoSignOuts;
    if events == [] {
      FreshIsBudgeted();
    } else {
      var before, e := events[..|events| - 1], events[|events| - 1];
      SessionsKeepTheBudget(before);
      SessionStays(After(before), e);
      HistoryMoves(events);
      if NoSignOuts(events) { FewerSignOuts(events); }
    }
    ReadsBack(After(events).jar, RecentOf(After(events)));
  }

  lemma FreshIsBudgeted()
    ensures Budgeted(map[], []) && Unique([]) == []
  {
  }

  lemma FewerSignOuts(events: seq<Event>)
    requires NoSignOuts(events) && events != []
    ensures NoSignOuts(events[..|events| - 1])
    ensures var e := events[|events| - 1]; e.Do? && e.op.Clear? ==> Gone(e.op.names) == {}
  {
  }

  lemma ExceptNothing(s: seq<string>)
    ensures Except(s, {}) == s
  {
  }

  /** The list follows the history through one event. */
  lemma HistoryMoves(events: seq<Event>)
    requires events != []
    ensures var before, e := events[..|events| - 1], events[|events| - 1];
            var s := RecentOf(After(before)); var h := History(before);
            var s', h' := (if e.Do? then ListAfter(e.op, s) else s), History(events);
            && (s <= Unique(h) ==> s' <= Unique(h'))
            && (s == Take(Unique(h), MAX_TENANT_PAIRS) && (e.Do? && e.op.Clear? ==> Gone(e.op.names) == {}) ==>
                  s' == Take(Unique(h'), MAX_TENANT_PAIRS))
  {
    hide Unique, Except, After;
    var before, e := events[..|events| - 1], events[|events| - 1];
    var s, h := RecentOf(After(before)), History(before);
    if e.Do? && e.op.Set? {
      var m := AccessSlugs(NamesOf(e.op.cookies));
      assert m == [] ==> m + h == h;
      if s <= Unique(h) { FrontKeepsPrefix(m, s, h, MAX_TENANT_PAIRS); }
      CutsCompose(m, Unique(h), MAX_TENANT_PAIRS);
      UniqueBehind(m, h);
    } else if e.Do? {
      ExceptNothing(h);
      ExceptNothing(s);
      if s <= Unique(h) { ExceptKeepsPrefix(s, h, Gone(e.op.names)); }
    }
  }

  /** Pairs set and cleared whole: what every caller that goes through `access`, `refresh` and `pairOf` does. */
  predicate Whole(op: Op) {
    match op
    case Set(cookies) => forall name :: name in NamesOf(cookies) && (name.Access? || name.Refresh?) ==> IsSlug(name.slug) && Access(name.slug) in NamesOf(cookies)
    case Clear(names) => forall name :: name in names && name.Access? ==> Refresh(name.slug) in names
  }

  lemma WholePairsNeverStray(jar: Jar, op: Op, list: seq<string>)
    requires Whole(op)
    ensures !Strays(jar, op, list)
  {
  }

  // ---- What a browser holds after one call ----

  /** The last cookie of its name among some. */
  predicate IsLast(cookies: seq<Cookie>, i: nat)
    requires i < |cookies|
  {
    forall j :: i < j < |cookies| ==> cookies[j].name != cookies[i].name
  }

  /** A cookie of a workspace that the call pushes off the list: minted or recent, and not among the first five. */
  predicate PastBudget(name: Name, cookies: seq<Cookie>, recent: seq<string>) {
    var minted := AccessSlugs(NamesOf(cookies));
    && (name.Access? || name.Refresh?) && minted != []
    && (name.slug in minted || name.slug in recent) && name.slug !in Take(Unique(minted + recent), MAX_TENANT_PAIRS)
  }

  predicate Unmoved(jar: Jar, after: Jar, name: Name) {
    (name in after <==> name in jar) && (name in jar ==> after[name] == jar[name])
  }

  /**
   * Every cookie set has its value, the last one of its name; the pairs past the
   * budget are gone; the list is written when a pair was minted; and every other
   * cookie is what it was.
   */
  ghost predicate SetInJar(jar: Jar, after: Jar, cookies: seq<Cookie>, recent: seq<string>) {
    var minted := AccessSlugs(NamesOf(cookies));
    && (forall i: nat :: i < |cookies| && IsLast(cookies, i) && cookies[i].name != Recent && !PastBudget(cookies[i].name, cookies, recent) ==>
          cookies[i].name in after && after[cookies[i].name] == cookies[i].value)
    && (forall name :: PastBudget(name, cookies, recent) ==> name !in after)
    && (forall name :: name !in NamesOf(cookies) && name != Recent && !PastBudget(name, cookies, recent) ==> Unmoved(jar, after, name))
    && (if minted != [] then Recent in after && after[Recent] == Text.Join(Take(Unique(minted + recent), MAX_TENANT_PAIRS), '.')
        else Recent !in NamesOf(cookies) ==> Unmoved(jar, after, Recent))
  }

  /** Every cookie named is gone, the list loses the workspaces whose access cookie is, and every other cookie is what it was. */
  ghost predicate ClearInJar(jar: Jar, after: Jar, names: seq<Name>, recent: seq<string>) {
    && (forall name :: name in names && name != Recent ==> name !in after)
    && (forall name :: name !in names && name != Recent ==> Unmoved(jar, after, name))
    && (if AccessSlugs(names) != [] then
          Recent in after && after[Recent] == Text.Join(Except(recent, set s | s in AccessSlugs(names)), '.')
        else Recent !in names ==> Unmoved(jar, after, Recent))
  }

  lemma {:induction false} KeepsHold(jar: Jar, cookies: seq<Cookie>, i: nat)
    requires i < |cookies| && IsLast(cookies, i)
    ensures cookies[i].name in AppliedAll(jar, Keeps(cookies)) && AppliedAll(jar, Keeps(cookies))[cookies[i].name] == cookies[i].value
  {
    var less, last := cookies[..|cookies| - 1], cookies[|cookies| - 1];
    assert Keeps(cookies)[..|less|] == Keeps(less);
    if i < |less| {
      assert IsLast(less, i) by { assert forall j :: i < j < |less| ==> less[j] == cookies[j]; }
      KeepsHold(jar, less, i);
    }
  }

  lemma DroppedIsPastBudget(cookies: seq<Cookie>, recent: seq<string>, name: Name)
    requires AccessSlugs(NamesOf(cookies)) != []
    ensures OfPair(name, Dropped(Ordered(cookies, recent))) <==> PastBudget(name, cookies, recent)
  {
    if name.Access? || name.Refresh? { TakeOrDrop(Ordered(cookies, recent), name.slug); }
  }

  /** A name's value comes from the cookies, less the dropped pairs; the list's from the last header. */
  lemma SetHolds(jar: Jar, cookies: seq<Cookie>, recent: seq<string>, name: Name)
    requires name != Recent
    ensures var kept, after := AppliedAll(jar, Keeps(cookies)), AppliedAll(jar, SetHeaders(cookies, recent));
            if PastBudget(name, cookies, recent) then name !in after else Unmoved(kept, after, name)
  {
    hide Keeps, AppliedAll, PairsOf, PastBudget;
    var kept := AppliedAll(jar, Keeps(cookies));
    if AccessSlugs(NamesOf(cookies)) != [] {
      var order := Ordered(cookies, recent);
      AppliedBoth(jar, Keeps(cookies), PairsOf(Dropped(order)));
      PairsLeave(kept, Dropped(order), name);
      LastHeader(jar, Keeps(cookies) + PairsOf(Dropped(order)), Remember(Take(order, MAX_TENANT_PAIRS)));
      DroppedIsPastBudget(cookies, recent, name);
    } else {
      NothingMintedNothingPast(cookies, recent, name);
    }
  }

  lemma NothingMintedNothingPast(cookies: seq<Cookie>, recent: seq<string>, name: Name)
    requires AccessSlugs(NamesOf(cookies)) == []
    ensures !PastBudget(name, cookies, recent)
  {
  }

  lemma SetLands(jar: Jar, cookies: seq<Cookie>, recent: seq<string>)
    ensures SetInJar(jar, AppliedAll(jar, SetHeaders(cookies, recent)), cookies, recent)
  {
    hide PastBudget, Keeps, PairsOf, AppliedAll;
    var after, minted := AppliedAll(jar, SetHeaders(cookies, recent)), AccessSlugs(NamesOf(cookies));
    forall i: nat | i < |cookies| && IsLast(cookies, i) && cookies[i].name != Recent && !PastBudget(cookies[i].name, cookies, recent)
      ensures cookies[i].name in after && after[cookies[i].name] == cookies[i].value
    {
      KeepsHold(jar, cookies, i);
      SetHolds(jar, cookies, recent, cookies[i].name);
    }
    forall name | PastBudget(name, cookies, recent) ensures name !in after {
      ListIsNotPastBudget(name, cookies, recent);
      SetHolds(jar, cookies, recent, name);
    }
    forall name | name !in NamesOf(cookies) && name != Recent && !PastBudget(name, cookies, recent) ensures Unmoved(jar, after, name) {
      KeepsLeave(jar, cookies, name);
      SetHolds(jar, cookies, recent, name);
    }
    ListLands(jar, cookies, recent);
  }

  lemma ListIsNotPastBudget(name: Name, cookies: seq<Cookie>, recent: seq<string>)
    requires PastBudget(name, cookies, recent)
    ensures name != Recent
  {
  }

  lemma ListLands(jar: Jar, cookies: seq<Cookie>, recent: seq<string>)
    ensures var after, minted := AppliedAll(jar, SetHeaders(cookies, recent)), AccessSlugs(NamesOf(cookies));
            if minted != [] then Recent in after && after[Recent] == Text.Join(Take(Unique(minted + recent), MAX_TENANT_PAIRS), '.')
            else Recent !in NamesOf(cookies) ==> Unmoved(jar, after, Recent)
  {
    hide Keeps, PairsOf, AppliedAll;
    if AccessSlugs(NamesOf(cookies)) != [] {
      var order := Ordered(cookies, recent);
      LastHeader(jar, Keeps(cookies) + PairsOf(Dropped(order)), Remember(Take(order, MAX_TENANT_PAIRS)));
    } else {
      KeepsLeave(jar, cookies, Recent);
    }
  }

  lemma ClearLands(jar: Jar, names: seq<Name>, recent: seq<string>)
    ensures ClearInJar(jar, AppliedAll(jar, ClearHeaders(names, recent)), names, recent)
  {
    hide Expires, AppliedAll;
    var after := AppliedAll(jar, ClearHeaders(names, recent));
    assert AccessSlugs(names) != [] <==> Gone(names) != {} by { SomeGone(names); }
    if Gone(names) != {} { LastHeader(jar, Expires(names), Remember(Except(recent, Gone(names)))); }
    forall name ensures Unmoved(AppliedAll(jar, Expires(names)), after, name) || (name == Recent && Gone(names) != {}) {
      ExpiresLeave(jar, names, name);
    }
    forall name | name != Recent ensures name in names ==> name !in after ensures name !in names ==> Unmoved(jar, after, name) {
      ExpiresLeave(jar, names, name);
    }
    ExpiresLeave(jar, names, Recent);
  }

  lemma SomeGone(names: seq<Name>)
    ensures AccessSlugs(names) != [] <==> Gone(names) != {}
  {
    if AccessSlugs(names) != [] { assert AccessSlugs(names)[0] in Gone(names); }
  }

  lemma SetReaches(before: seq<Header>, cookies: seq<Cookie>, recent: seq<string>)
    ensures var all := before + SetHeaders(cookies, recent);
            forall jar: Jar :: SetInJar(jar, AppliedAll(jar, all[|before|..]), cookies, recent)
  {
    var all := before + SetHeaders(cookies, recent);
    assert all[|before|..] == SetHeaders(cookies, recent);
    forall jar: Jar ensures SetInJar(jar, AppliedAll(jar, all[|before|..]), cookies, recent) {
      SetLands(jar, cookies, recent);
    }
  }

  lemma ClearReaches(before: seq<Header>, names: seq<Name>, recent: seq<string>)
    ensures var all := before + ClearHeaders(names, recent);
            forall jar: Jar :: ClearInJar(jar, AppliedAll(jar, all[|before|..]), names, recent)
  {
    var all := before + ClearHeaders(names, recent);
    assert all[|before|..] == ClearHeaders(names, recent);
    forall jar: Jar ensures ClearInJar(jar, AppliedAll(jar, all[|before|..]), names, recent) {
      ClearLands(jar, names, recent);
    }
  }

  // ---- The code ----

  /** One response, and the cookie service's part in it. */
  class CookieService {
    // The list the request carried, and what this response has written of it.
    const sent: seq<string>
    var pending: Option<seq<string>>
    var headers: seq<Header>

    constructor (sent: seq<string>)
      ensures this.sent == sent && pending == None && headers == []
    {
      this.sent, pending, headers := sent, None, [];
    }

    function Recent(): seq<string>
      reads this
    {
      if pending.Some? then pending.value else sent
    }

    /** The operation's headers, after all earlier ones. */
    method Set(cookies: seq<Cookie>)
      modifies this
      ensures headers == old(headers) + HeadersOf(Op.Set(cookies), old(Recent()))
      ensures pending == if Wrote(Op.Set(cookies)) then Some(ListAfter(Op.Set(cookies), old(Recent()))) else old(pending)
      // Whatever the browser held before.
      ensures old(headers) <= headers
      ensures forall jar: Jar :: SetInJar(jar, AppliedAll(jar, headers[|old(headers)|..]), cookies, old(Recent()))
    {
      SetReaches(headers, cookies, Recent());
      hide Keeps, NamesOf, AccessSlugs, Unique, Text.Join, PairsOf, SetInJar;
      KeepAll(cookies);
      var minted := AccessSlugs(NamesOf(cookies));
      if minted == [] { return; }
      var order := Unique(minted + Recent());
      ExpirePairs(Dropped(order));
      RememberList(Take(order, MAX_TENANT_PAIRS));
    }

    method KeepAll(cookies: seq<Cookie>)
      modifies this
      ensures headers == old(headers) + Keeps(cookies) && pending == old(pending)
    {
      for i := 0 to |cookies|
        invariant headers == old(headers) + Keeps(cookies[..i]) && pending == old(pending)
      {
        headers := headers + [Keep(cookies[i].name, cookies[i].value)];
        assert Keeps(cookies[..i + 1]) == Keeps(cookies[..i]) + [Keep(cookies[i].name, cookies[i].value)];
      }
      assert cookies[..|cookies|] == cookies;
    }

    method ExpirePairs(dropped: seq<string>)
      modifies this
      ensures headers == old(headers) + PairsOf(dropped) && pending == old(pending)
    {
      for i := 0 to |dropped|
        invariant headers == old(headers) + PairsOf(dropped[..i]) && pending == old(pending)
      {
        headers := headers + [Expire(Access(dropped[i])), Expire(Refresh(dropped[i]))];
        assert dropped[..i + 1][..i] == dropped[..i];
      }
      assert dropped[..|dropped|] == dropped;
    }

    method Clear(names: seq<Name>)
      modifies this
      ensures headers == old(headers) + HeadersOf(Op.Clear(names), old(Recent()))
      ensures pending == if Wrote(Op.Clear(names)) then Some(ListAfter(Op.Clear(names), old(Recent()))) else old(pending)
      ensures old(headers) <= headers
      ensures forall jar: Jar :: ClearInJar(jar, AppliedAll(jar, headers[|old(headers)|..]), names, old(Recent()))
    {
      ClearReaches(headers, names, Recent());
      hide ClearInJar;
      for i := 0 to |names|
        invariant headers == old(headers) + Expires(names[..i]) && pending == old(pending)
      {
        headers := headers + [Expire(names[i])];
        assert Expires(names[..i + 1]) == Expires(names[..i]) + [Expire(names[i])];
      }
      assert names[..|names|] == names;
      var gone := Gone(names);
      if gone == {} { return; }
      RememberList(Except(Recent(), gone));
    }

    method RememberList(list: seq<string>)
      modifies this
      ensures pending == Some(list) && headers == old(headers) + [Remember(list)]
    {
      pending := Some(list);
      headers := headers + [Remember(list)];
    }
  }
}
