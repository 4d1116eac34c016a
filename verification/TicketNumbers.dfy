// Ticket numbers as people see them: "INC-000042", and "[INC-000042]" in a subject.
// Source: packages/contracts/src/ticket-number.ts.

module TicketNumbers {
  import opened LogOrder
  import opened Digits

  datatype TicketType = INCIDENT | SERVICE_REQUEST | PROBLEM | CHANGE

  /** No type for a bare number: the caller searches every type. */
  datatype Parsed = Parsed(kind: Option<TicketType>, number: nat)

  const PAD: nat := 6
  const MAX_DIGITS: nat := 9

  function Prefix(t: TicketType): (s: string)
    ensures 2 <= |s| <= 3 && forall c :: c in s ==> IsLetter(c)
  {
    match t
    case INCIDENT => "INC"
    case SERVICE_REQUEST => "SR"
    case PROBLEM => "PRB"
    case CHANGE => "CHG"
  }

  predicate IsLetter(c: char) {
    ('A' <= c <= 'Z') || ('a' <= c <= 'z')
  }

  function Upper(s: string): (r: string)
    ensures |r| == |s|
  {
    seq(|s|, i requires 0 <= i < |s| => if 'a' <= s[i] <= 'z' then (s[i] as int - 32) as char else s[i])
  }

  function TypeOf(prefix: string): Option<TicketType> {
    if prefix == "INC" then Some(INCIDENT)
    else if prefix == "SR" then Some(SERVICE_REQUEST)
    else if prefix == "PRB" then Some(PROBLEM)
    else if prefix == "CHG" then Some(CHANGE)
    else None
  }

  function Format(t: TicketType, number: nat): string {
    Prefix(t) + "-" + PadStart(Decimal(number), PAD)
  }

  /** How long a number starts here: two to four letters, a hyphen, one to nine digits. */
  function Prefixed(s: string): (n: nat)
    ensures n <= |s|
  {
    var letters := Run(s, IsLetter);
    if !(2 <= letters <= 4) || letters == |s| || s[letters] != '-' then 0
    else
      var digits := Run(s[letters + 1..], IsDigit);
      if digits == 0 then 0 else letters + 1 + digits
  }

  /** The whole text is such a number, and no longer a one than the pattern takes. */
  predicate IsPrefixed(s: string) {
    Prefixed(s) == |s| > 0 && |s| - Run(s, IsLetter) - 1 <= MAX_DIGITS
  }

  predicate IsBare(s: string) {
    1 <= |s| <= MAX_DIGITS && forall c :: c in s ==> IsDigit(c)
  }

  function Bare(s: string): string {
    if s != "" && s[0] == '#' then s[1..] else s
  }

  lemma PrefixedEndsInDigits(s: string)
    requires IsPrefixed(s)
    ensures forall c :: c in s[Run(s, IsLetter) + 1..] ==> IsDigit(c)
  {
    var letters := Run(s, IsLetter);
    var tail := s[letters + 1..];
    assert Run(tail, IsDigit) == |tail|;
  }

  function Parse(input: string): Option<Parsed> {
    var s := Trim(input);
    if IsBare(Bare(s)) then Some(Parsed(None, Value(Bare(s))))
    else if !IsPrefixed(s) then None
    else
      var letters := Run(s, IsLetter);
      var kind := TypeOf(Upper(s[..letters]));
      if kind.None? then None
      else
        PrefixedEndsInDigits(s);
        Some(Parsed(kind, Value(s[letters + 1..])))
  }

  /** `/\[([A-Za-z]{2,4}-\d{1,9})\]/` matches at the front; its first group is this long. */
  function Bracketed(s: string): (n: nat)
    ensures n == 0 || n + 2 <= |s|
  {
    if s == "" || s[0] != '[' then 0
    else
      var n := Prefixed(s[1..]);
      if n == 0 || n + 1 >= |s| || s[n + 1] != ']' || !IsPrefixed(s[1..n + 1]) then 0 else n
  }

  /** The leftmost bracketed number decides, whatever type it names. */
  function FindInSubject(subject: string): Option<Parsed> {
    if subject == "" then None
    else if Bracketed(subject) > 0 then
      var p := Parse(subject[1..Bracketed(subject) + 1]);
      if p.None? || p.value.kind.None? then None else p
    else FindInSubject(subject[1..])
  }

  // ---- Reading what was written ----

  lemma PaddedDigits(number: nat)
    ensures var s := PadStart(Decimal(number), PAD);
            && s != "" && (forall c :: c in s ==> IsDigit(c)) && Value(s) == number
            && (|s| <= MAX_DIGITS <==> number < Power(MAX_DIGITS))
  {
    var d := Decimal(number);
    ValueOfDecimal(number);
    DecimalLength(number, MAX_DIGITS);
    if |d| < PAD { LeadingZeros(d, PAD - |d|); }
  }

  lemma Capitals(t: TicketType)
    ensures Upper(Prefix(t)) == Prefix(t) && TypeOf(Prefix(t)) == Some(t)
  {
  }

  predicate Letters(s: string) {
    2 <= |s| <= 4 && forall c :: c in s ==> IsLetter(c)
  }

  predicate Numerals(s: string) {
    s != "" && forall c :: c in s ==> IsDigit(c)
  }

  function Written(letters: string, digits: string): string {
    letters + "-" + digits
  }

  /** Where the letters end. */
  lemma LettersEnd(letters: string, rest: string)
    requires Letters(letters)
    ensures var s := letters + "-" + rest;
            Run(s, IsLetter) == |letters| && s[..|letters|] == letters && s[|letters|] == '-' && s[|letters| + 1..] == rest
  {
    var s := letters + "-" + rest;
    forall i | 0 <= i < |letters| ensures IsLetter(s[i]) {
      assert s[i] == letters[i] && letters[i] in letters;
    }
    RunIs(s, IsLetter, |letters|);
  }

  /** And where the digits do. */
  lemma DigitsEnd(digits: string, after: string)
    requires Numerals(digits) && (after == "" || !IsDigit(after[0]))
    ensures Run(digits + after, IsDigit) == |digits|
  {
    var s := digits + after;
    forall i | 0 <= i < |digits| ensures IsDigit(s[i]) {
      assert s[i] == digits[i] && digits[i] in digits;
    }
    RunIs(s, IsDigit, |digits|);
  }

  lemma PrefixedShape(letters: string, digits: string, after: string)
    requires Letters(letters) && Numerals(digits) && (after == "" || !IsDigit(after[0]))
    ensures Prefixed(Written(letters, digits) + after) == |Written(letters, digits)|
  {
    LettersEnd(letters, digits + after);
    DigitsEnd(digits, after);
    assert Written(letters, digits) + after == letters + "-" + (digits + after);
    hide Run, Letters, Numerals;
  }

  lemma WholeShape(letters: string, digits: string)
    requires Letters(letters) && Numerals(digits)
    ensures var s := Written(letters, digits);
            && (IsPrefixed(s) <==> |digits| <= MAX_DIGITS)
            && Run(s, IsLetter) == |letters| && s[..|letters|] == letters && s[|letters| + 1..] == digits
  {
    LettersEnd(letters, digits);
    PrefixedShape(letters, digits, "");
    assert Written(letters, digits) + "" == Written(letters, digits);
    hide Run, Letters, Numerals, Prefixed;
  }

  /** Nothing to trim, and no bare number. */
  lemma WrittenIsNotBare(letters: string, digits: string)
    requires Letters(letters) && Numerals(digits)
    ensures var s := Written(letters, digits); Trim(s) == s && !IsBare(Bare(s))
  {
    var s := Written(letters, digits);
    LettersEnd(letters, digits);
    assert s[0] == letters[0] && letters[0] in letters;
    assert s[|s| - 1] == digits[|digits| - 1] && digits[|digits| - 1] in digits;
    TrimsNothing(s);
    assert Bare(s) == s && s[|letters|] in s;
  }

  lemma ParseShape(letters: string, digits: string, t: TicketType)
    requires Letters(letters) && Numerals(digits) && TypeOf(Upper(letters)) == Some(t)
    ensures Parse(Written(letters, digits)) == if |digits| <= MAX_DIGITS then Some(Parsed(Some(t), Value(digits))) else None
  {
    WholeShape(letters, digits);
    WrittenIsNotBare(letters, digits);
    hide Run, Value, Upper, TypeOf, Trim, Bare, IsBare, IsPrefixed, Written;
  }

  // ---- Exactly what is read ----

  /** The letters of each type's numbers. */
  lemma Abbreviations(letters: string, t: TicketType)
    ensures TypeOf(letters) == Some(t) <==>
            letters == match t case INCIDENT => "INC" case SERVICE_REQUEST => "SR" case PROBLEM => "PRB" case CHANGE => "CHG"
    ensures Prefix(t) == letters <==> TypeOf(letters) == Some(t)
  {
  }

  /** A bare number, with or without its hash. */
  lemma BareIff(s: string, number: nat)
    ensures IsBareNumber(s, number) <==>
            exists digits :: (s == digits || s == "#" + digits) && 1 <= |digits| <= 9 && Numerals(digits) && Value(digits) == number
  {
    hide Value;
    if IsBare(Bare(s)) {
      assert s == Bare(s) || s == "#" + Bare(s);
      assert Numerals(Bare(s));
    }
    if digits :| (s == digits || s == "#" + digits) && 1 <= |digits| <= 9 && Numerals(digits) && Value(digits) == number {
      assert digits[0] in digits && !IsDigit('#');
      assert ("#" + digits)[1..] == digits;
    }
  }

  /** A prefixed text is its letters, a hyphen and its digits. */
  lemma PrefixedIs(s: string)
    requires IsPrefixed(s)
    ensures var n := Run(s, IsLetter);
            n < |s| && Letters(s[..n]) && Numerals(s[n + 1..]) && |s[n + 1..]| <= MAX_DIGITS && s == Written(s[..n], s[n + 1..])
  {
    PrefixedEndsInDigits(s);
    var n := Run(s, IsLetter);
    assert s == s[..n] + [s[n]] + s[n + 1..];
  }

  /** What parses, and to what: up to nine digits, alone or after a hash, or after a type's letters in either case and a hyphen. */
  lemma ParseIff(input: string, p: Parsed)
    ensures Parse(input) == Some(p) <==>
            if p.kind.None? then
              exists digits :: (Trim(input) == digits || Trim(input) == "#" + digits) && 1 <= |digits| <= 9 && Numerals(digits) && Value(digits) == p.number
            else
              exists letters, digits ::
                && Trim(input) == letters + "-" + digits && 1 <= |digits| <= 9 && Numerals(digits) && Value(digits) == p.number
                && Letters(letters) && TypeOf(Upper(letters)) == p.kind
  {
    hide Value, TypeOf, Upper, Trim, Bare, IsBare, IsPrefixed, Written, Letters, Parse, IsDigit;
    var s := Trim(input);
    if Parse(input) == Some(p) { ParsedFrom(input, p); }
    if p.kind.None? {
      BareIff(s, p.number);
      if IsBareNumber(s, p.number) { ParsesBare(input, p.number); }
    } else if letters, digits :| s == letters + "-" + digits && 1 <= |digits| <= 9 && Numerals(digits) && Value(digits) == p.number
                                 && Letters(letters) && TypeOf(Upper(letters)) == p.kind {
      WrittenIs(letters, digits);
      ParseShape(letters, digits, p.kind.value);
      TrimmedAgain(letters, digits);
      SameTrim(input, s);
    }
  }

  predicate IsBareNumber(s: string, number: nat) {
    IsBare(Bare(s)) && Value(Bare(s)) == number
  }

  lemma ParsesBare(input: string, number: nat)
    requires IsBareNumber(Trim(input), number)
    ensures Parse(input) == Some(Parsed(None, number))
  {
    hide Value, Trim;
  }

  lemma ParsedFrom(input: string, p: Parsed)
    requires Parse(input) == Some(p)
    ensures if p.kind.None? then IsBareNumber(Trim(input), p.number)
            else exists letters, digits ::
                   && Trim(input) == letters + "-" + digits && 1 <= |digits| <= 9 && Numerals(digits) && Value(digits) == p.number
                   && Letters(letters) && TypeOf(Upper(letters)) == p.kind
  {
    hide Value, TypeOf, Upper, Trim, Bare, IsBare, IsPrefixed, Written, Letters, IsDigit;
    if p.kind.Some? {
      var s := Trim(input);
      PrefixedIs(s);
      var letters, digits := s[..Run(s, IsLetter)], s[Run(s, IsLetter) + 1..];
      WrittenIs(letters, digits);
      assert s == letters + "-" + digits && Letters(letters) && Numerals(digits) && TypeOf(Upper(letters)) == p.kind && Value(digits) == p.number;
    }
  }

  lemma WrittenIs(letters: string, digits: string)
    ensures Written(letters, digits) == letters + "-" + digits
  {
  }

  lemma TrimmedAgain(letters: string, digits: string)
    requires Letters(letters) && Numerals(digits)
    ensures Trim(Written(letters, digits)) == Written(letters, digits)
  {
    WrittenIsNotBare(letters, digits);
  }

  lemma SameTrim(a: string, b: string)
    requires Trim(a) == Trim(b)
    ensures Parse(a) == Parse(b)
  {
  }

  lemma FormatIsWritten(t: TicketType, number: nat)
    ensures var digits := PadStart(Decimal(number), PAD);
            && Letters(Prefix(t)) && Numerals(digits) && Format(t, number) == Written(Prefix(t), digits)
            && Value(digits) == number && (|digits| <= MAX_DIGITS <==> number < Power(MAX_DIGITS))
            && TypeOf(Upper(Prefix(t))) == Some(t)
  {
    PaddedDigits(number);
    Capitals(t);
  }

  /** Exactly the numbers below ten to the ninth come back from what was written of them. */
  lemma ParseFormat(t: TicketType, number: nat)
    ensures Parse(Format(t, number)) == if number < Power(MAX_DIGITS) then Some(Parsed(Some(t), number)) else None
  {
    hide Parse, Format, Power, Letters, Numerals, Written;
    FormatIsWritten(t, number);
    ParseShape(Prefix(t), PadStart(Decimal(number), PAD), t);
  }

  lemma BracketsAreSeen(letters: string, digits: string, after: string)
    requires Letters(letters) && Numerals(digits) && |digits| <= MAX_DIGITS
    ensures var text := Written(letters, digits);
            Bracketed("[" + text + "]" + after) == |text| > 0 && ("[" + text + "]" + after)[1..|text| + 1] == text
  {
    var text := Written(letters, digits);
    InBrackets(text, after);
    PrefixedShape(letters, digits, "]" + after);
    WholeShape(letters, digits);
    WrittenIsLong(letters, digits);
    hide Run, Letters, Numerals, Prefixed, IsPrefixed, Written;
  }

  lemma WrittenIsLong(letters: string, digits: string)
    ensures |Written(letters, digits)| > 0
  {
  }

  /** What stands where in a bracketed text. */
  lemma InBrackets(text: string, after: string)
    ensures var s := "[" + text + "]" + after;
            && s[0] == '[' && s[1..] == text + ("]" + after) && s[|text| + 1] == ']' && s[1..|text| + 1] == text
  {
  }

  /** No bracketed number starts in the first part of a subject. */
  predicate NoneEarlier(before: string, rest: string) {
    forall i :: 0 <= i < |before| ==> Bracketed((before + rest)[i..]) == 0
  }

  /** A subject with no "[" before the number has none earlier. */
  lemma NoBracketNoneEarlier(before: string, rest: string)
    requires '[' !in before
    ensures NoneEarlier(before, rest)
  {
    forall i | 0 <= i < |before| ensures Bracketed((before + rest)[i..]) == 0 {
      assert (before + rest)[i..][0] == before[i] && before[i] in before;
    }
  }

  /** The earliest bracketed number answers, even of a type nobody knows: "[AB-1] [INC-000042]" finds nothing. */
  lemma {:induction false} EarliestAnswers(before: string, rest: string)
    requires NoneEarlier(before, rest) && Bracketed(rest) > 0
    ensures var p := Parse(rest[1..Bracketed(rest) + 1]);
            FindInSubject(before + rest) == if p.Some? && p.value.kind.Some? then p else None
  {
    hide Bracketed, Parse;
    if before == "" {
      assert before + rest == rest;
    } else {
      var s := before + rest;
      assert s[0..] == s && s[1..] == before[1..] + rest;
      forall i | 0 <= i < |before| - 1 ensures Bracketed((before[1..] + rest)[i..]) == 0 {
        assert (before[1..] + rest)[i..] == s[i + 1..];
      }
      EarliestAnswers(before[1..], rest);
    }
  }

  /** With none earlier, what was written in brackets is found in any subject. */
  lemma FoundInSubject(before: string, t: TicketType, number: nat, after: string)
    requires number < Power(MAX_DIGITS) && NoneEarlier(before, "[" + Format(t, number) + "]" + after)
    ensures FindInSubject(before + ("[" + Format(t, number) + "]" + after)) == Some(Parsed(Some(t), number))
  {
    hide Bracketed, Parse, Format, Power, FindInSubject, NoneEarlier, Letters, Numerals, Written;
    FormatIsWritten(t, number);
    BracketsAreSeen(Prefix(t), PadStart(Decimal(number), PAD), after);
    EarliestAnswers(before, "[" + Format(t, number) + "]" + after);
    ParseFormat(t, number);
  }
}
