/** Identifiers and dates of the foods the store creates
    (database/nutrition_db.py, `_generate_food_id` and `_get_current_date`):
    a slug of the food's name followed by a minute-resolution timestamp.
    The wall clock is a parameter. Names are ASCII, so `\w` is
    `[A-Za-z0-9_]` and `\s` is the `isspace` set. */
module FoodId {
  import opened Wrappers
  import opened Text
  import opened Seqs

  /** A local time as `datetime.now()` reports it, to the minute. */
  datatype Moment = Moment(year: nat, month: nat, day: nat, hour: nat, minute: nat) {
    predicate Valid() {
      1 <= year <= 9999 && 1 <= month <= 12 && 1 <= day <= 31 && hour < 24 && minute < 60
    }
  }

  type Clock = m: Moment | m.Valid() witness Moment(2000, 1, 1, 0, 0)

  predicate IsDigit(c: char) {
    '0' <= c <= '9'
  }

  function Digit(d: nat): char
    requires d < 10
  {
    ('0' as int + d) as char
  }

  function DigitValue(c: char): int {
    c as int - '0' as int
  }

  /** `%02d` */
  function Pad2(n: nat): string
    requires n < 100
  {
    [Digit(n / 10), Digit(n % 10)]
  }

  /** `%04d`. It is what `%Y` prints for the years 1000 to 9999, which
      include every year the system clock reads; earlier years, which
      `strftime` may print without leading zeros, do not occur. */
  function Pad4(n: nat): string
    requires n < 10000
  {
    [Digit(n / 1000), Digit(n / 100 % 10), Digit(n / 10 % 10), Digit(n % 10)]
  }

  /** `strftime("%y%m%d_%H%M")` */
  function Timestamp(c: Clock): (r: string)
    ensures |r| == 11 && r[6] == '_'
  {
    Pad2(c.year % 100) + Pad2(c.month) + Pad2(c.day) + "_" + Pad2(c.hour) + Pad2(c.minute)
  }

  /** `strftime("%Y-%m-%d")`, the `created_date` of a new food. */
  function CurrentDate(c: Clock): (r: string)
    ensures |r| == 10 && r[4] == '-' && r[7] == '-'
  {
    Pad4(c.year) + "-" + Pad2(c.month) + "-" + Pad2(c.day)
  }

  /** The value of two decimal digits. */
  function Number2(a: char, b: char): int {
    10 * DigitValue(a) + DigitValue(b)
  }

  /** The value of four decimal digits. */
  function Number4(a: char, b: char, c: char, d: char): int {
    100 * Number2(a, b) + Number2(c, d)
  }

  /** The fields of a `%y%m%d_%H%M` timestamp, read back. */
  datatype Stamp = Stamp(yy: int, month: int, day: int, hour: int, minute: int)

  function ReadTimestamp(s: string): Stamp
    requires |s| == 11
  {
    Stamp(Number2(s[0], s[1]), Number2(s[2], s[3]), Number2(s[4], s[5]), Number2(s[7], s[8]), Number2(s[9], s[10]))
  }

  /** The year, month and day of a `%Y-%m-%d` date, read back. */
  function ReadDate(s: string): (int, int, int)
    requires |s| == 10
  {
    (Number4(s[0], s[1], s[2], s[3]), Number2(s[5], s[6]), Number2(s[8], s[9]))
  }

  lemma Pad2Reads(n: nat)
    requires n < 100
    ensures Number2(Pad2(n)[0], Pad2(n)[1]) == n
  {
  }

  lemma Pad4Reads(n: nat)
    requires n < 10000
    ensures Number4(Pad4(n)[0], Pad4(n)[1], Pad4(n)[2], Pad4(n)[3]) == n
  {
    assert Number2(Pad4(n)[0], Pad4(n)[1]) == n / 100;
  }

  /** Reading a timestamp back gives the clock's two-digit year, month,
      day, hour and minute. */
  lemma TimestampRoundTrip(c: Clock)
    ensures ReadTimestamp(Timestamp(c)) == Stamp(c.year % 100, c.month, c.day, c.hour, c.minute)
  {
    var t := Timestamp(c);
    var y, mo, d, h, mi := Pad2(c.year % 100), Pad2(c.month), Pad2(c.day), Pad2(c.hour), Pad2(c.minute);
    assert t[0] == y[0] && t[1] == y[1] && t[2] == mo[0] && t[3] == mo[1] && t[4] == d[0] && t[5] == d[1];
    assert t[7] == h[0] && t[8] == h[1] && t[9] == mi[0] && t[10] == mi[1];
    Pad2Reads(c.year % 100);
    Pad2Reads(c.month);
    Pad2Reads(c.day);
    Pad2Reads(c.hour);
    Pad2Reads(c.minute);
  }

  /** Reading a creation date back gives the clock's year, month and day. */
  lemma CurrentDateRoundTrip(c: Clock)
    ensures ReadDate(CurrentDate(c)) == (c.year, c.month, c.day)
  {
    var t := CurrentDate(c);
    var y, mo, d := Pad4(c.year), Pad2(c.month), Pad2(c.day);
    assert t[0] == y[0] && t[1] == y[1] && t[2] == y[2] && t[3] == y[3];
    assert t[5] == mo[0] && t[6] == mo[1] && t[8] == d[0] && t[9] == d[1];
    Pad4Reads(c.year);
    Pad2Reads(c.month);
    Pad2Reads(c.day);
  }

  // ---------------------------------------------------------------------
  // The slug

  /** `\w` on ASCII. */
  predicate IsWordChar(c: char) {
    'a' <= c <= 'z' || 'A' <= c <= 'Z' || '0' <= c <= '9' || c == '_'
  }

  /** What a slug is made of: lower-case letters, digits and `_`. */
  predicate IsSlugChar(c: char) {
    'a' <= c <= 'z' || '0' <= c <= '9' || c == '_'
  }

  predicate SlugShaped(s: string) {
    forall c :: c in s ==> IsSlugChar(c)
  }

  /** The class `[\w\s]` the first substitution keeps. */
  function KeepChar(c: char): bool {
    IsWordChar(c) || IsSpace(c)
  }

  /** `re.sub(r'[^\w\s]', '', s)`: the word and space characters of `s`,
      each occurrence kept, in their order. */
  function DropSymbols(s: string): (r: string)
    ensures forall c :: c in r <==> c in s && (IsWordChar(c) || IsSpace(c))
    ensures IsSubsequence(r, s)
    ensures forall c :: multiset(r)[c] == if IsWordChar(c) || IsSpace(c) then multiset(s)[c] else 0
  {
    FilterCounts(s, KeepChar);
    Filter(s, KeepChar)
  }

  /** `re.sub(r'\s+', '_', s)`: every maximal whitespace run becomes one `_`. */
  function Underscored(s: string): string
    decreases |s|
  {
    if s == [] then []
    else if IsSpace(s[0]) then "_" + Underscored(s[LeadingSpaces(s)..])
    else [s[0]] + Underscored(s[1..])
  }

  /** The substitution only shortens, and what it leaves is `_` or a
      non-whitespace character of the input. */
  lemma {:induction false} UnderscoredChars(s: string)
    ensures |Underscored(s)| <= |s|
    ensures forall c :: c in Underscored(s) ==> c == '_' || (c in s && !IsSpace(c))
    decreases |s|
  {
    if s != [] {
      if IsSpace(s[0]) {
        var rest := s[LeadingSpaces(s)..];
        assert forall c :: c in rest ==> c in s;
        UnderscoredChars(rest);
      } else {
        assert forall c :: c in s[1..] ==> c in s;
        UnderscoredChars(s[1..]);
      }
    }
  }

  const MaxSlugLength: nat := 30

  /** The name part of a generated id: lower-cased, symbols deleted,
      stripped, whitespace runs turned into `_`, cut to 30 characters. */
  function Slug(name: string): (r: string)
    ensures |r| <= MaxSlugLength
    ensures SlugShaped(r)
  {
    var lowered := Lower(name);
    var kept := DropSymbols(lowered);
    var clean := Strip(kept);
    var u := Underscored(clean);
    UnderscoredChars(clean);
    SlugChars(lowered, kept, clean, u);
    if |u| > MaxSlugLength then u[..MaxSlugLength] else u
  }

  lemma SlugChars(lowered: string, kept: string, clean: string, u: string)
    requires forall i :: 0 <= i < |lowered| ==> !IsUpper(lowered[i])
    requires forall c :: c in kept <==> c in lowered && (IsWordChar(c) || IsSpace(c))
    requires clean == Strip(kept)
    requires forall c :: c in u ==> c == '_' || (c in clean && !IsSpace(c))
    ensures SlugShaped(u)
    ensures forall k :: 0 <= k <= |u| ==> SlugShaped(u[..k])
  {
    var t := SkipSpaces(kept);
    assert forall c :: c in clean ==> c in t;
    assert forall c :: c in t ==> c in kept;
    forall c | c in u
      ensures IsSlugChar(c)
    {
      if c != '_' {
        var i :| 0 <= i < |lowered| && lowered[i] == c;
      }
    }
    forall k, c | 0 <= k <= |u| && c in u[..k]
      ensures IsSlugChar(c)
    {
      assert c in u;
    }
  }

  /** `_generate_food_id`: the slug, `_`, then the `%y%m%d_%H%M` timestamp. */
  function GenerateFoodId(name: string, now: Clock): (r: string)
    ensures |r| == |Slug(name)| + 12
    ensures r[..|r| - 12] == Slug(name) && r[|r| - 12] == '_'
    ensures ReadTimestamp(r[|r| - 11..]) == Stamp(now.year % 100, now.month, now.day, now.hour, now.minute)
  {
    var slug := Slug(name);
    var r := slug + "_" + Timestamp(now);
    JoinedParts(slug, Timestamp(now));
    TimestampRoundTrip(now);
    r
  }

  /** The parts of `a + "_" + b` sit where they were put. */
  lemma JoinedParts(a: string, b: string)
    ensures var r := a + "_" + b;
      |r| == |a| + 1 + |b| && r[..|a|] == a && r[|a|] == '_' && r[|a| + 1..] == b
  {
    var r := a + "_" + b;
    assert r[..|a|] == a;
    assert r[|a| + 1..] == b;
  }

  // ---------------------------------------------------------------------
  // Facts about slugs

  lemma {:induction false} UnderscoredIdle(s: string)
    requires forall i :: 0 <= i < |s| ==> !IsSpace(s[i])
    ensures Underscored(s) == s
    decreases |s|
  {
    if s != [] {
      UnderscoredIdle(s[1..]);
    }
  }

  lemma UnderscoredWordChar(c: char, s: string)
    requires !IsSpace(c)
    ensures Underscored([c] + s) == [c] + Underscored(s)
  {
    assert ([c] + s)[1..] == s;
  }

  lemma {:induction false} UnderscoredAppend(w: string, tail: string)
    requires forall i :: 0 <= i < |w| ==> !IsSpace(w[i])
    ensures Underscored(w + tail) == w + Underscored(tail)
    decreases |w|
  {
    if w == [] {
      assert w + tail == tail;
    } else {
      assert w + tail == [w[0]] + (w[1..] + tail);
      UnderscoredWordChar(w[0], w[1..] + tail);
      UnderscoredAppend(w[1..], tail);
      assert w + Underscored(tail) == [w[0]] + (w[1..] + Underscored(tail));
    }
  }

  /** Splitting ignores leading whitespace. */
  lemma SplitAfterSpaces(s: string)
    ensures Split(s) == Split(s[LeadingSpaces(s)..])
  {
    var k := LeadingSpaces(s);
    assert s[k..][0..] == s[k..];
  }

  lemma UnderscoredSpaceRun(tail: string)
    requires tail != [] && IsSpace(tail[0])
    ensures Underscored(tail) == "_" + Underscored(tail[LeadingSpaces(tail)..])
  {
  }

  lemma JoinCons(w: string, ws: seq<string>, sep: string)
    requires ws != []
    ensures Join([w] + ws, sep) == w + sep + Join(ws, sep)
  {
    assert ([w] + ws)[1..] == ws;
  }

  /** The whitespace after the first word of a stripped string leads to a
      shorter stripped string. */
  lemma AfterFirstWord(s: string, tail: string)
    requires s != [] && !IsSpace(s[|s| - 1])
    requires tail != [] && IsSpace(tail[0])
    requires |tail| < |s| && tail == s[|s| - |tail|..]
    ensures var rest := tail[LeadingSpaces(tail)..];
      rest != [] && !IsSpace(rest[0]) && !IsSpace(rest[|rest| - 1]) && |rest| < |s|
  {
    var k := LeadingSpaces(tail);
    LeadingAreSpaces(tail);
    assert tail[|tail| - 1] == s[|s| - 1];
    assert k < |tail|;
    var rest := tail[k..];
    assert rest[|rest| - 1] == s[|s| - 1];
  }

  /** The first word of a string that starts with one. */
  lemma FirstWord(s: string)
    requires s != [] && !IsSpace(s[0])
    ensures Split(s) == [s[..WordLen(s)]] + Split(s[WordLen(s)..])
    ensures Underscored(s) == s[..WordLen(s)] + Underscored(s[WordLen(s)..])
  {
    assert LeadingSpaces(s) == 0;
    assert s[0..] == s;
    FirstWordUnderscored(s);
  }

  lemma FirstWordUnderscored(s: string)
    requires s != [] && !IsSpace(s[0])
    ensures Underscored(s) == s[..WordLen(s)] + Underscored(s[WordLen(s)..])
  {
    var n := WordLen(s);
    assert s == s[..n] + s[n..];
    UnderscoredAppend(s[..n], s[n..]);
  }

  lemma JoinsWordsStep(w: string, tail: string, rest: string)
    requires Underscored(tail) == "_" + Underscored(rest) && Split(tail) == Split(rest)
    requires Underscored(rest) == Join(Split(rest), "_") && Split(rest) != []
    ensures w + Underscored(tail) == Join([w] + Split(tail), "_")
  {
    JoinCons(w, Split(rest), "_");
  }

  /** On a stripped string, replacing whitespace runs by `_` is joining its
      words with `_`. */
  lemma {:induction false} UnderscoredJoinsWords(s: string)
    requires s == [] || (!IsSpace(s[0]) && !IsSpace(s[|s| - 1]))
    ensures Underscored(s) == Join(Split(s), "_")
    decreases |s|
  {
    if s != [] {
      var n := WordLen(s);
      var w, tail := s[..n], s[n..];
      FirstWord(s);
      if tail == [] {
        assert Split(tail) == [];
      } else {
        var rest := tail[LeadingSpaces(tail)..];
        AfterFirstWord(s, tail);
        UnderscoredSpaceRun(tail);
        SplitAfterSpaces(tail);
        UnderscoredJoinsWords(rest);
        assert Split(rest) != [];
        JoinsWordsStep(w, tail, rest);
      }
    }
  }

  lemma LowerIdle(s: string)
    requires SlugShaped(s)
    ensures Lower(s) == s
  {
    assert forall i :: 0 <= i < |s| ==> s[i] in s;
  }

  lemma DropSymbolsIdle(s: string)
    requires SlugShaped(s)
    ensures DropSymbols(s) == s
  {
    assert forall i :: 0 <= i < |s| ==> s[i] in s;
    FilterKeepsAll(s, KeepChar);
  }

  lemma StripAndUnderscoreIdle(s: string)
    requires SlugShaped(s)
    ensures Strip(s) == s && Underscored(s) == s
  {
    assert forall i :: 0 <= i < |s| ==> s[i] in s;
    StripIdle(s);
    UnderscoredIdle(s);
  }

  /** A string already shaped like a slug is its own slug. */
  lemma SlugFixesSlugShaped(s: string)
    requires SlugShaped(s) && |s| <= MaxSlugLength
    ensures Slug(s) == s
  {
    LowerIdle(s);
    DropSymbolsIdle(s);
    StripAndUnderscoreIdle(s);
  }

  /** A slug is its own slug. */
  lemma SlugIdempotent(name: string)
    ensures Slug(Slug(name)) == Slug(name)
  {
    SlugFixesSlugShaped(Slug(name));
  }

  /** The slug is the first 30 characters of the words of the lower-cased,
      symbol-free, stripped name joined by `_`. */
  lemma SlugJoinsWords(name: string)
    ensures var words := Split(Strip(DropSymbols(Lower(name))));
      Slug(name) == Take(Join(words, "_"), Some(MaxSlugLength as int))
  {
    var clean := Strip(DropSymbols(Lower(name)));
    StripEnds(DropSymbols(Lower(name)));
    UnderscoredJoinsWords(clean);
  }

  /** `strip()` leaves no whitespace at either end. */
  lemma StripEnds(s: string)
    ensures var t := Strip(s); t == [] || (!IsSpace(t[0]) && !IsSpace(t[|t| - 1]))
  {
    var u := SkipSpaces(s);
    var t := Strip(s);
    if t != [] {
      assert t[0] == u[0] == s[LeadingSpaces(s)];
      assert t[|t| - 1] == u[|u| - 1 - TrailingSpaces(u)];
    }
  }
}
