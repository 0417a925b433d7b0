/** Mapping a provider's hotel record to a stored hotel: an online scan for the two largest
    scores, and a decision that must not depend on the order of the rows.

    Scores are double-precision numbers. All of them are multiples of 2^-57, so a score is
    the integer number of those units, and a sum is rounded to the nearest multiple of the
    unit in the last place, ties to even. */
module Mapping {
  import opened Sql

  // ---------- double-precision sums ----------

  const FIVE: int := 7205759403792794
  const TEN: int := 14411518807585588
  const FIFTEEN: int := 21617278211378380
  const TWENTY: int := 28823037615171176
  const FORTY: int := 57646075230342352
  const FIFTY: int := 72057594037927936
  const FIFTY_FIVE: int := 79263353441720736
  const SIXTY_FIVE: int := 93674872249306320
  const EIGHTY: int := 115292150460684704
  const HUNDRED: int := 144115188075855872

  const HIGH: int := EIGHTY
  const MEDIUM: int := FIFTY_FIVE
  const MARGIN: int := FIVE

  /** `x` units to 53 significant bits. */
  function Rounded(x: int): int {
    var size := if x < 0 then -x else x;
    if size < 0x20_0000_0000_0000 then x
    else if size < 0x40_0000_0000_0000 then NearestEven(x, x / 2, x % 2, 2)
    else if size < 0x80_0000_0000_0000 then NearestEven(x, x / 4, x % 4, 4)
    else if size < 0x100_0000_0000_0000 then NearestEven(x, x / 8, x % 8, 8)
    else if size < 0x200_0000_0000_0000 then NearestEven(x, x / 16, x % 16, 16)
    else NearestEven(x, x / 32, x % 32, 32)
  }

  function NearestEven(x: int, quotient: int, rest: int, ulp: int): int {
    if 2 * rest < ulp || (2 * rest == ulp && quotient % 2 == 0) then x - rest else x - rest + ulp
  }

  function Plus(a: int, b: int): int {
    Rounded(a + b)
  }

  function Clamped(score: int): int {
    if score < 0 then 0 else if score > HUNDRED then HUNDRED else score
  }

  // ---------- what is compared ----------

  datatype Record = Record(rawName: string, city: string, country: string, latitude: Option<real>, longitude: Option<real>)

  datatype Hotel = Hotel(
    canonicalName: string,
    normalizedName: string,
    city: string,
    normalizedCity: string,
    country: string,
    latitude: Option<real>,
    longitude: Option<real>)

  datatype Text = Text(normal: string -> string, country: string -> string, strip: string -> string)

  datatype NameMatch = SameName | PrefixName | SharedTokens | OtherName

  /** `Elsewhere` is more than twenty kilometres away; `Unremarkable` is between one and
      twenty kilometres, or unknown. */
  datatype Nearness = Within300m | Within1km | Unremarkable | Elsewhere

  datatype Features = Features(name: NameMatch, sameCity: bool, nearness: Nearness)

  function Tokens(s: string, current: string): set<string> {
    var token := if current == "" then {} else {current};
    if s == "" then token
    else if s[0] == ' ' then token + Tokens(s[1..], "")
    else Tokens(s[1..], current + [s[0]])
  }

  predicate SharesTokens(left: string, right: string) {
    var l, r := Tokens(left, ""), Tokens(right, "");
    l != {} && r != {} && 5 * |l * r| >= 3 * Max(|l|, |r|)
  }

  function NameMatchOf(name: string, candidate: string): NameMatch {
    if name == "" then OtherName
    else if candidate == name then SameName
    else if name <= candidate || candidate <= name then PrefixName
    else if SharesTokens(name, candidate) then SharedTokens
    else OtherName
  }

  function NearnessOf(km: (real, real, real, real) -> real, record: Record, candidate: Hotel): Nearness {
    if record.latitude.None? || record.longitude.None? || candidate.latitude.None? || candidate.longitude.None?
    then Unremarkable
    else
      var d := km(record.latitude.value, record.longitude.value, candidate.latitude.value, candidate.longitude.value);
      if d <= 0.30 then Within300m else if d <= 1.00 then Within1km else if d > 20.0 then Elsewhere else Unremarkable
  }

  function FeaturesOf(text: Text, km: (real, real, real, real) -> real, record: Record, candidate: Hotel): Features {
    var city := text.normal(record.city);
    Features(NameMatchOf(text.normal(record.rawName), text.normal(candidate.canonicalName)),
             city != "" && text.normal(candidate.city) == city,
             NearnessOf(km, record, candidate))
  }

  function NamePoints(m: NameMatch): int {
    match m
    case SameName => SIXTY_FIVE
    case PrefixName => FIFTY
    case SharedTokens => FORTY
    case OtherName => 0
  }

  function NearnessPoints(n: Nearness): int {
    match n
    case Within300m => FIFTEEN
    case Within1km => TEN
    case Unremarkable => 0
    case Elsewhere => -TWENTY
  }

  function PlacePoints(f: Features): int {
    if f.sameCity then Plus(NamePoints(f.name), TWENTY) else NamePoints(f.name)
  }

  function ScoreOf(f: Features): (score: int)
    ensures 0 <= score <= HUNDRED
  {
    Clamped(if f.nearness == Unremarkable then PlacePoints(f) else Plus(PlacePoints(f), NearnessPoints(f.nearness)))
  }

  lemma FirstPoints()
    ensures Plus(0, SIXTY_FIVE) == SIXTY_FIVE && Plus(0, FIFTY) == FIFTY && Plus(0, FORTY) == FORTY
  {
  }

  // ---------- what a score means ----------

  function By(n: Nearness, within300m: int, within1km: int, unremarkable: int, elsewhere: int): int {
    match n
    case Within300m => within300m
    case Within1km => within1km
    case Unremarkable => unremarkable
    case Elsewhere => elsewhere
  }

  /** Every score, sums rounded. */
  function ScoreTable(f: Features): int {
    match f
    case Features(SameName, true, near) => By(near, 144115188075855872, 136909428672063088, 122497909864477504, 93674872249306336)
    case Features(SameName, false, near) => By(near, 115292150460684704, 108086391056891904, 93674872249306320, 64851834634135144)
    case Features(PrefixName, true, near) => By(near, 122497909864477488, 115292150460684688, 100880631653099104, 72057594037927928)
    case Features(PrefixName, false, near) => By(near, 93674872249306320, 86469112845513520, 72057594037927936, 43234556422756760)
    case Features(SharedTokens, true, near) => By(near, 108086391056891920, 100880631653099120, 86469112845513536, 57646075230342360)
    case Features(SharedTokens, false, near) => By(near, 79263353441720736, 72057594037927936, 57646075230342352, 28823037615171176)
    case Features(OtherName, true, near) => By(near, 50440315826549552, 43234556422756768, 28823037615171176, 0)
    case Features(OtherName, false, near) => By(near, 21617278211378380, 14411518807585588, 0, 0)
  }

  lemma SameNameScores(city: bool, near: Nearness)
    ensures var f := Features(SameName, city, near); ScoreOf(f) == ScoreTable(f)
  {
    if city {
      assert Plus(NamePoints(SameName), TWENTY) == 122497909864477504;
    }
  }

  lemma PrefixNameScores(city: bool, near: Nearness)
    ensures var f := Features(PrefixName, city, near); ScoreOf(f) == ScoreTable(f)
  {
    if city {
      assert Plus(NamePoints(PrefixName), TWENTY) == 100880631653099104;
    }
  }

  lemma SharedTokensScores(city: bool, near: Nearness)
    ensures var f := Features(SharedTokens, city, near); ScoreOf(f) == ScoreTable(f)
  {
    if city {
      assert Plus(NamePoints(SharedTokens), TWENTY) == 86469112845513536;
    }
  }

  lemma OtherNameScores(city: bool, near: Nearness)
    ensures var f := Features(OtherName, city, near); ScoreOf(f) == ScoreTable(f)
  {
    if city {
      assert Plus(NamePoints(OtherName), TWENTY) == 28823037615171176;
    }
  }

  lemma ScoreOfTable(f: Features)
    ensures ScoreOf(f) == ScoreTable(f)
  {
    match f.name
    case SameName => SameNameScores(f.sameCity, f.nearness);
    case PrefixName => PrefixNameScores(f.sameCity, f.nearness);
    case SharedTokens => SharedTokensScores(f.sameCity, f.nearness);
    case OtherName => OtherNameScores(f.sameCity, f.nearness);
  }

  /** A candidate reaches high confidence exactly with the same name, supported by the city
      or the closest distance, or with a prefix name supported by both. Shared tokens never
      suffice, nor does any name twenty kilometres away. */
  lemma HighConfidenceIff(f: Features)
    ensures ScoreOf(f) >= HIGH
            <==> (f.name == SameName && ((f.sameCity && f.nearness != Elsewhere) || f.nearness == Within300m))
                 || (f.name == PrefixName && f.sameCity && f.nearness == Within300m)
  {
    ScoreOfTable(f);
  }

  lemma MediumConfidenceIff(f: Features)
    ensures ScoreOf(f) >= MEDIUM
            <==> match f.name
                 case SameName => f.sameCity || f.nearness != Elsewhere
                 case PrefixName => f.nearness.Within300m? || f.nearness.Within1km? || (f.sameCity && f.nearness != Elsewhere)
                 case SharedTokens => f.nearness.Within300m? || (f.sameCity && f.nearness != Elsewhere)
                 case OtherName => false
  {
    ScoreOfTable(f);
  }

  // ---------- the words of a name ----------

  /** `w` stands in `s` from `i` on, between blanks or the ends. */
  predicate WordAt(s: string, w: string, i: nat) {
    && i + |w| <= |s| && s[i..i + |w|] == w
    && (i == 0 || s[i - 1] == ' ') && (i + |w| == |s| || s[i + |w|] == ' ')
  }

  predicate IsWord(s: string, w: string) {
    w != "" && ' ' !in w && exists i: nat :: i <= |s| && WordAt(s, w, i)
  }

  lemma OnlyWord(s: string, w: string)
    requires ' ' !in s
    ensures IsWord(s, w) <==> w == s != ""
  {
    if s != "" {
      assert WordAt(s, s, 0);
    }
    assert forall k :: 0 <= k < |s| ==> s[k] != ' ';
  }

  /** The words of a text are those before and those after a blank. */
  lemma WordsAtBlank(a: string, b: string, w: string)
    requires ' ' !in a
    ensures IsWord(a + " " + b, w) <==> IsWord(a, w) || IsWord(b, w)
  {
    var s, n := a + " " + b, |a|;
    OnlyWord(a, w);
    assert s[n] == ' ' && s[..n] == a && s[n + 1..] == b;
    if IsWord(a, w) {
      assert WordAt(s, w, 0);
    }
    if IsWord(b, w) {
      var i: nat :| i <= |b| && WordAt(b, w, i);
      assert s[n + 1 + i..n + 1 + i + |w|] == w;
      assert WordAt(s, w, n + 1 + i);
    }
    if IsWord(s, w) {
      WordInOnePart(a, b, w);
    }
  }

  lemma WordInOnePart(a: string, b: string, w: string)
    requires ' ' !in a && IsWord(a + " " + b, w)
    ensures IsWord(a, w) || IsWord(b, w)
  {
    var s, n := a + " " + b, |a|;
    var i: nat :| i <= |s| && WordAt(s, w, i);
    assert s[n] == ' ';
    forall m | i <= m < i + |w| ensures s[m] != ' ' {
      assert w[m - i] == s[m] && w[m - i] in w;
    }
    if i > n {
      assert b[i - n - 1..i - n - 1 + |w|] == s[i..i + |w|];
      assert WordAt(b, w, i - n - 1);
    } else {
      assert s[i..i + |w|] == a[i..i + |w|];
      assert WordAt(a, w, i);
    }
  }

  lemma {:induction false} TokensFrom(s: string, current: string, w: string)
    requires ' ' !in current
    ensures w in Tokens(s, current) <==> IsWord(current + s, w)
    decreases |s|
  {
    if s == "" {
      assert current + s == current;
      OnlyWord(current, w);
    } else if s[0] == ' ' {
      TokensFrom(s[1..], "", w);
      assert "" + s[1..] == s[1..];
      assert current + s == current + " " + s[1..];
      WordsAtBlank(current, s[1..], w);
      OnlyWord(current, w);
    } else {
      TokensFrom(s[1..], current + [s[0]], w);
      assert current + [s[0]] + s[1..] == current + s;
    }
  }

  /** The tokens of a name are its words. */
  lemma TokensAreWords(s: string, w: string)
    ensures w in Tokens(s, "") <==> IsWord(s, w)
  {
    TokensFrom(s, "", w);
    assert "" + s == s;
  }

  /** A score is so many hundredths, up to the rounding of its sums. */
  predicate IsAbout(score: int, hundredths: int) {
    -3200 < 100 * score - hundredths * 0x200_0000_0000_0000 < 3200
  }

  /** The points as the source writes them, in hundredths. */
  function Hundredths(f: Features): int {
    var name := match f.name case SameName => 65 case PrefixName => 50 case SharedTokens => 40 case OtherName => 0;
    var near := match f.nearness case Within300m => 15 case Within1km => 10 case Unremarkable => 0 case Elsewhere => -20;
    name + (if f.sameCity then 20 else 0) + near
  }

  /** Rounding decides against exactly one combination whose points add up to the high
      threshold: 0.50 + 0.20 + 0.10 is just below 0.80. */
  lemma RoundingMissesHighIff(f: Features)
    ensures (ScoreOf(f) >= HIGH <==> Hundredths(f) >= 80) <==> f != Features(PrefixName, true, Within1km)
  {
    ScoreOfTable(f);
  }

  /** Every score is the sum of its points, kept between nothing and one. */
  lemma ScoreIsAboutPoints(f: Features)
    ensures var points := Hundredths(f);
            IsAbout(ScoreOf(f), if points < 0 then 0 else if points > 100 then 100 else points)
  {
    ScoreOfTable(f);
  }

  lemma RoundedUpALittle(x: int)
    ensures Rounded(x) <= x + 32
  {
  }

  lemma CoarseBelowOne(x: int)
    requires 0x100_0000_0000_0000 <= x < 0x200_0000_0000_0000
    ensures Rounded(x) % 16 == 0
  {
    var q := x / 16;
    assert Rounded(x) == 16 * q || Rounded(x) == 16 * (q + 1);
  }

  lemma CoarseAboveOne(x: int)
    requires 0x200_0000_0000_0000 <= x
    ensures Rounded(x) % 16 == 0
  {
    var q := x / 32;
    assert Rounded(x) == 16 * (2 * q) || Rounded(x) == 16 * (2 * q + 2);
  }

  lemma LargeSumsAreCoarse(x: int)
    requires Rounded(x) >= MEDIUM
    ensures Rounded(x) % 16 == 0
  {
    RoundedUpALittle(x);
    if x < 0x200_0000_0000_0000 {
      CoarseBelowOne(x);
    } else {
      CoarseAboveOne(x);
    }
  }

  lemma MediumScoresAreCoarse(f: Features)
    requires ScoreOf(f) >= MEDIUM
    ensures ScoreOf(f) % 16 == 0
  {
    if f.nearness == Unremarkable {
      if f.sameCity {
        LargeSumsAreCoarse(NamePoints(f.name) + TWENTY);
      }
    } else {
      LargeSumsAreCoarse(PlacePoints(f) + NearnessPoints(f.nearness));
    }
  }

  /** Near each other, doubles subtract without rounding. */
  lemma ExactDifference(a: int, b: int)
    requires MEDIUM <= b <= a <= HUNDRED && a % 16 == 0 && b % 16 == 0
    ensures Rounded(a - b) == a - b
  {
    var k := a / 16 - b / 16;
    CoarseIsExact(k);
  }

  lemma NoRest(x: int, quotient: int, ulp: int)
    requires ulp > 0
    ensures NearestEven(x, quotient, 0, ulp) == x
  {
  }

  lemma MultiplesOf16(k: nat)
    ensures (16 * k) % 2 == 0 && (16 * k) % 4 == 0 && (16 * k) % 8 == 0
  {
    assert 16 * k == 2 * (8 * k) && 16 * k == 4 * (4 * k) && 16 * k == 8 * (2 * k);
  }

  lemma CoarseIsExact(k: nat)
    requires 16 * k < 0x100_0000_0000_0000
    ensures Rounded(16 * k) == 16 * k
  {
    var x := 16 * k;
    MultiplesOf16(k);
    NoRest(x, x / 2, 2);
    NoRest(x, x / 4, 4);
    NoRest(x, x / 8, 8);
  }

  predicate RoundingDecides(f: Features, g: Features) {
    || (Hundredths(f) == 85 && g == Features(PrefixName, true, Within1km))
    || (f == Features(SameName, true, Unremarkable) && g == Features(SameName, false, Within300m))
    || (f == Features(SameName, false, Within300m) && g == Features(SameName, false, Within1km))
  }

  /** Two scores whose points differ by exactly the margin are within it or not according
      to how their sums were rounded; these are all the pairs in which rounding decides. */
  lemma RoundingMissesMarginIff(f: Features, g: Features)
    requires HIGH <= ScoreOf(f) && MEDIUM <= ScoreOf(g) <= ScoreOf(f)
    ensures (ScoreOf(f) - ScoreOf(g) <= MARGIN <==> Hundredths(f) - Hundredths(g) <= 5)
            <==> !RoundingDecides(f, g)
  {
    HighConfidenceIff(f);
    ScoreOfTable(f);
    ScoreOfTable(g);
    if f.name == SameName {
      RoundingWithSameName(f, g);
    } else {
      RoundingWithPrefixName(f, g);
    }
  }

  lemma RoundingWithSameName(f: Features, g: Features)
    requires f.name == SameName && HIGH <= ScoreTable(f) && MEDIUM <= ScoreTable(g) <= ScoreTable(f)
    ensures (ScoreTable(f) - ScoreTable(g) <= MARGIN <==> Hundredths(f) - Hundredths(g) <= 5) <==> !RoundingDecides(f, g)
  {
  }

  lemma RoundingWithPrefixName(f: Features, g: Features)
    requires f == Features(PrefixName, true, Within300m) && MEDIUM <= ScoreTable(g) <= ScoreTable(f)
    ensures (ScoreTable(f) - ScoreTable(g) <= MARGIN <==> Hundredths(f) - Hundredths(g) <= 5) <==> !RoundingDecides(f, g)
  {
  }
}
