/**
 * The sentence shown under the current temperature: a temperature-band
 * phrase followed by a condition phrase (components/Main.tsx, generateDescription).
 */
module Description {
  import opened Optional
  import opened JsString

  /** The five temperature bands, coldest first. */
  datatype Band = VeryCold | Cool | Mild | Warm | ExtremelyHot

  /** The five condition outlooks, in the priority order they are tried. */
  datatype Outlook = RainExpected | Cloudy | ClearSkies | SnowExpected | Uneventful

  /** Inclusive upper bounds (degrees Celsius) of every band but the hottest, in order. */
  const Limits: seq<real> := [5.0, 15.0, 25.0, 35.0]

  /** Bands in the order of `Limits`: band `i` ends at `Limits[i]`, the last one is unbounded. */
  const Bands: seq<Band> := [VeryCold, Cool, Mild, Warm, ExtremelyHot]

  function BandPhrase(b: Band): string {
    match b
    case VeryCold => "Very cold. "
    case Cool => "Cool weather. "
    case Mild => "Mild and pleasant. "
    case Warm => "Warm and sunny. "
    case ExtremelyHot => "Extremely hot. "
  }

  function OutlookPhrase(o: Outlook): string {
    match o
    case RainExpected => "Rain is expected, carry an umbrella!"
    case Cloudy => "Mostly cloudy skies today."
    case ClearSkies => "Clear skies with plenty of sunshine."
    case SnowExpected => "Snowfall is expected. Stay warm!"
    case Uneventful => "No major weather events expected."
  }

  /** Index of the first limit at or above `temp`, or `|limits|` when every limit is below it. */
  function FirstLimitAtLeast(limits: seq<real>, temp: real): (i: nat)
    ensures i <= |limits|
    ensures forall k :: 0 <= k < i ==> limits[k] < temp
    ensures i < |limits| ==> temp <= limits[i]
  {
    if limits == [] || temp <= limits[0] then 0
    else 1 + FirstLimitAtLeast(limits[1..], temp)
  }

  /** The band of `temp` read off the table of inclusive upper bounds. */
  function BandOf(temp: real): Band {
    Bands[FirstLimitAtLeast(Limits, temp)]
  }

  /**
   * The sub-strings that select each outlook, highest priority first; a
   * condition text gets the outlook of the first entry with a pattern in it.
   */
  const Rules: seq<(seq<string>, Outlook)> := [
    (["Rain"], RainExpected),
    (["Cloud"], Cloudy),
    (["Sunny", "Clear"], ClearSkies),
    (["Snow"], SnowExpected)
  ]

  ghost predicate AnyOccurs(condition: string, patterns: seq<string>) {
    exists k :: 0 <= k < |patterns| && Occurs(condition, patterns[k])
  }

  /** The outlook of the first rule with a pattern occurring in `condition`, or `Uneventful`. */
  ghost function FirstMatch(rules: seq<(seq<string>, Outlook)>, condition: string): Outlook {
    if rules == [] then Uneventful
    else if AnyOccurs(condition, rules[0].0) then rules[0].1
    else FirstMatch(rules[1..], condition)
  }

  /** The outlook of a condition text under the priority table. */
  ghost function OutlookOf(condition: string): Outlook {
    FirstMatch(Rules, condition)
  }

  /** The temperature part of generateDescription: a cascade of inclusive upper bounds. */
  function TemperaturePart(temp: real): (r: string)
    ensures r == BandPhrase(BandOf(temp))
  {
    BandCascade(temp);
    if temp <= 5.0 then "Very cold. "
    else if temp <= 15.0 then "Cool weather. "
    else if temp <= 25.0 then "Mild and pleasant. "
    else if temp <= 35.0 then "Warm and sunny. "
    else "Extremely hot. "
  }

  /** The condition part of generateDescription: a cascade of case-sensitive `includes` tests. */
  function ConditionPart(condition: string): (r: string)
    ensures r == OutlookPhrase(OutlookOf(condition))
  {
    ConditionPriority(condition);
    if Includes(condition, "Rain") then "Rain is expected, carry an umbrella!"
    else if Includes(condition, "Cloud") then "Mostly cloudy skies today."
    else if Includes(condition, "Sunny") || Includes(condition, "Clear") then "Clear skies with plenty of sunshine."
    else if Includes(condition, "Snow") then "Snowfall is expected. Stay warm!"
    else "No major weather events expected."
  }

  /**
   * generateDescription: the temperature part followed by the condition
   * part. The result is always one band phrase followed by one outlook
   * phrase, each chosen by its own table.
   */
  function GenerateDescription(temp: real, condition: string): (r: string)
    ensures r == BandPhrase(BandOf(temp)) + OutlookPhrase(OutlookOf(condition))
  {
    TemperaturePart(temp) + ConditionPart(condition)
  }

  /** The band read off the limits table is the band of the first inclusive upper bound 5, 15, 25, 35 not below the temperature. */
  lemma BandCascade(temp: real)
    ensures BandOf(temp) ==
      if temp <= 5.0 then VeryCold
      else if temp <= 15.0 then Cool
      else if temp <= 25.0 then Mild
      else if temp <= 35.0 then Warm
      else ExtremelyHot
  {
    var i := FirstLimitAtLeast(Limits, temp);
    assert Limits[0] == 5.0 && Limits[1] == 15.0 && Limits[2] == 25.0 && Limits[3] == 35.0;
    if temp <= 5.0 {
      assert i == 0;
    } else if temp <= 15.0 {
      assert i == 1;
    } else if temp <= 25.0 {
      assert i == 2;
    } else if temp <= 35.0 {
      assert i == 3;
    } else {
      assert i == 4;
    }
  }

  lemma OnePattern(condition: string, p: string)
    ensures AnyOccurs(condition, [p]) <==> Occurs(condition, p)
  {
    assert [p][0] == p;
  }

  lemma TwoPatterns(condition: string, p: string, q: string)
    ensures AnyOccurs(condition, [p, q]) <==> Occurs(condition, p) || Occurs(condition, q)
  {
    assert [p, q][0] == p && [p, q][1] == q;
  }

  /**
   * Condition priority: Rain beats every other pattern, Cloud beats Sunny,
   * Clear and Snow, Sunny or Clear beats Snow, and the default outlook is
   * used exactly when none of the five case-sensitive patterns occurs.
   */
  lemma ConditionPriority(condition: string)
    ensures OutlookOf(condition) ==
      if Occurs(condition, "Rain") then RainExpected
      else if Occurs(condition, "Cloud") then Cloudy
      else if Occurs(condition, "Sunny") || Occurs(condition, "Clear") then ClearSkies
      else if Occurs(condition, "Snow") then SnowExpected
      else Uneventful
  {
    var rules := Rules;
    assert OutlookOf(condition) == FirstMatch(rules, condition);
    OnePattern(condition, "Rain");
    OnePattern(condition, "Cloud");
    TwoPatterns(condition, "Sunny", "Clear");
    OnePattern(condition, "Snow");
    assert rules[0] == (["Rain"], RainExpected);
    assert rules[1..][0] == (["Cloud"], Cloudy);
    assert rules[1..][1..][0] == (["Sunny", "Clear"], ClearSkies);
    assert rules[1..][1..][1..][0] == (["Snow"], SnowExpected);
    assert rules[1..][1..][1..][1..] == [];
    assert FirstMatch(rules[1..][1..][1..], condition) ==
      if Occurs(condition, "Snow") then SnowExpected else Uneventful;
    assert FirstMatch(rules[1..][1..], condition) ==
      if Occurs(condition, "Sunny") || Occurs(condition, "Clear") then ClearSkies
      else FirstMatch(rules[1..][1..][1..], condition);
    assert FirstMatch(rules[1..], condition) ==
      if Occurs(condition, "Cloud") then Cloudy else FirstMatch(rules[1..][1..], condition);
  }

  /** Position of a band in the coldest-first order. */
  function Rank(b: Band): nat {
    match b
    case VeryCold => 0
    case Cool => 1
    case Mild => 2
    case Warm => 3
    case ExtremelyHot => 4
  }

  /** Inclusive upper bounds, tried in order: boundary values fall into the colder band. */
  lemma BandThresholds(temp: real)
    ensures BandOf(temp) == VeryCold <==> temp <= 5.0
    ensures BandOf(temp) == Cool <==> 5.0 < temp <= 15.0
    ensures BandOf(temp) == Mild <==> 15.0 < temp <= 25.0
    ensures BandOf(temp) == Warm <==> 25.0 < temp <= 35.0
    ensures BandOf(temp) == ExtremelyHot <==> 35.0 < temp
  {
    BandCascade(temp);
  }

  /** A warmer temperature never gets a colder band. */
  lemma BandMonotone(t1: real, t2: real)
    requires t1 <= t2
    ensures Rank(BandOf(t1)) <= Rank(BandOf(t2))
  {
  }

  /**
   * Matching is case-sensitive: a condition text without a capital R, C or S
   * gets the default phrase. "Patchy rain possible" is one: at 3 degrees it
   * reads "Very cold. No major weather events expected."
   */
  lemma NoCapitalsNoEvents(temp: real, condition: string)
    requires 'R' !in condition && 'C' !in condition && 'S' !in condition
    ensures GenerateDescription(temp, condition) == BandPhrase(BandOf(temp)) + "No major weather events expected."
  {
    NoCapitalsUneventful(condition);
  }

  /** The outlook of a condition text that holds none of the five patterns' first letters. */
  lemma NoCapitalsUneventful(condition: string)
    requires 'R' !in condition && 'C' !in condition && 'S' !in condition
    ensures OutlookOf(condition) == Uneventful
  {
    AbsentFirstChar(condition, "Rain");
    AbsentFirstChar(condition, "Cloud");
    AbsentFirstChar(condition, "Sunny");
    AbsentFirstChar(condition, "Clear");
    AbsentFirstChar(condition, "Snow");
    ConditionPriority(condition);
  }

  /** "Patchy rain possible" holds no capital R, C or S, so it selects the default outlook. */
  lemma PatchyOutlook(condition: string)
    requires |condition| == 20
    requires forall i :: 0 <= i < 20 ==> condition[i] == "Patchy rain possible"[i]
    ensures OutlookOf(condition) == Uneventful
  {
    forall i | 0 <= i < |condition|
      ensures condition[i] != 'R' && condition[i] != 'C' && condition[i] != 'S'
    {
      assert condition[i] == "Patchy rain possible"[i];
    }
    NoCapitalsUneventful(condition);
  }

  /** "Sunny" selects the clear-skies outlook. */
  lemma SunnyOutlook(condition: string)
    requires |condition| == 5
    requires forall i :: 0 <= i < 5 ==> condition[i] == "Sunny"[i]
    ensures OutlookOf(condition) == ClearSkies
  {
    AbsentFirstChar(condition, "Rain");
    AbsentFirstChar(condition, "Cloud");
    assert condition == "Sunny";
    assert OccursAt(condition, "Sunny", 0);
    ConditionPriority(condition);
  }

  lemma ColdUneventfulSentence()
    ensures BandPhrase(VeryCold) + OutlookPhrase(Uneventful) == "Very cold. No major weather events expected."
  {
  }

  lemma HotClearSentence()
    ensures BandPhrase(ExtremelyHot) + OutlookPhrase(ClearSkies) == "Extremely hot. Clear skies with plenty of sunshine."
  {
  }

  /**
   * 3 degrees and "Patchy rain possible": lower-case "rain" does not match.
   * The examples spell the condition text out character by character, which
   * says the same as equality with the literal.
   */
  lemma PatchyRainExample(temp: real, condition: string)
    requires temp == 3.0 && |condition| == 20
    requires forall i :: 0 <= i < 20 ==> condition[i] == "Patchy rain possible"[i]
    ensures GenerateDescription(temp, condition) == "Very cold. No major weather events expected."
  {
    PatchyOutlook(condition);
    BandThresholds(temp);
    assert GenerateDescription(temp, condition) == BandPhrase(VeryCold) + OutlookPhrase(Uneventful);
    ColdUneventfulSentence();
  }

  /** 40 degrees and "Sunny". */
  lemma HotSunnyExample(temp: real, condition: string)
    requires temp == 40.0 && |condition| == 5
    requires forall i :: 0 <= i < 5 ==> condition[i] == "Sunny"[i]
    ensures GenerateDescription(temp, condition) == "Extremely hot. Clear skies with plenty of sunshine."
  {
    SunnyOutlook(condition);
    BandThresholds(temp);
    assert GenerateDescription(temp, condition) == BandPhrase(ExtremelyHot) + OutlookPhrase(ClearSkies);
    HotClearSentence();
  }

  /** The band whose phrase starts `d`, if any. */
  function PhraseBand(d: string): (r: Option<Band>)
    ensures r.Some? ==> BandPhrase(r.value) <= d
  {
    if BandPhrase(VeryCold) <= d then Some(VeryCold)
    else if BandPhrase(Cool) <= d then Some(Cool)
    else if BandPhrase(Mild) <= d then Some(Mild)
    else if BandPhrase(Warm) <= d then Some(Warm)
    else if BandPhrase(ExtremelyHot) <= d then Some(ExtremelyHot)
    else None
  }

  /** The outlook whose phrase is exactly `rest`, if any. */
  function PhraseOutlook(rest: string): (r: Option<Outlook>)
    ensures r.Some? ==> rest == OutlookPhrase(r.value)
  {
    if rest == OutlookPhrase(RainExpected) then Some(RainExpected)
    else if rest == OutlookPhrase(Cloudy) then Some(Cloudy)
    else if rest == OutlookPhrase(ClearSkies) then Some(ClearSkies)
    else if rest == OutlookPhrase(SnowExpected) then Some(SnowExpected)
    else if rest == OutlookPhrase(Uneventful) then Some(Uneventful)
    else None
  }

  /** Reads a description back into its band and outlook; `None` for any other text. */
  function ParseDescription(d: string): (r: Option<(Band, Outlook)>)
    ensures r.Some? ==> d == BandPhrase(r.value.0) + OutlookPhrase(r.value.1)
  {
    match PhraseBand(d)
    case None => None
    case Some(b) =>
      match PhraseOutlook(d[|BandPhrase(b)|..])
      case None => None
      case Some(o) =>
        assert d == d[..|BandPhrase(b)|] + d[|BandPhrase(b)|..];
        Some((b, o))
  }

  lemma ParseBandPhrase(b: Band, rest: string)
    ensures PhraseBand(BandPhrase(b) + rest) == Some(b)
  {
    var d := BandPhrase(b) + rest;
    assert d[..|BandPhrase(b)|] == BandPhrase(b);
    assert d[0] == BandPhrase(b)[0];
  }

  lemma ParseOutlookPhrase(o: Outlook)
    ensures PhraseOutlook(OutlookPhrase(o)) == Some(o)
  {
    match o
    case RainExpected =>
    case Cloudy =>
      assert OutlookPhrase(o)[0] != OutlookPhrase(RainExpected)[0];
    case ClearSkies =>
      assert OutlookPhrase(o)[0] != OutlookPhrase(RainExpected)[0];
      assert OutlookPhrase(o)[1] != OutlookPhrase(Cloudy)[1];
    case SnowExpected =>
      assert OutlookPhrase(o)[0] != OutlookPhrase(RainExpected)[0];
      assert OutlookPhrase(o)[0] != OutlookPhrase(Cloudy)[0];
      assert OutlookPhrase(o)[0] != OutlookPhrase(ClearSkies)[0];
    case Uneventful =>
      assert OutlookPhrase(o)[0] != OutlookPhrase(RainExpected)[0];
      assert OutlookPhrase(o)[0] != OutlookPhrase(Cloudy)[0];
      assert OutlookPhrase(o)[0] != OutlookPhrase(ClearSkies)[0];
      assert OutlookPhrase(o)[0] != OutlookPhrase(SnowExpected)[0];
  }

  /** A band phrase followed by an outlook phrase is read back as that band and outlook. */
  lemma ParseComposed(b: Band, o: Outlook)
    ensures ParseDescription(BandPhrase(b) + OutlookPhrase(o)) == Some((b, o))
  {
    var d := BandPhrase(b) + OutlookPhrase(o);
    ParseBandPhrase(b, OutlookPhrase(o));
    assert d[|BandPhrase(b)|..] == OutlookPhrase(o);
    ParseOutlookPhrase(o);
  }

  /** Band and outlook phrases compose without ambiguity. */
  lemma ComposedInjective(b1: Band, o1: Outlook, b2: Band, o2: Outlook)
    ensures BandPhrase(b1) + OutlookPhrase(o1) == BandPhrase(b2) + OutlookPhrase(o2) <==> b1 == b2 && o1 == o2
  {
    ParseComposed(b1, o1);
    ParseComposed(b2, o2);
  }

  /** Every description can be read back into the band of its temperature and the outlook of its condition. */
  lemma DescriptionRoundTrip(temp: real, condition: string)
    ensures ParseDescription(GenerateDescription(temp, condition)) == Some((BandOf(temp), OutlookOf(condition)))
  {
    ParseComposed(BandOf(temp), OutlookOf(condition));
  }

  /**
   * The temperature shapes only the band phrase and the condition only the
   * outlook phrase: two descriptions agree exactly when both choices agree.
   */
  lemma DescriptionDeterminedByChoices(t1: real, c1: string, t2: real, c2: string)
    ensures GenerateDescription(t1, c1) == GenerateDescription(t2, c2)
      <==> BandOf(t1) == BandOf(t2) && OutlookOf(c1) == OutlookOf(c2)
  {
    DescriptionRoundTrip(t1, c1);
    DescriptionRoundTrip(t2, c2);
  }
}
