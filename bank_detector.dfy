/** Statement-text classifier (lib/bank-detector.js): an ordered institution table,
    first match wins, and a country is chosen from the matched institution's list. */
module BankDetector {
  import opened Common
  import opened JsText
  import opened RegexLite

  datatype Institution = Institution(name: string, patterns: seq<Regex>, countries: seq<string>)

  /** What `detectBank` returns on a match. */
  datatype Detection = Detection(bank: string, country: string, confidence: real)

  const CONFIDENCE: real := 0.95

  /** `BANK_PATTERNS`, in the order `Object.entries` yields it. */
  const BankPatterns: seq<Institution> := [
    Institution("HSBC",
      [Regex([[Text("HSBC"), Spaces, Text("Bank")],
              [Text("HSBC"), Spaces, Text("UK")],
              [Text("HSBC"), Spaces, Text("India")]], true),
       Regex([[Text("hsbc.co.uk")]], true)],
      ["UK", "India"]),
    Institution("Revolut",
      [Regex([[Text("Revolut")]], true), Regex([[Text("revolut.com")]], true)],
      ["UK"]),
    Institution("AMEX",
      [Regex([[Text("American"), Spaces, Text("Express")], [Text("AMEX")], [Text("amex.com")]], true)],
      ["UK"]),
    Institution("ICICI",
      [Regex([[Text("ICICI"), Spaces, Text("Bank")], [Text("icicibank.com")]], true)],
      ["India"])
  ]

  /** `/£|GBP|UK|United Kingdom|London/i` */
  const UkSignals: Regex :=
    Regex([[Text("£")], [Text("GBP")], [Text("UK")], [Text("United Kingdom")], [Text("London")]], true)

  /** `/₹|INR|India|Mumbai|Bangalore/i` */
  const IndiaSignals: Regex :=
    Regex([[Text("₹")], [Text("INR")], [Text("India")], [Text("Mumbai")], [Text("Bangalore")]], true)

  /** Every institution lists at least one country. */
  predicate WellFormed(table: seq<Institution>) {
    forall k :: 0 <= k < |table| ==> table[k].countries != []
  }

  /** Does some pattern of the list match the text? */
  predicate AnyPattern(patterns: seq<Regex>, text: string) {
    exists p :: p in patterns && Test(p, text)
  }

  /** Institution `k` is the first one of the table with a matching pattern. */
  predicate Wins(table: seq<Institution>, text: string, k: int) {
    0 <= k < |table| && AnyPattern(table[k].patterns, text)
    && forall j :: 0 <= j < k ==> !AnyPattern(table[j].patterns, text)
  }

  /** `inferCountry`: UK signals are looked for before India signals; with neither,
      the first listed country. */
  function InferCountry(text: string, possible: seq<string>): (r: string)
    requires possible != []
    ensures |possible| == 1 ==> r == possible[0]
    ensures |possible| > 1 && Test(UkSignals, text) ==> r == "UK"
    ensures |possible| > 1 && !Test(UkSignals, text) && Test(IndiaSignals, text) ==> r == "India"
    ensures |possible| > 1 && !Test(UkSignals, text) && !Test(IndiaSignals, text) ==> r == possible[0]
  {
    if |possible| == 1 then possible[0]
    else if Test(UkSignals, text) then "UK"
    else if Test(IndiaSignals, text) then "India"
    else possible[0]
  }

  /** The country line of `detectBank`: a single-country institution never looks at the text. */
  function ChooseCountry(inst: Institution, text: string): string
    requires inst.countries != []
  {
    if |inst.countries| == 1 then inst.countries[0] else InferCountry(text, inst.countries)
  }

  /** The first pattern of the list that matches, tried in list order. */
  function FirstPattern(patterns: seq<Regex>, text: string): (r: bool)
    ensures r <==> AnyPattern(patterns, text)
  {
    if patterns == [] then false
    else if Test(patterns[0], text) then true
    else
      var rest := FirstPattern(patterns[1..], text);
      assert forall p :: p in patterns[1..] ==> p in patterns;
      assert forall p :: p in patterns && p != patterns[0] ==> p in patterns[1..];
      rest
  }

  /** The nested loops of `detectBank` over a table: the result is `null` exactly when
      no pattern of any institution matches, and otherwise is built from the first
      institution that matches. */
  function DetectIn(table: seq<Institution>, text: string): (r: Option<Detection>)
    requires WellFormed(table)
    ensures r.None? <==> forall k :: 0 <= k < |table| ==> !AnyPattern(table[k].patterns, text)
    ensures forall k :: Wins(table, text, k) ==>
      r == Some(Detection(table[k].name, ChooseCountry(table[k], text), CONFIDENCE))
  {
    if table == [] then None
    else if FirstPattern(table[0].patterns, text) then
      Some(Detection(table[0].name, ChooseCountry(table[0], text), CONFIDENCE))
    else
      var r := DetectIn(table[1..], text);
      WinsInTail(table, text);
      r
  }

  /** When the head institution does not match, the winners of the table are those of its tail. */
  lemma WinsInTail(table: seq<Institution>, text: string)
    requires table != [] && !AnyPattern(table[0].patterns, text)
    ensures (forall k :: 0 <= k < |table| ==> !AnyPattern(table[k].patterns, text))
        <==> (forall k :: 0 <= k < |table| - 1 ==> !AnyPattern(table[1..][k].patterns, text))
    ensures forall k :: Wins(table, text, k) ==> k >= 1 && Wins(table[1..], text, k - 1)
  {
    assert forall k :: 1 <= k < |table| ==> table[1..][k - 1] == table[k];
  }

  /** `detectBank(statementText)`. */
  function DetectBank(text: string): Option<Detection> {
    DetectIn(BankPatterns, text)
  }

  /** On any text there is at most one winner, and on a match it is the one reported:
      the bank is a key of the table, in table order, and the confidence is 0.95. */
  lemma {:induction false} DetectBankMatch(text: string)
    ensures DetectBank(text).Some? <==> exists k :: Wins(BankPatterns, text, k)
    ensures forall k :: Wins(BankPatterns, text, k) ==>
      DetectBank(text) == Some(Detection(BankPatterns[k].name, ChooseCountry(BankPatterns[k], text), 0.95))
  {
    var r := DetectBank(text);
    if r.Some? {
      var k :| 0 <= k < |BankPatterns| && AnyPattern(BankPatterns[k].patterns, text);
      var w := FirstWinner(BankPatterns, text, k);
      assert Wins(BankPatterns, text, w);
    }
  }

  /** Some institution matches at index `k`, so the first match is at or before `k`. */
  lemma {:induction false} FirstWinner(table: seq<Institution>, text: string, k: int) returns (w: int)
    requires 0 <= k < |table| && AnyPattern(table[k].patterns, text)
    ensures 0 <= w <= k && Wins(table, text, w)
    decreases k
  {
    if forall j :: 0 <= j < k ==> !AnyPattern(table[j].patterns, text) {
      w := k;
    } else {
      var j :| 0 <= j < k && AnyPattern(table[j].patterns, text);
      w := FirstWinner(table, text, j);
    }
  }

  /** The reported country is always one of the matched institution's countries; the
      multi-country HSBC entry lists exactly the two countries `inferCountry` can name. */
  lemma DetectedCountryListed(text: string)
    ensures forall k :: Wins(BankPatterns, text, k) ==>
      DetectBank(text).value.country in BankPatterns[k].countries
  {
    forall k | Wins(BankPatterns, text, k)
      ensures DetectBank(text).value.country in BankPatterns[k].countries
    {
      var inst := BankPatterns[k];
      if |inst.countries| > 1 {
        assert k == 0;
        assert ChooseCountry(inst, text) in {"UK", "India", inst.countries[0]};
      }
    }
  }

  /** Revolut, AMEX and ICICI list one country each, so they report it whatever the text says. */
  lemma SingleCountryIgnoresText(text: string, k: int)
    requires Wins(BankPatterns, text, k) && k >= 1
    ensures DetectBank(text).value.country == (if k == 3 then "India" else "UK")
  {
  }
}

/** The cases of tests/lib/bank-detector.test.js, proved about the model. */
module BankDetectorExamples {
  import opened Common
  import opened RegexLite
  import opened BankDetector

  const HsbcText := "HSBC Bank UK\nStatement for account ending 1234"

  lemma HsbcPatternMatches(text: string)
    requires text == HsbcText
    ensures Test(BankPatterns[0].patterns[0], text)
  {
    var alt := [Text("HSBC"), Spaces, Text("Bank")];
    assert TextAt("Bank", 3, text, 8, true);
    assert TextAt("Bank", 2, text, 7, true);
    assert TextAt("Bank", 1, text, 6, true);
    assert MatchAt(alt, 2, text, 5, true);
    assert MatchAt(alt, 1, text, 4, true);
    assert TextAt("HSBC", 3, text, 3, true);
    assert TextAt("HSBC", 2, text, 2, true);
    assert TextAt("HSBC", 1, text, 1, true);
    MatchGivesTest(BankPatterns[0].patterns[0], text, 0, 0);
  }

  lemma HsbcTextNamesUk(text: string)
    requires text == HsbcText
    ensures Test(UkSignals, text)
  {
    assert TextAt("UK", 1, text, 11, true);
    MatchGivesTest(UkSignals, text, 2, 10);
  }

  /** 'HSBC Bank UK…' is HSBC in the UK. */
  lemma HsbcUk(text: string)
    requires text == HsbcText
    ensures DetectBank(text) == Some(Detection("HSBC", "UK", 0.95))
  {
    HsbcPatternMatches(text);
    HsbcTextNamesUk(text);
    assert Wins(BankPatterns, text, 0);
    DetectBankMatch(text);
  }

  const IciciText := "ICICI Bank Limited\nAccount Statement"

  /** No pattern of HSBC, Revolut or AMEX can match a text without 'h', 'r' and 'x'. */
  lemma FirstThreeExcluded(text: string)
    requires 'h' !in text && 'H' !in text && 'r' !in text && 'R' !in text && 'x' !in text && 'X' !in text
    ensures forall k :: 0 <= k < 3 ==> !AnyPattern(BankPatterns[k].patterns, text)
  {
    AbsentLetter('H', 'h', text);
    AbsentLetter('h', 'h', text);
    AbsentLetter('R', 'r', text);
    AbsentLetter('r', 'r', text);
    AbsentLetter('X', 'x', text);
    AbsentLetter('x', 'x', text);
    ExcludedByFirst(BankPatterns[0].patterns[0], text);
    ExcludedByFirst(BankPatterns[0].patterns[1], text);
    ExcludedByFirst(BankPatterns[1].patterns[0], text);
    ExcludedByFirst(BankPatterns[1].patterns[1], text);
    assert !Occurs(BankPatterns[2].patterns[0].alternatives[0][0].s[3], text, true);
    assert Excluded(BankPatterns[2].patterns[0].alternatives[0], text, true);
    assert !Occurs(BankPatterns[2].patterns[0].alternatives[1][0].s[3], text, true);
    assert Excluded(BankPatterns[2].patterns[0].alternatives[1], text, true);
    assert !Occurs(BankPatterns[2].patterns[0].alternatives[2][0].s[3], text, true);
    assert Excluded(BankPatterns[2].patterns[0].alternatives[2], text, true);
    NoTestWhenExcluded(BankPatterns[2].patterns[0], text);
  }

  /** A pattern each of whose alternatives starts with a character the text lacks. */
  lemma ExcludedByFirst(re: Regex, text: string)
    requires forall b :: 0 <= b < |re.alternatives| ==>
      re.alternatives[b] != [] && re.alternatives[b][0].Text? && re.alternatives[b][0].s != []
      && !Occurs(re.alternatives[b][0].s[0], text, re.ignoreCase)
    ensures !Test(re, text)
  {
    forall b | 0 <= b < |re.alternatives|
      ensures Excluded(re.alternatives[b], text, re.ignoreCase)
    {
      assert !Occurs(re.alternatives[b][0].s[0], text, re.ignoreCase);
    }
    NoTestWhenExcluded(re, text);
  }

  lemma IciciPatternMatches(text: string)
    requires text == IciciText
    ensures Test(BankPatterns[3].patterns[0], text)
  {
    var alt := [Text("ICICI"), Spaces, Text("Bank")];
    assert TextAt("Bank", 3, text, 9, true);
    assert TextAt("Bank", 2, text, 8, true);
    assert TextAt("Bank", 1, text, 7, true);
    assert MatchAt(alt, 2, text, 6, true);
    assert MatchAt(alt, 1, text, 5, true);
    assert TextAt("ICICI", 4, text, 4, true);
    assert TextAt("ICICI", 3, text, 3, true);
    assert TextAt("ICICI", 2, text, 2, true);
    assert TextAt("ICICI", 1, text, 1, true);
    MatchGivesTest(BankPatterns[3].patterns[0], text, 0, 0);
  }

  /** 'ICICI Bank Limited…' is ICICI in India. */
  lemma IciciIndia(text: string)
    requires text == IciciText
    ensures DetectBank(text) == Some(Detection("ICICI", "India", 0.95))
  {
    IciciLetters(text);
    FirstThreeExcluded(text);
    IciciPatternMatches(text);
    IciciWins(text);
  }

  lemma IciciLetters(text: string)
    requires text == IciciText
    ensures 'h' !in text && 'H' !in text && 'r' !in text && 'R' !in text && 'x' !in text && 'X' !in text
  {
    forall p | 0 <= p < |text| ensures text[p] !in "hHrRxX" {}
  }

  /** When only the ICICI pattern matches, the result is ICICI in India. */
  lemma IciciWins(text: string)
    requires forall k :: 0 <= k < 3 ==> !AnyPattern(BankPatterns[k].patterns, text)
    requires Test(BankPatterns[3].patterns[0], text)
    ensures DetectBank(text) == Some(Detection("ICICI", "India", 0.95))
  {
    assert Wins(BankPatterns, text, 3);
    DetectBankMatch(text);
  }

  const RevolutText := "Revolut Statement\nTransaction History"

  lemma RevolutPatternMatches(text: string)
    requires text == RevolutText
    ensures Test(BankPatterns[1].patterns[0], text)
  {
    assert TextAt("Revolut", 6, text, 6, true);
    assert TextAt("Revolut", 5, text, 5, true);
    assert TextAt("Revolut", 4, text, 4, true);
    assert TextAt("Revolut", 3, text, 3, true);
    assert TextAt("Revolut", 2, text, 2, true);
    assert TextAt("Revolut", 1, text, 1, true);
    assert MatchAt([Text("Revolut")], 0, text, 0, true);
    MatchGivesTest(BankPatterns[1].patterns[0], text, 0, 0);
  }

  /** 'Revolut Statement…' is Revolut (in the UK, its only country). */
  lemma RevolutUk(text: string)
    requires text == RevolutText
    ensures DetectBank(text) == Some(Detection("Revolut", "UK", 0.95))
  {
    RevolutLetters(text);
    HsbcExcludedWithoutB(text);
    RevolutPatternMatches(text);
    RevolutWins(text);
  }

  lemma RevolutLetters(text: string)
    requires text == RevolutText
    ensures 'b' !in text && 'B' !in text
  {
    forall p | 0 <= p < |text| ensures text[p] !in "bB" {}
  }

  /** HSBC's patterns all need a 'b'. */
  lemma HsbcExcludedWithoutB(text: string)
    requires 'b' !in text && 'B' !in text
    ensures !AnyPattern(BankPatterns[0].patterns, text)
  {
    AbsentLetter('B', 'b', text);
    AbsentLetter('b', 'b', text);
    forall b | 0 <= b < 3
      ensures Excluded(BankPatterns[0].patterns[0].alternatives[b], text, true)
    {
      assert !Occurs(BankPatterns[0].patterns[0].alternatives[b][0].s[2], text, true);
    }
    NoTestWhenExcluded(BankPatterns[0].patterns[0], text);
    assert !Occurs(BankPatterns[0].patterns[1].alternatives[0][0].s[2], text, true);
    assert Excluded(BankPatterns[0].patterns[1].alternatives[0], text, true);
    NoTestWhenExcluded(BankPatterns[0].patterns[1], text);
  }

  lemma RevolutWins(text: string)
    requires !AnyPattern(BankPatterns[0].patterns, text)
    requires Test(BankPatterns[1].patterns[0], text)
    ensures DetectBank(text) == Some(Detection("Revolut", "UK", 0.95))
  {
    assert Wins(BankPatterns, text, 1);
    DetectBankMatch(text);
  }

  /** 'Unknown Bank Statement' matches no institution: the result is null, not an error. */
  lemma UnknownIsNull(text: string)
    requires text == "Unknown Bank Statement"
    ensures DetectBank(text) == None
  {
    forall p | 0 <= p < |text| ensures text[p] !in "hHrRxXiI" {}
    NoneWithoutHRXI(text);
  }

  /** A text with none of the letters h, r, x and i matches no institution. */
  lemma NoneWithoutHRXI(text: string)
    requires 'h' !in text && 'H' !in text && 'r' !in text && 'R' !in text && 'x' !in text && 'X' !in text
    requires 'i' !in text && 'I' !in text
    ensures DetectBank(text) == None
  {
    FirstThreeExcluded(text);
    AbsentLetter('I', 'i', text);
    AbsentLetter('i', 'i', text);
    ExcludedByFirst(BankPatterns[3].patterns[0], text);
    assert forall k :: 0 <= k < |BankPatterns| ==> !AnyPattern(BankPatterns[k].patterns, text);
  }
}
