/** The fragment of JavaScript regular expressions that the bank detector's patterns
    use, with the meaning `RegExp.prototype.test` gives it: a pattern is a list of
    alternatives, each a sequence of literal runs and `\s+` runs, and `test` asks
    whether some alternative matches at some position of the text.
    A group of alternatives such as `HSBC\s+(Bank|UK|India)` is written out as the
    three alternatives it stands for, which `test` cannot tell apart. */
module RegexLite {
  import opened JsText

  datatype Token =
    | Text(s: string)   // literal characters
    | Spaces            // `\s+`

  datatype Regex = Regex(alternatives: seq<seq<Token>>, ignoreCase: bool)

  /** Character comparison under the `i` flag. Without the `u` flag JavaScript never
      folds a non-ASCII character onto an ASCII one, and every letter in the patterns
      here is ASCII, so ASCII folding is exact for them. */
  predicate CharMatches(t: char, p: char, ignoreCase: bool) {
    if ignoreCase then Lower(t) == Lower(p) else t == p
  }

  /** Do the characters `s[j..]` occur in `text` at position `i`? */
  predicate TextAt(s: string, j: nat, text: string, i: nat, ignoreCase: bool)
    decreases |s| - j
  {
    j >= |s| || (i < |text| && CharMatches(text[i], s[j], ignoreCase) && TextAt(s, j + 1, text, i + 1, ignoreCase))
  }

  /** Do the tokens `toks[t..]` match a prefix of `text[i..]`? */
  predicate MatchAt(toks: seq<Token>, t: nat, text: string, i: nat, ignoreCase: bool)
    decreases |toks| - t, |text| - i
  {
    if t >= |toks| then true
    else match toks[t]
      case Text(s) =>
        TextAt(s, 0, text, i, ignoreCase) && MatchAt(toks, t + 1, text, i + |s|, ignoreCase)
      case Spaces =>
        i < |text| && IsSpace(text[i])
        && (MatchAt(toks, t + 1, text, i + 1, ignoreCase) || MatchAt(toks, t, text, i + 1, ignoreCase))
  }

  /** Does one of the alternatives `alts[a..]` match at position `i`? */
  predicate AnyAltAt(alts: seq<seq<Token>>, a: nat, text: string, i: nat, ignoreCase: bool)
    decreases |alts| - a
  {
    a < |alts| && (MatchAt(alts[a], 0, text, i, ignoreCase) || AnyAltAt(alts, a + 1, text, i, ignoreCase))
  }

  /** Is there a match starting at or after position `i`? */
  predicate SearchFrom(re: Regex, text: string, i: nat)
    decreases |text| - i
  {
    AnyAltAt(re.alternatives, 0, text, i, re.ignoreCase)
    || (i < |text| && SearchFrom(re, text, i + 1))
  }

  /** `re.test(text)`. */
  predicate Test(re: Regex, text: string) {
    SearchFrom(re, text, 0)
  }

  lemma {:induction false} AnyAltAtFrom(alts: seq<seq<Token>>, a: nat, b: nat, text: string, i: nat, ic: bool)
    requires a <= b < |alts| && MatchAt(alts[b], 0, text, i, ic)
    ensures AnyAltAt(alts, a, text, i, ic)
    decreases b - a
  {
    if a < b {
      AnyAltAtFrom(alts, a + 1, b, text, i, ic);
    }
  }

  lemma {:induction false} SearchFromEarlier(re: Regex, text: string, i: nat, j: nat)
    requires i <= j <= |text| && AnyAltAt(re.alternatives, 0, text, j, re.ignoreCase)
    ensures SearchFrom(re, text, i)
    decreases j - i
  {
    if i < j {
      SearchFromEarlier(re, text, i + 1, j);
    }
  }

  /** A match of one alternative at one position makes `test` succeed. */
  lemma MatchGivesTest(re: Regex, text: string, b: nat, i: nat)
    requires b < |re.alternatives| && i <= |text| && MatchAt(re.alternatives[b], 0, text, i, re.ignoreCase)
    ensures Test(re, text)
  {
    AnyAltAtFrom(re.alternatives, 0, b, text, i, re.ignoreCase);
    SearchFromEarlier(re, text, 0, i);
  }

  /** A character occurs in the text, up to case when the flag is set. */
  predicate Occurs(c: char, text: string, ignoreCase: bool) {
    exists p :: 0 <= p < |text| && CharMatches(text[p], c, ignoreCase)
  }

  lemma {:induction false} TextAtNeeds(s: string, j: nat, text: string, i: nat, ic: bool, k: nat)
    requires TextAt(s, j, text, i, ic) && j <= k < |s|
    ensures Occurs(s[k], text, ic)
    decreases |s| - j
  {
    if j == k {
      assert CharMatches(text[i], s[k], ic);
    } else {
      TextAtNeeds(s, j + 1, text, i + 1, ic, k);
    }
  }

  /** Every literal character of a matching token sequence occurs in the text. */
  lemma {:induction false} MatchAtNeeds(toks: seq<Token>, t: nat, text: string, i: nat, ic: bool, u: nat, k: nat)
    requires MatchAt(toks, t, text, i, ic) && t <= u < |toks| && toks[u].Text? && k < |toks[u].s|
    ensures Occurs(toks[u].s[k], text, ic)
    decreases |toks| - t, |text| - i
  {
    match toks[t]
    case Text(s) =>
      if t == u {
        TextAtNeeds(s, 0, text, i, ic, k);
      } else {
        MatchAtNeeds(toks, t + 1, text, i + |s|, ic, u, k);
      }
    case Spaces =>
      if MatchAt(toks, t + 1, text, i + 1, ic) {
        MatchAtNeeds(toks, t + 1, text, i + 1, ic, u, k);
      } else {
        MatchAtNeeds(toks, t, text, i + 1, ic, u, k);
      }
  }

  /** An alternative is ruled out by one literal character the text lacks. */
  predicate Excluded(alt: seq<Token>, text: string, ic: bool) {
    exists u, k :: 0 <= u < |alt| && alt[u].Text? && 0 <= k < |alt[u].s| && !Occurs(alt[u].s[k], text, ic)
  }

  lemma {:induction false} AnyAltAtExcluded(alts: seq<seq<Token>>, a: nat, text: string, i: nat, ic: bool)
    requires forall b :: a <= b < |alts| ==> Excluded(alts[b], text, ic)
    ensures !AnyAltAt(alts, a, text, i, ic)
    decreases |alts| - a
  {
    if a < |alts| {
      if MatchAt(alts[a], 0, text, i, ic) {
        var u, k :| 0 <= u < |alts[a]| && alts[a][u].Text? && 0 <= k < |alts[a][u].s|
          && !Occurs(alts[a][u].s[k], text, ic);
        MatchAtNeeds(alts[a], 0, text, i, ic, u, k);
      }
      AnyAltAtExcluded(alts, a + 1, text, i, ic);
    }
  }

  lemma {:induction false} SearchFromExcluded(re: Regex, text: string, i: nat)
    requires forall b :: 0 <= b < |re.alternatives| ==> Excluded(re.alternatives[b], text, re.ignoreCase)
    ensures !SearchFrom(re, text, i)
    decreases |text| - i
  {
    AnyAltAtExcluded(re.alternatives, 0, text, i, re.ignoreCase);
    if i < |text| {
      SearchFromExcluded(re, text, i + 1);
    }
  }

  /** A pattern none of whose alternatives can match, because each needs a character
      the text does not contain, fails `test`. */
  lemma NoTestWhenExcluded(re: Regex, text: string)
    requires forall b :: 0 <= b < |re.alternatives| ==> Excluded(re.alternatives[b], text, re.ignoreCase)
    ensures !Test(re, text)
  {
    SearchFromExcluded(re, text, 0);
  }

  /** Under the `i` flag a letter occurs only if its small or its capital form is in the text. */
  lemma AbsentLetter(c: char, small: char, text: string)
    requires 'a' <= small <= 'z' && Lower(c) == small
    requires small !in text && (small as int - 32) as char !in text
    ensures !Occurs(c, text, true)
  {
    forall p | 0 <= p < |text|
      ensures !CharMatches(text[p], c, true)
    {
      assert text[p] in text;
    }
  }
}
