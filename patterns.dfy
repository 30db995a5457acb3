/** The regular expressions the extractors search with, as scanners over the text. `re.search`
    returns the match that starts leftmost; for these patterns the greedy match at a start
    position is the only one that can succeed there (a shorter digit group would be followed by a
    digit or a dot, which neither `\s*out of` nor the end of the pattern accepts), so each scanner
    tries the start positions in order and takes the greedy match. Digits are ASCII. */
module Patterns {
  import opened Wrappers
  import opened PyText
  import opened PyNum

  /** End of the run of digits that starts at `i`. */
  function DigitRunEnd(s: string, i: nat): (j: nat)
    requires i <= |s|
    ensures i <= j <= |s|
    ensures forall k :: i <= k < j ==> IsDigit(s[k])
    ensures j < |s| ==> !IsDigit(s[j])
    decreases |s| - i
  {
    if i < |s| && IsDigit(s[i]) then DigitRunEnd(s, i + 1) else i
  }

  /** End of the greedy match of `\d+\.?\d*` at a digit `i`. */
  function NumberEnd(s: string, i: nat): (j: nat)
    requires i < |s| && IsDigit(s[i])
    ensures i < j <= |s|
  {
    var e := DigitRunEnd(s, i);
    if e < |s| && s[e] == '.' then DigitRunEnd(s, e + 1) else e
  }

  /** The text of the match of `\d+\.?\d*` at a digit `i`. */
  function NumberAt(s: string, i: nat): (t: string)
    requires i < |s| && IsDigit(s[i])
  {
    s[i..NumberEnd(s, i)]
  }

  /** The digits after the dot of the match at `i`, empty when it has no dot. */
  function FractionAt(s: string, i: nat): string
    requires i < |s| && IsDigit(s[i])
  {
    var e := DigitRunEnd(s, i);
    if e < |s| && s[e] == '.' then s[e + 1..DigitRunEnd(s, e + 1)] else ""
  }

  lemma RunDigits(s: string, i: nat, j: nat)
    requires i <= j <= |s| && forall k :: i <= k < j ==> IsDigit(s[k])
    ensures AllDigits(s[i..j])
  {
    forall k | 0 <= k < j - i ensures IsDigit(s[i..j][k]) { assert s[i..j][k] == s[i + k]; }
  }

  /** The match at a digit is digits, optionally a dot and more digits, and `float()` reads it
      as that decimal number. */
  lemma NumberAtValue(s: string, i: nat)
    requires i < |s| && IsDigit(s[i])
    ensures ParseFloat(NumberAt(s, i)) == DecimalOf(s[i..DigitRunEnd(s, i)], FractionAt(s, i))
    ensures ParseFloat(NumberAt(s, i)).Some?
  {
    var e := DigitRunEnd(s, i);
    var w := s[i..e];
    RunDigits(s, i, e);
    if e < |s| && s[e] == '.' {
      var g := DigitRunEnd(s, e + 1);
      RunDigits(s, e + 1, g);
      SliceAroundDot(s, i, e, g);
      ParseDecimal(w, s[e + 1..g]);
    } else {
      ParseDigits(w);
      DecimalWithoutFraction(w);
    }
  }

  lemma SliceAroundDot(s: string, i: nat, e: nat, g: nat)
    requires i <= e < g <= |s| && s[e] == '.'
    ensures s[i..g] == s[i..e] + "." + s[e + 1..g]
  {
    assert s[i..g] == s[i..e] + s[e..e + 1] + s[e + 1..g];
  }

  /** The first digit at or after `i`, or `|s|` when there is none. */
  function NextDigit(s: string, i: nat): (j: nat)
    requires i <= |s|
    ensures i <= j <= |s|
    ensures j < |s| ==> IsDigit(s[j])
    ensures forall k :: i <= k < j ==> !IsDigit(s[k])
    decreases |s| - i
  {
    if i == |s| || IsDigit(s[i]) then i else NextDigit(s, i + 1)
  }

  /** `re.search(r'\d+\.?\d*', s)` (and `[\d,]+\.?\d*` on text without commas). */
  function FirstNumber(s: string): (r: Option<string>)
    ensures r.None? <==> forall k :: 0 <= k < |s| ==> !IsDigit(s[k])
  {
    var i := NextDigit(s, 0);
    if i == |s| then None else Some(NumberAt(s, i))
  }

  /** The number found is the one at the first digit, and `float()` always accepts it. */
  lemma FirstNumberParses(s: string)
    requires FirstNumber(s).Some?
    ensures var i := NextDigit(s, 0);
      i < |s| && FirstNumber(s).value == NumberAt(s, i) && ParseFloat(FirstNumber(s).value).Some?
  {
    NumberAtValue(s, NextDigit(s, 0));
  }

  /** End of the run of whitespace (`\s*`) that starts at `j`. */
  function SpaceRunEnd(s: string, j: nat): (k: nat)
    requires j <= |s|
    ensures j <= k <= |s|
    ensures forall m :: j <= m < k ==> IsSpace(s[m])
    decreases |s| - j
  {
    if j < |s| && IsSpace(s[j]) then SpaceRunEnd(s, j + 1) else j
  }

  /** `\s*out of` matches at `j`. */
  predicate OutOfAt(s: string, j: nat)
    requires j <= |s|
  {
    StartsWith(s[SpaceRunEnd(s, j)..], "out of")
  }

  /** A match of `(\d+\.?\d*)\s*out of` starts at `i`. */
  predicate RatingMatchAt(s: string, i: nat)
    requires i < |s|
  {
    IsDigit(s[i]) && OutOfAt(s, NumberEnd(s, i))
  }

  /** The leftmost start at or after `i` of a match, or `|s|`. */
  function RatingMatchFrom(s: string, i: nat): (j: nat)
    requires i <= |s|
    ensures i <= j <= |s|
    ensures j < |s| ==> RatingMatchAt(s, j)
    ensures forall k :: i <= k < j ==> !RatingMatchAt(s, k)
    decreases |s| - i
  {
    if i == |s| || RatingMatchAt(s, i) then i else RatingMatchFrom(s, i + 1)
  }

  /** `re.search(r'(\d+\.?\d*)\s*out of', s).group(1)`. */
  function NumberBeforeOutOf(s: string): (r: Option<string>)
    ensures r.None? <==> forall k :: 0 <= k < |s| ==> !RatingMatchAt(s, k)
  {
    var i := RatingMatchFrom(s, 0);
    if i == |s| then None else Some(NumberAt(s, i))
  }

  predicate IsDigitOrComma(c: char) {
    IsDigit(c) || c == ','
  }

  /** End of the run of digits and commas that starts at `i`. */
  function DigitCommaRunEnd(s: string, i: nat): (j: nat)
    requires i <= |s|
    ensures i <= j <= |s|
    ensures forall k :: i <= k < j ==> IsDigitOrComma(s[k])
    ensures j < |s| ==> !IsDigitOrComma(s[j])
    decreases |s| - i
  {
    if i < |s| && IsDigitOrComma(s[i]) then DigitCommaRunEnd(s, i + 1) else i
  }

  /** The first digit or comma at or after `i`, or `|s|`. */
  function NextDigitOrComma(s: string, i: nat): (j: nat)
    requires i <= |s|
    ensures i <= j <= |s|
    ensures j < |s| ==> IsDigitOrComma(s[j])
    ensures forall k :: i <= k < j ==> !IsDigitOrComma(s[k])
    decreases |s| - i
  {
    if i == |s| || IsDigitOrComma(s[i]) then i else NextDigitOrComma(s, i + 1)
  }

  /** `re.search(r'([\d,]+)', s).group(1)`: the first maximal run of digits and commas. */
  function FirstDigitCommaRun(s: string): (r: Option<string>)
    ensures r.None? <==> forall k :: 0 <= k < |s| ==> !IsDigitOrComma(s[k])
    ensures r.Some? ==> r.value != [] && forall k :: 0 <= k < |r.value| ==> IsDigitOrComma(r.value[k])
  {
    var i := NextDigitOrComma(s, 0);
    if i == |s| then None
    else
      var r := s[i..DigitCommaRunEnd(s, i)];
      assert forall k :: 0 <= k < |r| ==> r[k] == s[i + k];
      Some(r)
  }

  /** Removing the commas from a run of digits and commas leaves only digits. */
  lemma RemoveCommasDigits(r: string)
    requires forall k :: 0 <= k < |r| ==> IsDigitOrComma(r[k])
    ensures AllDigits(RemoveChar(r, ','))
  {
    var t := RemoveChar(r, ',');
    forall k | 0 <= k < |t| ensures IsDigit(t[k]) {
      assert t[k] in multiset(t);
      assert multiset(t)[t[k]] > 0;
      if t[k] != ',' {
        assert multiset(r)[t[k]] > 0;
        var m :| 0 <= m < |r| && r[m] == t[k];
      }
    }
  }

  /** A run of digits reaching the end of the text ends there. */
  lemma {:induction false} DigitRunToEnd(s: string, i: nat)
    requires i <= |s| && forall k :: i <= k < |s| ==> IsDigit(s[k])
    ensures DigitRunEnd(s, i) == |s|
    decreases |s| - i
  {
    if i < |s| {
      DigitRunToEnd(s, i + 1);
    }
  }

  /** A match of `(MLA|MCO)[0-9]+` starts at `i`: a site prefix and a digit after it. */
  predicate SiteIdAt(s: string, i: nat) {
    i + 3 < |s| && (s[i..i + 3] == "MLA" || s[i..i + 3] == "MCO") && IsDigit(s[i + 3])
  }

  /** The leftmost start at or after `i` of a match, or `|s|`. */
  function SiteIdFrom(s: string, i: nat): (j: nat)
    requires i <= |s|
    ensures i <= j <= |s|
    ensures j < |s| ==> SiteIdAt(s, j)
    ensures forall k :: i <= k < j ==> !SiteIdAt(s, k)
    decreases |s| - i
  {
    if i == |s| || SiteIdAt(s, i) then i else SiteIdFrom(s, i + 1)
  }

  /** `re.search(r'(MLA|MCO)([0-9]+)', s).group(0)`: the prefix and the whole digit run after it. */
  function SiteId(s: string): (r: Option<string>)
    ensures r.None? <==> forall k :: 0 <= k < |s| ==> !SiteIdAt(s, k)
  {
    var i := SiteIdFrom(s, 0);
    if i == |s| then None else Some(s[i..DigitRunEnd(s, i + 3)])
  }

  /** The id found is the leftmost match: a site prefix followed by all the digits that follow
      it in the text. */
  lemma SiteIdShape(s: string)
    requires SiteId(s).Some?
    ensures var r, i := SiteId(s).value, SiteIdFrom(s, 0);
      && |r| >= 4 && (r[..3] == "MLA" || r[..3] == "MCO") && AllDigits(r[3..])
      && i + |r| <= |s| && s[i..i + |r|] == r
      && (forall k :: 0 <= k < i ==> !SiteIdAt(s, k))
      && (i + |r| == |s| || !IsDigit(s[i + |r|]))
  {
    var r, i := SiteId(s).value, SiteIdFrom(s, 0);
    var e := DigitRunEnd(s, i + 3);
    assert r[..3] == s[i..i + 3];
    forall k | 0 <= k < |r| - 3 ensures IsDigit(r[3..][k]) {
      assert r[3..][k] == s[i + 3 + k];
    }
  }

  /** An address path `/MLA...` or `/MCO...` gives the prefix and its digits as the id. */
  lemma SiteIdOfPath(site: string, digits: string)
    requires site == "MLA" || site == "MCO"
    requires digits != [] && AllDigits(digits)
    ensures SiteId("/" + site + digits) == Some(site + digits)
  {
    var s := "/" + site + digits;
    assert !SiteIdAt(s, 0) by {
      assert s[0] == '/';
    }
    assert s[1..4] == site;
    assert s[4] == digits[0];
    assert SiteIdAt(s, 1);
    assert SiteIdFrom(s, 0) == 1;
    forall k | 4 <= k < |s| ensures IsDigit(s[k]) {
      assert s[k] == digits[k - 4];
    }
    DigitRunToEnd(s, 4);
    assert s[1..|s|] == site + digits;
  }
}
