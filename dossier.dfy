/** Case-number extraction from a decoded subject line (`extract_dossier_num`).

    The source runs two regular-expression searches. Each is modelled twice:
    once as the declarative meaning of the pattern (a predicate saying where
    the pattern matches) and once as an explicit left-to-right scanner; lemmas
    tie the two together, so the leftmost-match and precedence rules of
    `re.search` are proved rather than assumed. */
module Dossier {
  import opened Text

  /** The `n` of the marker pattern, under `re.IGNORECASE`. */
  predicate IsMarkerLetter(c: char)
  {
    c == 'n' || c == 'N'
  }

  /** `[º°]`: the masculine ordinal indicator or the degree sign. */
  predicate IsOrdinalSign(c: char)
  {
    c == '\U{BA}' || c == '\U{B0}'
  }

  /** Five ASCII digits start at position `k`. */
  predicate FiveDigitsAt(s: string, k: nat)
  {
    k + 5 <= |s| && forall m :: k <= m < k + 5 ==> IsDigit(s[m])
  }

  /** A string of exactly five ASCII digits: the shape of a case number. */
  predicate IsCaseNumber(t: string)
  {
    |t| == 5 && forall m :: 0 <= m < 5 ==> IsDigit(t[m])
  }

  // ---------------------------------------------------------------------
  // Declarative meaning of the two patterns

  /** One way for `n[º°]?\s*(\d{5})` to match at `i`: the optional ordinal
      sign ends before `j`, the whitespace fills `j..k`, and the captured
      group is `s[k..k+5]`. */
  ghost predicate MarkerParse(s: string, i: nat, j: nat, k: nat)
  {
    && i < |s| && IsMarkerLetter(s[i])
    && (j == i + 1 || (j == i + 2 && j <= |s| && IsOrdinalSign(s[i + 1])))
    && j <= k
    && FiveDigitsAt(s, k)
    && (forall m :: j <= m < k ==> IsSpace(s[m]))
  }

  /** `n[º°]?\s*(\d{5})` (ignoring case) matches at `i` with group `s[k..k+5]`. */
  ghost predicate MarkerMatch(s: string, i: nat, k: nat)
  {
    MarkerParse(s, i, i + 1, k) || MarkerParse(s, i, i + 2, k)
  }

  /** The marker pattern matches nowhere before `i`. */
  ghost predicate NoMarkerBefore(s: string, i: nat)
  {
    forall i': nat, k: nat :: i' < i ==> !MarkerMatch(s, i', k)
  }

  /** The marker pattern matches nowhere in `s`. */
  ghost predicate NoMarker(s: string)
  {
    forall i: nat, k: nat :: !MarkerMatch(s, i, k)
  }

  /** `c` is a word character, out-of-range positions counting as non-word. */
  predicate IsWordAt(s: string, p: int)
  {
    0 <= p < |s| && IsWordChar(s[p])
  }

  /** `\b` holds at position `p` (between `s[p-1]` and `s[p]`). */
  predicate WordBoundary(s: string, p: int)
  {
    IsWordAt(s, p - 1) != IsWordAt(s, p)
  }

  /** `\b\d{5}\b` matches at `i`. */
  predicate BareMatch(s: string, i: nat)
  {
    WordBoundary(s, i) && FiveDigitsAt(s, i) && WordBoundary(s, i + 5)
  }

  // ---------------------------------------------------------------------
  // The scanners

  /** Greedy `\s*` from `j`: the end of the whitespace run. */
  function SkipSpaces(s: string, j: nat): (k: nat)
    requires j <= |s|
    ensures j <= k <= |s|
    ensures forall m :: j <= m < k ==> IsSpace(s[m])
    ensures k == |s| || !IsSpace(s[k])
    decreases |s| - j
  {
    if j < |s| && IsSpace(s[j]) then SkipSpaces(s, j + 1) else j
  }

  /** Tries the marker pattern at position `i`; returns where its five
      digits start. */
  function MarkerAt(s: string, i: nat): Option<nat>
  {
    if i < |s| && IsMarkerLetter(s[i]) then
      var j := if i + 1 < |s| && IsOrdinalSign(s[i + 1]) then i + 2 else i + 1;
      var k := SkipSpaces(s, j);
      if FiveDigitsAt(s, k) then Some(k) else None
    else None
  }

  /** The leftmost position at or after `from` where the marker pattern
      matches (the position of its `n`). */
  function FirstMarker(s: string, from: nat): (r: Option<nat>)
    ensures r.Some? ==> from <= r.value < |s| && MarkerAt(s, r.value).Some?
    ensures r.Some? ==> forall p: nat :: from <= p < r.value ==> MarkerAt(s, p).None?
    ensures r.None? ==> forall p: nat :: from <= p ==> MarkerAt(s, p).None?
    decreases |s| - from
  {
    if from >= |s| then None
    else if MarkerAt(s, from).Some? then Some(from)
    else FirstMarker(s, from + 1)
  }

  /** The leftmost position at or after `from` where `\b\d{5}\b` matches. */
  function FirstBare(s: string, from: nat): (r: Option<nat>)
    ensures r.Some? ==> from <= r.value && BareMatch(s, r.value)
    ensures r.Some? ==> forall p: nat :: from <= p < r.value ==> !BareMatch(s, p)
    ensures r.None? ==> forall p: nat :: from <= p ==> !BareMatch(s, p)
    decreases |s| - from
  {
    if from >= |s| then None
    else if BareMatch(s, from) then Some(from)
    else FirstBare(s, from + 1)
  }

  /** `extract_dossier_num`: the marker pattern first, then the bare
      five-digit token; `None` when neither matches. */
  function ExtractDossierNum(subject: string): (r: Option<string>)
    ensures r.Some? ==> IsCaseNumber(r.value) && Contains(subject, r.value)
  {
    match FirstMarker(subject, 0)
    case Some(p) =>
      var k := MarkerAt(subject, p).value;
      assert OccursAt(subject, subject[k..k + 5], k);
      Some(subject[k..k + 5])
    case None =>
      match FirstBare(subject, 0)
      case Some(p) =>
        assert OccursAt(subject, subject[p..p + 5], p);
        Some(subject[p..p + 5])
      case None => None
  }

  // ---------------------------------------------------------------------
  // The scanners agree with the patterns

  /** A whitespace run that stops at a non-whitespace character ends where
      `SkipSpaces` stops. */
  lemma {:induction false} SpacesEndAtSkip(s: string, j: nat, k: nat)
    requires j <= k < |s| && !IsSpace(s[k])
    requires forall m :: j <= m < k ==> IsSpace(s[m])
    ensures k == SkipSpaces(s, j)
    decreases k - j
  {
    if j < k {
      SpacesEndAtSkip(s, j + 1, k);
    }
  }

  /** The whitespace run of a parse is the maximal one, so it ends where
      `SkipSpaces` stops. */
  lemma ParseEndsAtSkip(s: string, i: nat, j: nat, k: nat)
    requires MarkerParse(s, i, j, k)
    ensures k == SkipSpaces(s, j)
  {
    assert IsDigit(s[k]);
    SpacesEndAtSkip(s, j, k);
  }

  /** The marker scanner finds a match at `i` exactly when the pattern has
      one there, and then reports the same capture group start. Both ways of
      treating the optional ordinal sign lead to the same group, so the
      order in which the regex engine backtracks does not matter. */
  lemma MarkerAtIsMatch(s: string, i: nat, k: nat)
    ensures MarkerAt(s, i) == Some(k) <==> MarkerMatch(s, i, k)
  {
    if MarkerMatch(s, i, k) {
      if MarkerParse(s, i, i + 2, k) {
        ParseEndsAtSkip(s, i, i + 2, k);
      } else {
        ParseEndsAtSkip(s, i, i + 1, k);
      }
    }
    if MarkerAt(s, i) == Some(k) {
      var j := if i + 1 < |s| && IsOrdinalSign(s[i + 1]) then i + 2 else i + 1;
      assert MarkerParse(s, i, j, k);
    }
  }

  /** `\b\d{5}\b` matches exactly at a run of five digits that has no word
      character immediately before or after it; in particular the run is
      not part of a longer run of digits. */
  lemma BareMatchMeaning(s: string, i: nat)
    ensures BareMatch(s, i) <==>
      FiveDigitsAt(s, i)
      && (i == 0 || !IsWordChar(s[i - 1]))
      && (i + 5 == |s| || !IsWordChar(s[i + 5]))
    ensures BareMatch(s, i) ==>
      (i == 0 || !IsDigit(s[i - 1])) && (i + 5 == |s| || !IsDigit(s[i + 5]))
  {
    if FiveDigitsAt(s, i) {
      assert IsDigit(s[i]) && IsDigit(s[i + 4]);
    }
  }

  // ---------------------------------------------------------------------
  // What extract_dossier_num returns

  /** Marker precedence: if the marker pattern matches, the result is the
      group of its leftmost match, whatever bare five-digit tokens the
      subject also holds. */
  lemma MarkerPrecedence(s: string, i: nat, k: nat)
    requires MarkerMatch(s, i, k) && NoMarkerBefore(s, i)
    ensures ExtractDossierNum(s) == Some(s[k..k + 5])
  {
    MarkerAtIsMatch(s, i, k);
    var r := FirstMarker(s, 0);
    assert r.Some?;
    if r.value < i {
      var k' := MarkerAt(s, r.value).value;
      MarkerAtIsMatch(s, r.value, k');
      assert false;
    }
  }

  /** Fallback: with no marker match anywhere, the result is the leftmost
      standalone five-digit token. */
  lemma BareFallback(s: string, i: nat)
    requires NoMarker(s)
    requires BareMatch(s, i) && forall p: nat :: p < i ==> !BareMatch(s, p)
    ensures ExtractDossierNum(s) == Some(s[i..i + 5])
  {
    NoMarkerMeansNoScan(s);
  }

  /** With no marker match the marker scanner finds nothing. */
  lemma NoMarkerMeansNoScan(s: string)
    requires NoMarker(s)
    ensures FirstMarker(s, 0).None?
  {
    var r := FirstMarker(s, 0);
    if r.Some? {
      MarkerAtIsMatch(s, r.value, MarkerAt(s, r.value).value);
    }
  }

  /** The result is `None` exactly when neither pattern matches anywhere. */
  lemma NoneIffNoMatch(s: string)
    ensures ExtractDossierNum(s).None? <==>
      NoMarker(s) && forall p: nat :: !BareMatch(s, p)
  {
    var r := FirstMarker(s, 0);
    if r.Some? {
      var k := MarkerAt(s, r.value).value;
      MarkerAtIsMatch(s, r.value, k);
      assert MarkerMatch(s, r.value, k);
    } else {
      forall i: nat, k: nat ensures !MarkerMatch(s, i, k) {
        MarkerAtIsMatch(s, i, k);
      }
    }
  }

  /** A subject without five consecutive ASCII digits has no case number. */
  lemma NoDigitsNoCase(s: string)
    requires forall k: nat :: !FiveDigitsAt(s, k)
    ensures ExtractDossierNum(s) == None
  {
    forall i: nat, k: nat ensures !MarkerMatch(s, i, k) {
      assert !FiveDigitsAt(s, k);
    }
    NoneIffNoMatch(s);
  }

  // ---------------------------------------------------------------------
  // Worked subjects

  /** Positions holding no `n` cannot start a marker match. */
  lemma NoLetterNoMarkerBefore(s: string, i: nat)
    requires i <= |s|
    requires forall p :: 0 <= p < i ==> !IsMarkerLetter(s[p])
    ensures NoMarkerBefore(s, i)
  {
  }

  /** A subject whose first `n` or `N` starts a marker: the digits after
      it are the case number, whatever comes before (bare tokens included)
      or after. */
  lemma FirstMarkerWins(pre: string, letter: char, sign: string, spaces: string, digits: string, rest: string)
    requires forall p :: 0 <= p < |pre| ==> !IsMarkerLetter(pre[p])
    requires IsMarkerLetter(letter)
    requires sign == [] || (|sign| == 1 && IsOrdinalSign(sign[0]))
    requires forall p :: 0 <= p < |spaces| ==> IsSpace(spaces[p])
    requires IsCaseNumber(digits)
    ensures ExtractDossierNum(pre + [letter] + sign + spaces + digits + rest) == Some(digits)
  {
    var s := pre + [letter] + sign + spaces + digits + rest;
    var i := |pre|;
    var j := i + 1 + |sign|;
    var k := j + |spaces|;
    assert s[i] == letter;
    assert sign != [] ==> s[i + 1] == sign[0];
    assert forall m :: j <= m < k ==> s[m] == spaces[m - j];
    assert s[k..k + 5] == digits;
    assert FiveDigitsAt(s, k);
    assert MarkerParse(s, i, j, k);
    assert forall p :: 0 <= p < i ==> s[p] == pre[p];
    NoLetterNoMarkerBefore(s, i);
    MarkerPrecedence(s, i, k);
  }

  /** The marker wins over an earlier bare token. */
  lemma MarkerBeatsEarlierToken(pre: string)
    requires pre == "Facture 54321 / "
    ensures ExtractDossierNum(pre + "n\U{B0} 12345") == Some("12345")
  {
    FirstMarkerWins(pre, 'n', "\U{B0}", " ", "12345", "");
    assert pre + "n\U{B0} 12345" == pre + ['n'] + "\U{B0}" + " " + "12345" + "";
  }

  /** An underscore is a word character, so no bare token is found. */
  lemma UnderscoreBlocksToken(pre: string, digits: string)
    requires pre == "DOSSIER_" && digits == "12345"
    ensures ExtractDossierNum(pre + digits) == None
  {
    var s := pre + digits;
    assert forall p :: 0 <= p < |s| ==> s[p] == if p < 8 then pre[p] else digits[p - 8];
    NoLetterNoMarkerBefore(s, |s|);
    forall p: nat ensures !BareMatch(s, p) {
      if p == 8 {
        assert IsWordAt(s, 7) && IsWordAt(s, 8);
      } else if p < 8 {
        assert !IsDigit(s[p]);
      }
    }
    NoneIffNoMatch(s);
  }

  /** Six digits in a row are not a five-digit token. */
  lemma SixDigitsNoToken(s: string)
    requires s == "123456"
    ensures ExtractDossierNum(s) == None
  {
    NoLetterNoMarkerBefore(s, |s|);
    forall p: nat ensures !BareMatch(s, p) {
      if p == 0 {
        assert IsWordAt(s, 4) && IsWordAt(s, 5);
      } else if p == 1 {
        assert IsWordAt(s, 0) && IsWordAt(s, 1);
      }
    }
    NoneIffNoMatch(s);
  }

  /** `no` is not a marker: only `n`, optionally followed by `º` or `°`. */
  lemma LetterOIsNotOrdinal(pre: string, digits: string)
    requires pre == "no" && digits == "12345"
    ensures ExtractDossierNum(pre + digits) == None
  {
    var s := pre + digits;
    assert forall p :: 0 <= p < |s| ==> s[p] == if p < 2 then pre[p] else digits[p - 2];
    forall i: nat, k: nat ensures !MarkerMatch(s, i, k) {
      if i == 0 {
        assert !IsSpace(s[1]) && !IsDigit(s[1]) && !IsOrdinalSign(s[1]);
      } else if i < |s| {
        assert !IsMarkerLetter(s[i]);
      }
    }
    forall p: nat ensures !BareMatch(s, p) {
      if p == 2 {
        assert IsWordAt(s, 1) && IsWordAt(s, 2);
      } else if p < 2 {
        assert !IsDigit(s[p]);
      }
    }
    NoneIffNoMatch(s);
  }

  /** A subject of the kind the workflow receives. */
  lemma TypicalSubject(pre: string, rest: string)
    requires pre == "Dossier " && rest == " - pi\U{E8}ces jointes"
    ensures ExtractDossierNum(pre + "n\U{B0}12345" + rest) == Some("12345")
  {
    FirstMarkerWins(pre, 'n', "\U{B0}", "", "12345", rest);
    assert pre + "n\U{B0}12345" + rest == pre + ['n'] + "\U{B0}" + "" + "12345" + rest;
  }
}
