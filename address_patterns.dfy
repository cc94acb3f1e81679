/**
 * The state+ZIP search of the CLI's free-text address parser and the
 * backward scan over comma-separated parts that uses it
 * (handwrytten/cli/address_parser.py). The regular expressions are
 * written out as character predicates: `[A-Z]` is an ASCII capital, `\d`
 * an ASCII digit and `\s` the `str.isspace` set.
 */
module AddressPatterns {
  import opened Wrappers
  import opened Text

  // ---------------------------------------------------------------------
  // The state+ZIP patterns
  // ---------------------------------------------------------------------

  /** `\d{5}(-\d{4})?` matched on the whole string: a ZIP or ZIP+4. */
  predicate IsZip(s: string) {
    || (|s| == 5 && AllDigits(s))
    || (|s| == 10 && AllDigits(s[..5]) && s[5] == '-' && AllDigits(s[6..]))
  }

  /** `[A-Z]{2}` matched on the whole string. */
  predicate IsStateCode(s: string) {
    |s| == 2 && IsUpper(s[0]) && IsUpper(s[1])
  }

  /** `(\d{5}(?:-\d{4})?)\s*$` anchored at the start of `t`: the ZIP it captures, if it matches. */
  function ZipThenSpace(t: string): (r: Option<string>)
    ensures r.Some? ==> IsZip(r.value) && StartsWith(t, r.value) && AllSpace(t[|r.value|..])
  {
    if |t| >= 5 && AllDigits(t[..5]) && AllSpace(t[5..]) then Some(t[..5])
    else if |t| >= 10 && AllDigits(t[..5]) && t[5] == '-' && AllDigits(t[6..10]) && AllSpace(t[10..]) then Some(t[..10])
    else None
  }

  /** The ZIP part matches whenever `t` is a ZIP followed by whitespace only, and captures exactly that ZIP. */
  lemma ZipThenSpaceComplete(t: string, z: string)
    requires IsZip(z) && StartsWith(t, z) && AllSpace(t[|z|..])
    ensures ZipThenSpace(t) == Some(z)
  {
    if |z| == 10 {
      assert t[..5] == z[..5] && t[5] == z[5] && t[6..10] == z[6..];
      assert !IsSpace(t[5]);
    }
  }

  /** The state and ZIP when all of `t` matches `([A-Z]{2})\s+(\d{5}(?:-\d{4})?)\s*`. */
  function StateZipAt(t: string): (r: Option<(string, string)>)
    ensures r.Some? ==> IsStateCode(r.value.0) && IsZip(r.value.1) && StartsWith(t, r.value.0) && |t| >= 3 && IsSpace(t[2])
  {
    if |t| >= 3 && IsUpper(t[0]) && IsUpper(t[1]) && IsSpace(t[2]) then
      match ZipThenSpace(LStrip(t[2..]))
      case Some(z) => Some((t[..2], z))
      case None => None
    else None
  }

  /** A `search` hit: where the match starts, the state and the ZIP. */
  datatype Match = Match(start: nat, state: string, zip: string)

  /** `state_zip_re.search(s)` from position `from`: the leftmost start at which the pattern matches through to the end. */
  function Search(s: string, from: nat): (r: Option<Match>)
    requires from <= |s|
    ensures r.Some? ==> from <= r.value.start <= |s|
    decreases |s| - from
  {
    match StateZipAt(s[from..])
    case Some((state, zip)) => Some(Match(from, state, zip))
    case None => if from == |s| then None else Search(s, from + 1)
  }

  /** A hit is a position where the pattern matches, with the state and ZIP it captures there. */
  lemma {:induction false} SearchFound(s: string, from: nat)
    requires from <= |s| && Search(s, from).Some?
    ensures var m := Search(s, from).value; StateZipAt(s[m.start..]) == Some((m.state, m.zip))
    decreases |s| - from
  {
    if StateZipAt(s[from..]).None? {
      SearchFound(s, from + 1);
    }
  }

  /** `search` finds the leftmost match, and reports none only when no position matches. */
  lemma {:induction false} SearchLeftmost(s: string, from: nat, p: nat)
    requires from <= p <= |s|
    ensures Search(s, from).Some? && p < Search(s, from).value.start ==> StateZipAt(s[p..]).None?
    ensures Search(s, from).None? ==> StateZipAt(s[p..]).None?
    decreases |s| - from
  {
    if StateZipAt(s[from..]).None? && from < |s| && from < p {
      SearchLeftmost(s, from + 1, p);
    }
  }

  /** The text before a match that names the city: `s[:start].strip().rstrip(",").strip()`. */
  function CityPart(s: string, start: nat): string
    requires start <= |s|
  {
    Strip(RStripChar(Strip(s[..start]), ','))
  }

  // ---------------------------------------------------------------------
  // _extract_city_state_zip
  // ---------------------------------------------------------------------

  /** What `_extract_city_state_zip` returns on success. */
  datatype CityStateZip = CityStateZip(city: string, state: string, zip: string, preceding: seq<string>)

  /** The highest index below `n` whose part contains a state+ZIP match: the first one a backward scan meets. */
  function LastMatching(parts: seq<string>, n: nat): (r: Option<(nat, Match)>)
    requires n <= |parts|
    ensures r.Some? ==> r.value.0 < n && r.value.1.start <= |parts[r.value.0]|
  {
    if n == 0 then None
    else match Search(parts[n - 1], 0)
      case Some(m) => Some((n - 1, m))
      case None => LastMatching(parts, n - 1)
  }

  /** The part the scan stops at holds the hit `search` reports for it. */
  lemma {:induction false} LastMatchingFound(parts: seq<string>, n: nat)
    requires n <= |parts| && LastMatching(parts, n).Some?
    ensures var (i, m) := LastMatching(parts, n).value; Search(parts[i], 0) == Some(m)
  {
    if Search(parts[n - 1], 0).None? {
      LastMatchingFound(parts, n - 1);
    }
  }

  /** The scan meets no match above the part it stops at, and none at all when it finds nothing. */
  lemma {:induction false} LastMatchingIsLast(parts: seq<string>, n: nat, j: nat)
    requires j < n <= |parts|
    ensures LastMatching(parts, n).Some? && LastMatching(parts, n).value.0 < j ==> Search(parts[j], 0).None?
    ensures LastMatching(parts, n).None? ==> Search(parts[j], 0).None?
  {
    if j < n - 1 && Search(parts[n - 1], 0).None? {
      LastMatchingIsLast(parts, n - 1, j);
    }
  }

  /** The answer for a match in part `i`: the city is the text before the match, else the part before; none if there is neither. */
  function FromMatch(parts: seq<string>, i: nat, m: Match): Option<CityStateZip>
    requires i < |parts| && m.start <= |parts[i]|
  {
    var cityPart := CityPart(parts[i], m.start);
    if cityPart != "" then Some(CityStateZip(cityPart, m.state, m.zip, parts[..i]))
    else if i > 0 then Some(CityStateZip(Strip(parts[i - 1]), m.state, m.zip, parts[..i - 1]))
    else None
  }

  /** The fallback when no part matches: the last three parts are city, a bare state code and a bare ZIP. */
  function Fallback(parts: seq<string>): Option<CityStateZip> {
    if |parts| >= 3 then
      var maybeZip := Strip(parts[|parts| - 1]);
      var maybeState := Strip(parts[|parts| - 2]);
      if IsZip(maybeZip) && IsStateCode(maybeState)
      then Some(CityStateZip(Strip(parts[|parts| - 3]), maybeState, maybeZip, parts[..|parts| - 3]))
      else None
    else None
  }

  /** `_extract_city_state_zip(parts)` */
  function ExtractSpec(parts: seq<string>): Option<CityStateZip> {
    match LastMatching(parts, |parts|)
    case Some((i, m)) => FromMatch(parts, i, m)
    case None => Fallback(parts)
  }

  /**
   * What the extraction finds: a state code and a ZIP, the street parts
   * being a prefix of the input that leaves out at least the part holding
   * the match.
   */
  lemma ExtractSpecShape(parts: seq<string>)
    requires ExtractSpec(parts).Some?
    ensures var c := ExtractSpec(parts).value;
            IsStateCode(c.state) && IsZip(c.zip) && |c.preceding| < |parts| && c.preceding == parts[..|c.preceding|]
  {
    match LastMatching(parts, |parts|)
    case Some((i, m)) =>
      LastMatchingFound(parts, |parts|);
      SearchFound(parts[i], 0);
      assert StateZipAt(parts[i][m.start..]) == Some((m.state, m.zip));
    case None =>
  }

  /**
   * The backward scan stops at the last part holding a match, even when it
   * yields nothing: a match in the very first part with no city text
   * before it ends the search with no result, and the fallback is not
   * tried.
   */
  lemma ExtractFirstPartWithoutCity(parts: seq<string>)
    requires LastMatching(parts, |parts|).Some? && LastMatching(parts, |parts|).value.0 == 0
    requires CityPart(parts[0], LastMatching(parts, |parts|).value.1.start) == ""
    ensures ExtractSpec(parts).None?
  {
  }

  /** `_extract_city_state_zip`, scanning the parts from the last to the first. */
  method ExtractCityStateZip(parts: seq<string>) returns (r: Option<CityStateZip>)
    ensures r == ExtractSpec(parts)
  {
    var i := |parts| - 1;
    while i >= 0
      invariant -1 <= i < |parts|
      invariant LastMatching(parts, |parts|) == LastMatching(parts, i + 1)
      decreases i
    {
      var m := Search(parts[i], 0);
      if m.Some? {
        assert LastMatching(parts, i + 1) == Some((i, m.value));
        return FromMatch(parts, i, m.value);
      }
      i := i - 1;
    }
    return Fallback(parts);
  }
}
