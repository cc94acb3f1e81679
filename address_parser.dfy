/**
 * `parse_address_string` of the CLI (handwrytten/cli/address_parser.py):
 * a free-text "Name, Street, City STATE ZIP" address to a recipient dict.
 */
module AddressParser {
  import opened Wrappers
  import opened Text
  import opened Dicts
  import opened Values
  import opened AddressPatterns

  // ---------------------------------------------------------------------
  // parse_address_string
  // ---------------------------------------------------------------------

  /** `[p.strip() for p in addr.split(",")]` */
  function Parts(addr: string): (parts: seq<string>)
    ensures |parts| == |Split(addr, ',')|
  {
    MapEach(Strip, Split(addr, ','))
  }

  /** `[f(p) for p in pieces]` */
  function MapEach<A, B>(f: A -> B, pieces: seq<A>): (r: seq<B>)
    ensures |r| == |pieces|
  {
    if pieces == [] then [] else [f(pieces[0])] + MapEach(f, pieces[1..])
  }

  /** Each mapped piece sits at the index of the piece it came from. */
  lemma {:induction false} MapEachAt<A, B>(f: A -> B, pieces: seq<A>, i: nat)
    requires i < |pieces|
    ensures MapEach(f, pieces)[i] == f(pieces[i])
  {
    if i > 0 {
      MapEachAt(f, pieces[1..], i - 1);
      assert pieces[1..][i - 1] == pieces[i];
    }
  }

  /** Each part is the matching comma-separated piece, stripped. */
  lemma PartsAt(addr: string, i: nat)
    requires i < |Parts(addr)|
    ensures Parts(addr)[i] == Strip(Split(addr, ',')[i])
  {
    MapEachAt(Strip, Split(addr, ','), i);
  }

  /** `re.match(r"^\d", s)` */
  predicate StartsWithDigit(s: string) {
    s != [] && IsDigit(s[0])
  }

  const TooFewPartsMessage := "Cannot parse address: expected at least 'Name, Street, City State Zip', got: "
  const NoCityStateZipMessage := "Cannot find city/state/zip in address: "
  const ExpectedFormatHint := "\nExpected format: 'Name, Street, City STATE ZIP'"
  const IndexOutOfRangeMessage := "list index out of range"
  const NoStreetMessage := "Cannot parse street from address: "

  /** The street entries for the parts between the name and the city, by how many there are. */
  function StreetEntries(street: seq<string>): Dict<string>
    requires |street| > 0
  {
    if |street| == 1 then [("street1", street[0])]
    else if |street| == 2 then
      if StartsWithDigit(street[0]) then [("street1", street[0]), ("street2", street[1])]
      else [("company", street[0]), ("street1", street[1])]
    else [("company", street[0]), ("street1", street[1]), ("street2", street[2])]
  }

  /** `parse_address_string(addr)` */
  function ParseSpec(addr: string): Result<Dict<string>, PyError> {
    ParseParts(addr, Parts(addr))
  }

  /** The parse once `addr` is split into stripped parts; `addr` itself only appears in the messages. */
  function ParseParts(addr: string, parts: seq<string>): Result<Dict<string>, PyError> {
    if |parts| < 3 then Failure(ValueError(TooFewPartsMessage + addr))
    else
      var nameParts := SplitFirstWord(parts[0]);
      if |nameParts| == 0 then Failure(IndexError(IndexOutOfRangeMessage))
      else
        match ExtractSpec(parts[1..])
        case None => Failure(ValueError(NoCityStateZipMessage + addr + ExpectedFormatHint))
        case Some(c) =>
          if |c.preceding| == 0 then Failure(ValueError(NoStreetMessage + addr))
          else Success(Assembled(nameParts, c))
  }

  /** The dict a successful parse returns: name, city, state, ZIP, then the street entries. */
  function Assembled(nameParts: seq<string>, c: CityStateZip): Dict<string>
    requires |nameParts| > 0 && |c.preceding| > 0
  {
    NameAndPlace(nameParts, c) + StreetEntries(c.preceding)
  }

  /** The first five entries: the name, then the city, state and ZIP. */
  function NameAndPlace(nameParts: seq<string>, c: CityStateZip): Dict<string>
    requires |nameParts| > 0
  {
    [("firstName", nameParts[0]), ("lastName", LastName(nameParts)), ("city", c.city), ("state", c.state), ("zip", c.zip)]
  }

  /** `name_parts[1] if len(name_parts) > 1 else ""` */
  function LastName(nameParts: seq<string>): string {
    if |nameParts| > 1 then nameParts[1] else ""
  }

  /** `parse_address_string`, filling the result dict key by key. */
  method ParseAddressString(addr: string) returns (r: Result<Dict<string>, PyError>)
    ensures r == ParseSpec(addr)
  {
    var parts := Parts(addr);
    if |parts| < 3 {
      return Failure(ValueError(TooFewPartsMessage + addr));
    }
    var result: Dict<string> := [];
    var nameParts := SplitFirstWord(parts[0]);
    if |nameParts| == 0 {
      return Failure(IndexError(IndexOutOfRangeMessage));
    }
    var lastName := if |nameParts| > 1 then nameParts[1] else "";
    result := result + [("firstName", nameParts[0])];
    result := result + [("lastName", lastName)];
    var remaining := parts[1..];
    var cityStateZip := ExtractCityStateZip(remaining);
    if cityStateZip.None? {
      return Failure(ValueError(NoCityStateZipMessage + addr + ExpectedFormatHint));
    }
    var c := cityStateZip.value;
    result := result + [("city", c.city)];
    result := result + [("state", c.state)];
    result := result + [("zip", c.zip)];
    NameAndPlaceFilled(nameParts, c);
    assert result == NameAndPlace(nameParts, c);
    var withStreets := AppendStreets(result, c.preceding);
    if withStreets.None? {
      return Failure(ValueError(NoStreetMessage + addr));
    }
    result := withStreets.value;
    ParseSucceeds(addr, nameParts, c);
    assert result == Assembled(nameParts, c);
    return Success(result);
  }

  /** The five key-by-key assignments to an empty dict give the first five entries. */
  lemma NameAndPlaceFilled(nameParts: seq<string>, c: CityStateZip)
    requires |nameParts| > 0
    ensures [] + [("firstName", nameParts[0])] + [("lastName", LastName(nameParts))]
            + [("city", c.city)] + [("state", c.state)] + [("zip", c.zip)] == NameAndPlace(nameParts, c)
  {
  }

  /** When every step finds what it needs, the parse succeeds with the assembled dict. */
  lemma ParseSucceeds(addr: string, nameParts: seq<string>, c: CityStateZip)
    requires |Parts(addr)| >= 3 && nameParts == SplitFirstWord(Parts(addr)[0]) && |nameParts| > 0
    requires ExtractSpec(Parts(addr)[1..]) == Some(c) && |c.preceding| > 0
    ensures ParseSpec(addr) == Success(Assembled(nameParts, c))
  {
  }

  /**
   * The street entries added to `result` by how many parts precede the
   * city, or none when no part does (the caller's error).
   */
  method AppendStreets(result: Dict<string>, addrParts: seq<string>) returns (r: Option<Dict<string>>)
    ensures r.None? <==> addrParts == []
    ensures r.Some? ==> r.value == result + StreetEntries(addrParts)
  {
    if |addrParts| == 1 {
      r := Some(result + [("street1", addrParts[0])]);
    } else if |addrParts| == 2 {
      var rows := result;
      if StartsWithDigit(addrParts[0]) {
        rows := rows + [("street1", addrParts[0])];
        rows := rows + [("street2", addrParts[1])];
      } else {
        rows := rows + [("company", addrParts[0])];
        rows := rows + [("street1", addrParts[1])];
      }
      r := Some(rows);
    } else if |addrParts| >= 3 {
      var rows := result;
      rows := rows + [("company", addrParts[0])];
      rows := rows + [("street1", addrParts[1])];
      rows := rows + [("street2", addrParts[2])];
      r := Some(rows);
    } else {
      r := None;
    }
  }

  /** Fewer than two commas means fewer than three parts, which is rejected. */
  lemma ParseTooFewParts(addr: string)
    requires Count(addr, ',') < 2
    ensures ParseSpec(addr) == Failure(ValueError(TooFewPartsMessage + addr))
  {
    SplitLength(addr, ',');
  }

  /** No character of `s` is whitespace. */
  predicate NoSpace(s: string) {
    forall i :: 0 <= i < |s| ==> !IsSpace(s[i])
  }

  /**
   * `name` is the token `first` (non-empty, no whitespace), then, when
   * `last` is not empty, a non-empty whitespace run and `last`.
   */
  predicate NameSplit(name: string, first: string, last: string) {
    && first != "" && NoSpace(first)
    && (last == "" ==> name == first)
    && (last != "" ==> SpaceBetween(name, first, last))
  }

  /** `name` is `first`, then a non-empty whitespace run, then `last`. */
  predicate SpaceBetween(name: string, first: string, last: string) {
    && |first| < |name| - |last| && name[..|first|] == first && name[|name| - |last|..] == last
    && AllSpace(name[|first|..|name| - |last|])
  }

  /**
   * The name: firstName is the first whitespace-free token of the first
   * part, lastName the rest of that part after the whitespace run, or
   * empty.
   */
  lemma ParseName(addr: string, r: Dict<string>)
    requires ParseSpec(addr) == Success(r)
    ensures |r| >= 2 && r[0].0 == "firstName" && r[1].0 == "lastName" && NameSplit(Parts(addr)[0], r[0].1, r[1].1)
  {
    ParseSuccessShape(addr);
    var parts := Parts(addr);
    var name := parts[0];
    var w := SplitFirstWord(name);
    AssembledHead(w, ExtractSpec(parts[1..]).value, r);
    PartsAt(addr, 0);
    EntriesNameSplit(Split(addr, ',')[0], name, r);
  }

  /** Entries holding the words `split(None, 1)` gives for a stripped name split that name. */
  lemma EntriesNameSplit(part: string, name: string, r: Dict<string>)
    requires name == Strip(part) && |SplitFirstWord(name)| > 0 && |r| >= 2
    requires r[0] == ("firstName", SplitFirstWord(name)[0]) && r[1] == ("lastName", LastName(SplitFirstWord(name)))
    ensures r[0].0 == "firstName" && r[1].0 == "lastName" && NameSplit(name, r[0].1, r[1].1)
  {
    SplitFirstWordName(name);
  }

  /** The assembled dict starts with the name's two words, then the city, state and ZIP, in that order. */
  lemma AssembledHead(w: seq<string>, c: CityStateZip, r: Dict<string>)
    requires |w| > 0 && |c.preceding| > 0 && r == Assembled(w, c)
    ensures |r| >= 5 && r[0] == ("firstName", w[0]) && r[1] == ("lastName", LastName(w))
    ensures r[2] == ("city", c.city) && r[3] == ("state", c.state) && r[4] == ("zip", c.zip)
  {
    var head := NameAndPlace(w, c);
    assert r == head + StreetEntries(c.preceding);
    assert r[0] == head[0] && r[1] == head[1] && r[2] == head[2] && r[3] == head[3] && r[4] == head[4];
  }

  /** A successful parse is the assembled dict of the name's words and the extraction's result. */
  lemma ParseSuccessShape(addr: string)
    requires ParseSpec(addr).Success?
    ensures |Parts(addr)| >= 3 && |SplitFirstWord(Parts(addr)[0])| > 0
    ensures ExtractSpec(Parts(addr)[1..]).Some? && |ExtractSpec(Parts(addr)[1..]).value.preceding| > 0
    ensures ParseSpec(addr).value == Assembled(SplitFirstWord(Parts(addr)[0]), ExtractSpec(Parts(addr)[1..]).value)
  {
  }

  /** `s.split(None, 1)` on a stripped string: token, whitespace run, rest. */
  lemma SplitFirstWordName(s: string)
    requires s != [] && !IsSpace(s[0]) && !IsSpace(s[|s| - 1])
    ensures var r := SplitFirstWord(s);
            |r| >= 1 && NameSplit(s, r[0], LastName(r))
  {
    assert LStrip(s) == s;
    var i := FirstSpace(s);
    if i < |s| {
      SplitAtSpace(s, i);
    } else {
      forall j | 0 <= j < |s| ensures !IsSpace(s[j]) {
        FirstSpaceBefore(s, j);
      }
    }
  }

  /** Splitting a stripped string at its first whitespace character gives the token and the rest. */
  lemma SplitAtSpace(s: string, i: nat)
    requires s != [] && !IsSpace(s[0]) && !IsSpace(s[|s| - 1])
    requires i == FirstSpace(s) && i < |s|
    ensures SplitFirstWord(s) == [s[..i], LStrip(s[i..])]
    ensures NameSplit(s, s[..i], LStrip(s[i..]))
  {
    assert LStrip(s) == s;
    var u := s[i..];
    assert u[|u| - 1] == s[|s| - 1];
    LStripNonEmpty(u);
    forall j | 0 <= j < i ensures !IsSpace(s[j]) {
      FirstSpaceBefore(s, j);
    }
    TokenGapRest(s, i);
  }

  /** Stripping leading whitespace leaves something when the last character is not whitespace. */
  lemma LStripNonEmpty(u: string)
    requires u != [] && !IsSpace(u[|u| - 1])
    ensures LStrip(u) != []
  {
    LStripDropsSpace(u);
  }

  /** The token before position `i`, the whitespace run from `i`, and what follows it. */
  lemma TokenGapRest(s: string, i: nat)
    requires 0 < i < |s| && IsSpace(s[i]) && forall j :: 0 <= j < i ==> !IsSpace(s[j])
    requires LStrip(s[i..]) != []
    ensures NameSplit(s, s[..i], LStrip(s[i..]))
  {
    assert NoSpace(s[..i]) by {
      forall j | 0 <= j < i ensures !IsSpace(s[..i][j]) {
        assert s[..i][j] == s[j];
      }
    }
    GapThenRest(s, i);
  }

  /** From a whitespace character at `i`, the run of whitespace is non-empty and the rest follows it. */
  lemma GapThenRest(s: string, i: nat)
    requires 0 < i < |s| && IsSpace(s[i])
    requires LStrip(s[i..]) != []
    ensures SpaceBetween(s, s[..i], LStrip(s[i..]))
  {
    var u := s[i..];
    var rest := LStrip(u);
    var k := |u| - |rest|;
    SliceOfSlice(s, i, k);
    LStripDropsSpace(u);
    SpaceRunBetween(s, i, k, rest);
  }

  /** A non-empty whitespace run from `i` of length `k` separates what precedes it from what follows it. */
  lemma SpaceRunBetween(s: string, i: nat, k: nat, rest: string)
    requires 0 < k && i + k <= |s| && rest == s[i + k..] && AllSpace(s[i..i + k])
    ensures SpaceBetween(s, s[..i], rest)
  {
    assert |s[..i]| == i && i + k == |s| - |rest|;
  }

  /** Slices of a suffix are slices of the whole. */
  lemma SliceOfSlice(s: string, i: nat, j: nat)
    requires i <= |s| && j <= |s| - i
    ensures s[i..][..j] == s[i..i + j] && s[i..][j..] == s[i + j..]
  {
  }

  /**
   * The street layout: one part is street1; two are street1 and street2
   * when the first begins with a digit, else company and street1; three or
   * more are company, street1 and street2, and the rest is dropped; none
   * is an error.
   */
  lemma ParseStreets(addr: string)
    requires |Parts(addr)| >= 3 && SplitFirstWord(Parts(addr)[0]) != []
    requires ExtractSpec(Parts(addr)[1..]).Some?
    ensures var street := ExtractSpec(Parts(addr)[1..]).value.preceding;
            var r := ParseSpec(addr);
            && (|street| == 0 <==> r == Failure(ValueError(NoStreetMessage + addr)))
            && (|street| == 1 ==> r.Success? && r.value[5..] == [("street1", street[0])])
            && (|street| == 2 && StartsWithDigit(street[0]) ==> r.Success? && r.value[5..] == [("street1", street[0]), ("street2", street[1])])
            && (|street| == 2 && !StartsWithDigit(street[0]) ==> r.Success? && r.value[5..] == [("company", street[0]), ("street1", street[1])])
            && (|street| >= 3 ==> r.Success? && r.value[5..] == [("company", street[0]), ("street1", street[1]), ("street2", street[2])])
  {
  }

  /** The result always carries the city, state and ZIP the extraction found, right after the name. */
  lemma ParseCityStateZip(addr: string)
    requires ParseSpec(addr).Success?
    ensures |Parts(addr)| >= 3 && ExtractSpec(Parts(addr)[1..]).Some?
    ensures var c := ExtractSpec(Parts(addr)[1..]).value;
            var r := ParseSpec(addr).value;
            |r| >= 5 && r[2] == ("city", c.city) && r[3] == ("state", c.state) && r[4] == ("zip", c.zip)
  {
    ParseSuccessShape(addr);
    AssembledHead(SplitFirstWord(Parts(addr)[0]), ExtractSpec(Parts(addr)[1..]).value, ParseSpec(addr).value);
  }

  /** The state and ZIP of a parsed address are a two-capital code and a ZIP or ZIP+4. */
  lemma ParsedStateZip(addr: string)
    requires ParseSpec(addr).Success?
    ensures var r := ParseSpec(addr).value;
            |r| >= 5 && r[3].0 == "state" && IsStateCode(r[3].1) && r[4].0 == "zip" && IsZip(r[4].1)
  {
    ParseCityStateZip(addr);
    ExtractSpecShape(Parts(addr)[1..]);
  }

  /** With enough parts and a name, finding no city/state/ZIP is the error. */
  lemma ParseNoCityStateZip(addr: string)
    requires |Parts(addr)| >= 3 && SplitFirstWord(Parts(addr)[0]) != []
    requires ExtractSpec(Parts(addr)[1..]).None?
    ensures ParseSpec(addr) == Failure(ValueError(NoCityStateZipMessage + addr + ExpectedFormatHint))
  {
  }
}
