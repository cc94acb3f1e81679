/**
 * `normalize_csv_row` of the CLI (handwrytten/cli/address_parser.py):
 * CSV headers mapped onto the API's recipient field names.
 */
module CsvHeaders {
  import opened Wrappers
  import opened Text
  import opened Dicts

  // ---------------------------------------------------------------------
  // normalize_csv_row
  // ---------------------------------------------------------------------

  /** The API names the header aliases lead to. */
  predicate IsApiField(k: string) {
    k == "firstName" || k == "lastName" || k == "street1" || k == "street2" || k == "city"
    || k == "state" || k == "zip" || k == "company" || k == "country"
  }

  /** The header alias table. */
  function CsvAlias(k: string): (r: Option<string>)
    ensures r.Some? ==> IsApiField(r.value)
  {
    match k
    case "first_name" => Some("firstName")
    case "firstname" => Some("firstName")
    case "first name" => Some("firstName")
    case "fname" => Some("firstName")
    case "last_name" => Some("lastName")
    case "lastname" => Some("lastName")
    case "last name" => Some("lastName")
    case "lname" => Some("lastName")
    case "street" => Some("street1")
    case "address" => Some("street1")
    case "address1" => Some("street1")
    case "address_1" => Some("street1")
    case "street_1" => Some("street1")
    case "address2" => Some("street2")
    case "address_2" => Some("street2")
    case "street_2" => Some("street2")
    case "apt" => Some("street2")
    case "unit" => Some("street2")
    case "suite" => Some("street2")
    case "city" => Some("city")
    case "state" => Some("state")
    case "province" => Some("state")
    case "st" => Some("state")
    case "zip" => Some("zip")
    case "zipcode" => Some("zip")
    case "zip_code" => Some("zip")
    case "postal" => Some("zip")
    case "postal_code" => Some("zip")
    case "postalcode" => Some("zip")
    case "company" => Some("company")
    case "organization" => Some("company")
    case "org" => Some("company")
    case "country" => Some("country")
    case "firstName" => Some("firstName")
    case "lastName" => Some("lastName")
    case "street1" => Some("street1")
    case "street2" => Some("street2")
    case _ => None
  }

  /** `mapping.get(key.strip().lower(), key.strip())` */
  function NormalizedKey(key: string): (r: string)
    ensures r == Strip(key) || IsApiField(r)
  {
    var s := Strip(key);
    match CsvAlias(Lower(s))
    case Some(t) => t
    case None => s
  }

  /** Header matching ignores case and surrounding whitespace: headers that agree once stripped and lower-cased normalise alike. */
  lemma NormalizedKeyIgnoresCase(a: string, b: string)
    requires Lower(Strip(a)) == Lower(Strip(b)) && CsvAlias(Lower(Strip(a))).Some?
    ensures NormalizedKey(a) == NormalizedKey(b) == CsvAlias(Lower(Strip(a))).value
  {
  }

  /** An upper-case alias is recognised. */
  lemma NormalizedKeyUpperCase()
    ensures NormalizedKey("ZIP") == "zip"
  {
    StripOfStripped("ZIP");
    LowerZip();
    assert CsvAlias("zip") == Some("zip");
  }

  lemma LowerZip()
    ensures Lower("ZIP") == "zip"
  {
    assert Lower("ZIP") == "zip";
  }

  /** Entry `e` of a row is kept under target key `t`: its value is not blank and its header normalises to `t`. */
  predicate Keeps(e: (string, string), t: string) {
    Strip(e.1) != "" && NormalizedKey(e.0) == t
  }

  /** The dict `normalize_csv_row(row)` returns. */
  function Normalized(row: Dict<string>): (r: Dict<string>)
    ensures forall k :: HasKey(r, k) ==> Get(r, k).value != ""
    ensures UniqueKeys(r)
    decreases |row|
  {
    if row == [] then []
    else
      var init := Normalized(row[..|row| - 1]);
      var last := row[|row| - 1];
      if Strip(last.1) != "" then
        var t := NormalizedKey(last.0);
        var r := Put(init, t, Strip(last.1));
        PutUnique(init, t, Strip(last.1));
        forall k | HasKey(r, k) && k != t ensures Get(r, k) == Get(init, k) {
          assert Get(r, k) == Get(init, k);
        }
        r
      else init
  }

  /** `normalize_csv_row`, accumulating the result column by column. */
  method NormalizeCsvRow(row: Dict<string>) returns (result: Dict<string>)
    ensures result == Normalized(row)
  {
    result := [];
    var i := 0;
    while i < |row|
      invariant 0 <= i <= |row|
      invariant result == Normalized(row[..i])
    {
      var (key, value) := row[i];
      assert row[..i + 1][..i] == row[..i];
      var normalizedKey := NormalizedKey(key);
      if value != "" && Strip(value) != "" {
        result := Put(result, normalizedKey, Strip(value));
      }
      i := i + 1;
    }
    assert row[..|row|] == row;
  }

  /** A target key is present exactly when some column with a non-blank value normalises to it. */
  lemma {:induction false} NormalizedHasKey(row: Dict<string>, t: string)
    ensures HasKey(Normalized(row), t) <==> exists i :: 0 <= i < |row| && Keeps(row[i], t)
    decreases |row|
  {
    if row != [] {
      var n := |row| - 1;
      var init := row[..n];
      NormalizedHasKey(init, t);
      if Keeps(row[n], t) {
        assert Normalized(row) == Put(Normalized(init), t, Strip(row[n].1));
      } else {
        assert Get(Normalized(row), t) == Get(Normalized(init), t);
        KeptBeforeLast(row, init, t);
      }
    }
  }

  /** When the last column is not kept under `t`, any column kept under `t` comes before it. */
  lemma KeptBeforeLast(row: Dict<string>, init: Dict<string>, t: string)
    requires row != [] && init == row[..|row| - 1] && !Keeps(row[|row| - 1], t)
    ensures (exists i :: 0 <= i < |row| && Keeps(row[i], t)) <==> exists i :: 0 <= i < |init| && Keeps(init[i], t)
  {
    if exists i :: 0 <= i < |row| && Keeps(row[i], t) {
      var i :| 0 <= i < |row| && Keeps(row[i], t);
      if i == |init| {
        assert false;
      }
      PrefixAt(row, |init|, i);
    }
    if exists i :: 0 <= i < |init| && Keeps(init[i], t) {
      var i :| 0 <= i < |init| && Keeps(init[i], t);
      PrefixAt(row, |init|, i);
    }
  }

  /** An element of a prefix is the element at the same index of the whole. */
  lemma PrefixAt<T>(s: seq<T>, n: nat, i: nat)
    requires i < n <= |s|
    ensures s[..n][i] == s[i]
  {
  }

  /** A target key holds the stripped value of the LAST column kept under it: later columns overwrite earlier ones. */
  lemma {:induction false} NormalizedLastWriter(row: Dict<string>, t: string, i: nat)
    requires i < |row| && Keeps(row[i], t)
    requires forall j :: i < j < |row| ==> !Keeps(row[j], t)
    ensures Get(Normalized(row), t) == Some(Strip(row[i].1))
    decreases |row|
  {
    var n := |row| - 1;
    var init := row[..n];
    if i == n {
      assert Normalized(row) == Put(Normalized(init), t, Strip(row[n].1));
    } else {
      assert !Keeps(row[n], t);
      assert Get(Normalized(row), t) == Get(Normalized(init), t);
      assert init[i] == row[i];
      forall j | i < j < n ensures !Keeps(init[j], t) {
        assert init[j] == row[j];
      }
      NormalizedLastWriter(init, t, i);
    }
  }
}
