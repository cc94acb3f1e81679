/**
 * Request shaping in handwrytten/resources.py: flattening friendly address
 * dicts into prefixed wire fields, the recipient/sender resolution of
 * `OrdersResource.send`, the address conversion of `BasketResource.add_order`,
 * and the small argument rules of `CustomCardsResource`.
 */
module Resources {
  import opened Wrappers
  import opened Text
  import opened Dicts
  import opened Values
  import opened Addresses
  import opened Models

  // ---------------------------------------------------------------------
  // _CAMEL_TO_API and _flatten_address
  // ---------------------------------------------------------------------

  /** The nine friendly address keys that `_CAMEL_TO_API` knows. */
  predicate IsFriendlyKey(k: string) {
    IsRequiredKey(k) || k == "street2" || k == "company"
  }

  /** `_CAMEL_TO_API.get(key, key)`: the wire name of a friendly key; other keys are kept. */
  function ApiSuffix(key: string): (s: string)
    ensures !IsFriendlyKey(key) ==> s == key
  {
    match key
    case "firstName" => "first_name"
    case "lastName" => "last_name"
    case "street1" => "address1"
    case "street2" => "address2"
    case "company" => "business_name"
    case _ => key
  }

  /** Distinct friendly keys have distinct wire names, so flattening a `to_dict` result loses nothing. */
  lemma ApiSuffixInjective(a: string, b: string)
    requires IsFriendlyKey(a) && IsFriendlyKey(b) && a != b
    ensures ApiSuffix(a) != ApiSuffix(b)
  {
  }

  /** `f"{prefix}_{api_suffix}"` */
  function WireKey(prefix: string, key: string): (w: string)
    ensures StartsWith(w, prefix + "_")
    ensures w[|prefix| + 1..] == ApiSuffix(key)
  {
    prefix + "_" + ApiSuffix(key)
  }

  /** Entry `e` of the input is written to wire key `key`. */
  predicate Writes(e: (string, Value), prefix: string, key: string) {
    e.1 != VNone && WireKey(prefix, e.0) == key
  }

  /**
   * The dict `_flatten_address(data, prefix)` returns: the entries of `data`
   * in order, None values skipped, each stored under its wire key.
   */
  function Flattened(data: Dict<Value>, prefix: string): (r: Dict<Value>)
    ensures forall k :: HasKey(r, k) ==> StartsWith(k, prefix + "_")
    ensures forall k :: HasKey(r, k) ==> Get(r, k).value != VNone
    ensures UniqueKeys(r)
    decreases |data|
  {
    if data == [] then []
    else
      var init := Flattened(data[..|data| - 1], prefix);
      var last := data[|data| - 1];
      if last.1 == VNone then init
      else
        var w := WireKey(prefix, last.0);
        var r := Put(init, w, last.1);
        PutUnique(init, w, last.1);
        forall k | HasKey(r, k) && k != w ensures HasKey(init, k) && Get(r, k) == Get(init, k) {
          assert Get(r, k) == Get(init, k);
        }
        r
  }

  /** `_flatten_address(data, prefix)`, filling the result dict entry by entry. */
  method FlattenAddress(data: Dict<Value>, prefix: string) returns (result: Dict<Value>)
    ensures result == Flattened(data, prefix)
  {
    result := [];
    var i := 0;
    while i < |data|
      invariant 0 <= i <= |data|
      invariant result == Flattened(data[..i], prefix)
    {
      var (key, value) := data[i];
      assert data[..i + 1][..i] == data[..i];
      if value != VNone {
        result := Put(result, WireKey(prefix, key), value);
      }
      i := i + 1;
    }
    assert data[..|data|] == data;
  }

  /** A wire key is present exactly when some non-None entry maps to it. */
  lemma {:induction false} FlattenedHasKey(data: Dict<Value>, prefix: string, key: string)
    ensures HasKey(Flattened(data, prefix), key) <==> exists i :: 0 <= i < |data| && Writes(data[i], prefix, key)
    decreases |data|
  {
    if data != [] {
      var n := |data| - 1;
      var init := data[..n];
      FlattenedHasKey(init, prefix, key);
      if Writes(data[n], prefix, key) {
        assert Flattened(data, prefix) == Put(Flattened(init, prefix), key, data[n].1);
      } else {
        assert Get(Flattened(data, prefix), key) == Get(Flattened(init, prefix), key);
        if exists i :: 0 <= i < |data| && Writes(data[i], prefix, key) {
          var i :| 0 <= i < |data| && Writes(data[i], prefix, key);
          if i == n {
            assert false;
          }
          assert init[i] == data[i];
        }
        if exists i :: 0 <= i < n && Writes(init[i], prefix, key) {
          var i :| 0 <= i < n && Writes(init[i], prefix, key);
          assert init[i] == data[i];
        }
      }
    }
  }

  /** A wire key holds the value of the LAST entry that maps to it: later entries overwrite earlier ones. */
  lemma {:induction false} FlattenedLastWriter(data: Dict<Value>, prefix: string, key: string, i: nat)
    requires i < |data| && Writes(data[i], prefix, key)
    requires forall j :: i < j < |data| ==> !Writes(data[j], prefix, key)
    ensures Get(Flattened(data, prefix), key) == Some(data[i].1)
    decreases |data|
  {
    var n := |data| - 1;
    var init := data[..n];
    if i == n {
      assert Flattened(data, prefix) == Put(Flattened(init, prefix), key, data[n].1);
    } else {
      assert !Writes(data[n], prefix, key);
      assert Get(Flattened(data, prefix), key) == Get(Flattened(init, prefix), key);
      assert init[i] == data[i];
      forall j | i < j < n ensures !Writes(init[j], prefix, key) {
        assert init[j] == data[j];
      }
      FlattenedLastWriter(init, prefix, key, i);
    }
  }

  /**
   * Flattening renames: when no other key of `data` shares `k`'s wire name,
   * the wire key holds `k`'s value unchanged, and is absent exactly when
   * `k` is missing or None. Empty strings and other falsy values are kept.
   */
  lemma FlattenedRename(data: Dict<Value>, prefix: string, k: string)
    requires UniqueKeys(data)
    requires forall i :: 0 <= i < |data| && data[i].0 != k ==> ApiSuffix(data[i].0) != ApiSuffix(k)
    ensures Get(Flattened(data, prefix), WireKey(prefix, k))
            == if HasKey(data, k) && Get(data, k).value != VNone then Get(data, k) else None
  {
    var key := WireKey(prefix, k);
    FlattenedHasKey(data, prefix, key);
    forall i | 0 <= i < |data| && Writes(data[i], prefix, key) ensures data[i].0 == k {
      assert WireKey(prefix, data[i].0)[|prefix| + 1..] == key[|prefix| + 1..];
    }
    if HasKey(data, k) {
      var f := Find(data, k);
      GetFirst(data, f, k);
      if data[f].1 != VNone {
        FlattenedLastWriter(data, prefix, key, f);
      }
    }
  }

  /** One friendly field of a flattened `to_dict()`. */
  lemma FlattenedAddressField(a: AddressRecord, prefix: string, k: string)
    requires IsFriendlyKey(k)
    ensures Get(Flattened(StrValues(ToDict(a)), prefix), WireKey(prefix, k))
            == if HasKey(ToDict(a), k) then Some(VStr(Get(ToDict(a), k).value)) else None
  {
    var d := ToDict(a);
    var data := StrValues(d);
    forall i | 0 <= i < |data| && data[i].0 != k ensures ApiSuffix(data[i].0) != ApiSuffix(k) {
      HasKeyAt(d, i);
      ApiSuffixInjective(data[i].0, k);
    }
    FlattenedRename(data, prefix, k);
    GetStrValues(d, k);
  }

  /** Flattening `to_dict()`: the seven required fields always, street2 and company only when truthy. */
  lemma FlattenedAddress(a: AddressRecord, prefix: string)
    ensures var f := Flattened(StrValues(ToDict(a)), prefix);
            && Get(f, WireKey(prefix, "firstName")) == Some(VStr(a.firstName))
            && Get(f, WireKey(prefix, "lastName")) == Some(VStr(a.lastName))
            && Get(f, WireKey(prefix, "street1")) == Some(VStr(a.street1))
            && Get(f, WireKey(prefix, "city")) == Some(VStr(a.city))
            && Get(f, WireKey(prefix, "state")) == Some(VStr(a.state))
            && Get(f, WireKey(prefix, "zip")) == Some(VStr(a.zip))
            && Get(f, WireKey(prefix, "country")) == Some(VStr(a.country))
            && Get(f, WireKey(prefix, "street2")) == (if Present(a.street2) then Some(VStr(a.street2.value)) else None)
            && Get(f, WireKey(prefix, "company")) == (if Present(a.company) then Some(VStr(a.company.value)) else None)
  {
    FlattenedAddressField(a, prefix, "firstName");
    FlattenedAddressField(a, prefix, "lastName");
    FlattenedAddressField(a, prefix, "street1");
    FlattenedAddressField(a, prefix, "city");
    FlattenedAddressField(a, prefix, "state");
    FlattenedAddressField(a, prefix, "zip");
    FlattenedAddressField(a, prefix, "country");
    FlattenedAddressField(a, prefix, "street2");
    FlattenedAddressField(a, prefix, "company");
  }

  /**
   * `_flatten_address` on any value: a dict is flattened; anything else
   * has no `.items()` and raises AttributeError.
   */
  function FlattenValue(v: Value, prefix: string): (r: Result<Dict<Value>, PyError>)
    ensures r.Success? <==> v.VDict?
    ensures r.Success? ==> r.value == Flattened(v.entries, prefix)
    ensures r.Failure? ==> r.error.AttributeError?
  {
    if v.VDict? then Success(Flattened(v.entries, prefix))
    else Failure(AttributeError(NoItemsMessage))
  }

  // ---------------------------------------------------------------------
  // OrdersResource.send: sender and recipient resolution
  // ---------------------------------------------------------------------

  /** The messages of the built-in errors the resources raise. */
  const NoItemsMessage := "object has no attribute 'items'"
  const NoGetMessage := "object has no attribute 'get'"
  const NotIterableMessage := "object is not iterable"
  const BothSourcesMessage := "Provide either url or file_path, not both"
  const NoSourceMessage := "Provide either url or file_path"

  /** The message `send` raises for a recipient of any other type. */
  const RecipientTypeMessage := "Each recipient must be a Recipient, dict, or int"

  /** What `_flatten_address(..., "from")` yields: distinct keys, all starting with "from_". */
  ghost predicate FromFields(f: Dict<Value>) {
    UniqueKeys(f) && forall k :: HasKey(f, k) ==> StartsWith(k, "from_")
  }

  /** The from_* fields of a sender that is not an int: a `Sender` goes through `to_dict()` first. */
  function SenderFields(s: Value): (r: Result<Dict<Value>, PyError>)
    ensures r.Success? <==> s.VSender? || s.VDict?
    ensures r.Success? ==> FromFields(r.value)
    ensures r.Failure? ==> r.error.AttributeError?
  {
    assert "from" + "_" == "from_";
    if s.VSender? then Success(Flattened(StrValues(ToDict(s.sender)), "from"))
    else FlattenValue(s, "from")
  }

  /** `sender_id` and `default_sender_fields` after the sender block of `send`. */
  datatype SenderPlan = SenderPlan(senderId: Value, defaultFields: Option<Dict<Value>>)

  /**
   * The sender block: an int sender replaces `return_address_id` as the
   * request-level sender id; a `Sender` or dict becomes the default from_*
   * fields; None changes nothing; anything else fails in `_flatten_address`.
   */
  function ResolveSender(sender: Value, returnAddressId: Value): (r: Result<SenderPlan, PyError>)
    ensures r.Success? <==> sender == VNone || IsInt(sender) || sender.VSender? || sender.VDict?
    ensures r.Success? ==> r.value.senderId == if IsInt(sender) then sender else returnAddressId
    ensures r.Success? ==> (r.value.defaultFields.Some? <==> sender.VSender? || sender.VDict?)
    ensures r.Success? && r.value.defaultFields.Some? ==> FromFields(r.value.defaultFields.value)
  {
    if sender == VNone then Success(SenderPlan(returnAddressId, None))
    else if IsInt(sender) then Success(SenderPlan(sender, None))
    else
      match SenderFields(sender)
      case Failure(e) => Failure(e)
      case Success(f) => Success(SenderPlan(returnAddressId, Some(f)))
  }

  /** A dict recipient after `message`, `wishes` and `sender` are popped from its copy. */
  function Rest(entries: Dict<Value>): (r: Dict<Value>)
    ensures !HasKey(r, "message") && !HasKey(r, "wishes") && !HasKey(r, "sender")
    ensures forall k :: k != "message" && k != "wishes" && k != "sender" ==> Get(r, k) == Get(entries, k)
  {
    var r1 := Remove(entries, "message");
    var r2 := Remove(r1, "wishes");
    var r3 := Remove(r2, "sender");
    assert Get(r3, "message") == Get(r2, "message") == Get(r1, "message");
    assert Get(r3, "wishes") == Get(r2, "wishes");
    r3
  }

  /** The address part of a dict recipient's row: passed through if a key starts with "to_", else flattened with "to". */
  function DictAddress(rest: Dict<Value>): Dict<Value> {
    if AnyKeyStartsWith(rest, "to_") then rest else Flattened(rest, "to")
  }

  /** A dict recipient's address with its own message and wishes re-attached when not None. */
  function DictBase(entries: Dict<Value>): Dict<Value> {
    var rowMessage := Lookup(entries, "message");
    var rowWishes := Lookup(entries, "wishes");
    var row0 := DictAddress(Rest(entries));
    var row1 := if rowMessage != VNone then Put(row0, "message", rowMessage) else row0;
    if rowWishes != VNone then Put(row1, "wishes", rowWishes) else row1
  }

  /** The row of a dict recipient, before the call-level defaults. */
  function DictRow(entries: Dict<Value>): Result<Dict<Value>, PyError> {
    var rowSender := Lookup(entries, "sender");
    var row2 := DictBase(entries);
    if rowSender == VNone then Success(row2)
    else if IsInt(rowSender) then Success(Put(row2, "return_address_id", rowSender))
    else
      match SenderFields(rowSender)
      case Failure(e) => Failure(e)
      case Success(f) => Success(Update(row2, f))
  }

  /** The row of one recipient before the call-level defaults, by the recipient's type. */
  function BaseRow(r: Value): Result<Dict<Value>, PyError> {
    if IsInt(r) then Success([("address_id", r)])
    else if r.VRecipient? then Success(Flattened(StrValues(ToDict(r.recipient)), "to"))
    else if r.VDict? then DictRow(r.entries)
    else Failure(TypeError(RecipientTypeMessage))
  }

  /**
   * The call-level message and wishes, each added when the row lacks it and
   * it is not None. Nothing else changes, so neither does whether the row
   * names a sender.
   */
  function WithOverrides(row: Dict<Value>, message: Value, wishes: Value): (r: Dict<Value>)
    ensures forall k :: k != "message" && k != "wishes" ==> Get(r, k) == Get(row, k)
    ensures AnyKeyStartsWith(r, "from_") <==> AnyKeyStartsWith(row, "from_")
    ensures HasKey(r, "return_address_id") <==> HasKey(row, "return_address_id")
  {
    var row1 := if !HasKey(row, "message") && message != VNone then Put(row, "message", message) else row;
    var row2 := if !HasKey(row1, "wishes") && wishes != VNone then Put(row1, "wishes", wishes) else row1;
    assert forall k :: k != "message" && k != "wishes" ==> Get(row2, k) == Get(row, k);
    SameOutsideOverrides(row, row2);
    assert Get(row2, "return_address_id") == Get(row, "return_address_id");
    row2
  }

  /** Two dicts that agree outside message and wishes agree on having a from_* key. */
  lemma SameOutsideOverrides(a: Dict<Value>, b: Dict<Value>)
    requires forall k :: k != "message" && k != "wishes" ==> Get(a, k) == Get(b, k)
    ensures AnyKeyStartsWith(a, "from_") <==> AnyKeyStartsWith(b, "from_")
  {
    OverrideKeysArePlain("message");
    OverrideKeysArePlain("wishes");
    if AnyKeyStartsWith(a, "from_") {
      var k := AnyKeyStartsWithKey(a, "from_");
      assert Get(a, k) == Get(b, k);
      AnyKeyStartsWithHasKey(b, k, "from_");
    }
    if AnyKeyStartsWith(b, "from_") {
      var k := AnyKeyStartsWithKey(b, "from_");
      assert Get(a, k) == Get(b, k);
      AnyKeyStartsWithHasKey(a, k, "from_");
    }
  }

  /**
   * The call-level defaults: message and wishes when the row lacks them and
   * they are not None, then the default sender fields when the row has no
   * from_* key and no return_address_id.
   */
  function WithDefaults(row: Dict<Value>, message: Value, wishes: Value, defaultFields: Option<Dict<Value>>): Dict<Value> {
    var row2 := WithOverrides(row, message, wishes);
    if defaultFields.Some? && !AnyKeyStartsWith(row2, "from_") && !HasKey(row2, "return_address_id")
    then Update(row2, defaultFields.value)
    else row2
  }

  /** The row `send` appends for one recipient. */
  function RowFor(r: Value, message: Value, wishes: Value, defaultFields: Option<Dict<Value>>): Result<Dict<Value>, PyError> {
    match BaseRow(r)
    case Failure(e) => Failure(e)
    case Success(row) => Success(WithDefaults(row, message, wishes, defaultFields))
  }

  /** `rows` in front of the rows of a later stretch of recipients, or that stretch's error. */
  function Prepend<T>(rows: seq<T>, r: Result<seq<T>, PyError>): Result<seq<T>, PyError> {
    match r
    case Success(rest) => Success(rows + rest)
    case Failure(e) => Failure(e)
  }

  /** All the values of a run of results, or the first error among them. */
  function Collect<T>(results: seq<Result<T, PyError>>): Result<seq<T>, PyError>
    decreases |results|
  {
    if results == [] then Success([])
    else
      match results[0]
      case Failure(e) => Failure(e)
      case Success(x) => Prepend([x], Collect(results[1..]))
  }

  /** `Collect` succeeds exactly when every result does, keeping order; otherwise the first error wins. */
  lemma {:induction false} CollectSpec<T>(results: seq<Result<T, PyError>>)
    ensures var r := Collect(results);
            && (r.Success? <==> forall i :: 0 <= i < |results| ==> results[i].Success?)
            && (r.Success? ==> |r.value| == |results| && forall i :: 0 <= i < |results| ==> results[i] == Success(r.value[i]))
            && (r.Failure? ==> exists i :: 0 <= i < |results| && results[i] == Failure(r.error)
                                           && forall j :: 0 <= j < i ==> results[j].Success?)
    decreases |results|
  {
    if results != [] {
      var tail := Collect(results[1..]);
      CollectSpec(results[1..]);
      assert forall i :: 0 < i < |results| ==> results[i] == results[1..][i - 1];
      if results[0].Success? && tail.Failure? {
        var i :| 0 <= i < |results| - 1 && results[1..][i] == Failure(tail.error)
                 && forall j :: 0 <= j < i ==> results[1..][j].Success?;
        assert results[i + 1] == Failure(tail.error);
      }
    }
  }

  /** One more success moves from the unprocessed results to the collected prefix. */
  /** Before the loop: nothing collected, every result still ahead. */
  lemma CollectStart<T>(results: seq<Result<T, PyError>>)
    ensures Collect(results) == Prepend([], Collect(results[0..]))
  {
    assert results[0..] == results;
    if Collect(results).Success? {
      assert [] + Collect(results).value == Collect(results).value;
    }
  }

  /** After the loop: the values collected so far are the whole result. */
  lemma CollectDone<T>(done: seq<T>, results: seq<Result<T, PyError>>)
    ensures Prepend(done, Collect(results[|results|..])) == Success(done)
  {
    assert results[|results|..] == [];
    assert done + [] == done;
  }

  lemma CollectStep<T>(done: seq<T>, results: seq<Result<T, PyError>>, i: nat)
    requires i < |results|
    ensures results[i].Success? ==> Prepend(done, Collect(results[i..])) == Prepend(done + [results[i].value], Collect(results[i + 1..]))
    ensures results[i].Failure? ==> Prepend(done, Collect(results[i..])) == Failure(results[i].error)
  {
    assert results[i..][1..] == results[i + 1..];
    if results[i].Success? {
      match Collect(results[i + 1..])
      case Success(rest) => assert done + ([results[i].value] + rest) == (done + [results[i].value]) + rest;
      case Failure(e) =>
    }
  }

  /** The per-recipient outcomes of the loop in `send`. */
  function RowResults(rs: seq<Value>, message: Value, wishes: Value, defaultFields: Option<Dict<Value>>): (r: seq<Result<Dict<Value>, PyError>>)
    ensures |r| == |rs|
    ensures forall i :: 0 <= i < |rs| ==> r[i] == RowFor(rs[i], message, wishes, defaultFields)
  {
    seq(|rs|, i requires 0 <= i < |rs| => RowFor(rs[i], message, wishes, defaultFields))
  }

  /** The rows of a list of recipients. */
  function Rows(rs: seq<Value>, message: Value, wishes: Value, defaultFields: Option<Dict<Value>>): Result<seq<Dict<Value>>, PyError> {
    Collect(RowResults(rs, message, wishes, defaultFields))
  }

  /**
   * `send` emits exactly one row per recipient, in input order, or fails
   * with the error of the first recipient whose row fails.
   */
  lemma RowsSpec(rs: seq<Value>, message: Value, wishes: Value, defaultFields: Option<Dict<Value>>)
    ensures var r := Rows(rs, message, wishes, defaultFields);
            && (r.Success? <==> forall i :: 0 <= i < |rs| ==> RowFor(rs[i], message, wishes, defaultFields).Success?)
            && (r.Success? ==> |r.value| == |rs|
                               && forall i :: 0 <= i < |rs| ==> RowFor(rs[i], message, wishes, defaultFields) == Success(r.value[i]))
            && (r.Failure? ==> exists i :: 0 <= i < |rs| && RowFor(rs[i], message, wishes, defaultFields) == Failure(r.error)
                                           && forall j :: 0 <= j < i ==> RowFor(rs[j], message, wishes, defaultFields).Success?)
  {
    CollectSpec(RowResults(rs, message, wishes, defaultFields));
  }

  /** `if not isinstance(recipient, list): recipient = [recipient]` */
  function RecipientList(recipient: Value): (rs: seq<Value>)
    ensures !recipient.VList? ==> rs == [recipient]
  {
    if recipient.VList? then recipient.items else [recipient]
  }

  /** The request-level sender id and the address rows `send` hands to `add_order`. */
  datatype Resolution = Resolution(senderId: Value, addresses: seq<Dict<Value>>)

  /** Sender resolution, then one row per recipient. */
  function ResolveSend(recipient: Value, message: Value, wishes: Value, sender: Value, returnAddressId: Value): Result<Resolution, PyError> {
    match ResolveSender(sender, returnAddressId)
    case Failure(e) => Failure(e)
    case Success(plan) =>
      match Rows(RecipientList(recipient), message, wishes, plan.defaultFields)
      case Failure(e) => Failure(e)
      case Success(rows) => Success(Resolution(plan.senderId, rows))
  }

  /** `_flatten_address(sender, "from")` for a sender that is not an int, after `to_dict()` for a `Sender`. */
  method FlattenSender(sender: Value) returns (res: Result<Dict<Value>, PyError>)
    ensures res == SenderFields(sender)
  {
    var senderDict := sender;
    if senderDict.VSender? {
      senderDict := VDict(StrValues(ToDict(senderDict.sender)));
    }
    if !senderDict.VDict? {
      return Failure(AttributeError(NoItemsMessage));
    }
    var fields := FlattenAddress(senderDict.entries, "from");
    return Success(fields);
  }

  /** A dict recipient's row: pop the overrides from a copy, flatten or pass through, re-attach. */
  method BuildDictRow(entries: Dict<Value>) returns (res: Result<Dict<Value>, PyError>)
    ensures res == DictRow(entries)
  {
    var copy := entries;
    var rowMessage := Lookup(copy, "message");
    copy := Remove(copy, "message");
    var rowWishes := Lookup(copy, "wishes");
    copy := Remove(copy, "wishes");
    var rowSender := Lookup(copy, "sender");
    copy := Remove(copy, "sender");
    assert copy == Rest(entries);
    assert rowWishes == Lookup(entries, "wishes") && rowSender == Lookup(entries, "sender");
    var row: Dict<Value>;
    if !AnyKeyStartsWith(copy, "to_") {
      row := FlattenAddress(copy, "to");
    } else {
      row := copy;
    }
    if rowMessage != VNone {
      row := Put(row, "message", rowMessage);
    }
    if rowWishes != VNone {
      row := Put(row, "wishes", rowWishes);
    }
    assert row == DictBase(entries);
    if rowSender != VNone {
      if IsInt(rowSender) {
        row := Put(row, "return_address_id", rowSender);
      } else {
        var fields := FlattenSender(rowSender);
        if fields.Failure? {
          return Failure(fields.error);
        }
        row := Update(row, fields.value);
      }
    }
    return Success(row);
  }

  /** The call-level defaults, applied in place to a row. */
  method ApplyDefaults(row: Dict<Value>, message: Value, wishes: Value, defaultFields: Option<Dict<Value>>)
    returns (out: Dict<Value>)
    ensures out == WithDefaults(row, message, wishes, defaultFields)
  {
    out := row;
    if !HasKey(out, "message") && message != VNone {
      out := Put(out, "message", message);
    }
    if !HasKey(out, "wishes") && wishes != VNone {
      out := Put(out, "wishes", wishes);
    }
    if defaultFields.Some? && !AnyKeyStartsWith(out, "from_") && !HasKey(out, "return_address_id") {
      out := Update(out, defaultFields.value);
    }
  }

  /** One recipient's row before the defaults, by the recipient's type. */
  method BuildBaseRow(r: Value) returns (res: Result<Dict<Value>, PyError>)
    ensures res == BaseRow(r)
  {
    var row: Dict<Value>;
    if IsInt(r) {
      row := [("address_id", r)];
    } else if r.VRecipient? {
      row := FlattenAddress(StrValues(ToDict(r.recipient)), "to");
    } else if r.VDict? {
      var built := BuildDictRow(r.entries);
      if built.Failure? {
        return Failure(built.error);
      }
      row := built.value;
    } else {
      return Failure(TypeError(RecipientTypeMessage));
    }
    return Success(row);
  }

  /** One recipient's row, built the way `send` builds it. */
  method BuildRow(r: Value, message: Value, wishes: Value, defaultFields: Option<Dict<Value>>)
    returns (res: Result<Dict<Value>, PyError>)
    ensures res == RowFor(r, message, wishes, defaultFields)
  {
    var base := BuildBaseRow(r);
    if base.Failure? {
      return Failure(base.error);
    }
    var row := ApplyDefaults(base.value, message, wishes, defaultFields);
    return Success(row);
  }

  /** The recipient loop of `send`: one row appended per recipient, in order. */
  method BuildRows(recipients: seq<Value>, message: Value, wishes: Value, defaultFields: Option<Dict<Value>>)
    returns (result: Result<seq<Dict<Value>>, PyError>)
    ensures result == Rows(recipients, message, wishes, defaultFields)
  {
    ghost var results := RowResults(recipients, message, wishes, defaultFields);
    var addresses: seq<Dict<Value>> := [];
    var i := 0;
    CollectStart(results);
    while i < |recipients|
      invariant 0 <= i <= |recipients|
      invariant Collect(results) == Prepend(addresses, Collect(results[i..]))
    {
      var row := BuildRow(recipients[i], message, wishes, defaultFields);
      CollectStep(addresses, results, i);
      if row.Failure? {
        return Failure(row.error);
      }
      addresses := addresses + [row.value];
      i := i + 1;
    }
    CollectDone(addresses, results);
    return Success(addresses);
  }

  /** The sender block of `send`. */
  method PlanSender(sender: Value, returnAddressId: Value) returns (result: Result<SenderPlan, PyError>)
    ensures result == ResolveSender(sender, returnAddressId)
  {
    var senderId := returnAddressId;
    var defaultFields: Option<Dict<Value>> := None;
    if sender != VNone {
      if IsInt(sender) {
        senderId := sender;
      } else {
        var fields := FlattenSender(sender);
        if fields.Failure? {
          return Failure(fields.error);
        }
        defaultFields := Some(fields.value);
      }
    }
    return Success(SenderPlan(senderId, defaultFields));
  }

  /** The resolution block of `send`: the sender, then the recipient loop. */
  method ResolveAddresses(recipient: Value, message: Value, wishes: Value, sender: Value, returnAddressId: Value)
    returns (result: Result<Resolution, PyError>)
    ensures result == ResolveSend(recipient, message, wishes, sender, returnAddressId)
  {
    var plan := PlanSender(sender, returnAddressId);
    if plan.Failure? {
      return Failure(plan.error);
    }
    var rows := BuildRows(RecipientList(recipient), message, wishes, plan.value.defaultFields);
    ResolveSendOfRows(recipient, message, wishes, sender, returnAddressId, plan.value, rows);
    if rows.Failure? {
      return Failure(rows.error);
    }
    return Success(Resolution(plan.value.senderId, rows.value));
  }

  /** Once the sender block succeeds, the resolution is that of the recipient rows. */
  lemma ResolveSendOfRows(recipient: Value, message: Value, wishes: Value, sender: Value, returnAddressId: Value,
                          plan: SenderPlan, rows: Result<seq<Dict<Value>>, PyError>)
    requires ResolveSender(sender, returnAddressId) == Success(plan)
    requires rows == Rows(RecipientList(recipient), message, wishes, plan.defaultFields)
    ensures ResolveSend(recipient, message, wishes, sender, returnAddressId)
            == if rows.Success? then Success(Resolution(plan.senderId, rows.value)) else Failure(rows.error)
  {
  }

  // ---------------------------------------------------------------------
  // Properties of the resolution
  // ---------------------------------------------------------------------

  /** The per-row override keys are neither wire keys nor from_* keys. */
  lemma OverrideKeysArePlain(key: string)
    requires key == "message" || key == "wishes"
    ensures !StartsWith(key, "to" + "_") && !StartsWith(key, "from" + "_") && !StartsWith(key, "from_")
  {
    assert "to" + "_" == "to_" && "from" + "_" == "from_";
    assert key[0] != 't' && key[0] != 'f';
  }

  /** A to_* key is not a from_* key. */
  lemma ToKeyNotFromKey(k: string)
    requires StartsWith(k, "to_")
    ensures !StartsWith(k, "from_") && k != "message" && k != "wishes" && k != "return_address_id"
  {
    assert k[0] == 't';
  }

  /**
   * Defaults never touch a key other than message and wishes that is not a
   * from_* key.
   */
  lemma WithDefaultsKeeps(row: Dict<Value>, message: Value, wishes: Value, defaultFields: Option<Dict<Value>>, k: string)
    requires defaultFields.Some? ==> FromFields(defaultFields.value)
    requires k != "message" && k != "wishes" && !StartsWith(k, "from_")
    ensures Get(WithDefaults(row, message, wishes, defaultFields), k) == Get(row, k)
  {
  }

  /**
   * The message/wishes default: a key the row already has keeps its value;
   * otherwise the call-level value is added unless it is None.
   */
  lemma WithDefaultsOverride(row: Dict<Value>, message: Value, wishes: Value, defaultFields: Option<Dict<Value>>, key: string)
    requires key == "message" || key == "wishes"
    requires defaultFields.Some? ==> FromFields(defaultFields.value)
    ensures var default := if key == "message" then message else wishes;
            Get(WithDefaults(row, message, wishes, defaultFields), key)
            == if HasKey(row, key) then Get(row, key) else if default != VNone then Some(default) else None
  {
    OverrideKeysArePlain(key);
    var row2 := WithOverrides(row, message, wishes);
    WithOverridesLookup(row, message, wishes, key);
    if defaultFields.Some? {
      assert !HasKey(defaultFields.value, key);
    }
    assert Get(WithDefaults(row, message, wishes, defaultFields), key) == Get(row2, key);
  }

  /** `WithOverrides` on message or wishes themselves: the row's value if present, else the non-None default. */
  lemma WithOverridesLookup(row: Dict<Value>, message: Value, wishes: Value, key: string)
    requires key == "message" || key == "wishes"
    ensures var default := if key == "message" then message else wishes;
            Get(WithOverrides(row, message, wishes), key)
            == if HasKey(row, key) then Get(row, key) else if default != VNone then Some(default) else None
  {
    var row1 := if !HasKey(row, "message") && message != VNone then Put(row, "message", message) else row;
    assert Get(row1, "wishes") == Get(row, "wishes");
  }

  /**
   * The default sender block: a row with a from_* key or a return_address_id
   * is left alone apart from message and wishes; otherwise every default
   * sender field is merged in.
   */
  lemma WithDefaultsSender(row: Dict<Value>, message: Value, wishes: Value, defaultFields: Option<Dict<Value>>)
    requires defaultFields.Some? ==> FromFields(defaultFields.value)
    ensures AnyKeyStartsWith(row, "from_") || HasKey(row, "return_address_id")
            ==> forall k :: k != "message" && k != "wishes" ==> Get(WithDefaults(row, message, wishes, defaultFields), k) == Get(row, k)
    ensures defaultFields.Some? && !AnyKeyStartsWith(row, "from_") && !HasKey(row, "return_address_id")
            ==> forall k :: HasKey(defaultFields.value, k) ==> Get(WithDefaults(row, message, wishes, defaultFields), k) == Get(defaultFields.value, k)
  {
    var row2 := WithOverrides(row, message, wishes);
    if defaultFields.Some? && !AnyKeyStartsWith(row, "from_") && !HasKey(row, "return_address_id") {
      forall k | HasKey(defaultFields.value, k)
        ensures Get(WithDefaults(row, message, wishes, defaultFields), k) == Get(defaultFields.value, k)
      {
        UpdateWins(row2, defaultFields.value, k);
      }
    }
  }

  /** In a dict recipient's row, message and wishes are the dict's own, and only when not None. */
  lemma DictRowOverride(entries: Dict<Value>, key: string)
    requires key == "message" || key == "wishes"
    requires DictRow(entries).Success?
    ensures Get(DictRow(entries).value, key) == if Lookup(entries, key) != VNone then Some(Lookup(entries, key)) else None
  {
    OverrideKeysArePlain(key);
    var rowSender := Lookup(entries, "sender");
    DictBaseOverride(entries, key);
    if rowSender != VNone && !IsInt(rowSender) {
      assert !HasKey(SenderFields(rowSender).value, key);
    }
  }

  /** `DictBase` on message or wishes: the dict's own value when not None. */
  lemma DictBaseOverride(entries: Dict<Value>, key: string)
    requires key == "message" || key == "wishes"
    ensures Get(DictBase(entries), key) == if Lookup(entries, key) != VNone then Some(Lookup(entries, key)) else None
  {
    OverrideKeysArePlain(key);
    var rowMessage := Lookup(entries, "message");
    var row0 := DictAddress(Rest(entries));
    assert !HasKey(row0, key);
    var row1 := if rowMessage != VNone then Put(row0, "message", rowMessage) else row0;
    assert Get(row1, "wishes") == Get(row0, "wishes");
  }

  /** Only a dict recipient brings its own message and wishes into its base row. */
  lemma BaseRowOverride(r: Value, key: string)
    requires key == "message" || key == "wishes"
    requires BaseRow(r).Success?
    ensures var own := if r.VDict? then Lookup(r.entries, key) else VNone;
            Get(BaseRow(r).value, key) == if own != VNone then Some(own) else None
  {
    OverrideKeysArePlain(key);
    if IsInt(r) {
      GetMissing([("address_id", r)], key);
    } else if r.VDict? {
      DictRowOverride(r.entries, key);
    }
  }

  /**
   * Precedence of message and wishes in `send`: a dict recipient's own
   * non-None value wins; otherwise the call-level value, unless it is None.
   */
  lemma RowOverride(r: Value, message: Value, wishes: Value, defaultFields: Option<Dict<Value>>, key: string)
    requires key == "message" || key == "wishes"
    requires defaultFields.Some? ==> FromFields(defaultFields.value)
    requires RowFor(r, message, wishes, defaultFields).Success?
    ensures var own := if r.VDict? then Lookup(r.entries, key) else VNone;
            var default := if key == "message" then message else wishes;
            Get(RowFor(r, message, wishes, defaultFields).value, key)
            == if own != VNone then Some(own) else if default != VNone then Some(default) else None
  {
    BaseRowOverride(r, key);
    WithDefaultsOverride(BaseRow(r).value, message, wishes, defaultFields, key);
  }

  /** An int recipient (a bool included) becomes a saved-address row. */
  lemma IntRecipientRow(r: Value, message: Value, wishes: Value, defaultFields: Option<Dict<Value>>)
    requires IsInt(r)
    requires defaultFields.Some? ==> FromFields(defaultFields.value)
    ensures RowFor(r, message, wishes, defaultFields).Success?
    ensures Get(RowFor(r, message, wishes, defaultFields).value, "address_id") == Some(r)
  {
    assert "address_id"[0] == 'a';
    WithDefaultsKeeps([("address_id", r)], message, wishes, defaultFields, "address_id");
  }

  /** A `Recipient` becomes its flattened `to_dict()`: every to_* field of the row comes from it. */
  lemma RecipientRow(a: AddressRecord, message: Value, wishes: Value, defaultFields: Option<Dict<Value>>)
    requires defaultFields.Some? ==> FromFields(defaultFields.value)
    ensures RowFor(VRecipient(a), message, wishes, defaultFields).Success?
    ensures forall k :: StartsWith(k, "to_")
                        ==> Get(RowFor(VRecipient(a), message, wishes, defaultFields).value, k) == Get(Flattened(StrValues(ToDict(a)), "to"), k)
  {
    forall k | StartsWith(k, "to_")
      ensures Get(RowFor(VRecipient(a), message, wishes, defaultFields).value, k) == Get(Flattened(StrValues(ToDict(a)), "to"), k)
    {
      ToKeyNotFromKey(k);
      WithDefaultsKeeps(Flattened(StrValues(ToDict(a)), "to"), message, wishes, defaultFields, k);
    }
  }

  /**
   * A dict recipient's to_* fields: the copy without message/wishes/sender
   * is passed through when one of its keys starts with "to_", otherwise it
   * is flattened with "to".
   */
  lemma DictRecipientAddress(entries: Dict<Value>, message: Value, wishes: Value, defaultFields: Option<Dict<Value>>)
    requires defaultFields.Some? ==> FromFields(defaultFields.value)
    requires RowFor(VDict(entries), message, wishes, defaultFields).Success?
    ensures var rest := Rest(entries);
            forall k :: StartsWith(k, "to_")
                        ==> Get(RowFor(VDict(entries), message, wishes, defaultFields).value, k)
                            == if AnyKeyStartsWith(rest, "to_") then Get(rest, k) else Get(Flattened(rest, "to"), k)
  {
    RowForDict(entries, message, wishes, defaultFields);
    var row := DictRow(entries).value;
    forall k | StartsWith(k, "to_")
      ensures Get(RowFor(VDict(entries), message, wishes, defaultFields).value, k) == Get(DictAddress(Rest(entries)), k)
    {
      ToKeyNotFromKey(k);
      DictRowKeeps(entries, k);
      WithDefaultsKeeps(row, message, wishes, defaultFields, k);
    }
  }

  /** A dict recipient's row keeps its address's value for every key the overrides and senders do not write. */
  lemma DictRowKeeps(entries: Dict<Value>, k: string)
    requires DictRow(entries).Success?
    requires k != "message" && k != "wishes" && k != "return_address_id" && !StartsWith(k, "from_")
    ensures Get(DictRow(entries).value, k) == Get(DictAddress(Rest(entries)), k)
  {
    var rowSender := Lookup(entries, "sender");
    var row0 := DictAddress(Rest(entries));
    var rowMessage := Lookup(entries, "message");
    var row1 := if rowMessage != VNone then Put(row0, "message", rowMessage) else row0;
    assert Get(row1, k) == Get(row0, k);
    assert Get(DictBase(entries), k) == Get(row0, k);
    if rowSender != VNone && !IsInt(rowSender) {
      assert !HasKey(SenderFields(rowSender).value, k);
    }
  }

  /**
   * A per-row int sender sets that row's return_address_id, and then the
   * default sender is not merged: only message and wishes can still change.
   */
  lemma RowSenderId(entries: Dict<Value>, message: Value, wishes: Value, defaultFields: Option<Dict<Value>>)
    requires IsInt(Lookup(entries, "sender"))
    requires defaultFields.Some? ==> FromFields(defaultFields.value)
    ensures RowFor(VDict(entries), message, wishes, defaultFields).Success?
    ensures Get(RowFor(VDict(entries), message, wishes, defaultFields).value, "return_address_id") == Some(Lookup(entries, "sender"))
    ensures forall k :: k != "message" && k != "wishes"
                        ==> Get(RowFor(VDict(entries), message, wishes, defaultFields).value, k) == Get(BaseRow(VDict(entries)).value, k)
  {
    WithDefaultsSender(BaseRow(VDict(entries)).value, message, wishes, defaultFields);
  }

  /**
   * A per-row `Sender` or dict sender merges its from-flattened fields into
   * that row, and they are final: the default sender cannot override them.
   */
  lemma RowSenderFields(entries: Dict<Value>, message: Value, wishes: Value, defaultFields: Option<Dict<Value>>)
    requires Lookup(entries, "sender") != VNone && !IsInt(Lookup(entries, "sender"))
    requires defaultFields.Some? ==> FromFields(defaultFields.value)
    requires RowFor(VDict(entries), message, wishes, defaultFields).Success?
    ensures SenderFields(Lookup(entries, "sender")).Success?
    ensures var fields := SenderFields(Lookup(entries, "sender")).value;
            forall k :: HasKey(fields, k) ==> Get(RowFor(VDict(entries), message, wishes, defaultFields).value, k) == Get(fields, k)
  {
    var fields := SenderFields(Lookup(entries, "sender")).value;
    var base := DictRow(entries).value;
    RowForDict(entries, message, wishes, defaultFields);
    WithDefaultsSender(base, message, wishes, defaultFields);
    OverrideKeysArePlain("message");
    OverrideKeysArePlain("wishes");
    forall k | HasKey(fields, k)
      ensures Get(WithDefaults(base, message, wishes, defaultFields), k) == Get(fields, k)
    {
      DictRowSenderFields(entries, k);
      AnyKeyStartsWithHasKey(base, k, "from_");
    }
  }

  /** A dict recipient's row is its `DictRow` with the call-level defaults applied. */
  lemma RowForDict(entries: Dict<Value>, message: Value, wishes: Value, defaultFields: Option<Dict<Value>>)
    ensures BaseRow(VDict(entries)) == DictRow(entries)
    ensures DictRow(entries).Success?
            ==> RowFor(VDict(entries), message, wishes, defaultFields) == Success(WithDefaults(DictRow(entries).value, message, wishes, defaultFields))
    ensures DictRow(entries).Failure?
            ==> RowFor(VDict(entries), message, wishes, defaultFields) == Failure(DictRow(entries).error)
  {
  }

  /** The sender fields a dict recipient's own sender contributes are in its row as they are. */
  lemma DictRowSenderFields(entries: Dict<Value>, k: string)
    requires Lookup(entries, "sender") != VNone && !IsInt(Lookup(entries, "sender"))
    requires DictRow(entries).Success?
    ensures SenderFields(Lookup(entries, "sender")).Success?
    ensures HasKey(SenderFields(Lookup(entries, "sender")).value, k)
            ==> Get(DictRow(entries).value, k) == Get(SenderFields(Lookup(entries, "sender")).value, k)
  {
    var fields := SenderFields(Lookup(entries, "sender")).value;
    var row2 := DictBase(entries);
    assert DictRow(entries).value == Update(row2, fields);
    if HasKey(fields, k) {
      UpdateWins(row2, fields, k);
    }
  }

  /**
   * The whole resolution of `send`: a non-list recipient counts as a list of
   * one; there is exactly one row per recipient, in input order; an int
   * sender becomes the request-level sender id in place of
   * return_address_id; and a recipient that is not an int, `Recipient` or
   * dict makes the call fail before any row is handed on.
   */
  lemma ResolveSendSpec(recipient: Value, message: Value, wishes: Value, sender: Value, returnAddressId: Value)
    ensures var res := ResolveSend(recipient, message, wishes, sender, returnAddressId);
            var rs := RecipientList(recipient);
            && (res.Success? ==> |res.value.addresses| == |rs|)
            && (res.Success? ==> res.value.senderId == if IsInt(sender) then sender else returnAddressId)
            && (res.Success? ==>
                  forall i :: 0 <= i < |rs| ==>
                    RowFor(rs[i], message, wishes, ResolveSender(sender, returnAddressId).value.defaultFields) == Success(res.value.addresses[i]))
            && ((exists i :: 0 <= i < |rs| && !(IsInt(rs[i]) || rs[i].VRecipient? || rs[i].VDict?)) ==> res.Failure?)
  {
    var rs := RecipientList(recipient);
    var sp := ResolveSender(sender, returnAddressId);
    if sp.Success? {
      var plan := sp.value;
      var rows := Rows(rs, message, wishes, plan.defaultFields);
      RowsSpec(rs, message, wishes, plan.defaultFields);
      ResolveSendOfRows(recipient, message, wishes, sender, returnAddressId, plan, rows);
      if exists i :: 0 <= i < |rs| && !(IsInt(rs[i]) || rs[i].VRecipient? || rs[i].VDict?) {
        var i :| 0 <= i < |rs| && !(IsInt(rs[i]) || rs[i].VRecipient? || rs[i].VDict?);
        assert RowFor(rs[i], message, wishes, plan.defaultFields).Failure?;
      }
    }
  }

  // ---------------------------------------------------------------------
  // Request bodies: placeBasket kwargs and createCustomCard
  // ---------------------------------------------------------------------

  /** `{k: v for k, v in d.items() if v is not None}`, order kept. */
  function WithoutNone(d: Dict<Value>): (r: Dict<Value>)
    ensures forall i :: 0 <= i < |r| ==> r[i].1 != VNone
    ensures forall k :: HasKey(r, k) ==> HasKey(d, k)
    ensures |r| <= |d|
  {
    if d == [] then []
    else
      var t := WithoutNone(d[1..]);
      forall k ensures HasKey(t, k) ==> HasKey(d, k) {
        GetCons(d[0], d[1..], k);
        assert d == [d[0]] + d[1..];
      }
      if d[0].1 == VNone then t
      else
        forall k ensures HasKey([d[0]] + t, k) ==> HasKey(d, k) {
          GetCons(d[0], t, k);
        }
        [d[0]] + t
  }

  /** Dropping the None entries of a dict with distinct keys leaves distinct keys. */
  lemma {:induction false} WithoutNoneUnique(d: Dict<Value>)
    requires UniqueKeys(d)
    ensures UniqueKeys(WithoutNone(d))
  {
    if d != [] {
      var t := WithoutNone(d[1..]);
      WithoutNoneUnique(d[1..]);
      if d[0].1 != VNone {
        assert !HasKey(d[1..], d[0].0) by {
          forall j | 0 <= j < |d[1..]| ensures d[1..][j].0 != d[0].0 {
            assert d[1..][j] == d[j + 1];
          }
        }
        forall j | 0 <= j < |t| ensures t[j].0 != d[0].0 {
          HasKeyAt(t, j);
        }
      }
    }
  }

  /** A lookup after dropping None values: a None entry is missing, any other is kept. */
  lemma {:induction false} GetWithoutNone(d: Dict<Value>, k: string)
    requires UniqueKeys(d)
    ensures Get(WithoutNone(d), k) == if Get(d, k) == Some(VNone) then None else Get(d, k)
  {
    if d != [] {
      var t := WithoutNone(d[1..]);
      assert d == [d[0]] + d[1..];
      GetCons(d[0], d[1..], k);
      GetWithoutNone(d[1..], k);
      if d[0].1 != VNone {
        GetCons(d[0], t, k);
      } else if d[0].0 == k {
        assert !HasKey(d[1..], k) by {
          forall j | 0 <= j < |d[1..]| ensures d[1..][j].0 != k {
            assert d[1..][j] == d[j + 1];
          }
        }
      }
    }
  }

  /**
   * A request body: the fixed entries, then `update` with the non-None
   * optional arguments, then `update(extra)`.
   */
  function Body(fixed: Dict<Value>, optional: Dict<Value>, extra: Dict<Value>): Dict<Value> {
    Update(Update(fixed, WithoutNone(optional)), extra)
  }

  /**
   * Precedence in a request body: an extra keyword argument wins; then an
   * optional argument unless it is None; then the fixed entry.
   */
  lemma GetBody(fixed: Dict<Value>, optional: Dict<Value>, extra: Dict<Value>, k: string)
    requires UniqueKeys(optional) && UniqueKeys(extra)
    ensures Get(Body(fixed, optional, extra), k)
            == if HasKey(extra, k) then Get(extra, k)
               else if HasKey(optional, k) && Get(optional, k) != Some(VNone) then Get(optional, k)
               else Get(fixed, k)
  {
    GetWithoutNone(optional, k);
    if HasKey(extra, k) {
      UpdateWins(Update(fixed, WithoutNone(optional)), extra, k);
    } else if HasKey(optional, k) && Get(optional, k) != Some(VNone) {
      WithoutNoneUnique(optional);
      UpdateWins(fixed, WithoutNone(optional), k);
    }
  }

  /** The optional `send` arguments copied into the placeBasket call when not None. */
  const PlaceOptionalKeys: seq<string> :=
    ["message_align", "denomination_id", "insert_id", "date_send", "delivery_confirmation", "client_metadata",
     "suppress_warnings", "signature_id", "signature2_id", "font_size", "auto_font_size", "coupon_code"]

  /** The address rows as the list of dicts handed to `add_order`. */
  function AddressValues(rows: seq<Dict<Value>>): (r: seq<Value>)
    ensures |r| == |rows| && forall i :: 0 <= i < |rows| ==> r[i] == VDict(rows[i])
  {
    seq(|rows|, i requires 0 <= i < |rows| => VDict(rows[i]))
  }

  /** The fixed keyword arguments of the placeBasket call; return_address_id only when the sender id is not None. */
  function PlaceFixed(cardId: Value, font: Value, res: Resolution): (r: Dict<Value>)
    ensures Get(r, "addresses") == Some(VList(AddressValues(res.addresses)))
    ensures Get(r, "return_address_id") == if res.senderId != VNone then Some(res.senderId) else None
  {
    var fixed := [("card_id", cardId), ("font", font), ("addresses", VList(AddressValues(res.addresses)))];
    GetFirst(fixed, 2, "addresses");
    GetMissing(fixed, "return_address_id");
    if res.senderId != VNone then
      var r := fixed + [("return_address_id", res.senderId)];
      GetFirst(r, 2, "addresses");
      GetFirst(r, 3, "return_address_id");
      r
    else fixed
  }

  /** The keyword arguments `send` hands to `add_order`. */
  function PlaceKwargs(cardId: Value, font: Value, res: Resolution, optional: Dict<Value>, extra: Dict<Value>): Dict<Value> {
    Body(PlaceFixed(cardId, font, res), optional, extra)
  }

  /** A key that is not one of the optional arguments is not among them. */
  lemma NotOptional(optional: Dict<Value>, k: string)
    requires forall i :: 0 <= i < |optional| ==> optional[i].0 in PlaceOptionalKeys
    requires k !in PlaceOptionalKeys
    ensures !HasKey(optional, k)
  {
    GetMissing(optional, k);
  }

  /**
   * The request-level return_address_id of `send`: an extra keyword wins;
   * otherwise an int `sender` replaces the `return_address_id` argument,
   * and nothing is sent when the resulting id is None.
   */
  lemma SendReturnAddressId(recipient: Value, message: Value, wishes: Value, sender: Value, returnAddressId: Value,
                            cardId: Value, font: Value, optional: Dict<Value>, extra: Dict<Value>)
    requires ResolveSend(recipient, message, wishes, sender, returnAddressId).Success?
    requires UniqueKeys(optional) && UniqueKeys(extra)
    requires forall i :: 0 <= i < |optional| ==> optional[i].0 in PlaceOptionalKeys
    ensures var res := ResolveSend(recipient, message, wishes, sender, returnAddressId).value;
            var id := if IsInt(sender) then sender else returnAddressId;
            Get(PlaceKwargs(cardId, font, res, optional, extra), "return_address_id")
            == if HasKey(extra, "return_address_id") then Get(extra, "return_address_id")
               else if id != VNone then Some(id) else None
  {
    var res := ResolveSend(recipient, message, wishes, sender, returnAddressId).value;
    ResolveSendSpec(recipient, message, wishes, sender, returnAddressId);
    PlaceReturnAddressId(cardId, font, res, optional, extra);
  }

  /** The return_address_id keyword: an extra keyword wins, else the resolution's sender id unless it is None. */
  lemma PlaceReturnAddressId(cardId: Value, font: Value, res: Resolution, optional: Dict<Value>, extra: Dict<Value>)
    requires UniqueKeys(optional) && UniqueKeys(extra)
    requires forall i :: 0 <= i < |optional| ==> optional[i].0 in PlaceOptionalKeys
    ensures Get(PlaceKwargs(cardId, font, res, optional, extra), "return_address_id")
            == if HasKey(extra, "return_address_id") then Get(extra, "return_address_id")
               else if res.senderId != VNone then Some(res.senderId) else None
  {
    NotOptional(optional, "return_address_id");
    GetBody(PlaceFixed(cardId, font, res), optional, extra, "return_address_id");
  }

  /** The rows of the resolution reach `add_order` as its addresses, in order, unless an extra keyword replaces them. */
  lemma SendAddresses(cardId: Value, font: Value, res: Resolution, optional: Dict<Value>, extra: Dict<Value>)
    requires UniqueKeys(optional) && UniqueKeys(extra)
    requires forall i :: 0 <= i < |optional| ==> optional[i].0 in PlaceOptionalKeys
    requires !HasKey(extra, "addresses")
    ensures var a := Get(PlaceKwargs(cardId, font, res, optional, extra), "addresses");
            a.Some? && a.value.VList? && |a.value.items| == |res.addresses|
            && forall i :: 0 <= i < |res.addresses| ==> a.value.items[i] == VDict(res.addresses[i])
  {
    NotOptional(optional, "addresses");
    GetBody(PlaceFixed(cardId, font, res), optional, extra, "addresses");
  }

  /** The optional `create` arguments, collected and sent when not None, panel by panel. */
  const CreateOptionalKeys: seq<string> :=
    CoverKeys + HeaderKeys + MainKeys + FooterKeys + BackKeys + QrCodeKeys

  const CoverKeys: seq<string> := ["cover_id", "preset_cover_id", "cover_size_percent"]
  const HeaderKeys: seq<string> :=
    ["header_type", "header_text", "header_font_id", "header_font_size", "header_font_color", "header_align",
     "header_logo_id", "header_logo_size_percent"]
  const MainKeys: seq<string> :=
    ["main_type", "main_text", "main_font_id", "main_font_size", "main_font_color", "main_align",
     "main_logo_id", "main_logo_size_percent"]
  const FooterKeys: seq<string> :=
    ["footer_type", "footer_text", "footer_font_id", "footer_font_size", "footer_font_color", "footer_align",
     "footer_logo_id", "footer_logo_size_percent"]
  const BackKeys: seq<string> :=
    ["back_cover_id", "preset_back_cover_id", "back_type", "back_align", "back_vertical_align", "back_logo_id",
     "back_text", "back_font_id", "back_font_size", "back_font_color", "back_size_percent"]
  const QrCodeKeys: seq<string> :=
    ["qr_code_id", "qr_code_size_percent", "qr_code_align", "qr_code_location", "qr_code_frame_id"]

  /** No optional `create` key begins like name, dimension_id or is_update. */
  lemma CreateOptionalKeyShape(k: string)
    requires k in CreateOptionalKeys
    ensures k != "name" && k != "dimension_id" && k != "is_update"
  {
    var c := PanelKeyInitial(k);
    assert "name"[0] == 'n' && "dimension_id"[0] == 'd' && "is_update"[0] == 'i';
  }

  /** Every optional `create` key starts with the letter of its panel (or of "preset"). */
  lemma PanelKeyInitial(k: string) returns (c: char)
    requires k in CreateOptionalKeys
    ensures |k| > 0 && k[0] == c && c in "chmfbpq"
  {
    if k in CoverKeys + HeaderKeys + MainKeys {
      if k in CoverKeys + HeaderKeys {
        if k in CoverKeys {
          c := CoverKeyInitial(k);
        } else {
          c := HeaderKeyInitial(k);
        }
      } else {
        c := MainKeyInitial(k);
      }
    } else if k in FooterKeys {
      c := FooterKeyInitial(k);
    } else if k in BackKeys {
      c := BackKeyInitial(k);
    } else {
      c := QrCodeKeyInitial(k);
    }
  }

  lemma CoverKeyInitial(k: string) returns (c: char)
    requires k in CoverKeys
    ensures |k| > 0 && k[0] == c && c in "cp"
  {
    c := k[0];
  }

  lemma HeaderKeyInitial(k: string) returns (c: char)
    requires k in HeaderKeys
    ensures |k| > 0 && k[0] == c && c == 'h'
  {
    c := k[0];
  }

  lemma MainKeyInitial(k: string) returns (c: char)
    requires k in MainKeys
    ensures |k| > 0 && k[0] == c && c == 'm'
  {
    c := k[0];
  }

  lemma FooterKeyInitial(k: string) returns (c: char)
    requires k in FooterKeys
    ensures |k| > 0 && k[0] == c && c == 'f'
  {
    c := k[0];
  }

  lemma BackKeyInitial(k: string) returns (c: char)
    requires k in BackKeys
    ensures |k| > 0 && k[0] == c && c in "bp"
  {
    c := k[0];
  }

  lemma QrCodeKeyInitial(k: string) returns (c: char)
    requires k in QrCodeKeys
    ensures |k| > 0 && k[0] == c && c == 'q'
  {
    c := k[0];
  }

  /** The body of `CustomCardsResource.create`. */
  function CreateBody(name: Value, dimensionId: Value, isUpdate: Value, optional: Dict<Value>, extra: Dict<Value>): Dict<Value> {
    Body(CreateFixed(name, dimensionId, isUpdate), optional, extra)
  }

  function CreateFixed(name: Value, dimensionId: Value, isUpdate: Value): Dict<Value> {
    var fixed := [("name", name), ("dimension_id", dimensionId)];
    if isUpdate != VNone then fixed + [("is_update", isUpdate)] else fixed
  }

  /**
   * Every key of the `create` body: an extra keyword wins; an optional
   * argument is present exactly when it is not None; name and dimension_id
   * are always sent, is_update only when not None.
   */
  lemma CreateBodySpec(name: Value, dimensionId: Value, isUpdate: Value, optional: Dict<Value>, extra: Dict<Value>, k: string)
    requires UniqueKeys(optional) && UniqueKeys(extra)
    requires forall i :: 0 <= i < |optional| ==> optional[i].0 in CreateOptionalKeys
    ensures Get(CreateBody(name, dimensionId, isUpdate, optional, extra), k)
            == if HasKey(extra, k) then Get(extra, k)
               else if HasKey(optional, k) then (if Get(optional, k) == Some(VNone) then None else Get(optional, k))
               else if k == "name" then Some(name)
               else if k == "dimension_id" then Some(dimensionId)
               else if k == "is_update" && isUpdate != VNone then Some(isUpdate)
               else None
  {
    GetBody(CreateFixed(name, dimensionId, isUpdate), optional, extra, k);
    CreateFixedGet(name, dimensionId, isUpdate, k);
    if HasKey(optional, k) {
      var i := Find(optional, k);
      assert k in CreateOptionalKeys;
      CreateOptionalKeyShape(k);
    }
  }

  /** The fixed entries of `create`: name, dimension_id and, when not None, is_update. */
  lemma CreateFixedGet(name: Value, dimensionId: Value, isUpdate: Value, k: string)
    ensures Get(CreateFixed(name, dimensionId, isUpdate), k)
            == if k == "name" then Some(name)
               else if k == "dimension_id" then Some(dimensionId)
               else if k == "is_update" && isUpdate != VNone then Some(isUpdate)
               else None
  {
    var fixed := CreateFixed(name, dimensionId, isUpdate);
    if k == "name" {
      GetFirst(fixed, 0, k);
    } else if k == "dimension_id" {
      GetFirst(fixed, 1, k);
    } else if k == "is_update" && isUpdate != VNone {
      GetFirst(fixed, 2, k);
    } else {
      GetMissing(fixed, k);
    }
  }

  // ---------------------------------------------------------------------
  // BasketResource.add_order: address conversion
  // ---------------------------------------------------------------------

  /** `add_order` sends an address as given when a key starts with "to_" or it names a saved address. */
  predicate OrderPassthrough(addr: Dict<Value>) {
    AnyKeyStartsWith(addr, "to_") || HasKey(addr, "address_id")
  }

  /** One address as `add_order` converts it. */
  function Converted(addr: Dict<Value>): Dict<Value> {
    if OrderPassthrough(addr) then addr
    else
      var rowMessage := Lookup(addr, "message");
      var rowWishes := Lookup(addr, "wishes");
      var row := Flattened(Remove(Remove(addr, "message"), "wishes"), "to");
      var row1 := if rowMessage != VNone then Put(row, "message", rowMessage) else row;
      if rowWishes != VNone then Put(row1, "wishes", rowWishes) else row1
  }

  /**
   * An address in friendly form is flattened with "to" and keeps its own
   * message and wishes (when not None) under their plain names.
   */
  lemma ConvertedFlattens(addr: Dict<Value>)
    requires !OrderPassthrough(addr)
    ensures var rest := Remove(Remove(addr, "message"), "wishes");
            forall k :: StartsWith(k, "to_") ==> Get(Converted(addr), k) == Get(Flattened(rest, "to"), k)
    ensures Get(Converted(addr), "message") == if Lookup(addr, "message") != VNone then Some(Lookup(addr, "message")) else None
    ensures Get(Converted(addr), "wishes") == if Lookup(addr, "wishes") != VNone then Some(Lookup(addr, "wishes")) else None
  {
    var rest := Remove(Remove(addr, "message"), "wishes");
    OverrideKeysArePlain("message");
    OverrideKeysArePlain("wishes");
    assert !HasKey(Flattened(rest, "to"), "message") && !HasKey(Flattened(rest, "to"), "wishes");
    forall k | StartsWith(k, "to_") ensures Get(Converted(addr), k) == Get(Flattened(rest, "to"), k) {
      ToKeyNotFromKey(k);
    }
  }

  /** One address as `add_order` converts it, step by step. */
  method ConvertAddress(addr: Dict<Value>) returns (row: Dict<Value>)
    ensures row == Converted(addr)
  {
    if AnyKeyStartsWith(addr, "to_") || HasKey(addr, "address_id") {
      return addr;
    }
    var copy := addr;
    var rowMessage := Lookup(copy, "message");
    copy := Remove(copy, "message");
    var rowWishes := Lookup(copy, "wishes");
    assert rowWishes == Lookup(addr, "wishes");
    copy := Remove(copy, "wishes");
    row := FlattenAddress(copy, "to");
    if rowMessage != VNone {
      row := Put(row, "message", rowMessage);
    }
    if rowWishes != VNone {
      row := Put(row, "wishes", rowWishes);
    }
  }

  /** The `addresses` list of `add_order`: one converted address per input, in order. */
  method ConvertAddresses(addresses: seq<Dict<Value>>) returns (converted: seq<Dict<Value>>)
    ensures |converted| == |addresses|
    ensures forall i :: 0 <= i < |addresses| ==> converted[i] == Converted(addresses[i])
  {
    converted := [];
    for i := 0 to |addresses|
      invariant |converted| == i
      invariant forall j :: 0 <= j < i ==> converted[j] == Converted(addresses[j])
    {
      var row := ConvertAddress(addresses[i]);
      converted := converted + [row];
    }
  }

  /** A dict with no override keys and no to_* key is flattened whole by `send`. */
  lemma PlainDictRow(d: Dict<Value>)
    requires Rest(d) == d && !AnyKeyStartsWith(d, "to_")
    ensures BaseRow(VDict(d)) == Success(Flattened(d, "to"))
  {
    assert !HasKey(d, "message") && !HasKey(d, "wishes") && !HasKey(d, "sender");
  }

  /** The dict of the passthrough example, with its keys in that order. */
  function SavedIdDict(): (d: Dict<Value>)
    ensures |d| == 2 && d[0] == ("address_id", VInt(5)) && d[1] == ("firstName", VStr("Jane"))
  {
    [("address_id", VInt(5)), ("firstName", VStr("Jane"))]
  }

  /** address_id is not a friendly key, so `send` only prefixes it. */
  lemma SavedIdWireKey()
    ensures WireKey("to", "address_id") == "to_address_id"
    ensures ApiSuffix("firstName") != ApiSuffix("address_id")
    ensures !StartsWith("address_id", "to" + "_")
  {
    assert "address_id"[0] == 'a';
    assert !IsFriendlyKey("address_id");
    assert "to" + "_" == "to_";
  }

  /** How `send` sees the example: nothing to pop, no to_* key, so it is flattened. */
  lemma SavedIdDictSendRow()
    ensures BaseRow(VDict(SavedIdDict())) == Success(Flattened(SavedIdDict(), "to"))
  {
    var d := SavedIdDict();
    SavedIdShapePlain(d);
    PlainDictRow(d);
  }

  /** A dict of address_id then firstName has nothing for `send` to pop and no to_* key. */
  lemma SavedIdShapePlain(d: Dict<Value>)
    requires |d| == 2 && d[0].0 == "address_id" && d[1].0 == "firstName"
    ensures Rest(d) == d && !AnyKeyStartsWith(d, "to_")
  {
    assert Rest(d) == d by {
      assert Remove(d, "message") == d;
      assert Remove(d, "wishes") == d;
      assert Remove(d, "sender") == d;
    }
    assert !AnyKeyStartsWith(d, "to_") by {
      assert d[0].0[0] == 'a' && d[1].0[0] == 'f';
    }
  }

  /** Flattening a dict of address_id then firstName renames address_id to to_address_id. */
  lemma SavedIdShapeFlattened(d: Dict<Value>, id: Value)
    requires |d| == 2 && d[0] == ("address_id", id) && d[1].0 == "firstName" && id != VNone
    ensures Get(Flattened(d, "to"), "to_address_id") == Some(id)
    ensures !HasKey(Flattened(d, "to"), "address_id")
  {
    GetFirst(d, 0, "address_id");
    SavedIdWireKey();
    assert UniqueKeys(d);
    forall i | 0 <= i < |d| && d[i].0 != "address_id" ensures ApiSuffix(d[i].0) != ApiSuffix("address_id") {
      assert i == 1;
    }
    FlattenedRename(d, "to", "address_id");
    assert WireKey("to", "address_id") == "to_address_id";
  }

  /**
   * The two passthrough tests differ: a dict holding address_id but no to_*
   * key goes through `add_order` unchanged, while `send` flattens it, so
   * its address_id is sent as to_address_id.
   */
  lemma PassthroughTestsDiffer()
    ensures Converted(SavedIdDict()) == SavedIdDict()
    ensures BaseRow(VDict(SavedIdDict())).Success?
    ensures Get(BaseRow(VDict(SavedIdDict())).value, "to_address_id") == Some(VInt(5))
    ensures !HasKey(BaseRow(VDict(SavedIdDict())).value, "address_id")
  {
    SavedIdDictConverted();
    SavedIdDictSent();
  }

  /** `add_order` passes the example through: it has address_id and no to_* key. */
  lemma SavedIdDictConverted()
    ensures Converted(SavedIdDict()) == SavedIdDict()
  {
    GetFirst(SavedIdDict(), 0, "address_id");
  }

  /** `send` flattens the example, so its address_id is sent as to_address_id and not as address_id. */
  lemma SavedIdDictSent()
    ensures BaseRow(VDict(SavedIdDict())).Success?
    ensures Get(BaseRow(VDict(SavedIdDict())).value, "to_address_id") == Some(VInt(5))
    ensures !HasKey(BaseRow(VDict(SavedIdDict())).value, "address_id")
  {
    SavedIdDictSendRow();
    SavedIdShapeFlattened(SavedIdDict(), VInt(5));
  }

  /** A `Recipient`'s row has a to_* key: the wire key of its first name. */
  lemma RecipientRowToKey(a: AddressRecord, message: Value, wishes: Value, defaultFields: Option<Dict<Value>>) returns (k: string)
    requires defaultFields.Some? ==> FromFields(defaultFields.value)
    ensures RowFor(VRecipient(a), message, wishes, defaultFields).Success?
    ensures StartsWith(k, "to_") && HasKey(RowFor(VRecipient(a), message, wishes, defaultFields).value, k)
  {
    k := WireKey("to", "firstName");
    assert StartsWith(k, "to_") by {
      assert "to" + "_" == "to_";
    }
    RecipientRow(a, message, wishes, defaultFields);
    FlattenedAddressField(a, "to", "firstName");
    assert HasKey(ToDict(a), "firstName");
  }

  /**
   * The rows `send` builds for a saved-address id or a `Recipient` reach
   * `add_order` in a form it passes through unchanged.
   */
  lemma SendRowsPassThrough(r: Value, message: Value, wishes: Value, defaultFields: Option<Dict<Value>>)
    requires IsInt(r) || r.VRecipient?
    requires defaultFields.Some? ==> FromFields(defaultFields.value)
    ensures RowFor(r, message, wishes, defaultFields).Success?
    ensures OrderPassthrough(RowFor(r, message, wishes, defaultFields).value)
  {
    if IsInt(r) {
      IntRecipientRow(r, message, wishes, defaultFields);
    } else {
      var row := RowFor(r, message, wishes, defaultFields).value;
      var k := RecipientRowToKey(r.recipient, message, wishes, defaultFields);
      AnyKeyStartsWithHasKey(row, k, "to_");
    }
  }

  // ---------------------------------------------------------------------
  // CustomCardsResource.upload_image and dimensions
  // ---------------------------------------------------------------------

  /** The request `upload_image` sends: a JSON body, or a multipart file named after the path's last component. */
  datatype ImageUpload =
    | JsonUpload(body: Dict<Value>)
    | FileUpload(fileName: string, path: string, form: Dict<Value>)

  /** A truthy optional string argument. */
  predicate Given(o: Option<string>) {
    o.Some? && o.value != ""
  }

  /** The part after the last '\\' of the part after the last '/' follows one of the two separators. */
  lemma LastComponent(path: string, tail: string, name: string)
    requires |tail| <= |path| && tail == path[|path| - |tail|..]
    requires |tail| < |path| ==> path[|path| - |tail| - 1] == '/'
    requires |name| <= |tail| && name == tail[|tail| - |name|..]
    requires |name| < |tail| ==> tail[|tail| - |name| - 1] == '\\'
    ensures |name| <= |path| && name == path[|path| - |name|..]
    ensures |name| < |path| ==> path[|path| - |name| - 1] == '/' || path[|path| - |name| - 1] == '\\'
  {
    SuffixOfSuffix(path, tail, name);
  }

  /** A character missing from `t` is missing from every suffix of `t`. */
  lemma NotInSuffix(t: string, u: string, c: char)
    requires |u| <= |t| && u == t[|t| - |u|..]
    requires c !in t
    ensures c !in u
  {
    forall i | 0 <= i < |u| ensures u[i] != c {
      assert u[i] == t[|t| - |u| + i];
    }
  }

  /** A suffix of a suffix is a suffix, and the character before it is the same in both. */
  lemma SuffixOfSuffix(s: string, t: string, u: string)
    requires |t| <= |s| && t == s[|s| - |t|..]
    requires |u| <= |t| && u == t[|t| - |u|..]
    ensures u == s[|s| - |u|..]
    ensures |u| < |t| ==> s[|s| - |u| - 1] == t[|t| - |u| - 1]
  {
    assert forall i :: 0 <= i < |t| ==> t[i] == s[|s| - |t| + i];
  }

  /** `path.rsplit("/", 1)[-1].rsplit("\\", 1)[-1]` */
  function BaseName(path: string): (name: string)
    ensures '/' !in name && '\\' !in name
    ensures |name| <= |path| && name == path[|path| - |name|..]
    ensures |name| < |path| ==> path[|path| - |name| - 1] == '/' || path[|path| - |name| - 1] == '\\'
  {
    var tail := AfterLast(path, '/');
    var name := AfterLast(tail, '\\');
    LastComponent(path, tail, name);
    NotInSuffix(tail, name, '/');
    name
  }

  /**
   * The argument check and request of `upload_image`: exactly one of url
   * and file_path must be truthy; a url is sent as JSON with the image
   * type, a file as multipart with the type as a form field.
   */
  function UploadImageRequest(url: Option<string>, filePath: Option<string>, imageType: string): (r: Result<ImageUpload, PyError>)
    ensures r.Success? <==> Given(url) != Given(filePath)
    ensures Given(url) && Given(filePath) ==> r == Failure(ValueError(BothSourcesMessage))
    ensures !Given(url) && !Given(filePath) ==> r == Failure(ValueError(NoSourceMessage))
    ensures r.Success? && Given(url)
            ==> r.value.JsonUpload? && Get(r.value.body, "url") == Some(VStr(url.value))
                && Get(r.value.body, "type") == Some(VStr(imageType))
    ensures r.Success? && Given(filePath)
            ==> r.value.FileUpload? && r.value.path == filePath.value
                && r.value.fileName == BaseName(filePath.value) && Get(r.value.form, "type") == Some(VStr(imageType))
  {
    if Given(url) && Given(filePath) then Failure(ValueError(BothSourcesMessage))
    else if !Given(url) && !Given(filePath) then Failure(ValueError(NoSourceMessage))
    else if Given(url) then
      var body := [("url", VStr(url.value)), ("type", VStr(imageType))];
      GetFirst(body, 1, "type");
      Success(JsonUpload(body))
    else Success(FileUpload(BaseName(filePath.value), filePath.value, [("type", VStr(imageType))]))
  }

  /** The image `upload_image` returns: a non-dict response reads as an empty dict. */
  function UploadedImage(data: Value): (r: Result<CustomImage, PyError>)
    ensures !data.VDict? ==> r == Success(CustomImage(0, VNone, VNone, []))
    ensures data.VDict? ==> r == CustomImageFromDict(data.entries)
  {
    CustomImageFromDict(if data.VDict? then data.entries else [])
  }

  /** `items` in `dimensions`: a dict's "dimensions", else its "results", else an empty list; a list itself; anything else an empty list. */
  function DimensionItems(data: Value): (items: Value)
    ensures data.VList? ==> items == data
    ensures !data.VList? && !data.VDict? ==> items == VList([])
    ensures data.VDict? ==> items == GetOr(data.entries, "dimensions", GetOr(data.entries, "results", VList([])))
  {
    if data.VDict? then GetOr(data.entries, "dimensions", GetOr(data.entries, "results", VList([])))
    else if data.VList? then data
    else VList([])
  }

  /** What `for d in items` visits: a list's items, a string's characters, a dict's keys; other values are not iterable. */
  function Iterate(items: Value): (r: Result<seq<Value>, PyError>)
    ensures r.Success? <==> items.VList? || items.VStr? || items.VDict?
    ensures r.Success? && items.VList? ==> r.value == items.items
    ensures r.Success? ==> |r.value| == if items.VList? then |items.items| else if items.VStr? then |items.s| else if items.VDict? then |items.entries| else 0
  {
    match items
    case VList(xs) => Success(xs)
    case VStr(s) => Success(seq(|s|, i requires 0 <= i < |s| => VStr([s[i]])))
    case VDict(d) => Success(seq(|d|, i requires 0 <= i < |d| => VStr(d[i].0)))
    case _ => Failure(TypeError(NotIterableMessage))
  }

  /** `Dimension.from_dict(d)`: only a dict has `.get`. */
  function DimensionOf(item: Value): (r: Result<Dimension, PyError>)
    ensures !item.VDict? ==> r == Failure(AttributeError(NoGetMessage))
    ensures item.VDict? ==> r == DimensionFromDict(item.entries)
  {
    if item.VDict? then DimensionFromDict(item.entries) else Failure(AttributeError(NoGetMessage))
  }

  /** `[Dimension.from_dict(d) for d in items]` */
  function Dimensions(items: Value): Result<seq<Dimension>, PyError> {
    match Iterate(items)
    case Failure(e) => Failure(e)
    case Success(xs) => Collect(seq(|xs|, i requires 0 <= i < |xs| => DimensionOf(xs[i])))
  }

  /** The parsed dimensions: one per item, in order, all dicts; the first bad item's error otherwise. */
  lemma DimensionsSpec(items: Value)
    requires items.VList?
    ensures var xs := items.items;
            Dimensions(items).Success? <==> forall i :: 0 <= i < |xs| ==> DimensionOf(xs[i]).Success?
    ensures var xs := items.items;
            Dimensions(items).Success?
            ==> |Dimensions(items).value| == |xs|
                && forall i :: 0 <= i < |xs| ==> xs[i].VDict? && DimensionFromDict(xs[i].entries) == Success(Dimensions(items).value[i])
  {
    var xs := items.items;
    var results := seq(|xs|, i requires 0 <= i < |xs| => DimensionOf(xs[i]));
    assert Dimensions(items) == Collect(results);
    CollectSpec(results);
    assert forall i :: 0 <= i < |xs| ==> results[i] == DimensionOf(xs[i]);
  }

  /** A non-empty string or dict in place of the list fails on its first element; an empty one gives no dimensions. */
  lemma DimensionsOfNonList(items: Value)
    requires items.VStr? || items.VDict?
    ensures Truthy(items) ==> Dimensions(items) == Failure(AttributeError(NoGetMessage))
    ensures !Truthy(items) ==> Dimensions(items) == Success([])
  {
    var xs := Iterate(items).value;
    var results := seq(|xs|, i requires 0 <= i < |xs| => DimensionOf(xs[i]));
    if |xs| > 0 {
      assert results[0] == Failure(AttributeError(NoGetMessage));
    }
  }

  /** Which field a `dimensions` filter compares. */
  datatype DimensionField = Format | Orientation

  function FieldOf(d: Dimension, field: DimensionField): Value {
    match field
    case Format => d.format
    case Orientation => d.orientation
  }

  /** `a` is `b` with some of its elements left out and the rest in their order. */
  predicate Subsequence<T(==)>(a: seq<T>, b: seq<T>)
    decreases |b|
  {
    a == [] || (b != [] && ((a[0] == b[0] && Subsequence(a[1..], b[1..])) || Subsequence(a, b[1..])))
  }

  lemma {:induction false} SubsequenceTrans<T>(a: seq<T>, b: seq<T>, c: seq<T>)
    requires Subsequence(a, b) && Subsequence(b, c)
    ensures Subsequence(a, c)
    decreases |c|
  {
    if a != [] {
      if Subsequence(b, c[1..]) {
        SubsequenceTrans(a, b, c[1..]);
      } else if a[0] == b[0] && Subsequence(a[1..], b[1..]) {
        SubsequenceTrans(a[1..], b[1..], c[1..]);
      } else {
        SubsequenceTrans(a, b[1..], c[1..]);
      }
    }
  }

  /** Whether a dimension passes a filter. */
  predicate Matches(d: Dimension, field: DimensionField, want: Option<string>) {
    want.None? || FieldOf(d, field) == VStr(want.value)
  }

  /**
   * `[d for d in dims if <field> == want]`, or all of `dims` when `want` is
   * None: the matching dimensions in their order, each as often as in `dims`.
   */
  function Keep(dims: seq<Dimension>, field: DimensionField, want: Option<string>): (r: seq<Dimension>)
    ensures Subsequence(r, dims)
    ensures forall d :: multiset(r)[d] == if Matches(d, field, want) then multiset(dims)[d] else 0
    ensures forall d :: d in r <==> d in dims && Matches(d, field, want)
    ensures want.None? ==> r == dims
  {
    if dims == [] then []
    else
      var t := Keep(dims[1..], field, want);
      assert dims == [dims[0]] + dims[1..];
      if Matches(dims[0], field, want) then
        var r := [dims[0]] + t;
        assert r[1..] == t;
        r
      else
        assert t == [] || Subsequence(t, dims[1..]);
        t
  }

  /** The two filters commute, so applying format first (as the source does) is the same as orientation first. */
  lemma {:induction false} KeepCommutes(dims: seq<Dimension>, f: DimensionField, a: Option<string>, g: DimensionField, b: Option<string>)
    ensures Keep(Keep(dims, f, a), g, b) == Keep(Keep(dims, g, b), f, a)
  {
    if dims != [] {
      var x, t := dims[0], dims[1..];
      KeepCommutes(t, f, a, g, b);
      KeepCons(x, t, f, a);
      KeepCons(x, t, g, b);
      KeepCons(x, Keep(t, f, a), g, b);
      KeepCons(x, Keep(t, g, b), f, a);
    }
  }

  /** One step of a filter: the head is kept exactly when it matches. */
  lemma KeepCons(x: Dimension, t: seq<Dimension>, field: DimensionField, want: Option<string>)
    ensures Keep([x] + t, field, want) == (if Matches(x, field, want) then [x] + Keep(t, field, want) else Keep(t, field, want))
  {
    assert ([x] + t)[1..] == t;
  }

  /** `dimensions(format, orientation)` on a response. */
  function FilterDimensions(data: Value, format: Option<string>, orientation: Option<string>): Result<seq<Dimension>, PyError> {
    match Dimensions(DimensionItems(data))
    case Failure(e) => Failure(e)
    case Success(dims) => Success(Keep(Keep(dims, Format, format), Orientation, orientation))
  }

  /**
   * The result of `dimensions`: exactly the parsed dimensions matching both
   * given filters, in their order, each as often as it was parsed.
   */
  lemma FilterDimensionsSpec(data: Value, format: Option<string>, orientation: Option<string>)
    requires FilterDimensions(data, format, orientation).Success?
    ensures var all := Dimensions(DimensionItems(data)).value;
            var r := FilterDimensions(data, format, orientation).value;
            && Subsequence(r, all)
            && (forall d :: multiset(r)[d]
                  == if Matches(d, Format, format) && Matches(d, Orientation, orientation) then multiset(all)[d] else 0)
            && (forall d :: d in r <==>
                  (d in all && (format.None? || d.format == VStr(format.value))
                   && (orientation.None? || d.orientation == VStr(orientation.value))))
  {
    var all := Dimensions(DimensionItems(data)).value;
    var byFormat := Keep(all, Format, format);
    SubsequenceTrans(Keep(byFormat, Orientation, orientation), byFormat, all);
  }
}
