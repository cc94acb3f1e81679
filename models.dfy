/**
 * The response records of handwrytten/models.py. Every `from_dict` reads a
 * decoded JSON object with two different fallback styles:
 *   - `data.get(a, data.get(b, d))` falls back only when the key is MISSING
 *     (`GetChain`);
 *   - `data.get(a) or data.get(b)` falls back on any FALSY value (`OrChain`).
 * Every record keeps the input object unchanged as `raw`. Fields the Python
 * code copies without conversion are `Value`s (the dataclass annotations are
 * not enforced at run time); fields wrapped in `str(...)` are strings and
 * fields wrapped in `int(...)` are integers, which can fail.
 */
module Models {
  import opened Wrappers
  import opened Text
  import opened Dicts
  import opened Values

  /** `data.get(key)`: the stored value, or None when the key is missing. */
  function Lookup(data: Dict<Value>, key: string): (v: Value)
    ensures HasKey(data, key) ==> Get(data, key) == Some(v)
    ensures !HasKey(data, key) ==> v == VNone
  {
    GetOr(data, key, VNone)
  }

  /** `a or b` */
  function Or(a: Value, b: Value): Value {
    if Truthy(a) then a else b
  }

  /** `data.get(first, data.get(second, default))` */
  function GetChain(data: Dict<Value>, first: string, second: string, default: Value): (r: Value)
    ensures HasKey(data, first) ==> Get(data, first) == Some(r)
    ensures !HasKey(data, first) && HasKey(data, second) ==> Get(data, second) == Some(r)
    ensures !HasKey(data, first) && !HasKey(data, second) ==> r == default
  {
    GetOr(data, first, GetOr(data, second, default))
  }

  /**
   * `data.get(k0) or data.get(k1) or ...`: the first truthy value among the
   * keys, or, when none is truthy, the value of the last key.
   */
  function OrChain(data: Dict<Value>, keys: seq<string>): (r: Value)
    requires keys != []
    ensures Truthy(r) ==> exists i :: 0 <= i < |keys| && r == Lookup(data, keys[i])
                                      && forall j :: 0 <= j < i ==> !Truthy(Lookup(data, keys[j]))
    ensures !Truthy(r) ==> r == Lookup(data, keys[|keys| - 1])
                           && forall i :: 0 <= i < |keys| ==> !Truthy(Lookup(data, keys[i]))
  {
    var i := FirstTruthyAt(data, keys);
    if i < |keys| then Lookup(data, keys[i]) else Lookup(data, keys[|keys| - 1])
  }

  /** The position of the first key whose value is truthy, or `|keys|`. */
  function FirstTruthyAt(data: Dict<Value>, keys: seq<string>): (i: nat)
    ensures i <= |keys|
    ensures i < |keys| ==> Truthy(Lookup(data, keys[i]))
    ensures forall j :: 0 <= j < i ==> !Truthy(Lookup(data, keys[j]))
  {
    if keys == [] then 0
    else if Truthy(Lookup(data, keys[0])) then 0
    else
      var i := FirstTruthyAt(data, keys[1..]);
      assert forall j :: 1 <= j < |keys| ==> keys[j] == keys[1..][j - 1];
      1 + i
  }

  /**
   * The two fallback styles disagree exactly on a present but falsy first
   * key: `get` keeps it, `or` moves on.
   */
  lemma GetChainKeepsFalsy(data: Dict<Value>, first: string, second: string)
    requires HasKey(data, first) && !Truthy(Get(data, first).value)
    requires HasKey(data, second) && Truthy(Get(data, second).value)
    ensures GetChain(data, first, second, VNone) == Get(data, first).value
    ensures OrChain(data, [first, second]) == Get(data, second).value
  {
    assert Lookup(data, first) == Get(data, first).value;
    assert [first, second][1..] == [second];
  }

  /** `str(data.get(key, ""))` */
  function StrOf(data: Dict<Value>, key: string): (s: string)
    ensures !HasKey(data, key) ==> s == ""
  {
    Str(GetOr(data, key, VStr("")))
  }

  datatype User = User(id: string, email: Value, firstName: Value, lastName: Value,
                       company: Value, credits: Value, raw: Dict<Value>)

  /** `User.from_dict`: id from "id", else "uid" (key missing only); names from snake case, else camel case (falsy). */
  function UserFromDict(data: Dict<Value>): (u: User)
    ensures u.raw == data
    ensures HasKey(data, "id") ==> u.id == Str(Get(data, "id").value)
    ensures !HasKey(data, "id") ==> u.id == StrOf(data, "uid")
    ensures u.email == Lookup(data, "email") && u.company == Lookup(data, "company")
    ensures u.credits == Lookup(data, "credits")
    ensures u.firstName == if Truthy(Lookup(data, "first_name")) then Lookup(data, "first_name") else Lookup(data, "firstName")
    ensures u.lastName == if Truthy(Lookup(data, "last_name")) then Lookup(data, "last_name") else Lookup(data, "lastName")
  {
    User(Str(GetChain(data, "id", "uid", VStr(""))), Lookup(data, "email"),
         OrChain(data, ["first_name", "firstName"]), OrChain(data, ["last_name", "lastName"]),
         Lookup(data, "company"), Lookup(data, "credits"), data)
  }

  datatype Card = Card(id: string, title: Value, imageUrl: Value, category: Value, cover: Value, raw: Dict<Value>)

  /** `Card.from_dict`: title from "title", else "name" (key missing only). */
  function CardFromDict(data: Dict<Value>): (c: Card)
    ensures c.raw == data && c.id == StrOf(data, "id") && c.cover == Lookup(data, "cover")
    ensures HasKey(data, "title") ==> Get(data, "title") == Some(c.title)
    ensures !HasKey(data, "title") ==> c.title == GetOr(data, "name", VStr(""))
    ensures Truthy(c.imageUrl) <==> Truthy(Lookup(data, "image_url")) || Truthy(Lookup(data, "image")) || Truthy(Lookup(data, "cover"))
    ensures Truthy(Lookup(data, "image_url")) ==> c.imageUrl == Lookup(data, "image_url")
    ensures !Truthy(Lookup(data, "image_url")) && Truthy(Lookup(data, "image")) ==> c.imageUrl == Lookup(data, "image")
    ensures !Truthy(Lookup(data, "image_url")) && !Truthy(Lookup(data, "image")) ==> c.imageUrl == Lookup(data, "cover")
    ensures c.category == if Truthy(Lookup(data, "category")) then Lookup(data, "category") else Lookup(data, "product_type")
  {
    var keys := ["image_url", "image", "cover"];
    var imageUrl := OrChain(data, keys);
    assert keys[0] == "image_url" && keys[1] == "image" && keys[2] == "cover";
    Card(StrOf(data, "id"), GetChain(data, "title", "name", VStr("")), imageUrl,
         OrChain(data, ["category", "product_type"]), Lookup(data, "cover"), data)
  }

  datatype Font = Font(id: string, name: Value, displayLabel: Value, previewUrl: Value, raw: Dict<Value>)

  /** `Font.from_dict`: name falls back to "title" and displayLabel to "name", both only on a missing key. */
  function FontFromDict(data: Dict<Value>): (f: Font)
    ensures f.raw == data && f.id == StrOf(data, "id")
    ensures f.name == if HasKey(data, "name") then Get(data, "name").value else GetOr(data, "title", VStr(""))
    ensures f.displayLabel == if HasKey(data, "label") then Get(data, "label").value else GetOr(data, "name", VStr(""))
    ensures Truthy(Lookup(data, "preview_url")) ==> f.previewUrl == Lookup(data, "preview_url")
    ensures !Truthy(Lookup(data, "preview_url")) && Truthy(Lookup(data, "image")) ==> f.previewUrl == Lookup(data, "image")
    ensures !Truthy(Lookup(data, "preview_url")) && !Truthy(Lookup(data, "image")) ==> f.previewUrl == Lookup(data, "preview")
  {
    var keys := ["preview_url", "image", "preview"];
    assert keys[0] == "preview_url" && keys[1] == "image" && keys[2] == "preview";
    Font(StrOf(data, "id"), GetChain(data, "name", "title", VStr("")), GetChain(data, "label", "name", VStr("")),
         OrChain(data, keys), data)
  }

  datatype GiftCard = GiftCard(id: string, title: Value, amount: Value, imageUrl: Value, raw: Dict<Value>)

  /** `GiftCard.from_dict` */
  function GiftCardFromDict(data: Dict<Value>): (g: GiftCard)
    ensures g.raw == data && g.id == StrOf(data, "id")
    ensures g.title == if HasKey(data, "title") then Get(data, "title").value else GetOr(data, "name", VStr(""))
    ensures g.amount == if Truthy(Lookup(data, "amount")) then Lookup(data, "amount") else Lookup(data, "value")
    ensures g.imageUrl == if Truthy(Lookup(data, "image_url")) then Lookup(data, "image_url") else Lookup(data, "image")
  {
    GiftCard(StrOf(data, "id"), GetChain(data, "title", "name", VStr("")),
             OrChain(data, ["amount", "value"]), OrChain(data, ["image_url", "image"]), data)
  }

  datatype Insert = Insert(id: string, title: Value, imageUrl: Value, raw: Dict<Value>)

  /** `Insert.from_dict` */
  function InsertFromDict(data: Dict<Value>): (n: Insert)
    ensures n.raw == data && n.id == StrOf(data, "id")
    ensures n.title == if HasKey(data, "title") then Get(data, "title").value else GetOr(data, "name", VStr(""))
    ensures n.imageUrl == if Truthy(Lookup(data, "image_url")) then Lookup(data, "image_url") else Lookup(data, "image")
  {
    Insert(StrOf(data, "id"), GetChain(data, "title", "name", VStr("")), OrChain(data, ["image_url", "image"]), data)
  }

  datatype QRCode = QRCode(id: string, url: Value, title: Value, raw: Dict<Value>)

  /** `QRCode.from_dict` */
  function QRCodeFromDict(data: Dict<Value>): (q: QRCode)
    ensures q.raw == data && q.id == StrOf(data, "id") && q.url == Lookup(data, "url")
    ensures q.title == if Truthy(Lookup(data, "title")) then Lookup(data, "title") else Lookup(data, "name")
  {
    QRCode(StrOf(data, "id"), Lookup(data, "url"), OrChain(data, ["title", "name"]), data)
  }

  datatype Order = Order(id: string, status: Value, message: Value, cardId: Option<string>, fontId: Option<string>,
                         createdAt: Value, trackingNumber: Value, raw: Dict<Value>)

  /** `str(v)` of a truthy value, None otherwise (`str(d.get(k, "")) if d.get(k) else None`). */
  function StrIfTruthy(data: Dict<Value>, key: string): (r: Option<string>)
    ensures r.Some? <==> Truthy(Lookup(data, key))
    ensures r.Some? ==> r.value == Str(Get(data, key).value)
  {
    if Truthy(Lookup(data, key)) then Some(StrOf(data, key)) else None
  }

  /** `Order.from_dict`: id from "id", else "order_id" (key missing only); card and font ids as text when truthy. */
  function OrderFromDict(data: Dict<Value>): (o: Order)
    ensures o.raw == data && o.status == Lookup(data, "status") && o.message == Lookup(data, "message")
    ensures o.id == if HasKey(data, "id") then Str(Get(data, "id").value) else StrOf(data, "order_id")
    ensures o.cardId.Some? <==> Truthy(Lookup(data, "card_id"))
    ensures o.cardId.Some? ==> o.cardId.value == Str(Get(data, "card_id").value)
    ensures o.fontId.Some? <==> Truthy(Lookup(data, "font_id"))
    ensures o.fontId.Some? ==> o.fontId.value == Str(Get(data, "font_id").value)
    ensures o.createdAt == if Truthy(Lookup(data, "created_at")) then Lookup(data, "created_at") else Lookup(data, "createdAt")
    ensures o.trackingNumber == if Truthy(Lookup(data, "tracking_number")) then Lookup(data, "tracking_number") else Lookup(data, "trackingNumber")
  {
    Order(Str(GetChain(data, "id", "order_id", VStr(""))), Lookup(data, "status"), Lookup(data, "message"),
          StrIfTruthy(data, "card_id"), StrIfTruthy(data, "font_id"),
          OrChain(data, ["created_at", "createdAt"]), OrChain(data, ["tracking_number", "trackingNumber"]), data)
  }

  /** An integer card id 0 is falsy, so `Order.card_id` is None for it, not "0". */
  lemma OrderZeroCardId(data: Dict<Value>)
    requires Get(data, "card_id") == Some(VInt(0))
    ensures OrderFromDict(data).cardId == None
  {
  }

  datatype Dimension = Dimension(id: int, orientation: Value, format: Value, openWidth: Value, openHeight: Value,
                                 name: Value, raw: Dict<Value>)

  /** `int(data.get(key, 0))` */
  function IntOr0(data: Dict<Value>, key: string): (r: Result<int, PyError>)
    ensures !HasKey(data, key) ==> r == Success(0)
    ensures HasKey(data, key) ==> r == PyInt(Get(data, key).value)
  {
    PyInt(GetOr(data, key, VInt(0)))
  }

  /** `Dimension.from_dict`: `int()` of the id may raise; text fields default to "". */
  function DimensionFromDict(data: Dict<Value>): (r: Result<Dimension, PyError>)
    ensures r.Success? <==> IntOr0(data, "id").Success?
    ensures r.Success? ==> r.value.id == IntOr0(data, "id").value && r.value.raw == data
    ensures r.Success? ==> r.value.orientation == GetOr(data, "orientation", VStr(""))
                           && r.value.format == GetOr(data, "format", VStr(""))
                           && r.value.openWidth == GetOr(data, "open_width", VStr(""))
                           && r.value.openHeight == GetOr(data, "open_height", VStr(""))
                           && r.value.name == Lookup(data, "name")
  {
    match IntOr0(data, "id")
    case Failure(e) => Failure(e)
    case Success(id) =>
      Success(Dimension(id, GetOr(data, "orientation", VStr("")), GetOr(data, "format", VStr("")),
                        GetOr(data, "open_width", VStr("")), GetOr(data, "open_height", VStr("")),
                        Lookup(data, "name"), data))
  }

  /** `Dimension.__str__`: "{open_width}x{open_height} {format} ({orientation})". */
  function DimensionStr(d: Dimension): (s: string)
    ensures |s| > |Str(d.openWidth)| && s[..|Str(d.openWidth)|] == Str(d.openWidth) && s[|Str(d.openWidth)|] == 'x'
    ensures s[|s| - 1] == ')'
  {
    Str(d.openWidth) + "x" + Str(d.openHeight) + " " + Str(d.format) + " (" + Str(d.orientation) + ")"
  }

  /** When the width text has no 'x', the first 'x' of the rendering separates width from height. */
  lemma DimensionStrWidth(d: Dimension)
    requires 'x' !in Str(d.openWidth)
    ensures var s := DimensionStr(d); 'x' in s && s[..IndexOf(s, 'x')] == Str(d.openWidth)
  {
    var s := DimensionStr(d);
    var w := Str(d.openWidth);
    assert s[|w|] == 'x';
    assert 'x' !in s[..|w|] by { assert s[..|w|] == w; }
  }

  /** `s` split at its first `c`: the text before and the text after. */
  function SplitAtFirst(s: string, c: char): (r: Option<(string, string)>)
    ensures r.Some? <==> c in s
    ensures r.Some? ==> c !in r.value.0 && s == r.value.0 + [c] + r.value.1
  {
    if c in s then
      var i := IndexOf(s, c);
      assert s == s[..i] + [c] + s[i + 1..];
      Some((s[..i], s[i + 1..]))
    else None
  }

  /** The first `c` after a prefix that has none is at the prefix's length. */
  lemma {:induction false} IndexOfAfter(a: string, c: char, b: string)
    requires c !in a
    ensures IndexOf(a + [c] + b, c) == |a|
  {
    if a != [] {
      assert (a + [c] + b)[1..] == a[1..] + [c] + b;
      IndexOfAfter(a[1..], c, b);
    }
  }

  /** Splitting at the first `c` finds the `c` placed after a prefix that has none. */
  lemma SplitAtFirstOf(a: string, c: char, b: string)
    requires c !in a
    ensures SplitAtFirst(a + [c] + b, c) == Some((a, b))
  {
    var s := a + [c] + b;
    IndexOfAfter(a, c, b);
    assert s[..|a|] == a && s[|a| + 1..] == b;
  }

  /**
   * Reads a `Dimension.__str__` rendering back: the width up to the first
   * 'x', the height up to the next space, the format up to the next space,
   * then the orientation between parentheses.
   */
  function ParseDimensionStr(s: string): Option<(string, string, string, string)> {
    match SplitAtFirst(s, 'x')
    case None => None
    case Some((w, rest)) =>
      match SplitAtFirst(rest, ' ')
      case None => None
      case Some((h, rest')) =>
        match SplitAtFirst(rest', ' ')
        case None => None
        case Some((f, tail)) =>
          if |tail| >= 2 && tail[0] == '(' && tail[|tail| - 1] == ')' then Some((w, h, f, tail[1..|tail| - 1]))
          else None
  }

  /**
   * Every field of a dimension reads back from its rendering, in the order
   * width, height, format, orientation, when the width has no 'x' and the
   * height and format have no space.
   */
  lemma DimensionStrRoundTrip(d: Dimension)
    requires 'x' !in Str(d.openWidth) && ' ' !in Str(d.openHeight) && ' ' !in Str(d.format)
    ensures ParseDimensionStr(DimensionStr(d))
            == Some((Str(d.openWidth), Str(d.openHeight), Str(d.format), Str(d.orientation)))
  {
    var w, h, f, o := Str(d.openWidth), Str(d.openHeight), Str(d.format), Str(d.orientation);
    assert DimensionStr(d) == w + ['x'] + (h + [' '] + (f + [' '] + ("(" + o + ")")));
    ParseRendered(w, h, f, o);
  }

  /** The parse of the four parts laid out as `__str__` lays them out. */
  lemma ParseRendered(w: string, h: string, f: string, o: string)
    requires 'x' !in w && ' ' !in h && ' ' !in f
    ensures ParseDimensionStr(w + ['x'] + (h + [' '] + (f + [' '] + ("(" + o + ")")))) == Some((w, h, f, o))
  {
    var tail := "(" + o + ")";
    var rest' := f + [' '] + tail;
    var rest := h + [' '] + rest';
    SplitAtFirstOf(w, 'x', rest);
    SplitAtFirstOf(h, ' ', rest');
    SplitAtFirstOf(f, ' ', tail);
    assert tail[1..|tail| - 1] == o;
  }

  datatype CustomImage = CustomImage(id: int, imageUrl: Value, imageType: Value, raw: Dict<Value>)

  /** `CustomImage.from_dict`: the image URL is the first truthy of "src", "image_url", "url". */
  function CustomImageFromDict(data: Dict<Value>): (r: Result<CustomImage, PyError>)
    ensures r.Success? <==> IntOr0(data, "id").Success?
    ensures r.Success? ==> r.value.id == IntOr0(data, "id").value && r.value.raw == data
    ensures r.Success? ==> r.value.imageType == Lookup(data, "type")
    ensures r.Success? && Truthy(Lookup(data, "src")) ==> r.value.imageUrl == Lookup(data, "src")
    ensures r.Success? && !Truthy(Lookup(data, "src")) && Truthy(Lookup(data, "image_url")) ==> r.value.imageUrl == Lookup(data, "image_url")
    ensures r.Success? && !Truthy(Lookup(data, "src")) && !Truthy(Lookup(data, "image_url")) ==> r.value.imageUrl == Lookup(data, "url")
  {
    var keys := ["src", "image_url", "url"];
    assert keys[0] == "src" && keys[1] == "image_url" && keys[2] == "url";
    match IntOr0(data, "id")
    case Failure(e) => Failure(e)
    case Success(id) => Success(CustomImage(id, OrChain(data, keys), Lookup(data, "type"), data))
  }

  datatype CustomCard = CustomCard(cardId: int, categoryId: Option<int>, raw: Dict<Value>)

  /**
   * `CustomCard.from_dict`: the card id is `int()` of "card_id", else "id"
   * (key missing only), else 0; the category id is converted only when truthy.
   */
  function CustomCardFromDict(data: Dict<Value>): (r: Result<CustomCard, PyError>)
    ensures !HasKey(data, "card_id") && !HasKey(data, "id") && !Truthy(Lookup(data, "category_id"))
            ==> r == Success(CustomCard(0, None, data))
    ensures r.Success? ==> r.value.raw == data
    ensures r.Success? ==> Success(r.value.cardId) == PyInt(GetChain(data, "card_id", "id", VInt(0)))
    ensures r.Success? ==> (r.value.categoryId.Some? <==> Truthy(Lookup(data, "category_id")))
    ensures r.Success? && r.value.categoryId.Some? ==> Success(r.value.categoryId.value) == PyInt(Get(data, "category_id").value)
    ensures r.Failure? ==> PyInt(GetChain(data, "card_id", "id", VInt(0))).Failure?
                           || (Truthy(Lookup(data, "category_id")) && PyInt(Lookup(data, "category_id")).Failure?)
  {
    match PyInt(GetChain(data, "card_id", "id", VInt(0)))
    case Failure(e) => Failure(e)
    case Success(cardId) =>
      if Truthy(Lookup(data, "category_id")) then
        match PyInt(Lookup(data, "category_id"))
        case Failure(e) => Failure(e)
        case Success(c) => Success(CustomCard(cardId, Some(c), data))
      else Success(CustomCard(cardId, None, data))
  }

  datatype SavedAddress = SavedAddress(id: int, firstName: Value, lastName: Value, company: Value, street1: Value,
                                       street2: Value, city: Value, state: Value, zip: string, country: Value,
                                       raw: Dict<Value>)

  /**
   * `SavedAddress.from_dict`: the wire names address1, address2 and
   * business_name become street1, street2 and company; state falls back to
   * "states" when falsy; zip is always text.
   */
  function SavedAddressFromDict(data: Dict<Value>): (r: Result<SavedAddress, PyError>)
    ensures r.Success? <==> IntOr0(data, "id").Success?
    ensures r.Success? ==> r.value.id == IntOr0(data, "id").value && r.value.raw == data
    ensures r.Success? ==> r.value.street1 == Lookup(data, "address1") && r.value.street2 == Lookup(data, "address2")
                           && r.value.company == Lookup(data, "business_name")
    ensures r.Success? ==> r.value.firstName == Lookup(data, "first_name") && r.value.lastName == Lookup(data, "last_name")
                           && r.value.city == Lookup(data, "city") && r.value.country == Lookup(data, "country")
    ensures r.Success? ==> r.value.state == if Truthy(Lookup(data, "state")) then Lookup(data, "state") else Lookup(data, "states")
    ensures r.Success? ==> r.value.zip == StrOf(data, "zip")
  {
    match IntOr0(data, "id")
    case Failure(e) => Failure(e)
    case Success(id) =>
      Success(SavedAddress(id, Lookup(data, "first_name"), Lookup(data, "last_name"), Lookup(data, "business_name"),
                           Lookup(data, "address1"), Lookup(data, "address2"), Lookup(data, "city"),
                           OrChain(data, ["state", "states"]), StrOf(data, "zip"), Lookup(data, "country"), data))
  }

  /** A numeric zip code in the response becomes its decimal text, which reads back as the same number. */
  lemma SavedAddressNumericZip(data: Dict<Value>, n: int)
    requires Get(data, "zip") == Some(VInt(n))
    requires SavedAddressFromDict(data).Success?
    ensures SavedAddressFromDict(data).value.zip == IntToString(n)
    ensures ParseInt(SavedAddressFromDict(data).value.zip) == Some(n)
  {
    var a := SavedAddressFromDict(data).value;
    StrOfInt(data, "zip", n);
    assert a.zip == IntToString(n);
    IntRoundTrip(n);
  }

  /** A field holding an int reads as its decimal text. */
  lemma StrOfInt(data: Dict<Value>, key: string, n: int)
    requires Get(data, key) == Some(VInt(n))
    ensures StrOf(data, key) == IntToString(n)
  {
  }

  const JoinItemMessage := "sequence item: expected str instance"

  /**
   * `" ".join(filter(None, [first_name, last_name]))`: the truthy parts,
   * space-separated. `join` rejects a truthy part that is not text.
   */
  function NameOf(first: Value, last: Value): (r: Result<string, PyError>)
    ensures r.Failure? <==> (Truthy(first) && !first.VStr?) || (Truthy(last) && !last.VStr?)
    ensures r.Success? ==> r.value == if Truthy(first) && Truthy(last) then first.s + " " + last.s
                                     else if Truthy(first) then first.s
                                     else if Truthy(last) then last.s
                                     else ""
  {
    var parts := (if Truthy(first) then [first] else []) + (if Truthy(last) then [last] else []);
    if exists i :: 0 <= i < |parts| && !parts[i].VStr? then
      Failure(TypeError(JoinItemMessage))
    else if |parts| == 2 then Success(parts[0].s + " " + parts[1].s)
    else if |parts| == 1 then Success(parts[0].s)
    else Success("")
  }

  /** `SavedAddress.__str__`: "First Last, street1, city, state zip"; missing text fields print as "None". */
  function SavedAddressStr(a: SavedAddress): (r: Result<string, PyError>)
    ensures r.Success? <==> NameOf(a.firstName, a.lastName).Success?
    ensures r.Success? ==> r.value == NameOf(a.firstName, a.lastName).value + ", " + Str(a.street1) + ", "
                                      + Str(a.city) + ", " + Str(a.state) + " " + a.zip
  {
    match NameOf(a.firstName, a.lastName)
    case Failure(e) => Failure(e)
    case Success(name) => Success(name + ", " + Str(a.street1) + ", " + Str(a.city) + ", " + Str(a.state) + " " + a.zip)
  }

  /** With no name at all the rendering starts with the separator. */
  lemma SavedAddressStrNoName(a: SavedAddress)
    requires !Truthy(a.firstName) && !Truthy(a.lastName)
    ensures SavedAddressStr(a).Success? && SavedAddressStr(a).value[..2] == ", "
  {
  }

  datatype Country = Country(code: Value, name: Value, raw: Dict<Value>)

  /** `Country.from_dict`: code from "code", else "id" (key missing only). */
  function CountryFromDict(data: Dict<Value>): (c: Country)
    ensures c.raw == data && c.name == GetOr(data, "name", VStr(""))
    ensures c.code == if HasKey(data, "code") then Get(data, "code").value else GetOr(data, "id", VStr(""))
  {
    Country(GetChain(data, "code", "id", VStr("")), GetOr(data, "name", VStr("")), data)
  }

  datatype State = State(code: Value, name: Value, raw: Dict<Value>)

  /** `State.from_dict`: code from "code", else "abbreviation" (key missing only). */
  function StateFromDict(data: Dict<Value>): (s: State)
    ensures s.raw == data && s.name == GetOr(data, "name", VStr(""))
    ensures s.code == if HasKey(data, "code") then Get(data, "code").value else GetOr(data, "abbreviation", VStr(""))
  {
    State(GetChain(data, "code", "abbreviation", VStr("")), GetOr(data, "name", VStr("")), data)
  }
}
