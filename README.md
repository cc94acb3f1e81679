# handwrytten SDK core, modelled in Dafny

This project models the deterministic core of the `handwrytten` Python SDK
and its command-line tool, and proves properties of it:

- **Recipient and sender resolution** (`handwrytten/resources.py`):
  `_flatten_address` and its `_CAMEL_TO_API` renaming; the recipient loop of
  `OrdersResource.send`, with its override and default rules for message,
  wishes and sender; the address conversion of `BasketResource.add_order`;
  the `dimensions` filter, the `create` body and the `upload_image` argument
  check. A recipient or sender is a dynamic Python value (`Values.Value`):
  None, bool, int, str, list, dict or a `Recipient`/`Sender` record.
  Dicts are insertion-ordered association lists (`Dicts.Dict`), because the
  order of keys decides which entry wins a collision.
- **Response classification and retry policy** (`handwrytten/http_client.py`):
  `_handle_response` maps a status to an error kind (429 as in section 4 of
  RFC 6585, `Retry-After` read only in the delay-seconds form of section
  10.2.3 of RFC 9110); `_extract_error_message`; the base-URL normalisation
  of `HttpClient.__init__`; the retry loop of `request` and `post_multipart`.
  The loop is a method of the `HttpClient.Client` class, driven by an input
  function giving each attempt's outcome (a response, a connection error or a
  timeout), and it records its sleeps as a list of waits.
- **Free-text address parser and CSV header normaliser**
  (`handwrytten/cli/address_parser.py`): comma splitting, the backward scan
  for a state and ZIP tail, the fallback, the street/company layout, and
  `normalize_csv_row`. The two regular expressions are explicit character
  predicates.
- **Record mapping and error formatting** (`handwrytten/models.py`,
  `handwrytten/exceptions.py`): every `from_dict`, with its two kinds of
  fallback (on a missing key, or on any falsy value); `to_dict` of
  `Recipient` and `Sender`; the `__str__` formats; the error classes and
  their default messages.
- **The `send` command and table output** (`handwrytten/cli/commands/send.py`,
  `handwrytten/cli/output.py`): `{{key}}` substitution; the CSV
  required-field check; the early exits; the batch loop with its sent and
  failed tallies; the widths, truncation and padding of `print_table`.

Each `for` loop of the modelled code is a method proved equal to a
specification function; list and dict comprehensions, the `from_dict`
chains and the `__str__` formats are expressions in the source and
functions here. The lemmas beside each function state what the source promises.
The remote API is a parameter, `respond`, that gives the reply to the
`j`-th order request (0-based).

## Model

| member | source | states |
|---|---|---|
| Exceptions.DefaultMessage | handwrytten/exceptions.py:11-67 | each error class has a fixed, non-empty default message, one ensures per class: "An error occurred with the Handwrytten API", "Invalid or missing API key", "Bad request", "Resource not found", "Rate limit exceeded. Please retry after a delay.", "Handwrytten server error" |
| Exceptions.NewError | handwrytten/exceptions.py:11-20 | the constructor keeps the kind, the given message (or the class default when omitted), the status code, the response body and `retry_after` exactly as given |
| Exceptions.ErrorStr | handwrytten/exceptions.py:22-26 | `__str__` starts with the message and is exactly the message when the status code is None or 0 |
| Exceptions.ErrorStrStatus | handwrytten/exceptions.py:22-26 | with a non-zero status code the text after the message is " (HTTP n)" and the status code parses back out of it |
| HttpClient.FirstPresentAt | handwrytten/http_client.py:207-209 | the position of the first message key the body has: every earlier key is absent |
| HttpClient.FirstPresent | handwrytten/http_client.py:207-209 | the first of "message", "error", "errors", "detail", "msg" present in the dict, none exactly when no key is present |
| HttpClient.MessageOf | handwrytten/http_client.py:210-215 | a string value as is, a non-empty list's first element through `str`, anything else through `str` |
| HttpClient.ExtractErrorMessage | handwrytten/http_client.py:204-218 | a dict body gives the value under its first present message key; else a non-empty text body cut to 200 characters; else the default |
| HttpClient.HandleResponse | handwrytten/http_client.py:153-202 | success exactly below 400, returning the body; every API error carries the status code and the raw body; an error other than 429 has the kind of its status and the message `_extract_error_message` gives with that branch's fallback ("Server error", "Authentication failed", "Resource not found", "Bad request"); a 429 keeps the class default message; a `ValueError` escapes only from `int()` of a non-integer `Retry-After` on a 429 |
| HttpClient.ExtractMessage | handwrytten/http_client.py:204-218 | the key loop, returning at the first message key the dict body has, computes exactly the extracted message |
| HttpClient.FirstPresentIs | handwrytten/http_client.py:207-208 | a search that finds key i after all earlier keys were absent (or none after all) agrees with the first present key |
| HttpClient.Classification | handwrytten/http_client.py:162-200 | every status of 400 or more is an API error of the kind its branch gives, checked in order: ≥500 server (first), 429 rate limit, 401/403 authentication, 404 not found, other bad request |
| HttpClient.RateLimitCarriesRetryAfter | handwrytten/http_client.py:170-176 | a 429 keeps the class default message and carries `int(Retry-After)` when the header is truthy, None otherwise |
| HttpClient.RetryAfterNotInteger | handwrytten/http_client.py:171-175 | a truthy `Retry-After` that is not an integer makes the 429 branch raise `ValueError` |
| HttpClient.AttemptStep | handwrytten/http_client.py:87-149 | an attempt is retryable exactly for a server or rate-limit error, a connection error or a timeout; otherwise it ends with `_handle_response`'s result |
| HttpClient.WaitFor | handwrytten/http_client.py:109-113 | the wait after failed attempt k is a truthy `retry_after` of a rate-limit error, else `RETRY_BACKOFF * 2^k` |
| HttpClient.StepSuccess | handwrytten/http_client.py:87-108 | only a response below 400 finishes an attempt successfully, with its body |
| HttpClient.LoopBounds | handwrytten/http_client.py:86-151 | from attempt k on, between 1 and `max_retries - k` attempts are made with one wait between consecutive attempts |
| HttpClient.RetryBounds | handwrytten/http_client.py:86-151 | with `max_retries ≥ 1` at most `max_retries` attempts and one fewer waits; with `max_retries ≤ 0` no attempt is made and `raise None` fails with `TypeError` |
| HttpClient.LoopSuccess | handwrytten/http_client.py:86-108 | a successful run ends with an attempt that finished with that very result |
| HttpClient.RetrySuccess | handwrytten/http_client.py:86-151 | errors are never swallowed: success is the body of a response below 400 on the last attempt made |
| HttpClient.LoopWaits | handwrytten/http_client.py:109-149 | each wait follows a retryable attempt and equals `WaitFor` of that attempt's error |
| HttpClient.RetryWaits | handwrytten/http_client.py:109-149 | wait j follows failed attempt j and is its truthy `retry_after` or the exponential backoff |
| HttpClient.NotRetried | handwrytten/http_client.py:106-108 | an authentication, not-found or bad-request response on the first attempt is raised at once: one attempt, no wait |
| HttpClient.LoopExhausted | handwrytten/http_client.py:99-151 | when every attempt fails in a retryable way, all attempts are made and the last error is raised |
| HttpClient.RetryExhausted | handwrytten/http_client.py:99-151 | when every attempt from the first fails in a retryable way, `max_retries` attempts are made and the last attempt's error is raised |
| HttpClient.ThreeServerErrors | handwrytten/http_client.py:24-27 | with the default three attempts and a 503 every time, the client waits 1 s and 2 s and raises the third server error |
| HttpClient.LStripChar | handwrytten/http_client.py:78 | `path.lstrip("/")` removes exactly the leading slashes |
| HttpClient.NormalizedBase | handwrytten/http_client.py:42 | the base URL with its trailing slashes stripped and exactly one `/` appended |
| HttpClient.DefaultHeadersLookup | handwrytten/http_client.py:46-53 | the four client headers (Accept, Content-Type, Authorization, User-Agent) win; every other session header is kept |
| HttpClient.Client.constructor | handwrytten/http_client.py:33-53 | keeps the key, timeout and retry count, normalises the base URL, and writes the four client headers over the starting session headers (a given session's, or a fresh session's defaults, taken as an input), keeping every other header |
| HttpClient.Client.Url | handwrytten/http_client.py:78 | the request URL is the base URL followed by the path without its leading slashes |
| HttpClient.Client.RetryLoop | handwrytten/http_client.py:86-151 | the `for attempt in range(max_retries)` loop produces exactly the run `Retry` specifies |
| HttpClient.Client.Request | handwrytten/http_client.py:55-151 | the URL, an `Idempotency-Key` header present exactly when the key is non-empty, and the retry run |
| HttpClient.Client.PostMultipart | handwrytten/http_client.py:233-299 | the same URL rule, the `Content-Type: None` header and the same classification and retry run as `request` |
| Models.Lookup | handwrytten/models.py:25 | `data.get(key)` is the stored value, or None for a missing key |
| Models.GetChain | handwrytten/models.py:49 | `data.get(a, data.get(b, d))` falls back to `b`, then `d`, only when the earlier key is missing |
| Models.OrChain | handwrytten/models.py:50 | `data.get(a) or data.get(b) or ...` is the first truthy value, and when none is truthy the last key's value |
| Models.FirstTruthyAt | handwrytten/models.py:50 | the position of the first key with a truthy value; every earlier key is falsy |
| Models.GetChainKeepsFalsy | handwrytten/models.py:24-27 | the two fallback styles disagree exactly on a present but falsy first key: `get` keeps it, `or` moves on |
| Models.StrOf | handwrytten/models.py:48 | `str(data.get(key, ""))` is "" for a missing key |
| Models.UserFromDict | handwrytten/models.py:21-31 | id from "id", else "uid" (missing key only); names from snake case, else camel case (falsy); email, company, credits as stored; `raw` is the input |
| Models.CardFromDict | handwrytten/models.py:45-54 | title from "title", else "name" (missing key only); the image URL is the first truthy of image_url, image, cover, else cover's value; `raw` is the input |
| Models.FontFromDict | handwrytten/models.py:67-75 | name falls back to "title" and label to "name" on a missing key only; the preview URL is the first truthy of preview_url, image, preview, else preview's value, each of the three cases stated |
| Models.GiftCardFromDict | handwrytten/models.py:88-96 | title falls back to "name" on a missing key; amount and image URL fall back on a falsy value |
| Models.InsertFromDict | handwrytten/models.py:108-115 | title falls back to "name" on a missing key; the image URL falls back to "image" on a falsy value |
| Models.QRCodeFromDict | handwrytten/models.py:143-150 | the URL as stored; the title falls back to "name" on a falsy value |
| Models.StrIfTruthy | handwrytten/models.py:234-235 | `str(v)` exactly when the value is truthy, None otherwise |
| Models.OrderFromDict | handwrytten/models.py:228-239 | id from "id", else "order_id" (missing key only); card and font ids are text exactly when truthy; created_at and tracking_number fall back on a falsy value |
| Models.OrderZeroCardId | handwrytten/models.py:234 | an integer card id 0 is falsy, so the order's card id is None |
| Models.IntOr0 | handwrytten/models.py:257 | `int(data.get(key, 0))`: 0 for a missing key, else `int()` of the stored value, which may raise |
| Models.DimensionFromDict | handwrytten/models.py:254-263 | succeeds exactly when `int()` of the id does; text fields default to "" on a missing key; `raw` is the input |
| Models.DimensionStr | handwrytten/models.py:266-267 | the rendering starts with the open width followed by 'x' and ends with ')' |
| Models.SplitAtFirst | handwrytten/models.py:266-267 | splitting at the first occurrence of a character: defined exactly when it occurs, the prefix lacks it, and prefix, character and rest rebuild the text |
| Models.DimensionStrRoundTrip | handwrytten/models.py:266-267 | width, height, format and orientation all read back from the rendering, in that order, when the width has no 'x' and the height and format have no space |
| Models.DimensionStrWidth | handwrytten/models.py:266-267 | when the width has no 'x', the width reads back as the text before the first 'x' |
| Models.CustomImageFromDict | handwrytten/models.py:279-286 | succeeds exactly when `int()` of the id does; the image URL is the first truthy of src, image_url, url, else url's value, each of the three cases stated |
| Models.CustomCardFromDict | handwrytten/models.py:297-303 | the card id is `int()` of card_id, else id (missing key only), else 0; the category id is present exactly when truthy and is its `int()` |
| Models.SavedAddressFromDict | handwrytten/models.py:322-336 | address1, address2, business_name become street1, street2, company; state falls back to "states" when falsy; zip is `str()` of the stored value |
| Models.SavedAddressNumericZip | handwrytten/models.py:333 | a numeric zip becomes its decimal text, which parses back to the same number |
| Models.StrOfInt | handwrytten/models.py:333 | a field holding an int reads as its decimal text |
| Models.NameOf | handwrytten/models.py:339 | `" ".join(filter(None, [first, last]))`: the truthy parts joined by one space; it fails exactly when a truthy part is not text |
| Models.SavedAddressStr | handwrytten/models.py:338-340 | "First Last, street1, city, state zip", failing exactly when the name join does |
| Models.SavedAddressStrNoName | handwrytten/models.py:338-340 | with no name parts the rendering starts with ", " |
| Models.CountryFromDict | handwrytten/models.py:351-357 | code from "code", else "id" (missing key only); name defaults to "" |
| Models.StateFromDict | handwrytten/models.py:368-374 | code from "code", else "abbreviation" (missing key only); name defaults to "" |
| Addresses.NewAddress | handwrytten/models.py:154-165 | the dataclass constructor keeps every given field, defaulting street2 and company to None and country to "US" |
| Addresses.RequiredEntries | handwrytten/models.py:168-176 | the seven always-written entries map each friendly key to its field, have distinct keys and nothing else |
| Addresses.PutIfPresent | handwrytten/models.py:177-180 | `if value: d[key] = value` sets the key exactly for a truthy value and changes no other key |
| Addresses.ToDict | handwrytten/models.py:167-181 | `to_dict` always holds firstName, lastName, street1, city, state, zip and country; street2 and company appear exactly when truthy; no other key; keys distinct (Recipient and Sender share this body, lines 198-212) |
| Addresses.OptionalKeysAdded | handwrytten/models.py:177-180 | adding the optional keys keeps the required entries and adds street2 and company exactly when truthy |
| AddressPatterns.ZipThenSpace | handwrytten/cli/address_parser.py:88 | the ZIP group of the state+ZIP pattern captures five digits or ZIP+4 followed by whitespace only |
| AddressPatterns.ZipThenSpaceComplete | handwrytten/cli/address_parser.py:88 | a ZIP or ZIP+4 followed by whitespace only always matches, capturing exactly that ZIP |
| AddressPatterns.StateZipAt | handwrytten/cli/address_parser.py:88 | a match at a position is two capitals, whitespace, then a ZIP reaching to the end of the text |
| AddressPatterns.Search | handwrytten/cli/address_parser.py:92 | `search` reports a start inside the text |
| AddressPatterns.SearchFound | handwrytten/cli/address_parser.py:92-95 | a hit is a position where the pattern matches, with the state and ZIP it captures there |
| AddressPatterns.SearchLeftmost | handwrytten/cli/address_parser.py:92 | `search` finds the leftmost match, and reports none only when no position matches |
| AddressPatterns.LastMatching | handwrytten/cli/address_parser.py:91-93 | the backward scan stops at an index below its bound whose part contains a match |
| AddressPatterns.LastMatchingFound | handwrytten/cli/address_parser.py:91-95 | the part the scan stops at holds the hit `search` reports for it |
| AddressPatterns.LastMatchingIsLast | handwrytten/cli/address_parser.py:91-93 | no part above the one the scan stops at contains a match, and none at all when the scan finds nothing |
| AddressPatterns.ExtractSpecShape | handwrytten/cli/address_parser.py:79-131 | whatever is found has a two-capital state and a ZIP or ZIP+4, and its street parts are a proper prefix of the input |
| AddressPatterns.ExtractFirstPartWithoutCity | handwrytten/cli/address_parser.py:99-106 | a match in the part at index 0 (the last one the backward scan reaches) with no city text before it yields no result, and the fallback is not tried |
| AddressPatterns.ExtractCityStateZip | handwrytten/cli/address_parser.py:79-131 | the backward `for i` loop with its early returns, then the last-three-parts fallback, computes exactly the extraction specified |
| AddressParser.Parts | handwrytten/cli/address_parser.py:25 | one stripped part per comma-separated piece |
| AddressParser.PartsAt | handwrytten/cli/address_parser.py:25 | part i is the i-th comma-separated piece, stripped |
| AddressParser.ParseAddressString | handwrytten/cli/address_parser.py:13-76 | filling `result` key by key gives exactly the parse specified, errors included |
| AddressParser.ParseSucceeds | handwrytten/cli/address_parser.py:32-76 | when there are three parts, a name, a city/state/ZIP and a street part, the parse succeeds with the assembled dict |
| AddressParser.AppendStreets | handwrytten/cli/address_parser.py:52-69 | the street entries are appended by how many parts precede the city, and none precede exactly in the error case |
| AddressParser.ParseTooFewParts | handwrytten/cli/address_parser.py:25-30 | fewer than two commas gives fewer than three parts and the `ValueError` naming the address |
| AddressParser.ParseName | handwrytten/cli/address_parser.py:35-37 | firstName is the first whitespace-free token of the first part and lastName the rest after the whitespace run, or "" |
| AddressParser.AssembledHead | handwrytten/cli/address_parser.py:36-49 | the result starts with firstName, lastName, city, state and zip, in that order |
| AddressParser.ParseSuccessShape | handwrytten/cli/address_parser.py:25-76 | a successful parse had three parts, a name and a city/state/ZIP with street parts, and is their assembled dict |
| AddressParser.SplitFirstWordName | handwrytten/cli/address_parser.py:35 | `split(None, 1)` of a stripped name gives the first token and the rest after the whitespace run |
| AddressParser.ParseStreets | handwrytten/cli/address_parser.py:52-69 | one street part is street1; two are street1+street2 when the first starts with a digit, else company+street1; three or more are company, street1, street2 and the rest is dropped; none is the `ValueError` |
| AddressParser.ParseCityStateZip | handwrytten/cli/address_parser.py:44-49 | a successful parse carries the city, state and ZIP the extraction found, right after the name |
| AddressParser.ParsedStateZip | handwrytten/cli/address_parser.py:44-49 | through the pattern of line 88, the state of a parsed address is two capitals and its ZIP five digits or ZIP+4 |
| AddressParser.ParseNoCityStateZip | handwrytten/cli/address_parser.py:70-74 | with three parts and a name, finding no city/state/ZIP is the "Cannot find city/state/zip" `ValueError` |
| CsvHeaders.CsvAlias | handwrytten/cli/address_parser.py:140-188 | every alias in the table maps to an API field name |
| CsvHeaders.NormalizedKey | handwrytten/cli/address_parser.py:192 | a header becomes its alias or stays as its stripped self |
| CsvHeaders.NormalizedKeyIgnoresCase | handwrytten/cli/address_parser.py:192 | headers equal once stripped and lower-cased normalise alike, to their alias |
| CsvHeaders.NormalizedKeyUpperCase | handwrytten/cli/address_parser.py:170-192 | an upper-case alias ("ZIP") is recognised |
| CsvHeaders.Normalized | handwrytten/cli/address_parser.py:190-196 | every kept value is non-blank and the keys are distinct |
| CsvHeaders.NormalizeCsvRow | handwrytten/cli/address_parser.py:134-196 | the loop over `row.items()` builds exactly the normalised dict |
| CsvHeaders.NormalizedHasKey | handwrytten/cli/address_parser.py:191-194 | a target key is present exactly when some column with a non-blank value normalises to it |
| CsvHeaders.NormalizedLastWriter | handwrytten/cli/address_parser.py:191-194 | a target key holds the stripped value of the last column kept under it: later columns overwrite earlier ones |
| Resources.ApiSuffix | handwrytten/resources.py:1299-1318 | `_CAMEL_TO_API.get(key, key)`: a key outside the table is kept as it is |
| Resources.ApiSuffixInjective | handwrytten/resources.py:1299-1309 | distinct friendly keys have distinct wire names |
| Resources.WireKey | handwrytten/resources.py:1319 | the key written is the prefix, "_", then the wire name |
| Resources.Flattened | handwrytten/resources.py:1312-1320 | every key of the result starts with the prefix and "_", no value is None, and the keys are distinct |
| Resources.FlattenAddress | handwrytten/resources.py:1312-1320 | the loop over `data.items()` builds exactly the flattened dict |
| Resources.FlattenedHasKey | handwrytten/resources.py:1315-1319 | a wire key is present exactly when some non-None entry maps to it |
| Resources.FlattenedLastWriter | handwrytten/resources.py:1315-1319 | a wire key holds the value of the last entry that maps to it |
| Resources.FlattenedRename | handwrytten/resources.py:1312-1320 | without a clash, the wire key of `k` holds `k`'s value unchanged and is absent exactly when `k` is missing or None; empty strings are kept |
| Resources.FlattenedAddressField | handwrytten/resources.py:1312-1320 | applied to `to_dict()` (handwrytten/models.py, lines 167-181), one friendly field of a flattened `to_dict()` lands under its wire key |
| Resources.FlattenedAddress | handwrytten/resources.py:1312-1320 | applied to `to_dict()` (handwrytten/models.py, lines 167-181), a flattened `to_dict()` holds the seven required fields always and street2 and company only when truthy |
| Resources.FlattenValue | handwrytten/resources.py:1312-1315 | a dict is flattened; anything else has no `.items()` and raises `AttributeError` |
| Resources.SenderFields | handwrytten/resources.py:1469-1472 | as here and again for a row's own sender at lines 1509-1512, a `Sender` (through `to_dict()`) or a dict becomes from_* fields; anything else raises `AttributeError` |
| Resources.ResolveSender | handwrytten/resources.py:1463-1472 | an int sender becomes the request-level sender id in place of `return_address_id`; a `Sender` or dict becomes the default from_* fields; None changes nothing; other values fail |
| Resources.Rest | handwrytten/resources.py:1489-1492 | the copy after popping message, wishes and sender: those keys absent, every other key unchanged |
| Resources.WithOverrides | handwrytten/resources.py:1518-1522 | adding the call-level message and wishes changes no other key, and so not whether the row names a sender |
| Resources.CollectSpec | handwrytten/resources.py:1478-1532 | the row loop succeeds exactly when every row does, keeping order; otherwise the first error wins |
| Resources.RowResults | handwrytten/resources.py:1479-1532 | one row outcome per recipient, the i-th built from the i-th recipient |
| Resources.RowsSpec | handwrytten/resources.py:1478-1532 | `send` emits exactly one row per recipient, in input order, or fails with the first failing recipient's error |
| Resources.RecipientList | handwrytten/resources.py:1475-1476 | a non-list recipient becomes a list of one |
| Resources.FlattenSender | handwrytten/resources.py:1469-1472 | computes exactly the sender's from_* fields |
| Resources.BuildDictRow | handwrytten/resources.py:1487-1512 | popping the overrides from a copy, flattening or passing through, and re-attaching gives exactly the dict row |
| Resources.ApplyDefaults | handwrytten/resources.py:1518-1530 | applying the call-level defaults in place gives exactly the row with defaults |
| Resources.BuildBaseRow | handwrytten/resources.py:1480-1516 | one recipient's row before defaults, by type, including the `TypeError` |
| Resources.BuildRow | handwrytten/resources.py:1480-1530 | one recipient's complete row |
| Resources.BuildRows | handwrytten/resources.py:1478-1532 | the `for r in recipient` loop appends exactly the rows specified, stopping at the first error |
| Resources.PlanSender | handwrytten/resources.py:1463-1472 | the sender block computes exactly the sender resolution |
| Resources.ResolveAddresses | handwrytten/resources.py:1463-1532 | the sender block then the recipient loop compute exactly the resolution |
| Resources.ResolveSendOfRows | handwrytten/resources.py:1463-1532 | once the sender block succeeds, the resolution is that of the recipient rows |
| Resources.WithDefaultsKeeps | handwrytten/resources.py:1518-1530 | the defaults never touch a key other than message, wishes and from_* keys |
| Resources.WithDefaultsOverride | handwrytten/resources.py:1519-1522 | a row's own message or wishes is kept; otherwise the call-level value is added unless it is None |
| Resources.WithOverridesLookup | handwrytten/resources.py:1519-1522 | message or wishes after the defaults: the row's value if present, else the non-None call-level value |
| Resources.WithDefaultsSender | handwrytten/resources.py:1524-1530 | a row with a from_* key or a `return_address_id` gets no default sender field; otherwise every default sender field is merged in |
| Resources.DictRowOverride | handwrytten/resources.py:1490-1503 | in a dict recipient's row, message and wishes are the dict's own, and only when not None |
| Resources.DictBaseOverride | handwrytten/resources.py:1490-1503 | the same before the row's own sender is applied |
| Resources.BaseRowOverride | handwrytten/resources.py:1480-1503 | only a dict recipient brings its own message and wishes into its row |
| Resources.RowOverride | handwrytten/resources.py:1500-1522 | precedence: a dict recipient's own non-None message or wishes wins, else the call-level value unless None |
| Resources.IntRecipientRow | handwrytten/resources.py:1482-1484 | an int recipient becomes a row with `address_id` set to it |
| Resources.RecipientRow | handwrytten/resources.py:1485-1486 | a `Recipient`'s to_* fields are its flattened `to_dict()` |
| Resources.DictRecipientAddress | handwrytten/resources.py:1494-1498 | a dict recipient's to_* fields: the popped copy passed through when a key starts with "to_", otherwise flattened with "to" |
| Resources.DictRowKeeps | handwrytten/resources.py:1494-1512 | a dict row keeps its address's value for every key the overrides and senders do not write |
| Resources.RowSenderId | handwrytten/resources.py:1506-1530 | a per-row int sender sets that row's `return_address_id`, and the default sender is then not merged |
| Resources.RowSenderFields | handwrytten/resources.py:1509-1530 | a per-row `Sender` or dict merges its from-flattened fields into that row only, and the default sender cannot override them |
| Resources.RowForDict | handwrytten/resources.py:1487-1512 | a dict recipient's base row is its dict row; applying the call-level defaults adds no failure: the row is the defaulted dict row when that succeeds, and its error (a bad row sender) otherwise |
| Resources.DictRowSenderFields | handwrytten/resources.py:1509-1512 | the fields a dict recipient's own sender contributes are in its row as they are |
| Resources.ResolveSendSpec | handwrytten/resources.py:1463-1532 | the whole resolution: a non-list recipient counts as one, one row per recipient in order, an int sender as request-level sender id, and an unsupported recipient a `TypeError` |
| Resources.WithoutNone | handwrytten/resources.py:450 | the comprehension keeps no None value, adds no key and keeps order |
| Resources.WithoutNoneUnique | handwrytten/resources.py:450 | dropping None values keeps keys distinct |
| Resources.GetWithoutNone | handwrytten/resources.py:450 | after dropping None values a None entry is missing and any other is kept |
| Resources.GetBody | handwrytten/resources.py:399-451 | precedence in a request body: an extra keyword wins, then an optional argument unless None, then the fixed entry |
| Resources.AddressValues | handwrytten/resources.py:1538 | the rows reach `add_order` as a list of dicts, one per row, in order |
| Resources.PlaceFixed | handwrytten/resources.py:1535-1541 | the fixed placeBasket arguments carry the rows and, exactly when the sender id is not None, `return_address_id` |
| Resources.SendReturnAddressId | handwrytten/resources.py:1463-1567 | the request-level `return_address_id`: an extra keyword wins, else an int sender replaces the argument, and nothing is sent when the id is None |
| Resources.PlaceReturnAddressId | handwrytten/resources.py:1540-1567 | the `return_address_id` keyword: an extra keyword wins, else the resolution's sender id unless None |
| Resources.SendAddresses | handwrytten/resources.py:1535-1567 | the resolved rows reach `add_order` as its addresses, in order, unless an extra keyword replaces them |
| Resources.CreateOptionalKeyShape | handwrytten/resources.py:399-449 | no optional `create` key collides with name, dimension_id or is_update |
| Resources.CreateBodySpec | handwrytten/resources.py:399-451 | every key of the `create` body: an extra keyword wins; an optional argument is present exactly when not None; name and dimension_id always, is_update only when not None |
| Resources.CreateFixedGet | handwrytten/resources.py:399-402 | the fixed entries: name, dimension_id and, when not None, is_update |
| Resources.ConvertedFlattens | handwrytten/resources.py:1107-1116 | an address in friendly form is flattened with "to" and keeps its own non-None message and wishes under their plain names |
| Resources.ConvertAddress | handwrytten/resources.py:1105-1116 | one address converted step by step is exactly the converted dict, passed through when it has a to_* key or address_id |
| Resources.ConvertAddresses | handwrytten/resources.py:1102-1117 | one converted address per input, in order |
| Resources.PlainDictRow | handwrytten/resources.py:1494-1496 | a dict without override keys and without a to_* key is flattened whole by `send` |
| Resources.PassthroughTestsDiffer | handwrytten/resources.py:1105-1106 | the passthrough test here differs from `send`'s at line 1495: a dict with address_id and no to_* key goes through `add_order` unchanged, while `send` flattens it into to_address_id |
| Resources.SavedIdDictConverted | handwrytten/resources.py:1105-1106 | `add_order` passes a dict holding address_id through unchanged |
| Resources.SavedIdDictSent | handwrytten/resources.py:1495-1496 | `send` flattens that dict, sending address_id as to_address_id |
| Resources.RecipientRowToKey | handwrytten/resources.py:1485-1486 | a `Recipient`'s row has a to_* key |
| Resources.SendRowsPassThrough | handwrytten/resources.py:1105-1106 | rows `send` builds (lines 1482-1486) for a saved id or a `Recipient` are passed through by `add_order` unchanged |
| Resources.BaseName | handwrytten/resources.py:226 | the file name sent is the part of the path after its last '/' or '\\' and holds neither |
| Resources.UploadImageRequest | handwrytten/resources.py:211-228 | succeeds exactly when one of url and file_path is truthy, each error with its message; a url is posted as JSON with the type, a file as multipart with its base name and the type |
| Resources.UploadedImage | handwrytten/resources.py:229 | a non-dict response reads as an empty dict |
| Resources.DimensionItems | handwrytten/resources.py:175-180 | a dict's "dimensions", else its "results", else []; a list itself; anything else [] |
| Resources.Iterate | handwrytten/resources.py:182 | `for d in items` visits a list's items, a string's characters or a dict's keys, and fails on anything else |
| Resources.DimensionOf | handwrytten/resources.py:182 | `Dimension.from_dict` of a dict; anything else has no `.get` and raises `AttributeError` |
| Resources.DimensionsSpec | handwrytten/resources.py:182 | one dimension per item, in order, when every item is a dict that parses; the first bad item's error otherwise |
| Resources.DimensionsOfNonList | handwrytten/resources.py:175-182 | a non-empty string or dict in place of the list fails on its first element; an empty one gives no dimensions |
| Resources.Keep | handwrytten/resources.py:183-186 | a filter's result is a subsequence of the dimensions (order kept) holding each matching dimension as often as the input and no other; all of them when no value is wanted |
| Resources.SubsequenceTrans | handwrytten/resources.py:183-186 | a subsequence of a subsequence is a subsequence, so chained filters keep the input order |
| Resources.KeepCons | handwrytten/resources.py:183-186 | one step of the comprehension: the head is kept exactly when it matches |
| Resources.KeepCommutes | handwrytten/resources.py:183-186 | the two filters commute |
| Resources.FilterDimensionsSpec | handwrytten/resources.py:153-187 | `dimensions` returns the parsed dimensions matching both given filters, in their parsed order and each as often as it was parsed, and no other |
| Output.Cell | handwrytten/cli/output.py:43-47 | a missing key or a None value prints as "", anything else as its `str`; an object row is the dict of its attributes |
| Output.Cells | handwrytten/cli/output.py:41-47 | one cell per column, in column order |
| Output.CellRows | handwrytten/cli/output.py:39-48 | one row of cells per input row, in order |
| Output.DefaultHeader | handwrytten/cli/output.py:36 | the default header of a column is as long as the column name |
| Output.HeadersFor | handwrytten/cli/output.py:36 | non-empty headers are used as given; otherwise one default header per column |
| Output.Widest | handwrytten/cli/output.py:51-54 | the width scan is at least the header's length and every cell's length in that column, and equals one of them |
| Output.ScannedWidths | handwrytten/cli/output.py:51-54 | one scanned width per header |
| Output.Truncate | handwrytten/cli/output.py:66 | `cell[:w]` is the prefix of length min(len, w) |
| Output.DataCell | handwrytten/cli/output.py:66 | a data cell is exactly w characters: a short cell padded with spaces, a long one cut to w |
| Output.PrintTable | handwrytten/cli/output.py:20-67 | the imperative `print_table` produces exactly the specified lines or the `IndexError` |
| Output.RenderCells | handwrytten/cli/output.py:39-48 | the cell loop builds exactly the cell rows |
| Output.RenderRow | handwrytten/cli/output.py:41-47 | the inner loop builds exactly one row's cells |
| Output.ScanWidths | handwrytten/cli/output.py:51-54 | the width loop raises `IndexError` exactly when there are more columns than headers, and otherwise computes the scanned widths |
| Output.RenderLines | handwrytten/cli/output.py:61-67 | the printed lines: the header line, the rule, then one data line per row |
| Output.JoinLengths | handwrytten/cli/output.py:61-66 | joining longer segments with the same separator gives a longer line, and equal lengths an equal one |
| Output.DataLineAligned | handwrytten/cli/output.py:63-66 | a data line with one cell per column is exactly as long as the rule |
| Output.HeaderLineAligned | handwrytten/cli/output.py:61-63 | the header line is at least as long as the rule, and equally long exactly when no header exceeds its width |
| Output.ColumnWidths | handwrytten/cli/output.py:51-58 | a column's width is at most 60, covers its header and cells up to 60, and is 60, the header's length or some cell's length |
| Output.LayoutAligned | handwrytten/cli/output.py:51-67 | the header line lines up with the rule exactly when no header exceeds 60 characters, and every data line lines up with it |
| Output.TableShape | handwrytten/cli/output.py:20-67 | no rows print "(no results)"; an `IndexError` exactly when there are rows and fewer headers than columns, never with default headers; otherwise a header, a rule and one line per row |
| SendCommand.Placeholder | handwrytten/cli/commands/send.py:222 | the placeholder of a key is the key between double braces |
| SendCommand.Personalize | handwrytten/cli/commands/send.py:218-223 | the replacement loop computes exactly the personalised message |
| SendCommand.PersonalizedInOrder | handwrytten/cli/commands/send.py:221-222 | personalising with two dicts in turn is personalising with their concatenation, in that order |
| SendCommand.PersonalizedNoPlaceholders | handwrytten/cli/commands/send.py:218-223 | a message without '{' is left unchanged |
| SendCommand.PersonalizedTemplate | handwrytten/cli/commands/send.py:218-223 | in a template with one placeholder key, the key's value replaces every occurrence when the recipient has it, and the placeholder stays literal otherwise |
| SendCommand.FirstUnfilled | handwrytten/cli/commands/send.py:208-210 | the first required field missing or empty, every earlier one filled |
| SendCommand.FirstSet | handwrytten/cli/commands/send.py:204-213 | the first incomplete row, every earlier row complete |
| SendCommand.ResolveRecipients | handwrytten/cli/commands/send.py:183-215 | `--to` first, then the CSV rows; the loop computes exactly the specified recipients or error |
| SendCommand.ToRecipientOf | handwrytten/cli/commands/send.py:190-194 | a parsed `--to` is the first recipient; a `ValueError` becomes a usage error naming it; any other exception escapes |
| SendCommand.RecipientsOf | handwrytten/cli/commands/send.py:188-215 | the recipients are the `--to` recipient followed by the CSV rows, or the CSV error |
| SendCommand.ReadCsvRecipients | handwrytten/cli/commands/send.py:204-213 | the CSV loop computes exactly the specified recipients or error |
| SendCommand.CsvAccepted | handwrytten/cli/commands/send.py:204-213 | the CSV is accepted exactly when every normalised row has all six required fields non-empty, and then the recipients are the normalised rows in record order |
| SendCommand.CsvRejected | handwrytten/cli/commands/send.py:204-213 | a rejection names the first incomplete row by its record number (the header is record 1; blank lines are skipped, so this need not be the line number) and the first required field it lacks |
| SendCommand.Requests | handwrytten/cli/commands/send.py:117-155 | only a run that reaches the loop sends requests |
| SendCommand.ExitCode | handwrytten/cli/commands/send.py:92-164 | a dry run or a completed loop exits 0 |
| SendCommand.IntOption | handwrytten/cli/commands/send.py:138-141 | an absent or empty option is not sent; otherwise `int()` of it, failing exactly when the text is not an integer |
| SendCommand.OptionInt | handwrytten/cli/commands/send.py:138-141 | computes exactly the option's integer |
| SendCommand.CallFor | handwrytten/cli/commands/send.py:127-141 | the i-th order: the i-th recipient, its personalised message, card, font, sender when given, gift card and insert as integers |
| SendCommand.BuildCall | handwrytten/cli/commands/send.py:127-141 | building the keyword arguments computes the call or the `int()` error |
| SendCommand.RunBatch | handwrytten/cli/commands/send.py:122-155 | the loop computes exactly the specified outcome |
| SendCommand.Replies | handwrytten/cli/commands/send.py:143 | one reply per call, the j-th the response to request j |
| SendCommand.TalliesAddUp | handwrytten/cli/commands/send.py:143-155 | without escaping exceptions, sent plus failed equals the calls made |
| SendCommand.TalliedStep | handwrytten/cli/commands/send.py:143-155 | one iteration keeps the tallies: an order adds to sent and results, an API error to failed |
| SendCommand.BatchFromPlaced | handwrytten/cli/commands/send.py:126-155 | the loop either finishes or stops with an escaping exception; when it finishes the tallies hold for all recipients |
| SendCommand.BatchFromCrashed | handwrytten/cli/commands/send.py:126-155 | an escaping exception stops the loop: the calls so far are in order, only the last reply escaped, and it is the error raised |
| SendCommand.BatchShape | handwrytten/cli/commands/send.py:122-155 | no recipients place nothing; a bad option stops before any request; a finished loop made one call per recipient, in order, with sent + failed equal to the recipients and results the successful orders |
| SendCommand.SenderSpec | handwrytten/cli/commands/send.py:103-109 | no `--from` means no sender; a sender is the parse of `--from`; a `ValueError` exits 1 with its message |
| SendCommand.ResolveSender | handwrytten/cli/commands/send.py:103-109 | computes exactly the sender resolution |
| SendCommand.ResolvingExitsOne | handwrytten/cli/commands/send.py:97-109 | resolving recipients (through `_resolve_recipients`, lines 183-215) and sender only ever stops with status 1 |
| SendCommand.BatchFor | handwrytten/cli/commands/send.py:126-141 | the loop runs over the resolved recipients with the message and sender |
| SendCommand.Send | handwrytten/cli/commands/send.py:87-155 | the command checks message, recipients, sender and dry run in that order and then runs the loop, computing exactly the specified outcome |
| SendCommand.SendGuards | handwrytten/cli/commands/send.py:91-119 | no message stops first with "A message is required"; a stop sends nothing and exits 1; a request is only made with a message, recipients and a sender parse, and not on a dry run |
| SendCommand.SendDryRun | handwrytten/cli/commands/send.py:117-119 | a dry run previews the recipients, message and sender, sends nothing and exits 0 |
| SendCommand.SendPlaced | handwrytten/cli/commands/send.py:126-164 | a finished run made one call per recipient in order, each with that recipient's personalised message, tallied sent + failed to the recipients, and exits 0 |
| SendCommand.SendExitStatus | handwrytten/cli/commands/send.py:87-164 | `send` exits 0 exactly when it previewed or finished the loop, and 1 otherwise |

## Left out

- Floating point: `RETRY_BACKOFF` is the whole number 1 (seconds), so every wait is an integer. The float fields (`credits`, `amount`, `price`, `price_structure` and the like) are not read by the model.
- Real HTTP, JSON decoding, logging and `time.sleep`: each attempt's outcome is an input, a body is an already decoded `Value`, and the sleeps are a recorded list of waits.
- HttpClient.Client.Url: `urljoin` is modelled as plain concatenation. On the path side this needs a plain relative path (no ':', '.', '?' or '#'), such as the SDK's own endpoint paths; `Request` and `PostMultipart` inherit that precondition. On the base side the model is exact only for a base URL without a query, a fragment or dot segments: for `https://h/v2?x=1/` Python's `urljoin` drops the query part, which the model does not.
- HttpClient.Client.constructor: header names are compared case-sensitively, whereas `requests` keeps session headers in a case-insensitive dict. A starting header named `accept` or `user-agent` is replaced in Python but kept beside the new one in the model. The default headers of a fresh `requests.Session()` (such as Accept-Encoding and Connection) come from the installed library and are an input, not constants.
- `\d`, `str.lower` and `str.title` act on ASCII only: other Unicode digits and letter cases are not modelled. Whitespace (`\s`, argument-less `str.strip`, `str.split()`) is the full `str.isspace()` set, Unicode spaces included.
- Output.Cell: an object row (a `Card` or `Country` from the card and address listings) is given as the dict of its attributes, so `getattr(row, col, "")` is modelled as the dict lookup `row.get(col, "")`; attributes computed by properties or methods are not modelled.
- Output.DefaultHeader: only the length of the default header is stated, not its letters (title-casing is ASCII, as above).
- `repr` and `str` of nested values are simplified (no escaping inside quoted strings).
- `_resolve_message` (standard input and `--message-file` reading), `csv.Sniffer` and `csv.DictReader` (CSV rows are given as dicts), the `info`/`success`/`warn`/`error` console lines, `_print_dry_run`'s text, the closing summary, click styling and `output_json_raw`: console and file I/O.
- `upload_image`'s file open and `mimetypes` guess: file-system I/O. The model stops at the request it would send.
- `get_client`, `handwrytten/client.py` and the thin per-endpoint resources (`list`/`get` unwrapping, address book, QR codes, prospecting): they only pass keys through to or from the remote API.
- Shallow copies and aliasing: dicts and lists are values, so "the caller's dict is unchanged" holds by construction rather than being proved.
- Addresses.ToDict: the order of `to_dict`'s keys is not stated, only which keys are present and what they hold.
- SendCommand.PersonalizedTemplate: stated for a template that names one key; several keys in one template are covered only by `PersonalizedInOrder`.
- SendCommand.Reply: an `orders.send` reply is a dict or an exception. A reply of another type, on which the source's `result.get(...)` raises `AttributeError` outside JSON mode, is not modelled; the success message that line prints is console output and left out as such.
- AddressParser.ParseNoCityStateZip: stated one way (no city, state and ZIP found gives the error); the converse follows from `ParseSucceeds`.
