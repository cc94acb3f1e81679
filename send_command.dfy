/**
 * The `send` command of the command-line interface: message
 * personalisation, recipient resolution from `--to` and a CSV file, and
 * the batch loop that places one order per recipient. Console output,
 * reading files and standard input, and building the API client are
 * outside the model; the replies of `orders.send` are a parameter.
 */
module SendCommand {
  import opened Wrappers
  import opened Text
  import opened Dicts
  import opened Values
  import opened Exceptions
  import opened AddressParser
  import opened CsvHeaders

  // ---------------------------------------------------------------------
  // _personalize

  /** `"{{" + key + "}}"` */
  function Placeholder(key: string): (p: string)
    ensures |p| == |key| + 4 && p[0] == '{' && p[1] == '{'
    ensures p[2..2 + |key|] == key && p[|key| + 2] == '}' && p[|key| + 3] == '}'
  {
    "{{" + key + "}}"
  }

  /** The message after replacing the placeholder of every recipient entry, first entry first. */
  function Personalized(message: string, recipient: Dict<string>): string
    decreases |recipient|
  {
    if recipient == [] then message
    else Personalized(Replace(message, Placeholder(recipient[0].0), recipient[0].1), recipient[1..])
  }

  /** `_personalize`, reassigning the result once per recipient entry. */
  method Personalize(message: string, recipient: Dict<string>) returns (result: string)
    ensures result == Personalized(message, recipient)
  {
    result := message;
    var i := 0;
    while i < |recipient|
      invariant 0 <= i <= |recipient|
      invariant Personalized(message, recipient) == Personalized(result, recipient[i..])
    {
      var (key, value) := recipient[i];
      assert recipient[i..][1..] == recipient[i + 1..];
      result := Replace(result, Placeholder(key), value);
      i := i + 1;
    }
  }

  /** The replacements happen in the recipient's key order: the entries of `a` before those of `b`. */
  lemma {:induction false} PersonalizedInOrder(message: string, a: Dict<string>, b: Dict<string>)
    ensures Personalized(message, a + b) == Personalized(Personalized(message, a), b)
    decreases |a|
  {
    if a != [] {
      assert (a + b)[0] == a[0];
      assert (a + b)[1..] == a[1..] + b;
      PersonalizedInOrder(Replace(message, Placeholder(a[0].0), a[0].1), a[1..], b);
    } else {
      assert a + b == b;
    }
  }

  /** A message in which no key of the recipient has a placeholder comes back unchanged. */
  lemma {:induction false} PersonalizedNoPlaceholders(message: string, recipient: Dict<string>)
    requires forall i :: 0 <= i < |recipient| ==> !Contains(message, Placeholder(recipient[i].0))
    ensures Personalized(message, recipient) == message
    decreases |recipient|
  {
    if recipient != [] {
      ReplaceAbsent(message, Placeholder(recipient[0].0), recipient[0].1);
      PersonalizedNoPlaceholders(message, recipient[1..]);
    }
  }

  /** Text without an opening brace holds no placeholder at all. */
  lemma NoBraceNoPlaceholder(s: string, key: string)
    requires '{' !in s
    ensures !Contains(s, Placeholder(key))
  {
    var p := Placeholder(key);
    forall i: nat
      ensures !OccursAt(s, p, i)
    {
      if i + |p| <= |s| {
        assert s[i..i + |p|][0] == s[i];
      }
    }
  }

  /** A key that can sit inside a placeholder without being mistaken for its braces. */
  predicate PlainKey(key: string) {
    '{' !in key && '}' !in key
  }

  /** Keys and values free of braces. */
  predicate PlainEntries(recipient: Dict<string>) {
    forall i :: 0 <= i < |recipient| ==> PlainKey(recipient[i].0) && '{' !in recipient[i].1
  }

  /** Joining brace-free text with brace-free glue gives brace-free text. */
  lemma {:induction false} JoinBraceFree(segs: seq<string>, glue: string)
    requires forall i :: 0 <= i < |segs| ==> '{' !in segs[i]
    requires '{' !in glue
    ensures '{' !in Join(segs, glue)
  {
    if |segs| > 1 {
      JoinBraceFree(segs[1..], glue);
    }
  }

  /** The placeholder of one plain key does not start the placeholder of another. */
  lemma PlaceholderMismatch(k: string, k': string, rest: string)
    requires PlainKey(k) && PlainKey(k') && k != k'
    requires |Placeholder(k) + rest| >= |Placeholder(k')|
    ensures (Placeholder(k) + rest)[..|Placeholder(k')|] != Placeholder(k')
  {
    var t := Placeholder(k) + rest;
    var q := Placeholder(k');
    var d: nat;
    if |k'| < |k| {
      d := 2 + |k'|;
      assert t[d] == k[|k'|];
    } else if |k'| > |k| {
      d := 2 + |k|;
      assert q[d] == k'[|k|];
    } else {
      var j :| 0 <= j < |k| && k[j] != k'[j];
      d := 2 + j;
      assert t[d] == k[j] && q[d] == k'[j];
    }
    assert t[..|q|][d] == t[d];
  }

  /** In brace-free text joined by the placeholder of `k`, the placeholder of another plain key occurs nowhere. */
  lemma {:induction false} OtherPlaceholderAbsentAt(segs: seq<string>, k: string, k': string, i: nat)
    requires forall j :: 0 <= j < |segs| ==> '{' !in segs[j]
    requires PlainKey(k) && PlainKey(k') && k != k'
    requires i + |Placeholder(k')| <= |Join(segs, Placeholder(k))|
    ensures Join(segs, Placeholder(k))[i..i + |Placeholder(k')|] != Placeholder(k')
    decreases |segs|
  {
    var p := Placeholder(k);
    var q := Placeholder(k');
    if |segs| == 1 {
      BraceFreeSlice(segs[0], q, i);
    } else {
      var head := segs[0];
      var tail := Join(segs[1..], p);
      assert Join(segs, p) == head + (p + tail);
      if i >= |head| + |p| {
        OtherPlaceholderAbsentAt(segs[1..], k, k', i - |head| - |p|);
      }
      SegmentThenPlaceholder(head, k, k', tail, i);
    }
  }

  /** A slice of brace-free text is not a placeholder. */
  lemma BraceFreeSlice(s: string, q: string, i: nat)
    requires '{' !in s && q != [] && q[0] == '{' && i + |q| <= |s|
    ensures s[i..i + |q|] != q
  {
    assert s[i..i + |q|][0] == s[i];
  }

  /**
   * One step of the join: no placeholder of `k'` starts in brace-free
   * `head` or inside the placeholder of `k` that follows it, and one
   * starting in `tail` is excluded by the hypothesis.
   */
  lemma SegmentThenPlaceholder(head: string, k: string, k': string, tail: string, i: nat)
    requires '{' !in head && PlainKey(k) && PlainKey(k') && k != k'
    requires i + |Placeholder(k')| <= |head + (Placeholder(k) + tail)|
    requires i >= |head| + |Placeholder(k)| ==>
               tail[i - |head| - |Placeholder(k)|..i - |head| - |Placeholder(k)| + |Placeholder(k')|] != Placeholder(k')
    ensures (head + (Placeholder(k) + tail))[i..i + |Placeholder(k')|] != Placeholder(k')
  {
    var p := Placeholder(k);
    var q := Placeholder(k');
    var s := head + (p + tail);
    if i < |head| {
      assert s[i] == head[i];
      assert s[i..i + |q|][0] == s[i];
    } else {
      var off := i - |head|;
      SliceRight(head, p + tail, i, |q|);
      if off < |p| {
        InsidePlaceholder(k, k', tail, off);
      } else {
        SliceRight(p, tail, off, |q|);
      }
    }
  }

  lemma OtherPlaceholderAbsent(segs: seq<string>, k: string, k': string)
    requires forall j :: 0 <= j < |segs| ==> '{' !in segs[j]
    requires PlainKey(k) && PlainKey(k') && k != k'
    ensures !Contains(Join(segs, Placeholder(k)), Placeholder(k'))
  {
    forall i: nat
      ensures !OccursAt(Join(segs, Placeholder(k)), Placeholder(k'), i)
    {
      if i + |Placeholder(k')| <= |Join(segs, Placeholder(k))| {
        OtherPlaceholderAbsentAt(segs, k, k', i);
      }
    }
  }

  /** A slice lying wholly in the right operand of a concatenation. */
  lemma SliceRight(a: string, b: string, i: nat, n: nat)
    requires |a| <= i && i + n <= |a| + |b|
    ensures (a + b)[i..i + n] == b[i - |a|..i - |a| + n]
  {
  }

  /** No placeholder of another plain key starts inside the placeholder of `k`. */
  lemma InsidePlaceholder(k: string, k': string, tail: string, off: nat)
    requires PlainKey(k) && PlainKey(k') && k != k'
    requires off < |Placeholder(k)| && off + |Placeholder(k')| <= |Placeholder(k) + tail|
    ensures (Placeholder(k) + tail)[off..off + |Placeholder(k')|] != Placeholder(k')
  {
    var p := Placeholder(k);
    var q := Placeholder(k');
    var t := p + tail;
    if off == 0 {
      PlaceholderMismatch(k, k', tail);
    } else if off == 1 {
      assert t[off..off + |q|][1] == p[2];
    } else {
      assert t[off..off + |q|][0] == p[off];
    }
  }

  /**
   * A message made of brace-free text and the placeholder of one key `k`:
   * every occurrence becomes the recipient's value for `k` when the
   * recipient has that key, and is left literally when it has not.
   */
  lemma {:induction false} PersonalizedTemplate(segs: seq<string>, k: string, recipient: Dict<string>)
    requires forall j :: 0 <= j < |segs| ==> '{' !in segs[j]
    requires PlainKey(k) && PlainEntries(recipient)
    ensures HasKey(recipient, k) ==>
              Personalized(Join(segs, Placeholder(k)), recipient) == Join(segs, Get(recipient, k).value)
    ensures !HasKey(recipient, k) ==>
              Personalized(Join(segs, Placeholder(k)), recipient) == Join(segs, Placeholder(k))
    decreases |recipient|
  {
    if recipient != [] {
      var (k0, v0) := recipient[0];
      var m := Join(segs, Placeholder(k));
      GetCons(recipient[0], recipient[1..], k);
      assert recipient == [recipient[0]] + recipient[1..];
      if k0 == k {
        ReplaceJoin(segs, Placeholder(k), v0);
        var m' := Join(segs, v0);
        JoinBraceFree(segs, v0);
        forall i | 0 <= i < |recipient[1..]|
          ensures !Contains(m', Placeholder(recipient[1..][i].0))
        {
          NoBraceNoPlaceholder(m', recipient[1..][i].0);
        }
        PersonalizedNoPlaceholders(m', recipient[1..]);
      } else {
        OtherPlaceholderAbsent(segs, k, k0);
        ReplaceAbsent(m, Placeholder(k0), v0);
        PersonalizedTemplate(segs, k, recipient[1..]);
      }
    }
  }

  // ---------------------------------------------------------------------
  // _resolve_recipients

  /** How the command stops without placing any order. */
  datatype Stop =
    | UsageError(message: string)         // a `click.ClickException`
    | ExitWith(code: int, message: string) // an error line, then `ctx.exit(code)`
    | Uncaught(error: Raised)             // an exception leaving the command

  const CannotParseTo := "Cannot parse --to address: "
  const CannotParseFrom := "Cannot parse --from address: "
  const MessageRequired := "A message is required. Use --message, --message-file, or pipe to stdin."
  const RecipientRequired := "At least one recipient is required. Use --to or --from-csv."

  /** The fields every CSV recipient must have, in the order they are checked. */
  const RequiredFields: seq<string> := ["firstName", "lastName", "street1", "city", "state", "zip"]

  /** `field in row and row[field]` */
  predicate Filled(row: Dict<string>, field: string) {
    HasKey(row, field) && Get(row, field).value != ""
  }

  /** The position of the first field from `from` on that `row` lacks or leaves empty, or `|fields|`. */
  function FirstUnfilled(row: Dict<string>, fields: seq<string>, from: nat): (i: nat)
    requires from <= |fields|
    ensures from <= i <= |fields|
    ensures i < |fields| ==> !Filled(row, fields[i])
    ensures forall j :: from <= j < i ==> Filled(row, fields[j])
    decreases |fields| - from
  {
    if from == |fields| || !Filled(row, fields[from]) then from
    else FirstUnfilled(row, fields, from + 1)
  }

  /** A normalised CSV row that lacks a required field. */
  predicate Incomplete(row: Dict<string>) {
    FirstUnfilled(row, RequiredFields, 0) < |RequiredFields|
  }

  /** The position of the first set flag from `from` on, or `|flags|`. */
  function FirstSet(flags: seq<bool>, from: nat): (i: nat)
    requires from <= |flags|
    ensures from <= i <= |flags|
    ensures i < |flags| ==> flags[i]
    ensures forall j :: from <= j < i ==> !flags[j]
    decreases |flags| - from
  {
    if from == |flags| || flags[from] then from
    else FirstSet(flags, from + 1)
  }

  /** Which normalised rows are incomplete. */
  function IncompleteRows(rs: seq<Dict<string>>): (flags: seq<bool>)
    ensures |flags| == |rs|
    ensures forall j :: 0 <= j < |rs| ==> flags[j] == Incomplete(rs[j])
  {
    seq(|rs|, j requires 0 <= j < |rs| => Incomplete(rs[j]))
  }

  /** Every CSV row normalised. */
  function NormalizedRows(rows: seq<Dict<string>>): (rs: seq<Dict<string>>)
    ensures |rs| == |rows|
    ensures forall j :: 0 <= j < |rows| ==> rs[j] == Normalized(rows[j])
  {
    seq(|rows|, j requires 0 <= j < |rows| => Normalized(rows[j]))
  }

  /** `f"CSV row {row_num}: Missing required field '{field}'"` */
  function CsvRowMessage(rowNum: int, field: string): string {
    "CSV row " + IntToString(rowNum) + ": Missing required field '" + field + "'"
  }

  /** The recipients from `--to`: none without it, one parsed address, or the parse error. */
  function ToRecipient(toAddress: Option<string>): Result<seq<Dict<string>>, Stop> {
    if toAddress.None? || toAddress.value == "" then Success([])
    else
      match ParseSpec(toAddress.value)
      case Success(d) => Success([d])
      case Failure(e) =>
        if e.ValueError? then Failure(UsageError(CannotParseTo + e.msg)) else Failure(Uncaught(Builtin(e)))
  }

  /**
   * The recipients from the rows of a CSV file (data rows are numbered
   * from 2): every row normalised, or the first incomplete row rejected
   * by number and first missing field.
   */
  function CsvRecipients(rows: seq<Dict<string>>): Result<seq<Dict<string>>, Stop> {
    var rs := NormalizedRows(rows);
    var i := FirstSet(IncompleteRows(rs), 0);
    if i < |rs| then
      var f := FirstUnfilled(rs[i], RequiredFields, 0);
      Failure(UsageError(CsvRowMessage(i + 2, RequiredFields[f])))
    else Success(rs)
  }

  /** `_resolve_recipients`: the `--to` recipient first, then the CSV recipients. */
  function RecipientsSpec(toAddress: Option<string>, csvRows: Option<seq<Dict<string>>>): Result<seq<Dict<string>>, Stop> {
    match ToRecipient(toAddress)
    case Failure(stop) => Failure(stop)
    case Success(first) =>
      if csvRows.None? then Success(first)
      else
        match CsvRecipients(csvRows.value)
        case Failure(stop) => Failure(stop)
        case Success(rest) => Success(first + rest)
  }

  /** `_resolve_recipients`, appending to `recipients` and checking each CSV row field by field. */
  method ResolveRecipients(toAddress: Option<string>, csvRows: Option<seq<Dict<string>>>)
    returns (r: Result<seq<Dict<string>>, Stop>)
    ensures r == RecipientsSpec(toAddress, csvRows)
  {
    var recipients: seq<Dict<string>> := [];
    if toAddress.Some? && toAddress.value != "" {
      var parsed := ParseAddressString(toAddress.value);
      ToRecipientOf(toAddress, parsed);
      if parsed.Failure? {
        if parsed.error.ValueError? {
          assert RecipientsSpec(toAddress, csvRows) == Failure(UsageError(CannotParseTo + parsed.error.msg));
          return Failure(UsageError(CannotParseTo + parsed.error.msg));
        }
        assert RecipientsSpec(toAddress, csvRows) == Failure(Uncaught(Builtin(parsed.error)));
        return Failure(Uncaught(Builtin(parsed.error)));
      }
      recipients := [parsed.value];
      assert ToRecipient(toAddress) == Success(recipients);
    } else {
      assert ToRecipient(toAddress) == Success(recipients);
    }
    if csvRows.None? {
      assert RecipientsSpec(toAddress, csvRows) == Success(recipients);
      return Success(recipients);
    }
    var rest := ReadCsvRecipients(csvRows.value);
    RecipientsOf(toAddress, csvRows.value, recipients, rest);
    if rest.Failure? {
      assert RecipientsSpec(toAddress, csvRows) == Failure(rest.error);
      return Failure(rest.error);
    }
    assert RecipientsSpec(toAddress, csvRows) == Success(recipients + rest.value);
    return Success(recipients + rest.value);
  }

  /** `ToRecipient` once the parse of `--to` is known. */
  lemma ToRecipientOf(toAddress: Option<string>, parsed: Result<Dict<string>, PyError>)
    requires toAddress.Some? && toAddress.value != "" && parsed == ParseSpec(toAddress.value)
    ensures parsed.Success? ==> ToRecipient(toAddress) == Success([parsed.value])
    ensures parsed.Failure? && parsed.error.ValueError? ==>
              ToRecipient(toAddress) == Failure(UsageError(CannotParseTo + parsed.error.msg))
    ensures parsed.Failure? && !parsed.error.ValueError? ==> ToRecipient(toAddress) == Failure(Uncaught(Builtin(parsed.error)))
  {
  }

  /** `RecipientsSpec` with a CSV file, once both halves are known. */
  lemma RecipientsOf(toAddress: Option<string>, rows: seq<Dict<string>>, first: seq<Dict<string>>,
                     rest: Result<seq<Dict<string>>, Stop>)
    requires ToRecipient(toAddress) == Success(first) && rest == CsvRecipients(rows)
    ensures rest.Failure? ==> RecipientsSpec(toAddress, Some(rows)) == Failure(rest.error)
    ensures rest.Success? ==> RecipientsSpec(toAddress, Some(rows)) == Success(first + rest.value)
  {
  }

  /** The CSV half of `_resolve_recipients`: each row normalised, checked field by field, then appended. */
  method ReadCsvRecipients(rows: seq<Dict<string>>) returns (r: Result<seq<Dict<string>>, Stop>)
    ensures r == CsvRecipients(rows)
  {
    ghost var rs := NormalizedRows(rows);
    ghost var flags := IncompleteRows(rs);
    var recipients: seq<Dict<string>> := [];
    var n := 0;
    while n < |rows|
      invariant 0 <= n <= |rows|
      invariant recipients == rs[..n]
      invariant FirstSet(flags, 0) == FirstSet(flags, n)
    {
      var normalized := NormalizeCsvRow(rows[n]);
      assert normalized == rs[n];
      var f := 0;
      while f < |RequiredFields|
        invariant 0 <= f <= |RequiredFields|
        invariant FirstUnfilled(normalized, RequiredFields, 0) == FirstUnfilled(normalized, RequiredFields, f)
      {
        var field := RequiredFields[f];
        if !HasKey(normalized, field) || Get(normalized, field).value == "" {
          assert FirstUnfilled(normalized, RequiredFields, f) == f;
          assert flags[n] && FirstSet(flags, n) == n;
          CsvRejects(rows, n, f);
          return Failure(UsageError(CsvRowMessage(n + 2, field)));
        }
        f := f + 1;
      }
      assert !flags[n];
      PrefixSnoc(rs, n);
      recipients := recipients + [normalized];
      n := n + 1;
    }
    assert rs[..n] == rs;
    CsvAccepts(rows);
    return Success(recipients);
  }

  lemma PrefixSnoc<T>(s: seq<T>, n: nat)
    requires n < |s|
    ensures s[..n] + [s[n]] == s[..n + 1]
  {
  }

  /** The outcome when row `i` is the first incomplete one and field `f` the first it lacks. */
  lemma CsvRejects(rows: seq<Dict<string>>, i: nat, f: nat)
    requires i < |rows| && FirstSet(IncompleteRows(NormalizedRows(rows)), 0) == i
    requires f < |RequiredFields| && FirstUnfilled(Normalized(rows[i]), RequiredFields, 0) == f
    ensures CsvRecipients(rows) == Failure(UsageError(CsvRowMessage(i + 2, RequiredFields[f])))
  {
  }

  /** The outcome when no row is incomplete. */
  lemma CsvAccepts(rows: seq<Dict<string>>)
    requires FirstSet(IncompleteRows(NormalizedRows(rows)), 0) == |rows|
    ensures CsvRecipients(rows) == Success(NormalizedRows(rows))
  {
  }

  /**
   * Complete rows: the rows of a CSV file are accepted exactly when every
   * normalised row has every required field, non-empty, and the recipients
   * are then the normalised rows in record order.
   */
  lemma CsvAccepted(rows: seq<Dict<string>>)
    ensures var rs := NormalizedRows(rows);
            && (CsvRecipients(rows).Success? <==>
                  forall j, f :: 0 <= j < |rs| && 0 <= f < |RequiredFields| ==> Filled(rs[j], RequiredFields[f]))
            && (CsvRecipients(rows).Success? ==> CsvRecipients(rows).value == rs)
  {
    AllComplete(NormalizedRows(rows));
  }

  /**
   * An incomplete row: the error names the first row lacking a required
   * field, by its record number counting the header as 1 (blank lines are
   * skipped and a quoted field may span lines, so this need not be the line
   * number), and the first required field it lacks.
   */
  lemma CsvRejected(rows: seq<Dict<string>>)
    requires CsvRecipients(rows).Failure?
    ensures var rs := NormalizedRows(rows);
            exists i, f ::
              && 0 <= i < |rs| && 0 <= f < |RequiredFields|
              && !Filled(rs[i], RequiredFields[f])
              && (forall j, g :: 0 <= j < i && 0 <= g < |RequiredFields| ==> Filled(rs[j], RequiredFields[g]))
              && (forall g :: 0 <= g < f ==> Filled(rs[i], RequiredFields[g]))
              && CsvRecipients(rows).error == UsageError(CsvRowMessage(i + 2, RequiredFields[f]))
  {
    var rs := NormalizedRows(rows);
    var i := FirstSet(IncompleteRows(rs), 0);
    CompleteBefore(rs, i);
    var f := FirstUnfilled(rs[i], RequiredFields, 0);
    assert !Filled(rs[i], RequiredFields[f]);
  }

  /** The rows before the first incomplete one have every required field. */
  lemma CompleteBefore(rs: seq<Dict<string>>, i: nat)
    requires i == FirstSet(IncompleteRows(rs), 0)
    ensures forall j, g :: 0 <= j < i && 0 <= g < |RequiredFields| ==> Filled(rs[j], RequiredFields[g])
  {
    forall j | 0 <= j < i
      ensures forall g :: 0 <= g < |RequiredFields| ==> Filled(rs[j], RequiredFields[g])
    {
      assert !Incomplete(rs[j]);
    }
  }

  /** No row is incomplete exactly when every row has every required field. */
  lemma AllComplete(rs: seq<Dict<string>>)
    ensures FirstSet(IncompleteRows(rs), 0) == |rs| <==>
              forall j, f :: 0 <= j < |rs| && 0 <= f < |RequiredFields| ==> Filled(rs[j], RequiredFields[f])
  {
    var i := FirstSet(IncompleteRows(rs), 0);
    CompleteBefore(rs, i);
    if i < |rs| {
      var f := FirstUnfilled(rs[i], RequiredFields, 0);
      assert !Filled(rs[i], RequiredFields[f]);
    }
  }

  // ---------------------------------------------------------------------
  // The batch loop of `send`

  /** The keyword arguments of one `orders.send` call. */
  datatype OrderCall = OrderCall(
    cardId: string,
    font: string,
    message: string,
    recipient: Dict<string>,
    sender: Option<Dict<string>>,
    denominationId: Option<int>,
    insertId: Option<int>)

  /** What one `orders.send` call gives back: the order (a dict), or what it raised. */
  type Reply = Result<Dict<Value>, Raised>

  /** A reply that is neither an order nor an API error: it leaves the loop. */
  predicate IsCrash(r: Reply) {
    r.Failure? && r.error.Builtin?
  }

  /** How the command ends. */
  datatype SendOutcome =
    | Stopped(stop: Stop)                       // before any client exists
    | DryRun(recipients: seq<Dict<string>>, message: string, sender: Option<Dict<string>>)
    | Placed(calls: seq<OrderCall>, sent: nat, failed: nat, results: seq<Dict<Value>>)
    | Crashed(calls: seq<OrderCall>, error: Raised) // an error other than an API error left the loop

  /** The `orders.send` calls the command made. */
  function Requests(o: SendOutcome): (calls: seq<OrderCall>)
    ensures !(o.Placed? || o.Crashed?) ==> calls == []
  {
    match o
    case Placed(calls, _, _, _) => calls
    case Crashed(calls, _) => calls
    case _ => []
  }

  /** The process exit status: 1 when stopped or crashed, 0 otherwise, however many orders failed. */
  function ExitCode(o: SendOutcome): (code: int)
    ensures o.Placed? || o.DryRun? ==> code == 0
  {
    match o
    case Stopped(stop) => if stop.ExitWith? then stop.code else 1
    case Crashed(_, _) => 1
    case _ => 0
  }

  /** `int(arg)` when the option is given and non-empty. */
  function IntOption(arg: Option<string>): (r: Result<Option<int>, PyError>)
    ensures arg.None? || arg.value == "" ==> r == Success(None)
    ensures arg.Some? && arg.value != "" ==>
              (r.Success? <==> ParseInt(arg.value).Some?) && (r.Success? ==> r.value == ParseInt(arg.value))
  {
    if arg.None? || arg.value == "" then Success(None)
    else
      match IntOfText(arg.value)
      case Success(i) => Success(Some(i))
      case Failure(e) => Failure(e)
  }

  /** `if arg: int(arg)` for the `--gift-card` and `--insert` options. */
  method OptionInt(arg: Option<string>) returns (r: Result<Option<int>, PyError>)
    ensures r == IntOption(arg)
  {
    r := Success(None);
    if arg.Some? && arg.value != "" {
      var n := IntOfText(arg.value);
      if n.Failure? {
        return Failure(n.error);
      }
      r := Success(Some(n.value));
    }
  }

  /** `sender` is passed on only when it is a non-empty dict. */
  function SenderArg(sender: Option<Dict<string>>): Option<Dict<string>> {
    if sender.Some? && sender.value != [] then sender else None
  }

  /** What every call of one batch shares, and the recipients in order. */
  datatype Batch = Batch(
    cardId: string,
    fontId: string,
    message: string,
    recipients: seq<Dict<string>>,
    sender: Option<Dict<string>>,
    giftCard: Option<string>,
    insert: Option<string>)

  /** Both numeric options are valid. */
  predicate OptionsValid(b: Batch) {
    IntOption(b.giftCard).Success? && IntOption(b.insert).Success?
  }

  /** The call for recipient `i` once the options are known to be valid. */
  function CallFor(b: Batch, i: nat): (c: OrderCall)
    requires i < |b.recipients| && OptionsValid(b)
    ensures c.recipient == b.recipients[i] && c.message == Personalized(b.message, b.recipients[i])
    ensures c.cardId == b.cardId && c.font == b.fontId && c.sender == SenderArg(b.sender)
    ensures c.denominationId == IntOption(b.giftCard).value && c.insertId == IntOption(b.insert).value
  {
    OrderCall(b.cardId, b.fontId, Personalized(b.message, b.recipients[i]), b.recipients[i], SenderArg(b.sender),
              IntOption(b.giftCard).value, IntOption(b.insert).value)
  }

  /** The call for recipient `i`, or the `ValueError` of an invalid `--gift-card` or `--insert` number. */
  function CallOrError(b: Batch, i: nat): Result<OrderCall, PyError>
    requires i < |b.recipients|
  {
    if IntOption(b.giftCard).Failure? then Failure(IntOption(b.giftCard).error)
    else if IntOption(b.insert).Failure? then Failure(IntOption(b.insert).error)
    else Success(CallFor(b, i))
  }

  /** Building `send_kwargs`: the personalised message, then the optional sender, gift card and insert. */
  method BuildCall(b: Batch, i: nat) returns (r: Result<OrderCall, PyError>)
    requires i < |b.recipients|
    ensures r == CallOrError(b, i)
  {
    var recipient := b.recipients[i];
    var personalized := Personalize(b.message, recipient);
    var gift := OptionInt(b.giftCard);
    if gift.Failure? {
      return Failure(gift.error);
    }
    var ins := OptionInt(b.insert);
    if ins.Failure? {
      return Failure(ins.error);
    }
    var senderArg := if b.sender.Some? && b.sender.value != [] then b.sender else None;
    return Success(OrderCall(b.cardId, b.fontId, personalized, recipient, senderArg, gift.value, ins.value));
  }

  /**
   * The batch from recipient `i` on, given the calls made and the tallies
   * so far: build the call, place it, count a success (keeping its order)
   * or an API error, and stop at anything else.
   */
  function BatchFrom(b: Batch, respond: (nat, OrderCall) -> Reply, i: nat,
                     calls: seq<OrderCall>, sent: nat, failed: nat, results: seq<Dict<Value>>): SendOutcome
    requires i <= |b.recipients|
    decreases |b.recipients| - i
  {
    if i == |b.recipients| then Placed(calls, sent, failed, results)
    else
      match CallOrError(b, i)
      case Failure(e) => Crashed(calls, Builtin(e))
      case Success(call) =>
        var reply := respond(i, call);
        if IsCrash(reply) then Crashed(calls + [call], reply.error)
        else if reply.Success? then BatchFrom(b, respond, i + 1, calls + [call], sent + 1, failed, results + [reply.value])
        else BatchFrom(b, respond, i + 1, calls + [call], sent, failed + 1, results)
  }

  /** The whole batch loop; the `i`-th call made is the `i`-th request `respond` answers. */
  function BatchSpec(b: Batch, respond: (nat, OrderCall) -> Reply): SendOutcome {
    BatchFrom(b, respond, 0, [], 0, 0, [])
  }

  /** The `for i, recipient in enumerate(recipients, 1)` loop of `send`, keeping `sent`, `failed` and `results`. */
  method RunBatch(b: Batch, respond: (nat, OrderCall) -> Reply) returns (o: SendOutcome)
    ensures o == BatchSpec(b, respond)
  {
    var sent := 0;
    var failed := 0;
    var results: seq<Dict<Value>> := [];
    var calls: seq<OrderCall> := [];
    var i := 0;
    while i < |b.recipients|
      invariant 0 <= i <= |b.recipients|
      invariant BatchSpec(b, respond) == BatchFrom(b, respond, i, calls, sent, failed, results)
    {
      var built := BuildCall(b, i);
      if built.Failure? {
        return Crashed(calls, Builtin(built.error));
      }
      var call := built.value;
      calls := calls + [call];
      var reply := respond(i, call);
      if reply.Failure? && reply.error.Builtin? {
        return Crashed(calls, reply.error);
      }
      if reply.Success? {
        sent := sent + 1;
        results := results + [reply.value];
      } else {
        failed := failed + 1;
      }
      i := i + 1;
    }
    return Placed(calls, sent, failed, results);
  }

  /** The replies to a list of calls, the `j`-th call being request `j`. */
  function Replies(respond: (nat, OrderCall) -> Reply, calls: seq<OrderCall>): (rs: seq<Reply>)
    ensures |rs| == |calls|
    ensures forall j :: 0 <= j < |calls| ==> rs[j] == respond(j, calls[j])
  {
    seq(|calls|, j requires 0 <= j < |calls| => respond(j, calls[j]))
  }

  /** The orders of the successful replies, in call order. */
  function Successes(replies: seq<Reply>): seq<Dict<Value>> {
    if replies == [] then []
    else
      var last := replies[|replies| - 1];
      Successes(replies[..|replies| - 1]) + (if last.Success? then [last.value] else [])
  }

  /** How many replies are API errors. */
  function ApiFailures(replies: seq<Reply>): nat {
    if replies == [] then 0
    else
      var last := replies[|replies| - 1];
      ApiFailures(replies[..|replies| - 1]) + (if last.Failure? && last.error.Api? then 1 else 0)
  }

  /** The calls made so far are the calls for the first recipients, in order. */
  predicate CallsInOrder(b: Batch, calls: seq<OrderCall>) {
    |calls| <= |b.recipients|
    && (calls == [] || (OptionsValid(b) && forall j :: 0 <= j < |calls| ==> calls[j] == CallFor(b, j)))
  }

  /** No reply so far left the loop. */
  predicate NoCrashes(respond: (nat, OrderCall) -> Reply, calls: seq<OrderCall>) {
    forall j :: 0 <= j < |calls| ==> !IsCrash(respond(j, calls[j]))
  }

  /** What holds of the loop state after `i` recipients placed without a crash. */
  predicate Tallied(b: Batch, respond: (nat, OrderCall) -> Reply, i: nat,
                    calls: seq<OrderCall>, sent: nat, failed: nat, results: seq<Dict<Value>>) {
    && |calls| == i && CallsInOrder(b, calls) && NoCrashes(respond, calls)
    && results == Successes(Replies(respond, calls)) && sent == |results|
    && failed == ApiFailures(Replies(respond, calls))
  }

  /** Without crashes every reply is an order or an API error, so the two tallies add up to the calls. */
  lemma {:induction false} TalliesAddUp(replies: seq<Reply>)
    requires forall j :: 0 <= j < |replies| ==> !IsCrash(replies[j])
    ensures |Successes(replies)| + ApiFailures(replies) == |replies|
  {
    if replies != [] {
      TalliesAddUp(replies[..|replies| - 1]);
    }
  }

  /** One more call adds its reply's order to the successes, or one to the API failures. */
  lemma TalliesSnoc(respond: (nat, OrderCall) -> Reply, calls: seq<OrderCall>, call: OrderCall)
    ensures var reply := respond(|calls|, call);
            && Successes(Replies(respond, calls + [call]))
               == Successes(Replies(respond, calls)) + (if reply.Success? then [reply.value] else [])
            && ApiFailures(Replies(respond, calls + [call]))
               == ApiFailures(Replies(respond, calls)) + (if reply.Failure? && reply.error.Api? then 1 else 0)
  {
    var rs := Replies(respond, calls + [call]);
    assert rs[..|rs| - 1] == Replies(respond, calls);
  }

  /** The call for the next recipient extends the calls in order. */
  lemma CallsInOrderSnoc(b: Batch, calls: seq<OrderCall>)
    requires CallsInOrder(b, calls) && |calls| < |b.recipients| && OptionsValid(b)
    ensures CallsInOrder(b, calls + [CallFor(b, |calls|)])
  {
  }

  /** One more recipient placed without a crash keeps the loop state `Tallied`. */
  lemma TalliedStep(b: Batch, respond: (nat, OrderCall) -> Reply, i: nat,
                    calls: seq<OrderCall>, sent: nat, failed: nat, results: seq<Dict<Value>>)
    requires i < |b.recipients| && Tallied(b, respond, i, calls, sent, failed, results)
    requires CallOrError(b, i).Success? && !IsCrash(respond(i, CallOrError(b, i).value))
    ensures var call := CallOrError(b, i).value;
            var reply := respond(i, call);
            if reply.Success? then Tallied(b, respond, i + 1, calls + [call], sent + 1, failed, results + [reply.value])
            else Tallied(b, respond, i + 1, calls + [call], sent, failed + 1, results)
  {
    var call := CallOrError(b, i).value;
    TalliesSnoc(respond, calls, call);
    CallsInOrderSnoc(b, calls);
    var c := calls + [call];
    assert NoCrashes(respond, c) by {
      forall j | 0 <= j < |c|
        ensures !IsCrash(respond(j, c[j]))
      {
        if j < |calls| {
          assert c[j] == calls[j];
        }
      }
    }
  }

  /** From a `Tallied` state the batch ends placed or crashed, and when placed its final state is `Tallied`. */
  lemma {:induction false} BatchFromPlaced(b: Batch, respond: (nat, OrderCall) -> Reply, i: nat,
                                           calls: seq<OrderCall>, sent: nat, failed: nat, results: seq<Dict<Value>>)
    requires i <= |b.recipients| && Tallied(b, respond, i, calls, sent, failed, results)
    ensures var o := BatchFrom(b, respond, i, calls, sent, failed, results);
            && (o.Placed? || o.Crashed?)
            && (o.Placed? ==> Tallied(b, respond, |b.recipients|, o.calls, o.sent, o.failed, o.results))
    decreases |b.recipients| - i
  {
    if i < |b.recipients| && CallOrError(b, i).Success? {
      var call := CallOrError(b, i).value;
      var reply := respond(i, call);
      if !IsCrash(reply) {
        TalliedStep(b, respond, i, calls, sent, failed, results);
        if reply.Success? {
          assert BatchFrom(b, respond, i, calls, sent, failed, results)
              == BatchFrom(b, respond, i + 1, calls + [call], sent + 1, failed, results + [reply.value]);
          BatchFromPlaced(b, respond, i + 1, calls + [call], sent + 1, failed, results + [reply.value]);
        } else {
          assert BatchFrom(b, respond, i, calls, sent, failed, results)
              == BatchFrom(b, respond, i + 1, calls + [call], sent, failed + 1, results);
          BatchFromPlaced(b, respond, i + 1, calls + [call], sent, failed + 1, results);
        }
      }
    }
  }

  /**
   * How a batch may crash: before any call, on an invalid numeric option;
   * or on the reply to its last call, every call having been made in order
   * and every earlier reply having been an order or an API error.
   */
  predicate CrashedAsPromised(b: Batch, respond: (nat, OrderCall) -> Reply, calls: seq<OrderCall>, error: Raised) {
    && (calls == [] ==> !OptionsValid(b) && error.Builtin?)
    && (calls != [] ==>
          && CallsInOrder(b, calls)
          && NoCrashes(respond, calls[..|calls| - 1])
          && IsCrash(respond(|calls| - 1, calls[|calls| - 1]))
          && error == respond(|calls| - 1, calls[|calls| - 1]).error)
  }

  /** A crash on the call for the next recipient, after calls in order that did not crash. */
  lemma CrashAfter(b: Batch, respond: (nat, OrderCall) -> Reply, calls: seq<OrderCall>, call: OrderCall)
    requires CallsInOrder(b, calls) && NoCrashes(respond, calls) && |calls| < |b.recipients|
    requires OptionsValid(b) && call == CallFor(b, |calls|) && IsCrash(respond(|calls|, call))
    ensures CrashedAsPromised(b, respond, calls + [call], respond(|calls|, call).error)
  {
    CallsInOrderSnoc(b, calls);
    assert (calls + [call])[..|calls|] == calls;
  }

  /** From a `Tallied` state a crash is one `CrashedAsPromised` allows. */
  lemma {:induction false} BatchFromCrashed(b: Batch, respond: (nat, OrderCall) -> Reply, i: nat,
                                            calls: seq<OrderCall>, sent: nat, failed: nat, results: seq<Dict<Value>>)
    requires i <= |b.recipients| && Tallied(b, respond, i, calls, sent, failed, results)
    ensures var o := BatchFrom(b, respond, i, calls, sent, failed, results);
            o.Crashed? ==> CrashedAsPromised(b, respond, o.calls, o.error)
    decreases |b.recipients| - i
  {
    if i < |b.recipients| && CallOrError(b, i).Success? {
      var call := CallOrError(b, i).value;
      var reply := respond(i, call);
      if !IsCrash(reply) {
        TalliedStep(b, respond, i, calls, sent, failed, results);
        if reply.Success? {
          assert BatchFrom(b, respond, i, calls, sent, failed, results)
              == BatchFrom(b, respond, i + 1, calls + [call], sent + 1, failed, results + [reply.value]);
          BatchFromCrashed(b, respond, i + 1, calls + [call], sent + 1, failed, results + [reply.value]);
        } else {
          assert BatchFrom(b, respond, i, calls, sent, failed, results)
              == BatchFrom(b, respond, i + 1, calls + [call], sent, failed + 1, results);
          BatchFromCrashed(b, respond, i + 1, calls + [call], sent, failed + 1, results);
        }
      } else {
        assert BatchFrom(b, respond, i, calls, sent, failed, results) == Crashed(calls + [call], reply.error);
        CrashAfter(b, respond, calls, call);
      }
    } else if i < |b.recipients| {
      // an invalid option fails before the first call
      assert !OptionsValid(b);
      assert calls == [];
      assert CrashedAsPromised(b, respond, calls, Builtin(CallOrError(b, i).error));
    }
  }

  /**
   * The batch loop's promise: without a crash there is exactly one call
   * per recipient, in order and built from that recipient, and
   * `sent + failed` is the number of recipients, `sent` being the number of
   * orders kept in `results`, in order; a crash happens after the first
   * reply that is neither an order nor an API error, or before any call
   * when a numeric option is invalid.
   */
  lemma BatchShape(b: Batch, respond: (nat, OrderCall) -> Reply)
    ensures var o := BatchSpec(b, respond);
            && (o.Placed? || o.Crashed?)
            && (b.recipients == [] ==> o == Placed([], 0, 0, []))
            && (b.recipients != [] && !OptionsValid(b) ==> o.Crashed? && o.calls == [])
            && (o.Placed? ==>
                  && |o.calls| == |b.recipients| && CallsInOrder(b, o.calls)
                  && o.sent + o.failed == |b.recipients| && o.sent == |o.results|
                  && o.results == Successes(Replies(respond, o.calls)))
            && (o.Crashed? ==> CrashedAsPromised(b, respond, o.calls, o.error))
  {
    BatchFromPlaced(b, respond, 0, [], 0, 0, []);
    BatchFromCrashed(b, respond, 0, [], 0, 0, []);
    var o := BatchSpec(b, respond);
    if o.Placed? {
      TalliesAddUp(Replies(respond, o.calls));
    }
  }

  // ---------------------------------------------------------------------
  // send

  /** The options of `handwrytten send`, the message already read from `--message` or `--message-file`. */
  datatype SendArgs = SendArgs(
    cardId: string,
    fontId: string,
    message: Option<string>,
    toAddress: Option<string>,
    fromAddress: Option<string>,
    csvRows: Option<seq<Dict<string>>>,
    giftCard: Option<string>,
    insert: Option<string>,
    dryRun: bool)

  /** `not msg` */
  predicate NoMessage(message: Option<string>) {
    message.None? || message.value == ""
  }

  /** The sender: none without `--from`, its parse otherwise; only a `ValueError` is reported and exits 1. */
  function SenderSpec(fromAddress: Option<string>): (r: Result<Option<Dict<string>>, Stop>)
    ensures fromAddress.None? || fromAddress.value == "" ==> r == Success(None)
    ensures r.Success? && r.value.Some? ==> fromAddress.Some? && ParseSpec(fromAddress.value) == Success(r.value.value)
  {
    if fromAddress.None? || fromAddress.value == "" then Success(None)
    else
      match ParseSpec(fromAddress.value)
      case Success(d) => Success(Some(d))
      case Failure(e) =>
        if e.ValueError? then Failure(ExitWith(1, CannotParseFrom + e.msg))
        else Failure(Uncaught(Builtin(e)))
  }

  /** `if from_address: try: sender = parse_address_string(from_address) except ValueError: ...` */
  method ResolveSender(fromAddress: Option<string>) returns (r: Result<Option<Dict<string>>, Stop>)
    ensures r == SenderSpec(fromAddress)
  {
    var sender: Option<Dict<string>> := None;
    if fromAddress.Some? && fromAddress.value != "" {
      var parsed := ParseAddressString(fromAddress.value);
      if parsed.Failure? {
        if parsed.error.ValueError? {
          return Failure(ExitWith(1, CannotParseFrom + parsed.error.msg));
        }
        return Failure(Uncaught(Builtin(parsed.error)));
      }
      sender := Some(parsed.value);
    }
    return Success(sender);
  }

  /** A stop whose exit status is 1: a usage error, an uncaught exception or `ctx.exit(1)`. */
  predicate ExitsOne(stop: Stop) {
    !stop.ExitWith? || stop.code == 1
  }

  /** Resolving the recipients and the sender only ever stops with status 1. */
  lemma ResolvingExitsOne(toAddress: Option<string>, csvRows: Option<seq<Dict<string>>>, fromAddress: Option<string>)
    ensures RecipientsSpec(toAddress, csvRows).Failure? ==> ExitsOne(RecipientsSpec(toAddress, csvRows).error)
    ensures SenderSpec(fromAddress).Failure? ==> ExitsOne(SenderSpec(fromAddress).error)
  {
  }

  /** The batch `send` runs for the given recipients and sender. */
  function BatchFor(a: SendArgs, recipients: seq<Dict<string>>, sender: Option<Dict<string>>): (b: Batch)
    requires !NoMessage(a.message)
    ensures b.recipients == recipients && Some(b.message) == a.message && b.sender == sender
  {
    Batch(a.cardId, a.fontId, a.message.value, recipients, sender, a.giftCard, a.insert)
  }

  /**
   * The `send` command once `_resolve_recipients` and the sender parse have
   * given `recipients` and `sender`: the message check, the recipients
   * check, the sender check, then either the dry-run preview or the batch,
   * `respond` answering the `orders.send` requests in order.
   */
  function SendWith(a: SendArgs, recipients: Result<seq<Dict<string>>, Stop>,
                    sender: Result<Option<Dict<string>>, Stop>, respond: (nat, OrderCall) -> Reply): SendOutcome {
    if NoMessage(a.message) then Stopped(ExitWith(1, MessageRequired))
    else if recipients.Failure? then Stopped(recipients.error)
    else if recipients.value == [] then Stopped(ExitWith(1, RecipientRequired))
    else if sender.Failure? then Stopped(sender.error)
    else if a.dryRun then DryRun(recipients.value, a.message.value, sender.value)
    else BatchSpec(BatchFor(a, recipients.value, sender.value), respond)
  }

  /** The `send` command. */
  function SendSpec(a: SendArgs, respond: (nat, OrderCall) -> Reply): SendOutcome {
    SendWith(a, RecipientsSpec(a.toAddress, a.csvRows), SenderSpec(a.fromAddress), respond)
  }

  /** `send`, checking its inputs one after the other before the batch. */
  method Send(a: SendArgs, respond: (nat, OrderCall) -> Reply) returns (o: SendOutcome)
    ensures o == SendSpec(a, respond)
  {
    if a.message.None? || a.message.value == "" {
      return Stopped(ExitWith(1, MessageRequired));
    }
    var msg := a.message.value;
    var recipients := ResolveRecipients(a.toAddress, a.csvRows);
    if recipients.Failure? {
      return Stopped(recipients.error);
    }
    if recipients.value == [] {
      return Stopped(ExitWith(1, RecipientRequired));
    }
    var sender := ResolveSender(a.fromAddress);
    if sender.Failure? {
      return Stopped(sender.error);
    }
    if a.dryRun {
      return DryRun(recipients.value, msg, sender.value);
    }
    o := RunBatch(Batch(a.cardId, a.fontId, msg, recipients.value, sender.value, a.giftCard, a.insert), respond);
  }

  /**
   * No order is requested unless there is a message, at least one
   * recipient, a sender that parses (or none) and no `--dry-run`; stopping
   * early always exits with status 1, and a missing message stops before
   * anything else.
   */
  lemma SendGuards(a: SendArgs, recipients: Result<seq<Dict<string>>, Stop>,
                   sender: Result<Option<Dict<string>>, Stop>, respond: (nat, OrderCall) -> Reply)
    requires recipients.Failure? ==> ExitsOne(recipients.error)
    requires sender.Failure? ==> ExitsOne(sender.error)
    ensures var o := SendWith(a, recipients, sender, respond);
            && (NoMessage(a.message) ==> o == Stopped(ExitWith(1, MessageRequired)))
            && (o.Stopped? ==> Requests(o) == [] && ExitCode(o) == 1)
            && (Requests(o) != [] ==>
                  !a.dryRun && !NoMessage(a.message) && recipients.Success? && recipients.value != [] && sender.Success?)
  {
    var o := SendWith(a, recipients, sender, respond);
    if !NoMessage(a.message) && recipients.Success? && recipients.value != [] && sender.Success? && !a.dryRun {
      BatchShape(BatchFor(a, recipients.value, sender.value), respond);
    }
  }

  /** A dry run previews the resolved recipients, message and sender, requests nothing and exits 0. */
  lemma SendDryRun(a: SendArgs, recipients: Result<seq<Dict<string>>, Stop>,
                   sender: Result<Option<Dict<string>>, Stop>, respond: (nat, OrderCall) -> Reply)
    ensures var o := SendWith(a, recipients, sender, respond);
            && (a.dryRun ==> o.Stopped? || o.DryRun?)
            && (o.DryRun? ==>
                  && a.dryRun && Some(o.message) == a.message
                  && recipients == Success(o.recipients) && o.recipients != []
                  && sender == Success(o.sender)
                  && Requests(o) == [] && ExitCode(o) == 0)
  {
    var o := SendWith(a, recipients, sender, respond);
    if !NoMessage(a.message) && recipients.Success? && recipients.value != [] && sender.Success? && !a.dryRun {
      BatchShape(BatchFor(a, recipients.value, sender.value), respond);
    }
  }

  /**
   * When `send` places its orders there is one request per recipient, in
   * the order resolved, each carrying that recipient and the message
   * personalised for it; `sent + failed` is the number of recipients, and
   * the exit status is 0 however many failed.
   */
  lemma SendPlaced(a: SendArgs, recipients: Result<seq<Dict<string>>, Stop>,
                   sender: Result<Option<Dict<string>>, Stop>, respond: (nat, OrderCall) -> Reply)
    ensures var o := SendWith(a, recipients, sender, respond);
            o.Placed? ==>
              && !a.dryRun && !NoMessage(a.message) && recipients.Success?
              && |o.calls| == |recipients.value| && o.sent + o.failed == |recipients.value| && o.sent == |o.results|
              && (forall j :: 0 <= j < |o.calls| ==>
                    o.calls[j].recipient == recipients.value[j]
                    && o.calls[j].message == Personalized(a.message.value, recipients.value[j]))
              && ExitCode(o) == 0
  {
    var o := SendWith(a, recipients, sender, respond);
    if o.Placed? {
      var b := BatchFor(a, recipients.value, sender.value);
      assert o == BatchSpec(b, respond);
      BatchShape(b, respond);
      assert CallsInOrder(b, o.calls);
    }
  }

  /** `send` exits with status 0 exactly when it previewed or placed its orders, and with status 1 otherwise. */
  lemma SendExitStatus(a: SendArgs, respond: (nat, OrderCall) -> Reply)
    ensures var o := SendSpec(a, respond);
            && (ExitCode(o) == 0 <==> o.Placed? || o.DryRun?)
            && (ExitCode(o) != 0 ==> ExitCode(o) == 1)
  {
    var recipients := RecipientsSpec(a.toAddress, a.csvRows);
    var sender := SenderSpec(a.fromAddress);
    ResolvingExitsOne(a.toAddress, a.csvRows, a.fromAddress);
    SendGuards(a, recipients, sender, respond);
    SendDryRun(a, recipients, sender, respond);
  }
}
