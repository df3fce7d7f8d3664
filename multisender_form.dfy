/**
 * The dispersal form: how the free-text "recipient, amount" box becomes the
 * recipient and amount lists, the summary shown under it, and the decision
 * `handleSubmit` takes (reject with a message, throw, or send one
 * `disperseEther` / `disperseToken` transaction).
 */
module MultiSenderForm {
  import opened Wrappers
  import opened JsString
  import opened Tokens

  /** An accepted line: the trimmed texts of its first two comma-separated fields. */
  datatype Entry = Entry(recipient: string, amountText: string)

  /**
   * viem's `parseUnits(text, decimals)`, left abstract: the amount in the
   * asset's smallest unit, or None where it throws.
   */
  type Parser = (string, nat) -> Option<int>

  /** The call the transaction's data encodes. */
  datatype Call =
    | DisperseEther(recipients: seq<string>, amounts: seq<int>)
    | DisperseToken(token: string, recipients: seq<string>, amounts: seq<int>)

  /**
   * What one press of Submit comes to: an error message and no transaction,
   * an exception escaping the handler, or reaching the send step with one
   * call (`value` None stands for `value: undefined`). The encoding and the
   * send of that step may still fail; `SubmitForm.Settle` says how.
   */
  datatype Outcome =
    | Rejected(message: string)
    | Thrown
    | Send(to: string, call: Call, value: Option<int>, account: string)

  // ---------------------------------------------------------------------------
  // Lines and entries
  // ---------------------------------------------------------------------------

  /** `.map((l) => l.trim()).filter(Boolean)`: the trimmed pieces that are not empty, in order. */
  function TrimmedNonBlank(pieces: seq<string>): (lines: seq<string>)
    ensures |lines| <= |pieces|
    ensures forall i :: 0 <= i < |lines| ==> lines[i] != [] && Trim(lines[i]) == lines[i]
  {
    if pieces == [] then []
    else
      var t := Trim(pieces[|pieces| - 1]);
      TrimIdempotent(pieces[|pieces| - 1]);
      TrimmedNonBlank(pieces[..|pieces| - 1]) + (if t == [] then [] else [t])
  }

  /** A blank piece (nothing but white space) contributes no line; any other contributes its trimmed text. */
  lemma TrimmedNonBlankLast(pieces: seq<string>, p: string)
    ensures TrimmedNonBlank(pieces + [p]) ==
            TrimmedNonBlank(pieces) + (if AllTrimmable(p) then [] else [Trim(p)])
  {
    assert (pieces + [p])[..|pieces|] == pieces;
    TrimEmptyIffBlank(p);
  }

  /** `entries.split("\n").map((l) => l.trim()).filter(Boolean)`: every line is non-empty and already trimmed. */
  function Lines(entries: string): (lines: seq<string>)
    ensures forall i :: 0 <= i < |lines| ==> lines[i] != [] && Trim(lines[i]) == lines[i]
  {
    TrimmedNonBlank(Split(entries, '\n'))
  }

  /**
   * `const [r, a] = line.split(","); if (r && a) ...`: a line is accepted when
   * its first two comma-separated fields exist and are non-empty; the entry
   * is those two fields, trimmed.
   */
  function ParseLine(line: string): (e: Option<Entry>)
    ensures e.Some? ==> Trim(e.value.recipient) == e.value.recipient && Trim(e.value.amountText) == e.value.amountText
  {
    var fields := Split(line, ',');
    if fields[0] != [] && |fields| >= 2 && fields[1] != [] then
      TrimIdempotent(fields[0]);
      TrimIdempotent(fields[1]);
      Some(Entry(Trim(fields[0]), Trim(fields[1])))
    else None
  }

  /** The position of the first `c` in `s`, if there is one. */
  function FirstIndex(s: string, c: char): (r: Option<nat>)
    ensures r.Some? ==> r.value < |s| && s[r.value] == c && c !in s[..r.value]
    ensures r.None? ==> c !in s
  {
    if s == [] then None
    else if s[0] == c then Some(0)
    else match FirstIndex(s[1..], c)
      case None => None
      case Some(k) =>
        assert s[..k + 1] == [s[0]] + s[1..][..k];
        Some(k + 1)
  }

  /**
   * Line acceptance stated through comma positions: the text before the first
   * comma and the text between the first and the second comma (or the end of
   * the line) must both be non-empty; whatever follows a second comma is ignored.
   */
  function AcceptByCommas(line: string): Option<Entry>
  {
    match FirstIndex(line, ',')
    case None => None
    case Some(i) =>
      var after := line[i + 1..];
      var amount := match FirstIndex(after, ',') case None => after case Some(j) => after[..j];
      if line[..i] != [] && amount != [] then Some(Entry(Trim(line[..i]), Trim(amount))) else None
  }

  lemma ParseLineByCommas(line: string)
    ensures ParseLine(line) == AcceptByCommas(line)
  {
    match FirstIndex(line, ',')
    case None =>
      SplitWithoutSeparator(line, ',');
    case Some(i) =>
      SplitAtFirst(line, ',', i);
      var after := line[i + 1..];
      match FirstIndex(after, ',')
      case None =>
        SplitWithoutSeparator(after, ',');
      case Some(j) =>
        SplitAtFirst(after, ',', j);
  }

  /** The entries of the accepted lines, one per accepted line, in input order. */
  function EntriesOf(lines: seq<string>): (es: seq<Entry>)
    ensures |es| <= |lines|
  {
    if lines == [] then []
    else
      var e := ParseLine(lines[|lines| - 1]);
      EntriesOf(lines[..|lines| - 1]) + (if e.Some? then [e.value] else [])
  }

  /** Entries are collected line by line: the entries of a concatenation are the concatenation of the entries. */
  lemma {:induction false} EntriesOfAppend(a: seq<string>, b: seq<string>)
    ensures EntriesOf(a + b) == EntriesOf(a) + EntriesOf(b)
    decreases |b|
  {
    if b == [] {
      assert a + b == a;
    } else {
      var b' := b[..|b| - 1];
      assert (a + b)[..|a + b| - 1] == a + b';
      EntriesOfAppend(a, b');
    }
  }

  /** Only accepted lines give entries: a list of rejected lines gives none. */
  lemma {:induction false} EntriesOfRejected(lines: seq<string>)
    requires forall i :: 0 <= i < |lines| ==> ParseLine(lines[i]).None?
    ensures EntriesOf(lines) == []
  {
    if lines != [] {
      EntriesOfRejected(lines[..|lines| - 1]);
    }
  }

  function Entries(entries: string): seq<Entry>
  {
    EntriesOf(Lines(entries))
  }

  function Recipients(es: seq<Entry>): (rs: seq<string>)
    ensures |rs| == |es| && forall i :: 0 <= i < |es| ==> rs[i] == es[i].recipient
  {
    seq(|es|, i requires 0 <= i < |es| => es[i].recipient)
  }

  function AmountTexts(es: seq<Entry>): (ts: seq<string>)
    ensures |ts| == |es| && forall i :: 0 <= i < |es| ==> ts[i] == es[i].amountText
  {
    seq(|es|, i requires 0 <= i < |es| => es[i].amountText)
  }

  // ---------------------------------------------------------------------------
  // Amounts
  // ---------------------------------------------------------------------------

  /** Every amount parsed, in order; None as soon as one of them does not parse. */
  function ParseAmounts(texts: seq<string>, decimals: nat, parse: Parser): (r: Option<seq<int>>)
    ensures r.Some? <==> forall i :: 0 <= i < |texts| ==> parse(texts[i], decimals).Some?
    ensures r.Some? ==> |r.value| == |texts|
    ensures r.Some? ==> forall i :: 0 <= i < |texts| ==> parse(texts[i], decimals) == Some(r.value[i])
  {
    if texts == [] then Some([])
    else
      var init := texts[..|texts| - 1];
      var last := texts[|texts| - 1];
      match ParseAmounts(init, decimals, parse)
      case None =>
        assert exists i :: 0 <= i < |init| && parse(init[i], decimals).None?;
        None
      case Some(vs) =>
        match parse(last, decimals)
        case None => None
        case Some(v) => Some(vs + [v])
  }

  /** The summary's total: the sum of the amounts that parse, the others skipped. */
  function SumParsed(texts: seq<string>, decimals: nat, parse: Parser): int
  {
    if texts == [] then 0
    else
      var v := parse(texts[|texts| - 1], decimals);
      SumParsed(texts[..|texts| - 1], decimals, parse) + (if v.Some? then v.value else 0)
  }

  /** When every amount parses, the summary's total is the total that submit computes. */
  lemma {:induction false} SumParsedAgrees(texts: seq<string>, decimals: nat, parse: Parser, values: seq<int>)
    requires ParseAmounts(texts, decimals, parse) == Some(values)
    ensures SumParsed(texts, decimals, parse) == Sum(values)
    decreases |texts|
  {
    if texts != [] {
      var init := texts[..|texts| - 1];
      var vs := ParseAmounts(init, decimals, parse).value;
      assert values == vs + [values[|values| - 1]];
      assert values[..|values| - 1] == vs;
      SumParsedAgrees(init, decimals, parse, vs);
    }
  }

  // ---------------------------------------------------------------------------
  // The loops of the component
  // ---------------------------------------------------------------------------

  lemma EntriesStep(lines: seq<string>, i: nat)
    requires i < |lines|
    ensures EntriesOf(lines[..i + 1]) == EntriesOf(lines[..i]) + Accepted(ParseLine(lines[i]))
  {
    assert lines[..i + 1][..i] == lines[..i];
  }

  /** The recipients one line's entry contributes: its recipient when the line was accepted. */
  function EntryRecipients(e: Option<Entry>): seq<string>
  {
    if e.Some? then [e.value.recipient] else []
  }

  /** The amounts one line's entry contributes: none when rejected, its parsed amount when accepted, None when that parse throws. */
  function EntryValues(e: Option<Entry>, decimals: nat, parse: Parser): Option<seq<int>>
  {
    if e.None? then Some([])
    else if parse(e.value.amountText, decimals).None? then None
    else Some([parse(e.value.amountText, decimals).value])
  }

  /** Two parse results joined; a failure on either side fails the whole. */
  function Concat(a: Option<seq<int>>, b: Option<seq<int>>): Option<seq<int>>
  {
    if a.Some? && b.Some? then Some(a.value + b.value) else None
  }

  /** The entries one line contributes: its entry when accepted, nothing otherwise. */
  function Accepted(e: Option<Entry>): seq<Entry>
  {
    if e.Some? then [e.value] else []
  }

  lemma RecipientsAppend(before: seq<Entry>, e: Option<Entry>)
    ensures Recipients(before + Accepted(e)) == Recipients(before) + EntryRecipients(e)
  {
    if e.None? {
      assert before + [] == before;
      assert Recipients(before) + [] == Recipients(before);
    } else {
      assert Recipients(before + [e.value]) == Recipients(before) + [e.value.recipient];
    }
  }

  lemma ValuesAppend(before: seq<Entry>, e: Option<Entry>, decimals: nat, parse: Parser)
    ensures ParseAmounts(AmountTexts(before + Accepted(e)), decimals, parse) ==
            Concat(ParseAmounts(AmountTexts(before), decimals, parse), EntryValues(e, decimals, parse))
  {
    var parsed := ParseAmounts(AmountTexts(before), decimals, parse);
    if e.None? {
      assert before + [] == before;
      assert parsed.Some? ==> parsed.value + [] == parsed.value;
    } else {
      assert AmountTexts(before + [e.value]) == AmountTexts(before) + [e.value.amountText];
      ParseAmountsStep(AmountTexts(before), e.value.amountText, decimals, parse);
    }
  }

  /** One iteration of the `handleSubmit` loop, on the specification side. */
  lemma CollectStep(lines: seq<string>, i: nat, decimals: nat, parse: Parser)
    requires i < |lines|
    ensures Recipients(EntriesOf(lines[..i + 1])) ==
            Recipients(EntriesOf(lines[..i])) + EntryRecipients(ParseLine(lines[i]))
    ensures ParseAmounts(AmountTexts(EntriesOf(lines[..i + 1])), decimals, parse) ==
            Concat(ParseAmounts(AmountTexts(EntriesOf(lines[..i])), decimals, parse),
                   EntryValues(ParseLine(lines[i]), decimals, parse))
  {
    EntriesStep(lines, i);
    RecipientsAppend(EntriesOf(lines[..i]), ParseLine(lines[i]));
    ValuesAppend(EntriesOf(lines[..i]), ParseLine(lines[i]), decimals, parse);
  }

  /** Parsing one more amount extends the parsed list, or fails it. */
  lemma ParseAmountsStep(texts: seq<string>, t: string, decimals: nat, parse: Parser)
    ensures ParseAmounts(texts + [t], decimals, parse) ==
            match ParseAmounts(texts, decimals, parse)
            case None => None
            case Some(vs) => (match parse(t, decimals) case None => None case Some(v) => Some(vs + [v]))
  {
    assert (texts + [t])[..|texts|] == texts;
  }

  /** What one line adds to the summary's count. */
  function LineCount(line: string): nat
  {
    if ParseLine(line).Some? then 1 else 0
  }

  /** What one line adds to the summary's total: its amount when the line is accepted and the amount parses. */
  function LineAmount(line: string, decimals: nat, parse: Parser): int
  {
    var e := ParseLine(line);
    if e.Some? && parse(e.value.amountText, decimals).Some? then parse(e.value.amountText, decimals).value else 0
  }

  /** One iteration of the `summary` loop, on the specification side. */
  lemma SummarizeStep(lines: seq<string>, i: nat, decimals: nat, parse: Parser)
    requires i < |lines|
    ensures |EntriesOf(lines[..i + 1])| == |EntriesOf(lines[..i])| + LineCount(lines[i])
    ensures SumParsed(AmountTexts(EntriesOf(lines[..i + 1])), decimals, parse) ==
            SumParsed(AmountTexts(EntriesOf(lines[..i])), decimals, parse) + LineAmount(lines[i], decimals, parse)
  {
    EntriesStep(lines, i);
    var e := ParseLine(lines[i]);
    var before := EntriesOf(lines[..i]);
    if e.None? {
      assert before + [] == before;
    } else {
      var texts := AmountTexts(before + [e.value]);
      assert texts == AmountTexts(before) + [e.value.amountText];
      assert texts[..|texts| - 1] == AmountTexts(before);
    }
  }

  /**
   * The `forEach` of `handleSubmit` over `lines` (the trimmed non-blank lines,
   * `Lines(entries)`), pushing into `recips` and `values`. `ok` is false when
   * `parseUnits` throws on one of the amounts; otherwise the two lists hold
   * one element per accepted line, in input order.
   */
  method Collect(lines: seq<string>, decimals: nat, parse: Parser)
    returns (ok: bool, recips: seq<string>, values: seq<int>)
    ensures ok <==> ParseAmounts(AmountTexts(EntriesOf(lines)), decimals, parse).Some?
    ensures ok ==> recips == Recipients(EntriesOf(lines))
    ensures ok ==> ParseAmounts(AmountTexts(EntriesOf(lines)), decimals, parse) == Some(values)
    ensures ok ==> |recips| == |values| == |EntriesOf(lines)|
  {
    recips, values := [], [];
    var i := 0;
    while i < |lines|
      invariant 0 <= i <= |lines|
      invariant recips == Recipients(EntriesOf(lines[..i]))
      invariant ParseAmounts(AmountTexts(EntriesOf(lines[..i])), decimals, parse) == Some(values)
    {
      CollectStep(lines, i, decimals, parse);
      var rs, vs := CollectLine(lines[i], decimals, parse);
      recips := recips + rs;
      if vs.None? {
        ok := false;
        NoneExtends(lines, i + 1, decimals, parse);
        return;
      }
      values := values + vs.value;
      i := i + 1;
    }
    assert lines[..i] == lines;
    ok := true;
  }

  /** The `forEach` callback of `handleSubmit` for one line: what it pushes onto `recips` and `values`, None when `parseUnits` throws. */
  method CollectLine(line: string, decimals: nat, parse: Parser) returns (rs: seq<string>, vs: Option<seq<int>>)
    ensures rs == EntryRecipients(ParseLine(line))
    ensures vs == EntryValues(ParseLine(line), decimals, parse)
  {
    rs, vs := [], Some([]);
    var entry := ParseLine(line);
    if entry.Some? {
      rs := [entry.value.recipient];
      var v := parse(entry.value.amountText, decimals);
      if v.None? {
        return rs, None;
      }
      vs := Some([v.value]);
    }
  }

  /** Once an amount on some line fails to parse, the whole collection fails. */
  lemma NoneExtends(lines: seq<string>, k: nat, decimals: nat, parse: Parser)
    requires k <= |lines|
    requires ParseAmounts(AmountTexts(EntriesOf(lines[..k])), decimals, parse).None?
    ensures ParseAmounts(AmountTexts(EntriesOf(lines)), decimals, parse).None?
  {
    assert lines == lines[..k] + lines[k..];
    EntriesOfAppend(lines[..k], lines[k..]);
    var a := EntriesOf(lines[..k]);
    var i :| 0 <= i < |a| && parse(AmountTexts(a)[i], decimals).None?;
    assert AmountTexts(EntriesOf(lines))[i] == AmountTexts(a)[i];
  }

  /**
   * The `summary` memo's `forEach` over `Lines(entries)`: the number of
   * accepted lines (the same filter as submit) and the sum of the amounts
   * among them that parse.
   */
  method Summarize(lines: seq<string>, decimals: nat, parse: Parser) returns (count: nat, total: int)
    ensures count == |EntriesOf(lines)|
    ensures total == SumParsed(AmountTexts(EntriesOf(lines)), decimals, parse)
  {
    count, total := 0, 0;
    var i := 0;
    while i < |lines|
      invariant 0 <= i <= |lines|
      invariant count == |EntriesOf(lines[..i])|
      invariant total == SumParsed(AmountTexts(EntriesOf(lines[..i])), decimals, parse)
    {
      SummarizeStep(lines, i, decimals, parse);
      var counted, amount := SummarizeLine(lines[i], decimals, parse);
      count, total := count + counted, total + amount;
      i := i + 1;
    }
    assert lines[..i] == lines;
  }

  /** The `forEach` callback of the `summary` memo for one line: what it adds to `count` and to `total`. */
  method SummarizeLine(line: string, decimals: nat, parse: Parser) returns (counted: nat, amount: int)
    ensures counted == LineCount(line)
    ensures amount == LineAmount(line, decimals, parse)
  {
    counted, amount := 0, 0;
    var entry := ParseLine(line);
    if entry.Some? {
      counted := 1;
      var v := parse(entry.value.amountText, decimals);
      if v.Some? {
        amount := v.value;
      }
    }
  }

  // ---------------------------------------------------------------------------
  // The submit decision
  // ---------------------------------------------------------------------------

  /** `selectedToken.address ? tokenBalance?.value ?? 0n : nativeBalance?.value ?? 0n` */
  function SelectedBalance(token: Token, nativeBalance: Option<int>, tokenBalance: Option<int>): (b: int)
    ensures token.address != "" && tokenBalance.Some? ==> b == tokenBalance.value
    ensures token.address == "" && nativeBalance.Some? ==> b == nativeBalance.value
    ensures (if token.address != "" then tokenBalance else nativeBalance).None? ==> b == 0
  {
    var b := if token.address != "" then tokenBalance else nativeBalance;
    if b.Some? then b.value else 0
  }

  /** The call encoded for the selected asset. */
  function CallFor(token: Token, recips: seq<string>, values: seq<int>): (c: Call)
    ensures c.recipients == recips && c.amounts == values
    ensures c.DisperseToken? <==> token.address != ""
    ensures c.DisperseToken? ==> c.token == token.address
  {
    if token.address != "" then DisperseToken(token.address, recips, values) else DisperseEther(recips, values)
  }

  /**
   * `handleSubmit` as a function of what it reads: the connection flag, the
   * connected account ("" when undefined), the configured multisender
   * address ("" when unset), the text box, the selected symbol and the two
   * balances as the balance hooks report them.
   */
  function Submit(connected: bool, account: string, multisenderAddress: string, entries: string,
                  symbol: string, nativeBalance: Option<int>, tokenBalance: Option<int>, parse: Parser): (o: Outcome)
    requires IsTokenSymbol(symbol)
    ensures o.Send? ==> connected && account != "" && multisenderAddress != ""
    ensures o.Send? ==> o.to == multisenderAddress && o.account == account
  {
    if !connected || account == "" then Rejected("Wallet not connected")
    else if multisenderAddress == "" then Rejected("Multisender address is not configured")
    else Decide(multisenderAddress, account, Entries(entries), SelectedToken(symbol), nativeBalance, tokenBalance, parse)
  }

  /** What `handleSubmit` does once the wallet and the contract address are known, for the entries `es` of the box. */
  function Decide(multisenderAddress: string, account: string, es: seq<Entry>, token: Token,
                  nativeBalance: Option<int>, tokenBalance: Option<int>, parse: Parser): (o: Outcome)
    ensures o.Thrown? <==> ParseAmounts(AmountTexts(es), token.decimals, parse).None?
    ensures o.Send? ==> es != [] && o.to == multisenderAddress && o.account == account
  {
    match ParseAmounts(AmountTexts(es), token.decimals, parse)
    case None => Thrown
    case Some(values) =>
      if |es| == 0 then Rejected("No valid entries")
      else
        var total := Sum(values);
        if SelectedBalance(token, nativeBalance, tokenBalance) < total then Rejected("Insufficient balance")
        else Send(multisenderAddress, CallFor(token, Recipients(es), values),
                  if token.address != "" then None else Some(total), account)
  }

  /**
   * The first two guards, in order: "Wallet not connected" exactly when the
   * wallet is disconnected or has no account, then "Multisender address is
   * not configured" exactly when the address is unset; past them the outcome
   * depends only on the accepted entries, the selected token and the balances.
   */
  lemma SubmitGuardOrder(connected: bool, account: string, multisenderAddress: string, entries: string,
                         symbol: string, nativeBalance: Option<int>, tokenBalance: Option<int>, parse: Parser)
    requires IsTokenSymbol(symbol)
    ensures var o := Submit(connected, account, multisenderAddress, entries, symbol, nativeBalance, tokenBalance, parse);
            && (o == Rejected("Wallet not connected") <==> !connected || account == "")
            && (connected && account != "" ==>
                  (o == Rejected("Multisender address is not configured") <==> multisenderAddress == ""))
            && (connected && account != "" && multisenderAddress != "" ==>
                  o == Decide(multisenderAddress, account, Entries(entries), SelectedToken(symbol),
                              nativeBalance, tokenBalance, parse))
  {
    var o := Decide(multisenderAddress, account, Entries(entries), SelectedToken(symbol), nativeBalance, tokenBalance, parse);
    assert o != Rejected("Wallet not connected") && o != Rejected("Multisender address is not configured") by {
      DecideMessages(multisenderAddress, account, Entries(entries), SelectedToken(symbol), nativeBalance, tokenBalance, parse);
    }
  }

  /** Past the first two guards the only messages are "No valid entries" and "Insufficient balance". */
  lemma DecideMessages(multisenderAddress: string, account: string, es: seq<Entry>, token: Token,
                       nativeBalance: Option<int>, tokenBalance: Option<int>, parse: Parser)
    ensures var o := Decide(multisenderAddress, account, es, token, nativeBalance, tokenBalance, parse);
            o.Rejected? ==> o.message == "No valid entries" || o.message == "Insufficient balance"
  {
  }

  /**
   * The remaining checks, in order: the exception of `parseUnits` exactly when
   * some amount does not parse; then "No valid entries" exactly when no line
   * was accepted; then "Insufficient balance" exactly when the selected
   * balance is below the exact sum of the amounts.
   */
  lemma DecideCheckOrder(multisenderAddress: string, account: string, es: seq<Entry>, token: Token,
                         nativeBalance: Option<int>, tokenBalance: Option<int>, parse: Parser)
    ensures var o := Decide(multisenderAddress, account, es, token, nativeBalance, tokenBalance, parse);
            var parsed := ParseAmounts(AmountTexts(es), token.decimals, parse);
            && (o == Thrown <==> exists i :: 0 <= i < |es| && parse(es[i].amountText, token.decimals).None?)
            && (parsed.Some? ==> (o == Rejected("No valid entries") <==> es == []))
            && (parsed.Some? && es != [] ==>
                  (o == Rejected("Insufficient balance") <==>
                     SelectedBalance(token, nativeBalance, tokenBalance) < Sum(parsed.value)))
  {
    var parsed := ParseAmounts(AmountTexts(es), token.decimals, parse);
    if parsed.None? {
      var i :| 0 <= i < |es| && parse(AmountTexts(es)[i], token.decimals).None?;
      assert parse(es[i].amountText, token.decimals).None?;
    }
  }

  /** With nothing accepted there is nothing to parse, so a box of blank or rejected lines is always "No valid entries" once connected and configured. */
  lemma NoEntriesIsNoValidEntries(connected: bool, account: string, multisenderAddress: string, entries: string,
                                  symbol: string, nativeBalance: Option<int>, tokenBalance: Option<int>, parse: Parser)
    requires IsTokenSymbol(symbol)
    requires connected && account != "" && multisenderAddress != ""
    requires forall i :: 0 <= i < |Lines(entries)| ==> ParseLine(Lines(entries)[i]).None?
    ensures Submit(connected, account, multisenderAddress, entries, symbol, nativeBalance, tokenBalance, parse)
            == Rejected("No valid entries")
  {
    EntriesOfRejected(Lines(entries));
  }

  /**
   * A transaction is sent only past every check, and it carries one recipient
   * and one amount per accepted entry, in order; the balance compared covers
   * their exact sum; a token gets `disperseToken` with no value and the native
   * asset `disperseEther` with the sum as value.
   */
  lemma DecideSend(multisenderAddress: string, account: string, es: seq<Entry>, token: Token,
                   nativeBalance: Option<int>, tokenBalance: Option<int>, parse: Parser)
    requires Decide(multisenderAddress, account, es, token, nativeBalance, tokenBalance, parse).Send?
    ensures var o := Decide(multisenderAddress, account, es, token, nativeBalance, tokenBalance, parse);
            && o.to == multisenderAddress && o.account == account
            && |es| >= 1
            && o.call.recipients == Recipients(es)
            && |o.call.amounts| == |es|
            && (forall i :: 0 <= i < |es| ==> parse(es[i].amountText, token.decimals) == Some(o.call.amounts[i]))
            && Sum(o.call.amounts) <= SelectedBalance(token, nativeBalance, tokenBalance)
            && (token.address != "" ==> o.call == DisperseToken(token.address, o.call.recipients, o.call.amounts) && o.value == None)
            && (token.address == "" ==> o.call.DisperseEther? && o.value == Some(Sum(o.call.amounts)))
  {
    var parsed := ParseAmounts(AmountTexts(es), token.decimals, parse);
    assert forall i :: 0 <= i < |es| ==> AmountTexts(es)[i] == es[i].amountText;
  }

  /** The balance check is `bal < total`: a balance equal to the total passes. */
  lemma ExactBalanceSuffices(multisenderAddress: string, account: string, es: seq<Entry>, token: Token,
                             nativeBalance: Option<int>, tokenBalance: Option<int>, parse: Parser)
    requires es != []
    requires var parsed := ParseAmounts(AmountTexts(es), token.decimals, parse);
             parsed.Some? && SelectedBalance(token, nativeBalance, tokenBalance) == Sum(parsed.value)
    ensures Decide(multisenderAddress, account, es, token, nativeBalance, tokenBalance, parse).Send?
  {
  }

  /** The summary under the box agrees with what submit sends: the same count, and the same total once every amount parses. */
  lemma SummaryMatchesSend(multisenderAddress: string, account: string, es: seq<Entry>, token: Token,
                           nativeBalance: Option<int>, tokenBalance: Option<int>, parse: Parser)
    requires Decide(multisenderAddress, account, es, token, nativeBalance, tokenBalance, parse).Send?
    ensures var o := Decide(multisenderAddress, account, es, token, nativeBalance, tokenBalance, parse);
            |es| == |o.call.recipients| &&
            SumParsed(AmountTexts(es), token.decimals, parse) == Sum(o.call.amounts)
  {
    var parsed := ParseAmounts(AmountTexts(es), token.decimals, parse);
    SumParsedAgrees(AmountTexts(es), token.decimals, parse, parsed.value);
  }

  /**
   * The rest of `handleSubmit` once the wallet and the contract address are
   * known, for the trimmed non-blank lines of the box: collect, then the
   * exception, the empty check and the balance check, then the call.
   */
  method SubmitEntries(multisenderAddress: string, account: string, lines: seq<string>, token: Token,
                       nativeBalance: Option<int>, tokenBalance: Option<int>, parse: Parser)
    returns (o: Outcome)
    ensures o == Decide(multisenderAddress, account, EntriesOf(lines), token, nativeBalance, tokenBalance, parse)
  {
    var ok, recips, values := Collect(lines, token.decimals, parse);
    if !ok {
      return Thrown;
    }
    if |recips| == 0 {
      return Rejected("No valid entries");
    }
    var total := Sum(values);
    var bal := SelectedBalance(token, nativeBalance, tokenBalance);
    if bal < total {
      return Rejected("Insufficient balance");
    }
    o := Send(multisenderAddress, CallFor(token, recips, values),
              if token.address != "" then None else Some(total), account);
  }

  // ---------------------------------------------------------------------------
  // The component's state
  // ---------------------------------------------------------------------------

  /** How the awaited `sendTransactionAsync` (or the encoding before it) settles: a hash, or an exception with or without a message. */
  datatype SendResult = Sent(hash: string) | Failed(message: Option<string>)

  /** The form's `loading`, `status` and `error` state. */
  class SubmitForm {
    var loading: bool
    var status: Option<string>
    var error: Option<string>

    constructor ()
      ensures !loading && status == None && error == None
    {
      loading, status, error := false, None, None;
    }

    /**
     * Lines 118-192 of the handler up to the awaited send. A rejection shows
     * its message and clears `loading`; when `parseUnits` throws, the
     * exception escapes before the `try`, so no message is shown and
     * `loading` stays set; a send leaves `loading` set until `Settle`.
     */
    method HandleSubmit(connected: bool, account: string, multisenderAddress: string, entries: string,
                        symbol: string, nativeBalance: Option<int>, tokenBalance: Option<int>, parse: Parser)
      returns (o: Outcome)
      requires IsTokenSymbol(symbol)
      modifies this
      ensures o == Submit(connected, account, multisenderAddress, entries, symbol, nativeBalance, tokenBalance, parse)
      ensures status == None
      ensures error == (if o.Rejected? then Some(o.message) else None)
      ensures loading <==> !o.Rejected?
    {
      loading, status, error := true, None, None;
      if !connected || account == "" {
        error, loading := Some("Wallet not connected"), false;
        return Rejected("Wallet not connected");
      }
      if multisenderAddress == "" {
        error, loading := Some("Multisender address is not configured"), false;
        return Rejected("Multisender address is not configured");
      }
      o := SubmitEntries(multisenderAddress, account, Lines(entries), SelectedToken(symbol),
                         nativeBalance, tokenBalance, parse);
      if o.Rejected? {
        error, loading := Some(o.message), false;
      }
    }

    /** Lines 193-201: the awaited send settles; the status or the error is set and `loading` cleared. */
    method Settle(r: SendResult)
      modifies this
      ensures !loading
      ensures r.Sent? ==> status == Some("Transaction sent: https://explorer.lens.xyz/tx/" + r.hash) && error == old(error)
      ensures r.Failed? ==> status == old(status) &&
                            error == Some(if r.message.Some? then r.message.value else "Transaction failed")
    {
      if r.Sent? {
        status := Some("Transaction sent: https://explorer.lens.xyz/tx/" + r.hash);
      } else {
        error := Some(if r.message.Some? then r.message.value else "Transaction failed");
      }
      loading := false;
    }
  }
}
