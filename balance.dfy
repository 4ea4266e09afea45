/** The Telegram texts of format_messages/partner_balance.py: the balance report per currency
    (`format_partner_balance`) and the totals report (`format_total`). The translator lookup
    `translator.get(key, lang)`, the amount rendering `f"{x:,.2f}"` and the date rendering
    `datetime.fromtimestamp(t).strftime(...)` are the functions of a `Render` value. */
module PartnerBalance {
  import opened Wrappers
  import opened Text
  import opened Grouping

  /** Telegram's message length the reports split at. */
  const MessageLimit: int := 2048

  /** The `currency` object of an operation; any field may be missing. */
  datatype Currency = Currency(id: Option<string>, name: Option<string>, exchangeRate: Option<real>)

  /** One operation of the balance report as decoded from JSON; any field may be missing. */
  datatype BalanceOp = BalanceOp(
    currency: Option<Currency>, documentTypeId: Option<string>, documentCode: Option<string>,
    startAmount: Option<real>, debit: Option<real>, credit: Option<real>, date: Option<int>)

  /** `translator.get(key, lang)` for the report's language, `f"{x:,.2f}"`, and the date text
      of a timestamp. */
  datatype Render = Render(tr: string -> string, money: real -> string, stamp: int -> string)

  function OrElse<T>(o: Option<T>, fallback: T): T
  {
    if o.Some? then o.value else fallback
  }

  // The fields as the source reads them, each with its `get` default.

  function CurrencyName(op: BalanceOp): string
  {
    if op.currency.Some? then OrElse(op.currency.value.name, "Unknown") else "Unknown"
  }

  function ExchangeRate(op: BalanceOp): real
  {
    if op.currency.Some? then OrElse(op.currency.value.exchangeRate, 1.0) else 1.0
  }

  function DocTypeId(op: BalanceOp): string { OrElse(op.documentTypeId, "0") }
  function DocCode(op: BalanceOp): string { OrElse(op.documentCode, "—") }
  function Start(op: BalanceOp): real { OrElse(op.startAmount, 0.0) }
  function Debit(op: BalanceOp): real { OrElse(op.debit, 0.0) }
  function Credit(op: BalanceOp): real { OrElse(op.credit, 0.0) }
  function Date(op: BalanceOp): int { OrElse(op.date, 0) }

  // ---------------------------------------------------------------- format_partner_balance

  /** The balance after an operation: what was there, plus its debit, minus its credit. */
  function Remainder(op: BalanceOp): real
  {
    Start(op) + Debit(op) - Credit(op)
  }

  /** The remainder line; only the last operation of a currency is labelled as current. */
  function RemainderLine(op: BalanceOp, isLast: bool, rd: Render): string
  {
    var caption := if isLast then rd.tr("remainder") + " (" + rd.tr("current") + ")" else rd.tr("remainder");
    "📊 <b>" + caption + ":</b> " + rd.money(Remainder(op))
  }

  function If(c: bool): nat { if c then 1 else 0 }

  // The lines of one operation's block.

  function TypeLine(op: BalanceOp, rd: Render): string
  {
    "<b>" + rd.tr("partner_document_type" + DocTypeId(op)) + "</b>"
  }

  function CodeLine(op: BalanceOp, rd: Render): string
  {
    "📄 <b>" + rd.tr("document_code") + ":</b> " + DocCode(op)
  }

  function RateLine(op: BalanceOp, rd: Render): string
  {
    "🔢 <b>" + rd.tr("exchange_rate") + ":</b> " + rd.money(ExchangeRate(op))
  }

  function DebitLine(op: BalanceOp, rd: Render): string
  {
    "🟢 <b>" + rd.tr("debit") + ":</b> " + rd.money(Debit(op))
  }

  function CreditLine(op: BalanceOp, rd: Render): string
  {
    "🔴 <b>" + rd.tr("credit") + ":</b> " + rd.money(Credit(op))
  }

  function DateLine(op: BalanceOp, rd: Render): string
  {
    "🕓 <b>" + rd.tr("date") + ":</b> " + rd.stamp(Date(op))
  }

  /** The lines shown for one operation: its document type and code always; the exchange
      rate, debit and credit only when they are not 1, 0 and 0, in that order; then the
      remainder and the date. */
  function OpLines(op: BalanceOp, isLast: bool, rd: Render): (lines: seq<string>)
    ensures var rate, debit, credit := If(ExchangeRate(op) != 1.0), If(Debit(op) != 0.0), If(Credit(op) != 0.0);
      |lines| == 4 + rate + debit + credit
      && lines[0] == TypeLine(op, rd) && lines[1] == CodeLine(op, rd)
      && (rate == 1 ==> lines[2] == RateLine(op, rd))
      && (debit == 1 ==> lines[2 + rate] == DebitLine(op, rd))
      && (credit == 1 ==> lines[2 + rate + debit] == CreditLine(op, rd))
      && lines[2 + rate + debit + credit] == RemainderLine(op, isLast, rd)
      && lines[3 + rate + debit + credit] == DateLine(op, rd)
  {
    [TypeLine(op, rd), CodeLine(op, rd)]
    + (if ExchangeRate(op) != 1.0 then [RateLine(op, rd)] else [])
    + (if Debit(op) != 0.0 then [DebitLine(op, rd)] else [])
    + (if Credit(op) != 0.0 then [CreditLine(op, rd)] else [])
    + [RemainderLine(op, isLast, rd), DateLine(op, rd)]
  }

  /** The block of one operation: its lines, then a blank line. */
  function Block(op: BalanceOp, isLast: bool, rd: Render): string
  {
    Join("\n", OpLines(op, isLast, rd)) + "\n\n"
  }

  function CurrencyHeader(name: string): string
  {
    "💱 <b>" + name + "</b>\n\n"
  }

  /** The blocks of the first `n` operations of `ops`; the block of the last operation of
      `ops` is the one marked current. */
  function Blocks(ops: seq<BalanceOp>, n: nat, rd: Render): string
    requires n <= |ops|
  {
    if n == 0 then "" else Blocks(ops, n - 1, rd) + Block(ops[n - 1], n == |ops|, rd)
  }

  /** The blocks are those of the operations in order, and only the block of the last
      operation is marked current. */
  lemma {:induction false} BlocksMarkLastOnly(ops: seq<BalanceOp>, n: nat, rd: Render)
    requires n <= |ops|
    ensures Blocks(ops, n, rd) == Concat(seq(n, i requires 0 <= i < n <= |ops| => Block(ops[i], i == |ops| - 1, rd)))
  {
    var s := seq(n, i requires 0 <= i < n <= |ops| => Block(ops[i], i == |ops| - 1, rd));
    if n > 0 {
      BlocksMarkLastOnly(ops, n - 1, rd);
      assert s[..n - 1] == seq(n - 1, i requires 0 <= i < n - 1 <= |ops| => Block(ops[i], i == |ops| - 1, rd));
    }
  }

  /** The text of one currency before it is split. */
  function CurrencyText(name: string, ops: seq<BalanceOp>, rd: Render): string
  {
    CurrencyHeader(name) + Blocks(ops, |ops|, rd)
  }

  /** The `for op in operations` loop that builds a currency's text. */
  method BuildCurrencyText(name: string, ops: seq<BalanceOp>, rd: Render) returns (text: string)
    ensures text == CurrencyText(name, ops, rd)
  {
    text := CurrencyHeader(name);
    for i := 0 to |ops|
      invariant text == CurrencyHeader(name) + Blocks(ops, i, rd)
    {
      var block := Join("\n", OpLines(ops[i], i == |ops| - 1, rd)) + "\n\n";
      AppendAssoc(CurrencyHeader(name), Blocks(ops, i, rd), block);
      text := text + block;
    }
  }

  // ---------------------------------------------------------------- splitting at 2048

  /** Where a text longer than the limit is cut: at the last blank line that ends within the
      first 2048 characters; without one `rfind` gives -1 and the slices `text[:-1]` and
      `text[-1:]` cut before the last character. */
  function Cut(text: string): (cut: int)
    requires |text| > MessageLimit
    ensures 0 <= cut < |text|
    ensures cut <= MessageLimit - 2 || cut == |text| - 1
    ensures |Strip(text[cut..])| < |text|
  {
    var k := RFind(text, "\n\n", MessageLimit);
    if k >= 0 then
      if k == 0 then
        assert IsSpace(text[0]);
        StripShortens(text);
        k
      else k
    else |text| - 1
  }

  /** The messages a text is sent as: while it is longer than the limit, the part before the
      cut is sent (stripped) and the rest (stripped) goes on. */
  function SplitChunks(text: string): (r: seq<string>)
    ensures |r| >= 1
    ensures |text| <= MessageLimit ==> r == [Strip(text)]
    decreases |text|
  {
    if |text| <= MessageLimit then [Strip(text)]
    else
      var cut := Cut(text);
      [Strip(text[..cut])] + SplitChunks(Strip(text[cut..]))
  }

  lemma SplitChunksUnfold(text: string)
    requires |text| > MessageLimit
    ensures SplitChunks(text) == [Strip(text[..Cut(text)])] + SplitChunks(Strip(text[Cut(text)..]))
  {
  }

  /** One round of the loop: the message sent and the text that goes on. */
  method CutOnce(t: string) returns (piece: string, rest: string)
    requires |t| > MessageLimit
    ensures piece == Strip(t[..Cut(t)]) && rest == Strip(t[Cut(t)..])
  {
    var splitIdx := RFind(t, "\n\n", MessageLimit);
    if splitIdx >= 0 {
      piece, rest := Strip(t[..splitIdx]), Strip(t[splitIdx..]);
    } else {
      // `text[:-1]` and `text[-1:]`
      piece, rest := Strip(t[..|t| - 1]), Strip(t[|t| - 1..]);
    }
  }

  /** The `while len(text) > 2048` loop and the final `append`. */
  method SplitMessages(text: string) returns (chunks: seq<string>)
    ensures chunks == SplitChunks(text)
  {
    chunks := [];
    var t := text;
    assert [] + SplitChunks(t) == SplitChunks(text);
    while |t| > MessageLimit
      invariant chunks + SplitChunks(t) == SplitChunks(text)
      decreases |t|
    {
      SplitChunksUnfold(t);
      var piece, rest := CutOnce(t);
      AppendAssoc(chunks, [piece], SplitChunks(rest));
      chunks, t := chunks + [piece], rest;
    }
    chunks := chunks + [Strip(t)];
  }

  /** Every message but the last two is at most 2046 characters long, the last at most 2048,
      and the one before the last at most 2046 unless the last is a single character left by
      a cut that found no blank line. */
  predicate ChunksFit(r: seq<string>)
  {
    |r| >= 1 && |r[|r| - 1]| <= MessageLimit
    && (forall i :: 0 <= i < |r| - 2 ==> |r[i]| <= MessageLimit - 2)
    && (|r| >= 2 ==> |r[|r| - 2]| <= MessageLimit - 2 || |r[|r| - 1]| <= 1)
  }

  lemma ChunksFitCons(c: string, rr: seq<string>)
    requires ChunksFit(rr) && |c| <= MessageLimit - 2
    ensures ChunksFit([c] + rr)
  {
    var r := [c] + rr;
    forall i | 0 <= i < |r| - 2
      ensures |r[i]| <= MessageLimit - 2
    {
      if i > 0 { assert r[i] == rr[i - 1]; }
    }
  }

  lemma {:induction false} SplitChunksBounds(text: string)
    ensures ChunksFit(SplitChunks(text))
    decreases |text|
  {
    if |text| > MessageLimit {
      var cut := Cut(text);
      var rest := Strip(text[cut..]);
      var c := Strip(text[..cut]);
      assert SplitChunks(text) == [c] + SplitChunks(rest);
      if cut <= MessageLimit - 2 {
        SplitChunksBounds(rest);
        ChunksFitCons(c, SplitChunks(rest));
      } else {
        assert |SplitChunks(rest)| == 1 && |SplitChunks(rest)[0]| <= 1;
      }
    }
  }

  /** Splitting loses nothing but whitespace: the messages hold every other character of the
      text, in order. */
  lemma {:induction false} SplitChunksKeepText(text: string)
    ensures NonSpace(Concat(SplitChunks(text))) == NonSpace(text)
    decreases |text|
  {
    if |text| <= MessageLimit {
      KeepWhole(text);
    } else {
      var cut := Cut(text);
      var rest := Strip(text[cut..]);
      SplitChunksUnfold(text);
      SplitChunksKeepText(rest);
      KeepStep(text, cut, SplitChunks(rest));
    }
  }

  lemma KeepWhole(text: string)
    requires |text| <= MessageLimit
    ensures NonSpace(Concat(SplitChunks(text))) == NonSpace(text)
  {
    assert [Strip(text)][..0] == [];
    assert Concat([Strip(text)]) == Strip(text);
    NonSpaceStrip(text);
  }

  lemma KeepStep(text: string, cut: int, rr: seq<string>)
    requires 0 <= cut <= |text|
    requires NonSpace(Concat(rr)) == NonSpace(Strip(text[cut..]))
    ensures NonSpace(Concat([Strip(text[..cut])] + rr)) == NonSpace(text)
  {
    var head, tail := text[..cut], text[cut..];
    NonSpaceSplitAt(text, cut);
    ConcatPrepend(Strip(head), rr);
    NonSpaceConcat(Strip(head), Concat(rr));
    NonSpaceStrip(head);
    NonSpaceStrip(tail);
  }

  // ---------------------------------------------------------------- the whole report

  /** A currency's operations sorted by date, oldest first unless `newestFirst`. */
  function SortedGroup(data: seq<BalanceOp>, name: string, newestFirst: bool): seq<BalanceOp>
  {
    SortBy(Members(data, CurrencyName, name), Date, newestFirst)
  }

  /** The messages of one currency. */
  function CurrencyChunks(data: seq<BalanceOp>, name: string, rd: Render, newestFirst: bool): seq<string>
  {
    SplitChunks(CurrencyText(name, SortedGroup(data, name, newestFirst), rd))
  }

  /** The messages of the currencies `names`, one currency after the other. */
  function MessagesFor(data: seq<BalanceOp>, names: seq<string>, rd: Render, newestFirst: bool): seq<string>
  {
    if names == [] then []
    else
      var name := names[|names| - 1];
      MessagesFor(data, names[..|names| - 1], rd, newestFirst) + CurrencyChunks(data, name, rd, newestFirst)
  }

  /** What `format_partner_balance(data, lang, translator, newest_first)` returns. */
  function BalanceMessages(data: seq<BalanceOp>, rd: Render, newestFirst: bool): seq<string>
  {
    if data == [] then [rd.tr("no_data")]
    else MessagesFor(data, Keys(data, CurrencyName), rd, newestFirst)
  }

  /** The messages of one currency: its operations sorted by date, its text, and the split. */
  method CurrencyMessages(data: seq<BalanceOp>, name: string, group: seq<BalanceOp>, rd: Render, newestFirst: bool) returns (chunks: seq<string>)
    requires group == Members(data, CurrencyName, name)
    ensures chunks == CurrencyChunks(data, name, rd, newestFirst)
  {
    var operations := SortBy(group, Date, newestFirst);
    var text := BuildCurrencyText(name, operations, rd);
    chunks := SplitMessages(text);
  }

  /** `format_partner_balance`: group by currency in order of first appearance, sort every
      group by date, build its text and split it into messages. */
  method FormatPartnerBalance(data: seq<BalanceOp>, rd: Render, newestFirst: bool) returns (messages: seq<string>)
    ensures messages == BalanceMessages(data, rd, newestFirst)
    ensures data == [] ==> messages == [rd.tr("no_data")]
  {
    if data == [] {
      return [rd.tr("no_data")];
    }
    messages := GroupMessages(data, rd, newestFirst);
  }

  /** The loop over the currency groups. */
  method GroupMessages(data: seq<BalanceOp>, rd: Render, newestFirst: bool) returns (messages: seq<string>)
    ensures messages == MessagesFor(data, Keys(data, CurrencyName), rd, newestFirst)
  {
    var names, currencies := GroupBy(data, CurrencyName);
    messages := [];
    for i := 0 to |names|
      invariant messages == MessagesFor(data, names[..i], rd, newestFirst)
    {
      messages := MessagesRound(data, names, currencies, i, rd, newestFirst, messages);
    }
    assert names[..|names|] == names;
  }

  /** One round of the loop over the currency groups. */
  method MessagesRound(data: seq<BalanceOp>, names: seq<string>, currencies: map<string, seq<BalanceOp>>, i: int,
                       rd: Render, newestFirst: bool, messages: seq<string>) returns (messages': seq<string>)
    requires names == Keys(data, CurrencyName)
    requires forall k :: k in currencies <==> k in names
    requires forall k :: k in currencies ==> currencies[k] == Members(data, CurrencyName, k)
    requires 0 <= i < |names|
    requires messages == MessagesFor(data, names[..i], rd, newestFirst)
    ensures messages' == MessagesFor(data, names[..i + 1], rd, newestFirst)
  {
    var group := GroupOf(data, CurrencyName, names, currencies, names[i]);
    var chunks := CurrencyMessages(data, names[i], group, rd, newestFirst);
    MessagesForStep(data, names, i, rd, newestFirst);
    messages' := messages + chunks;
  }

  lemma MessagesForStep(data: seq<BalanceOp>, names: seq<string>, i: int, rd: Render, newestFirst: bool)
    requires 0 <= i < |names|
    ensures MessagesFor(data, names[..i + 1], rd, newestFirst)
            == MessagesFor(data, names[..i], rd, newestFirst)
               + CurrencyChunks(data, names[i], rd, newestFirst)
  {
    assert names[..i + 1][..i] == names[..i];
  }

  /** The report always has a message: for no data the "no data" text, otherwise at least
      one per currency, and exactly one per currency when every currency's text fits. */
  lemma BalanceMessagesCount(data: seq<BalanceOp>, rd: Render, newestFirst: bool)
    ensures |BalanceMessages(data, rd, newestFirst)| >= 1
    ensures data != [] ==> |BalanceMessages(data, rd, newestFirst)| >= |Keys(data, CurrencyName)|
    ensures data != []
            && (forall name :: name in Keys(data, CurrencyName)
                  ==> |CurrencyText(name, SortedGroup(data, name, newestFirst), rd)| <= MessageLimit)
            ==> |BalanceMessages(data, rd, newestFirst)| == |Keys(data, CurrencyName)|
  {
    if data != [] {
      var names := Keys(data, CurrencyName);
      MessagesPerCurrency(data, names, rd, newestFirst);
      KeysComplete(data, CurrencyName);
      assert CurrencyName(data[0]) in names;
    }
  }

  /** Every currency gives at least one message, and a currency whose text fits in one
      message gives exactly one. */
  lemma {:induction false} MessagesPerCurrency(data: seq<BalanceOp>, names: seq<string>, rd: Render, newestFirst: bool)
    ensures |MessagesFor(data, names, rd, newestFirst)| >= |names|
    ensures (forall i :: 0 <= i < |names| ==> |CurrencyText(names[i], SortedGroup(data, names[i], newestFirst), rd)| <= MessageLimit)
            ==> |MessagesFor(data, names, rd, newestFirst)| == |names|
  {
    if names != [] {
      var front := names[..|names| - 1];
      MessagesPerCurrency(data, front, rd, newestFirst);
      assert forall i :: 0 <= i < |front| ==> front[i] == names[i];
    }
  }

  /** Every operation is listed under its own currency, and every currency's operations are
      in date order, operations of equal date keeping their order in `data`. */
  lemma GroupsSortedAndComplete(data: seq<BalanceOp>, newestFirst: bool, i: int)
    requires 0 <= i < |data|
    ensures data[i] in SortedGroup(data, CurrencyName(data[i]), newestFirst)
    ensures CurrencyName(data[i]) in Keys(data, CurrencyName)
    ensures Sorted(SortedGroup(data, CurrencyName(data[i]), newestFirst), Date, newestFirst)
    ensures forall d :: Members(SortedGroup(data, CurrencyName(data[i]), newestFirst), Date, d)
                        == Members(Members(data, CurrencyName, CurrencyName(data[i])), Date, d)
  {
    var group := Members(data, CurrencyName, CurrencyName(data[i]));
    InOwnSortedGroup(data, newestFirst, i);
    KeysComplete(data, CurrencyName);
    SortBySorted(group, Date, newestFirst);
    forall d ensures Members(SortBy(group, Date, newestFirst), Date, d) == Members(group, Date, d) {
      SortByStable(group, Date, newestFirst, d);
    }
  }

  lemma InOwnSortedGroup(data: seq<BalanceOp>, newestFirst: bool, i: int)
    requires 0 <= i < |data|
    ensures data[i] in SortedGroup(data, CurrencyName(data[i]), newestFirst)
  {
    var group := Members(data, CurrencyName, CurrencyName(data[i]));
    MemberOfOwnGroup(data, CurrencyName, i);
    assert data[i] in multiset(group);
    SortByPermutes(group, Date, newestFirst);
    assert data[i] in multiset(SortBy(group, Date, newestFirst));
  }

  // ---------------------------------------------------------------- format_total

  /** One document type's value: the credits of its operations minus their debits (the
      source calls them the other way round, as seen from the partner). */
  function DocTypeValue(ops: seq<BalanceOp>, id: string): real
  {
    Sum(Members(ops, DocTypeId, id), Credit) - Sum(Members(ops, DocTypeId, id), Debit)
  }

  function DocTypeLine(id: string, value: real, rd: Render): string
  {
    "📄 <b>" + rd.tr("plural_partner_document_type" + id) + "</b>: " + rd.money(value) + "\n"
  }

  /** The lines and the sum of the values of the document types `ids`, in that order. */
  function DocTypeLines(ops: seq<BalanceOp>, ids: seq<string>, rd: Render): string
  {
    if ids == [] then "" else DocTypeLines(ops, ids[..|ids| - 1], rd) + DocTypeLine(ids[|ids| - 1], DocTypeValue(ops, ids[|ids| - 1]), rd)
  }

  function DocTypeSum(ops: seq<BalanceOp>, ids: seq<string>): real
  {
    if ids == [] then 0.0 else DocTypeSum(ops, ids[..|ids| - 1]) + DocTypeValue(ops, ids[|ids| - 1])
  }

  /** `total_currency_sum`: the values of all document types of a currency. */
  function CurrencyTotal(ops: seq<BalanceOp>): real
  {
    DocTypeSum(ops, Keys(ops, DocTypeId))
  }

  /** A currency's text in the totals report. */
  function TotalsText(name: string, ops: seq<BalanceOp>, rd: Render): string
  {
    CurrencyHeader(name) + DocTypeLines(ops, Keys(ops, DocTypeId), rd)
    + "💰 <b>" + rd.tr("currency_total") + ":</b> " + rd.money(CurrencyTotal(ops)) + "\n"
  }

  lemma {:induction false} DocTypeSumSplit(ops: seq<BalanceOp>, ids: seq<string>)
    ensures DocTypeSum(ops, ids) == SumOfGroups(ops, DocTypeId, ids, Credit) - SumOfGroups(ops, DocTypeId, ids, Debit)
  {
    if ids != [] {
      DocTypeSumSplit(ops, ids[..|ids| - 1]);
    }
  }

  lemma DocTypeStep(ops: seq<BalanceOp>, ids: seq<string>, i: int, rd: Render)
    requires 0 <= i < |ids|
    ensures DocTypeLines(ops, ids[..i + 1], rd) == DocTypeLines(ops, ids[..i], rd) + DocTypeLine(ids[i], DocTypeValue(ops, ids[i]), rd)
    ensures DocTypeSum(ops, ids[..i + 1]) == DocTypeSum(ops, ids[..i]) + DocTypeValue(ops, ids[i])
  {
    assert ids[..i + 1][..i] == ids[..i];
  }

  /** A currency's text and `total_currency_sum` in `format_total`. */
  method DocTypeTotals(name: string, ops: seq<BalanceOp>, rd: Render) returns (text: string, total: real)
    ensures text == TotalsText(name, ops, rd)
    ensures total == CurrencyTotal(ops)
  {
    text, total := DocTypeLoop(name, ops, rd);
    text := text + "💰 <b>" + rd.tr("currency_total") + ":</b> " + rd.money(total) + "\n";
  }

  /** The loop over the document types of one currency, in order of first appearance. */
  method DocTypeLoop(name: string, ops: seq<BalanceOp>, rd: Render) returns (text: string, total: real)
    ensures text == CurrencyHeader(name) + DocTypeLines(ops, Keys(ops, DocTypeId), rd)
    ensures total == CurrencyTotal(ops)
  {
    var ids, docGroups := GroupBy(ops, DocTypeId);
    text, total := CurrencyHeader(name), 0.0;
    for i := 0 to |ids|
      invariant text == CurrencyHeader(name) + DocTypeLines(ops, ids[..i], rd)
      invariant total == DocTypeSum(ops, ids[..i])
    {
      var group := docGroups[ids[i]];
      // debit and credit are swapped, as seen from the partner
      var totalCredit := Sum(group, Debit);
      var totalDebit := Sum(group, Credit);
      var totalValue := totalDebit - totalCredit;
      assert totalValue == DocTypeValue(ops, ids[i]);
      total := total + totalValue;
      var line := DocTypeLine(ids[i], totalValue, rd);
      DocTypeStep(ops, ids, i, rd);
      AppendAssoc(CurrencyHeader(name), DocTypeLines(ops, ids[..i], rd), line);
      text := text + line;
    }
    assert ids[..|ids|] == ids;
  }

  /** A currency's operations as `format_total` sorts them: by date, oldest first. */
  function TotalsGroup(data: seq<BalanceOp>, name: string): seq<BalanceOp>
  {
    SortBy(Members(data, CurrencyName, name), Date, false)
  }

  /** Every currency of the report has operations, so `operations[0]` and `operations[-1]`
      exist; the fallbacks of `FirstStart` and `LastRate` for an empty group are never used. */
  lemma KeysOccur(data: seq<BalanceOp>, name: string)
    requires name in Keys(data, CurrencyName)
    ensures TotalsGroup(data, name) != []
  {
    MembersNonEmpty(data, CurrencyName, name);
    var g := Members(data, CurrencyName, name);
    SortByPermutes(g, Date, false);
  }

  /** `operations[0].get("start_amount", 0)` */
  function FirstStart(ops: seq<BalanceOp>): real
  {
    if ops == [] then 0.0 else Start(ops[0])
  }

  /** `operations[-1]`'s exchange rate, the one `format_total` records for the currency. */
  function LastRate(ops: seq<BalanceOp>): real
  {
    if ops == [] then 1.0 else ExchangeRate(ops[|ops| - 1])
  }

  /** A currency's share of the grand total: its total plus the start amount of its first
      operation, at the exchange rate of its last operation. */
  function Contribution(ops: seq<BalanceOp>): real
  {
    AtRate(CurrencyTotal(ops) + FirstStart(ops), LastRate(ops))
  }

  /** An amount converted at an exchange rate. */
  function AtRate(amount: real, rate: real): real
  {
    amount * rate
  }

  /** An amount converted back from an exchange rate. */
  function FromRate(amount: real, rate: real): real
    requires rate != 0.0
  {
    amount / rate
  }

  /** `total_in_base_currency` after the currencies `names`. */
  function GrandTotal(data: seq<BalanceOp>, names: seq<string>): real
  {
    if names == [] then 0.0
    else GrandTotal(data, names[..|names| - 1]) + Contribution(TotalsGroup(data, names[|names| - 1]))
  }

  /** `currency_list`: every currency's name with its recorded exchange rate. */
  function CurrencyList(data: seq<BalanceOp>, names: seq<string>): (list: seq<(string, real)>)
    ensures |list| == |names|
  {
    if names == [] then []
    else CurrencyList(data, names[..|names| - 1]) + [(names[|names| - 1], LastRate(TotalsGroup(data, names[|names| - 1])))]
  }

  lemma {:induction false} CurrencyListAt(data: seq<BalanceOp>, names: seq<string>, i: int)
    requires 0 <= i < |names|
    ensures CurrencyList(data, names)[i] == (names[i], LastRate(TotalsGroup(data, names[i])))
  {
    if i < |names| - 1 {
      CurrencyListAt(data, names[..|names| - 1], i);
    }
  }

  function CurrencyTotalChunks(data: seq<BalanceOp>, name: string, rd: Render): seq<string>
  {
    SplitChunks(TotalsText(name, TotalsGroup(data, name), rd))
  }

  /** The messages of the currencies `names` in the totals report. */
  function TotalsMessagesFor(data: seq<BalanceOp>, names: seq<string>, rd: Render): seq<string>
  {
    if names == [] then []
    else TotalsMessagesFor(data, names[..|names| - 1], rd) + CurrencyTotalChunks(data, names[|names| - 1], rd)
  }

  /** The text of the final message before `strip`: the grand total in every recorded
      currency, one line each; `None` where a recorded rate of 0 makes the division raise
      ZeroDivisionError. */
  function GrandTotalLines(list: seq<(string, real)>, grand: real, rd: Render): Option<string>
  {
    if list == [] then Some("")
    else
      match GrandTotalLines(list[..|list| - 1], grand, rd)
      case None => None
      case Some(front) =>
        var (name, rate) := list[|list| - 1];
        if rate == 0.0 then None
        else Some(front + "<b>" + rd.tr("total") + " (" + name + "):</b> " + rd.money(FromRate(grand, rate)) + "\n")
  }

  /** What `format_total(data, lang, translator)` returns, or `None` where it raises. */
  function TotalMessages(data: seq<BalanceOp>, rd: Render): Option<seq<string>>
  {
    if data == [] then Some([rd.tr("no_data")])
    else
      var names := Keys(data, CurrencyName);
      match GrandTotalLines(CurrencyList(data, names), GrandTotal(data, names), rd)
      case None => None
      case Some(lines) => Some(TotalsMessagesFor(data, names, rd) + [Strip(lines)])
  }

  lemma TotalsStep(data: seq<BalanceOp>, names: seq<string>, i: int, rd: Render)
    requires 0 <= i < |names|
    ensures TotalsMessagesFor(data, names[..i + 1], rd) == TotalsMessagesFor(data, names[..i], rd) + CurrencyTotalChunks(data, names[i], rd)
    ensures GrandTotal(data, names[..i + 1]) == GrandTotal(data, names[..i]) + Contribution(TotalsGroup(data, names[i]))
    ensures CurrencyList(data, names[..i + 1]) == CurrencyList(data, names[..i]) + [(names[i], LastRate(TotalsGroup(data, names[i])))]
  {
    assert names[..i + 1][..i] == names[..i];
  }

  /** The messages of one currency, its recorded rate and its share of the grand total. */
  method CurrencyTotalOf(data: seq<BalanceOp>, name: string, group: seq<BalanceOp>, rd: Render)
      returns (chunks: seq<string>, rate: real, share: real)
    requires group == Members(data, CurrencyName, name) && name in Keys(data, CurrencyName)
    ensures chunks == CurrencyTotalChunks(data, name, rd)
    ensures rate == LastRate(TotalsGroup(data, name))
    ensures share == Contribution(TotalsGroup(data, name))
  {
    KeysOccur(data, name);
    var operations := SortBy(group, Date, false);
    var text, total := DocTypeTotals(name, operations, rd);
    rate := ExchangeRate(operations[|operations| - 1]);
    var startAmount := Start(operations[0]);
    ContributionOf(operations, total, startAmount, rate);
    share := AtRate(total + startAmount, rate);
    chunks := SplitMessages(text);
  }

  lemma ContributionOf(ops: seq<BalanceOp>, total: real, start: real, rate: real)
    requires ops != [] && total == CurrencyTotal(ops) && start == Start(ops[0]) && rate == ExchangeRate(ops[|ops| - 1])
    ensures AtRate(total + start, rate) == Contribution(ops)
  {
  }

  /** The loop over the currencies of `format_total`: their messages, `currency_list` and
      `total_in_base_currency`. */
  method CurrencyTotals(data: seq<BalanceOp>, rd: Render) returns (messages: seq<string>, list: seq<(string, real)>, grand: real)
    ensures messages == TotalsMessagesFor(data, Keys(data, CurrencyName), rd)
    ensures list == CurrencyList(data, Keys(data, CurrencyName))
    ensures grand == GrandTotal(data, Keys(data, CurrencyName))
  {
    var names, currencies := GroupBy(data, CurrencyName);
    messages, list, grand := [], [], 0.0;
    for i := 0 to |names|
      invariant messages == TotalsMessagesFor(data, names[..i], rd)
      invariant list == CurrencyList(data, names[..i])
      invariant grand == GrandTotal(data, names[..i])
    {
      messages, list, grand := TotalsRound(data, names, currencies, i, rd, messages, list, grand);
    }
    assert names[..|names|] == names;
  }

  /** One round of the loop over the currencies in `format_total`. */
  method TotalsRound(data: seq<BalanceOp>, names: seq<string>, currencies: map<string, seq<BalanceOp>>, i: int, rd: Render,
                     messages: seq<string>, list: seq<(string, real)>, grand: real)
      returns (messages': seq<string>, list': seq<(string, real)>, grand': real)
    requires names == Keys(data, CurrencyName)
    requires forall k :: k in currencies <==> k in names
    requires forall k :: k in currencies ==> currencies[k] == Members(data, CurrencyName, k)
    requires 0 <= i < |names|
    requires messages == TotalsMessagesFor(data, names[..i], rd)
    requires list == CurrencyList(data, names[..i])
    requires grand == GrandTotal(data, names[..i])
    ensures messages' == TotalsMessagesFor(data, names[..i + 1], rd)
    ensures list' == CurrencyList(data, names[..i + 1])
    ensures grand' == GrandTotal(data, names[..i + 1])
  {
    var name := names[i];
    var group := GroupOf(data, CurrencyName, names, currencies, name);
    var chunks, rate, share := CurrencyTotalOf(data, name, group, rd);
    TotalsStep(data, names, i, rd);
    messages', list', grand' := messages + chunks, list + [(name, rate)], grand + share;
  }

  /** `format_total`: the messages of every currency, then the grand totals; `None` where the
      source raises ZeroDivisionError. */
  method FormatTotal(data: seq<BalanceOp>, rd: Render) returns (r: Option<seq<string>>)
    ensures r == TotalMessages(data, rd)
  {
    if data == [] {
      return Some([rd.tr("no_data")]);
    }
    var messages, list, grand := CurrencyTotals(data, rd);
    var totalMessage := TotalLines(list, grand, rd);
    if totalMessage.None? {
      return None;
    }
    return Some(messages + [Strip(totalMessage.value)]);
  }

  /** The loop that builds the final message. */
  method TotalLines(list: seq<(string, real)>, grand: real, rd: Render) returns (r: Option<string>)
    ensures r == GrandTotalLines(list, grand, rd)
  {
    var wordTotal := rd.tr("total");
    var totalMessage := "";
    for i := 0 to |list|
      invariant GrandTotalLines(list[..i], grand, rd) == Some(totalMessage)
    {
      assert list[..i + 1][..i] == list[..i];
      var (name, exchangeRate) := list[i];
      if exchangeRate == 0.0 {
        GrandTotalLinesFail(list, grand, rd);
        return None;
      }
      totalMessage := totalMessage + "<b>" + wordTotal + " (" + name + "):</b> " + rd.money(FromRate(grand, exchangeRate)) + "\n";
    }
    assert list[..|list|] == list;
    return Some(totalMessage);
  }

  /** The final message fails exactly when some recorded exchange rate is 0. */
  lemma {:induction false} GrandTotalLinesFail(list: seq<(string, real)>, grand: real, rd: Render)
    ensures GrandTotalLines(list, grand, rd).None? <==> exists i :: 0 <= i < |list| && list[i].1 == 0.0
  {
    if list != [] {
      var front := list[..|list| - 1];
      GrandTotalLinesFail(front, grand, rd);
      assert forall i :: 0 <= i < |front| ==> front[i] == list[i];
    }
  }

  /** The totals report raises exactly when the last operation of some currency has exchange
      rate 0. */
  lemma TotalMessagesFail(data: seq<BalanceOp>, rd: Render)
    requires data != []
    ensures TotalMessages(data, rd).None?
            <==> exists name :: name in Keys(data, CurrencyName) && LastRate(TotalsGroup(data, name)) == 0.0
  {
    var names := Keys(data, CurrencyName);
    var list := CurrencyList(data, names);
    GrandTotalLinesFail(list, GrandTotal(data, names), rd);
    if exists name :: name in names && LastRate(TotalsGroup(data, name)) == 0.0 {
      var name :| name in names && LastRate(TotalsGroup(data, name)) == 0.0;
      var i :| 0 <= i < |names| && names[i] == name;
      CurrencyListAt(data, names, i);
    }
    if exists i :: 0 <= i < |list| && list[i].1 == 0.0 {
      var i :| 0 <= i < |list| && list[i].1 == 0.0;
      CurrencyListAt(data, names, i);
    }
  }

  /** When the totals report does not raise, every currency has at least one message, and the
      grand totals are the last message. */
  lemma TotalMessagesLast(data: seq<BalanceOp>, rd: Render)
    requires data != [] && TotalMessages(data, rd).Some?
    ensures var names := Keys(data, CurrencyName);
      var msgs := TotalMessages(data, rd).value;
      |msgs| >= |names| + 1
      && msgs[..|msgs| - 1] == TotalsMessagesFor(data, names, rd)
      && msgs[|msgs| - 1] == Strip(GrandTotalLines(CurrencyList(data, names), GrandTotal(data, names), rd).value)
  {
    var names := Keys(data, CurrencyName);
    TotalsCount(data, names, rd);
    var msgs := TotalMessages(data, rd).value;
    assert msgs == TotalsMessagesFor(data, names, rd) + [msgs[|msgs| - 1]];
  }

  lemma {:induction false} TotalsCount(data: seq<BalanceOp>, names: seq<string>, rd: Render)
    ensures |TotalsMessagesFor(data, names, rd)| >= |names|
  {
    if names != [] {
      TotalsCount(data, names[..|names| - 1], rd);
    }
  }

  /** The currency total is all the currency's credits minus all its debits: grouping by
      document type neither loses nor counts twice an operation. */
  lemma CurrencyTotalIsNet(ops: seq<BalanceOp>)
    ensures CurrencyTotal(ops) == Sum(ops, Credit) - Sum(ops, Debit)
  {
    DocTypeSumSplit(ops, Keys(ops, DocTypeId));
    PartitionSum(ops, DocTypeId, Credit);
    PartitionSum(ops, DocTypeId, Debit);
  }

  /** With a single currency its total is all credits minus all debits of the report. */
  lemma SingleCurrencyNet(data: seq<BalanceOp>, name: string)
    requires Keys(data, CurrencyName) == [name]
    ensures CurrencyTotal(TotalsGroup(data, name)) == Sum(data, Credit) - Sum(data, Debit)
  {
    var m := Members(data, CurrencyName, name);
    CurrencyTotalIsNet(TotalsGroup(data, name));
    SortBySum(m, Date, false, Credit);
    SortBySum(m, Date, false, Debit);
    PartitionSum(data, CurrencyName, Credit);
    PartitionSum(data, CurrencyName, Debit);
    assert [name][..0] == [];
  }
}
