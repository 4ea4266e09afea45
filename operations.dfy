/** The Telegram texts of format_messages/partner_operations.py (`generate_telegram_messages`):
    the messages of every document that has operations, then one summary message, and the
    totals dict. The number rendering `format_number` (`f"{x:,.2f}"` with spaces for commas),
    `str()` of an exchange rate and the date rendering `format_date` are the functions of a
    `Render` value. The labels are the source's own string literals, character for character. */
module PartnerOperations {
  import opened Wrappers
  import opened Text
  import opened Grouping

  /** The limit the packing works under: a message that would grow past it is sent and a new
      one started. A message still exceeds it when the header with one line, or with the
      footer, already does. */
  const MessageLimit: int := 2048

  // The labels of the messages, as the source spells them: the Russian words and emoji of the
  // source file read back in the wrong encoding, kept character for character.
  const DocumentLabel: string := "<b>\U{F8FF}üìÑ –î–æ–∫—É–º–µ–Ω—Ç: "
  const StockLabel: string := "<b>–°–∫–ª–∞–¥:</b> "
  const FirmLabel: string := "<b>–§–∏—Ä–º–∞:</b> "
  const DateLabel: string := "<b>–î–∞—Ç–∞:</b> "
  const CurrencyLabel: string := "<b>–í–∞–ª—é—Ç–∞:</b> "
  const RateLabel: string := " (–∫—É—Ä—Å: "
  const FooterRule: string := "<b>‚îÅ‚îÅ‚îÅ‚îÅ‚îÅ‚îÅ‚îÅ‚îÅ‚îÅ‚îÅ‚îÅ‚îÅ‚îÅ‚îÅ‚îÅ‚îÅ‚îÅ‚îÅ</b>\n"
  const DocTotalLabel: string := "<b>–ò—Ç–æ–≥–æ –ø–æ –¥–æ–∫—É–º–µ–Ω—Ç—É: "
  const SummaryTitle: string := "<b>\U{F8FF}üìä –û–ë–©–ò–ô –ò–¢–û–ì</b>\n\n"
  const DocumentsLabel: string := "<b>–î–æ–∫—É–º–µ–Ω—Ç–æ–≤:</b> "
  const OperationsLabel: string := "<b>–û–ø–µ—Ä–∞—Ü–∏–π:</b> "
  const SumLabel: string := "<b>–û–±—â–∞—è —Å—É–º–º–∞:</b> "

  /** The text of the ValueError raised for an unknown `cost_or_price`. */
  const BadField: string := "cost_or_price must be either 'cost' or 'price'"

  /** The `item` of an operation; `articul` may be missing. */
  datatype Item = Item(name: string, code: string, articul: Option<string>)

  /** One operation: the document it belongs to, the item, the quantity, and the `cost` and
      `price` keys, either of which may be missing. */
  datatype Operation = Operation(documentId: int, item: Item, quantity: real, cost: Option<real>, price: Option<real>)

  /** One document with the fields the header shows (`stock.name`, `stock.firm.name`,
      `currency.name`, `currency.exchange_rate`). */
  datatype Document = Document(
    id: int, code: string, stockName: string, firmName: string, date: int,
    currencyName: string, exchangeRate: real)

  /** The `data` dict; either key may be missing. */
  datatype Data = Data(documents: Option<seq<Document>>, operations: Option<seq<Operation>>)

  /** Which key of an operation holds the unit value. */
  datatype Field = Cost | Price

  /** `format_number`, `str()` of an exchange rate, and `format_date`. */
  datatype Render = Render(number: real -> string, rate: real -> string, stamp: int -> string)

  /** The dict `{"operations_count": ..., "total": ...}`. */
  datatype Totals = Totals(operationsCount: nat, total: real)

  /** The check of `cost_or_price`: only "cost" and "price" are accepted. */
  function FieldOf(name: string): (f: Option<Field>)
    ensures f.Some? <==> name == "cost" || name == "price"
    ensures f.Some? ==> (f.value == Cost <==> name == "cost")
  {
    if name == "cost" then Some(Cost) else if name == "price" then Some(Price) else None
  }

  /** `data.get("documents", [])` */
  function Documents(data: Data): seq<Document>
  {
    if data.documents.Some? then data.documents.value else []
  }

  /** `data.get("operations", [])` */
  function Operations(data: Data): seq<Operation>
  {
    if data.operations.Some? then data.operations.value else []
  }

  function DocumentId(op: Operation): int { op.documentId }

  /** `op.get(cost_or_price, 0.0)` */
  function UnitValue(op: Operation, field: Field): real
  {
    match field
    case Cost => if op.cost.Some? then op.cost.value else 0.0
    case Price => if op.price.Some? then op.price.value else 0.0
  }

  /** `quantity * unit_value` */
  function LineTotal(op: Operation, field: Field): real
  {
    op.quantity * UnitValue(op, field)
  }

  function LineTotalOf(field: Field): Operation -> real
  {
    op => LineTotal(op, field)
  }

  /** `doc_total`: the line totals of the document's operations added up. */
  function DocTotal(ops: seq<Operation>, field: Field): real
  {
    Sum(ops, LineTotalOf(field))
  }

  /** An operation without the chosen key counts as unit value 0, so it adds nothing to its
      document's total, whatever its quantity. */
  lemma {:induction false} MissingValueAddsNothing(ops: seq<Operation>, extra: Operation, field: Field)
    requires (field == Cost && extra.cost.None?) || (field == Price && extra.price.None?)
    ensures UnitValue(extra, field) == 0.0
    ensures DocTotal(ops + [extra], field) == DocTotal(ops, field)
  {
    assert (ops + [extra])[..|ops|] == ops;
    assert LineTotalOf(field)(extra) == extra.quantity * 0.0;
  }

  // ---------------------------------------------------------------- the texts

  /** The header every message of a document starts with; the rate appears only when it is
      not 1. */
  function Header(doc: Document, rd: Render): string
  {
    DocumentLabel + doc.code + "</b>\n"
    + StockLabel + doc.stockName + "\n"
    + FirmLabel + doc.firmName + "\n"
    + DateLabel + rd.stamp(doc.date) + "\n"
    + CurrencyLabel + doc.currencyName
    + (if doc.exchangeRate != 1.0 then RateLabel + rd.rate(doc.exchangeRate) + ")" else "")
    + "\n\n"
  }

  /** `name (code)`, or `name (code, art: articul)` when the articul is present and not empty. */
  function ItemHeader(item: Item): string
  {
    if item.articul.Some? && item.articul.value != "" then
      item.name + " (" + item.code + ", art: " + item.articul.value + ")"
    else
      item.name + " (" + item.code + ")"
  }

  /** The two lines of the `idx`-th operation of a document. */
  function OpLine(idx: nat, op: Operation, field: Field, rd: Render): string
  {
    "<b>" + NatToString(idx) + ". " + ItemHeader(op.item) + "</b>\n"
    + "   " + rd.number(op.quantity) + " x " + rd.number(UnitValue(op, field))
    + " = " + rd.number(LineTotal(op, field)) + "\n\n"
  }

  /** The separator and the document total after a document's operations. */
  function Footer(docTotal: real, rd: Render): string
  {
    FooterRule + DocTotalLabel + rd.number(docTotal) + "</b>\n\n"
  }

  /** The last message: the number of documents listed, of operations counted and the grand
      total. */
  function Summary(docCount: nat, opsCount: nat, grand: real, rd: Render): string
  {
    SummaryTitle + DocumentsLabel + NatToString(docCount) + "\n"
    + OperationsLabel + NatToString(opsCount) + "\n"
    + SumLabel + rd.number(grand) + "\n"
  }

  /** The operation lines of a document, numbered from 1 (`enumerate(doc_operations, 1)`). */
  function Pieces(ops: seq<Operation>, field: Field, rd: Render): (r: seq<string>)
    ensures |r| == |ops|
  {
    if ops == [] then []
    else Pieces(ops[..|ops| - 1], field, rd) + [OpLine(|ops|, ops[|ops| - 1], field, rd)]
  }

  /** The `i`-th line shows the operation `ops[i]` under the number `i + 1`. */
  lemma {:induction false} PiecesNumbered(ops: seq<Operation>, field: Field, rd: Render, i: int)
    requires 0 <= i < |ops|
    ensures Pieces(ops, field, rd)[i] == OpLine(i + 1, ops[i], field, rd)
  {
    var front := ops[..|ops| - 1];
    if i < |front| {
      PiecesNumbered(front, field, rd, i);
      assert front[i] == ops[i];
      assert Pieces(ops, field, rd)[i] == Pieces(front, field, rd)[i];
    }
  }

  // ---------------------------------------------------------------- packing

  /** The messages sent so far for a document and the message being filled. */
  datatype Pack = Pack(sent: seq<string>, current: string)

  /** One line or footer added under the packing rule: appended to the current message
      unless that would make it longer than 2048 characters, in which case the current
      message is sent right-stripped and a new one starts with the header and the piece. */
  function Push(p: Pack, header: string, piece: string): Pack
  {
    if |p.current + piece| > MessageLimit then Pack(p.sent + [RStrip(p.current)], header + piece)
    else Pack(p.sent, p.current + piece)
  }

  function PushAll(p: Pack, header: string, pieces: seq<string>): Pack
  {
    if pieces == [] then p
    else Push(PushAll(p, header, pieces[..|pieces| - 1]), header, pieces[|pieces| - 1])
  }

  lemma PushAllStep(p: Pack, header: string, pieces: seq<string>, piece: string)
    ensures PushAll(p, header, pieces + [piece]) == Push(PushAll(p, header, pieces), header, piece)
  {
    assert (pieces + [piece])[..|pieces|] == pieces;
  }

  /** Every message sent and the current one are within the limit. */
  predicate Fits(p: Pack)
  {
    |p.current| <= MessageLimit && forall i :: 0 <= i < |p.sent| ==> |p.sent[i]| <= MessageLimit
  }

  /** When the header plus any single piece fits, the packing never produces a message over
      the limit. */
  lemma {:induction false} PushAllFits(p: Pack, header: string, pieces: seq<string>)
    requires Fits(p)
    requires forall i :: 0 <= i < |pieces| ==> |header + pieces[i]| <= MessageLimit
    ensures Fits(PushAll(p, header, pieces))
  {
    if pieces != [] {
      var front := pieces[..|pieces| - 1];
      assert forall i :: 0 <= i < |front| ==> front[i] == pieces[i];
      PushAllFits(p, header, front);
    }
  }

  /** Messages already sent are never changed, and each piece sends at most one message. */
  lemma {:induction false} PushAllGrows(p: Pack, header: string, pieces: seq<string>)
    ensures var q := PushAll(p, header, pieces);
      |p.sent| <= |q.sent| <= |p.sent| + |pieces| && q.sent[..|p.sent|] == p.sent
  {
    if pieces != [] {
      PushAllGrows(p, header, pieces[..|pieces| - 1]);
    }
  }

  /** When everything fits, nothing is sent: the pieces are all appended to the current
      message. */
  lemma {:induction false} PushAllNoFlush(p: Pack, header: string, pieces: seq<string>)
    requires |p.current + Concat(pieces)| <= MessageLimit
    ensures PushAll(p, header, pieces) == Pack(p.sent, p.current + Concat(pieces))
  {
    if pieces != [] {
      var front, last := pieces[..|pieces| - 1], pieces[|pieces| - 1];
      AppendAssoc(p.current, Concat(front), last);
      PushAllNoFlush(p, header, front);
    }
  }

  // ---------------------------------------------------------------- one document

  /** The messages of a document whose header is `header`, under the packing rule: the
      operation lines, then the footer, then the last message right-stripped. */
  function Packed(header: string, pieces: seq<string>, footer: string): (r: seq<string>)
    ensures |r| >= 1
  {
    var p := Push(PushAll(Pack([], header), header, pieces), header, footer);
    p.sent + [RStrip(p.current)]
  }

  /** The messages of one document. */
  function DocMessages(doc: Document, ops: seq<Operation>, field: Field, rd: Render): (r: seq<string>)
    ensures |r| >= 1
  {
    Packed(Header(doc, rd), Pieces(ops, field, rd), Footer(DocTotal(ops, field), rd))
  }

  /** Each operation line and the footer fit in a message together with the header. */
  predicate PiecesFit(header: string, pieces: seq<string>, footer: string)
  {
    (forall i :: 0 <= i < |pieces| ==> |header + pieces[i]| <= MessageLimit)
    && |header + footer| <= MessageLimit
  }

  /** A document sends at most one message per line and footer, and none of its messages is
      longer than 2048 characters when every line and the footer fit beside the header. */
  lemma PackedFit(header: string, pieces: seq<string>, footer: string)
    ensures |Packed(header, pieces, footer)| <= |pieces| + 2
    ensures PiecesFit(header, pieces, footer) ==>
      forall i :: 0 <= i < |Packed(header, pieces, footer)| ==> |Packed(header, pieces, footer)[i]| <= MessageLimit
  {
    var p := PushAll(Pack([], header), header, pieces);
    PushAllGrows(Pack([], header), header, pieces);
    if PiecesFit(header, pieces, footer) {
      assert |header| <= |header + footer|;
      PushAllFits(Pack([], header), header, pieces);
      assert Fits(Push(p, header, footer));
    }
  }

  /** A document whose header, lines and footer fit together is exactly one message. */
  lemma PackedSingle(header: string, pieces: seq<string>, footer: string)
    requires |header + Concat(pieces) + footer| <= MessageLimit
    ensures Packed(header, pieces, footer) == [RStrip(header + Concat(pieces) + footer)]
  {
    PushAllNoFlush(Pack([], header), header, pieces);
  }

  lemma PiecesStep(ops: seq<Operation>, j: int, field: Field, rd: Render)
    requires 0 <= j < |ops|
    ensures Pieces(ops[..j + 1], field, rd) == Pieces(ops[..j], field, rd) + [OpLine(j + 1, ops[j], field, rd)]
  {
    assert ops[..j + 1][..j] == ops[..j];
  }

  /** The check `len(current_message + piece) > 2048` and what follows it. */
  method Add(sent: seq<string>, current: string, header: string, piece: string)
      returns (sent': seq<string>, current': string)
    ensures Pack(sent', current') == Push(Pack(sent, current), header, piece)
  {
    if |current + piece| > MessageLimit {
      sent' := sent + [RStrip(current)];
      current' := header + piece;
    } else {
      sent', current' := sent, current + piece;
    }
  }

  /** The two lines of one operation and its `total_value`, built as the source builds them. */
  method OperationLine(idx: nat, op: Operation, field: Field, rd: Render) returns (line: string, totalValue: real)
    ensures line == OpLine(idx, op, field, rd)
    ensures totalValue == LineTotal(op, field)
  {
    var quantity := op.quantity;
    var unitValue := UnitValue(op, field);
    totalValue := quantity * unitValue;
    var item := op.item;
    var itemHeader := item.name + " (" + item.code;
    if item.articul.Some? && item.articul.value != "" {
      itemHeader := itemHeader + ", art: " + item.articul.value;
    }
    itemHeader := itemHeader + ")";
    assert itemHeader == ItemHeader(item);
    line := "<b>" + NatToString(idx) + ". " + itemHeader + "</b>\n";
    line := line + "   " + rd.number(quantity) + " x " + rd.number(unitValue) + " = " + rd.number(totalValue) + "\n\n";
    assert totalValue == LineTotal(op, field);
  }

  lemma DocTotalStep(ops: seq<Operation>, j: int, field: Field)
    requires 0 <= j < |ops|
    ensures DocTotal(ops[..j + 1], field) == DocTotal(ops[..j], field) + LineTotal(ops[j], field)
  {
    assert ops[..j + 1][..j] == ops[..j];
  }

  /** `doc_footer`, built as the source builds it. */
  method DocFooter(docTotal: real, rd: Render) returns (footer: string)
    ensures footer == Footer(docTotal, rd)
  {
    footer := FooterRule;
    footer := footer + DocTotalLabel + rd.number(docTotal) + "</b>\n\n";
  }

  /** One pass of the loop over the operations: the `j`-th operation's line packed and its
      total added to `doc_total`. */
  method PackOperation(header: string, ops: seq<Operation>, j: int, field: Field, rd: Render,
                       sent: seq<string>, current: string, docTotal: real)
      returns (sent': seq<string>, current': string, docTotal': real)
    requires 0 <= j < |ops|
    requires Pack(sent, current) == PushAll(Pack([], header), header, Pieces(ops[..j], field, rd))
    requires docTotal == DocTotal(ops[..j], field)
    ensures Pack(sent', current') == PushAll(Pack([], header), header, Pieces(ops[..j + 1], field, rd))
    ensures docTotal' == DocTotal(ops[..j + 1], field)
  {
    var line, totalValue := OperationLine(j + 1, ops[j], field, rd);
    DocTotalStep(ops, j, field);
    docTotal' := docTotal + totalValue;
    PiecesStep(ops, j, field, rd);
    PushAllStep(Pack([], header), header, Pieces(ops[..j], field, rd), line);
    sent', current' := Add(sent, current, header, line);
  }

  /** The loop over the operations of one document whose header is `header`, then the
      footer: the document's messages and `doc_total`. */
  method PackDocument(header: string, ops: seq<Operation>, field: Field, rd: Render)
      returns (msgs: seq<string>, docTotal: real)
    ensures msgs == Packed(header, Pieces(ops, field, rd), Footer(DocTotal(ops, field), rd))
    ensures docTotal == DocTotal(ops, field)
  {
    var sent: seq<string> := [];
    var current := header;
    docTotal := 0.0;
    for j := 0 to |ops|
      invariant Pack(sent, current) == PushAll(Pack([], header), header, Pieces(ops[..j], field, rd))
      invariant docTotal == DocTotal(ops[..j], field)
    {
      sent, current, docTotal := PackOperation(header, ops, j, field, rd, sent, current, docTotal);
    }
    assert ops[..|ops|] == ops;
    var footer := DocFooter(docTotal, rd);
    sent, current := Add(sent, current, header, footer);
    msgs := sent + [RStrip(current)];
  }

  /** The messages of one document and its `doc_total`. */
  method DocumentMessages(doc: Document, ops: seq<Operation>, field: Field, rd: Render)
      returns (msgs: seq<string>, docTotal: real)
    ensures msgs == DocMessages(doc, ops, field, rd)
    ensures docTotal == DocTotal(ops, field)
  {
    var header := Header(doc, rd);
    msgs, docTotal := PackDocument(header, ops, field, rd);
  }

  // ---------------------------------------------------------------- all documents

  /** The `id`s of the documents, in order. */
  function Ids(docs: seq<Document>): (ids: seq<int>)
    ensures |ids| == |docs|
    ensures forall i :: 0 <= i < |docs| ==> ids[i] == docs[i].id
  {
    if docs == [] then [] else Ids(docs[..|docs| - 1]) + [docs[|docs| - 1].id]
  }

  /** The messages of the documents in order; a document without operations has none. */
  function DocsMessages(docs: seq<Document>, ops: seq<Operation>, field: Field, rd: Render): seq<string>
  {
    if docs == [] then []
    else
      var d := docs[|docs| - 1];
      var group := Members(ops, DocumentId, d.id);
      DocsMessages(docs[..|docs| - 1], ops, field, rd) + (if group == [] then [] else DocMessages(d, group, field, rd))
  }

  /** `total_operations`: the operations of every listed document, counted once per listing. */
  function OperationsCount(docs: seq<Document>, ops: seq<Operation>): nat
  {
    if docs == [] then 0
    else OperationsCount(docs[..|docs| - 1], ops) + |Members(ops, DocumentId, docs[|docs| - 1].id)|
  }

  /** `grand_total`: the totals of the listed documents added up. */
  function GrandTotal(docs: seq<Document>, ops: seq<Operation>, field: Field): real
  {
    SumOfGroups(ops, DocumentId, Ids(docs), LineTotalOf(field))
  }

  /** `generate_telegram_messages(data, cost_or_price)`: the ValueError, or the messages and
      the totals dict. */
  function Generate(data: Data, costOrPrice: string, rd: Render): (r: Result<(seq<string>, Totals), string>)
    ensures r.Err? <==> costOrPrice != "cost" && costOrPrice != "price"
    ensures r.Err? ==> r.error == BadField
  {
    match FieldOf(costOrPrice)
    case None => Err(BadField)
    case Some(field) =>
      var docs, ops := Documents(data), Operations(data);
      var count, grand := OperationsCount(docs, ops), GrandTotal(docs, ops, field);
      Ok((DocsMessages(docs, ops, field, rd) + [Summary(|docs|, count, grand, rd)], Totals(count, grand)))
  }

  /** A document without operations adds nothing. */
  lemma DocsStepSkipped(docs: seq<Document>, ops: seq<Operation>, i: int, field: Field, rd: Render)
    requires 0 <= i < |docs| && Members(ops, DocumentId, docs[i].id) == []
    ensures DocsMessages(docs[..i + 1], ops, field, rd) == DocsMessages(docs[..i], ops, field, rd)
    ensures OperationsCount(docs[..i + 1], ops) == OperationsCount(docs[..i], ops)
    ensures GrandTotal(docs[..i + 1], ops, field) == GrandTotal(docs[..i], ops, field)
  {
    assert docs[..i + 1][..i] == docs[..i];
    var ids := Ids(docs[..i]);
    assert Ids(docs[..i + 1]) == ids + [docs[i].id];
    assert (ids + [docs[i].id])[..|ids|] == ids;
    assert DocsMessages(docs[..i], ops, field, rd) + [] == DocsMessages(docs[..i], ops, field, rd);
  }

  /** A document with operations adds its messages, its operations and its total. */
  lemma DocsStepListed(docs: seq<Document>, ops: seq<Operation>, i: int, field: Field, rd: Render)
    requires 0 <= i < |docs| && Members(ops, DocumentId, docs[i].id) != []
    ensures var group := Members(ops, DocumentId, docs[i].id);
      && DocsMessages(docs[..i + 1], ops, field, rd) == DocsMessages(docs[..i], ops, field, rd) + DocMessages(docs[i], group, field, rd)
      && OperationsCount(docs[..i + 1], ops) == OperationsCount(docs[..i], ops) + |group|
      && GrandTotal(docs[..i + 1], ops, field) == GrandTotal(docs[..i], ops, field) + DocTotal(group, field)
  {
    assert docs[..i + 1][..i] == docs[..i];
    var ids := Ids(docs[..i]);
    assert Ids(docs[..i + 1]) == ids + [docs[i].id];
    assert (ids + [docs[i].id])[..|ids|] == ids;
  }

  /** One pass of the loop over the documents once `ops_by_doc.get(doc_id, [])` is known:
      nothing for a document without operations, otherwise its messages, its operations counted and its
      total added. */
  method ProcessDocument(documents: seq<Document>, operations: seq<Operation>, i: int, field: Field, rd: Render,
                         docOperations: seq<Operation>, messages: seq<string>, totalOperations: nat, grandTotal: real)
      returns (messages': seq<string>, totalOperations': nat, grandTotal': real)
    requires 0 <= i < |documents|
    requires docOperations == Members(operations, DocumentId, documents[i].id)
    requires messages == DocsMessages(documents[..i], operations, field, rd)
    requires totalOperations == OperationsCount(documents[..i], operations)
    requires grandTotal == GrandTotal(documents[..i], operations, field)
    ensures messages' == DocsMessages(documents[..i + 1], operations, field, rd)
    ensures totalOperations' == OperationsCount(documents[..i + 1], operations)
    ensures grandTotal' == GrandTotal(documents[..i + 1], operations, field)
  {
    if docOperations == [] {
      DocsStepSkipped(documents, operations, i, field, rd);
      return messages, totalOperations, grandTotal;
    }
    DocsStepListed(documents, operations, i, field, rd);
    var docMessages, docTotal := DocumentMessages(documents[i], docOperations, field, rd);
    messages' := messages + docMessages;
    totalOperations' := totalOperations + |docOperations|;
    grandTotal' := grandTotal + docTotal;
  }

  /** The loop over the documents: their messages, `total_operations` and `grand_total`,
      with the operations grouped by `document_id` first. */
  method DocumentsLoop(documents: seq<Document>, operations: seq<Operation>, field: Field, rd: Render)
      returns (messages: seq<string>, totalOperations: nat, grandTotal: real)
    ensures messages == DocsMessages(documents, operations, field, rd)
    ensures totalOperations == OperationsCount(documents, operations)
    ensures grandTotal == GrandTotal(documents, operations, field)
  {
    messages, totalOperations, grandTotal := [], 0, 0.0;
    var keys, opsByDoc := GroupBy(operations, DocumentId);
    for i := 0 to |documents|
      invariant messages == DocsMessages(documents[..i], operations, field, rd)
      invariant totalOperations == OperationsCount(documents[..i], operations)
      invariant grandTotal == GrandTotal(documents[..i], operations, field)
    {
      var docOperations := GroupOf(operations, DocumentId, keys, opsByDoc, documents[i].id);
      messages, totalOperations, grandTotal :=
        ProcessDocument(documents, operations, i, field, rd, docOperations, messages, totalOperations, grandTotal);
    }
    assert documents[..|documents|] == documents;
  }

  /** `summary`, built as the source builds it. */
  method SummaryMessage(docCount: nat, opsCount: nat, grand: real, rd: Render) returns (summary: string)
    ensures summary == Summary(docCount, opsCount, grand, rd)
  {
    summary := SummaryTitle;
    summary := summary + DocumentsLabel + NatToString(docCount) + "\n";
    summary := summary + OperationsLabel + NatToString(opsCount) + "\n";
    summary := summary + SumLabel + rd.number(grand) + "\n";
  }

  /** `generate_telegram_messages`: the check of `cost_or_price` before anything else, the
      loop over the documents, and the summary. */
  method GenerateTelegramMessages(data: Data, costOrPrice: string, rd: Render)
      returns (r: Result<(seq<string>, Totals), string>)
    ensures r == Generate(data, costOrPrice, rd)
  {
    if costOrPrice != "cost" && costOrPrice != "price" {
      return Err(BadField);
    }
    var field := if costOrPrice == "cost" then Cost else Price;
    var documents := Documents(data);
    var operations := Operations(data);
    var messages, totalOperations, grandTotal := DocumentsLoop(documents, operations, field, rd);
    var summary := SummaryMessage(|documents|, totalOperations, grandTotal, rd);
    messages := messages + [summary];
    r := Ok((messages, Totals(totalOperations, grandTotal)));
  }

  // ---------------------------------------------------------------- properties of the report

  /** The number of listed documents that have operations. */
  function WithOperations(docs: seq<Document>, ops: seq<Operation>): nat
  {
    if docs == [] then 0
    else WithOperations(docs[..|docs| - 1], ops) + (if Members(ops, DocumentId, docs[|docs| - 1].id) == [] then 0 else 1)
  }

  /** The messages of `d` stay within the limit: each line and the footer fit beside its
      header. */
  predicate DocumentFits(d: Document, ops: seq<Operation>, field: Field, rd: Render)
  {
    var group := Members(ops, DocumentId, d.id);
    PiecesFit(Header(d, rd), Pieces(group, field, rd), Footer(DocTotal(group, field), rd))
  }

  /** `d` is a single message: its header, lines and footer fit together. */
  predicate DocumentShort(d: Document, ops: seq<Operation>, field: Field, rd: Render)
  {
    var group := Members(ops, DocumentId, d.id);
    |Header(d, rd) + Concat(Pieces(group, field, rd)) + Footer(DocTotal(group, field), rd)| <= MessageLimit
  }

  /** Every document with operations sends at least one message, exactly one when it is
      short, and none of the messages is over the limit when the lines of each document fit
      beside its header. */
  lemma DocsMessagesShape(docs: seq<Document>, ops: seq<Operation>, field: Field, rd: Render)
    ensures |DocsMessages(docs, ops, field, rd)| >= WithOperations(docs, ops)
    ensures (forall i :: 0 <= i < |docs| ==> DocumentShort(docs[i], ops, field, rd)) ==>
      |DocsMessages(docs, ops, field, rd)| == WithOperations(docs, ops)
    ensures (forall i :: 0 <= i < |docs| ==> DocumentFits(docs[i], ops, field, rd)) ==>
      forall m :: m in DocsMessages(docs, ops, field, rd) ==> |m| <= MessageLimit
  {
    DocsMessagesCount(docs, ops, field, rd);
    if forall i :: 0 <= i < |docs| ==> DocumentFits(docs[i], ops, field, rd) {
      DocsMessagesFit(docs, ops, field, rd);
    }
  }

  /** The messages of the documents are those of the documents before the last, then those
      of the last when it has operations. */
  lemma DocsMessagesLast(docs: seq<Document>, ops: seq<Operation>, field: Field, rd: Render)
    requires docs != []
    ensures var d := docs[|docs| - 1];
      var group := Members(ops, DocumentId, d.id);
      DocsMessages(docs, ops, field, rd)
      == DocsMessages(docs[..|docs| - 1], ops, field, rd) + (if group == [] then [] else DocMessages(d, group, field, rd))
  {
  }

  /** One document with operations: at least one message, exactly one when it is short, and
      none over the limit when its lines fit. */
  lemma DocShape(d: Document, ops: seq<Operation>, field: Field, rd: Render)
    requires Members(ops, DocumentId, d.id) != []
    ensures var m := DocMessages(d, Members(ops, DocumentId, d.id), field, rd);
      |m| >= 1
      && (DocumentShort(d, ops, field, rd) ==> |m| == 1)
      && (DocumentFits(d, ops, field, rd) ==> forall i :: 0 <= i < |m| ==> |m[i]| <= MessageLimit)
  {
    var group := Members(ops, DocumentId, d.id);
    var header, pieces, footer := Header(d, rd), Pieces(group, field, rd), Footer(DocTotal(group, field), rd);
    PackedFit(header, pieces, footer);
    if DocumentShort(d, ops, field, rd) {
      PackedSingle(header, pieces, footer);
    }
  }

  lemma {:induction false} DocsMessagesCount(docs: seq<Document>, ops: seq<Operation>, field: Field, rd: Render)
    ensures |DocsMessages(docs, ops, field, rd)| >= WithOperations(docs, ops)
    ensures (forall i :: 0 <= i < |docs| ==> DocumentShort(docs[i], ops, field, rd)) ==>
      |DocsMessages(docs, ops, field, rd)| == WithOperations(docs, ops)
  {
    if docs != [] {
      var front, d := docs[..|docs| - 1], docs[|docs| - 1];
      DocsMessagesCount(front, ops, field, rd);
      DocsMessagesLast(docs, ops, field, rd);
      assert forall i :: 0 <= i < |front| ==> front[i] == docs[i];
      if Members(ops, DocumentId, d.id) != [] {
        DocShape(d, ops, field, rd);
      }
    }
  }

  lemma {:induction false} DocsMessagesFit(docs: seq<Document>, ops: seq<Operation>, field: Field, rd: Render)
    requires forall i :: 0 <= i < |docs| ==> DocumentFits(docs[i], ops, field, rd)
    ensures forall m :: m in DocsMessages(docs, ops, field, rd) ==> |m| <= MessageLimit
  {
    if docs != [] {
      var front, d := docs[..|docs| - 1], docs[|docs| - 1];
      assert forall i :: 0 <= i < |front| ==> front[i] == docs[i];
      DocsMessagesFit(front, ops, field, rd);
      DocsMessagesLast(docs, ops, field, rd);
      if Members(ops, DocumentId, d.id) != [] {
        DocShape(d, ops, field, rd);
      }
    }
  }

  /** Documents whose id no operation carries send nothing, count nothing and add nothing. */
  lemma {:induction false} UnmatchedDocumentsSilent(docs: seq<Document>, ops: seq<Operation>, field: Field, rd: Render)
    requires forall i :: 0 <= i < |docs| ==> docs[i].id !in Keys(ops, DocumentId)
    ensures DocsMessages(docs, ops, field, rd) == []
    ensures OperationsCount(docs, ops) == 0
    ensures GrandTotal(docs, ops, field) == 0.0
  {
    if docs != [] {
      var front, d := docs[..|docs| - 1], docs[|docs| - 1];
      assert forall i :: 0 <= i < |front| ==> front[i] == docs[i];
      UnmatchedDocumentsSilent(front, ops, field, rd);
      MembersNonEmpty(ops, DocumentId, d.id);
      assert Ids(docs)[..|front|] == Ids(front);
    }
  }

  /** When no operation belongs to a listed document the only message is the summary, which
      still counts every listed document. */
  lemma OnlySummary(data: Data, costOrPrice: string, rd: Render)
    requires costOrPrice == "cost" || costOrPrice == "price"
    requires forall i :: 0 <= i < |Documents(data)| ==> Documents(data)[i].id !in Keys(Operations(data), DocumentId)
    ensures Generate(data, costOrPrice, rd) == Ok(([Summary(|Documents(data)|, 0, 0.0, rd)], Totals(0, 0.0)))
  {
    var field := if costOrPrice == "cost" then Cost else Price;
    var docs, ops := Documents(data), Operations(data);
    assert FieldOf(costOrPrice) == Some(field);
    UnmatchedDocumentsSilent(docs, ops, field, rd);
    assert DocsMessages(docs, ops, field, rd) + [Summary(|docs|, 0, 0.0, rd)] == [Summary(|docs|, 0, 0.0, rd)];
  }

  /** The summary is always the last message, after at least one message per document with
      operations, and it shows the totals the function returns. */
  lemma SummaryLast(data: Data, costOrPrice: string, rd: Render)
    requires Generate(data, costOrPrice, rd).Ok?
    ensures var (msgs, totals) := Generate(data, costOrPrice, rd).value;
      |msgs| >= WithOperations(Documents(data), Operations(data)) + 1
      && msgs[|msgs| - 1] == Summary(|Documents(data)|, totals.operationsCount, totals.total, rd)
  {
    var field := if costOrPrice == "cost" then Cost else Price;
    DocsMessagesShape(Documents(data), Operations(data), field, rd);
  }

  function One(op: Operation): real { 1.0 }

  lemma {:induction false} SumOfOnes(s: seq<Operation>)
    ensures Sum(s, One) == |s| as real
  {
    if s != [] {
      SumOfOnes(s[..|s| - 1]);
    }
  }

  lemma {:induction false} CountAsSum(docs: seq<Document>, ops: seq<Operation>)
    ensures OperationsCount(docs, ops) as real == SumOfGroups(ops, DocumentId, Ids(docs), One)
  {
    if docs != [] {
      var front := docs[..|docs| - 1];
      CountAsSum(front, ops);
      assert Ids(docs)[..|front|] == Ids(front);
      SumOfOnes(Members(ops, DocumentId, docs[|docs| - 1].id));
    }
  }

  /** With no document listed twice, `operations_count` is the number of operations whose
      `document_id` is a listed document's id and `total` adds up exactly their line totals:
      operations of unknown documents are ignored. */
  lemma ListedOperations(docs: seq<Document>, ops: seq<Operation>, field: Field)
    requires forall i, j :: 0 <= i < j < |docs| ==> docs[i].id != docs[j].id
    ensures OperationsCount(docs, ops) == |Filter(ops, DocumentId, Ids(docs))|
    ensures GrandTotal(docs, ops, field) == DocTotal(Filter(ops, DocumentId, Ids(docs)), field)
  {
    var ids := Ids(docs);
    CountAsSum(docs, ops);
    SumOfGroupsFilter(ops, DocumentId, ids, One);
    SumOfOnes(Filter(ops, DocumentId, ids));
    SumOfGroupsFilter(ops, DocumentId, ids, LineTotalOf(field));
  }
}
