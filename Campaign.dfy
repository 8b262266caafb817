/**
 * The campaign batch runner of send_campaign.py: column check, one
 * templated message per row that has a phone number, the three-level cost
 * fallback, one report row per message sent, and the run totals.
 *
 * The CSV file is given as its header and its rows, the report file as the
 * value returned, the price file as a `PriceFile` value, and the HTTP POST
 * to the provider as the `Gateway` oracle.
 */
module Campaign {
  import opened Wrappers
  import opened Text
  import opened Seqs
  import opened Placeholder

  /** REQUIRED_COLUMNS. */
  const RequiredColumns: seq<string> := ["full.name.adherent", "Num tele", "D.Consultation", "Frais,Engagés", "Observation"]

  /** The header row of the report. */
  const ReportHeader: seq<string> := [
    "numero", "nom_adherent", "date_consultation", "frais", "observation", "status_code_http",
    "api_status", "message_id", "cout_usd", "timestamp_envoi", "error_text"]

  /** `a` can be obtained from `b` by deleting elements: it keeps `b`'s order. */
  predicate IsSubsequence(a: seq<string>, b: seq<string>)
    decreases |b|
  {
    a == [] || (b != [] && ((a[0] == b[0] && IsSubsequence(a[1..], b[1..])) || IsSubsequence(a, b[1..])))
  }

  /**
   * `[c for c in required if c not in cols]`: exactly the required columns
   * missing from the header, in the order of `required`.
   */
  function MissingColumns(required: seq<string>, header: seq<string>): (missing: seq<string>)
    ensures forall c :: c in missing <==> c in required && c !in header
    ensures IsSubsequence(missing, required)
  {
    if required == [] then []
    else
      var rest := MissingColumns(required[1..], header);
      assert forall c :: c in required <==> c == required[0] || c in required[1..];
      if required[0] !in header then
        assert ([required[0]] + rest)[1..] == rest;
        [required[0]] + rest
      else rest
  }

  /** One CSV row, by column name (a short row lacks the trailing columns). */
  type Row = map<string, string>

  /**
   * `(row.get(column) or "").strip()`: "" for a missing column; otherwise the
   * cell without its surrounding whitespace.
   */
  function Field(row: Row, column: string): (r: string)
    ensures column !in row ==> r == ""
    ensures r != [] ==> column in row && !IsSpace(r[0]) && !IsSpace(r[|r| - 1])
  {
    Strip(if column in row then row[column] else "")
  }

  /**
   * A present cell loses only whitespace, and only at its ends: the value
   * read is the slice of the cell after its leading whitespace, whatever
   * follows that slice is whitespace, and the cell's words are kept.
   */
  lemma FieldOfCell(row: Row, column: string)
    requires column in row
    ensures var cell, r := row[column], Field(row, column);
      && LeadingSpaces(cell) + |r| <= |cell|
      && r == cell[LeadingSpaces(cell)..LeadingSpaces(cell) + |r|]
      && (forall i :: 0 <= i < LeadingSpaces(cell) ==> IsSpace(cell[i]))
      && (forall i :: LeadingSpaces(cell) + |r| <= i < |cell| ==> IsSpace(cell[i]))
      && Words(r) == Words(cell)
  {
    StripKeeps(row[column], Field(row, column));
  }

  /** A `pricePerMessage` value: absent (or null), a number, or something `float()` rejects. */
  datatype PriceField = Absent | Number(value: real) | NotANumber

  /** The price file written by the delivery-report webhook, as the runner finds it. */
  datatype PriceFile = NoFile | Unreadable | PriceJson(pricePerMessage: PriceField)

  /**
   * `get_current_price_from_webhook_file`: the recorded price, or 0.0 when the
   * file is missing or unreadable or holds no usable price.
   */
  function WebhookPrice(f: PriceFile): (p: real)
    ensures p != 0.0 ==> f.PriceJson? && f.pricePerMessage.Number? && p == f.pricePerMessage.value
    ensures f.PriceJson? && f.pricePerMessage.Number? ==> p == f.pricePerMessage.value
  {
    match f
    case PriceJson(Number(v)) => v
    case _ => 0.0
  }

  /**
   * The parts of the provider's answer the runner reads: the HTTP status, the
   * first message's price and id ("" when absent or when the body is not
   * JSON), and the raw text.
   */
  datatype Response = Response(status: int, price: PriceField, messageId: string, text: string)

  /** What the POST gives: a transport failure (an exception nobody catches) or a response. */
  datatype SendReply = Unreachable | Answered(response: Response)

  datatype ApiStatus = OK | ERROR

  /** The five values `send_template_message` returns. */
  datatype SendOutcome = SendOutcome(statusCode: int, apiStatus: ApiStatus, messageId: string, cost: real, errorText: string)

  /**
   * The outcome of one send. The status is OK exactly for 2xx. A non-zero
   * price in the response is the cost; a zero or absent one falls back to the
   * webhook price when that is positive, else to `defaultPrice` when that is
   * positive, else stays 0.0 — whatever the status. The error text is the
   * response text for a non-OK status only. When the price cannot be read as
   * a number the message id is lost as well.
   */
  function ReplyOutcome(resp: Response, priceFile: PriceFile, defaultPrice: real): (o: SendOutcome)
    ensures o.statusCode == resp.status
    ensures o.apiStatus == OK <==> 200 <= resp.status < 300
    ensures o.errorText == (if o.apiStatus == OK then "" else resp.text)
    ensures o.messageId == (if resp.price.NotANumber? then "" else resp.messageId)
    ensures resp.price.Number? && resp.price.value != 0.0 ==> o.cost == resp.price.value
    ensures !(resp.price.Number? && resp.price.value != 0.0) ==>
      o.cost == (if WebhookPrice(priceFile) > 0.0 then WebhookPrice(priceFile)
                 else if defaultPrice > 0.0 then defaultPrice
                 else 0.0)
    ensures o.cost == 0.0 ==> WebhookPrice(priceFile) <= 0.0 && defaultPrice <= 0.0
  {
    var apiStatus := if 200 <= resp.status < 300 then OK else ERROR;
    var given := if resp.price.Number? then resp.price.value else 0.0;
    var cost :=
      if given != 0.0 then given
      else if WebhookPrice(priceFile) > 0.0 then WebhookPrice(priceFile)
      else if defaultPrice > 0.0 then defaultPrice
      else 0.0;
    SendOutcome(
      resp.status, apiStatus,
      if resp.price.NotANumber? then "" else resp.messageId,
      cost,
      if apiStatus == OK then "" else resp.text)
  }

  /** The response handling of `send_template_message`, reassigning the cost step by step. */
  method InterpretReply(resp: Response, priceFile: PriceFile, defaultPrice: real) returns (o: SendOutcome)
    ensures o == ReplyOutcome(resp, priceFile, defaultPrice)
  {
    var apiStatus := if 200 <= resp.status < 300 then OK else ERROR;
    var messageId := "";
    var cost := 0.0;
    var errorText := "";
    match resp.price {
      case Number(v) =>
        cost := v;
        messageId := resp.messageId;
      case Absent =>
        messageId := resp.messageId;
      case NotANumber =>
    }
    if cost == 0.0 {
      var autoPrice := WebhookPrice(priceFile);
      if autoPrice > 0.0 {
        cost := autoPrice;
      } else if defaultPrice > 0.0 {
        cost := defaultPrice;
      }
    }
    if apiStatus != OK {
      errorText := resp.text;
    }
    o := SendOutcome(resp.status, apiStatus, messageId, cost, errorText);
  }

  /** The body of one templated message: the recipient and the four placeholders. */
  datatype TemplateRequest = TemplateRequest(to: string, placeholders: seq<string>)

  /** The provider's send endpoint: the n-th request receives `replies(n)`. */
  class Gateway {
    const replies: nat -> SendReply
    var sent: seq<TemplateRequest>

    constructor (replies: nat -> SendReply)
      ensures this.replies == replies && sent == []
    {
      this.replies := replies;
      sent := [];
    }

    /** `requests.post` of one templated message. */
    method Post(request: TemplateRequest) returns (reply: SendReply)
      modifies this
      ensures sent == old(sent) + [request]
      ensures reply == replies(|old(sent)|)
    {
      reply := replies(|sent|);
      sent := sent + [request];
    }
  }

  /** The request `send_template_message` builds: the four values are sanitised, the number is not. */
  function TemplateFor(to: string, nom: string, date: string, frais: string, observation: string)
    : (t: TemplateRequest)
    ensures t.to == to && |t.placeholders| == 4
  {
    TemplateRequest(to, [CleanPlaceholder(nom), CleanPlaceholder(date), CleanPlaceholder(frais), CleanPlaceholder(observation)])
  }

  /**
   * The number goes out as given; each of the four placeholders is its value
   * sanitised: on one line, without whitespace runs, trimmed, and with the
   * value's visible characters in order.
   */
  lemma TemplateForSanitised(to: string, nom: string, date: string, frais: string, observation: string)
    ensures var t := TemplateFor(to, nom, date, frais, observation);
      && t.to == to && |t.placeholders| == 4
      && Sanitised(t.placeholders[0], nom) && Sanitised(t.placeholders[1], date)
      && Sanitised(t.placeholders[2], frais) && Sanitised(t.placeholders[3], observation)
  {
  }

  /**
   * `send_template_message`: exactly one request with the sanitised
   * placeholders; no outcome when the POST itself fails.
   */
  method SendTemplateMessage(
    gateway: Gateway, to: string, nom: string, date: string, frais: string, observation: string,
    priceFile: PriceFile, defaultPrice: real)
    returns (r: Option<SendOutcome>)
    modifies gateway
    ensures gateway.sent == old(gateway.sent) + [TemplateFor(to, nom, date, frais, observation)]
    ensures r == SendResult(gateway.replies(|old(gateway.sent)|), priceFile, defaultPrice)
  {
    var reply := gateway.Post(TemplateFor(to, nom, date, frais, observation));
    match reply {
      case Unreachable =>
        r := None;
      case Answered(resp) =>
        var o := InterpretReply(resp, priceFile, defaultPrice);
        r := Some(o);
    }
  }

  /** What one send yields for a reply: nothing when the POST failed, else the interpreted response. */
  function SendResult(reply: SendReply, priceFile: PriceFile, defaultPrice: real): Option<SendOutcome>
  {
    match reply
    case Unreachable => None
    case Answered(resp) => Some(ReplyOutcome(resp, priceFile, defaultPrice))
  }

  /** The five stripped values of a CSV row that the runner reads. */
  datatype RowData = RowData(numero: string, nom: string, date: string, frais: string, observation: string)

  /** One data row of the report: the row's values and the outcome of its send. */
  datatype ReportRow = ReportRow(data: RowData, outcome: SendOutcome)

  datatype Report = Report(header: seq<string>, rows: seq<ReportRow>)

  datatype Summary = Summary(totalWithNumber: nat, totalOk: nat, totalError: nat, totalCost: real)

  datatype CampaignError = MissingApiKey | CsvNotFound | MissingColumnsError(missing: seq<string>) | SendAborted

  /** The CSV file: its header (`fieldnames`, [] for an empty file) and its rows. */
  datatype CsvSource = CsvSource(header: seq<string>, rows: seq<Row>)

  /**
   * What a run has done so far: the report rows it wrote, the rows it sent a
   * message for, and whether a failed POST cut it short.
   */
  datatype Trace = Trace(rows: seq<ReportRow>, sentFor: seq<RowData>, aborted: bool)

  /** The values of `row`, each read as `(row.get(column) or "").strip()`. */
  function DataOf(row: Row): (d: RowData)
    ensures "Num tele" !in row ==> d.numero == ""
    ensures d.numero != [] ==> !IsSpace(d.numero[0]) && !IsSpace(d.numero[|d.numero| - 1])
  {
    RowData(Field(row, "Num tele"), Field(row, "full.name.adherent"), Field(row, "D.Consultation"),
            Field(row, "Frais,Engagés"), Field(row, "Observation"))
  }

  /**
   * A row has no number, and is skipped, exactly when its "Num tele" column
   * is missing or holds only whitespace.
   */
  lemma DataOfNumber(row: Row)
    ensures DataOf(row).numero == "" <==>
      "Num tele" !in row || forall i :: 0 <= i < |row["Num tele"]| ==> IsSpace(row["Num tele"][i])
  {
    if "Num tele" in row {
      StripEmpty(row["Num tele"]);
    }
  }

  /** The request made for a row. */
  function RowRequest(d: RowData): TemplateRequest
  {
    TemplateFor(d.numero, d.nom, d.date, d.frais, d.observation)
  }

  /** The values of every row, in order. */
  function ReadRows(rows: seq<Row>): (data: seq<RowData>)
    ensures |data| == |rows|
    ensures forall i :: 0 <= i < |rows| ==> data[i] == DataOf(rows[i])
  {
    seq(|rows|, i requires 0 <= i < |rows| => DataOf(rows[i]))
  }

  /**
   * One pass of the loop of `run_campaign`, on the values `d` of the next
   * row, after `t`, when `k` requests were made before the run: once a POST
   * has failed nothing more happens; a row without a number is skipped; any
   * other row is sent, and reported if the POST gets an answer.
   */
  function Step(t: Trace, d: RowData, k: nat, replies: nat -> SendReply, priceFile: PriceFile, defaultPrice: real)
    : (t': Trace)
    ensures t.aborted || d.numero == "" ==> t' == t
    ensures |t.rows| <= |t'.rows| <= |t.rows| + 1 && t'.rows[..|t.rows|] == t.rows
  {
    if t.aborted || d.numero == "" then t
    else
      var o := SendResult(replies(k + |t.sentFor|), priceFile, defaultPrice);
      if o.None? then Trace(t.rows, t.sentFor + [d], true)
      else Trace(t.rows + [ReportRow(d, o.value)], t.sentFor + [d], false)
  }

  /** The loop of `run_campaign` over the values of the rows, when `k` requests were made before it. */
  function Run(data: seq<RowData>, k: nat, replies: nat -> SendReply, priceFile: PriceFile, defaultPrice: real)
    : Trace
  {
    if data == [] then Trace([], [], false)
    else Step(Run(data[..|data| - 1], k, replies, priceFile, defaultPrice), data[|data| - 1], k, replies, priceFile, defaultPrice)
  }

  /** The values of the rows that have a phone number, in source order. */
  function Numbered(data: seq<RowData>): (n: seq<RowData>)
    ensures |n| <= |data|
    ensures forall i :: 0 <= i < |n| ==> n[i].numero != ""
  {
    if data == [] then []
    else Numbered(data[..|data| - 1]) + (if data[|data| - 1].numero == "" then [] else [data[|data| - 1]])
  }

  /** The rows kept are exactly the rows that have a number. */
  lemma {:induction false} NumberedMembers(data: seq<RowData>)
    ensures forall d :: d in Numbered(data) <==> d in data && d.numero != ""
  {
    if data != [] {
      var p, last := data[..|data| - 1], data[|data| - 1];
      NumberedMembers(p);
      assert data == p + [last];
    }
  }

  /** The requests for `data`, one each, in order. */
  function Requests(data: seq<RowData>): (r: seq<TemplateRequest>)
    ensures |r| == |data|
  {
    if data == [] then [] else Requests(data[..|data| - 1]) + [RowRequest(data[|data| - 1])]
  }

  /** The row values of report rows, in order. */
  function DataColumn(rows: seq<ReportRow>): (r: seq<RowData>)
    ensures |r| == |rows|
  {
    if rows == [] then [] else DataColumn(rows[..|rows| - 1]) + [rows[|rows| - 1].data]
  }

  /** How many report rows have status OK. */
  function CountOk(rows: seq<ReportRow>): nat
  {
    if rows == [] then 0
    else CountOk(rows[..|rows| - 1]) + (if rows[|rows| - 1].outcome.apiStatus == OK then 1 else 0)
  }

  /** How many report rows have status ERROR. */
  function CountError(rows: seq<ReportRow>): nat
  {
    if rows == [] then 0
    else CountError(rows[..|rows| - 1]) + (if rows[|rows| - 1].outcome.apiStatus == ERROR then 1 else 0)
  }

  /** The sum of the costs of the OK report rows. */
  function OkCost(rows: seq<ReportRow>): real
  {
    if rows == [] then 0.0
    else OkCost(rows[..|rows| - 1]) + (if rows[|rows| - 1].outcome.apiStatus == OK then rows[|rows| - 1].outcome.cost else 0.0)
  }

  lemma RequestsAppend(data: seq<RowData>, d: RowData)
    ensures Requests(data + [d]) == Requests(data) + [RowRequest(d)]
  {
    assert (data + [d])[..|data|] == data;
  }

  lemma DataColumnAppend(rows: seq<ReportRow>, line: ReportRow)
    ensures DataColumn(rows + [line]) == DataColumn(rows) + [line.data]
  {
    assert (rows + [line])[..|rows|] == rows;
  }

  /** The totals after one more report row. */
  lemma TotalsStep(rows: seq<ReportRow>, line: ReportRow)
    ensures CountOk(rows + [line]) == CountOk(rows) + (if line.outcome.apiStatus == OK then 1 else 0)
    ensures CountError(rows + [line]) == CountError(rows) + (if line.outcome.apiStatus == ERROR then 1 else 0)
    ensures OkCost(rows + [line]) == OkCost(rows) + (if line.outcome.apiStatus == OK then line.outcome.cost else 0.0)
  {
    assert (rows + [line])[..|rows|] == rows;
  }

  /** The run over one more row is one more pass of the loop. */
  lemma RunSnoc(data: seq<RowData>, i: nat, k: nat, replies: nat -> SendReply, priceFile: PriceFile, defaultPrice: real)
    requires i < |data|
    ensures Run(data[..i + 1], k, replies, priceFile, defaultPrice)
         == Step(Run(data[..i], k, replies, priceFile, defaultPrice), data[i], k, replies, priceFile, defaultPrice)
  {
    assert data[..i + 1][..i] == data[..i];
  }

  /** A pass over a numbered row of a run that has not aborted: the send's outcome decides the new trace. */
  lemma SentStep(t: Trace, d: RowData, k: nat, replies: nat -> SendReply, priceFile: PriceFile, defaultPrice: real, n: nat, outcome: Option<SendOutcome>)
    requires !t.aborted && d.numero != "" && n == k + |t.sentFor|
    requires outcome == SendResult(replies(n), priceFile, defaultPrice)
    ensures Step(t, d, k, replies, priceFile, defaultPrice)
         == if outcome.None? then Trace(t.rows, t.sentFor + [d], true)
            else Trace(t.rows + [ReportRow(d, outcome.value)], t.sentFor + [d], false)
  {
  }

  /** Once a POST has failed, the rest of the rows change nothing. */
  lemma {:induction false} AbortedStays(data: seq<RowData>, j: nat, k: nat, replies: nat -> SendReply, priceFile: PriceFile, defaultPrice: real)
    requires j <= |data| && Run(data[..j], k, replies, priceFile, defaultPrice).aborted
    ensures Run(data, k, replies, priceFile, defaultPrice) == Run(data[..j], k, replies, priceFile, defaultPrice)
    decreases |data| - j
  {
    if j < |data| {
      RunSnoc(data, j, k, replies, priceFile, defaultPrice);
      AbortedStays(data, j + 1, k, replies, priceFile, defaultPrice);
    } else {
      assert data[..j] == data;
    }
  }

  /** Every report row is counted once, as OK or as ERROR; with no OK row the total cost is 0.0. */
  lemma {:induction false} CountsPartition(rows: seq<ReportRow>)
    ensures CountOk(rows) + CountError(rows) == |rows|
    ensures CountOk(rows) == 0 ==> OkCost(rows) == 0.0
  {
    if rows != [] {
      CountsPartition(rows[..|rows| - 1]);
    }
  }

  /**
   * A run sends to the numbered rows in source order and reports the rows it
   * sent to in that order. A run that did not abort sent to every numbered
   * row and reported each of them; an aborted run sent to a prefix of them
   * and reported all but the last, whose POST failed.
   */
  lemma {:induction false} RunFollowsSource(data: seq<RowData>, k: nat, replies: nat -> SendReply, priceFile: PriceFile, defaultPrice: real)
    ensures var t := Run(data, k, replies, priceFile, defaultPrice);
      && (!t.aborted ==> DataColumn(t.rows) == t.sentFor == Numbered(data))
      && (t.aborted ==> t.sentFor != [] && DataColumn(t.rows) == t.sentFor[..|t.sentFor| - 1] && t.sentFor <= Numbered(data))
  {
    if data != [] {
      var p, d := data[..|data| - 1], data[|data| - 1];
      RunFollowsSource(p, k, replies, priceFile, defaultPrice);
      var before := Run(p, k, replies, priceFile, defaultPrice);
      var t := Run(data, k, replies, priceFile, defaultPrice);
      assert t == Step(before, d, k, replies, priceFile, defaultPrice);
      if before.aborted {
        assert Numbered(p) <= Numbered(data);
      } else if d.numero != "" {
        assert Numbered(data) == Numbered(p) + [d];
        var o := SendResult(replies(k + |before.sentFor|), priceFile, defaultPrice);
        if o.None? {
          assert (before.sentFor + [d])[..|before.sentFor|] == before.sentFor;
        } else {
          DataColumnAppend(before.rows, ReportRow(d, o.value));
        }
      }
    }
  }

  /**
   * One message more is sent than rows are reported exactly when the run
   * aborted; a run that did not abort reports every numbered row.
   */
  lemma RunCounts(data: seq<RowData>, k: nat, replies: nat -> SendReply, priceFile: PriceFile, defaultPrice: real)
    ensures var t := Run(data, k, replies, priceFile, defaultPrice);
      && |t.sentFor| == |t.rows| + (if t.aborted then 1 else 0)
      && |t.sentFor| <= |Numbered(data)|
      && (!t.aborted ==> |t.rows| == |Numbered(data)|)
  {
    RunFollowsSource(data, k, replies, priceFile, defaultPrice);
  }

  /** When every POST gets an answer, the run never aborts. */
  lemma {:induction false} AnsweredRunCompletes(data: seq<RowData>, k: nat, replies: nat -> SendReply, priceFile: PriceFile, defaultPrice: real)
    requires forall n :: replies(n).Answered?
    ensures !Run(data, k, replies, priceFile, defaultPrice).aborted
  {
    if data != [] {
      AnsweredRunCompletes(data[..|data| - 1], k, replies, priceFile, defaultPrice);
    }
  }

  /** The totals `run_campaign` reports for its report rows: how many, how many OK, how many ERROR, and the cost of the OK ones. */
  function Tally(rows: seq<ReportRow>): (s: Summary)
    ensures s.totalWithNumber == |rows| && s.totalOk + s.totalError == |rows|
    ensures s.totalOk == 0 ==> s.totalCost == 0.0
  {
    CountsPartition(rows);
    Summary(|rows|, CountOk(rows), CountError(rows), OkCost(rows))
  }

  /**
   * The counting after an answered send in the loop of `run_campaign`: an OK
   * status adds to the OK count and to the total cost, any other status to
   * the error count.
   */
  method Count(totals: Summary, ghost written: seq<ReportRow>, line: ReportRow) returns (totals': Summary)
    requires totals.totalOk == CountOk(written) && totals.totalError == CountError(written) && totals.totalCost == OkCost(written)
    ensures totals'.totalWithNumber == totals.totalWithNumber
    ensures totals'.totalOk == CountOk(written + [line]) && totals'.totalError == CountError(written + [line])
    ensures totals'.totalCost == OkCost(written + [line])
  {
    if line.outcome.apiStatus == OK {
      totals' := totals.(totalOk := totals.totalOk + 1, totalCost := totals.totalCost + line.outcome.cost);
    } else {
      totals' := totals.(totalError := totals.totalError + 1);
    }
    TotalsStep(written, line);
  }

  /**
   * One row with a number inside the loop of `run_campaign`: it is counted
   * and one request is made for its values; if the POST fails the run
   * aborts, otherwise the row is written to the report and counted by its
   * status. What it does is the run over one more row.
   */
  method SendRow(
    gateway: Gateway, d: RowData, priceFile: PriceFile, defaultPrice: real, written: seq<ReportRow>, totals: Summary,
    ghost data: seq<RowData>, ghost i: nat, ghost k0: nat, ghost sentFor: seq<RowData>)
    returns (aborted: bool, written': seq<ReportRow>, totals': Summary)
    requires i < |data| && data[i] == d && d.numero != ""
    requires Run(data[..i], k0, gateway.replies, priceFile, defaultPrice) == Trace(written, sentFor, false)
    requires |gateway.sent| == k0 + |sentFor| && totals == Tally(written)
    modifies gateway
    ensures gateway.sent == old(gateway.sent) + [RowRequest(d)]
    ensures Run(data[..i + 1], k0, gateway.replies, priceFile, defaultPrice) == Trace(written', sentFor + [d], aborted)
    ensures !aborted ==> totals' == Tally(written')
  {
    totals' := totals.(totalWithNumber := totals.totalWithNumber + 1);
    ghost var n := |gateway.sent|;
    var outcome := SendTemplateMessage(gateway, d.numero, d.nom, d.date, d.frais, d.observation, priceFile, defaultPrice);
    RunSnoc(data, i, k0, gateway.replies, priceFile, defaultPrice);
    SentStep(Trace(written, sentFor, false), d, k0, gateway.replies, priceFile, defaultPrice, n, outcome);
    if outcome.None? {
      return true, written, totals';
    }
    totals' := Count(totals', written, ReportRow(d, outcome.value));
    aborted, written' := false, written + [ReportRow(d, outcome.value)];
  }

  /** A row without a number leaves the run as it was. */
  lemma SkipStep(data: seq<RowData>, i: nat, k: nat, replies: nat -> SendReply, priceFile: PriceFile, defaultPrice: real)
    requires i < |data| && data[i].numero == ""
    ensures Run(data[..i + 1], k, replies, priceFile, defaultPrice) == Run(data[..i], k, replies, priceFile, defaultPrice)
  {
    RunSnoc(data, i, k, replies, priceFile, defaultPrice);
  }

  /**
   * The loop of `run_campaign` over the rows of a CSV whose columns are
   * all present: the report rows written, and the totals unless a POST
   * failed.
   */
  method SendRows(rows: seq<Row>, gateway: Gateway, priceFile: PriceFile, defaultPrice: real)
    returns (summary: Option<Summary>, written: seq<ReportRow>)
    modifies gateway
    ensures var t := Run(ReadRows(rows), |old(gateway.sent)|, gateway.replies, priceFile, defaultPrice);
      && written == t.rows
      && gateway.sent == old(gateway.sent) + Requests(t.sentFor)
      && (t.aborted <==> summary.None?)
      && (!t.aborted ==> summary == Some(Tally(t.rows)))
  {
    ghost var data := ReadRows(rows);
    ghost var k0 := |gateway.sent|;
    ghost var sentFor: seq<RowData> := [];
    var totals := Summary(0, 0, 0, 0.0);
    written := [];
    var i := 0;
    while i < |rows|
      invariant 0 <= i <= |rows|
      invariant Run(data[..i], k0, gateway.replies, priceFile, defaultPrice) == Trace(written, sentFor, false)
      invariant gateway.sent == old(gateway.sent) + Requests(sentFor) && k0 == |old(gateway.sent)|
      invariant totals == Tally(written)
    {
      var d := DataOf(rows[i]);
      if d.numero == "" {
        SkipStep(data, i, k0, gateway.replies, priceFile, defaultPrice);
      } else {
        var aborted;
        aborted, written, totals := SendRow(gateway, d, priceFile, defaultPrice, written, totals, data, i, k0, sentFor);
        RequestsAppend(sentFor, d);
        AppendAssoc(old(gateway.sent), Requests(sentFor), [RowRequest(d)]);
        sentFor := sentFor + [d];
        if aborted {
          AbortedStays(data, i + 1, k0, gateway.replies, priceFile, defaultPrice);
          return None, written;
        }
      }
      i := i + 1;
    }
    assert data[..i] == data;
    summary := Some(totals);
  }

  /**
   * `run_campaign`: the API key is checked first, then the CSV's existence,
   * then the columns; any of these failures happens before the report is
   * opened and before any send. Otherwise the report gets its header and one
   * row per row with a number, in order, every such row is sent once, and the
   * totals count the reported rows, the OK ones, the ERROR ones and the cost
   * of the OK ones. A failed POST aborts the run with the report written so far.
   */
  method RunCampaign(apiKey: string, source: Option<CsvSource>, gateway: Gateway, priceFile: PriceFile, defaultPrice: real)
    returns (r: Result<Summary, CampaignError>, report: Option<Report>)
    modifies gateway
    ensures apiKey == "" ==> r == Failure(MissingApiKey)
    ensures apiKey != "" && source.None? ==> r == Failure(CsvNotFound)
    ensures apiKey != "" && source.Some? && MissingColumns(RequiredColumns, source.value.header) != [] ==>
      r == Failure(MissingColumnsError(MissingColumns(RequiredColumns, source.value.header)))
    ensures r.Failure? && r.error != SendAborted ==> report == None && gateway.sent == old(gateway.sent)
    ensures apiKey != "" && source.Some? && MissingColumns(RequiredColumns, source.value.header) == [] ==>
      var t := Run(ReadRows(source.value.rows), |old(gateway.sent)|, gateway.replies, priceFile, defaultPrice);
      && report == Some(Report(ReportHeader, t.rows))
      && gateway.sent == old(gateway.sent) + Requests(t.sentFor)
      && (t.aborted <==> r == Failure(SendAborted))
      && (!t.aborted ==> r == Success(Tally(t.rows)))
  {
    if apiKey == "" {
      return Failure(MissingApiKey), None;
    }
    if source.None? {
      return Failure(CsvNotFound), None;
    }
    var missing := MissingColumns(RequiredColumns, source.value.header);
    if missing != [] {
      return Failure(MissingColumnsError(missing)), None;
    }
    var summary, written := SendRows(source.value.rows, gateway, priceFile, defaultPrice);
    report := Some(Report(ReportHeader, written));
    r := if summary.None? then Failure(SendAborted) else Success(summary.value);
  }
}
