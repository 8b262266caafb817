/**
 * The per-message loop of `infobip_webhook` in app.py: each result of the
 * payload is classified, stored in the history, then correlated to a case,
 * and its document (if any) is downloaded and attached to that case. A CRM
 * failure for one message is caught and the loop goes on with the next one.
 */
module Webhook {
  import opened Wrappers
  import opened Seqs
  import opened Correlator
  import Salesforce
  import Media

  const TextTypes: set<string> := {"TEXT", "text"}
  const MediaTypes: set<string> := {"DOCUMENT", "document", "IMAGE", "image"}

  /** The `message` object of one result; absent fields are "". */
  datatype MessageBody = MessageBody(
    msgType: string,
    text: string,
    contentText: string,   // message.content.text
    url: string,
    documentUrl: string,   // message.document.url
    imageUrl: string,      // message.image.url
    caption: string)

  /** One element of the payload's `results`; absent fields are "". */
  datatype InboundMessage = InboundMessage(
    fromNumber: string,
    sender: string,
    receivedAt: string,
    contactName: string,
    message: MessageBody)

  /** What the loop extracts from one result. */
  datatype Fields = Fields(phone: Phone, msgType: string, text: string, docUrl: string, caption: string)

  /** Python's `a or b` on strings. */
  function Or(a: string, b: string): string
  {
    if a != "" then a else b
  }

  /**
   * The classification at the head of the loop: the phone is `from`, else
   * `sender`; only TEXT messages carry a text (the message's own, else the
   * content's); only DOCUMENT and IMAGE messages carry a document URL (the
   * message's own, else the document's, else the image's) and a caption.
   */
  function Classify(m: InboundMessage): (f: Fields)
    ensures f.phone == (if m.fromNumber != "" then m.fromNumber else m.sender)
    ensures f.msgType == m.message.msgType
    ensures f.text != "" <==> m.message.msgType in TextTypes && (m.message.text != "" || m.message.contentText != "")
    ensures f.text != "" ==> f.text == (if m.message.text != "" then m.message.text else m.message.contentText)
    ensures f.docUrl != "" <==>
      && m.message.msgType in MediaTypes
      && (m.message.url != "" || m.message.documentUrl != "" || m.message.imageUrl != "")
    ensures f.docUrl != "" ==>
      f.docUrl == (if m.message.url != "" then m.message.url
                   else if m.message.documentUrl != "" then m.message.documentUrl
                   else m.message.imageUrl)
    ensures f.caption == (if m.message.msgType in MediaTypes then m.message.caption else "")
  {
    var body := m.message;
    var text := if body.msgType in TextTypes then Or(body.text, body.contentText) else "";
    var docUrl := if body.msgType in MediaTypes then Or(body.url, Or(body.documentUrl, body.imageUrl)) else "";
    var caption := if body.msgType in MediaTypes then body.caption else "";
    Fields(Or(m.fromNumber, m.sender), body.msgType, text, docUrl, caption)
  }

  /**
   * The history entry `store_in_memory` records for a result: its type and
   * timestamp, a text only for a TEXT message, a URL only for a media message.
   */
  function EntryOf(m: InboundMessage): (e: Entry)
    ensures e.msgType == m.message.msgType && e.timestamp == m.receivedAt
    ensures e.text == Classify(m).text && e.docUrl == Classify(m).docUrl
    ensures m.message.msgType !in TextTypes ==> e.text == ""
    ensures m.message.msgType !in MediaTypes ==> e.docUrl == ""
  {
    var f := Classify(m);
    Entry(f.msgType, f.text, f.docUrl, m.receivedAt)
  }

  /**
   * The history after every result of a payload has been stored, in order:
   * no phone is lost, and every phone of the payload has a history.
   */
  function StoreAll(h: History, results: seq<InboundMessage>): (h': History)
    ensures h.Keys <= h'.Keys
    ensures forall i :: 0 <= i < |results| ==> Classify(results[i]).phone in h'
    decreases |results|
  {
    if results == [] then h
    else StoreAll(Append(h, Classify(results[0]).phone, EntryOf(results[0])), results[1..])
  }

  /** The entries a payload adds for one phone, in payload order. */
  function EntriesFor(results: seq<InboundMessage>, phone: Phone): seq<Entry>
  {
    if results == [] then []
    else (if Classify(results[0]).phone == phone then [EntryOf(results[0])] else [])
         + EntriesFor(results[1..], phone)
  }

  /**
   * Storing a payload keeps every earlier entry of every phone and adds,
   * after them, exactly the payload's entries for that phone in order.
   */
  lemma {:induction false} StoreAllEntries(h: History, results: seq<InboundMessage>, phone: Phone)
    ensures Entries(StoreAll(h, results), phone) == Entries(h, phone) + EntriesFor(results, phone)
    decreases |results|
  {
    if results != [] {
      var h' := Append(h, Classify(results[0]).phone, EntryOf(results[0]));
      var own := if Classify(results[0]).phone == phone then [EntryOf(results[0])] else [];
      assert Entries(h', phone) == Entries(h, phone) + own;
      StoreAllEntries(h', results[1..], phone);
      AppendAssoc(Entries(h, phone), own, EntriesFor(results[1..], phone));
    }
  }

  /** `title=f"Whatsapp - {phone}"` of the upload. */
  function UploadTitle(phone: Phone): string
  {
    "Whatsapp - " + phone
  }

  /**
   * The CRM requests the document step makes for a resolved case: one upload
   * when the message has a document URL and its download gave a non-empty
   * body, with the chosen file name and the phone in the title; none otherwise.
   */
  function AttachCalls(fetch: string -> Media.FetchResult, base: string, caseId: string, f: Fields)
    : (calls: seq<Salesforce.Call>)
    ensures var d := Media.DownloadFile(fetch, base, f.docUrl, f.caption);
      && (calls != [] <==> f.docUrl != "" && d.0.Some? && d.0.value != [])
      && (calls != [] ==> calls == [Salesforce.UploadDocument(caseId, d.0.value, d.1, UploadTitle(f.phone))])
  {
    if f.docUrl == "" then []
    else
      var download := Media.DownloadFile(fetch, base, f.docUrl, f.caption);
      if download.0.Some? && download.0.value != []
      then [Salesforce.UploadDocument(caseId, download.0.value, download.1, UploadTitle(f.phone))]
      else []
  }

  /** The document step of the loop: download, and upload only a non-empty body. */
  method AttachDocument(
    sf: Salesforce.Org, session: Salesforce.Session, fetch: string -> Media.FetchResult, base: string,
    caseId: string, f: Fields)
    modifies sf
    ensures sf.calls == old(sf.calls) + AttachCalls(fetch, base, caseId, f)
  {
    if f.docUrl != "" {
      var download := Media.DownloadFile(fetch, base, f.docUrl, f.caption);
      var (file, filename) := download;
      if file.Some? && file.value != [] {
        var link := sf.UploadDocumentForCase(session, caseId, file.value, filename, UploadTitle(f.phone));
      }
    }
  }

  /** The login request the loop makes when it holds no session yet. */
  function LoginCalls(session: Option<Salesforce.Session>): seq<Salesforce.Call>
  {
    if session.None? then [Salesforce.Login] else []
  }

  /**
   * The part of the `try` block after the session is known: resolve the case
   * and, when that succeeds, attach the document to it.
   */
  method ResolveAndAttach(
    c: Correlator, sf: Salesforce.Org, fetch: string -> Media.FetchResult, base: string,
    f: Fields, receivedAt: string, contactName: string, session: Salesforce.Session)
    requires c.Valid()
    modifies c, sf
    ensures c.Valid()
    ensures c.messageStore == old(c.messageStore)
    ensures c.caseStore - {f.phone} == old(c.caseStore) - {f.phone}
    ensures |old(sf.calls)| <= |sf.calls| && sf.calls[..|old(sf.calls)|] == old(sf.calls)
    ensures
      match Decide(old(c.messageStore), old(c.caseStore), f.phone, receivedAt, c.parse)
      case Reuse(id) =>
        && c.caseStore == old(c.caseStore)[f.phone := CaseRecord(id, receivedAt)]
        && sf.calls == old(sf.calls) + AttachCalls(fetch, base, id, f)
      case Create =>
        var reply := sf.replies(|old(sf.calls)|);
        var requested := old(sf.calls) + [Salesforce.NewCase(f.phone, contactName)];
        if reply.Accepted? && reply.id != "" then
          && c.caseStore == old(c.caseStore)[f.phone := CaseRecord(reply.id, receivedAt)]
          && sf.calls == requested + AttachCalls(fetch, base, reply.id, f)
        else
          && c.caseStore == old(c.caseStore)
          && sf.calls == requested
  {
    var caseId := c.GetCaseForPhone(sf, session, f.phone, contactName, receivedAt);
    if caseId.Success? {
      AttachDocument(sf, session, fetch, base, caseId.value, f);
    }
  }

  /**
   * The CRM part of one turn (the `try` block): get a session if there is
   * none, resolve the case, attach the document. A failure at any request
   * ends the turn with the state reached so far.
   */
  method Integrate(
    c: Correlator, sf: Salesforce.Org, fetch: string -> Media.FetchResult, base: string,
    f: Fields, receivedAt: string, contactName: string, session: Option<Salesforce.Session>)
    returns (session': Option<Salesforce.Session>)
    requires c.Valid()
    modifies c, sf
    ensures c.Valid()
    ensures c.messageStore == old(c.messageStore)
    ensures c.caseStore - {f.phone} == old(c.caseStore) - {f.phone}
    ensures |old(sf.calls)| <= |sf.calls| && sf.calls[..|old(sf.calls)|] == old(sf.calls)
    ensures session.Some? ==> session' == session
    ensures session.None? ==>
      var login := sf.replies(|old(sf.calls)|);
      && (session'.Some? <==> login.Accepted? && login.id != "")
      && (session'.Some? ==> session' == Some(Salesforce.Session(login.id)))
    ensures session'.None? ==> sf.calls == old(sf.calls) + LoginCalls(session) && c.caseStore == old(c.caseStore)
    ensures session'.Some? ==>
      match Decide(old(c.messageStore), old(c.caseStore), f.phone, receivedAt, c.parse)
      case Reuse(id) =>
        && c.caseStore == old(c.caseStore)[f.phone := CaseRecord(id, receivedAt)]
        && sf.calls == old(sf.calls) + LoginCalls(session) + AttachCalls(fetch, base, id, f)
      case Create =>
        var reply := sf.replies(|old(sf.calls)| + |LoginCalls(session)|);
        var requested := old(sf.calls) + LoginCalls(session) + [Salesforce.NewCase(f.phone, contactName)];
        if reply.Accepted? && reply.id != "" then
          && c.caseStore == old(c.caseStore)[f.phone := CaseRecord(reply.id, receivedAt)]
          && sf.calls == requested + AttachCalls(fetch, base, reply.id, f)
        else
          && c.caseStore == old(c.caseStore)
          && sf.calls == requested
  {
    session' := session;
    if session'.None? {
      var login := sf.GetSession();
      if login.Failure? {
        return;
      }
      session' := Some(login.value);
    }
    ghost var mid := sf.calls;
    assert mid == old(sf.calls) + LoginCalls(session);
    ResolveAndAttach(c, sf, fetch, base, f, receivedAt, contactName, session'.value);
    assert sf.calls[..|mid|] == mid;
  }

  /** A request log that starts with `requested` holds its last request at that position. */
  lemma RequestedThenAttached(requested: seq<Salesforce.Call>, calls: seq<Salesforce.Call>, phone: string, nom: string)
    requires requested != [] && requested[|requested| - 1] == Salesforce.NewCase(phone, nom)
    requires |requested| <= |calls| && calls[..|requested|] == requested
    ensures calls[|requested| - 1] == Salesforce.NewCase(phone, nom)
  {
    assert calls[..|requested|][|requested| - 1] == calls[|requested| - 1];
  }

  /**
   * One turn of the loop. The entry is stored before anything else, so it
   * stays whatever the CRM does afterwards, and the decision of
   * `get_case_for_phone` is taken on the history that already holds it: once
   * a session exists and `receivedAt` parses, a cached case is always reused
   * (its last activity refreshed) and no new case is requested.
   */
  method ProcessMessage(
    c: Correlator, sf: Salesforce.Org, fetch: string -> Media.FetchResult, base: string,
    m: InboundMessage, session: Option<Salesforce.Session>)
    returns (session': Option<Salesforce.Session>)
    requires c.Valid()
    modifies c, sf
    ensures c.Valid()
    ensures c.messageStore == Append(old(c.messageStore), Classify(m).phone, EntryOf(m))
    ensures c.caseStore - {Classify(m).phone} == old(c.caseStore) - {Classify(m).phone}
    ensures |old(sf.calls)| <= |sf.calls| && sf.calls[..|old(sf.calls)|] == old(sf.calls)
    ensures session.Some? ==> session' == session
    ensures session.None? ==>
      var login := sf.replies(|old(sf.calls)|);
      && (session'.Some? <==> login.Accepted? && login.id != "")
      && (session'.Some? ==> session' == Some(Salesforce.Session(login.id)))
    ensures session'.None? ==> sf.calls == old(sf.calls) + LoginCalls(session) && c.caseStore == old(c.caseStore)
    ensures var phone := Classify(m).phone;
      (session'.Some? && ParseTimestamp(c.parse, m.receivedAt).Some? && phone in old(c.caseStore))
      ==> var id := old(c.caseStore)[phone].caseId;
          && c.caseStore == old(c.caseStore)[phone := CaseRecord(id, m.receivedAt)]
          && sf.calls == old(sf.calls) + LoginCalls(session) + AttachCalls(fetch, base, id, Classify(m))
    ensures var phone := Classify(m).phone;
      (session'.Some? && (ParseTimestamp(c.parse, m.receivedAt).None? || phone !in old(c.caseStore)))
      ==> var reply := sf.replies(|old(sf.calls)| + |LoginCalls(session)|);
          var requested := old(sf.calls) + LoginCalls(session) + [Salesforce.NewCase(phone, m.contactName)];
          if reply.Accepted? && reply.id != "" then
            && c.caseStore == old(c.caseStore)[phone := CaseRecord(reply.id, m.receivedAt)]
            && sf.calls == requested + AttachCalls(fetch, base, reply.id, Classify(m))
          else
            && c.caseStore == old(c.caseStore)
            && sf.calls == requested
  {
    var f := Classify(m);
    c.StoreInMemory(f.phone, f.msgType, f.text, f.docUrl, m.receivedAt);
    DecideAfterStoreIgnoresHistory(old(c.messageStore), c.caseStore, f.phone, EntryOf(m), c.parse);
    ghost var d := Decide(c.messageStore, c.caseStore, f.phone, m.receivedAt, c.parse);
    assert ParseTimestamp(c.parse, m.receivedAt).None? || f.phone !in c.caseStore ==> d == Create;
    session' := Integrate(c, sf, fetch, base, f, m.receivedAt, m.contactName, session);
  }

  /**
   * One turn in the order the window rule intends: the case is resolved
   * against the history as it stood before this message, and the entry is
   * stored afterwards, whatever the CRM did. A cached case is then reused
   * only within two hours of the phone's previous message, and a message
   * that comes more than two hours after it asks the CRM for a new case.
   */
  method ProcessMessageDecidingFirst(
    c: Correlator, sf: Salesforce.Org, fetch: string -> Media.FetchResult, base: string,
    m: InboundMessage, session: Option<Salesforce.Session>)
    returns (session': Option<Salesforce.Session>)
    requires c.Valid()
    modifies c, sf
    ensures c.Valid()
    ensures c.messageStore == Append(old(c.messageStore), Classify(m).phone, EntryOf(m))
    ensures c.caseStore - {Classify(m).phone} == old(c.caseStore) - {Classify(m).phone}
    ensures |old(sf.calls)| <= |sf.calls| && sf.calls[..|old(sf.calls)|] == old(sf.calls)
    ensures session.Some? ==> session' == session
    ensures session.None? ==>
      var login := sf.replies(|old(sf.calls)|);
      && (session'.Some? <==> login.Accepted? && login.id != "")
      && (session'.Some? ==> session' == Some(Salesforce.Session(login.id)))
    ensures session'.None? ==> sf.calls == old(sf.calls) + LoginCalls(session) && c.caseStore == old(c.caseStore)
    ensures var phone := Classify(m).phone;
      session'.Some? && Decide(old(c.messageStore), old(c.caseStore), phone, m.receivedAt, c.parse).Reuse?
      ==> var id := old(c.caseStore)[phone].caseId;
          && c.caseStore == old(c.caseStore)[phone := CaseRecord(id, m.receivedAt)]
          && sf.calls == old(sf.calls) + LoginCalls(session) + AttachCalls(fetch, base, id, Classify(m))
    ensures var phone := Classify(m).phone;
      var before := Entries(old(c.messageStore), phone);
      (&& session'.Some? && before != []
       && ParseTimestamp(c.parse, m.receivedAt).Some?
       && ParseTimestamp(c.parse, before[|before| - 1].timestamp).Some?
       && ParseTimestamp(c.parse, m.receivedAt).value - ParseTimestamp(c.parse, before[|before| - 1].timestamp).value > Window)
      ==> var at := |old(sf.calls)| + |LoginCalls(session)|;
          at < |sf.calls| && sf.calls[at] == Salesforce.NewCase(phone, m.contactName)
    ensures var phone := Classify(m).phone;
      session'.Some? && Decide(old(c.messageStore), old(c.caseStore), phone, m.receivedAt, c.parse).Create?
      ==> var reply := sf.replies(|old(sf.calls)| + |LoginCalls(session)|);
          var requested := old(sf.calls) + LoginCalls(session) + [Salesforce.NewCase(phone, m.contactName)];
          if reply.Accepted? && reply.id != "" then
            && c.caseStore == old(c.caseStore)[phone := CaseRecord(reply.id, m.receivedAt)]
            && sf.calls == requested + AttachCalls(fetch, base, reply.id, Classify(m))
          else
            && c.caseStore == old(c.caseStore)
            && sf.calls == requested
  {
    var f := Classify(m);
    ghost var calls0 := sf.calls;
    ghost var d := Decide(c.messageStore, c.caseStore, f.phone, m.receivedAt, c.parse);
    DecideHonoursWindow(c.messageStore, c.caseStore, f.phone, m.receivedAt, c.parse);
    session' := Integrate(c, sf, fetch, base, f, m.receivedAt, m.contactName, session);
    if session'.Some? && d.Create? {
      var requested := calls0 + LoginCalls(session) + [Salesforce.NewCase(f.phone, m.contactName)];
      RequestedThenAttached(requested, sf.calls, f.phone, m.contactName);
    }
    c.StoreInMemory(f.phone, f.msgType, f.text, f.docUrl, m.receivedAt);
  }

  /**
   * `infobip_webhook` for a POST: an empty `results` is answered "no_results"
   * and changes nothing; otherwise every result is processed in order, each
   * one's entry is stored whatever happened to the ones before it, and the
   * answer is "ok".
   */
  method HandleWebhook(
    c: Correlator, sf: Salesforce.Org, fetch: string -> Media.FetchResult, base: string,
    results: seq<InboundMessage>)
    returns (status: string)
    requires c.Valid()
    modifies c, sf
    ensures c.Valid()
    ensures results == [] ==> status == "no_results" && unchanged(c) && unchanged(sf)
    ensures results != [] ==> status == "ok"
    ensures c.messageStore == StoreAll(old(c.messageStore), results)
    ensures |old(sf.calls)| <= |sf.calls| && sf.calls[..|old(sf.calls)|] == old(sf.calls)
  {
    if results == [] {
      return "no_results";
    }
    var session: Option<Salesforce.Session> := None;
    var i := 0;
    while i < |results|
      invariant 0 <= i <= |results|
      invariant c.Valid()
      invariant StoreAll(c.messageStore, results[i..]) == StoreAll(old(c.messageStore), results)
      invariant |old(sf.calls)| <= |sf.calls| && sf.calls[..|old(sf.calls)|] == old(sf.calls)
    {
      session := ProcessMessage(c, sf, fetch, base, results[i], session);
      assert results[i..][1..] == results[i + 1..];
      i := i + 1;
    }
    status := "ok";
  }
}
