/**
 * The conversation-to-case correlator of app.py: the per-phone message
 * history (MESSAGE_STORE), the per-phone case cache (CASE_STORE), the
 * two-hour active-window rule and the "reuse or create" decision.
 *
 * Timestamps arrive as text in the provider's format; turning that text
 * into an instant (`strptime`) is the parameter `parse`, which yields
 * microseconds on a common scale or None when the text does not parse.
 */
module Correlator {
  import opened Wrappers
  import Salesforce

  type Phone = string

  /** The provider timestamp parser: an instant in microseconds, or None for malformed text. */
  type Parser = string -> Option<int>

  /** CASE_WINDOW: two hours, in microseconds (the resolution of a Python timedelta). */
  const Window: int := 2 * 60 * 60 * 1_000_000

  /** One stored message, as `store_in_memory` builds it. */
  datatype Entry = Entry(msgType: string, text: string, docUrl: string, timestamp: string)

  /** One CASE_STORE value: the current case of a phone and its last activity. */
  datatype CaseRecord = CaseRecord(caseId: string, lastTs: string)

  type History = map<Phone, seq<Entry>>
  type Cases = map<Phone, CaseRecord>

  /** `parse_infobip_timestamp`: empty text never parses; other text is read by the parser. */
  function ParseTimestamp(parse: Parser, ts: string): (r: Option<int>)
    ensures ts == "" ==> r.None?
    ensures r.Some? ==> ts != "" && parse(ts) == r
    ensures ts != "" && parse(ts).None? ==> r.None?
  {
    if ts == "" then None else parse(ts)
  }

  /** `MESSAGE_STORE.get(phone, [])`. */
  function Entries(h: History, phone: Phone): seq<Entry>
  {
    if phone in h then h[phone] else []
  }

  /**
   * `has_active_window`: the phone has stored messages, the current and the
   * last stored timestamps both parse, and the current one is at most two
   * hours after the last one. The difference is not clamped, so a message
   * older than the last stored one is always active.
   */
  function HasActiveWindow(h: History, phone: Phone, current: string, parse: Parser): (active: bool)
    ensures Entries(h, phone) == [] ==> !active
    ensures ParseTimestamp(parse, current).None? ==> !active
    ensures Entries(h, phone) != [] && ParseTimestamp(parse, Entries(h, phone)[|Entries(h, phone)| - 1].timestamp).None?
      ==> !active
    ensures active ==> Entries(h, phone) != [] && ParseTimestamp(parse, current).Some?
    ensures Entries(h, phone) != []
      && ParseTimestamp(parse, current).Some?
      && ParseTimestamp(parse, Entries(h, phone)[|Entries(h, phone)| - 1].timestamp).Some?
      ==> var now := ParseTimestamp(parse, current).value;
          var last := ParseTimestamp(parse, Entries(h, phone)[|Entries(h, phone)| - 1].timestamp).value;
          (active <==> now - last <= Window) && (now <= last ==> active)
  {
    var messages := Entries(h, phone);
    if messages == [] then false
    else
      match (ParseTimestamp(parse, current), ParseTimestamp(parse, messages[|messages| - 1].timestamp))
      case (Some(now), Some(last)) => now - last <= Window
      case _ => false
  }

  /**
   * `store_in_memory`, on values: exactly one entry is appended at the end of
   * the phone's list (created when absent); earlier entries and every other
   * phone's list are unchanged.
   */
  function Append(h: History, phone: Phone, e: Entry): (h': History)
    ensures Entries(h', phone) == Entries(h, phone) + [e]
    ensures forall q :: q != phone ==> Entries(h', q) == Entries(h, q)
    ensures h'.Keys == h.Keys + {phone}
  {
    h[phone := Entries(h, phone) + [e]]
  }

  /** The outcome of `get_case_for_phone`: reuse the cached case, or ask the CRM for a new one. */
  datatype Decision = Reuse(caseId: string) | Create

  /** The test at the head of `get_case_for_phone`: an active window and a cached, non-empty case id. */
  function Decide(h: History, cases: Cases, phone: Phone, receivedAt: string, parse: Parser): (d: Decision)
    ensures d.Reuse? ==> phone in cases && d.caseId == cases[phone].caseId && d.caseId != ""
    ensures d.Reuse? ==> Entries(h, phone) != [] && ParseTimestamp(parse, receivedAt).Some?
    ensures phone !in cases || !HasActiveWindow(h, phone, receivedAt, parse) ==> d == Create
  {
    if HasActiveWindow(h, phone, receivedAt, parse) && phone in cases && cases[phone].caseId != ""
    then Reuse(cases[phone].caseId)
    else Create
  }

  /**
   * Deciding against the history as it stood before the message arrived: a
   * cached case is reused exactly when the previous message of the phone is
   * at most two hours older than this one (or newer), both timestamps parse,
   * and a case is cached; otherwise a new case is requested.
   */
  lemma DecideHonoursWindow(h: History, cases: Cases, phone: Phone, receivedAt: string, parse: Parser)
    ensures var d := Decide(h, cases, phone, receivedAt, parse);
      && (d.Reuse? <==>
            && Entries(h, phone) != []
            && phone in cases && cases[phone].caseId != ""
            && ParseTimestamp(parse, receivedAt).Some?
            && ParseTimestamp(parse, Entries(h, phone)[|Entries(h, phone)| - 1].timestamp).Some?
            && ParseTimestamp(parse, receivedAt).value
               - ParseTimestamp(parse, Entries(h, phone)[|Entries(h, phone)| - 1].timestamp).value <= Window)
      && (d.Reuse? ==> d.caseId == cases[phone].caseId)
  {
  }

  /**
   * What the webhook actually decides: the message is stored before the
   * decision, so the window is measured from the message to itself. The
   * history plays no part: a cached case is reused whenever the timestamp
   * parses, however long ago the previous message came.
   */
  lemma DecideAfterStoreIgnoresHistory(h: History, cases: Cases, phone: Phone, e: Entry, parse: Parser)
    ensures Decide(Append(h, phone, e), cases, phone, e.timestamp, parse)
      == if ParseTimestamp(parse, e.timestamp).Some? && phone in cases && cases[phone].caseId != ""
         then Reuse(cases[phone].caseId) else Create
  {
    var h' := Append(h, phone, e);
    assert Entries(h', phone)[|Entries(h', phone)| - 1] == e;
  }

  /** A timestamp parser that knows two instants three hours apart. */
  function TwoInstants(ts: string): Option<int>
  {
    if ts == "2025-11-16T10:26:07.000+0000" then Some(0)
    else if ts == "2025-11-16T13:26:07.000+0000" then Some(3 * 60 * 60 * 1_000_000)
    else None
  }

  /**
   * Two text messages from one phone three hours apart: deciding against the
   * earlier history asks for a new case, but the order the webhook uses
   * (store, then decide) reuses the case of the first message.
   */
  lemma ThreeHoursApart()
    ensures var first := Entry("TEXT", "Bonjour", "", "2025-11-16T10:26:07.000+0000");
      var second := Entry("TEXT", "Encore", "", "2025-11-16T13:26:07.000+0000");
      var h := map["212600000000" := [first]];
      var cases := map["212600000000" := CaseRecord("500Q000001", first.timestamp)];
      && Decide(h, cases, "212600000000", second.timestamp, TwoInstants) == Create
      && Decide(Append(h, "212600000000", second), cases, "212600000000", second.timestamp, TwoInstants)
         == Reuse("500Q000001")
  {
    var first := Entry("TEXT", "Bonjour", "", "2025-11-16T10:26:07.000+0000");
    var second := Entry("TEXT", "Encore", "", "2025-11-16T13:26:07.000+0000");
    var h := map["212600000000" := [first]];
    var cases := map["212600000000" := CaseRecord("500Q000001", first.timestamp)];
    assert TwoInstants(first.timestamp) == Some(0);
    assert TwoInstants(second.timestamp) == Some(3 * 60 * 60 * 1_000_000);
    DecideAfterStoreIgnoresHistory(h, cases, "212600000000", second, TwoInstants);
  }

  /** The in-memory state of the correlator: the two process-wide maps of app.py. */
  class Correlator {
    const parse: Parser
    var messageStore: History
    var caseStore: Cases

    /** Every cached case carries the non-empty id the CRM returned. */
    ghost predicate Valid()
      reads this
    {
      forall p :: p in caseStore ==> caseStore[p].caseId != ""
    }

    constructor (parse: Parser)
      ensures Valid()
      ensures this.parse == parse && messageStore == map[] && caseStore == map[]
    {
      this.parse := parse;
      messageStore := map[];
      caseStore := map[];
    }

    /** `store_in_memory`: appends one entry to the phone's history; the case cache is untouched. */
    method StoreInMemory(phone: Phone, msgType: string, text: string, docUrl: string, timestamp: string)
      requires Valid()
      modifies this
      ensures Valid()
      ensures messageStore == Append(old(messageStore), phone, Entry(msgType, text, docUrl, timestamp))
      ensures caseStore == old(caseStore)
    {
      var entry := Entry(msgType, text, docUrl, timestamp);
      if phone !in messageStore {
        messageStore := messageStore[phone := []];
      }
      messageStore := messageStore[phone := messageStore[phone] + [entry]];
    }

    /**
     * `get_case_for_phone`: on reuse, returns the cached id, refreshes only its
     * last activity and makes no request; otherwise asks the CRM for exactly
     * one new case, caches it for this phone with `receivedAt` as its last
     * activity (or leaves the cache as it was if the request fails) and
     * touches no other phone's entry.
     */
    method GetCaseForPhone(sf: Salesforce.Org, session: Salesforce.Session, phone: Phone, nom: string, receivedAt: string)
      returns (r: Result<string, Salesforce.SalesforceError>)
      requires Valid()
      modifies this, sf
      ensures Valid()
      ensures messageStore == old(messageStore)
      ensures r.Success? ==> r.value != ""
      ensures match Decide(old(messageStore), old(caseStore), phone, receivedAt, parse)
        case Reuse(id) =>
          && r == Success(id)
          && caseStore == old(caseStore)[phone := CaseRecord(id, receivedAt)]
          && sf.calls == old(sf.calls)
        case Create =>
          var reply := sf.replies(|old(sf.calls)|);
          && sf.calls == old(sf.calls) + [Salesforce.NewCase(phone, nom)]
          && (r.Success? <==> reply.Accepted? && reply.id != "")
          && (r.Success? ==> r.value == reply.id && caseStore == old(caseStore)[phone := CaseRecord(reply.id, receivedAt)])
          && (r.Failure? ==> caseStore == old(caseStore))
    {
      var active := HasActiveWindow(messageStore, phone, receivedAt, parse);
      if active && phone in caseStore && caseStore[phone].caseId != "" {
        var cached := caseStore[phone];
        caseStore := caseStore[phone := cached.(lastTs := receivedAt)];
        return Success(cached.caseId);
      }
      r := sf.CreateCase(session, phone, nom);
      if r.Success? {
        caseStore := caseStore[phone := CaseRecord(r.value, receivedAt)];
      }
    }
  }
}
