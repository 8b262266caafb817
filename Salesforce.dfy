/**
 * The CRM collaborator of salesforce_client.py, reduced to its contract:
 * every request either fails (SalesforceError) or answers with an id.
 * The n-th request the process makes gets the answer `replies(n)`, and
 * every request is recorded in `calls`, so that callers can state which
 * requests an operation makes.
 */
module Salesforce {
  import opened Wrappers

  datatype Call =
    | Login
    | NewCase(phone: string, nom: string)
    | UploadDocument(caseId: string, file: seq<bv8>, filename: string, title: string)

  /** What the CRM answers to one request: an HTTP error, or a JSON body whose id may be missing (""). */
  datatype Reply = Refused | Accepted(id: string)

  datatype Session = Session(instanceUrl: string)

  datatype SalesforceError = AuthFailed | MissingInstanceUrl | CreateFailed | CaseWithoutId | UploadFailed

  class Org {
    const replies: nat -> Reply
    var calls: seq<Call>

    constructor (replies: nat -> Reply)
      ensures this.replies == replies && calls == []
    {
      this.replies := replies;
      calls := [];
    }

    /** The answer the next request will receive. */
    function Next(): Reply
      reads this
    {
      replies(|calls|)
    }

    /** `get_salesforce_session`: fails on an HTTP error and when no instance URL comes back. */
    method GetSession() returns (r: Result<Session, SalesforceError>)
      modifies this
      ensures calls == old(calls) + [Login]
      ensures old(Next()).Refused? ==> r == Failure(AuthFailed)
      ensures old(Next()).Accepted? && old(Next()).id == "" ==> r == Failure(MissingInstanceUrl)
      ensures old(Next()).Accepted? && old(Next()).id != "" ==> r == Success(Session(old(Next()).id))
    {
      var reply := Next();
      calls := calls + [Login];
      match reply
      case Refused =>
        r := Failure(AuthFailed);
      case Accepted(url) =>
        if url == "" {
          r := Failure(MissingInstanceUrl);
        } else {
          r := Success(Session(url));
        }
    }

    /** `create_case`: an id comes back only when the CRM accepted the case and named it. */
    method CreateCase(session: Session, phone: string, nom: string) returns (r: Result<string, SalesforceError>)
      modifies this
      ensures calls == old(calls) + [NewCase(phone, nom)]
      ensures r.Success? ==> r.value != ""
      ensures old(Next()).Refused? ==> r == Failure(CreateFailed)
      ensures old(Next()).Accepted? && old(Next()).id == "" ==> r == Failure(CaseWithoutId)
      ensures old(Next()).Accepted? && old(Next()).id != "" ==> r == Success(old(Next()).id)
    {
      var reply := Next();
      calls := calls + [NewCase(phone, nom)];
      match reply
      case Refused =>
        r := Failure(CreateFailed);
      case Accepted(id) =>
        if id == "" {
          r := Failure(CaseWithoutId);
        } else {
          r := Success(id);
        }
    }

    /** `upload_document_for_case`, as one opaque request that yields a link id or fails. */
    method UploadDocumentForCase(session: Session, caseId: string, file: seq<bv8>, filename: string, title: string)
      returns (r: Result<string, SalesforceError>)
      modifies this
      ensures calls == old(calls) + [UploadDocument(caseId, file, filename, title)]
      ensures r.Success? <==> old(Next()).Accepted? && old(Next()).id != ""
      ensures r.Success? ==> r.value == old(Next()).id
    {
      var reply := Next();
      calls := calls + [UploadDocument(caseId, file, filename, title)];
      if reply.Accepted? && reply.id != "" {
        r := Success(reply.id);
      } else {
        r := Failure(UploadFailed);
      }
    }
  }
}
