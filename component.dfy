/** The trade-finance component as an object whose fields are its four pieces
    of state. Each handler is one atomic transition; the HTTP call it makes is
    replaced by the response it receives, given as an input. */
module Component {
  import opened Records

  /** What a handler's `fetch` produced: a success carrying `data.lcId` or
      `data.documentHash`, or a failure carrying the message of whatever was
      thrown inside the `try`: the transport's error when the request fails,
      the JSON parser's error when the body is not JSON (checked before
      `response.ok`, so also for an ok response), a type error when the body
      is `null` and a field of it is read, or `new Error(data.error)` on a
      non-ok JSON response, whose message is "" when the body has no `error`
      field. An ok `null` body for an upload is read only for a record whose
      id matches, so with no match nothing is thrown: that is an `Ok` whose
      hash is never used. */
  datatype Response<T> = Ok(value: T) | Failed(message: string)

  class TradeFinanceApp {
    var lcs: seq<LetterOfCredit>
    var newLC: Draft
    var loading: bool
    var error: Option<string>

    /** Initial state: no records, an all-empty draft, not loading, no error. */
    constructor ()
      ensures lcs == [] && newLC == EmptyDraft && !loading && error == None
      ensures EmptyNoticeVisible(lcs) && !ErrorBannerVisible(error) && !CreateDisabled(loading)
    {
      lcs := [];
      newLC := EmptyDraft;
      loading := false;
      error := None;
    }

    /** The onChange handler of one form input. */
    method EditDraft(f: Field, v: string)
      modifies this
      ensures newLC == SetField(old(newLC), f, v)
      ensures lcs == old(lcs) && loading == old(loading) && error == old(error)
      ensures EmptyNoticeVisible(lcs) == EmptyNoticeVisible(old(lcs))
    {
      newLC := SetField(newLC, f, v);
    }

    /** `createLC`: clear the error and set loading, then on success append the
        record built from the draft and reset the draft, on failure record the
        message; loading is cleared at the end either way. */
    method CreateLC(response: Response<string>)
      modifies this
      ensures !loading
      ensures response.Ok? ==>
                lcs == AppendRecord(old(lcs), old(newLC), response.value) &&
                newLC == EmptyDraft && error == None
      ensures response.Failed? ==>
                lcs == old(lcs) && newLC == old(newLC) && error == Some(response.message)
      ensures ErrorBannerVisible(error) <==> response.Failed? && response.message != ""
      ensures !CreateDisabled(loading) && ButtonLabel(loading) == "Create LC"
      ensures !EmptyNoticeVisible(old(lcs)) ==> !EmptyNoticeVisible(lcs)
      ensures response.Ok? ==> !EmptyNoticeVisible(lcs) && UploadOffered(lcs[|lcs| - 1])
    {
      loading := true;
      error := None;
      match response {
        case Ok(lcId) =>
          lcs := AppendRecord(lcs, newLC, lcId);
          newLC := EmptyDraft;
        case Failed(message) =>
          error := Some(message);
      }
      loading := false;
    }

    /** `submitDocuments`: clear the error and set loading, then on success
        stamp the returned hash on every record with the given id, on failure
        record the message; loading is cleared at the end either way. The
        draft is never touched. */
    method SubmitDocuments(lcId: string, response: Response<string>)
      modifies this
      ensures !loading && newLC == old(newLC)
      ensures response.Ok? ==>
                lcs == AttachDocument(old(lcs), lcId, response.value) && error == None
      ensures response.Failed? ==>
                lcs == old(lcs) && error == Some(response.message)
      ensures IdsOf(lcs) == IdsOf(old(lcs))
      ensures ErrorBannerVisible(error) <==> response.Failed? && response.message != ""
      ensures !CreateDisabled(loading) && ButtonLabel(loading) == "Create LC"
      ensures EmptyNoticeVisible(lcs) == EmptyNoticeVisible(old(lcs))
      ensures response.Ok? && response.value != "" ==>
                forall i :: 0 <= i < |lcs| && lcs[i].id == lcId ==> !UploadOffered(lcs[i])
    {
      loading := true;
      error := None;
      match response {
        case Ok(documentHash) =>
          lcs := AttachDocument(lcs, lcId, documentHash);
          AttachDocumentIds(old(lcs), lcId, documentHash);
        case Failed(message) =>
          error := Some(message);
      }
      loading := false;
    }
  }

  /** A client session: what a caller can conclude from the contracts alone. */
  method ExampleSession()
  {
    var app := new TradeFinanceApp();
    app.EditDraft(Seller, "0xAA");
    app.EditDraft(SellerBank, "0xBB");
    app.EditDraft(Amount, "1.5");
    app.EditDraft(ExpiryDays, "30");
    app.CreateLC(Ok("7"));
    var created := LetterOfCredit("7", "0xAA", "0xBB", "1.5", "30", None);
    assert app.lcs[0] == created;
    assert app.lcs == [created];
    assert app.newLC == EmptyDraft;

    app.CreateLC(Failed("insufficient funds"));
    assert app.lcs == [created] && app.error == Some("insufficient funds");
    assert ErrorBannerVisible(app.error);

    app.SubmitDocuments("8", Ok("abc123"));
    assert app.lcs == [created] && app.error == None;

    app.SubmitDocuments("7", Ok("abc123"));
    assert app.lcs[0] == created.(documentHash := Some("abc123"));
    assert !UploadOffered(app.lcs[0]) && !app.loading;
  }
}
