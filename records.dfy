/** Values held by the trade-finance component: the draft form, the Letter of
    Credit records, the pure list transformations its handlers apply, and the
    boolean render conditions that read them. */
module Records {

  datatype Option<T> = None | Some(value: T)

  /** JavaScript truthiness of a string that may be null or undefined:
      both absent values and the empty string are falsy. */
  predicate Truthy(s: Option<string>)
  {
    s.Some? && s.value != ""
  }

  /** The unsubmitted form state `newLC`. */
  datatype Draft = Draft(seller: string, sellerBank: string, amount: string, expiryDays: string)

  /** The draft the component starts from and resets to after a create. */
  const EmptyDraft := Draft("", "", "", "")

  /** The four inputs of the form, each bound to one draft field. */
  datatype Field = Seller | SellerBank | Amount | ExpiryDays

  function Get(d: Draft, f: Field): string {
    match f
    case Seller => d.seller
    case SellerBank => d.sellerBank
    case Amount => d.amount
    case ExpiryDays => d.expiryDays
  }

  /** `{ ...newLC, <field>: value }`, the update an input's onChange performs. */
  function SetField(d: Draft, f: Field, v: string): (r: Draft)
    ensures Get(r, f) == v
    ensures forall g: Field :: g != f ==> Get(r, g) == Get(d, g)
  {
    match f
    case Seller => d.(seller := v)
    case SellerBank => d.(sellerBank := v)
    case Amount => d.(amount := v)
    case ExpiryDays => d.(expiryDays := v)
  }

  /** A record of the list `lcs`; `documentHash` is absent until an upload succeeds. */
  datatype LetterOfCredit = LetterOfCredit(
    id: string,
    seller: string,
    sellerBank: string,
    amount: string,
    expiryDays: string,
    documentHash: Option<string>)

  /** The four form fields a record carries. */
  function DraftOf(lc: LetterOfCredit): Draft {
    Draft(lc.seller, lc.sellerBank, lc.amount, lc.expiryDays)
  }

  /** `{ ...newLC, id: lcId }`: the draft's fields plus the backend's id. */
  function FromDraft(d: Draft, id: string): (lc: LetterOfCredit)
    ensures DraftOf(lc) == d
    ensures lc.id == id && lc.documentHash == None
  {
    LetterOfCredit(id, d.seller, d.sellerBank, d.amount, d.expiryDays, None)
  }

  function IdsOf(lcs: seq<LetterOfCredit>): seq<string> {
    seq(|lcs|, i requires 0 <= i < |lcs| => lcs[i].id)
  }

  /** `[...lcs, { ...newLC, id: lcId }]`: the list after a successful create. */
  function AppendRecord(lcs: seq<LetterOfCredit>, d: Draft, id: string): (r: seq<LetterOfCredit>)
    ensures |r| == |lcs| + 1
    ensures r[..|lcs|] == lcs
    ensures r[|lcs|].id == id && r[|lcs|].documentHash == None
    ensures r[|lcs|].seller == d.seller && r[|lcs|].sellerBank == d.sellerBank
    ensures r[|lcs|].amount == d.amount && r[|lcs|].expiryDays == d.expiryDays
  {
    lcs + [FromDraft(d, id)]
  }

  /** `lcs.map(lc => lc.id === lcId ? { ...lc, documentHash } : lc)`:
      every record with the given id gets the hash, every other record is
      kept as it is, and the list keeps its length and order. */
  function AttachDocument(lcs: seq<LetterOfCredit>, id: string, hash: string): (r: seq<LetterOfCredit>)
    ensures |r| == |lcs|
    ensures forall i :: 0 <= i < |lcs| && lcs[i].id == id ==>
              r[i] == lcs[i].(documentHash := Some(hash))
    ensures forall i :: 0 <= i < |lcs| && lcs[i].id != id ==> r[i] == lcs[i]
  {
    if lcs == [] then []
    else
      var head := if lcs[0].id == id then lcs[0].(documentHash := Some(hash)) else lcs[0];
      [head] + AttachDocument(lcs[1..], id, hash)
  }

  // Render conditions of the component.

  /** The create button is disabled while an operation is in flight. */
  predicate CreateDisabled(loading: bool)
  {
    loading
  }

  /** The button's text: `loading ? 'Creating...' : 'Create LC'`. */
  function ButtonLabel(loading: bool): string
  {
    if loading then "Creating..." else "Create LC"
  }

  /** `{error && <Alert …>}`: the banner is shown only for a truthy message. */
  predicate ErrorBannerVisible(error: Option<string>)
  {
    Truthy(error)
  }

  /** `{!lc.documentHash && <Input type="file" …>}`. */
  predicate UploadOffered(lc: LetterOfCredit)
  {
    !Truthy(lc.documentHash)
  }

  /** `{lcs.length === 0 && <p>No active letters of credit</p>}`. */
  predicate EmptyNoticeVisible(lcs: seq<LetterOfCredit>)
  {
    |lcs| == 0
  }

  // Properties of the list transformations.

  /** A create adds exactly its own id at the end of the id sequence. */
  lemma AppendRecordIds(lcs: seq<LetterOfCredit>, d: Draft, id: string)
    ensures IdsOf(AppendRecord(lcs, d, id)) == IdsOf(lcs) + [id]
  {
  }

  /** A freshly created record offers the document upload and leaves the
      empty-list notice hidden. */
  lemma CreatedRecordOffersUpload(lcs: seq<LetterOfCredit>, d: Draft, id: string)
    ensures UploadOffered(AppendRecord(lcs, d, id)[|lcs|])
    ensures !EmptyNoticeVisible(AppendRecord(lcs, d, id))
  {
  }

  /** Ids are not checked for uniqueness: creating with an id already in the
      list yields two records carrying it. */
  lemma DuplicateIdAccepted(lcs: seq<LetterOfCredit>, d: Draft, k: nat)
    requires k < |lcs|
    ensures var r := AppendRecord(lcs, d, lcs[k].id);
            exists i, j :: 0 <= i < j < |r| && r[i].id == lcs[k].id && r[j].id == lcs[k].id
  {
    var r := AppendRecord(lcs, d, lcs[k].id);
    assert r[k] == r[..|lcs|][k];
    assert 0 <= k < |lcs| < |r| && r[k].id == lcs[k].id && r[|lcs|].id == lcs[k].id;
  }

  /** An upload never changes which records exist nor their order. */
  lemma AttachDocumentIds(lcs: seq<LetterOfCredit>, id: string, hash: string)
    ensures IdsOf(AttachDocument(lcs, id, hash)) == IdsOf(lcs)
  {
  }

  /** An upload for an id that no record carries leaves the list as it was. */
  lemma AttachDocumentNoMatch(lcs: seq<LetterOfCredit>, id: string, hash: string)
    requires forall i :: 0 <= i < |lcs| ==> lcs[i].id != id
    ensures AttachDocument(lcs, id, hash) == lcs
  {
  }

  /** A second upload for the same id replaces the first hash: the list
      operation itself does not enforce "at most one document". */
  lemma AttachDocumentOverwrites(lcs: seq<LetterOfCredit>, id: string, h1: string, h2: string)
    ensures AttachDocument(AttachDocument(lcs, id, h1), id, h2) == AttachDocument(lcs, id, h2)
  {
  }

  /** Uploads against different ids touch disjoint records and commute. */
  lemma AttachDocumentCommutes(lcs: seq<LetterOfCredit>, id1: string, h1: string, id2: string, h2: string)
    requires id1 != id2
    ensures AttachDocument(AttachDocument(lcs, id1, h1), id2, h2)
         == AttachDocument(AttachDocument(lcs, id2, h2), id1, h1)
  {
  }

  /** After an upload with a non-empty hash, no record with that id offers the
      upload input any more; an empty hash is falsy and leaves it offered. */
  lemma AttachDocumentWithdrawsUpload(lcs: seq<LetterOfCredit>, id: string, hash: string, i: nat)
    requires i < |lcs| && lcs[i].id == id
    ensures UploadOffered(AttachDocument(lcs, id, hash)[i]) <==> hash == ""
  {
  }

  /** Creating a record and then uploading against its id, when the id was not
      yet in use, leaves the earlier records untouched and stamps only the new one. */
  lemma CreateThenUpload(lcs: seq<LetterOfCredit>, d: Draft, id: string, hash: string)
    requires forall i :: 0 <= i < |lcs| ==> lcs[i].id != id
    ensures AttachDocument(AppendRecord(lcs, d, id), id, hash)
         == lcs + [FromDraft(d, id).(documentHash := Some(hash))]
  {
  }
}
