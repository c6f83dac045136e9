/**
 * The state and the statable rules of `ProductsTable`: pagination,
 * search, the page-button range, the status badge, the `purchaseType`
 * normaliser, the create/update choice of `handleSave`, the `_id` guards
 * of the row actions and the defaulting of a listing response.
 *
 * Rows are the JSON objects the product listing returns (`Js.Value`); the
 * product service is an oracle of outcomes passed to each handler.
 */
module ProductsTable {
  import opened Js
  import opened Text
  import ProductsModal

  const ItemsPerPage: int := 10

  // ----- Pagination -----

  function Min(a: int, b: int): int { if a <= b then a else b }
  function Max(a: int, b: int): int { if a >= b then a else b }

  /** The Previous button: `Math.max(prev - 1, 1)`, never below page 1. */
  function PreviousPage(page: int): (r: int)
    ensures r >= 1
    ensures page > 1 ==> r == page - 1
    ensures page <= 1 ==> r == 1
  {
    Max(page - 1, 1)
  }

  /** The Next button: `Math.min(prev + 1, totalPages)`, never above the last page. */
  function NextPage(page: int, totalPages: int): (r: int)
    ensures r <= totalPages
    ensures page < totalPages ==> r == page + 1
    ensures page >= totalPages ==> r == totalPages
  {
    Min(page + 1, totalPages)
  }

  /** Inside the page range the two moves undo each other and never leave it. */
  lemma PageMovesInRange(page: int, totalPages: int)
    requires 1 <= page <= totalPages
    ensures 1 <= PreviousPage(page) <= totalPages && 1 <= NextPage(page, totalPages) <= totalPages
    ensures page < totalPages ==> PreviousPage(NextPage(page, totalPages)) == page
    ensures 1 < page ==> NextPage(PreviousPage(page), totalPages) == page
  {
  }

  /** A move is a no-op exactly when its button is disabled (`currentPage === 1`, `currentPage === totalPages`). */
  lemma DisabledButtonsDoNothing(page: int, totalPages: int)
    requires 1 <= page <= totalPages
    ensures PreviousPage(page) == page <==> page == 1
    ensures NextPage(page, totalPages) == page <==> page == totalPages
  {
  }

  /** Past the last page (the listing shrank under a refetch), Next moves back to the last page. */
  lemma NextMovesBackPastTheEnd(page: int, totalPages: int)
    requires page > totalPages
    ensures NextPage(page, totalPages) == totalPages < page
  {
  }

  /**
   * `Array.from({ length: Math.min(5, totalPages) }, (_, i) => i + 1)`: the
   * page buttons are 1, 2, … up to five and not beyond the last page; a
   * negative length is clamped to 0.
   */
  function PageButtons(totalPages: int): (r: seq<int>)
    ensures |r| == Max(0, Min(5, totalPages))
    ensures forall i :: 0 <= i < |r| ==> r[i] == i + 1
    ensures forall i :: 0 <= i < |r| ==> 1 <= r[i] <= totalPages && r[i] <= 5
    ensures forall i, j :: 0 <= i < j < |r| ==> r[i] < r[j]
  {
    seq(Max(0, Min(5, totalPages)), i => i + 1)
  }

  /** A page number has a button exactly when it lies in 1..min(5, totalPages). */
  lemma PageButtonsMembership(totalPages: int, n: int)
    ensures n in PageButtons(totalPages) <==> 1 <= n <= Min(5, totalPages)
  {
    var r := PageButtons(totalPages);
    if 1 <= n <= Min(5, totalPages) {
      assert r[n - 1] == n;
    }
  }

  // ----- The status badge -----

  datatype Status = Approved | PendingApproval | UnderVerification

  /** `product.isApproved`, read as JavaScript truthiness. */
  predicate IsApproved(product: Value) {
    IsTruthy(Get(Some(product), "isApproved"))
  }

  predicate IsVerified(product: Value) {
    IsTruthy(Get(Some(product), "isVerified"))
  }

  /** `getStatusBadge`: approval takes precedence over verification. */
  function StatusOf(product: Value): (s: Status)
    ensures s == Approved <==> IsApproved(product)
    ensures s == PendingApproval <==> !IsApproved(product) && IsVerified(product)
    ensures s == UnderVerification <==> !IsApproved(product) && !IsVerified(product)
  {
    if IsApproved(product) then Approved
    else if IsVerified(product) then PendingApproval
    else UnderVerification
  }

  function StatusLabel(s: Status): (badge: string)
    ensures s == Approved ==> badge == "Approved"
    ensures s == PendingApproval ==> badge == "Pending Approval"
    ensures s == UnderVerification ==> badge == "Under Verification"
  {
    match s
    case Approved => "Approved"
    case PendingApproval => "Pending Approval"
    case UnderVerification => "Under Verification"
  }

  /** The three badges read differently, so the badge identifies the status. */
  lemma StatusLabelsDistinct(s: Status, t: Status)
    ensures StatusLabel(s) == StatusLabel(t) <==> s == t
  {
  }

  // ----- The purchase type -----

  datatype PurchaseType = Full | Partial

  function PurchaseTypeLabel(t: PurchaseType): string {
    match t
    case Full => "full"
    case Partial => "partial"
  }

  /** `String(x)` for a property that is either a string or `undefined`. */
  function JsString(o: Option<string>): (s: string)
    ensures o.Some? ==> s == o.value
    ensures o.None? ==> s == "undefined"
  {
    if o.Some? then o.value else "undefined"
  }

  /** `String(purchaseType).trim().toLowerCase() === "full" ? "full" : "partial"` */
  function NormalizePurchaseType(raw: Option<string>): PurchaseType {
    if ToLower(Trim(JsString(raw))) == "full" then Full else Partial
  }

  /** `text` is the word "full", in any letter case, padded by whitespace only: it occupies `text[i..j]`. */
  predicate FullWordAt(text: string, i: int, j: int) {
    0 <= i <= j <= |text| && AllWhitespace(text[..i]) && AllWhitespace(text[j..]) && ToLower(text[i..j]) == "full"
  }

  /** Whatever the normaliser reads as `full` is the word "full" between runs of whitespace. */
  lemma FullIsPaddedWord(text: string) returns (i: int, j: int)
    requires NormalizePurchaseType(Some(text)) == Full
    ensures FullWordAt(text, i, j)
  {
    var a, b := TrimIsMiddleSlice(text);
    i, j := a, b;
    assert AllWhitespace(text[..i]) by {
      forall k | 0 <= k < i ensures IsWhitespace(text[..i][k]) {
        assert text[..i][k] == text[k];
      }
    }
    assert AllWhitespace(text[j..]) by {
      forall k | 0 <= k < |text| - j ensures IsWhitespace(text[j..][k]) {
        assert text[j..][k] == text[j + k];
      }
    }
  }

  /** The word "full" in any case between runs of whitespace is read as `full`. */
  lemma PaddedWordIsFull(text: string, i: int, j: int)
    requires FullWordAt(text, i, j)
    ensures NormalizePurchaseType(Some(text)) == Full
  {
    var core := text[i..j];
    var low := ToLower(core);
    assert |core| == 4 && low[0] == 'f' && low[3] == 'l';
    LetterIsNotWhitespace(core[0]);
    LetterIsNotWhitespace(core[3]);
    assert text == text[..i] + core + text[j..];
    TrimPadded(text[..i], core, text[j..]);
  }

  /** The normaliser answers `full` exactly for the word "full" in any case with any whitespace around it. */
  lemma FullExactlyForPaddedWord(text: string)
    ensures NormalizePurchaseType(Some(text)) == Full <==> exists i, j :: FullWordAt(text, i, j)
  {
    if NormalizePurchaseType(Some(text)) == Full {
      var i, j := FullIsPaddedWord(text);
    }
    if exists i, j :: FullWordAt(text, i, j) {
      var i, j :| FullWordAt(text, i, j);
      PaddedWordIsFull(text, i, j);
    }
  }

  /** An upper-case word padded by a space and a line feed normalises to `full`. */
  lemma PaddedUpperCaseIsFull()
    ensures NormalizePurchaseType(Some(" FULL\n")) == Full
  {
    var text := " FULL\n";
    assert text[..1] == " " && text[5..] == "\n" && text[1..5] == "FULL";
    var low := ToLower("FULL");
    assert low[0] == 'f' && low[1] == 'u' && low[2] == 'l' && low[3] == 'l';
    assert low == "full";
    assert IsWhitespace(' ') && IsWhitespace('\n');
    PaddedWordIsFull(text, 1, 5);
  }

  /** A lower-case word without surrounding whitespace is read as itself. */
  lemma NormalizeBareWord(w: string)
    requires w != [] && !IsWhitespace(w[0]) && !IsWhitespace(w[|w| - 1])
    requires forall i :: 0 <= i < |w| ==> !('A' <= w[i] <= 'Z')
    ensures NormalizePurchaseType(Some(w)) == (if w == "full" then Full else Partial)
  {
    assert AllWhitespace([]);
    TrimPadded([], w, []);
    assert [] + w + [] == w;
    assert Trim(JsString(Some(w))) == w;
    LowerCaseIsFixed(w);
    assert ToLower(Trim(JsString(Some(w)))) == w;
  }

  /** The normaliser maps its own output to itself. */
  lemma NormalizeIsIdempotent(t: PurchaseType)
    ensures NormalizePurchaseType(Some(PurchaseTypeLabel(t))) == t
  {
    var w := PurchaseTypeLabel(t);
    assert w[0] in "fp" && w[|w| - 1] in "ll";
    NormalizeBareWord(w);
  }

  /**
   * A form without a `purchaseType` property stringifies it as "undefined",
   * so every product the modal saves is `partial`.
   */
  lemma AbsentPurchaseTypeIsPartial()
    ensures NormalizePurchaseType(None) == Partial
  {
    var s := "undefined";
    assert AllWhitespace([]);
    TrimPadded([], s, []);
    assert [] + s + [] == s;
  }

  // ----- Saving -----

  /** `processedData`: the form with its normalised purchase type; the numbers are numbers already. */
  datatype Processed = Processed(form: ProductsModal.ProductForm, purchaseType: PurchaseType)

  datatype SaveRequest = Update(id: Value, data: Processed) | Create(data: Processed)

  /** The product being edited has a truthy `_id`. */
  predicate HasId(editProduct: Option<Value>) {
    IsTruthy(editProduct) && IsTruthy(Get(editProduct, "_id"))
  }

  /** `editProduct && editProduct._id ? update({ id, ...processedData }) : create(processedData)` */
  function SaveRequestFor(editProduct: Option<Value>, data: Processed): (r: SaveRequest)
    ensures r.data == data
    ensures r.Update? <==> HasId(editProduct)
    ensures r.Update? ==> Get(editProduct, "_id") == Some(r.id) && Truthy(r.id)
  {
    if HasId(editProduct) then Update(Get(editProduct, "_id").value, data) else Create(data)
  }

  /** Adding a product (no product being edited) always creates. */
  lemma AddAlwaysCreates(data: Processed)
    ensures SaveRequestFor(None, data) == Create(data)
  {
  }

  // ----- Row actions -----

  datatype RowAction = Delete | Verify | Approve

  /** What a product-service call did: the value it resolved to, or a rejection. */
  datatype ServiceOutcome = Returned(result: Option<Value>) | Threw

  /** The fate of a row action: skipped by the `_id` guard, declined in the dialog, or sent. */
  datatype ActionPlan = Skipped | Declined | Sent(id: Value, refetch: bool)

  /**
   * `handleDelete`, `handleVerify`, `handleApprove`: nothing happens without
   * a truthy `_id`; a declined confirmation sends nothing; a sent action
   * refetches when the call resolved and, for verify and approve, its result
   * is not `false`.
   */
  function PlanAction(action: RowAction, product: Value, confirmed: bool, outcome: ServiceOutcome): (p: ActionPlan)
    ensures p == Skipped <==> !IsTruthy(Get(Some(product), "_id"))
    ensures p == Declined <==> IsTruthy(Get(Some(product), "_id")) && !confirmed
    ensures p.Sent? ==> confirmed && Get(Some(product), "_id") == Some(p.id)
    ensures p.Sent? ==> (p.refetch <==> outcome.Returned? && (action == Delete || outcome.result != Some(Bool(false))))
  {
    var id := Get(Some(product), "_id");
    if !IsTruthy(id) then Skipped
    else if !confirmed then Declined
    else Sent(id.value, outcome.Returned? && (action == Delete || outcome.result != Some(Bool(false))))
  }

  /** A verify or approve call that resolves to nothing (`undefined`) still refetches. */
  lemma UndefinedResultRefetches(action: RowAction, product: Value)
    requires IsTruthy(Get(Some(product), "_id"))
    ensures PlanAction(action, product, true, Returned(None)).refetch
  {
  }

  // ----- Listing responses -----

  /** The part of the component state a listing sets. */
  datatype Listing = Listing(docs: seq<Value>, totalDocs: int, totalPages: int)

  /** `response && response.data && Array.isArray(response.data.docs)` */
  predicate HasDocsArray(response: Option<Value>) {
    IsTruthy(response) && IsTruthy(Get(response, "data")) && Get(Get(response, "data"), "docs").Some?
    && Get(Get(response, "data"), "docs").value.Arr?
  }

  /** `response && response.data && Array.isArray(response.data.docs) ? response.data.docs : []` */
  function DocsOf(response: Option<Value>): (docs: seq<Value>)
    ensures HasDocsArray(response) ==> docs == Get(Get(response, "data"), "docs").value.items
    ensures !HasDocsArray(response) ==> docs == []
  {
    var data := Get(response, "data");
    if IsTruthy(response) && IsTruthy(data) then
      match Get(data, "docs")
      case Some(Arr(items)) => items
      case _ => []
    else []
  }

  /**
   * The defaulting in `fetchProducts`: docs that are not an array become
   * `[]`, `totalDocs` is `Number(totalDocs) || docs.length || 0`, and
   * `totalPages` is `Number(totalPages) || 1`.
   */
  function ReadListing(response: Option<Value>, parseNumber: string -> Option<int>): (l: Listing)
    ensures l.docs == DocsOf(response)
    ensures l.totalPages != 0
    ensures l.totalPages == NumberOr(ToNumber(Get(Get(response, "data"), "totalPages"), parseNumber), 1)
    ensures l.totalDocs == NumberOr(ToNumber(Get(Get(response, "data"), "totalDocs"), parseNumber), |l.docs|)
  {
    var data := Get(response, "data");
    var docs := DocsOf(response);
    Listing(docs,
            NumberOr(ToNumber(Get(data, "totalDocs"), parseNumber), NumberOr(Some(|docs|), 0)),
            NumberOr(ToNumber(Get(data, "totalPages"), parseNumber), 1))
  }

  /** A missing response, or one without `data`, lists nothing on one page. */
  lemma EmptyResponseDefaults(response: Option<Value>, parseNumber: string -> Option<int>)
    requires !IsTruthy(Get(response, "data"))
    ensures ReadListing(response, parseNumber) == Listing([], 0, 1)
  {
  }

  /** Without counts, the docs' length is the total and there is one page. */
  lemma DocsWithoutCounts(docs: seq<Value>, parseNumber: string -> Option<int>)
    ensures ReadListing(Some(Obj(map["data" := Obj(map["docs" := Arr(docs)])])), parseNumber) == Listing(docs, |docs|, 1)
  {
    var response := Some(Obj(map["data" := Obj(map["docs" := Arr(docs)])]));
    assert Get(response, "data") == Some(Obj(map["docs" := Arr(docs)]));
    assert Get(Get(response, "data"), "totalDocs") == None;
  }

  /** What one `ProductService.list` call did. */
  datatype ListOutcome = Listed(response: Option<Value>) | ListFailed

  /** The listing after a fetch: replaced when the call resolved, kept when it threw. */
  function Refreshed(current: Listing, outcome: ListOutcome, parseNumber: string -> Option<int>): (l: Listing)
    ensures outcome.ListFailed? ==> l == current
    ensures outcome.Listed? ==> l == ReadListing(outcome.response, parseNumber)
  {
    match outcome
    case Listed(response) => ReadListing(response, parseNumber)
    case ListFailed => current
  }

  /** The query `fetchProducts` sends. */
  datatype ListQuery = ListQuery(page: int, limit: int, search: string)

  /** The component state of `ProductsTable`. */
  class TableState {
    var productsData: seq<Value>
    var searchTerm: string
    var currentPage: int
    var isModalOpen: bool
    var editProduct: Option<Value>
    var loading: bool
    var totalDocs: int
    var totalPages: int
    var selectedProduct: Option<Value>

    function CurrentListing(): Listing
      reads this
    {
      Listing(productsData, totalDocs, totalPages)
    }

    /** The initial `useState` values. */
    constructor ()
      ensures productsData == [] && searchTerm == "" && currentPage == 1
      ensures !isModalOpen && editProduct.None? && loading
      ensures totalDocs == 0 && totalPages == 1 && selectedProduct.None?
    {
      productsData := [];
      searchTerm := "";
      currentPage := 1;
      isModalOpen := false;
      editProduct := None;
      loading := true;
      totalDocs := 0;
      totalPages := 1;
      selectedProduct := None;
    }

    /**
     * `fetchProducts()`: asks for the current page and search term, sets the
     * listing from the response (or keeps it when the call throws) and ends
     * with `loading` false.
     */
    method FetchProducts(outcome: ListOutcome, parseNumber: string -> Option<int>) returns (query: ListQuery)
      modifies this
      ensures query == ListQuery(currentPage, ItemsPerPage, searchTerm)
      ensures CurrentListing() == Refreshed(old(CurrentListing()), outcome, parseNumber)
      ensures !loading
      ensures searchTerm == old(searchTerm) && currentPage == old(currentPage)
      ensures isModalOpen == old(isModalOpen) && editProduct == old(editProduct)
      ensures selectedProduct == old(selectedProduct)
    {
      loading := true;
      query := ListQuery(currentPage, ItemsPerPage, searchTerm);
      if outcome.Listed? {
        var l := ReadListing(outcome.response, parseNumber);
        productsData := l.docs;
        totalDocs := l.totalDocs;
        totalPages := l.totalPages;
      }
      loading := false;
    }

    /** Typing in the search box sets the term and goes back to page 1. */
    method ChangeSearch(term: string)
      modifies this
      ensures searchTerm == term && currentPage == 1
      ensures CurrentListing() == old(CurrentListing()) && loading == old(loading)
      ensures isModalOpen == old(isModalOpen) && editProduct == old(editProduct)
      ensures selectedProduct == old(selectedProduct)
    {
      searchTerm := term;
      currentPage := 1;
    }

    method ClickPrevious()
      modifies this`currentPage
      ensures currentPage == PreviousPage(old(currentPage))
    {
      currentPage := PreviousPage(currentPage);
    }

    method ClickNext()
      modifies this`currentPage
      ensures currentPage == NextPage(old(currentPage), totalPages)
    {
      currentPage := NextPage(currentPage, totalPages);
    }

    /** A page button sets the page to its number. */
    method ClickPage(n: int)
      requires n in PageButtons(totalPages)
      modifies this`currentPage
      ensures currentPage == n && 1 <= currentPage <= totalPages
    {
      currentPage := n;
    }

    method HandleEdit(product: Value)
      modifies this`editProduct, this`isModalOpen
      ensures editProduct == Some(product) && isModalOpen
    {
      editProduct := Some(product);
      isModalOpen := true;
    }

    /** The Add Product button. */
    method AddProduct()
      modifies this`editProduct, this`isModalOpen
      ensures editProduct.None? && isModalOpen
    {
      editProduct := None;
      isModalOpen := true;
    }

    /** The modal's `onClose`. */
    method CloseModal()
      modifies this`editProduct, this`isModalOpen
      ensures editProduct.None? && !isModalOpen
    {
      isModalOpen := false;
      editProduct := None;
    }

    method HandleView(product: Value)
      modifies this`selectedProduct
      ensures selectedProduct == Some(product)
    {
      selectedProduct := Some(product);
    }

    /**
     * `handleSave(productData)`: `purchaseType` is the data's `purchaseType`
     * property (`None` when absent, as for every form from the modal). Sends
     * the create or update request; when it succeeds the modal closes, the
     * product being edited is cleared and the listing is fetched again; when
     * it throws nothing changes.
     */
    method HandleSave(form: ProductsModal.ProductForm, purchaseType: Option<string>, saved: bool,
                      refetch: ListOutcome, parseNumber: string -> Option<int>) returns (request: SaveRequest)
      modifies this
      ensures request == SaveRequestFor(old(editProduct), Processed(form, NormalizePurchaseType(purchaseType)))
      ensures saved ==> !isModalOpen && editProduct.None? && !loading
                        && CurrentListing() == Refreshed(old(CurrentListing()), refetch, parseNumber)
      ensures !saved ==> isModalOpen == old(isModalOpen) && editProduct == old(editProduct)
                         && CurrentListing() == old(CurrentListing()) && loading == old(loading)
      ensures searchTerm == old(searchTerm) && currentPage == old(currentPage)
      ensures selectedProduct == old(selectedProduct)
    {
      var data := Processed(form, NormalizePurchaseType(purchaseType));
      request := SaveRequestFor(editProduct, data);
      FinishSave(saved, refetch, parseNumber);
    }

    /** What follows the request: on success close the modal, clear the edited product and refetch. */
    method FinishSave(saved: bool, refetch: ListOutcome, parseNumber: string -> Option<int>)
      modifies this
      ensures saved ==> !isModalOpen && editProduct.None? && !loading
                        && CurrentListing() == Refreshed(old(CurrentListing()), refetch, parseNumber)
      ensures !saved ==> isModalOpen == old(isModalOpen) && editProduct == old(editProduct)
                         && CurrentListing() == old(CurrentListing()) && loading == old(loading)
      ensures searchTerm == old(searchTerm) && currentPage == old(currentPage)
      ensures selectedProduct == old(selectedProduct)
    {
      if saved {
        isModalOpen := false;
        editProduct := None;
        var _ := FetchProducts(refetch, parseNumber);
      }
    }

    /** A row's delete, verify or approve button. */
    method HandleAction(action: RowAction, product: Value, confirmed: bool, outcome: ServiceOutcome,
                        refetch: ListOutcome, parseNumber: string -> Option<int>) returns (plan: ActionPlan)
      modifies this
      ensures plan == PlanAction(action, product, confirmed, outcome)
      ensures plan.Sent? && plan.refetch ==> CurrentListing() == Refreshed(old(CurrentListing()), refetch, parseNumber) && !loading
      ensures !(plan.Sent? && plan.refetch) ==> CurrentListing() == old(CurrentListing()) && loading == old(loading)
      ensures searchTerm == old(searchTerm) && currentPage == old(currentPage)
      ensures isModalOpen == old(isModalOpen) && editProduct == old(editProduct)
      ensures selectedProduct == old(selectedProduct)
    {
      plan := PlanAction(action, product, confirmed, outcome);
      if plan.Sent? && plan.refetch {
        var _ := FetchProducts(refetch, parseNumber);
      }
    }
  }
}
