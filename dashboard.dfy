/**
 * The admin dashboard's state and its save handler (src/pages/Admin/Dashboard.tsx,
 * lines 9-75): guard on authorisation and on a configured spreadsheet id, then
 * either locate-then-overwrite the edited product's row or append a new row,
 * and mirror the change in the local product list.
 */
module Dashboard {
  import opened Types
  import opened SheetsAdmin

  /** What `handleSave` ended with. */
  datatype SaveOutcome =
    | ConnectRequested          // not authorised: the consent flow was requested instead
    | SheetIdRequested          // no spreadsheet id: the operator was asked for one instead
    | NotFoundInSheet           // editing, and the id is not in column A: nothing written
    | Updated                   // the located row was overwritten
    | Added                     // a row was appended
    | Failed(error: AdminError) // a remote call threw

  /** `products.map(p => p.id === product.id ? product : p)`. */
  function ReplaceById(products: seq<Product>, product: Product): (r: seq<Product>)
    ensures |r| == |products|
    ensures forall i :: 0 <= i < |products| ==>
              r[i] == if products[i].id == product.id then product else products[i]
  {
    if products == [] then []
    else [if products[0].id == product.id then product else products[0]] + ReplaceById(products[1..], product)
  }

  /** After an edit, the edited product stands in for every local entry with its id, and
      a second identical edit changes nothing more. */
  lemma {:induction false} ReplaceByIdIdempotent(products: seq<Product>, product: Product)
    ensures ReplaceById(ReplaceById(products, product), product) == ReplaceById(products, product)
    ensures forall p :: p in ReplaceById(products, product) && p.id == product.id ==> p == product
  {
    var once := ReplaceById(products, product);
    forall p | p in once && p.id == product.id ensures p == product {
      var i :| 0 <= i < |once| && once[i] == p;
    }
  }

  /** The dashboard component's state. */
  class AdminDashboard {
    var products: seq<Product>
    var spreadsheetId: string
    var isAuthorized: bool
    var isEditorOpen: bool
    var editingProduct: Option<Product>
    const session: AdminSession
    const sheet: Spreadsheet

    /** The dashboard is marked authorised only after the session holds a token. */
    ghost predicate Valid()
      reads this, session
    {
      isAuthorized ==> session.HasToken()
    }

    /** The first render: an empty list, the saved spreadsheet id or '', not authorised, editor closed. */
    constructor (session: AdminSession, sheet: Spreadsheet, savedSheetId: Option<string>)
      ensures Valid()
      ensures this.session == session && this.sheet == sheet
      ensures products == [] && spreadsheetId == savedSheetId.GetOr("")
      ensures !isAuthorized && !isEditorOpen && editingProduct == None
    {
      this.session := session;
      this.sheet := sheet;
      products := [];
      spreadsheetId := savedSheetId.GetOr("");
      isAuthorized := false;
      isEditorOpen := false;
      editingProduct := None;
    }

    /** The mount effect: set up the token client. */
    method Mount(googleLoaded: bool)
      requires Valid()
      modifies session
      ensures Valid()
      ensures session.clientReady == (old(session.clientReady) || googleLoaded)
      ensures session.accessToken == old(session.accessToken)
    {
      session.InitGoogleAuth(googleLoaded);
    }

    /** The effect on the fetched catalog: it replaces the local list only when it is non-empty. */
    method SeedProducts(initial: seq<Product>)
      requires Valid()
      modifies this`products
      ensures Valid()
      ensures products == if |initial| > 0 then initial else old(products)
    {
      if |initial| > 0 {
        products := initial;
      }
    }

    /** The callback passed to `initGoogleAuth`: a delivered token marks the dashboard authorised. */
    method OnTokenResponse(accessTokenField: Option<string>)
      requires Valid() && session.clientReady
      modifies this`isAuthorized, session
      ensures Valid()
      ensures isAuthorized == (old(isAuthorized) || (accessTokenField.Some? && accessTokenField.value != ""))
      ensures session.clientReady
      ensures session.accessToken ==
                if accessTokenField.Some? && accessTokenField.value != "" then accessTokenField else old(session.accessToken)
    {
      var granted := session.OnTokenResponse(accessTokenField);
      if granted.Some? {
        isAuthorized := true;
      }
    }

    /** `handleAddStart`. */
    method HandleAddStart()
      requires Valid()
      modifies this`editingProduct, this`isEditorOpen
      ensures Valid()
      ensures editingProduct == None && isEditorOpen
    {
      editingProduct := None;
      isEditorOpen := true;
    }

    /** `handleEditStart`. */
    method HandleEditStart(product: Product)
      requires Valid()
      modifies this`editingProduct, this`isEditorOpen
      ensures Valid()
      ensures editingProduct == Some(product) && isEditorOpen
    {
      editingProduct := Some(product);
      isEditorOpen := true;
    }

    /** `handleSaveSheetId`: a non-empty answer to the prompt becomes the spreadsheet id. */
    method HandleSaveSheetId(answer: Option<string>)
      requires Valid()
      modifies this`spreadsheetId
      ensures Valid()
      ensures spreadsheetId == if answer.Some? && answer.value != "" then answer.value else old(spreadsheetId)
    {
      if answer.Some? && answer.value != "" {
        spreadsheetId := answer.value;
      }
    }

    /** `handleSave`. `prompted` answers the spreadsheet-id prompt; `locate` and `write` are the store's
        answers to the column read and to the write. */
    method HandleSave(product: Product, prompted: Option<string>, locate: RemoteResponse, write: RemoteResponse)
      returns (outcome: SaveOutcome)
      requires Valid()
      modifies this`products, this`spreadsheetId, sheet
      ensures Valid()
      ensures outcome != Failed(NoAccessToken)
      // not authorised: no remote call at all
      ensures !old(isAuthorized) ==> outcome == ConnectRequested
      // no spreadsheet id: no remote call at all
      ensures old(isAuthorized) && old(spreadsheetId) == "" ==> outcome == SheetIdRequested
      ensures outcome in {ConnectRequested, SheetIdRequested} ==> sheet.values == old(sheet.values)
      ensures outcome != SheetIdRequested ==> spreadsheetId == old(spreadsheetId)
      ensures outcome == SheetIdRequested ==>
                spreadsheetId == if prompted.Some? && prompted.value != "" then prompted.value else old(spreadsheetId)
      // editing: locate, then overwrite exactly the row found
      ensures old(isAuthorized) && old(spreadsheetId) != "" && editingProduct.Some? ==>
                match locate
                case Unreachable => outcome == Failed(NetworkError)
                case Rejected(_) => outcome == NotFoundInSheet
                case Accepted =>
                  var i := FindIndex(old(sheet.values), product.id);
                  if i == -1 then outcome == NotFoundInSheet
                  else match write
                    case Accepted => outcome == Updated
                    case Rejected(m) => outcome == Failed(RemoteError(m))
                    case Unreachable => outcome == Failed(NetworkError)
      // adding: append one row
      ensures old(isAuthorized) && old(spreadsheetId) != "" && editingProduct.None? ==>
                match write
                case Accepted => outcome == Added
                case Rejected(m) => outcome == Failed(RemoteError(m))
                case Unreachable => outcome == Failed(NetworkError)
      // the local list and the sheet change only together, and only after a successful write
      ensures outcome == Updated ==>
                editingProduct.Some? && locate.Accepted? && write.Accepted? &&
                FindIndex(old(sheet.values), product.id) >= 0 &&
                sheet.values == WriteRow(old(sheet.values), FindIndex(old(sheet.values), product.id), EncodeRow(product)) &&
                products == ReplaceById(old(products), product)
      ensures outcome == Added ==>
                editingProduct.None? && write.Accepted? &&
                sheet.values == old(sheet.values) + [Filled(EncodeRow(product))] &&
                products == old(products) + [product]
      ensures outcome !in {Updated, Added} ==> products == old(products) && sheet.values == old(sheet.values)
    {
      if !isAuthorized {
        var _ := session.RequestAccessToken();
        return ConnectRequested;
      }
      if spreadsheetId == "" {
        HandleSaveSheetId(prompted);
        return SheetIdRequested;
      }
      if editingProduct.Some? {
        var index := session.FindRowIndex(sheet, product.id, locate);
        if index.Failure? {
          return Failed(index.error);
        }
        if index.value == -1 {
          return NotFoundInSheet;
        }
        var written := session.UpdateRow(sheet, index.value, product, write);
        if written.Failure? {
          return Failed(written.error);
        }
        products := ReplaceById(products, product);
        outcome := Updated;
      } else {
        var appended := session.AppendRow(sheet, product, write);
        if appended.Failure? {
          return Failed(appended.error);
        }
        products := products + [product];
        outcome := Added;
      }
    }
  }
}
