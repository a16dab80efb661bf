/**
 * The operator's write path to the catalog sheet (src/services/googleSheetsAdmin.ts):
 * the access-token state fed by the consent callback, the fixed nine-column
 * row codec, the first-match scan of column A, append, overwrite of columns
 * A..I by 1-based range, and the refused delete.
 *
 * The remote worksheet is a `Spreadsheet` object whose rows the calls
 * change; the store's answer to each request is an input.
 */
module SheetsAdmin {
  import opened Types
  import opened Text
  import Catalog

  /** The worksheet's columns A through I. */
  const Columns: nat := 9

  /** The wire order of the columns, as the sheet's header row names them. */
  const Header: seq<string> := ["id", "name", "price", "category", "image", "images", "sizes", "colors", "description"]

  /** How the store answered a request. */
  datatype RemoteResponse = Accepted | Rejected(message: string) | Unreachable

  /** The errors the admin calls throw. */
  datatype AdminError =
    | NoAccessToken              // 'No access token'
    | RemoteError(message: string) // the store's `error.message` for a non-ok response
    | NetworkError               // `fetch` itself rejected
    | DeleteUnsupported          // 'Delete not supported in this version. ...'

  // ----- The row codec -----

  /** One cell of the `values` row sent to the store. `None` is a cell that `JSON.stringify` sends as
      `null` (a NaN number, an `undefined` field); the store skips such a cell rather than clearing it. */
  type Cell = Option<string>

  /** What a cell leaves in a row the store creates: a skipped cell stays empty. */
  function CellText(c: Cell): string
  {
    c.GetOr("")
  }

  /** The stored row an appended `values` row becomes. */
  function Filled(cells: seq<Cell>): (row: seq<string>)
    ensures |row| == |cells|
    ensures forall k :: 0 <= k < |cells| ==> row[k] == CellText(cells[k])
  {
    seq(|cells|, k requires 0 <= k < |cells| => CellText(cells[k]))
  }

  /** The cell a number becomes: its decimal text, or `null` for NaN. */
  function PriceCell(p: Price): (c: Cell)
    ensures c.None? <==> p.NotANumber?
  {
    match p
    case NotANumber => None
    case Cents(c) => Some(if c < 0 then "-" + AmountText(-c) else AmountText(c))
  }

  /** `String(n)` for a non-negative amount in cents: the whole part, then the fraction's digits
      without trailing zeros. */
  function AmountText(a: nat): string
  {
    var whole := NatText(a / 100);
    var frac := a % 100;
    if frac == 0 then whole
    else if frac % 10 == 0 then whole + "." + NatText(frac / 10)
    else whole + "." + NatText(frac / 10) + NatText(frac % 10)
  }

  /** A whole amount is written without a fraction: 249.00 is "249". */
  lemma PriceCellWhole(units: nat)
    ensures PriceCell(Cents(100 * units)) == Some(NatText(units))
  {
    DivModHundred(units, 0);
  }

  /** The catalog's 249.00 goes to the sheet as "249". */
  lemma PriceCellExample()
    ensures PriceCell(Cents(24900)) == Some("249")
  {
    PriceCellWhole(249);
    assert NatText(249) == "249" by {
      assert NatText(2) == "2";
      assert NatText(24) == "24";
    }
  }

  /** A fraction is written as its tenths digit, then its hundredths digit unless that is zero:
      19.50 is "19.5", 19.05 is "19.05". */
  lemma PriceCellFraction(units: nat, frac: nat)
    requires 0 < frac < 100
    ensures frac % 10 == 0 ==> PriceCell(Cents(100 * units + frac)) == Some(NatText(units) + "." + NatText(frac / 10))
    ensures frac % 10 != 0 ==>
              PriceCell(Cents(100 * units + frac)) == Some(NatText(units) + "." + NatText(frac / 10) + NatText(frac % 10))
  {
    PriceCellNonNegative(100 * units + frac);
    if frac % 10 == 0 {
      AmountTextTenths(units, frac);
    } else {
      AmountTextHundredths(units, frac);
    }
  }

  lemma PriceCellNonNegative(a: nat)
    ensures PriceCell(Cents(a)) == Some(AmountText(a))
  {
  }

  lemma AmountTextTenths(units: nat, frac: nat)
    requires 0 < frac < 100 && frac % 10 == 0
    ensures AmountText(100 * units + frac) == NatText(units) + "." + NatText(frac / 10)
  {
    DivModHundred(units, frac);
  }

  lemma AmountTextHundredths(units: nat, frac: nat)
    requires 0 < frac < 100 && frac % 10 != 0
    ensures AmountText(100 * units + frac) == NatText(units) + "." + NatText(frac / 10) + NatText(frac % 10)
  {
    DivModHundred(units, frac);
  }

  /** Whole units and cents below a hundred split apart again. */
  lemma DivModHundred(units: nat, frac: nat)
    requires frac < 100
    ensures (100 * units + frac) / 100 == units && (100 * units + frac) % 100 == frac
  {
  }

  /** A negative amount is its magnitude's text after a minus sign. */
  lemma PriceCellNegative(cents: int)
    requires cents > 0
    ensures PriceCell(Cents(-cents)).Some? && PriceCell(Cents(cents)).Some?
    ensures PriceCell(Cents(-cents)).value == "-" + PriceCell(Cents(cents)).value
  {
  }

  /** The cell a sizes or colors field becomes: `Array.isArray(v) ? v.join(',') : v`, so an absent
      list is an `undefined` field, sent as `null`. */
  function ListCell(o: Option<seq<string>>): (c: Cell)
    ensures c.None? <==> o.None?
  {
    if o.Some? then Some(Join(o.value, ",")) else None
  }

  /** The images cell: `Array.isArray(v) ? v.join(',') : ''`, so an absent gallery is an empty text. */
  function ImagesCell(o: Option<seq<string>>): (c: Cell)
    ensures c.Some?
    ensures o.None? ==> c == Some("")
  {
    Some(if o.Some? then Join(o.value, ",") else "")
  }

  /** A list survives being written to a cell and split back by the catalog: no item holds a comma,
      and it is not the one list whose join is indistinguishable from the empty list. */
  predicate CellSafe(items: seq<string>)
  {
    FreeOf(items, ',') && items != [""]
  }

  /** A comma-free list joined into a cell is split back to itself by the catalog. */
  lemma ListCellRoundTrip(items: seq<string>)
    ensures CellSafe(items) ==> Catalog.SplitCell(Join(items, ",")) == items
  {
    if CellSafe(items) && items != [] {
      if |items| > 1 {
        assert items == [items[0]] + items[1..];
        JoinCons(items[0], items[1..], ",");
        assert Join(items, ",")[|items[0]|] == ',';
      }
      assert Join(items, ",") != "";
      SplitJoin(items, ',');
    }
  }

  /** The `values` row `appendRow` and `updateRow` both send, in column order A..I. */
  function EncodeRow(p: Product): (cells: seq<Cell>)
    ensures |cells| == Columns
    ensures cells[0] == Some(p.id) && cells[1] == Some(p.name) && cells[3] == Some(p.category) &&
            cells[4] == Some(p.image) && cells[8] == p.description
    ensures cells[2].None? <==> p.price.NotANumber?
    ensures p.images.None? ==> cells[5] == Some("")
    ensures p.images.Some? && CellSafe(p.images.value) ==> cells[5].Some? && Catalog.SplitCell(cells[5].value) == p.images.value
    ensures cells[6].None? <==> p.sizes.None?
    ensures p.sizes.Some? && CellSafe(p.sizes.value) ==> cells[6].Some? && Catalog.SplitCell(cells[6].value) == p.sizes.value
    ensures cells[7].None? <==> p.colors.None?
    ensures p.colors.Some? && CellSafe(p.colors.value) ==> cells[7].Some? && Catalog.SplitCell(cells[7].value) == p.colors.value
  {
    ListCellRoundTrip(p.images.GetOr([]));
    ListCellRoundTrip(p.sizes.GetOr([]));
    ListCellRoundTrip(p.colors.GetOr([]));
    [Some(p.id), Some(p.name), PriceCell(p.price), Some(p.category), Some(p.image),
     ImagesCell(p.images), ListCell(p.sizes), ListCell(p.colors), p.description]
  }

  /** A product the catalog reads back unchanged, except for its gallery, which it never reads. */
  predicate SheetSafe(p: Product, parsePrice: string -> Price)
  {
    p.id != "" && p.name != "" && parsePrice(CellText(PriceCell(p.price))) == p.price &&
    p.sizes.Some? && CellSafe(p.sizes.value) &&
    p.colors.Some? && CellSafe(p.colors.value) &&
    p.description.Some?
  }

  /** A row appended by `appendRow` is read back by the storefront's catalog as the same product,
      without its gallery: the admin's codec and the catalog's ingestion agree on the columns. */
  lemma PublishedRowRoundTrip(p: Product, parsePrice: string -> Price)
    requires SheetSafe(p, parsePrice)
    ensures Catalog.ProductsOf([Catalog.RecordOfRow(Filled(EncodeRow(p)))], parsePrice) == [p.(images := None)]
  {
    var rec := Catalog.RecordOfRow(Filled(EncodeRow(p)));
    assert rec.sizes == EncodeRow(p)[6].value;
    assert rec.colors == EncodeRow(p)[7].value;
    assert Catalog.KeptRows([rec]) == [rec];
  }

  // ----- Locating a row -----

  /** `r[0] === productId` for a row of the column-A read; an empty cell comes back as an empty row,
      so it never matches. */
  predicate RowHasId(row: seq<string>, id: string)
  {
    |row| > 0 && row[0] != "" && row[0] == id
  }

  /** `rows.findIndex(r => r[0] === productId)`: the 0-based index of the first row with the id, or -1. */
  function FindIndex(rows: seq<seq<string>>, id: string): (r: int)
    ensures -1 <= r < |rows|
    ensures r == -1 <==> forall k :: 0 <= k < |rows| ==> !RowHasId(rows[k], id)
    ensures r >= 0 ==> RowHasId(rows[r], id) && forall k :: 0 <= k < r ==> !RowHasId(rows[k], id)
  {
    if rows == [] then -1
    else if RowHasId(rows[0], id) then 0
    else
      var k := FindIndex(rows[1..], id);
      assert forall j :: 1 <= j < |rows| ==> rows[j] == rows[1..][j - 1];
      if k == -1 then -1 else k + 1
  }

  // ----- Writing a row -----

  /** Row `oldRow` after a write of `cells` to its columns A..I: a written cell replaces the old one,
      a skipped cell keeps it (empty if the row was shorter), and cells beyond column I stay. */
  function MergeRow(oldRow: seq<string>, cells: seq<Cell>): (r: seq<string>)
    requires |cells| == Columns
    ensures |r| >= Columns
    ensures forall k :: 0 <= k < Columns ==>
              r[k] == if cells[k].Some? then cells[k].value else if k < |oldRow| then oldRow[k] else ""
    ensures |oldRow| > Columns ==> r[Columns..] == oldRow[Columns..]
  {
    seq(Columns, k requires 0 <= k < Columns =>
          if cells[k].Some? then cells[k].value else if k < |oldRow| then oldRow[k] else "")
    + (if |oldRow| > Columns then oldRow[Columns..] else [])
  }

  /** The sheet after a write of `cells` to the single row with 0-based index `i`, columns A..I:
      only that row changes, and rows below the end are created, empty, up to it. */
  function WriteRow(values: seq<seq<string>>, i: nat, cells: seq<Cell>): (r: seq<seq<string>>)
    requires |cells| == Columns
    ensures |r| == if i < |values| then |values| else i + 1
    ensures forall j :: 0 <= j < |values| && j != i ==> r[j] == values[j]
    ensures forall j :: |values| <= j < i ==> r[j] == []
    ensures r[i] == MergeRow(if i < |values| then values[i] else [], cells)
  {
    if i < |values| then values[i := MergeRow(values[i], cells)]
    else values + seq(i - |values|, _ => []) + [MergeRow([], cells)]
  }

  /** `updateRow`'s range `Sheet1!A{i+1}:I{i+1}`: the store numbers rows from 1, so a negative index
      names row 0 or a negative row, and only a non-negative one names a row of the sheet. */
  function RangeText(rowIndex: int): (r: string)
    ensures |r| > 8 && r[..8] == "Sheet1!A"
    ensures rowIndex < 0 <==> r[8] == '-' || r[8] == '0'
  {
    "Sheet1!A" + IntText(rowIndex + 1) + ":I" + IntText(rowIndex + 1)
  }

  /** Locate-then-write: overwriting the row `findRowIndex` returned changes that row only, keeps the
      sheet's length, and leaves the id on that row, so a second lookup finds the same row. */
  lemma {:induction false} LocateThenWrite(values: seq<seq<string>>, id: string, p: Product)
    requires p.id == id
    requires FindIndex(values, id) >= 0
    ensures var i := FindIndex(values, id);
      var after := WriteRow(values, i, EncodeRow(p));
      |after| == |values| &&
      (forall j :: 0 <= j < |values| && j != i ==> after[j] == values[j]) &&
      after[i] == MergeRow(values[i], EncodeRow(p)) && after[i][0] == id &&
      FindIndex(after, id) == i
  {
    var i := FindIndex(values, id);
    var after := WriteRow(values, i, EncodeRow(p));
    assert after[i][0] == id;
    assert RowHasId(after[i], id);
    forall k | 0 <= k < i ensures !RowHasId(after[k], id) {
      assert after[k] == values[k];
    }
  }

  /** An update skips the cells sent as `null`: a NaN price, an absent description and absent sizes or
      colors leave the row's old cells in place, while every present field overwrites its cell. */
  lemma SkippedCellsKept(values: seq<seq<string>>, i: nat, p: Product)
    requires i < |values| && |values[i]| >= Columns
    ensures var row := WriteRow(values, i, EncodeRow(p))[i];
      row[0] == p.id && row[1] == p.name && row[3] == p.category && row[4] == p.image &&
      (p.price.NotANumber? ==> row[2] == values[i][2]) &&
      (p.images.None? ==> row[5] == "") &&
      (p.sizes.None? ==> row[6] == values[i][6]) &&
      (p.colors.None? ==> row[7] == values[i][7]) &&
      (p.description.None? ==> row[8] == values[i][8]) &&
      (p.description.Some? ==> row[8] == p.description.value)
  {
  }

  /** An appended row leaves the skipped cells empty: a product with a NaN price gets an empty price cell. */
  lemma AppendedNaNPriceEmpty(p: Product)
    requires p.price.NotANumber?
    ensures Filled(EncodeRow(p))[2] == "" && Filled(EncodeRow(p))[0] == p.id
  {
  }

  /** Appends are not checked for duplicates: appending a product whose id is already on the sheet
      adds a second row with that id, and later lookups still find the first one. */
  lemma DuplicateAppendShadowed(values: seq<seq<string>>, p: Product)
    requires FindIndex(values, p.id) >= 0
    ensures var after := values + [Filled(EncodeRow(p))];
      |after| == |values| + 1 && RowHasId(after[|values|], p.id) &&
      FindIndex(after, p.id) == FindIndex(values, p.id)
  {
    var after := values + [Filled(EncodeRow(p))];
    var i := FindIndex(values, p.id);
    assert after[i] == values[i];
    forall k | 0 <= k < i ensures !RowHasId(after[k], p.id) {
      assert after[k] == values[k];
    }
  }

  /** Appending a product whose id is not on the sheet makes the new last row the one a lookup finds. */
  lemma AppendThenLocate(values: seq<seq<string>>, p: Product)
    requires p.id != ""
    requires FindIndex(values, p.id) == -1
    ensures FindIndex(values + [Filled(EncodeRow(p))], p.id) == |values|
  {
    var after := values + [Filled(EncodeRow(p))];
    forall k | 0 <= k < |values| ensures !RowHasId(after[k], p.id) {
      assert after[k] == values[k];
    }
    assert RowHasId(after[|values|], p.id);
  }

  /** The header row takes part in the scan: a product whose id is the text "id" is located at the
      header row, index 0. */
  lemma HeaderRowScanned(rest: seq<seq<string>>)
    ensures FindIndex([Header] + rest, "id") == 0
  {
    assert RowHasId(([Header] + rest)[0], "id");
  }

  /** Column A holding the header and three ids: locating "7" gives the 0-based index 2, which
      `updateRow` writes as row 3. */
  lemma LocateExample()
    ensures FindIndex([["id"], ["5"], ["7"], ["3"]], "7") == 2
    ensures RangeText(2) == "Sheet1!A3:I3"
  {
    assert RowHasId(["7"], "7");
  }

  /** The remote worksheet `Sheet1`. */
  class Spreadsheet {
    var values: seq<seq<string>>

    constructor (initial: seq<seq<string>>)
      ensures values == initial
    {
      values := initial;
    }

    /** `values/Sheet1!A:I:append`: one new row after the last, skipped cells left empty. */
    method Append(cells: seq<Cell>)
      modifies this
      ensures values == old(values) + [Filled(cells)]
    {
      values := values + [Filled(cells)];
    }

    /** A write of columns A..I of the row with 1-based number `rowNumber`. */
    method WriteRange(rowNumber: int, cells: seq<Cell>)
      requires rowNumber >= 1 && |cells| == Columns
      modifies this
      ensures values == WriteRow(old(values), rowNumber - 1, cells)
    {
      values := WriteRow(values, rowNumber - 1, cells);
    }
  }

  /** The module-level auth state: the token client and the access token it delivered. */
  class AdminSession {
    var clientReady: bool
    var accessToken: Option<string>

    /** Page load: no client, no token. */
    constructor ()
      ensures !clientReady && accessToken == None
    {
      clientReady := false;
      accessToken := None;
    }

    /** `!accessToken` is false: a non-empty token is held. */
    predicate HasToken()
      reads this
    {
      accessToken.Some? && accessToken.value != ""
    }

    /** `initGoogleAuth`: creates the token client only when the Google script has loaded. */
    method InitGoogleAuth(googleLoaded: bool)
      modifies this
      ensures clientReady == (old(clientReady) || googleLoaded)
      ensures accessToken == old(accessToken)
    {
      if googleLoaded {
        clientReady := true;
      }
    }

    /** `requestAccessToken`: starts the consent flow when the client exists; otherwise only logs. */
    method RequestAccessToken() returns (started: bool)
      ensures started <==> clientReady
    {
      started := clientReady;
    }

    /** The token client's callback: a response carrying a non-empty `access_token` replaces the token
        and is passed on to the caller's callback; any other response changes nothing. */
    method OnTokenResponse(accessTokenField: Option<string>) returns (granted: Option<string>)
      requires clientReady
      modifies this
      ensures clientReady
      ensures accessTokenField.Some? && accessTokenField.value != "" ==>
                accessToken == accessTokenField && granted == accessTokenField
      ensures accessTokenField.None? || accessTokenField.value == "" ==>
                accessToken == old(accessToken) && granted == None
      ensures granted.Some? ==> HasToken() && granted == accessToken
    {
      if accessTokenField.Some? && accessTokenField.value != "" {
        accessToken := accessTokenField;
        granted := accessTokenField;
      } else {
        granted := None;
      }
    }

    /** `appendRow`: the token guard, then one new row in column order; the sheet is untouched on failure. */
    method AppendRow(sheet: Spreadsheet, p: Product, response: RemoteResponse) returns (res: Result<(), AdminError>)
      modifies sheet
      ensures !old(HasToken()) ==> res == Failure(NoAccessToken)
      ensures old(HasToken()) ==> res == match response
                                         case Accepted => Success(())
                                         case Rejected(m) => Failure(RemoteError(m))
                                         case Unreachable => Failure(NetworkError)
      ensures sheet.values == if res.Success? then old(sheet.values) + [Filled(EncodeRow(p))] else old(sheet.values)
    {
      if !HasToken() {
        return Failure(NoAccessToken);
      }
      match response {
        case Accepted =>
          sheet.Append(EncodeRow(p));
          res := Success(());
        case Rejected(m) =>
          res := Failure(RemoteError(m));
        case Unreachable =>
          res := Failure(NetworkError);
      }
    }

    /** `findRowIndex`: reads column A and scans it. A non-ok answer has no `values`, which reads as an
        empty column, so it gives -1 rather than an error. */
    method FindRowIndex(sheet: Spreadsheet, id: string, response: RemoteResponse) returns (res: Result<int, AdminError>)
      ensures !HasToken() ==> res == Failure(NoAccessToken)
      ensures HasToken() && response.Unreachable? ==> res == Failure(NetworkError)
      ensures HasToken() && response.Rejected? ==> res == Success(-1)
      ensures HasToken() && response.Accepted? ==> res == Success(FindIndex(sheet.values, id))
      ensures HasToken() && response.Accepted? ==>
                res.Success? && (res.value == -1 <==> forall k :: 0 <= k < |sheet.values| ==> !RowHasId(sheet.values[k], id))
      ensures res.Success? && res.value >= 0 ==>
                res.value < |sheet.values| && RowHasId(sheet.values[res.value], id) &&
                forall k :: 0 <= k < res.value ==> !RowHasId(sheet.values[k], id)
    {
      if !HasToken() {
        return Failure(NoAccessToken);
      }
      match response {
        case Accepted =>
          res := Success(FindIndex(sheet.values, id));
        case Rejected(_) =>
          res := Success(FindIndex([], id));
        case Unreachable =>
          res := Failure(NetworkError);
      }
    }

    /** `updateRow`: the token guard, then a whole-row write of range `A{i+1}:I{i+1}`, which is the
        0-based row `i`; the store's answer decides the outcome, and a range before row 1 writes nothing. */
    method UpdateRow(sheet: Spreadsheet, rowIndex: int, p: Product, response: RemoteResponse) returns (res: Result<(), AdminError>)
      modifies sheet
      ensures !old(HasToken()) ==> res == Failure(NoAccessToken)
      ensures old(HasToken()) ==> res == match response
                                         case Accepted => Success(())
                                         case Rejected(m) => Failure(RemoteError(m))
                                         case Unreachable => Failure(NetworkError)
      ensures res.Success? && rowIndex >= 0 ==> sheet.values == WriteRow(old(sheet.values), rowIndex, EncodeRow(p))
      ensures res.Failure? || rowIndex < 0 ==> sheet.values == old(sheet.values)
    {
      if !HasToken() {
        return Failure(NoAccessToken);
      }
      var rowNumber := rowIndex + 1;
      match response {
        case Accepted =>
          // A range before row 1 (`RangeText(rowIndex)`) addresses no row, so nothing is written.
          if rowNumber >= 1 {
            sheet.WriteRange(rowNumber, EncodeRow(p));
          }
          res := Success(());
        case Rejected(m) =>
          res := Failure(RemoteError(m));
        case Unreachable =>
          res := Failure(NetworkError);
      }
    }

    /** `deleteRow`: the token guard, then always refused; nothing is sent to the store. */
    method DeleteRow(sheet: Spreadsheet, rowIndex: int) returns (res: Result<(), AdminError>)
      ensures res == Failure(if HasToken() then DeleteUnsupported else NoAccessToken)
    {
      if !HasToken() {
        return Failure(NoAccessToken);
      }
      res := Failure(DeleteUnsupported);
    }
  }
}
