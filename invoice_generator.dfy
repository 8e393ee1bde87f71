/**
 * The invoice page: it lists one day's fuel entries, totals their litres,
 * lets a row be edited or deleted through the remote ledger, and exports the
 * rendered invoice as a single-page PDF once a confirmation signature exists.
 * Millimetres and litres are exact reals.
 */
module Invoice {
  import opened Common

  /** A row identifier as the sheet hands it out: a number or a string. */
  datatype Key = Num(n: int) | Text(s: string)

  /** JavaScript truthiness of an identifier: `0` and `""` are falsy. */
  predicate KeyTruthy(k: Key) {
    match k
    case Num(n) => n != 0
    case Text(s) => s != ""
  }

  /**
   * One ledger row as the listing returns it. A field the row lacks is `None`
   * (or `""` for text shown as is).
   */
  datatype Survey = Survey(
    rowIndex: Option<Key>,
    id: Option<Key>,
    date: string,
    fuelType: string,
    vehicle: string,
    quantity: Option<real>,
    signature: Option<string>)

  /**
   * What the listing call resolves to: a bare array of rows, or an object
   * whose `surveys` field may be missing.
   */
  datatype Listing = Rows(rows: seq<Survey>) | Envelope(surveys: Option<seq<Survey>>)

  /** The rows the page shows for a listing response. */
  function Normalize(l: Listing): (r: seq<Survey>)
    ensures l.Rows? ==> r == l.rows
    ensures l.Envelope? && l.surveys.Some? ==> r == l.surveys.value
    ensures l.Envelope? && l.surveys.None? ==> r == []
  {
    match l
    case Rows(rows) => rows
    case Envelope(Some(rows)) => rows
    case Envelope(None) => []
  }

  /** A bare array and an envelope holding the same array are shown alike. */
  lemma NormalizeShapeIndependent(rows: seq<Survey>)
    ensures Normalize(Rows(rows)) == Normalize(Envelope(Some(rows)))
    ensures |Normalize(Envelope(None))| == 0
  {
  }

  /** `s.quantity || 0`: a missing quantity adds nothing to the total. */
  function Contribution(s: Survey): (r: real)
    ensures s.quantity.Some? ==> r == s.quantity.value
    ensures s.quantity.None? ==> r == 0.0
  {
    s.quantity.GetOr(0.0)
  }

  /** The running sum of `reduce`, from the first row to the last. */
  function Total(rows: seq<Survey>): (r: real)
    ensures rows == [] ==> r == 0.0
    ensures |rows| == 1 ==> r == Contribution(rows[0])
  {
    if rows == [] then 0.0 else Total(rows[..|rows| - 1]) + Contribution(rows[|rows| - 1])
  }

  /** The total of two runs of rows is the sum of their totals. */
  lemma {:induction false} TotalAppend(a: seq<Survey>, b: seq<Survey>)
    ensures Total(a + b) == Total(a) + Total(b)
    decreases |b|
  {
    if b == [] {
      assert a + b == a;
    } else {
      var n := |b| - 1;
      assert (a + b)[..|a + b| - 1] == a + b[..n];
      assert (a + b)[|a + b| - 1] == b[n];
      TotalAppend(a, b[..n]);
    }
  }

  /** The total does not depend on the order the rows arrive in. */
  lemma {:induction false} TotalPermutation(a: seq<Survey>, b: seq<Survey>)
    requires multiset(a) == multiset(b)
    ensures Total(a) == Total(b)
    decreases |a|
  {
    if a != [] {
      var last := a[|a| - 1];
      var front := a[..|a| - 1];
      assert a == front + [last];
      assert last in multiset(b);
      var j :| 0 <= j < |b| && b[j] == last;
      var rest := b[..j] + b[j + 1..];
      assert b == b[..j] + [last] + b[j + 1..];
      assert multiset(b) == multiset(b[..j]) + multiset{last} + multiset(b[j + 1..]);
      assert multiset(a) == multiset(front) + multiset{last};
      assert multiset(rest) == multiset(b[..j]) + multiset(b[j + 1..]);
      assert multiset(front) == multiset(a) - multiset{last};
      assert multiset(rest) == multiset(b) - multiset{last};
      TotalPermutation(front, rest);
      TotalAppend(b[..j] + [last], b[j + 1..]);
      TotalAppend(b[..j], [last]);
      TotalAppend(b[..j], b[j + 1..]);
      assert Total([last]) == Contribution(last) by {
        assert [last][..0] == [];
      }
    } else {
      assert |b| == |multiset(b)| == 0;
    }
  }

  /** With no negative quantity on any row, the total is not negative. */
  lemma {:induction false} TotalNonNegative(rows: seq<Survey>)
    requires forall i :: 0 <= i < |rows| ==> Contribution(rows[i]) >= 0.0
    ensures Total(rows) >= 0.0
    decreases |rows|
  {
    if rows != [] {
      var front := rows[..|rows| - 1];
      assert forall i :: 0 <= i < |front| ==> front[i] == rows[i];
      TotalNonNegative(front);
    }
  }

  /** An empty day totals zero, and a row without a quantity leaves the total as it was. */
  lemma TotalMissingQuantity(rows: seq<Survey>, s: Survey)
    requires s.quantity.None?
    ensures Total([]) == 0.0
    ensures Total(rows + [s]) == Total(rows)
  {
    assert (rows + [s])[..|rows + [s]| - 1] == rows;
  }

  /** `survey.rowIndex ?? survey.id ?? idx`: the identifier an edit or a delete targets. */
  function TargetId(s: Survey, idx: nat): (k: Key)
    ensures s.rowIndex.Some? ==> k == s.rowIndex.value
    ensures s.rowIndex.None? && s.id.Some? ==> k == s.id.value
    ensures s.rowIndex.None? && s.id.None? ==> k == Num(idx)
  {
    match s.rowIndex
    case Some(r) => r
    case None => s.id.GetOr(Num(idx))
  }

  /** A row whose position is the identifier can be targeted only when it is not the first row. */
  lemma PositionalTargetTruthy(s: Survey, idx: nat)
    requires s.rowIndex.None? && s.id.None?
    ensures KeyTruthy(TargetId(s, idx)) <==> idx != 0
  {
  }

  /**
   * The open edit dialog's copy of a row: only vehicle, fuel type and
   * quantity (as the text the input shows) are editable.
   */
  datatype EditDraft = EditDraft(id: Key, vehicle: string, fuelType: string, quantity: string)

  /**
   * The draft the edit button opens; `show` stands for JavaScript's `String`
   * conversion of a number.
   */
  function DraftOf(s: Survey, idx: nat, show: real -> string): (d: EditDraft)
    ensures d.id == TargetId(s, idx) && d.vehicle == s.vehicle
    ensures d.fuelType == OrElse(Some(s.fuelType), "HVO")
    ensures s.quantity.None? ==> d.quantity == ""
    ensures s.quantity.Some? ==> d.quantity == show(s.quantity.value)
  {
    EditDraft(TargetId(s, idx), s.vehicle, OrElse(Some(s.fuelType), "HVO"),
              if s.quantity.Some? then show(s.quantity.value) else "")
  }

  /** What an update sends: never the date, never the signature. */
  datatype UpdatePayload = UpdatePayload(vehicle: string, fuelType: string, quantity: real)

  /** What the save button leads to. */
  datatype SaveDecision = NoDraft | MissingField | Send(id: Key, payload: UpdatePayload)

  /**
   * The decision of the save handler: nothing without an open draft, a
   * complaint when a field is empty, otherwise the update to issue.
   * `parseFloat` stands for JavaScript's number parser.
   */
  function DecideSave(draft: Option<EditDraft>, parseFloat: string -> real): (d: SaveDecision)
    ensures d.NoDraft? <==> draft.None?
    ensures d.MissingField? <==>
      draft.Some? && (draft.value.vehicle == "" || draft.value.fuelType == "" || draft.value.quantity == "")
    ensures d.Send? ==> (
      d.id == draft.value.id
      && d.payload.vehicle == draft.value.vehicle && Truthy(d.payload.vehicle)
      && d.payload.fuelType == draft.value.fuelType && Truthy(d.payload.fuelType)
      && d.payload.quantity == parseFloat(draft.value.quantity))
  {
    match draft
    case None => NoDraft
    case Some(e) =>
      if !Truthy(e.vehicle) || !Truthy(e.fuelType) || !Truthy(e.quantity) then MissingField
      else Send(e.id, UpdatePayload(e.vehicle, e.fuelType, parseFloat(e.quantity)))
  }

  /** Opening a row and saving it unchanged resends the row's own fields, under its target id. */
  lemma SaveUnchangedDraft(s: Survey, idx: nat, show: real -> string, parseFloat: string -> real)
    requires s.vehicle != "" && s.quantity.Some? && show(s.quantity.value) != ""
    requires parseFloat(show(s.quantity.value)) == s.quantity.value
    ensures DecideSave(Some(DraftOf(s, idx, show)), parseFloat)
      == Send(TargetId(s, idx), UpdatePayload(s.vehicle, OrElse(Some(s.fuelType), "HVO"), s.quantity.value))
  {
  }

  // Page geometry of the export, in millimetres.
  const PageWidth: real := 210.0
  const FullPageHeight: real := 297.0
  const Margin: real := 15.0
  const ContentWidth: real := PageWidth - 2.0 * Margin
  const ContentHeight: real := FullPageHeight - 2.0 * Margin

  /** Width of the capture in CSS pixels and the rasterisation scale. */
  const CaptureWidth: real := 595.0
  const CaptureScale: real := 2.0

  function Min(a: real, b: real): (r: real)
    ensures r <= a && r <= b && (r == a || r == b)
  {
    if a <= b then a else b
  }

  /** The size of the invoice image on the page and the height of the page. */
  datatype Layout = Layout(imgWidth: real, imgHeight: real, pageHeight: real)

  /**
   * Fits a raster of the given size into the 180 x 267 mm content box, keeping
   * its aspect ratio, then makes the page just tall enough for it.
   */
  function FitPage(canvasWidth: real, canvasHeight: real): (l: Layout)
    requires canvasWidth > 0.0 && canvasHeight >= 0.0
    ensures 0.0 < l.imgWidth <= ContentWidth && 0.0 <= l.imgHeight <= ContentHeight
    ensures l.imgWidth * canvasHeight == l.imgHeight * canvasWidth
    ensures l.imgWidth == ContentWidth || l.imgHeight == ContentHeight
    ensures l.imgWidth == ContentWidth <==> canvasHeight * ContentWidth <= ContentHeight * canvasWidth
    ensures l.pageHeight == Min(FullPageHeight, l.imgHeight + 2.0 * Margin)
    ensures l.pageHeight <= FullPageHeight
    ensures Margin + l.imgHeight + Margin == l.pageHeight
    ensures Margin + l.imgWidth + Margin <= PageWidth
  {
    var natural := (canvasHeight * ContentWidth) / canvasWidth;
    ScaledSide(canvasHeight, ContentWidth, canvasWidth, ContentHeight);
    if natural > ContentHeight then
      ScaledSide(canvasWidth, ContentHeight, canvasHeight, ContentWidth);
      var w := (canvasWidth * ContentHeight) / canvasHeight;
      Layout(w, ContentHeight, Min(FullPageHeight, ContentHeight + 2.0 * Margin))
    else
      Layout(ContentWidth, natural, Min(FullPageHeight, natural + 2.0 * Margin))
  }

  /**
   * The side `(a * b) / c` that keeps the ratio `a : c` when the other side
   * is `b`, compared with a bound `m`.
   */
  lemma ScaledSide(a: real, b: real, c: real, m: real)
    requires a >= 0.0 && b > 0.0 && c > 0.0
    ensures (a * b) / c * c == a * b
    ensures (a * b) / c >= 0.0
    ensures a > 0.0 ==> (a * b) / c > 0.0
    ensures (a * b) / c <= m <==> a * b <= m * c
  {
    var q := (a * b) / c;
    assert q * c == a * b;
    if q <= m {
      assert q * c <= m * c;
    } else {
      assert q * c > m * c;
    }
  }

  /** The exported file's name for an invoice date. */
  function InvoiceFileName(date: string): (name: string)
    ensures StartsWith(name, "Invoice_") && EndsWith(name, ".pdf")
    ensures |name| == |"Invoice_"| + |date| + |".pdf"|
    ensures name[|"Invoice_"|..|"Invoice_"| + |date|] == date
  {
    "Invoice_" + date + ".pdf"
  }

  /** The exported document: one image on one page, placed at the top-left margin. */
  datatype PdfFile = PdfFile(
    name: string,
    pageWidth: real,
    pageHeight: real,
    x: real,
    y: real,
    imgWidth: real,
    imgHeight: real,
    image: string)

  /**
   * The intended layout: the page is exactly 210 mm wide and at most 297 mm
   * tall, the image is placed 15 mm from the left and the top, has a 15 mm
   * margin below it and at least 15 mm to its right.
   */
  predicate FitsPage(f: PdfFile) {
    f.pageWidth == PageWidth && f.pageHeight <= FullPageHeight
    && f.x == Margin && f.y == Margin
    && 0.0 < f.imgWidth && f.x + f.imgWidth + Margin <= f.pageWidth
    && 0.0 <= f.imgHeight && f.y + f.imgHeight + Margin == f.pageHeight
  }

  /** A raster taller than the content box is shrunk to the full box height, and the page is the full 297 mm. */
  lemma TallRasterFillsPage(canvasWidth: real, canvasHeight: real)
    requires canvasWidth > 0.0 && canvasHeight * ContentWidth > ContentHeight * canvasWidth
    ensures FitPage(canvasWidth, canvasHeight).imgHeight == ContentHeight
    ensures FitPage(canvasWidth, canvasHeight).pageHeight == FullPageHeight
  {
  }

  /** The orientation argument of the PDF library's constructor. */
  datatype Orientation = Portrait | Landscape

  /** A page's size in millimetres. */
  datatype PageSize = PageSize(width: real, height: real)

  /**
   * The page the PDF library makes for a format `[w, h]`: a portrait page has
   * its longer side upright and a landscape page has it across, so a format
   * the other way round has its two sides swapped.
   */
  function MakePage(o: Orientation, w: real, h: real): (p: PageSize)
    ensures p == PageSize(w, h) || p == PageSize(h, w)
    ensures o.Portrait? ==> p.width <= p.height
    ensures o.Landscape? ==> p.height <= p.width
  {
    match o
    case Portrait => if w > h then PageSize(h, w) else PageSize(w, h)
    case Landscape => if h > w then PageSize(h, w) else PageSize(w, h)
  }

  /**
   * The document as the export builds it: the format `[210, pageHeight]` goes
   * with the portrait orientation, so a page less than 210 mm tall is turned
   * on its side and is only `pageHeight` wide.
   */
  function MakePdfAsWritten(date: string, canvasWidth: real, canvasHeight: real, image: string): (f: PdfFile)
    requires canvasWidth > 0.0 && canvasHeight >= 0.0
    ensures f.name == InvoiceFileName(date) && f.image == image
    ensures f.pageWidth == Min(PageWidth, FitPage(canvasWidth, canvasHeight).pageHeight)
    ensures FitsPage(f) <==> PageWidth <= FitPage(canvasWidth, canvasHeight).pageHeight
  {
    var l := FitPage(canvasWidth, canvasHeight);
    var page := MakePage(Portrait, PageWidth, l.pageHeight);
    PdfFile(InvoiceFileName(date), page.width, page.height, Margin, Margin, l.imgWidth, l.imgHeight, image)
  }

  /**
   * As written, a raster whose fitted image is less than 165 mm tall (a view
   * less than about 545 CSS pixels tall) gets a page narrower than the
   * 195 mm the image reaches, so the image runs off the right edge.
   */
  lemma ShortCaptureOverflows(date: string, canvasWidth: real, canvasHeight: real, image: string)
    requires canvasWidth > 0.0 && canvasHeight >= 0.0
    requires canvasHeight * ContentWidth < 165.0 * canvasWidth
    ensures var f := MakePdfAsWritten(date, canvasWidth, canvasHeight, image); f.x + f.imgWidth > f.pageWidth
  {
    var l := FitPage(canvasWidth, canvasHeight);
    assert l.imgWidth == ContentWidth;
    assert l.imgHeight * canvasWidth == canvasHeight * ContentWidth;
    CancelPositive(l.imgHeight, 165.0, canvasWidth);
  }

  /** Both sides of a strict inequality divided by the same positive factor. */
  lemma CancelPositive(x: real, y: real, c: real)
    requires c > 0.0 && x * c < y * c
    ensures x < y
  {
  }

  /**
   * The export as written and the corrected one build the same document
   * exactly when the page is at least 210 mm tall.
   */
  lemma AsWrittenAgreesWhenTall(date: string, canvasWidth: real, canvasHeight: real, image: string)
    requires canvasWidth > 0.0 && canvasHeight >= 0.0
    ensures MakePdfAsWritten(date, canvasWidth, canvasHeight, image) == MakePdf(date, canvasWidth, canvasHeight, image)
        <==> PageWidth <= FitPage(canvasWidth, canvasHeight).pageHeight
  {
  }

  /** The orientation that keeps a `[w, h]` format the way round it is given. */
  function OrientationFor(w: real, h: real): (o: Orientation)
    ensures MakePage(o, w, h) == PageSize(w, h)
  {
    if w > h then Landscape else Portrait
  }

  /**
   * The document built from a raster of the given size and its encoded image,
   * with the orientation chosen so that the page is 210 mm wide whatever its
   * height.
   */
  function MakePdf(date: string, canvasWidth: real, canvasHeight: real, image: string): (f: PdfFile)
    requires canvasWidth > 0.0 && canvasHeight >= 0.0
    ensures FitsPage(f)
    ensures f.pageHeight == FitPage(canvasWidth, canvasHeight).pageHeight
    ensures f.name == InvoiceFileName(date) && f.image == image
    ensures f.imgWidth * canvasHeight == f.imgHeight * canvasWidth
  {
    var l := FitPage(canvasWidth, canvasHeight);
    var page := MakePage(OrientationFor(PageWidth, l.pageHeight), PageWidth, l.pageHeight);
    PdfFile(InvoiceFileName(date), page.width, page.height, Margin, Margin, l.imgWidth, l.imgHeight, image)
  }

  /** A mutation issued to the remote ledger. */
  datatype Request = UpdateRequest(id: Key, payload: UpdatePayload) | DeleteRequest(id: Key)

  /**
   * The invoice page's state. `cache` holds each date's listing, `stale` the
   * dates whose listing was invalidated, `sent` every mutation issued and
   * `saved` every file produced.
   */
  class InvoiceGenerator {
    var selectedDate: string
    var confirmationSignature: Option<string>
    var isExporting: bool
    var exportDate: string
    var editSurvey: Option<EditDraft>
    var deleteSurveyId: Option<Key>
    var cache: map<string, seq<Survey>>
    var stale: set<string>
    var updatePending: bool
    var deletePending: bool
    var sent: seq<Request>
    var saved: seq<PdfFile>
    const parseFloat: string -> real
    const show: real -> string

    /**
     * Every delete went to a truthy identifier, every update carried a
     * vehicle and a fuel type, and every saved page is at most 210 mm wide
     * and, when it is the full 210 mm, has the intended layout.
     */
    ghost predicate Valid()
      reads this
    {
      (forall i :: 0 <= i < |sent| && sent[i].DeleteRequest? ==> KeyTruthy(sent[i].id))
      && (forall i :: 0 <= i < |sent| && sent[i].UpdateRequest? ==>
            Truthy(sent[i].payload.vehicle) && Truthy(sent[i].payload.fuelType))
      && (forall i :: 0 <= i < |saved| ==>
            saved[i].pageWidth <= PageWidth && (saved[i].pageWidth == PageWidth ==> FitsPage(saved[i])))
    }

    /** The page as first rendered on `today`. */
    constructor(today: string, parseFloat: string -> real, show: real -> string)
      ensures Valid()
      ensures selectedDate == today && confirmationSignature.None?
      ensures !isExporting && editSurvey.None? && deleteSurveyId.None?
      ensures cache == map[] && stale == {} && !updatePending && !deletePending
      ensures sent == [] && saved == []
      ensures this.parseFloat == parseFloat && this.show == show
    {
      selectedDate, confirmationSignature := today, None;
      isExporting, exportDate := false, "";
      editSurvey, deleteSurveyId := None, None;
      cache, stale := map[], {};
      updatePending, deletePending := false, false;
      sent, saved := [], [];
      this.parseFloat, this.show := parseFloat, show;
    }

    /** The rows shown: the selected date's listing, or none before it arrives. */
    function Surveys(): (r: seq<Survey>)
      reads this
      ensures selectedDate in cache ==> r == cache[selectedDate]
      ensures selectedDate !in cache ==> r == []
    {
      if selectedDate in cache then cache[selectedDate] else []
    }

    /**
     * The total shown under the table: the fold whose properties are proved
     * above, over the rows shown; a day with no rows shows zero.
     */
    function TotalQuantity(): (r: real)
      reads this
      ensures r == Total(Surveys())
      ensures Surveys() == [] ==> r == 0.0
    {
      Total(Surveys())
    }

    /** The edit dialog is open exactly while a draft exists. */
    predicate EditDialogOpen(): (b: bool)
      reads this
      ensures b <==> editSurvey.Some?
    {
      editSurvey.Some?
    }

    /** The delete confirmation is open only for a truthy identifier: never for `0` or `""`. */
    predicate DeleteDialogOpen(): (b: bool)
      reads this
      ensures b ==> deleteSurveyId.Some?
      ensures b ==> deleteSurveyId.value != Num(0) && deleteSurveyId.value != Text("")
      ensures deleteSurveyId.Some? && deleteSurveyId.value.Num? && deleteSurveyId.value.n != 0 ==> b
      ensures deleteSurveyId.Some? && deleteSurveyId.value.Text? && deleteSurveyId.value.s != "" ==> b
    {
      deleteSurveyId.Some? && KeyTruthy(deleteSurveyId.value)
    }

    method SelectDate(date: string)
      modifies this`selectedDate
      ensures selectedDate == date
    {
      selectedDate := date;
    }

    /**
     * A listing response arrives for `date`. It is filed under that date, so a
     * response for a date no longer selected does not change the rows shown.
     */
    method ListingLoaded(date: string, response: Listing)
      requires Truthy(date)
      modifies this`cache, this`stale
      ensures cache == old(cache)[date := Normalize(response)]
      ensures stale == old(stale) - {date}
      ensures date == selectedDate ==> Surveys() == Normalize(response)
      ensures date != selectedDate ==> Surveys() == old(Surveys())
    {
      cache := cache[date := Normalize(response)];
      stale := stale - {date};
    }

    /** The confirmation pad's change callback. */
    method SetConfirmationSignature(signature: Option<string>)
      modifies this`confirmationSignature
      ensures confirmationSignature == signature
    {
      confirmationSignature := signature;
    }

    /** The edit button of row `idx`; the button is hidden during export and disabled while an update is pending. */
    method OpenEdit(idx: nat)
      requires idx < |Surveys()| && !isExporting && !updatePending
      modifies this`editSurvey
      ensures editSurvey == Some(DraftOf(old(Surveys())[idx], idx, show))
    {
      editSurvey := Some(DraftOf(Surveys()[idx], idx, show));
    }

    /** The dialog's vehicle picker offers the roster only. */
    method SetEditVehicle(vehicle: string)
      requires EditDialogOpen() && vehicle in Vehicles
      modifies this`editSurvey
      ensures editSurvey == Some(old(editSurvey).value.(vehicle := vehicle))
    {
      editSurvey := Some(editSurvey.value.(vehicle := vehicle));
    }

    /** The dialog's type picker offers HVO and Diesel. */
    method SetEditFuelType(fuelType: string)
      requires EditDialogOpen() && fuelType in FuelTypes
      modifies this`editSurvey
      ensures editSurvey == Some(old(editSurvey).value.(fuelType := fuelType))
    {
      editSurvey := Some(editSurvey.value.(fuelType := fuelType));
    }

    method SetEditQuantity(quantity: string)
      requires EditDialogOpen()
      modifies this`editSurvey
      ensures editSurvey == Some(old(editSurvey).value.(quantity := quantity))
    {
      editSurvey := Some(editSurvey.value.(quantity := quantity));
    }

    /** Cancel, or dismissing the dialog. */
    method CloseEdit()
      modifies this`editSurvey
      ensures editSurvey.None?
    {
      editSurvey := None;
    }

    /**
     * The save button (disabled while an update is pending): issues the update
     * that `DecideSave` picks, and nothing otherwise.
     */
    method HandleEditSave()
      requires Valid() && !updatePending
      modifies this`sent, this`updatePending
      ensures Valid()
      ensures DecideSave(editSurvey, parseFloat).Send? ==>
        sent == old(sent) + [UpdateRequest(DecideSave(editSurvey, parseFloat).id, DecideSave(editSurvey, parseFloat).payload)]
        && updatePending
      ensures !DecideSave(editSurvey, parseFloat).Send? ==> sent == old(sent) && !updatePending
    {
      var decision := DecideSave(editSurvey, parseFloat);
      if decision.Send? {
        sent := sent + [UpdateRequest(decision.id, decision.payload)];
        updatePending := true;
      }
    }

    /**
     * The update settles. Success invalidates the selected date's listing and
     * closes the dialog; failure leaves the dialog as it was.
     */
    method UpdateSettled(ok: bool)
      requires updatePending
      modifies this`updatePending, this`editSurvey, this`stale
      ensures !updatePending
      ensures ok ==> stale == old(stale) + {selectedDate} && editSurvey.None?
      ensures !ok ==> stale == old(stale) && editSurvey == old(editSurvey)
    {
      updatePending := false;
      if ok {
        stale := stale + {selectedDate};
        editSurvey := None;
      }
    }

    /** The delete button of row `idx`: it only records the target; the dialog opens if that is truthy. */
    method RequestDelete(idx: nat)
      requires idx < |Surveys()| && !isExporting && !deletePending
      modifies this`deleteSurveyId
      ensures deleteSurveyId == Some(TargetId(old(Surveys())[idx], idx))
      ensures DeleteDialogOpen() <==> KeyTruthy(TargetId(old(Surveys())[idx], idx))
    {
      deleteSurveyId := Some(TargetId(Surveys()[idx], idx));
    }

    /** Cancel, or dismissing the confirmation. */
    method CancelDelete()
      modifies this`deleteSurveyId
      ensures deleteSurveyId.None?
    {
      deleteSurveyId := None;
    }

    /**
     * The confirm button, which exists only inside the open confirmation and is
     * disabled while a delete is pending: it deletes the recorded target. The
     * button is the dialog's action, which closes the dialog after its click
     * handler, so the dismissal handler clears the target at once.
     */
    method ConfirmDelete()
      requires Valid() && DeleteDialogOpen() && !deletePending
      modifies this`sent, this`deletePending, this`deleteSurveyId
      ensures Valid()
      ensures sent == old(sent) + [DeleteRequest(old(deleteSurveyId).value)] && deletePending
      ensures deleteSurveyId.None? && !DeleteDialogOpen()
    {
      if deleteSurveyId.Some? {
        sent := sent + [DeleteRequest(deleteSurveyId.value)];
        deletePending := true;
      }
      deleteSurveyId := None;
    }

    /**
     * The delete settles. Success invalidates the selected date's listing and
     * closes the confirmation; failure leaves it as it was.
     */
    method DeleteSettled(ok: bool)
      requires deletePending
      modifies this`deletePending, this`deleteSurveyId, this`stale
      ensures !deletePending
      ensures ok ==> stale == old(stale) + {selectedDate} && deleteSurveyId.None?
      ensures !ok ==> stale == old(stale) && deleteSurveyId == old(deleteSurveyId)
    {
      deletePending := false;
      if ok {
        stale := stale + {selectedDate};
        deleteSurveyId := None;
      }
    }

    /**
     * The export button, disabled while an export runs. Without a confirmation
     * signature nothing happens; otherwise the page enters the exporting state
     * (which hides the action column) for the date selected now.
     */
    method ExportToPDF()
      requires !isExporting
      modifies this`isExporting, this`exportDate
      ensures !SignaturePresent(confirmationSignature) ==> !isExporting && exportDate == old(exportDate)
      ensures SignaturePresent(confirmationSignature) ==> isExporting && exportDate == selectedDate
    {
      if !SignaturePresent(confirmationSignature) {
        return;
      }
      isExporting := true;
      exportDate := selectedDate;
    }

    /**
     * The rest of the export once the view, `scrollHeight` CSS pixels tall,
     * has been rasterised at twice its size and encoded as `image`: the
     * document is built as written, with the portrait orientation, one file
     * is saved and the exporting state ends.
     */
    method FinishExport(scrollHeight: real, image: string)
      requires Valid() && isExporting && scrollHeight >= 0.0
      modifies this`saved, this`isExporting
      ensures Valid() && !isExporting
      ensures saved == old(saved) + [MakePdfAsWritten(exportDate, CaptureScale * CaptureWidth, CaptureScale * scrollHeight, image)]
    {
      var file := MakePdfAsWritten(exportDate, CaptureScale * CaptureWidth, CaptureScale * scrollHeight, image);
      saved := saved + [file];
      isExporting := false;
    }
  }
}
