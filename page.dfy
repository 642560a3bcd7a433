/** The invoice page: it holds the last calculated breakdown, the invoice
    handed over for the document, the signature source and whether the
    document is showing. While the document is not showing, the page shows
    the form; the form exists only then. */
module Page {
  import opened Types
  import Form
  import Amounts
  import Document

  /** What the page shows. */
  datatype Screen =
    | Editing(summary: Option<CalculatedAmounts>) // the form, with the breakdown passed to it
    | Previewing(doc: seq<Document.Line>)         // the invoice document and the Back button
    | Blank                                       // the document view with nothing to show

  class Home {
    var calculatedAmounts: Option<CalculatedAmounts>
    var showPDF: bool
    var currentData: Option<InvoiceData>
    var signatureUrl: string
    /** The mounted form, present exactly while the document is not showing. */
    var form: Form.InvoiceForm?

    /** The form is mounted exactly when the document is not showing, and a
        showing document has an invoice and the breakdown of that invoice. */
    predicate Valid()
      reads this
    {
      (form == null) == showPDF &&
      (showPDF ==> currentData.Some? && calculatedAmounts == Some(Amounts.CalculateAmounts(currentData.value)))
    }

    /** What the page renders. */
    function View(): (s: Screen)
      reads this
      ensures !showPDF <==> s == Editing(calculatedAmounts)
      ensures s.Previewing? <==> showPDF && currentData.Some? && calculatedAmounts.Some?
      ensures Valid() ==> !s.Blank?
      ensures Valid() && showPDF ==>
                s == Previewing(Document.InvoiceDocument(currentData.value, Amounts.CalculateAmounts(currentData.value), signatureUrl))
    {
      if !showPDF then Editing(calculatedAmounts)
      else if currentData.Some? && calculatedAmounts.Some? then
        Previewing(Document.InvoiceDocument(currentData.value, calculatedAmounts.value, signatureUrl))
      else Blank
    }

    /** Mounting the page: nothing calculated, no document, the signature at
        its default path, and a freshly mounted form. */
    constructor (c: Form.Clock)
      ensures Valid() && !showPDF
      ensures calculatedAmounts == None && currentData == None && signatureUrl == "/sign.png"
      ensures fresh(form) && form.data == Form.Defaults(c) && !form.showGstin && !form.showAddress
    {
      calculatedAmounts := None;
      showPDF := false;
      currentData := None;
      signatureUrl := "/sign.png";
      form := new Form.InvoiceForm(c);
    }

    /** The default signature has been read: its data URL replaces the path. */
    method SignatureLoaded(url: string)
      requires Valid()
      modifies this
      ensures Valid() && signatureUrl == url
      ensures calculatedAmounts == old(calculatedAmounts) && showPDF == old(showPDF)
      ensures currentData == old(currentData) && form == old(form)
    {
      signatureUrl := url;
    }

    /** Calculate: the breakdown of the form's draft replaces the last one,
        and the form shows it. */
    method Calculate()
      requires Valid() && !showPDF
      modifies this
      ensures Valid() && View() == Editing(Some(Amounts.CalculateAmounts(old(form.data))))
      ensures calculatedAmounts == Some(Amounts.CalculateAmounts(old(form.data)))
      ensures showPDF == old(showPDF) && currentData == old(currentData)
      ensures signatureUrl == old(signatureUrl) && form == old(form)
    {
      calculatedAmounts := Some(Amounts.CalculateAmounts(form.data));
    }

    /** Generate Invoice: the draft and its breakdown are handed over, the
        document shows them and the form is unmounted, losing its draft and
        toggles. */
    method Generate()
      requires Valid() && !showPDF
      modifies this
      ensures Valid() && showPDF && form == null
      ensures currentData == Some(old(form.data))
      ensures calculatedAmounts == Some(Amounts.CalculateAmounts(old(form.data)))
      ensures signatureUrl == old(signatureUrl)
      ensures View() == Previewing(Document.InvoiceDocument(old(form.data), Amounts.CalculateAmounts(old(form.data)), signatureUrl))
    {
      var data := form.data;
      calculatedAmounts := Some(Amounts.CalculateAmounts(data));
      currentData := Some(data);
      showPDF := true;
      form := null;
    }

    /** Back to Form: the document is hidden and a new form is mounted with a
        default draft; the handed-over invoice and the last breakdown stay,
        so the new form shows the previous invoice's summary. */
    method Back(c: Form.Clock)
      requires Valid() && showPDF
      modifies this
      ensures Valid() && !showPDF
      ensures fresh(form) && form.data == Form.Defaults(c) && !form.showGstin && !form.showAddress
      ensures calculatedAmounts == old(calculatedAmounts) && currentData == old(currentData)
      ensures signatureUrl == old(signatureUrl)
      ensures View() == Editing(Some(Amounts.CalculateAmounts(old(currentData).value)))
    {
      showPDF := false;
      form := new Form.InvoiceForm(c);
    }
  }

  /** A whole visit: fill in an amount, generate, go back. The document shows
      the edited draft and its breakdown; back on the form, the draft is a
      default one again while the summary still belongs to the generated
      invoice. */
  method GenerateAndReturn(c1: Form.Clock, c2: Form.Clock, mrp: string) returns (shown: Screen, after: Screen, draft: InvoiceData)
    ensures var d := Form.Edit(Form.Defaults(c1), Form.Mrp, mrp);
            shown == Previewing(Document.InvoiceDocument(d, Amounts.CalculateAmounts(d), "/sign.png")) &&
            after == Editing(Some(Amounts.CalculateAmounts(d))) &&
            draft == Form.Defaults(c2)
  {
    var home := new Home(c1);
    Form.InputsAlwaysShown(false, false, Form.Mrp);
    home.form.InputChange(Form.Mrp, mrp);
    home.Generate();
    shown := home.View();
    home.Back(c2);
    after := home.View();
    draft := home.form.data;
  }

  /** A freshly defaulted draft has empty GSTIN and address, so its document
      shows neither line: a shown input does not put a line on the invoice,
      only a non-empty value does. */
  lemma DefaultsShowNoOptionalLines(c: Form.Clock, amounts: CalculatedAmounts, signatureUrl: string, v: string)
    ensures Document.Labelled("GSTIN", v) !in Document.InvoiceDocument(Form.Defaults(c), amounts, signatureUrl)
    ensures Document.Labelled("Address", v) !in Document.InvoiceDocument(Form.Defaults(c), amounts, signatureUrl)
  {
    Document.GstinLineIffText(Form.Defaults(c), amounts, signatureUrl, v);
    Document.AddressLineIffText(Form.Defaults(c), amounts, signatureUrl, v);
  }

  /** The GSTIN toggle only hides the input: a GSTIN typed in and then
      hidden again is still printed on the invoice. */
  method HiddenGstinIsPrinted(c: Form.Clock, gstin: string) returns (shown: Screen)
    requires gstin != ""
    ensures shown.Previewing? && Document.Labelled("GSTIN", gstin) in shown.doc
  {
    var home := new Home(c);
    home.form.SetShowGstin(true);
    home.form.InputChange(Form.CustomerGstin, gstin);
    home.form.SetShowGstin(false);
    var data := home.form.data;
    home.Generate();
    shown := home.View();
    Document.GstinLineIffText(data, Amounts.CalculateAmounts(data), home.signatureUrl, gstin);
  }
}
