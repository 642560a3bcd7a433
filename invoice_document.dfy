/** The content of the printable invoice: which lines it shows, in which
    order, and where each value comes from. Layout, fonts and the
    "Rs. " + toFixed(2) formatting of amounts are not modelled: an amount
    line carries the number it formats. */
module Document {
  import opened Types

  datatype Line =
    | Logo                                  // the company logo image
    | Heading(text: string)                 // fixed text of the template
    | Labelled(key: string, value: string) // "key: value", value from the invoice
    | Body(text: string)                    // the course description
    | Amount(key: string, amount: real)    // a row of the amounts block
    | SignatureImage(src: string)           // the signature picture
    | Caption(text: string)                 // the text under the signature

  /** The letterhead: company name, GSTIN, address and support email. */
  function Letterhead(): (r: seq<Line>)
    ensures |r| == 6 && r[0] == Logo
  {
    [ Logo,
      Heading("TSMC Creations India Pvt.Ltd."),
      Heading("GSTIN: 33AAJCT3867G1Z4"),
      Heading("Address: Chennai, Tamil Nadu - 600096"),
      Heading("India"),
      Heading("Email: support@lifedemy.in") ]
  }

  /** A JavaScript string is truthy when it is present and non-empty. */
  predicate HasText(o: Option<string>) {
    o.Some? && o.value != ""
  }

  function OptionalLine(key: string, o: Option<string>): seq<Line> {
    if HasText(o) then [Labelled(key, o.value)] else []
  }

  function SignatureBlock(signatureUrl: string): seq<Line> {
    if signatureUrl != "" then [SignatureImage(signatureUrl), Caption("Authorized Signatory")] else []
  }

  /** The header's right-hand side: invoice number, date and order number. */
  function Header(data: InvoiceData): seq<Line> {
    [Labelled("Invoice No", data.invoice_no), Labelled("Date", data.date), Labelled("Order No", data.order_no)]
  }

  /** Bill To: name and email always, GSTIN and address only when they have text. */
  function BillTo(data: InvoiceData): seq<Line> {
    [Heading("Bill To:")]
    + ([Labelled("Name", data.customer_name), Labelled("Email", data.customer_email)]
    + (OptionalLine("GSTIN", data.customer_gstin) + OptionalLine("Address", data.customer_address)))
  }

  function CourseDetails(data: InvoiceData): seq<Line> {
    [Heading("Course Details:"), Body(data.description)]
  }

  /** The amounts block; the GST total itself is not one of its rows. */
  function AmountSection(data: InvoiceData, amounts: CalculatedAmounts): seq<Line> {
    [ Amount("MRP Amount", data.mrp),
      Amount("Discount", data.discount),
      Amount("Taxable Amount", amounts.taxableAmount),
      Amount("CGST (9%)", amounts.cgst),
      Amount("SGST (9%)", amounts.sgst),
      Amount("Total Amount", amounts.totalAmount) ]
  }

  /** InvoicePDF: the lines of the document, top to bottom. */
  function InvoiceDocument(data: InvoiceData, amounts: CalculatedAmounts, signatureUrl: string): seq<Line> {
    Letterhead() + (Header(data) + (BillTo(data) + (CourseDetails(data)
      + (AmountSection(data, amounts) + SignatureBlock(signatureUrl)))))
  }

  // ---------------------------------------------------------------------------
  // Views of a document

  /** The labelled lines, in order, as (label, value) pairs. */
  function LabelledLines(doc: seq<Line>): seq<(string, string)> {
    if doc == [] then []
    else (if doc[0].Labelled? then [(doc[0].key, doc[0].value)] else []) + LabelledLines(doc[1..])
  }

  /** The amount rows, in order, as (label, amount) pairs. */
  function AmountRows(doc: seq<Line>): seq<(string, real)> {
    if doc == [] then []
    else (if doc[0].Amount? then [(doc[0].key, doc[0].amount)] else []) + AmountRows(doc[1..])
  }

  /** The sources of the pictures other than the logo, in order. */
  function Images(doc: seq<Line>): seq<string> {
    if doc == [] then []
    else (if doc[0].SignatureImage? then [doc[0].src] else []) + Images(doc[1..])
  }

  lemma {:induction false} LabelledLinesAppend(a: seq<Line>, b: seq<Line>, c: seq<Line>)
    requires c == a + b
    ensures LabelledLines(c) == LabelledLines(a) + LabelledLines(b)
  {
    if a == [] {
      assert c == b;
    } else {
      assert c[0] == a[0] && c[1..] == a[1..] + b;
      LabelledLinesAppend(a[1..], b, c[1..]);
    }
  }

  lemma {:induction false} AmountRowsAppend(a: seq<Line>, b: seq<Line>, c: seq<Line>)
    requires c == a + b
    ensures AmountRows(c) == AmountRows(a) + AmountRows(b)
  {
    if a == [] {
      assert c == b;
    } else {
      assert c[0] == a[0] && c[1..] == a[1..] + b;
      AmountRowsAppend(a[1..], b, c[1..]);
    }
  }

  lemma {:induction false} ImagesAppend(a: seq<Line>, b: seq<Line>, c: seq<Line>)
    requires c == a + b
    ensures Images(c) == Images(a) + Images(b)
  {
    if a == [] {
      assert c == b;
    } else {
      assert c[0] == a[0] && c[1..] == a[1..] + b;
      ImagesAppend(a[1..], b, c[1..]);
    }
  }

  /** Reading a concatenation reads each part, in order. */
  lemma ViewsAppend(a: seq<Line>, b: seq<Line>, c: seq<Line>)
    requires c == a + b
    ensures LabelledLines(c) == LabelledLines(a) + LabelledLines(b)
    ensures AmountRows(c) == AmountRows(a) + AmountRows(b)
    ensures Images(c) == Images(a) + Images(b)
  {
    LabelledLinesAppend(a, b, c);
    AmountRowsAppend(a, b, c);
    ImagesAppend(a, b, c);
  }

  /** Reading a document made of six sections reads each section. */
  lemma SixLabelled(a: seq<Line>, b: seq<Line>, c: seq<Line>, d: seq<Line>, e: seq<Line>, f: seq<Line>)
    ensures LabelledLines(a + (b + (c + (d + (e + f)))))
         == LabelledLines(a) + (LabelledLines(b) + (LabelledLines(c) + (LabelledLines(d) + (LabelledLines(e) + LabelledLines(f)))))
  {
    var s4 := e + f;
    var s3 := d + s4;
    var s2 := c + s3;
    var s1 := b + s2;
    LabelledLinesAppend(a, s1, a + s1);
    LabelledLinesAppend(b, s2, s1);
    LabelledLinesAppend(c, s3, s2);
    LabelledLinesAppend(d, s4, s3);
    LabelledLinesAppend(e, f, s4);
  }

  lemma SixAmounts(a: seq<Line>, b: seq<Line>, c: seq<Line>, d: seq<Line>, e: seq<Line>, f: seq<Line>)
    ensures AmountRows(a + (b + (c + (d + (e + f)))))
         == AmountRows(a) + (AmountRows(b) + (AmountRows(c) + (AmountRows(d) + (AmountRows(e) + AmountRows(f)))))
  {
    var s4 := e + f;
    var s3 := d + s4;
    var s2 := c + s3;
    var s1 := b + s2;
    AmountRowsAppend(a, s1, a + s1);
    AmountRowsAppend(b, s2, s1);
    AmountRowsAppend(c, s3, s2);
    AmountRowsAppend(d, s4, s3);
    AmountRowsAppend(e, f, s4);
  }

  lemma SixImages(a: seq<Line>, b: seq<Line>, c: seq<Line>, d: seq<Line>, e: seq<Line>, f: seq<Line>)
    ensures Images(a + (b + (c + (d + (e + f)))))
         == Images(a) + (Images(b) + (Images(c) + (Images(d) + (Images(e) + Images(f)))))
  {
    var s4 := e + f;
    var s3 := d + s4;
    var s2 := c + s3;
    var s1 := b + s2;
    ImagesAppend(a, s1, a + s1);
    ImagesAppend(b, s2, s1);
    ImagesAppend(c, s3, s2);
    ImagesAppend(d, s4, s3);
    ImagesAppend(e, f, s4);
  }

  /** A line of fixed text: it shows nothing of the invoice. */
  predicate Plain(l: Line) {
    l.Logo? || l.Heading? || l.Body? || l.Caption?
  }

  lemma {:induction false} PlainSection(doc: seq<Line>)
    requires forall i :: 0 <= i < |doc| ==> Plain(doc[i])
    ensures LabelledLines(doc) == [] && AmountRows(doc) == [] && Images(doc) == []
  {
    if doc != [] {
      PlainSection(doc[1..]);
    }
  }

  /** Labelled lines show exactly their (label, value) pairs. */
  lemma {:induction false} LabelledSection(doc: seq<Line>, pairs: seq<(string, string)>)
    requires |doc| == |pairs|
    requires forall i :: 0 <= i < |doc| ==> doc[i] == Labelled(pairs[i].0, pairs[i].1)
    ensures LabelledLines(doc) == pairs && AmountRows(doc) == [] && Images(doc) == []
  {
    if doc != [] {
      LabelledSection(doc[1..], pairs[1..]);
      assert pairs == [pairs[0]] + pairs[1..];
    }
  }

  /** Amount lines show exactly their (label, amount) rows. */
  lemma {:induction false} AmountLines(doc: seq<Line>, rows: seq<(string, real)>)
    requires |doc| == |rows|
    requires forall i :: 0 <= i < |doc| ==> doc[i] == Amount(rows[i].0, rows[i].1)
    ensures LabelledLines(doc) == [] && AmountRows(doc) == rows && Images(doc) == []
  {
    if doc != [] {
      AmountLines(doc[1..], rows[1..]);
      assert rows == [rows[0]] + rows[1..];
    }
  }

  // ---------------------------------------------------------------------------
  // What each section shows

  function HeaderPairs(data: InvoiceData): seq<(string, string)> {
    [("Invoice No", data.invoice_no), ("Date", data.date), ("Order No", data.order_no)]
  }

  function OptionalPair(key: string, o: Option<string>): seq<(string, string)> {
    if HasText(o) then [(key, o.value)] else []
  }

  function BillToPairs(data: InvoiceData): seq<(string, string)> {
    [("Name", data.customer_name), ("Email", data.customer_email)]
    + (OptionalPair("GSTIN", data.customer_gstin) + OptionalPair("Address", data.customer_address))
  }

  function AmountList(data: InvoiceData, amounts: CalculatedAmounts): seq<(string, real)> {
    [("MRP Amount", data.mrp), ("Discount", data.discount),
     ("Taxable Amount", amounts.taxableAmount), ("CGST (9%)", amounts.cgst),
     ("SGST (9%)", amounts.sgst), ("Total Amount", amounts.totalAmount)]
  }

  lemma FixedSectionsViews(data: InvoiceData)
    ensures LabelledLines(Letterhead()) == [] && AmountRows(Letterhead()) == [] && Images(Letterhead()) == []
    ensures LabelledLines(CourseDetails(data)) == [] && AmountRows(CourseDetails(data)) == [] && Images(CourseDetails(data)) == []
  {
    PlainSection(Letterhead());
    PlainSection(CourseDetails(data));
  }

  lemma OptionalLineViews(key: string, o: Option<string>)
    ensures LabelledLines(OptionalLine(key, o)) == OptionalPair(key, o)
    ensures AmountRows(OptionalLine(key, o)) == [] && Images(OptionalLine(key, o)) == []
  {
    LabelledSection(OptionalLine(key, o), OptionalPair(key, o));
  }

  lemma BillToViews(data: InvoiceData)
    ensures LabelledLines(BillTo(data)) == BillToPairs(data)
    ensures AmountRows(BillTo(data)) == [] && Images(BillTo(data)) == []
  {
    var heading := [Heading("Bill To:")];
    var named := [Labelled("Name", data.customer_name), Labelled("Email", data.customer_email)];
    var g := OptionalLine("GSTIN", data.customer_gstin);
    var a := OptionalLine("Address", data.customer_address);
    var rest := named + (g + a);
    assert LabelledLines(rest) == BillToPairs(data) && AmountRows(rest) == [] && Images(rest) == [] by {
      ViewsAppend(g, a, g + a);
      ViewsAppend(named, g + a, rest);
      LabelledSection(named, [("Name", data.customer_name), ("Email", data.customer_email)]);
      OptionalLineViews("GSTIN", data.customer_gstin);
      OptionalLineViews("Address", data.customer_address);
    }
    ViewsAppend(heading, rest, BillTo(data));
    PlainSection(heading);
  }

  lemma SignatureBlockViews(signatureUrl: string)
    ensures LabelledLines(SignatureBlock(signatureUrl)) == [] && AmountRows(SignatureBlock(signatureUrl)) == []
    ensures Images(SignatureBlock(signatureUrl)) == if signatureUrl != "" then [signatureUrl] else []
  {
    if signatureUrl != "" {
      var block := SignatureBlock(signatureUrl);
      assert block[1..] == [Caption("Authorized Signatory")];
      PlainSection(block[1..]);
    }
  }

  /** The labelled lines of each of the six sections. */
  lemma SectionLabels(data: InvoiceData, amounts: CalculatedAmounts, signatureUrl: string)
    ensures LabelledLines(Letterhead()) == [] && LabelledLines(Header(data)) == HeaderPairs(data)
    ensures LabelledLines(BillTo(data)) == BillToPairs(data) && LabelledLines(CourseDetails(data)) == []
    ensures LabelledLines(AmountSection(data, amounts)) == [] && LabelledLines(SignatureBlock(signatureUrl)) == []
  {
    FixedSectionsViews(data);
    LabelledSection(Header(data), HeaderPairs(data));
    BillToViews(data);
    AmountLines(AmountSection(data, amounts), AmountList(data, amounts));
    SignatureBlockViews(signatureUrl);
  }

  /** The amount rows of each of the six sections. */
  lemma SectionAmounts(data: InvoiceData, amounts: CalculatedAmounts, signatureUrl: string)
    ensures AmountRows(Letterhead()) == [] && AmountRows(Header(data)) == []
    ensures AmountRows(BillTo(data)) == [] && AmountRows(CourseDetails(data)) == []
    ensures AmountRows(AmountSection(data, amounts)) == AmountList(data, amounts) && AmountRows(SignatureBlock(signatureUrl)) == []
  {
    FixedSectionsViews(data);
    LabelledSection(Header(data), HeaderPairs(data));
    BillToViews(data);
    AmountLines(AmountSection(data, amounts), AmountList(data, amounts));
    SignatureBlockViews(signatureUrl);
  }

  /** The pictures of each of the six sections. */
  lemma SectionImages(data: InvoiceData, amounts: CalculatedAmounts, signatureUrl: string)
    ensures Images(Letterhead()) == [] && Images(Header(data)) == []
    ensures Images(BillTo(data)) == [] && Images(CourseDetails(data)) == []
    ensures Images(AmountSection(data, amounts)) == []
    ensures Images(SignatureBlock(signatureUrl)) == if signatureUrl != "" then [signatureUrl] else []
  {
    FixedSectionsViews(data);
    LabelledSection(Header(data), HeaderPairs(data));
    BillToViews(data);
    AmountLines(AmountSection(data, amounts), AmountList(data, amounts));
    SignatureBlockViews(signatureUrl);
  }

  // ---------------------------------------------------------------------------
  // What the document shows

  /** The invoice's own text appears as labelled lines in this order: the
      invoice number, date and order number of the header, then the name
      and email of Bill To, then the GSTIN and the address, each only when
      it has text. */
  lemma DocumentLabelledLines(data: InvoiceData, amounts: CalculatedAmounts, signatureUrl: string)
    ensures LabelledLines(InvoiceDocument(data, amounts, signatureUrl)) == HeaderPairs(data) + BillToPairs(data)
  {
    SixLabelled(Letterhead(), Header(data), BillTo(data), CourseDetails(data), AmountSection(data, amounts), SignatureBlock(signatureUrl));
    SectionLabels(data, amounts, signatureUrl);
    assert [] + (HeaderPairs(data) + (BillToPairs(data) + ([] + ([] + [])))) == HeaderPairs(data) + BillToPairs(data);
  }

  /** The amounts block lists exactly six rows, in this order: MRP and
      discount from the invoice, then taxable amount, CGST, SGST and total
      from the breakdown. The GST total itself is not listed. */
  lemma DocumentAmountRows(data: InvoiceData, amounts: CalculatedAmounts, signatureUrl: string)
    ensures AmountRows(InvoiceDocument(data, amounts, signatureUrl)) == AmountList(data, amounts)
  {
    SixAmounts(Letterhead(), Header(data), BillTo(data), CourseDetails(data), AmountSection(data, amounts), SignatureBlock(signatureUrl));
    SectionAmounts(data, amounts, signatureUrl);
    assert [] + ([] + ([] + ([] + (AmountList(data, amounts) + [])))) == AmountList(data, amounts);
  }

  /** The signature picture is there exactly when there is a signature
      source, once, showing that source. */
  lemma SignatureIffSource(data: InvoiceData, amounts: CalculatedAmounts, signatureUrl: string)
    ensures Images(InvoiceDocument(data, amounts, signatureUrl)) == if signatureUrl != "" then [signatureUrl] else []
  {
    var pictures: seq<string> := if signatureUrl != "" then [signatureUrl] else [];
    SixImages(Letterhead(), Header(data), BillTo(data), CourseDetails(data), AmountSection(data, amounts), SignatureBlock(signatureUrl));
    SectionImages(data, amounts, signatureUrl);
    assert [] + ([] + ([] + ([] + ([] + pictures)))) == pictures;
  }

  /** The GSTIN line is there exactly when the invoice has a non-empty
      GSTIN, and shows it. */
  lemma GstinLineIffText(data: InvoiceData, amounts: CalculatedAmounts, signatureUrl: string, v: string)
    ensures Labelled("GSTIN", v) in InvoiceDocument(data, amounts, signatureUrl)
            <==> data.customer_gstin == Some(v) && v != ""
  {
    var l := Labelled("GSTIN", v);
    var doc := InvoiceDocument(data, amounts, signatureUrl);
    if l in doc {
      OnlyBillToLabels(data, amounts, signatureUrl, l);
      assert l in OptionalLine("GSTIN", data.customer_gstin) by {
        assert l != Labelled("Name", data.customer_name) && l != Labelled("Email", data.customer_email);
        assert l !in OptionalLine("Address", data.customer_address);
      }
    }
  }

  /** The address line, likewise. */
  lemma AddressLineIffText(data: InvoiceData, amounts: CalculatedAmounts, signatureUrl: string, v: string)
    ensures Labelled("Address", v) in InvoiceDocument(data, amounts, signatureUrl)
            <==> data.customer_address == Some(v) && v != ""
  {
    var l := Labelled("Address", v);
    var doc := InvoiceDocument(data, amounts, signatureUrl);
    if l in doc {
      OnlyBillToLabels(data, amounts, signatureUrl, l);
      assert l in OptionalLine("Address", data.customer_address) by {
        assert l != Labelled("Name", data.customer_name) && l != Labelled("Email", data.customer_email);
        assert l !in OptionalLine("GSTIN", data.customer_gstin);
      }
    }
  }

  /** A labelled line whose label is not one of the header's is a line of
      Bill To. */
  lemma OnlyBillToLabels(data: InvoiceData, amounts: CalculatedAmounts, signatureUrl: string, l: Line)
    requires l.Labelled? && l.key != "Invoice No" && l.key != "Date" && l.key != "Order No"
    requires l in InvoiceDocument(data, amounts, signatureUrl)
    ensures l in BillTo(data)
  {
    assert l !in Letterhead();
    assert l !in Header(data);
    assert l !in CourseDetails(data);
    assert l !in AmountSection(data, amounts);
    assert l !in SignatureBlock(signatureUrl);
  }

  /** The document is the letterhead, the header, Bill To, the course
      details, the amounts and the signature block, in that order. */
  lemma DocumentSections(data: InvoiceData, amounts: CalculatedAmounts, signatureUrl: string)
    ensures var doc := InvoiceDocument(data, amounts, signatureUrl);
            |doc| == 20 + |OptionalLine("GSTIN", data.customer_gstin)| + |OptionalLine("Address", data.customer_address)|
                   + |SignatureBlock(signatureUrl)| &&
            doc[..6] == Letterhead() && doc[6..9] == Header(data) &&
            doc[9..] == BillTo(data) + (CourseDetails(data) + (AmountSection(data, amounts) + SignatureBlock(signatureUrl)))
  {
    var rest := BillTo(data) + (CourseDetails(data) + (AmountSection(data, amounts) + SignatureBlock(signatureUrl)));
    var doc := InvoiceDocument(data, amounts, signatureUrl);
    assert doc == Letterhead() + (Header(data) + rest);
    assert doc[..6] == Letterhead();
    assert doc[6..9] == (Header(data) + rest)[..3];
    assert doc[9..] == (Header(data) + rest)[3..];
  }

  /** With a signature, the picture and its "Authorized Signatory" caption
      are the last two lines. */
  lemma SignatureIsLast(data: InvoiceData, amounts: CalculatedAmounts, signatureUrl: string)
    requires signatureUrl != ""
    ensures var doc := InvoiceDocument(data, amounts, signatureUrl);
            doc[|doc| - 2] == SignatureImage(signatureUrl) && doc[|doc| - 1] == Caption("Authorized Signatory")
  {
    var before := Letterhead() + (Header(data) + (BillTo(data) + (CourseDetails(data) + AmountSection(data, amounts))));
    assert InvoiceDocument(data, amounts, signatureUrl) == before + SignatureBlock(signatureUrl);
  }

  /** The letterhead is fixed: it is the same for every invoice. */
  lemma LetterheadIsFixed(d1: InvoiceData, a1: CalculatedAmounts, s1: string,
                          d2: InvoiceData, a2: CalculatedAmounts, s2: string)
    ensures InvoiceDocument(d1, a1, s1)[..6] == InvoiceDocument(d2, a2, s2)[..6]
  {
    DocumentSections(d1, a1, s1);
    DocumentSections(d2, a2, s2);
  }

  /** The "Authorized Signatory" caption is there exactly when there is a
      signature source: no picture, no caption. */
  lemma CaptionIffSource(data: InvoiceData, amounts: CalculatedAmounts, signatureUrl: string)
    ensures Caption("Authorized Signatory") in InvoiceDocument(data, amounts, signatureUrl) <==> signatureUrl != ""
  {
    var l := Caption("Authorized Signatory");
    assert l !in Letterhead();
    assert l !in Header(data);
    assert l !in BillTo(data);
    assert l !in CourseDetails(data);
    assert l !in AmountSection(data, amounts);
    if signatureUrl != "" {
      assert SignatureBlock(signatureUrl)[1] == l;
    }
  }
}
