/** The invoice form: the draft invoice being edited, its two visibility
    toggles, the edit and Clear handlers, and the generated invoice number. */
module Form {
  import opened Types
  import opened NumberText
  import Amounts

  /** What the browser's clock and random source give when a form is
      mounted or cleared: today's date as text, the year, the month index
      (0 for January), a random number in [0, 1) and the time in
      milliseconds. */
  datatype Clock = Clock(today: string, year: int, monthIndex: int, random: real, time: int)

  /** The random part of the invoice number, Math.floor(random * 10000). */
  function RandomSerial(random: real): int {
    (random * 10000.0).Floor
  }

  /** generateInvoiceNumber: "INV/" year "-" month "/" serial, the month
      padded to two digits and the serial to four. */
  function InvoiceNumber(year: int, monthIndex: int, random: real): string {
    var month := PadStart(IntToString(monthIndex + 1), 2);
    var serial := PadStart(IntToString(RandomSerial(random)), 4);
    "INV/" + (IntToString(year) + ("-" + (month + ("/" + serial))))
  }

  /** How an invoice number reads: "INV/" and the year, then "-", two
      digits giving the month, "/" and four digits giving the serial. */
  predicate ReadsAs(s: string, year: int, month: int, serial: int) {
    var y := IntToString(year);
    var n := |s|;
    n == |y| + 12 && s[..4] == "INV/" && s[4..4 + |y|] == y &&
    s[n - 8] == '-' && s[n - 5] == '/' &&
    AllDigits(s[n - 7..n - 5]) && DigitsValue(s[n - 7..n - 5]) == month &&
    AllDigits(s[n - 4..]) && DigitsValue(s[n - 4..]) == serial
  }

  /** For a real month and random number, the invoice number reads back as
      its year, its month (1 to 12) and its serial (0 to 9999). */
  lemma InvoiceNumberParts(year: int, monthIndex: int, random: real)
    requires 0 <= monthIndex <= 11 && 0.0 <= random < 1.0
    ensures ReadsAs(InvoiceNumber(year, monthIndex, random), year, monthIndex + 1, RandomSerial(random))
    ensures 0 <= RandomSerial(random) <= 9999
  {
    var m := PadStart(IntToString(monthIndex + 1), 2);
    var r := PadStart(IntToString(RandomSerial(random)), 4);
    var y := IntToString(year);
    PaddedInt(monthIndex + 1, 2);
    PaddedInt(RandomSerial(random), 4);
    Layout(InvoiceNumber(year, monthIndex, random), y, m, r);
  }

  /** A padded number in range has exactly the padded width and reads back. */
  lemma PaddedInt(i: int, n: nat)
    requires (n == 2 && 0 <= i < 100) || (n == 4 && 0 <= i < 10000)
    ensures var p := PadStart(IntToString(i), n);
            |p| == n && AllDigits(p) && DigitsValue(p) == i
  {
    assert Pow10(2) == 100 && Pow10(4) == 10000;
    assert IntToString(i) == NatToString(i);
    PadNatValue(i, n);
  }

  /** Where the pieces of an invoice number sit. */
  lemma Layout(s: string, y: string, m: string, r: string)
    requires s == "INV/" + (y + ("-" + (m + ("/" + r))))
    requires |m| == 2 && |r| == 4
    ensures var n := |s|;
            n == |y| + 12 && s[..4] == "INV/" && s[4..4 + |y|] == y &&
            s[n - 8] == '-' && s[n - 5] == '/' && s[n - 7..n - 5] == m && s[n - 4..] == r
  {
  }

  // ---------------------------------------------------------------------------
  // Fields and edits

  /** The keys of an invoice record, named as the form's inputs name them. */
  datatype Field =
    | CustomerName | CustomerEmail | CustomerGstin | CustomerAddress
    | Description | Mrp | Discount | Date | InvoiceNo | OrderNo

  /** What a record holds under one key. */
  datatype FieldValue = Text(text: string) | Number(amount: real) | Absent

  function OptionalText(o: Option<string>): FieldValue {
    match o
    case None => Absent
    case Some(s) => Text(s)
  }

  function Read(d: InvoiceData, f: Field): FieldValue {
    match f
    case CustomerName => Text(d.customer_name)
    case CustomerEmail => Text(d.customer_email)
    case CustomerGstin => OptionalText(d.customer_gstin)
    case CustomerAddress => OptionalText(d.customer_address)
    case Description => Text(d.description)
    case Mrp => Number(d.mrp)
    case Discount => Number(d.discount)
    case Date => Text(d.date)
    case InvoiceNo => Text(d.invoice_no)
    case OrderNo => Text(d.order_no)
  }

  /** A record is determined by what it holds under each key. */
  lemma ReadDetermines(a: InvoiceData, b: InvoiceData)
    requires forall f :: Read(a, f) == Read(b, f)
    ensures a == b
  {
    assert Read(a, CustomerName) == Read(b, CustomerName);
    assert Read(a, CustomerEmail) == Read(b, CustomerEmail);
    assert Read(a, CustomerGstin) == Read(b, CustomerGstin);
    assert Read(a, CustomerAddress) == Read(b, CustomerAddress);
    assert Read(a, Description) == Read(b, Description);
    assert Read(a, Mrp) == Read(b, Mrp);
    assert Read(a, Discount) == Read(b, Discount);
    assert Read(a, Date) == Read(b, Date);
    assert Read(a, InvoiceNo) == Read(b, InvoiceNo);
    assert Read(a, OrderNo) == Read(b, OrderNo);
  }

  predicate IsAmount(f: Field) { f == Mrp || f == Discount }

  /** What an input event stores under its key: the two amounts store
      `parseFloat(value) || 0`, every other key the text as typed. */
  function Stored(f: Field, value: string): FieldValue {
    if IsAmount(f) then Number(OrZero(ParseFloat(value))) else Text(value)
  }

  /** handleInputChange: the record with the edited key replaced. */
  function Edit(d: InvoiceData, f: Field, value: string): (r: InvoiceData)
    ensures Read(r, f) == Stored(f, value)
  {
    match f
    case CustomerName => d.(customer_name := value)
    case CustomerEmail => d.(customer_email := value)
    case CustomerGstin => d.(customer_gstin := Some(value))
    case CustomerAddress => d.(customer_address := Some(value))
    case Description => d.(description := value)
    case Mrp => d.(mrp := OrZero(ParseFloat(value)))
    case Discount => d.(discount := OrZero(ParseFloat(value)))
    case Date => d.(date := value)
    case InvoiceNo => d.(invoice_no := value)
    case OrderNo => d.(order_no := value)
  }

  /** An edit keeps what every other key holds. */
  lemma EditKeepsOtherKeys(d: InvoiceData, f: Field, value: string, g: Field)
    requires g != f
    ensures Read(Edit(d, f, value), g) == Read(d, g)
  {
  }

  /** An edit is the only record that stores the new value under its key
      and keeps every other key. */
  lemma EditIsUnique(d: InvoiceData, f: Field, value: string, r: InvoiceData)
    requires Read(r, f) == Stored(f, value)
    requires forall g :: g != f ==> Read(r, g) == Read(d, g)
    ensures r == Edit(d, f, value)
  {
    var e := Edit(d, f, value);
    forall g ensures Read(r, g) == Read(e, g) {
      if g != f {
        EditKeepsOtherKeys(d, f, value, g);
      }
    }
    ReadDetermines(r, e);
  }

  /** Clearing an amount box, or typing text that parseFloat reads as NaN
      (an empty box, "abc"), stores 0. */
  lemma EmptyAmountIsZero(d: InvoiceData, f: Field, value: string)
    requires IsAmount(f) && ParseFloat(value) == None
    ensures Read(Edit(d, f, value), f) == Number(0.0)
  {
  }

  // ---------------------------------------------------------------------------
  // Defaults

  /** The draft a form starts with and returns to on Clear: empty text, the
      optional keys present but empty, zero amounts, today's date and freshly
      generated invoice and order numbers. */
  function Defaults(c: Clock): InvoiceData {
    InvoiceData(
      customer_name := "",
      customer_email := "",
      customer_gstin := Some(""),
      customer_address := Some(""),
      description := "",
      mrp := 0.0,
      discount := 0.0,
      date := c.today,
      invoice_no := InvoiceNumber(c.year, c.monthIndex, c.random),
      order_no := IntToString(c.time))
  }

  /** Two default drafts differ at most in the date and the two generated
      numbers. */
  lemma DefaultsDifferOnlyInGenerated(c1: Clock, c2: Clock, f: Field)
    requires f != Date && f != InvoiceNo && f != OrderNo
    ensures Read(Defaults(c1), f) == Read(Defaults(c2), f)
  {
  }

  /** The generated order number is the clock's time in decimal: read as a
      number, it gives that time back. */
  lemma OrderNumberReadsBack(c: Clock)
    ensures ParseFloat(Defaults(c).order_no) == Some(c.time as real)
  {
    var o := Defaults(c).order_no;
    assert o == IntToString(c.time);
    ParseFloatIntToString(c.time);
  }

  /** A default draft breaks down to zero everywhere. */
  lemma DefaultsCalculateToZero(c: Clock)
    ensures Amounts.CalculateAmounts(Defaults(c)) == CalculatedAmounts(0.0, 0.0, 0.0, 0.0, 0.0)
  {
    assert Round2(0.0) == 0.0;
  }

  /** The form's inputs in page order: the GSTIN and address inputs appear
      only while their toggles are on, and there is no input for the order
      number. */
  function Inputs(showGstin: bool, showAddress: bool): (r: seq<Field>)
    ensures CustomerGstin in r <==> showGstin
    ensures CustomerAddress in r <==> showAddress
    ensures OrderNo !in r
  {
    [InvoiceNo, Date, CustomerName, CustomerEmail]
      + (if showGstin then [CustomerGstin] else [])
      + (if showAddress then [CustomerAddress] else [])
      + [Description, Mrp, Discount]
  }

  /** No edit through a shown input changes the order number: it keeps the
      value it was generated with. */
  lemma OrderNumberStaysGenerated(d: InvoiceData, showGstin: bool, showAddress: bool, f: Field, value: string)
    requires f in Inputs(showGstin, showAddress)
    ensures Edit(d, f, value).order_no == d.order_no
  {
  }

  /** Every key other than the two optional ones and the order number has an
      input, whatever the toggles say. */
  lemma InputsAlwaysShown(showGstin: bool, showAddress: bool, f: Field)
    requires f != CustomerGstin && f != CustomerAddress && f != OrderNo
    ensures f in Inputs(showGstin, showAddress)
  {
    var r := Inputs(showGstin, showAddress);
    var n := |r|;
    match f
    case InvoiceNo => assert r[0] == f;
    case Date => assert r[1] == f;
    case CustomerName => assert r[2] == f;
    case CustomerEmail => assert r[3] == f;
    case Description => assert r[n - 3] == f;
    case Mrp => assert r[n - 2] == f;
    case Discount => assert r[n - 1] == f;
  }

  // ---------------------------------------------------------------------------
  // The form component's state

  class InvoiceForm {
    var data: InvoiceData
    var showGstin: bool
    var showAddress: bool

    /** Mounting the form: the default draft, both toggles off. */
    constructor (c: Clock)
      ensures data == Defaults(c) && !showGstin && !showAddress
    {
      data := Defaults(c);
      showGstin, showAddress := false, false;
    }

    /** The input with key `name` changed to `value`; only a shown input
        can change. */
    method InputChange(name: Field, value: string)
      requires name in Inputs(showGstin, showAddress)
      modifies this
      ensures data == Edit(old(data), name, value)
      ensures data.order_no == old(data.order_no)
      ensures showGstin == old(showGstin) && showAddress == old(showAddress)
    {
      data := Edit(data, name, value);
    }

    /** Clear: back to a default draft with fresh numbers, toggles off. */
    method Clear(c: Clock)
      modifies this
      ensures data == Defaults(c) && !showGstin && !showAddress
    {
      data := Defaults(c);
      showGstin := false;
      showAddress := false;
    }

    /** The "Show GSTIN" checkbox: hides or shows the input, and keeps the
        value it holds. */
    method SetShowGstin(checked: bool)
      modifies this
      ensures showGstin == checked
      ensures data == old(data) && showAddress == old(showAddress)
    {
      showGstin := checked;
    }

    /** The "Show Address" checkbox, likewise. */
    method SetShowAddress(checked: bool)
      modifies this
      ensures showAddress == checked
      ensures data == old(data) && showGstin == old(showGstin)
    {
      showAddress := checked;
    }

  }
}
