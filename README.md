# Invoice generator: a Dafny model

This project models the core of a single-page invoice generator for a
course-selling company. A user fills in a draft invoice in a form. The
form has customer details, a course description, an MRP and a discount,
an invoice number, a date and an order number. The user can ask for the
tax breakdown ("Calculate") and then generate a printable invoice
("Generate Invoice") showing the draft, its breakdown and a signature
picture. "Back to Form" returns from the invoice to the form.

The prices include 18% GST (goods and services tax). The calculator takes
the discounted price, divides the tax out and rounds with `toFixed(2)`.
It then splits the GST into equal central (CGST) and state (SGST)
halves.

The model has six modules:

- `Types` (`types.dfy`): the invoice record and the calculated amounts.
  - GSTIN and address are optional, so they are `Option<string>`.
  - Money is an exact `real`.
- `NumberText` (`number_text.dfy`): the JavaScript number/text operations the code relies on, on exact values.
  - `toFixed(2)` as `Round2`.
  - `toString` of an integer, and `padStart` with `"0"`.
  - `parseFloat` (section 19.2.4 of ECMA-262): white space, sign, digits, fraction and exponent.
- `Amounts` (`amounts.dfy`): `calculateAmounts`, step by step as the page computes it.
  - Also an independent reference computation in whole paise.
  - A lemma shows the two agree whenever the price is a whole number of paise.
- `Form` (`invoice_form.dfy`): the form component.
  - The generated invoice number.
  - The edit handler with its numeric coercion of MRP and discount.
  - The default draft, the Clear button and the two visibility toggles, as the class `InvoiceForm`.
- `Document` (`invoice_document.dfy`): the invoice document as a sequence of lines.
  - Line kinds: logo, headings, labelled lines, the description, amount rows, the signature picture and its caption.
  - What a reader sees of it: its labelled lines, its amount rows and its pictures.
- `Page` (`page.dfy`): the page component, as the class `Home`.
  - Its fields are `calculatedAmounts`, `showPDF`, `currentData` and `signatureUrl`, plus the mounted form, which exists only while the form is shown.
  - Handlers: Calculate, Generate, Back and the signature load.
  - `View` selects what is rendered.

Facts about the code that the model follows:

- **Back resets the draft.** Generate unmounts the form, because the form is rendered only while `showPDF` is false. Back mounts a new form, and its initial state is a fresh default draft with new invoice and order numbers. The draft is not kept across Back. `Page.Home.Back` states this.
- **The old summary stays.** `calculatedAmounts` survives Back, so the new, empty form shows the amount summary of the invoice generated before (`Page.GenerateAndReturn`).
- **No order-number input.** The form has no input for the order number, so the order number can only be the generated one (`Form.Inputs`, `Form.OrderNumberStaysGenerated`, `Form.InvoiceForm.InputChange`).
- **Rounding is not plain half-up.** `toFixed(2)` rounds the magnitude and then restores the sign, so negative amounts round their ties away from zero too.
- **CGST + SGST need not equal the GST.** CGST and SGST are the same rounded half of the GST, so an odd number of paise of GST leaves a half paisa that is rounded twice. On exact values the sum is one paisa more than the GST, away from zero (`Amounts.CgstPlusSgst`, `Amounts.OnePaisaGst`). In the running program the tie is decided by the binary double, so the sum can also come out one paisa short (see "## Left out").

## Model

| member | source | states |
|---|---|---|
| NumberText.Round2 | app/page.tsx:39-42 | `Number(x.toFixed(2))` is a whole number of hundredths within half a hundredth of x |
| NumberText.Round2Nearest | app/page.tsx:39 | no whole number of hundredths is nearer to x than the rounded one; an equally near one is smaller in magnitude, so ties go away from zero |
| NumberText.Round2OfCents | app/page.tsx:40 | rounding an amount that is already whole paise leaves it unchanged |
| NumberText.IntToString | components/InvoiceForm.tsx:15-16 | `toString` of an integer: a minus sign for a negative one, then its decimal digits without leading zeros; `NatToStringValue` and `ParseFloatIntToString` state that it reads back |
| NumberText.PadStart | components/InvoiceForm.tsx:15-16 | `padStart(n, "0")`: zeros put in front up to width n, text already that long kept; `PadNatValue` states its width and value |
| NumberText.NatToStringValue | components/InvoiceForm.tsx:15-16 | the digits `toString` writes for a number read back as that number |
| NumberText.PadNatValue | components/InvoiceForm.tsx:15-16 | padding a number of at most n digits with zeros gives exactly n digits that read back as the number |
| NumberText.ParseFloat | components/InvoiceForm.tsx:40 | `parseFloat`: skip leading white space, read an optional sign and the longest decimal literal, NaN (None) when there is none; its properties are the ParseFloat and Split lemmas below |
| NumberText.ScanDecimal | components/InvoiceForm.tsx:40 | the decimal literal `parseFloat` reads, when there is one, has at least one digit and only digits before and after the point |
| NumberText.IntegerSplit | components/InvoiceForm.tsx:40 | digits followed by text that is no digit and no point are read as those digits, with the exponent part the text starts with |
| NumberText.PointSplit | components/InvoiceForm.tsx:40 | digits, a point, digits and text that is no digit are read as that decimal, with the exponent part the text starts with |
| NumberText.ParseFloatDigits | components/InvoiceForm.tsx:40 | a run of digits parses as its value |
| NumberText.ParseFloatNegative | components/InvoiceForm.tsx:40 | a minus sign followed by digits parses as the negated value |
| NumberText.ParseFloatIntToString | components/InvoiceForm.tsx:30 | `parseFloat` reads back what `toString` writes for any integer |
| NumberText.ParseFloatEmpty | components/InvoiceForm.tsx:40 | an empty box, and any text whose first character is no white space, digit, sign or point (such as "abc"), reads as NaN |
| NumberText.ParseFloatFraction | components/InvoiceForm.tsx:40 | "12.50" reads as 12.5 |
| NumberText.ParseFloatBlankAndMinus | components/InvoiceForm.tsx:40 | " -0.25" reads as -0.25 |
| NumberText.ParseFloatExponent | components/InvoiceForm.tsx:40 | "1e3" reads as 1000 |
| NumberText.ParseFloatTrailingText | components/InvoiceForm.tsx:40 | "7px" reads as 7: text after the number is ignored |
| Amounts.CalculateAmounts | app/page.tsx:37-52 | the total is exactly MRP minus discount; SGST equals CGST; taxable, GST and CGST are whole paise; the taxable amount is within half a paisa of the price divided by 1.18, the GST within half a paisa of the price minus the rounded taxable amount, and CGST within half a paisa of half the GST |
| Amounts.CalculateDependsOnPriceOnly | app/page.tsx:37-52 | the breakdown depends only on MRP minus discount, so the same draft always gives the same breakdown |
| Amounts.TaxableAndGstMakeTotal | app/page.tsx:39-41 | for a price in whole paise, taxable amount plus GST is exactly the total |
| Amounts.DivRoundHalfAway | app/page.tsx:39-42 | the integer rounding of n / d: at most half a unit from n / d, and on a tie the one farther from zero |
| Amounts.NearestIsUnique | app/page.tsx:39-42 | only one integer is the rounding of n / d with ties away from zero |
| Amounts.CalculatePaise | app/page.tsx:37-52 | the reference breakdown in paise: the taxable amount is 100 p / 118 rounded to the nearest paisa, the GST is the rest of the price, and CGST = SGST is half the GST rounded to the nearest paisa, ties away from zero |
| Amounts.CalculateInPaise | app/page.tsx:37-52 | for a price in whole paise, the calculator gives exactly the paise reference breakdown |
| Amounts.Round2Ratio | app/page.tsx:39-42 | for the two divisors the page uses (118 for the taxable step, 2 for the halving), `toFixed(2)` of n / (100 d) is n / d rounded half away from zero, in hundredths |
| Amounts.TaxableInPaise | app/page.tsx:39 | the taxable step in paise is 100 p / 118 rounded half away from zero |
| Amounts.GstInPaise | app/page.tsx:40 | the GST step in paise is the price minus the taxable amount, with no rounding left to do |
| Amounts.CgstInPaise | app/page.tsx:42 | the CGST step in paise is half the GST rounded half away from zero |
| Amounts.HalvesOfGst | app/page.tsx:42-43 | twice the rounded half of g paise is g, or one more away from zero when g is odd |
| Amounts.CgstPlusSgst | app/page.tsx:42-43 | on exact values, CGST + SGST is the GST plus one paisa (away from zero) when the GST has an odd number of paise, and the GST otherwise |
| Amounts.ExampleThousand | app/page.tsx:37-52 | MRP 1000 with no discount gives 847.46, 152.54, 1000, 76.27, 76.27 |
| Amounts.ExampleDiscountAboveMrp | app/page.tsx:37-52 | MRP 100 with discount 150 is accepted, not rejected; on exact values it gives -42.37, -7.63, -50, -3.82, -3.82 |
| Amounts.OnePaisaGst | app/page.tsx:42-43 | whenever the GST comes out at one paisa, CGST = SGST = one paisa each: the half paisa is rounded up twice |
| Amounts.ExampleOddPaisa | app/page.tsx:37-52 | a price of 0.06 gives taxable 0.05, GST 0.01 and CGST = SGST = 0.01 |
| Form.InvoiceNumber | components/InvoiceForm.tsx:13-18 | `generateInvoiceNumber`: "INV/", the year, "-", the month padded to 2, "/" and the random serial padded to 4; `InvoiceNumberParts` states how it reads |
| Form.InvoiceNumberParts | components/InvoiceForm.tsx:13-18 | for a month index 0 to 11 and a random number in [0, 1), the invoice number is "INV/", the year, "-", two digits giving the month 1 to 12, "/" and four digits giving the serial 0 to 9999 |
| Form.PaddedInt | components/InvoiceForm.tsx:15-16 | a month padded to 2 and a serial padded to 4 have exactly that many digits and read back |
| Form.Edit | components/InvoiceForm.tsx:36-42 | an edit stores under its key `parseFloat(value) \|\| 0` for MRP and discount, and the text as typed for every other key |
| Form.EditKeepsOtherKeys | components/InvoiceForm.tsx:36-42 | an edit keeps every other key's value |
| Form.EditIsUnique | components/InvoiceForm.tsx:36-42 | the edited record is the only one with the new value under the key and every other key kept |
| Form.ReadDetermines | types/invoice.ts:1-12 | an invoice record is determined by what it holds under its ten keys |
| Form.EmptyAmountIsZero | components/InvoiceForm.tsx:40 | whenever parseFloat reads the typed text as NaN (an empty box, "abc"), the MRP or discount stores 0 |
| Form.Defaults | components/InvoiceForm.tsx:20-31 | the initial draft, also the one Clear sets (lines 53-64): empty texts, GSTIN and address present but empty, zero amounts, today's date and fresh invoice and order numbers; `DefaultsDifferOnlyInGenerated`, `OrderNumberReadsBack` and `DefaultsCalculateToZero` state its properties |
| Form.DefaultsDifferOnlyInGenerated | components/InvoiceForm.tsx:20-31 | two default drafts agree on every key except the date and the two generated numbers |
| Form.OrderNumberReadsBack | components/InvoiceForm.tsx:30 | the default order number is the clock time in decimal and reads back as that time |
| Form.DefaultsCalculateToZero | components/InvoiceForm.tsx:26-27 | a default draft breaks down to zero everywhere |
| Form.OrderNumberStaysGenerated | components/InvoiceForm.tsx:36-42 | no edit through a shown input changes the order number |
| Form.Inputs | components/InvoiceForm.tsx:88-228 | the GSTIN input is shown exactly when its toggle is on, the address input likewise, and there is never an order-number input |
| Form.InputsAlwaysShown | components/InvoiceForm.tsx:88-228 | every other key has an input whatever the toggles say |
| Form.InvoiceForm.constructor | components/InvoiceForm.tsx:20-34 | a mounted form holds the default draft with both toggles off |
| Form.InvoiceForm.InputChange | components/InvoiceForm.tsx:36-42 | only a shown input can change; the draft becomes the edit of the old draft, the order number is kept, and the toggles are unchanged |
| Form.InvoiceForm.Clear | components/InvoiceForm.tsx:52-67 | the draft becomes a default draft with fresh numbers, and both toggles turn off |
| Form.InvoiceForm.SetShowGstin | components/InvoiceForm.tsx:120-126 | the GSTIN toggle changes and nothing else; the draft keeps the hidden value |
| Form.InvoiceForm.SetShowAddress | components/InvoiceForm.tsx:129-135 | the address toggle changes and nothing else; the draft keeps the hidden value |
| Document.InvoiceDocument | components/InvoicePDF.tsx:147-224 | the invoice document: letterhead, header, Bill To, course details, amounts and signature block; the Document lemmas below state what it shows |
| Document.Letterhead | components/InvoicePDF.tsx:154-160 | the letterhead is six lines starting with the logo |
| Document.LetterheadIsFixed | components/InvoicePDF.tsx:154-160 | the first six lines are the same for every invoice, amounts and signature |
| Document.DocumentSections | components/InvoicePDF.tsx:150-220 | the document is the letterhead, the three header lines, then Bill To, the course details, the amounts and the signature block, in that order; its length is 20 plus the optional GSTIN, address and signature lines |
| Document.BillToViews | components/InvoicePDF.tsx:170-180 | Bill To shows name and email, then GSTIN and address each only when it has text, and no amounts or pictures |
| Document.DocumentLabelledLines | components/InvoicePDF.tsx:163-180 | the labelled lines are invoice number, date and order number, then name, email, GSTIN (if non-empty) and address (if non-empty), in that order |
| Document.DocumentAmountRows | components/InvoicePDF.tsx:187-212 | the amount rows are exactly MRP and discount from the invoice, then taxable amount, CGST, SGST and total from the breakdown, in that order; the GST total is not listed |
| Document.GstinLineIffText | components/InvoicePDF.tsx:174-176 | a GSTIN line with value v is printed exactly when the invoice's GSTIN is v and non-empty |
| Document.AddressLineIffText | components/InvoicePDF.tsx:177-179 | an address line with value v is printed exactly when the invoice's address is v and non-empty |
| Document.OnlyBillToLabels | components/InvoicePDF.tsx:163-185 | a labelled line whose label is not a header label can only come from Bill To |
| Document.SignatureIffSource | components/InvoicePDF.tsx:214-219 | the document shows one picture besides the logo, the signature source, exactly when that source is non-empty, and none otherwise |
| Document.CaptionIffSource | components/InvoicePDF.tsx:214-219 | the "Authorized Signatory" caption is printed exactly when the signature source is non-empty |
| Document.SignatureIsLast | components/InvoicePDF.tsx:214-219 | with a signature, the picture and the "Authorized Signatory" caption are the last two lines |
| Page.DefaultsShowNoOptionalLines | components/InvoicePDF.tsx:174-179 | a default draft prints neither a GSTIN nor an address line: only a non-empty value prints one |
| Page.Home.View | app/page.tsx:69-93 | the form is shown with the last breakdown exactly when `showPDF` is off; the document is shown exactly when `showPDF` is on and both snapshots exist, and then it is the document of the stored invoice and its breakdown |
| Page.Home.constructor | app/page.tsx:14-17 | nothing calculated, no invoice, no document, the signature at "/sign.png", and a freshly mounted form |
| Page.Home.SignatureLoaded | app/page.tsx:26-28 | the loaded data URL replaces the signature source; nothing else changes |
| Page.Home.Calculate | app/page.tsx:54-57 | the breakdown of the form's draft replaces the last one and the form shows it; `showPDF`, the invoice and the signature are unchanged |
| Page.Home.Generate | app/page.tsx:59-64 | the draft and its breakdown are stored, `showPDF` turns on, the form is unmounted, and the view is the document of that draft |
| Page.Home.Back | app/page.tsx:79 | `showPDF` turns off; the stored invoice, breakdown and signature are kept; a new form with a default draft is mounted and shows the kept breakdown |
| Page.GenerateAndReturn | app/page.tsx:59-93 | editing the MRP, generating and going back shows the edited invoice, then a default draft beside the previous invoice's summary |
| Page.HiddenGstinIsPrinted | components/InvoicePDF.tsx:174-176 | a GSTIN typed in and then hidden by its toggle is still printed on the generated invoice |

## Left out

- The signature load (app/page.tsx:20-35) fetches "/sign.png" and reads it as a data URL. This is asynchronous I/O. Only its effect is modelled: `Page.Home.SignatureLoaded` replaces the source. A fetch that throws changes nothing. A read that fails still sets the source, to null, which removes the signature; this is `SignatureLoaded("")`.
- `new Date()` and `Math.random()` are not called. The form takes a `Clock` value instead: today's date text, the year, the month index, a random number and the time in milliseconds.
- Amounts.CgstPlusSgst: holds on exact values only. In the program, halving an odd-paisa GST gives a tie that `toFixed(2)` decides on the binary double, so CGST + SGST can also fall one paisa short of the GST (an MRP of 50 gives a GST of 7.63 and CGST = SGST = 3.81), and `Amounts.ExampleDiscountAboveMrp` gives -3.81 there, not -3.82.
- Amounts are exact reals, not IEEE-754 doubles. Binary representation effects of `/ 1.18` and `toFixed` (such as 1.005 printing as "1.00") are not modelled.
- The `toFixed` branch for magnitudes of 10^21 and more, which prints an exponent form without rounding, is not modelled.
- `parseFloat` of the "Infinity" prefix is not modelled; there is no infinite real, so such text reads as NaN here.
- The "Rs. " prefix and the `toFixed(2)` text of amounts are not modelled. An amount line carries the number it formats.
- The document's layout, fonts, style sheet and the `PDFViewer` wrapper are not modelled, and neither is the form's static letterhead or its labels.
- The form's amount summary is modelled as the breakdown handed to it, not as its three text rows.
- The form's number inputs display `mrp || ''`; this display rule is not modelled.
- `next/dynamic`, `next.config.js` and styling are not modelled.
- The invoice and order numbers are not unique; nothing is claimed about uniqueness.
- NumberText.ParseFloatNegative and its neighbours characterise `parseFloat` on the inputs the invoice produces and on examples. A general round trip for every decimal literal is not stated.
