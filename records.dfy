/**
 * The spare-part record both generator variants produce, the fixed 22-column
 * export schema, and how each field is rendered as text in an exported row.
 */
module Records {
  import opened Text

  /** A supplier part number `${prefix}-${number}`, kept as its two parts. */
  datatype PartNumber = PartNumber(prefix: string, number: nat)

  /** An "L x W x H" dimension in centimetres. */
  datatype Dims = Dims(length: nat, width: nat, height: nat)

  /**
   * One row of the Recommended Spare Parts List. Numeric fields the source
   * renders with `${n}` are kept as numbers, and the supplier part number as
   * its prefix and number; weights are kept as the text the source stores (a
   * number or a `toFixed(2)` string).
   */
  datatype PartRecord = PartRecord(
    name: string,
    supplierPartNumber: PartNumber,
    cageCode: nat,
    hsCode: nat,
    coo: string,
    quantityPerAssembly: nat,
    partType: string,
    recommended2y: nat,
    recommended6y: nat,
    unitOfIssue: string,
    reason: string,
    minSalesQty: nat,
    standardPackageQty: nat,
    dimensionItem: Dims,
    weightItem: string,
    dimensionPackaging: Dims,
    weightPackaging: string,
    shelfLife: nat,
    specialStorage: string,
    repairLevel: string,
    requiredForHatSat: string,
    remarks: string)

  // The column titles of the export header. Each title is a function of its
  // own, so that a proof about one title does not have to unfold the others.
  function NameTitle(): string { "SPARE PART NAME" }
  function PartNumberTitle(): string { "SUPPLIER PART NUMBER" }
  function CageCodeTitle(): string { "CAGE CODE NO. SUPPLIER" }
  function HsCodeTitle(): string { "HS CODE" }
  function CooTitle(): string { "COO" }
  function QuantityTitle(): string { "QUANTITY PER ASSEMBLY" }
  function TypeTitle(): string { "TYPE (Pr/Cr/Con)" }
  function TwoYearTitle(): string { "NO. RECOM. SPARES 0-2 YEARS" }
  function SixYearTitle(): string { "NO. RECOM. SPARES 0-6 YEARS" }
  function UnitTitle(): string { "UNIT OF ISSUE" }
  function ReasonTitle(): string { "REASON FOR SELECTION" }
  function MinSalesTitle(): string { "MIN. SALES QTY" }
  function PackageQtyTitle(): string { "STANDARD PACKAGE QUANTITY" }
  function ItemDimsTitle(): string { "DIMENSION ITEM L x W x H (CM)" }
  function ItemWeightTitle(): string { "WEIGHT ITEM (KG)" }
  function PackDimsTitle(): string { "DIMENSION PACKAGING L x W x H (CM)" }
  function PackWeightTitle(): string { "WEIGHT PACKAGING (KG)" }
  function ShelfLifeTitle(): string { "SHELF LIFE (DAYS)" }
  function StorageTitle(): string { "SPECIAL STORAGE (Y/N)" }
  function RepairTitle(): string { "REPAIR LEVEL" }
  function HatSatTitle(): string { "REQUIRED FOR HAT/SAT (Y/N)" }
  function RemarksTitle(): string { "REMARKS" }

  // The header in groups of at most three titles, so that a proof about one
  // group does not have to unfold the titles of the others.
  function IdentityTitles(): seq<string> { [NameTitle(), PartNumberTitle(), CageCodeTitle()] }
  function OriginTitles(): seq<string> { [HsCodeTitle(), CooTitle(), QuantityTitle()] }
  function SparesTitles(): seq<string> { [TypeTitle(), TwoYearTitle(), SixYearTitle()] }
  function IssueTitles(): seq<string> { [UnitTitle(), ReasonTitle(), MinSalesTitle()] }
  function ItemTitles(): seq<string> { [PackageQtyTitle(), ItemDimsTitle(), ItemWeightTitle()] }
  function PackagingTitles(): seq<string> { [PackDimsTitle(), PackWeightTitle(), ShelfLifeTitle()] }
  function ServiceTitles(): seq<string> { [StorageTitle(), RepairTitle()] }
  function AcceptanceTitles(): seq<string> { [HatSatTitle(), RemarksTitle()] }

  /** The export header, in column order. */
  function Header(): (h: seq<string>)
    ensures |h| == 22
  {
    IdentityTitles() + OriginTitles() + SparesTitles() + IssueTitles()
      + ItemTitles() + PackagingTitles() + ServiceTitles() + AcceptanceTitles()
  }

  /** `${l} x ${w} x ${h}` */
  function DimsText(d: Dims): string {
    DecimalText(d.length) + " x " + DecimalText(d.width) + " x " + DecimalText(d.height)
  }

  /**
   * The value, in hundredths, of a decimal numeral `w`, `w.d` or `w.dd`
   * (w a non-empty run of digits); None for any other text.
   */
  function HundredthsValue(s: string): Option<nat> {
    if |s| >= 4 && s[|s| - 3] == '.' && AllDigits(s[..|s| - 3]) && AllDigits(s[|s| - 2..]) then
      Some(DecimalValue(s[..|s| - 3]) * 100 + DecimalValue(s[|s| - 2..]))
    else if |s| >= 3 && s[|s| - 2] == '.' && AllDigits(s[..|s| - 2]) && AllDigits(s[|s| - 1..]) then
      Some(DecimalValue(s[..|s| - 2]) * 100 + DecimalValue(s[|s| - 1..]) * 10)
    else if |s| >= 1 && AllDigits(s) then Some(DecimalValue(s) * 100)
    else None
  }

  /** JavaScript's text for a number of hundredths: it reads back as that number. */
  function NumberText(hundredths: nat): (r: string)
    ensures HundredthsValue(r) == Some(hundredths)
  {
    DecimalRoundTrip(hundredths / 100);
    PointText(DecimalText(hundredths / 100), hundredths % 100)
  }

  /**
   * The whole-number digits w followed by the shortest fraction for frac
   * hundredths: none, one digit or two.
   */
  function PointText(w: string, frac: nat): (r: string)
    requires |w| >= 1 && AllDigits(w) && frac < 100
    ensures HundredthsValue(r) == Some(DecimalValue(w) * 100 + frac)
  {
    if frac == 0 then
      WholeValue(w);
      w
    else if frac % 10 == 0 then
      OneDecimalValue(w, frac / 10);
      w + "." + [Digit(frac / 10)]
    else
      TwoDecimalsValue(w, frac / 10, frac % 10);
      w + "." + [Digit(frac / 10), Digit(frac % 10)]
  }

  /** The text has a point exactly when the number is not whole, and no trailing zero after it. */
  lemma NumberTextShape(hundredths: nat)
    ensures hundredths % 100 == 0 <==> '.' !in NumberText(hundredths)
    ensures hundredths % 100 != 0 ==> NumberText(hundredths)[|NumberText(hundredths)| - 1] != '0'
    ensures NumberText(hundredths)[0] != '0' || hundredths < 100
  {
    var w, frac := DecimalText(hundredths / 100), hundredths % 100;
    assert NumberText(hundredths) == PointText(w, frac);
    if frac == 0 {
      WholeValue(w);
    } else if frac % 10 == 0 {
      OneDecimalValue(w, frac / 10);
    } else {
      TwoDecimalsValue(w, frac / 10, frac % 10);
    }
  }

  /** `x.toFixed(2)` for a value already rounded to hundredths: exactly two digits after the point. */
  function Fixed2Text(hundredths: nat): (r: string)
    ensures HundredthsValue(r) == Some(hundredths)
    ensures |r| >= 4 && r[|r| - 3] == '.'
    ensures r[0] != '0' || hundredths < 100
  {
    var w, frac := DecimalText(hundredths / 100), hundredths % 100;
    DecimalRoundTrip(hundredths / 100);
    HundredthsDigits(hundredths);
    TwoDecimalsValue(w, frac / 10, frac % 10);
    w + "." + [Digit(frac / 10), Digit(frac % 10)]
  }

  /** A number of hundredths is its whole units, its tenths and its hundredths. */
  lemma HundredthsDigits(h: nat)
    ensures h == h / 100 * 100 + h % 100 / 10 * 10 + h % 100 % 10
  {
  }

  /** A run of digits reads as that many whole units and holds no point. */
  lemma WholeValue(w: string)
    requires |w| >= 1 && AllDigits(w)
    ensures HundredthsValue(w) == Some(DecimalValue(w) * 100)
    ensures '.' !in w
  {
    assert forall i :: 0 <= i < |w| ==> w[i] != '.';
  }

  /** Digits, a point and one digit d read as the whole units plus d tenths. */
  lemma OneDecimalValue(w: string, d: nat)
    requires |w| >= 1 && AllDigits(w) && d < 10
    ensures var r := w + "." + [Digit(d)];
      HundredthsValue(r) == Some(DecimalValue(w) * 100 + d * 10) && '.' in r && r[|r| - 1] == Digit(d)
  {
    var r := w + "." + [Digit(d)];
    assert r[..|r| - 2] == w && r[|r| - 1..] == [Digit(d)];
    assert r[|r| - 3] == w[|w| - 1] && IsDigit(w[|w| - 1]);
    assert r[|w|] == '.';
    assert DecimalValue([Digit(d)]) == d by { assert [Digit(d)][..0] == []; }
  }

  /** Digits, a point and two digits a, b read as the whole units plus a tenths and b hundredths. */
  lemma TwoDecimalsValue(w: string, a: nat, b: nat)
    requires |w| >= 1 && AllDigits(w) && a < 10 && b < 10
    ensures var r := w + "." + [Digit(a), Digit(b)];
      HundredthsValue(r) == Some(DecimalValue(w) * 100 + a * 10 + b) && |r| >= 4 && r[|r| - 3] == '.'
        && '.' in r && r[|r| - 1] == Digit(b)
  {
    var r := w + "." + [Digit(a), Digit(b)];
    assert r[..|r| - 3] == w && r[|r| - 2..] == [Digit(a), Digit(b)];
    assert r[|w|] == '.' && r[|r| - 3] == '.';
    TwoDigitsValue(a, b);
    assert AllDigits(r[|r| - 2..]);
  }

  lemma TwoDigitsValue(a: nat, b: nat)
    requires a < 10 && b < 10
    ensures DecimalValue([Digit(a), Digit(b)]) == a * 10 + b
  {
    var s := [Digit(a), Digit(b)];
    assert s[..1] == [Digit(a)] && [Digit(a)][..0] == [];
    assert DecimalValue([Digit(a)]) == a;
    assert DecimalValue(s) == DecimalValue(s[..1]) * 10 + (Digit(b) as int - '0' as int);
  }

  /** `${brand.substring(0, 3).toUpperCase()}-${n}` */
  function SupplierPartNumber(brand: string, n: nat): PartNumber {
    PartNumber(Upper(Prefix(brand, 3)), n)
  }

  /** The text of a supplier part number. */
  function PartNumberText(p: PartNumber): string {
    p.prefix + "-" + DecimalText(p.number)
  }

  /**
   * A supplier part number's text reads back as its parts: at most three
   * brand characters with no lower-case ASCII letter, a dash, then the digits
   * of n.
   */
  lemma SupplierPartNumberParts(brand: string, n: nat)
    ensures var s, p := PartNumberText(SupplierPartNumber(brand, n)), Upper(Prefix(brand, 3));
      && |p| <= 3 && |p| <= |brand|
      && (forall i :: 0 <= i < |p| ==> !IsLower(p[i]))
      && |s| > |p| && s[..|p|] == p && s[|p|] == '-'
      && AllDigits(s[|p| + 1..]) && DecimalValue(s[|p| + 1..]) == n
  {
    var s, p, d := PartNumberText(SupplierPartNumber(brand, n)), Upper(Prefix(brand, 3)), DecimalText(n);
    assert s == p + "-" + d;
    assert s[..|p|] == p && s[|p| + 1..] == d;
    DecimalRoundTrip(n);
  }

  /** Cell `col` of a record's export row, in header order. */
  function CellAt(r: PartRecord, col: nat): string {
    match col
    case 0 => r.name
    case 1 => PartNumberText(r.supplierPartNumber)
    case 2 => DecimalText(r.cageCode)
    case 3 => DecimalText(r.hsCode)
    case 4 => r.coo
    case 5 => DecimalText(r.quantityPerAssembly)
    case 6 => r.partType
    case 7 => DecimalText(r.recommended2y)
    case 8 => DecimalText(r.recommended6y)
    case 9 => r.unitOfIssue
    case 10 => r.reason
    case 11 => DecimalText(r.minSalesQty)
    case 12 => DecimalText(r.standardPackageQty)
    case 13 => DimsText(r.dimensionItem)
    case 14 => r.weightItem
    case 15 => DimsText(r.dimensionPackaging)
    case 16 => r.weightPackaging
    case 17 => DecimalText(r.shelfLife)
    case 18 => r.specialStorage
    case 19 => r.repairLevel
    case 20 => r.requiredForHatSat
    case _ => r.remarks
  }

  /** The 22 cells of a record's export row, in header order. */
  function Cells(r: PartRecord): (cells: seq<string>)
    ensures |cells| == |Header()|
    ensures forall col :: 0 <= col < 22 ==> cells[col] == CellAt(r, col)
  {
    seq(22, col requires 0 <= col < 22 => CellAt(r, col))
  }

  /** The header rows of both exports followed by one row of cells per record, in order. */
  function Table(results: seq<PartRecord>): (rows: seq<seq<string>>)
    ensures |rows| == |results| + 1 && rows[0] == Header()
    ensures forall k :: 0 <= k < |results| ==> rows[k + 1] == Cells(results[k])
  {
    [Header()] + seq(|results|, k requires 0 <= k < |results| => Cells(results[k]))
  }

  lemma DecimalTextFree(n: nat, c: char)
    requires !IsDigit(c)
    ensures c !in DecimalText(n)
  {
  }

  lemma DimsTextFree(d: Dims, c: char)
    requires !IsDigit(c) && c != ' ' && c != 'x'
    ensures c !in DimsText(d)
  {
    DecimalTextFree(d.length, c);
    DecimalTextFree(d.width, c);
    DecimalTextFree(d.height, c);
  }

  /** The free-text fields of a record, the only cells that can hold an arbitrary character. */
  predicate TextFieldsFree(r: PartRecord, c: char) {
    && c !in r.name && c !in r.supplierPartNumber.prefix && c !in r.coo && c !in r.partType
    && c !in r.unitOfIssue && c !in r.reason && c !in r.weightItem && c !in r.weightPackaging
    && c !in r.specialStorage && c !in r.repairLevel && c !in r.requiredForHatSat && c !in r.remarks
  }

  /**
   * A control character (such as a tab or a newline) can appear in a record's
   * cells only through its free-text fields; numbers and dimensions never hold one.
   */
  lemma CellsFree(r: PartRecord, c: char)
    requires !IsDigit(c) && c != ' ' && c != 'x' && c != '-'
    requires TextFieldsFree(r, c)
    ensures FreeOf(Cells(r), c)
  {
    forall col | 0 <= col < 22 ensures c !in CellAt(r, col) {
      CellFree(r, c, col);
    }
  }

  /** One column of CellsFree: a number, a dimension triple or a free-text field. */
  lemma CellFree(r: PartRecord, c: char, col: nat)
    requires !IsDigit(c) && c != ' ' && c != 'x' && c != '-'
    requires TextFieldsFree(r, c)
    ensures c !in CellAt(r, col)
  {
    match col
    case 1 =>
    case 2 => DecimalTextFree(r.cageCode, c);
    case 3 => DecimalTextFree(r.hsCode, c);
    case 5 => DecimalTextFree(r.quantityPerAssembly, c);
    case 7 => DecimalTextFree(r.recommended2y, c);
    case 8 => DecimalTextFree(r.recommended6y, c);
    case 11 => DecimalTextFree(r.minSalesQty, c);
    case 12 => DecimalTextFree(r.standardPackageQty, c);
    case 13 => DimsTextFree(r.dimensionItem, c);
    case 15 => DimsTextFree(r.dimensionPackaging, c);
    case 17 => DecimalTextFree(r.shelfLife, c);
    case _ =>
  }

  /** Neither a tab nor a newline: a cell that keeps a tab-separated line intact. */
  predicate SingleLineCell(s: string) { '\t' !in s && '\n' !in s }

  /** No cell of the list holds a tab or a newline. */
  predicate SingleLineCells(cells: seq<string>) {
    forall k :: 0 <= k < |cells| ==> SingleLineCell(cells[k])
  }

  lemma SingleLineConcat(a: seq<string>, b: seq<string>)
    requires SingleLineCells(a) && SingleLineCells(b)
    ensures SingleLineCells(a + b)
  {
    forall k | 0 <= k < |a + b| ensures SingleLineCell((a + b)[k]) {
      if k < |a| { assert (a + b)[k] == a[k]; } else { assert (a + b)[k] == b[k - |a|]; }
    }
  }

  /** No header cell holds a tab or a newline. */
  lemma HeaderFree()
    ensures FreeOf(Header(), '\t') && FreeOf(Header(), '\n')
  {
    var g1, g2, g3, g4 := IdentityTitles(), OriginTitles(), SparesTitles(), IssueTitles();
    var g5, g6, g7, g8 := ItemTitles(), PackagingTitles(), ServiceTitles(), AcceptanceTitles();
    IdentityFree(); OriginFree(); SparesFree(); IssueFree();
    ItemFree(); PackagingFree(); ServiceFree(); AcceptanceFree();
    SingleLineConcat(g1, g2);
    SingleLineConcat(g1 + g2, g3);
    SingleLineConcat(g1 + g2 + g3, g4);
    SingleLineConcat(g1 + g2 + g3 + g4, g5);
    SingleLineConcat(g1 + g2 + g3 + g4 + g5, g6);
    SingleLineConcat(g1 + g2 + g3 + g4 + g5 + g6, g7);
    SingleLineConcat(g1 + g2 + g3 + g4 + g5 + g6 + g7, g8);
    SingleLinesFree(Header());
  }

  lemma SingleLinesFree(cells: seq<string>)
    requires SingleLineCells(cells)
    ensures FreeOf(cells, '\t') && FreeOf(cells, '\n')
  {
  }

  lemma IdentityFree() ensures SingleLineCells(IdentityTitles()) { TitleFree0(); TitleFree1(); TitleFree2(); }
  lemma OriginFree() ensures SingleLineCells(OriginTitles()) { TitleFree3(); TitleFree4(); TitleFree5(); }
  lemma SparesFree() ensures SingleLineCells(SparesTitles()) { TitleFree6(); TitleFree7(); TitleFree8(); }
  lemma IssueFree() ensures SingleLineCells(IssueTitles()) { TitleFree9(); TitleFree10(); TitleFree11(); }
  lemma ItemFree() ensures SingleLineCells(ItemTitles()) { TitleFree12(); TitleFree13(); TitleFree14(); }
  lemma PackagingFree() ensures SingleLineCells(PackagingTitles()) { TitleFree15(); TitleFree16(); TitleFree17(); }
  lemma ServiceFree() ensures SingleLineCells(ServiceTitles()) { TitleFree18(); TitleFree19(); }
  lemma AcceptanceFree() ensures SingleLineCells(AcceptanceTitles()) { TitleFree20(); TitleFree21(); }

  // One lemma per title, so that each proof unfolds a single literal.
  lemma TitleFree0() ensures SingleLineCell(NameTitle()) { }
  lemma TitleFree1() ensures SingleLineCell(PartNumberTitle()) { }
  lemma TitleFree2() ensures SingleLineCell(CageCodeTitle()) { }
  lemma TitleFree3() ensures SingleLineCell(HsCodeTitle()) { }
  lemma TitleFree4() ensures SingleLineCell(CooTitle()) { }
  lemma TitleFree5() ensures SingleLineCell(QuantityTitle()) { }
  lemma TitleFree6() ensures SingleLineCell(TypeTitle()) { }
  lemma TitleFree7() ensures SingleLineCell(TwoYearTitle()) { }
  lemma TitleFree8() ensures SingleLineCell(SixYearTitle()) { }
  lemma TitleFree9() ensures SingleLineCell(UnitTitle()) { }
  lemma TitleFree10() ensures SingleLineCell(ReasonTitle()) { }
  lemma TitleFree11() ensures SingleLineCell(MinSalesTitle()) { }
  lemma TitleFree12() ensures SingleLineCell(PackageQtyTitle()) { }
  lemma TitleFree13() ensures SingleLineCell(ItemDimsTitle()) { }
  lemma TitleFree14() ensures SingleLineCell(ItemWeightTitle()) { }
  lemma TitleFree15() ensures SingleLineCell(PackDimsTitle()) { }
  lemma TitleFree16() ensures SingleLineCell(PackWeightTitle()) { }
  lemma TitleFree17() ensures SingleLineCell(ShelfLifeTitle()) { }
  lemma TitleFree18() ensures SingleLineCell(StorageTitle()) { }
  lemma TitleFree19() ensures SingleLineCell(RepairTitle()) { }
  lemma TitleFree20() ensures SingleLineCell(HatSatTitle()) { }
  lemma TitleFree21() ensures SingleLineCell(RemarksTitle()) { }
}
