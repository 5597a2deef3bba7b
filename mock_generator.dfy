/**
 * The randomised generator (src/App.jsx): a category library searched by the
 * lower-cased equipment type, mock supplier attributes drawn from bounded
 * random integers, the job list, and the comma-separated export whose cells
 * are quoted as section 2 of RFC 4180 describes.
 */
module MockGenerator {
  import opened Text
  import opened Records
  import opened Jobs
  import opened Csv

  // ---------------------------------------------------------------------
  // The parts library
  // ---------------------------------------------------------------------

  /** A library entry: name, type and the reason it is recommended. */
  datatype LibraryPart = LibraryPart(name: string, partType: string, reason: string)

  /** The key of category `i` of `partsLibrary`, in key order. */
  function CategoryKey(i: nat): string {
    match i
    case 0 => "oven"
    case 1 => "fryer"
    case 2 => "griddle"
    case 3 => "steamer"
    case 4 => "mixer"
    case _ => "dishwasher"
  }

  /** The number of parts category `i` lists. */
  function CategorySize(i: nat): nat {
    if i == 0 || i == 1 || i == 5 then 5 else 4
  }

  /** Part `k` of category `i`. */
  function LibraryEntry(i: nat, k: nat): LibraryPart {
    match (i, k)
    case (0, 0) => LibraryPart("Heating Element", "Cr", "Critical heat source component")
    case (0, 1) => LibraryPart("Temperature Sensor (RTD)", "Cr", "Temperature monitoring and control")
    case (0, 2) => LibraryPart("Door Seal Gasket Kit", "Con", "Consumable wear item")
    case (0, 3) => LibraryPart("Control Board/PCB", "Pr", "Essential for operation")
    case (0, _) => LibraryPart("Timer Module", "Cr", "Frequent failure item")
    case (1, 0) => LibraryPart("Immersion Heating Element", "Cr", "Subject to high thermal stress")
    case (1, 1) => LibraryPart("Thermostat Assembly", "Cr", "Critical safety component")
    case (1, 2) => LibraryPart("Basket (Stainless Steel)", "Con", "Consumable with regular wear")
    case (1, 3) => LibraryPart("Oil Filter Cartridge", "Con", "Regular maintenance requirement")
    case (1, _) => LibraryPart("Drain Valve Seal Kit", "Con", "Preventive maintenance item")
    case (2, 0) => LibraryPart("Surface Heating Element", "Cr", "Primary heat source")
    case (2, 1) => LibraryPart("Temperature Probe", "Cr", "Temperature regulation critical")
    case (2, 2) => LibraryPart("Griddle Plate (Cast Iron)", "Pr", "Replaceable wearing surface")
    case (2, _) => LibraryPart("Control Knob Assembly", "Con", "Subject to frequent use")
    case (3, 0) => LibraryPart("Boiler Heating Element", "Cr", "Water heating component")
    case (3, 1) => LibraryPart("Pressure Switch", "Cr", "Safety critical device")
    case (3, 2) => LibraryPart("Door Gasket Set", "Con", "Steam exposure causes degradation")
    case (3, _) => LibraryPart("Safety Relief Valve", "Pr", "Pressure management")
    case (4, 0) => LibraryPart("Motor (3-Phase)", "Pr", "Drive component")
    case (4, 1) => LibraryPart("Gear Box", "Pr", "Transmission component")
    case (4, 2) => LibraryPart("Whip/Beater Attachment", "Con", "Consumable mixing element")
    case (4, _) => LibraryPart("Shaft Seal Kit", "Con", "Leakage prevention")
    case (_, 0) => LibraryPart("Wash Pump Motor", "Pr", "Essential for wash cycle")
    case (_, 1) => LibraryPart("Heating Element (Booster)", "Cr", "Water heating")
    case (_, 2) => LibraryPart("Spray Arm Assembly", "Con", "Replaceable component")
    case (_, 3) => LibraryPart("Door Latch Mechanism", "Pr", "Safety control")
    case (_, _) => LibraryPart("Drain Pump Motor", "Cr", "Critical for drain cycle")
  }

  /** The part list of category `i`. */
  function CategoryParts(i: nat): (parts: seq<LibraryPart>)
    ensures |parts| == CategorySize(i)
    ensures forall k :: 0 <= k < |parts| ==> parts[k] == LibraryEntry(i, k)
  {
    seq(CategorySize(i), k requires 0 <= k < CategorySize(i) => LibraryEntry(i, k))
  }

  /** Entry `i` of `partsLibrary`, in its key order. */
  function LibraryCategory(i: nat): (string, seq<LibraryPart>) {
    (CategoryKey(i), CategoryParts(i))
  }

  /** `partsLibrary`: six category keys, each with its part list. */
  function PartsLibrary(): (t: seq<(string, seq<LibraryPart>)>)
    ensures |t| == 6
    ensures forall i :: 0 <= i < 6 ==> t[i] == LibraryCategory(i)
  {
    seq(6, i requires 0 <= i < 6 => LibraryCategory(i))
  }

  /** The generic pair used when no category matches. */
  function GenericLibrary(): seq<LibraryPart> {
    [ LibraryPart("Control Board/PCB", "Pr", "Essential electronic component"),
      LibraryPart("Replacement Filter/Element", "Con", "Regular maintenance") ]
  }

  function MockCountries(): seq<string> { ["NL", "DE", "IT", "ES", "SE"] }

  function Units(): seq<string> { ["EA", "SET", "KIT", "BOX"] }

  function MockRemarks(): string { "Original manufacturer recommended" + " / " + "Verify part compatibility before ordering" }

  // ---------------------------------------------------------------------
  // Category search (the `for ... in` loop with its 'default' guard)
  // ---------------------------------------------------------------------

  /** The loop's test: the key is not 'default' and occurs in s. */
  predicate Selectable(key: string, s: string) {
    key != "default" && Contains(s, key)
  }

  /** The position of the first selectable key, in table order. */
  function FirstCategory<T>(table: seq<(string, T)>, s: string): (r: Option<nat>)
    ensures r.Some? ==> r.value < |table| && Selectable(table[r.value].0, s)
    ensures r.Some? ==> forall j :: 0 <= j < r.value ==> !Selectable(table[j].0, s)
    ensures r.None? <==> forall j :: 0 <= j < |table| ==> !Selectable(table[j].0, s)
  {
    if table == [] then None
    else if Selectable(table[0].0, s) then Some(0)
    else match FirstCategory(table[1..], s)
      case None => None
      case Some(k) => Some(k + 1)
  }

  /** The search loop: scans the keys in order and breaks at the first selectable one. */
  method FindCategory<T>(table: seq<(string, T)>, s: string) returns (r: Option<nat>)
    ensures r == FirstCategory(table, s)
  {
    var k := 0;
    while k < |table|
      invariant 0 <= k <= |table|
      invariant forall j :: 0 <= j < k ==> !Selectable(table[j].0, s)
    {
      if table[k].0 != "default" && Contains(s, table[k].0) {
        FirstCategoryAt(table, s, k);
        return Some(k);
      }
      k := k + 1;
    }
    return None;
  }

  lemma FirstCategoryAt<T>(table: seq<(string, T)>, s: string, k: nat)
    requires k < |table| && Selectable(table[k].0, s)
    requires forall j :: 0 <= j < k ==> !Selectable(table[j].0, s)
    ensures FirstCategory(table, s) == Some(k)
  {
  }

  /** In a table without a 'default' key the guard never matters: the search is the plain first match. */
  lemma {:induction false} GuardInert<T>(table: seq<(string, T)>, s: string)
    requires forall j :: 0 <= j < |table| ==> table[j].0 != "default"
    ensures FirstCategory(table, s) == FirstContainedKey(table, s)
    decreases |table|
  {
    if table != [] {
      GuardInert(table[1..], s);
    }
  }

  /** The library has no 'default' key. */
  lemma LibraryHasNoDefault()
    ensures forall j :: 0 <= j < |PartsLibrary()| ==> PartsLibrary()[j].0 != "default"
  {
  }

  // ---------------------------------------------------------------------
  // Random draws
  // ---------------------------------------------------------------------

  /**
   * The draws of one `generateMockSupplierData` call: each
   * `Math.floor(Math.random() * k)` is a number below k, each weight the
   * hundredths `toFixed(2)` yields, and the storage coin `Math.random() > 0.5`.
   */
  datatype SupplierDraws = SupplierDraws(
    hs: nat, coo: nat, partNumber: nat, cage: nat, minSales: nat, packageQty: nat,
    itemL: nat, itemW: nat, itemH: nat, itemWeight: nat,
    packL: nat, packW: nat, packH: nat, packWeight: nat,
    shelfLife: nat, storage: bool)

  predicate SupplierInRange(d: SupplierDraws) {
    && d.hs < 8000 && d.coo < 5 && d.partNumber < 9000 && d.cage < 90000
    && d.minSales < 5 && d.packageQty < 10
    && d.itemL < 50 && d.itemW < 40 && d.itemH < 30 && 50 <= d.itemWeight <= 5050
    && d.packL < 80 && d.packW < 60 && d.packH < 50 && 100 <= d.packWeight <= 10100
    && d.shelfLife < 2000
  }

  type SupplierDraw = d: SupplierDraws | SupplierInRange(d)
    witness SupplierDraws(0, 0, 0, 0, 0, 0, 0, 0, 0, 50, 0, 0, 0, 100, 0, false)

  /** The per-part draws of the final `.map`: two coins and four bounded integers. */
  datatype PartDraws = PartDraws(repair: bool, hatSat: bool, unit: nat, quantity: nat, twoYear: nat, sixYear: nat)

  predicate PartInRange(d: PartDraws) {
    d.unit < 4 && d.quantity < 4 && d.twoYear < 3 && d.sixYear < 5
  }

  type PartDraw = d: PartDraws | PartInRange(d) witness PartDraws(false, false, 0, 0, 0, 0)

  // ---------------------------------------------------------------------
  // Mock supplier data and part records
  // ---------------------------------------------------------------------

  /** The object `generateMockSupplierData` returns. */
  datatype SupplierData = SupplierData(
    supplierPartNumber: PartNumber,
    cageCode: nat,
    hsCode: nat,
    coo: string,
    minSalesQty: nat,
    standardPackageQty: nat,
    dimensionItem: Dims,
    weightItem: string,
    dimensionPackaging: Dims,
    weightPackaging: string,
    shelfLife: nat,
    specialStorage: string)

  /**
   * `generateMockSupplierData(partName, brand, equipmentType)`; only the brand
   * is used. Every attribute stays in its range: minimum sales 1..5, package
   * quantity 1..10, CAGE code 10000..99999, HS code 8400..16399, a country
   * from the list, item dimensions 10..59 x 5..44 x 3..32 and packaging
   * dimensions 20..99 x 15..74 x 10..59, weights with two decimals between
   * 0.50 and 50.50 (item) and 1.00 and 101.00 (packaging), shelf life
   * 365..2364 days, storage 'Y' or 'N', and the part number the brand prefix
   * with a number in 1000..9999.
   */
  function MockSupplierData(brand: string, d: SupplierDraw): (s: SupplierData)
    ensures 1 <= s.minSalesQty <= 5 && 1 <= s.standardPackageQty <= 10
    ensures 10000 <= s.cageCode <= 99999 && 8400 <= s.hsCode <= 16399
    ensures s.coo in MockCountries()
    ensures 10 <= s.dimensionItem.length <= 59 && 5 <= s.dimensionItem.width <= 44 && 3 <= s.dimensionItem.height <= 32
    ensures 20 <= s.dimensionPackaging.length <= 99 && 15 <= s.dimensionPackaging.width <= 74
      && 10 <= s.dimensionPackaging.height <= 59
    ensures HundredthsValue(s.weightItem).Some? && 50 <= HundredthsValue(s.weightItem).value <= 5050
    ensures HundredthsValue(s.weightPackaging).Some? && 100 <= HundredthsValue(s.weightPackaging).value <= 10100
    ensures 365 <= s.shelfLife <= 2364
    ensures s.specialStorage == "Y" || s.specialStorage == "N"
    ensures s.supplierPartNumber.prefix == Upper(Prefix(brand, 3))
    ensures 1000 <= s.supplierPartNumber.number <= 9999
  {
    SupplierData(
      supplierPartNumber := SupplierPartNumber(brand, d.partNumber + 1000),
      cageCode := d.cage + 10000,
      hsCode := d.hs + 8400,
      coo := MockCountries()[d.coo],
      minSalesQty := d.minSales + 1,
      standardPackageQty := d.packageQty + 1,
      dimensionItem := Dims(d.itemL + 10, d.itemW + 5, d.itemH + 3),
      weightItem := Fixed2Text(d.itemWeight),
      dimensionPackaging := Dims(d.packL + 20, d.packW + 15, d.packH + 10),
      weightPackaging := Fixed2Text(d.packWeight),
      shelfLife := d.shelfLife + 365,
      specialStorage := if d.storage then "Y" else "N")
  }

  /** A generated part: the library entry and supplier data as a record, plus the brand and type it was made for. */
  datatype MockPart = MockPart(record: PartRecord, brand: string, equipmentType: string)

  /**
   * One element of the final `.map`: the spread of the library part, brand,
   * type, supplier data and per-part draws. It keeps the library's name, type
   * and reason, carries the given brand and type, and takes the supplier
   * fields from `MockSupplierData`.
   */
  function MockPartFrom(part: LibraryPart, brand: string, equipmentType: string, s: SupplierDraw, p: PartDraw): (m: MockPart)
    ensures m.record.name == part.name && m.record.partType == part.partType && m.record.reason == part.reason
    ensures m.brand == brand && m.equipmentType == equipmentType
    ensures var sd := MockSupplierData(brand, s);
      && m.record.supplierPartNumber == sd.supplierPartNumber && m.record.cageCode == sd.cageCode
      && m.record.hsCode == sd.hsCode && m.record.coo == sd.coo
      && m.record.minSalesQty == sd.minSalesQty && m.record.standardPackageQty == sd.standardPackageQty
      && m.record.dimensionItem == sd.dimensionItem && m.record.weightItem == sd.weightItem
      && m.record.dimensionPackaging == sd.dimensionPackaging && m.record.weightPackaging == sd.weightPackaging
      && m.record.shelfLife == sd.shelfLife && m.record.specialStorage == sd.specialStorage
  {
    var sd := MockSupplierData(brand, s);
    MockPart(
      PartRecord(
        name := part.name,
        supplierPartNumber := sd.supplierPartNumber,
        cageCode := sd.cageCode,
        hsCode := sd.hsCode,
        coo := sd.coo,
        quantityPerAssembly := p.quantity + 1,
        partType := part.partType,
        recommended2y := p.twoYear + 1,
        recommended6y := p.sixYear + 2,
        unitOfIssue := Units()[p.unit],
        reason := part.reason,
        minSalesQty := sd.minSalesQty,
        standardPackageQty := sd.standardPackageQty,
        dimensionItem := sd.dimensionItem,
        weightItem := sd.weightItem,
        dimensionPackaging := sd.dimensionPackaging,
        weightPackaging := sd.weightPackaging,
        shelfLife := sd.shelfLife,
        specialStorage := sd.specialStorage,
        repairLevel := if p.repair then "CLM" else "DLM",
        requiredForHatSat := if p.hatSat then "Y" else "N",
        remarks := MockRemarks()),
      brand, equipmentType)
  }

  /**
   * The per-part draws stay in range: repair level CLM or DLM, HAT/SAT Y or
   * N, quantity per assembly 1..4, two-year spares 1..3, six-year spares 2..6,
   * and the supplier fields as `generateMockSupplierData` bounds them.
   */
  lemma MockPartBounds(part: LibraryPart, brand: string, equipmentType: string, s: SupplierDraw, p: PartDraw)
    ensures var r := MockPartFrom(part, brand, equipmentType, s, p).record;
      && (r.repairLevel == "CLM" || r.repairLevel == "DLM")
      && (r.requiredForHatSat == "Y" || r.requiredForHatSat == "N")
      && 1 <= r.quantityPerAssembly <= 4
      && 1 <= r.recommended2y <= 3 && 2 <= r.recommended6y <= 6
      && 1 <= r.minSalesQty <= 5 && 1 <= r.standardPackageQty <= 10
      && 10000 <= r.cageCode <= 99999 && 8400 <= r.hsCode <= 16399
      && 365 <= r.shelfLife <= 2364
  {
  }

  /** The unit of issue is one of EA, SET, KIT and BOX. */
  lemma MockPartUnit(part: LibraryPart, brand: string, equipmentType: string, s: SupplierDraw, p: PartDraw)
    ensures MockPartFrom(part, brand, equipmentType, s, p).record.unitOfIssue in Units()
  {
  }

  /**
   * Unlike the deterministic variant, six-year spares can fall below
   * two-year spares: a two-year draw of 2 and a six-year draw of 0 give 3
   * and 2.
   */
  lemma SixYearBelowTwoYear(part: LibraryPart, brand: string, equipmentType: string, s: SupplierDraw, p: PartDraw)
    requires p.twoYear == 2 && p.sixYear == 0
    ensures var r := MockPartFrom(part, brand, equipmentType, s, p).record;
      r.recommended6y < r.recommended2y
  {
  }

  // ---------------------------------------------------------------------
  // generateSparePartsFromEquipment
  // ---------------------------------------------------------------------

  /** `selectedParts.map(...)`, part k using supplier draws sd(k) and part draws pd(k). */
  function MockParts(parts: seq<LibraryPart>, brand: string, equipmentType: string,
                     sd: nat -> SupplierDraw, pd: nat -> PartDraw): (r: seq<MockPart>)
    ensures |r| == |parts|
    ensures forall k :: 0 <= k < |parts| ==> r[k] == MockPartFrom(parts[k], brand, equipmentType, sd(k), pd(k))
  {
    seq(|parts|, k requires 0 <= k < |parts| => MockPartFrom(parts[k], brand, equipmentType, sd(k), pd(k)))
  }

  /** The list of the first selectable category, or `fallback` when there is none or it is empty. */
  function Selection<T>(table: seq<(string, seq<T>)>, fallback: seq<T>, s: string): seq<T> {
    var selected := match FirstCategory(table, s)
      case Some(i) => table[i].1
      case None => [];
    if |selected| == 0 then fallback else selected
  }

  /** The search loop, then the fallback when nothing (or an empty list) was selected. */
  method SelectParts<T>(table: seq<(string, seq<T>)>, fallback: seq<T>, s: string) returns (selected: seq<T>)
    ensures selected == Selection(table, fallback, s)
  {
    var hit := FindCategory(table, s);
    selected := [];
    if hit.Some? {
      selected := table[hit.value].1;
    }
    if |selected| == 0 {
      selected := fallback;
    }
  }

  function SparePartsSpec(brand: string, equipmentType: string, sd: nat -> SupplierDraw, pd: nat -> PartDraw): seq<MockPart> {
    MockParts(Selection(PartsLibrary(), GenericLibrary(), Lower(equipmentType)), brand, equipmentType, sd, pd)
  }

  /** `generateSparePartsFromEquipment(brand, equipmentType)` with the given draws. */
  method GenerateSpareParts(brand: string, equipmentType: string, sd: nat -> SupplierDraw, pd: nat -> PartDraw)
    returns (parts: seq<MockPart>)
    ensures parts == SparePartsSpec(brand, equipmentType, sd, pd)
  {
    var equipmentLower := Lower(equipmentType);
    var selected := SelectParts(PartsLibrary(), GenericLibrary(), equipmentLower);
    parts := MockParts(selected, brand, equipmentType, sd, pd);
  }

  /** The library's categories each list at least four parts. */
  lemma LibraryNonEmpty()
    ensures forall i :: 0 <= i < |PartsLibrary()| ==> |PartsLibrary()[i].1| >= 4
  {
  }

  /** `r` lists `parts` in order, each with its name, type and reason, for the given brand and type. */
  predicate KeepsParts(r: seq<MockPart>, parts: seq<LibraryPart>, brand: string, equipmentType: string) {
    && |r| == |parts|
    && forall k :: 0 <= k < |r| ==>
         && r[k].record.name == parts[k].name && r[k].record.partType == parts[k].partType
         && r[k].record.reason == parts[k].reason
         && r[k].brand == brand && r[k].equipmentType == equipmentType
  }

  /** The generated list keeps the chosen parts' length and order, with their names, types and reasons. */
  lemma MockPartsKeep(parts: seq<LibraryPart>, brand: string, equipmentType: string,
                      sd: nat -> SupplierDraw, pd: nat -> PartDraw)
    ensures KeepsParts(MockParts(parts, brand, equipmentType, sd, pd), parts, brand, equipmentType)
  {
    var r := MockParts(parts, brand, equipmentType, sd, pd);
    forall k | 0 <= k < |r|
      ensures && r[k].record.name == parts[k].name && r[k].record.partType == parts[k].partType
              && r[k].record.reason == parts[k].reason
              && r[k].brand == brand && r[k].equipmentType == equipmentType
    {
    }
  }

  /**
   * Category lookup: the first category in table order whose key occurs in
   * the lower-cased type supplies the parts, in order, each keeping its
   * name, type and reason.
   */
  lemma MockCategory(brand: string, equipmentType: string, sd: nat -> SupplierDraw, pd: nat -> PartDraw, i: nat)
    requires FirstContainedKey(PartsLibrary(), Lower(equipmentType)) == Some(i)
    ensures KeepsParts(SparePartsSpec(brand, equipmentType, sd, pd), PartsLibrary()[i].1, brand, equipmentType)
  {
    var parts := PartsLibrary()[i].1;
    LibraryHasNoDefault();
    GuardInert(PartsLibrary(), Lower(equipmentType));
    LibraryNonEmpty();
    assert Selection(PartsLibrary(), GenericLibrary(), Lower(equipmentType)) == parts;
    MockPartsKeep(parts, brand, equipmentType, sd, pd);
  }

  /** With no category key in the type, the generic pair, in order. */
  lemma MockGeneric(brand: string, equipmentType: string, sd: nat -> SupplierDraw, pd: nat -> PartDraw)
    requires forall j :: 0 <= j < |PartsLibrary()| ==> !Contains(Lower(equipmentType), PartsLibrary()[j].0)
    ensures KeepsParts(SparePartsSpec(brand, equipmentType, sd, pd), GenericLibrary(), brand, equipmentType)
  {
    LibraryHasNoDefault();
    GuardInert(PartsLibrary(), Lower(equipmentType));
    assert Selection(PartsLibrary(), GenericLibrary(), Lower(equipmentType)) == GenericLibrary();
    MockPartsKeep(GenericLibrary(), brand, equipmentType, sd, pd);
  }

  /** The generated list is never empty: at least the two generic parts. */
  lemma SparePartsNonEmpty(brand: string, equipmentType: string, sd: nat -> SupplierDraw, pd: nat -> PartDraw)
    ensures |SparePartsSpec(brand, equipmentType, sd, pd)| >= 2
  {
    LibraryNonEmpty();
    var s := Lower(equipmentType);
    match FirstCategory(PartsLibrary(), s) {
      case Some(i) => assert |Selection(PartsLibrary(), GenericLibrary(), s)| == |PartsLibrary()[i].1|;
      case None => assert Selection(PartsLibrary(), GenericLibrary(), s) == GenericLibrary();
    }
  }

  // ---------------------------------------------------------------------
  // CSV export (downloadAsExcel)
  // ---------------------------------------------------------------------

  function ReportTitle(): string { "RSPL Report - " }

  function GeneratedLabel(): string { "Generated: " }

  /** The three lines before the table: title, generation date and a blank line. */
  function CsvPreamble(brand: string, equipmentType: string, date: string): string {
    ReportTitle() + brand + " " + equipmentType + "\n" + GeneratedLabel() + date + "\n" + "\n"
  }

  function PartRecords(parts: seq<MockPart>): (r: seq<PartRecord>)
    ensures |r| == |parts|
    ensures forall k :: 0 <= k < |parts| ==> r[k] == parts[k].record
  {
    seq(|parts|, k requires 0 <= k < |parts| => parts[k].record)
  }

  function CsvDocument(brand: string, equipmentType: string, date: string, results: seq<MockPart>): string {
    CsvPreamble(brand, equipmentType, date) + EncodeRows(Table(PartRecords(results)))
  }

  /**
   * `downloadAsExcel(jobId)` up to the download, with the formatted date as
   * a parameter: nothing without a job of that id.
   */
  method ExportCsv(jobs: seq<Job<MockPart>>, id: string, date: string) returns (content: Option<string>)
    ensures FindJob(jobs, id).None? ==> content == None
    ensures FindJob(jobs, id).Some? ==>
      var job := jobs[FindJob(jobs, id).value];
      content == Some(CsvDocument(job.brand, job.equipmentType, date, job.results))
  {
    var found := FindJob(jobs, id);
    if found.None? {
      return None;
    }
    var job := jobs[found.value];
    var csv := WriteCsv(job.brand, job.equipmentType, date, job.results);
    content := Some(csv);
  }

  /** The preamble, then one `forEach` step per row of `ws_data` appending its escaped, comma-joined cells. */
  method WriteCsv(brand: string, equipmentType: string, date: string, results: seq<MockPart>) returns (csv: string)
    ensures csv == CsvDocument(brand, equipmentType, date, results)
  {
    csv := ReportTitle() + brand + " " + equipmentType + "\n";
    csv := csv + GeneratedLabel() + date + "\n";
    csv := csv + "\n";
    var wsData := Table(PartRecords(results));
    csv := AppendLines(csv, wsData, EncodeRow);
  }

  /** Without a newline in the brand, type or date, the preamble is exactly the three lines. */
  lemma PreambleLines(brand: string, equipmentType: string, date: string)
    requires '\n' !in brand && '\n' !in equipmentType && '\n' !in date
    ensures SplitLines(CsvPreamble(brand, equipmentType, date))
      == [ReportTitle() + brand + " " + equipmentType, GeneratedLabel() + date, ""]
  {
    var title := ReportTitle() + brand + " " + equipmentType;
    var generated := GeneratedLabel() + date;
    var lines := [title, generated, ""];
    assert '\n' !in ReportTitle() && '\n' !in GeneratedLabel();
    assert '\n' !in title && '\n' !in generated;
    assert lines == [title] + [generated, ""] && [generated, ""] == [generated] + [""];
    TerminatedCons(title, [generated, ""]);
    TerminatedCons(generated, [""]);
    assert Terminated([""]) == "\n" by { assert [""][..0] == []; }
    assert Terminated(lines) == CsvPreamble(brand, equipmentType, date);
    SplitTerminated(lines);
  }

  /**
   * After the preamble, the export reads back, under the quoting rules of
   * section 2 of RFC 4180 with line-feed record ends, as the table: the 22-column header followed by
   * one row of cells per result, in results order.
   */
  lemma CsvTableRoundTrip(brand: string, equipmentType: string, date: string, results: seq<MockPart>)
    ensures var doc, pre := CsvDocument(brand, equipmentType, date, results), CsvPreamble(brand, equipmentType, date);
      && |doc| >= |pre| && doc[..|pre|] == pre
      && ParseRows(doc[|pre|..]) == Some(Table(PartRecords(results)))
  {
    var rows := Table(PartRecords(results));
    var pre := CsvPreamble(brand, equipmentType, date);
    var body := EncodeRows(rows);
    assert CsvDocument(brand, equipmentType, date, results) == pre + body;
    PrefixSplit(pre, body);
    TableRowsNonEmpty(PartRecords(results));
    RowsRoundTrip(rows);
  }

  /** A concatenation splits back at the length of its first part. */
  lemma PrefixSplit(pre: string, body: string)
    ensures |pre + body| >= |pre| && (pre + body)[..|pre|] == pre && (pre + body)[|pre|..] == body
  {
  }

  /** Every row of the export table, the header included, has 22 cells. */
  lemma TableRowsNonEmpty(records: seq<PartRecord>)
    ensures forall k :: 0 <= k < |Table(records)| ==> |Table(records)[k]| == 22
  {
    var rows := Table(records);
    forall k | 0 <= k < |rows| ensures |rows[k]| == 22 {
      if k > 0 {
        assert rows[k] == Cells(records[k - 1]);
      }
    }
  }

  // ---------------------------------------------------------------------
  // The component state and startProcessing
  // ---------------------------------------------------------------------

  /** The progress value of the PDF step: 15, only when a PDF was chosen. */
  function PdfCheckpoint(hasPdf: bool): seq<nat> {
    if hasPdf then [15] else []
  }

  /** The progress values `startProcessing` sets, in order. */
  function MockCheckpoints(hasPdf: bool): seq<nat> {
    [0] + PdfCheckpoint(hasPdf) + [30, 50, 70, 85, 100]
  }

  lemma MockCheckpointsMonotone(hasPdf: bool)
    ensures var c := MockCheckpoints(hasPdf);
      NonDecreasing(c) && c[0] == 0 && c[|c| - 1] == 100
  {
  }

  /** The checkpoints of the stages of a run, in order, are the run's checkpoints. */
  lemma MockCheckpointStages(log: seq<nat>, hasPdf: bool)
    ensures log + [0] + (PdfCheckpoint(hasPdf) + [30, 50]) + [70, 85, 100] == log + MockCheckpoints(hasPdf)
  {
  }

  /**
   * The job list after a run with the given inputs: the new 'processing' job
   * at the front, then every entry with the run's id replaced by the
   * completed job carrying the generated parts.
   */
  function MockRunJobs(jobs: seq<Job<MockPart>>, id: string, pdf: Option<Upload>, brand: string, equipmentType: string,
                       sd: nat -> SupplierDraw, pd: nat -> PartDraw): seq<Job<MockPart>> {
    var created := NewJob<MockPart>(id, brand, equipmentType, if pdf.Some? then Some(pdf.value.name) else None);
    CompleteJobs([created] + jobs, id, created, SparePartsSpec(Trim(brand), Trim(equipmentType), sd, pd))
  }

  /** The state the component keeps with `useState`, as far as the generation pipeline uses it. */
  class Session {
    var jobs: seq<Job<MockPart>>
    var pdf: Option<Upload>
    var brand: string
    var equipmentType: string
    var processing: bool
    var progress: nat
    ghost var progressLog: seq<nat>

    constructor ()
      ensures jobs == [] && pdf == None && brand == "" && equipmentType == ""
      ensures !processing && progress == 0 && progressLog == []
    {
      jobs, pdf, brand, equipmentType := [], None, "", "";
      processing, progress, progressLog := false, 0, [];
    }

    /** `handlePdfUpload`: only a file of type application/pdf is kept. */
    method HandlePdfUpload(file: Option<Upload>)
      modifies this`pdf
      ensures pdf == if file.Some? && file.value.mimeType == "application/pdf" then file else old(pdf)
    {
      if file.Some? && file.value.mimeType == "application/pdf" {
        pdf := file;
      }
    }

    /** The brand and type input fields. */
    method EnterDetails(newBrand: string, newType: string)
      modifies this`brand, this`equipmentType
      ensures brand == newBrand && equipmentType == newType
    {
      brand, equipmentType := newBrand, newType;
    }

    method SetProgress(p: nat)
      modifies this`progress, this`progressLog
      ensures progress == p && progressLog == old(progressLog) + [p]
    {
      progress := p;
      progressLog := progressLog + [p];
    }

    /**
     * `startProcessing` with `id` as the generated job id, run to completion.
     * Nothing happens when the trimmed brand or type is empty; otherwise one
     * 'processing' job is put at the front, the parts are generated from the
     * trimmed inputs, and the entries with that id become the completed job.
     */
    method StartProcessing(id: string, sd: nat -> SupplierDraw, pd: nat -> PartDraw) returns (started: bool)
      modifies this
      ensures started <==> !IsBlank(old(brand)) && !IsBlank(old(equipmentType))
      ensures !started ==> unchanged(this)
      ensures started ==> jobs == MockRunJobs(old(jobs), id, old(pdf), old(brand), old(equipmentType), sd, pd)
      ensures started ==> progressLog == old(progressLog) + MockCheckpoints(old(pdf).Some?) && progress == 100
      ensures started ==> pdf == None && brand == "" && equipmentType == "" && !processing
    {
      TrimEmptyIffBlank(brand);
      TrimEmptyIffBlank(equipmentType);
      if Trim(brand) == [] || Trim(equipmentType) == [] {
        return false;
      }
      started := true;
      Run(id, sd, pd);
    }

    /** The body of a run whose inputs passed validation. */
    method Run(id: string, sd: nat -> SupplierDraw, pd: nat -> PartDraw)
      modifies this
      ensures jobs == MockRunJobs(old(jobs), id, old(pdf), old(brand), old(equipmentType), sd, pd)
      ensures progressLog == old(progressLog) + MockCheckpoints(old(pdf).Some?) && progress == 100
      ensures pdf == None && brand == "" && equipmentType == "" && !processing
    {
      var file, b, e := pdf, brand, equipmentType;
      ghost var log := progressLog;
      var created := Begin(id, NewJob(id, b, e, if file.Some? then Some(file.value.name) else None));
      Complete(id, created, file.Some?, Trim(b), Trim(e), sd, pd);
      MockCheckpointStages(log, file.Some?);
    }

    /** Everything after the new job is listed: the parts are generated and the job completed. */
    method Complete(id: string, created: Job<MockPart>, hasPdf: bool, b: string, e: string,
                    sd: nat -> SupplierDraw, pd: nat -> PartDraw)
      modifies this`progress, this`progressLog, this`jobs, this`pdf, this`brand, this`equipmentType, this`processing
      ensures jobs == CompleteJobs(old(jobs), id, created, SparePartsSpec(b, e, sd, pd))
      ensures progressLog == old(progressLog) + (PdfCheckpoint(hasPdf) + [30, 50]) + [70, 85, 100] && progress == 100
      ensures pdf == None && brand == "" && equipmentType == "" && !processing
    {
      var spareParts := Generate(hasPdf, b, e, sd, pd);
      Finish(id, created, spareParts);
    }

    /** Marks the run as processing and puts its new job at the front of the list. */
    method Begin(id: string, job: Job<MockPart>) returns (created: Job<MockPart>)
      modifies this`processing, this`progress, this`progressLog, this`jobs
      ensures created == job && jobs == [job] + old(jobs) && processing
      ensures progress == 0 && progressLog == old(progressLog) + [0]
    {
      processing := true;
      SetProgress(0);
      created := job;
      jobs := [created] + jobs;
    }

    /** The PDF step and the manual search (progress only), then the parts from the trimmed inputs. */
    method Generate(hasPdf: bool, b: string, e: string, sd: nat -> SupplierDraw, pd: nat -> PartDraw)
      returns (spareParts: seq<MockPart>)
      modifies this`progress, this`progressLog
      ensures spareParts == SparePartsSpec(b, e, sd, pd)
      ensures progressLog == old(progressLog) + (PdfCheckpoint(hasPdf) + [30, 50]) && progress == 50
    {
      SearchStages(hasPdf);
      spareParts := GenerateSpareParts(b, e, sd, pd);
    }

    /** The checkpoints before the parts are identified: 15 with a PDF, then 30 and 50. */
    method SearchStages(hasPdf: bool)
      modifies this`progress, this`progressLog
      ensures progressLog == old(progressLog) + (PdfCheckpoint(hasPdf) + [30, 50]) && progress == 50
    {
      if hasPdf {
        SetProgress(15);
      }
      SetProgress(30);
      SetProgress(50);
    }

    /** The closing checkpoints, then the completed job stored under the run's id and the inputs cleared. */
    method Finish(id: string, created: Job<MockPart>, spareParts: seq<MockPart>)
      modifies this`progress, this`progressLog, this`jobs, this`pdf, this`brand, this`equipmentType, this`processing
      ensures jobs == CompleteJobs(old(jobs), id, created, spareParts)
      ensures progressLog == old(progressLog) + [70, 85, 100] && progress == 100
      ensures pdf == None && brand == "" && equipmentType == "" && !processing
    {
      ghost var log := progressLog;
      SetProgress(70);
      SetProgress(85);
      SetProgress(100);
      jobs := CompleteJobs(jobs, id, created, spareParts);
      pdf, brand, equipmentType := None, "", "";
      processing := false;
    }

    /** The catch branch of `startProcessing`: the run's entries are marked 'error'. */
    method FailProcessing(id: string, message: string)
      modifies this`jobs, this`processing
      ensures jobs == FailJobs(old(jobs), id, message) && !processing
    {
      jobs := FailJobs(jobs, id, message);
      processing := false;
    }
  }

  /**
   * A completed run's job is the one `find` returns for its id, it carries a
   * non-empty result list, and it has every result in the order generated.
   */
  lemma MockRunFound(jobs: seq<Job<MockPart>>, created: Job<MockPart>, brand: string, equipmentType: string,
                     sd: nat -> SupplierDraw, pd: nat -> PartDraw)
    ensures var results := SparePartsSpec(brand, equipmentType, sd, pd);
      var after := CompleteJobs([created] + jobs, created.id, created, results);
      && FindJob(after, created.id) == Some(0)
      && after[0] == Finished(created, results)
      && |after[0].results| >= 2 && after[0].status == Completed
  {
    var results := SparePartsSpec(brand, equipmentType, sd, pd);
    SparePartsNonEmpty(brand, equipmentType, sd, pd);
    FindPrepended(created, jobs);
    CompleteIsolated([created] + jobs, created.id, created, results, created.id + "'");
  }
}
