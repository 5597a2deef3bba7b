/**
 * The deterministic-quantity generator (src/App-FIXED.jsx): a keyword catalog
 * matched against text extracted from a PDF or a synthetic manual text, a
 * category table as fallback, record synthesis with quantities, shelf life,
 * storage and repair level derived from the part type, the job list, and the
 * tab-separated export.
 */
module FixedGenerator {
  import opened Text
  import opened Records
  import opened Jobs

  // ---------------------------------------------------------------------
  // Static tables
  // ---------------------------------------------------------------------

  /** A keyword's catalog entry: weight in hundredths of a kilogram, type and unit of issue. */
  datatype CatalogData = CatalogData(weight: nat, partType: string, unitOfIssue: string)

  /** Entry `i` of `sparePartsDatabase`, in its key order. */
  function CatalogEntry(i: nat): (string, CatalogData) {
    match i
    case 0 => ("heating element", CatalogData(250, "Cr", "EA"))
    case 1 => ("thermostat", CatalogData(30, "Cr", "EA"))
    case 2 => ("temperature sensor", CatalogData(20, "Cr", "EA"))
    case 3 => ("door seal", CatalogData(80, "Con", "KIT"))
    case 4 => ("gasket kit", CatalogData(50, "Con", "KIT"))
    case 5 => ("control board", CatalogData(120, "Pr", "EA"))
    case 6 => ("motor", CatalogData(850, "Pr", "EA"))
    case 7 => ("pump", CatalogData(320, "Pr", "EA"))
    case 8 => ("filter element", CatalogData(40, "Con", "EA"))
    case 9 => ("basket", CatalogData(200, "Con", "EA"))
    case 10 => ("bearing", CatalogData(60, "Pr", "EA"))
    case 11 => ("seal kit", CatalogData(30, "Con", "KIT"))
    case 12 => ("valve", CatalogData(40, "Pr", "EA"))
    case 13 => ("hose", CatalogData(20, "Con", "EA"))
    case 14 => ("connector", CatalogData(10, "Con", "EA"))
    case _ => ("element", CatalogData(200, "Cr", "EA"))
  }

  /** `sparePartsDatabase`: 16 keywords with their catalog data. */
  function Catalog(): (c: seq<(string, CatalogData)>)
    ensures |c| == 16
    ensures forall i :: 0 <= i < 16 ==> c[i] == CatalogEntry(i)
  {
    seq(16, i requires 0 <= i < 16 => CatalogEntry(i))
  }

  /**
   * A part before synthesis. A weight of 0 and an empty type or unit stand
   * for a property the source object does not have (all falsy in JavaScript).
   */
  datatype BasePart = BasePart(name: string, weight: nat, partType: string, unitOfIssue: string)

  // The part lists of the six categories, each a function of its own so that a
  // proof about one category does not unfold the others.
  function OvenParts(): seq<BasePart> {
    [ BasePart("Heating Element", 250, "Cr", ""),
      BasePart("Temperature Sensor", 20, "Cr", ""),
      BasePart("Door Seal Gasket Kit", 80, "Con", ""),
      BasePart("Control Board", 120, "Pr", "") ]
  }
  function FryerParts(): seq<BasePart> {
    [ BasePart("Immersion Heating Element", 350, "Cr", ""),
      BasePart("Thermostat", 30, "Cr", ""),
      BasePart("Basket", 200, "Con", ""),
      BasePart("Filter Element", 40, "Con", "") ]
  }
  function GriddleParts(): seq<BasePart> {
    [ BasePart("Surface Heating Element", 400, "Cr", ""),
      BasePart("Temperature Probe", 20, "Cr", ""),
      BasePart("Control Knob Assembly", 15, "Con", "") ]
  }
  function SteamerParts(): seq<BasePart> {
    [ BasePart("Boiler Heating Element", 280, "Cr", ""),
      BasePart("Pressure Switch", 25, "Cr", ""),
      BasePart("Door Gasket Set", 60, "Con", "") ]
  }
  function MixerParts(): seq<BasePart> {
    [ BasePart("Motor", 850, "Pr", ""),
      BasePart("Gear Box", 500, "Pr", ""),
      BasePart("Whip Attachment", 150, "Con", "") ]
  }
  function DishwasherParts(): seq<BasePart> {
    [ BasePart("Pump Motor", 320, "Pr", ""),
      BasePart("Heating Element", 250, "Cr", ""),
      BasePart("Spray Arm Assembly", 80, "Con", "") ]
  }

  /** Category `i` of the table in `generateDefaultPartsForEquipment`, in its key order. */
  function EquipmentCategory(i: nat): (string, seq<BasePart>) {
    match i
    case 0 => ("oven", OvenParts())
    case 1 => ("fryer", FryerParts())
    case 2 => ("griddle", GriddleParts())
    case 3 => ("steamer", SteamerParts())
    case 4 => ("mixer", MixerParts())
    case _ => ("dishwasher", DishwasherParts())
  }

  /** The category table: six keys, each with its part list. */
  function EquipmentParts(): (t: seq<(string, seq<BasePart>)>)
    ensures |t| == 6
    ensures forall i :: 0 <= i < 6 ==> t[i] == EquipmentCategory(i)
  {
    seq(6, i requires 0 <= i < 6 => EquipmentCategory(i))
  }

  /** The generic set used when no category matches. */
  function GenericParts(): seq<BasePart> {
    [ BasePart("Control Board", 120, "Pr", ""),
      BasePart("Filter Element", 40, "Con", "") ]
  }

  function Countries(): seq<string> { ["NL", "DE", "IT", "ES"] }

  // ---------------------------------------------------------------------
  // Printable-byte filter
  // ---------------------------------------------------------------------

  predicate IsPrintable(b: byte) { 32 <= b <= 126 }

  /** The printable bytes of a buffer, in order, as characters. */
  function Printable(bytes: seq<byte>): string {
    if bytes == [] then []
    else
      var b := bytes[|bytes| - 1];
      Printable(bytes[..|bytes| - 1]) + if IsPrintable(b) then [(b as int) as char] else []
  }

  /** `extractTextFromPdfBuffer`: keeps the bytes in 32..126. */
  method ExtractText(buffer: seq<byte>) returns (text: string)
    ensures text == Printable(buffer)
  {
    text := "";
    for i := 0 to |buffer|
      invariant text == Printable(buffer[..i])
    {
      var b := buffer[i];
      assert buffer[..i + 1][..i] == buffer[..i];
      if 32 <= b <= 126 {
        text := text + [(b as int) as char];
      }
    }
    assert buffer[..|buffer|] == buffer;
  }

  /**
   * The filter keeps exactly the printable bytes in their original order:
   * it distributes over concatenation, keeps a single byte iff it lies in
   * 32..126, never lengthens the input and yields only characters in 32..126.
   */
  lemma PrintableFilter(a: seq<byte>, b: seq<byte>)
    ensures Printable(a + b) == Printable(a) + Printable(b)
    ensures |Printable(a)| <= |a|
    ensures forall i :: 0 <= i < |Printable(a)| ==> 32 <= Printable(a)[i] as int <= 126
    ensures |a| == 1 ==> Printable(a) == if IsPrintable(a[0]) then [(a[0] as int) as char] else []
  {
    PrintableAppend(a, b);
    PrintableBounds(a);
    if |a| == 1 {
      PrintableOne(a);
    }
  }

  /** The filter of a concatenation, by induction on the second buffer. */
  lemma {:induction false} PrintableAppend(a: seq<byte>, b: seq<byte>)
    ensures Printable(a + b) == Printable(a) + Printable(b)
    decreases |b|
  {
    if b == [] {
      assert a + b == a;
    } else {
      var init := b[..|b| - 1];
      assert (a + b)[..|a + b| - 1] == a + init;
      PrintableAppend(a, init);
    }
  }

  /** The filter's length and character range, by induction on the buffer. */
  lemma {:induction false} PrintableBounds(a: seq<byte>)
    ensures |Printable(a)| <= |a|
    ensures forall i :: 0 <= i < |Printable(a)| ==> 32 <= Printable(a)[i] as int <= 126
    decreases |a|
  {
    if a != [] {
      PrintableBounds(a[..|a| - 1]);
    }
  }

  /** A one-byte buffer gives its byte as a character exactly when the byte is printable. */
  lemma PrintableOne(a: seq<byte>)
    requires |a| == 1
    ensures Printable(a) == if IsPrintable(a[0]) then [(a[0] as int) as char] else []
  {
    assert a[..0] == [];
  }

  // ---------------------------------------------------------------------
  // Record synthesis (createFullPartObject)
  // ---------------------------------------------------------------------

  /** The random draws of one `createFullPartObject` call, each `Math.floor(Math.random() * k)`. */
  datatype FixedDraws = FixedDraws(
    partNumber: nat, cage: nat, hs: nat, coo: nat,
    itemL: nat, itemW: nat, itemH: nat, packL: nat, packW: nat, packH: nat)

  predicate InRange(d: FixedDraws) {
    && d.partNumber < 8000 && d.cage < 90000 && d.hs < 8000 && d.coo < 4
    && d.itemL < 30 && d.itemW < 25 && d.itemH < 20
    && d.packL < 50 && d.packW < 40 && d.packH < 30
  }

  type FixedDraw = d: FixedDraws | InRange(d) witness FixedDraws(0, 0, 0, 0, 0, 0, 0, 0, 0, 0)

  /** `basePart.type || 'Pr'`: the part's own type when it has one, 'Pr' otherwise. */
  function EffectiveType(partType: string): (t: string)
    ensures t != ""
    ensures partType != "" ==> t == partType
    ensures partType == "" ==> t == "Pr"
  {
    if partType == "" then "Pr" else partType
  }

  /** `weight * 1.3` rounded half up to hundredths, as `toFixed(2)` renders it. */
  function PackagingWeight(weight: nat): (p: nat)
    ensures 10 * p - 5 <= 13 * weight < 10 * p + 5
  {
    (weight * 13 + 5) / 10
  }

  /** `Critical component for ${equipmentType}` */
  function FixedReason(equipmentType: string): string {
    "Critical component for " + equipmentType
  }

  /** `Recommended spare for ${equipmentType}. Verify compatibility before ordering.` */
  function FixedRemarks(equipmentType: string): string {
    "Recommended spare for " + equipmentType + ". Verify compatibility before ordering."
  }

  /**
   * `createFullPartObject(basePart, brand, equipmentType)` with the given
   * draws: the record keeps its base part's name and type, its unit of issue
   * defaults to 'EA', and it keeps the cross-field invariants.
   */
  function CreateFullPart(base: BasePart, brand: string, equipmentType: string, d: FixedDraw): (r: PartRecord)
    ensures r.name == base.name && r.partType == base.partType
    ensures r.unitOfIssue == (if base.unitOfIssue == "" then "EA" else base.unitOfIssue)
    ensures ConsistentRecord(r)
  {
    var t := EffectiveType(base.partType);
    var preventive := t == "Pr";
    var consumable := t == "Con";
    var (recom2y, recom6y) := if preventive then (1, 1) else if consumable then (2, 5) else (1, 2);
    PartRecord(
      name := base.name,
      supplierPartNumber := SupplierPartNumber(brand, d.partNumber + 1000),
      cageCode := d.cage + 10000,
      hsCode := d.hs + 8400,
      coo := Countries()[d.coo],
      quantityPerAssembly := 1,
      partType := base.partType,
      recommended2y := recom2y,
      recommended6y := recom6y,
      unitOfIssue := if base.unitOfIssue == "" then "EA" else base.unitOfIssue,
      reason := FixedReason(equipmentType),
      minSalesQty := 1,
      standardPackageQty := 1,
      dimensionItem := Dims(d.itemL + 10, d.itemW + 5, d.itemH + 3),
      weightItem := NumberText(if base.weight == 0 then 50 else base.weight),
      dimensionPackaging := Dims(d.packL + 20, d.packW + 15, d.packH + 10),
      weightPackaging := Fixed2Text(PackagingWeight(base.weight)),
      shelfLife := if consumable then 730 else 1825,
      specialStorage := if consumable then "Y" else "N",
      repairLevel := if preventive then "OLM" else "DLM",
      requiredForHatSat := "Y",
      remarks := FixedRemarks(equipmentType))
  }

  /**
   * The fields a record takes from its part type (missing means 'Pr'): 1/1
   * spares for 'Pr', 2/5 for 'Con', 1/2 otherwise; a two-year shelf life and
   * special storage exactly for 'Con'; repair at OLM exactly for 'Pr'.
   */
  lemma CreateFullPartByType(base: BasePart, brand: string, equipmentType: string, d: FixedDraw)
    ensures var r, t := CreateFullPart(base, brand, equipmentType, d), EffectiveType(base.partType);
      && (t == "Pr" ==> r.recommended2y == 1 && r.recommended6y == 1)
      && (t == "Con" ==> r.recommended2y == 2 && r.recommended6y == 5)
      && (t != "Pr" && t != "Con" ==> r.recommended2y == 1 && r.recommended6y == 2)
      && r.shelfLife == (if t == "Con" then 730 else 1825)
      && r.specialStorage == (if t == "Con" then "Y" else "N")
      && r.repairLevel == (if t == "Pr" then "OLM" else "DLM")
      && r.requiredForHatSat == "Y"
  {
  }

  /**
   * The drawn fields stay in the ranges the draws allow: a part number of
   * the brand prefix and 1000..8999, a CAGE code in 10000..99999 and an HS
   * code in 8400..16399; quantities per
   * assembly, minimum sales and package quantities are all 1.
   */
  lemma CreateFullPartRanges(base: BasePart, brand: string, equipmentType: string, d: FixedDraw)
    ensures var r := CreateFullPart(base, brand, equipmentType, d);
      && 10000 <= r.cageCode <= 99999 && 8400 <= r.hsCode <= 16399
      && r.supplierPartNumber == SupplierPartNumber(brand, d.partNumber + 1000)
      && 1000 <= r.supplierPartNumber.number <= 8999
      && r.quantityPerAssembly == 1 && r.minSalesQty == 1 && r.standardPackageQty == 1
  {
  }

  /** The country of origin is one of NL, DE, IT and ES. */
  lemma CreateFullPartOrigin(base: BasePart, brand: string, equipmentType: string, d: FixedDraw)
    ensures CreateFullPart(base, brand, equipmentType, d).coo in Countries()
  {
  }

  /**
   * The item weight reads as the base weight, 0.5 kg when the base part has
   * none; the packaging weight is written with two decimals and reads as 1.3
   * times the base weight, to the nearest hundredth.
   */
  lemma CreateFullPartWeights(base: BasePart, brand: string, equipmentType: string, d: FixedDraw)
    ensures var r := CreateFullPart(base, brand, equipmentType, d);
      && HundredthsValue(r.weightItem) == Some(if base.weight == 0 then 50 else base.weight)
      && |r.weightPackaging| >= 4 && r.weightPackaging[|r.weightPackaging| - 3] == '.'
      && HundredthsValue(r.weightPackaging).Some?
      && 10 * HundredthsValue(r.weightPackaging).value - 5 <= 13 * base.weight
      && 13 * base.weight < 10 * HundredthsValue(r.weightPackaging).value + 5
  {
  }

  /** The cross-field invariants every synthesized record keeps. */
  predicate ConsistentRecord(r: PartRecord) {
    && 1 <= r.recommended2y <= r.recommended6y
    && (r.shelfLife == 730 <==> r.specialStorage == "Y")
    && (r.specialStorage == "Y" <==> r.partType == "Con")
    && (r.repairLevel == "OLM" <==> EffectiveType(r.partType) == "Pr")
    && (r.repairLevel == "OLM" ==> r.recommended6y == r.recommended2y)
    && r.shelfLife in {730, 1825} && r.requiredForHatSat == "Y"
  }

  /** `parts.map(p => createFullPartObject(p, brand, equipmentType))`, part k using draws(k). */
  function Synthesize(parts: seq<BasePart>, brand: string, equipmentType: string, draws: nat -> FixedDraw): (r: seq<PartRecord>)
    ensures |r| == |parts|
    ensures forall k :: 0 <= k < |parts| ==> r[k] == CreateFullPart(parts[k], brand, equipmentType, draws(k))
  {
    seq(|parts|, k requires 0 <= k < |parts| => CreateFullPart(parts[k], brand, equipmentType, draws(k)))
  }

  // ---------------------------------------------------------------------
  // Category defaults (generateDefaultPartsForEquipment)
  // ---------------------------------------------------------------------

  /** The part list of the first category contained in the lower-cased type, else the generic set. */
  function SelectedParts(equipLower: string): seq<BasePart> {
    var selected := match FirstContainedKey(EquipmentParts(), equipLower)
      case Some(i) => EquipmentParts()[i].1
      case None => [];
    if |selected| == 0 then GenericParts() else selected
  }

  function DefaultPartsSpec(equipmentType: string, draws: nat -> FixedDraw): seq<PartRecord> {
    Synthesize(SelectedParts(Lower(equipmentType)), FirstWord(equipmentType), equipmentType, draws)
  }

  /** `generateDefaultPartsForEquipment(equipmentType)`: a `for ... in` search that breaks on the first hit. */
  method DefaultParts(equipmentType: string, draws: nat -> FixedDraw) returns (parts: seq<PartRecord>)
    ensures parts == DefaultPartsSpec(equipmentType, draws)
  {
    var equipLower := Lower(equipmentType);
    var hit := FindFirstKey(EquipmentParts(), equipLower);
    var selected: seq<BasePart> := [];
    if hit.Some? {
      selected := EquipmentParts()[hit.value].1;
    }
    if |selected| == 0 {
      selected := GenericParts();
    }
    parts := Synthesize(selected, FirstWord(equipmentType), equipmentType, draws);
  }

  /** The table's categories each list at least three parts. */
  lemma CategoriesNonEmpty()
    ensures forall i :: 0 <= i < |EquipmentParts()| ==> |EquipmentParts()[i].1| >= 3
  {
  }

  /**
   * Category lookup: the first category in table order whose key occurs in
   * the lower-cased type supplies the parts, by name and type, in order.
   */
  lemma DefaultPartsCategory(equipmentType: string, draws: nat -> FixedDraw, i: nat)
    requires FirstContainedKey(EquipmentParts(), Lower(equipmentType)) == Some(i)
    ensures var r, parts := DefaultPartsSpec(equipmentType, draws), EquipmentParts()[i].1;
      && |r| == |parts|
      && forall k :: 0 <= k < |r| ==> r[k].name == parts[k].name && r[k].partType == parts[k].partType
  {
    var parts := EquipmentParts()[i].1;
    CategoriesNonEmpty();
    assert SelectedParts(Lower(equipmentType)) == parts;
    SynthesizeNames(parts, FirstWord(equipmentType), equipmentType, draws);
  }

  /** Synthesis keeps the list's length and order and each part's name and type. */
  lemma SynthesizeNames(parts: seq<BasePart>, brand: string, equipmentType: string, draws: nat -> FixedDraw)
    ensures var r := Synthesize(parts, brand, equipmentType, draws);
      && |r| == |parts|
      && forall k :: 0 <= k < |r| ==> r[k].name == parts[k].name && r[k].partType == parts[k].partType
  {
    var r := Synthesize(parts, brand, equipmentType, draws);
    forall k | 0 <= k < |r| ensures r[k].name == parts[k].name && r[k].partType == parts[k].partType {
    }
  }

  /** With no category in the type, exactly the generic Control Board (Pr) and Filter Element (Con). */
  lemma DefaultPartsGeneric(equipmentType: string, draws: nat -> FixedDraw)
    requires forall j :: 0 <= j < |EquipmentParts()| ==> !Contains(Lower(equipmentType), EquipmentParts()[j].0)
    ensures var r := DefaultPartsSpec(equipmentType, draws);
      && |r| == 2
      && r[0].name == "Control Board" && r[0].partType == "Pr"
      && r[1].name == "Filter Element" && r[1].partType == "Con"
  {
    assert FirstContainedKey(EquipmentParts(), Lower(equipmentType)).None?;
    assert SelectedParts(Lower(equipmentType)) == GenericParts();
    SynthesizeNames(GenericParts(), FirstWord(equipmentType), equipmentType, draws);
  }

  /** The default list is never empty, and every part number carries the first word of the type. */
  lemma DefaultPartsBranded(equipmentType: string, draws: nat -> FixedDraw)
    ensures |DefaultPartsSpec(equipmentType, draws)| >= 2
    ensures var r := DefaultPartsSpec(equipmentType, draws);
      forall k :: 0 <= k < |r| ==> Branded(r[k], FirstWord(equipmentType))
  {
    var equipLower := Lower(equipmentType);
    CategoriesNonEmpty();
    match FirstContainedKey(EquipmentParts(), equipLower) {
      case Some(i) => assert |SelectedParts(equipLower)| == |EquipmentParts()[i].1|;
      case None => assert SelectedParts(equipLower) == GenericParts();
    }
    var r := Synthesize(SelectedParts(equipLower), FirstWord(equipmentType), equipmentType, draws);
    assert DefaultPartsSpec(equipmentType, draws) == r;
    SynthesizeBranded(SelectedParts(equipLower), FirstWord(equipmentType), equipmentType, draws);
  }

  /** The part number carries the brand's upper-cased first three characters as its prefix. */
  predicate Branded(r: PartRecord, brand: string) {
    r.supplierPartNumber.prefix == Upper(Prefix(brand, 3))
  }

  /** Every synthesized part number is the brand's prefix followed by a number. */
  lemma SynthesizeBranded(parts: seq<BasePart>, brand: string, equipmentType: string, draws: nat -> FixedDraw)
    ensures var r := Synthesize(parts, brand, equipmentType, draws);
      forall k :: 0 <= k < |r| ==> Branded(r[k], brand)
  {
    var r := Synthesize(parts, brand, equipmentType, draws);
    forall k | 0 <= k < |r| ensures Branded(r[k], brand) {
      CreateFullPartRanges(parts[k], brand, equipmentType, draws(k));
      assert r[k].supplierPartNumber == SupplierPartNumber(brand, draws(k).partNumber + 1000);
    }
  }

  // ---------------------------------------------------------------------
  // Keyword matching (parsePartsFromText)
  // ---------------------------------------------------------------------

  /** The catalog entries whose keyword occurs in the text, in catalog order. */
  function Matched(text: string, catalog: seq<(string, CatalogData)>): seq<(string, CatalogData)> {
    if catalog == [] then []
    else
      var last := catalog[|catalog| - 1];
      Matched(text, catalog[..|catalog| - 1]) + if Contains(text, last.0) then [last] else []
  }

  /** `{ name: keyword.charAt(0).toUpperCase() + keyword.slice(1), ...partData }` */
  function FoundPart(entry: (string, CatalogData)): BasePart {
    BasePart(Capitalize(entry.0), entry.1.weight, entry.1.partType, entry.1.unitOfIssue)
  }

  function FoundParts(entries: seq<(string, CatalogData)>): (parts: seq<BasePart>)
    ensures |parts| == |entries|
    ensures forall k :: 0 <= k < |entries| ==> parts[k] == FoundPart(entries[k])
  {
    seq(|entries|, k requires 0 <= k < |entries| => FoundPart(entries[k]))
  }

  function ParsePartsSpec(text: string, brand: string, equipmentType: string, draws: nat -> FixedDraw): seq<PartRecord> {
    if |text| < 10 then DefaultPartsSpec(equipmentType, draws)
    else
      var found := Matched(Lower(text), Catalog());
      if |found| > 0 then Synthesize(FoundParts(found), brand, equipmentType, draws)
      else DefaultPartsSpec(equipmentType, draws)
  }

  /** `parsePartsFromText(text, brand, equipmentType)` */
  method ParseParts(text: string, brand: string, equipmentType: string, draws: nat -> FixedDraw) returns (parts: seq<PartRecord>)
    ensures parts == ParsePartsSpec(text, brand, equipmentType, draws)
  {
    if |text| < 10 {
      parts := DefaultParts(equipmentType, draws);
      return;
    }
    var textLower := Lower(text);
    var foundParts: seq<BasePart> := [];
    for k := 0 to |Catalog()|
      invariant foundParts == FoundParts(Matched(textLower, Catalog()[..k]))
    {
      assert Catalog()[..k + 1][..k] == Catalog()[..k];
      if Contains(textLower, Catalog()[k].0) {
        foundParts := foundParts + [FoundPart(Catalog()[k])];
      }
    }
    assert Catalog()[..|Catalog()|] == Catalog();
    if |foundParts| > 0 {
      parts := Synthesize(foundParts, brand, equipmentType, draws);
      return;
    }
    parts := DefaultParts(equipmentType, draws);
  }

  predicate DistinctKeys(entries: seq<(string, CatalogData)>) {
    forall i, j :: 0 <= i < j < |entries| ==> entries[i].0 != entries[j].0
  }

  /** An entry is matched exactly when it is in the catalog and its keyword occurs in the text. */
  lemma {:induction false} MatchedMembers(text: string, catalog: seq<(string, CatalogData)>, e: (string, CatalogData))
    ensures e in Matched(text, catalog) <==> e in catalog && Contains(text, e.0)
    decreases |catalog|
  {
    if catalog != [] {
      var init := catalog[..|catalog| - 1];
      MatchedMembers(text, init, e);
      assert catalog == init + [catalog[|catalog| - 1]];
    }
  }

  /**
   * The matched entries appear in catalog order: each sits at a position of
   * the catalog, and the positions strictly increase.
   */
  lemma {:induction false} MatchedOrder(text: string, catalog: seq<(string, CatalogData)>) returns (pos: seq<nat>)
    ensures |pos| == |Matched(text, catalog)|
    ensures forall k :: 0 <= k < |pos| ==> pos[k] < |catalog| && catalog[pos[k]] == Matched(text, catalog)[k]
    ensures forall i, j :: 0 <= i < j < |pos| ==> pos[i] < pos[j]
    decreases |catalog|
  {
    if catalog == [] {
      pos := [];
    } else {
      var n := |catalog| - 1;
      var init := catalog[..n];
      pos := MatchedOrder(text, init);
      var found := if Contains(text, catalog[n].0) then [catalog[n]] else [];
      assert Matched(text, catalog) == Matched(text, init) + found;
      assert forall k :: 0 <= k < |pos| ==> pos[k] < n && catalog[pos[k]] == init[pos[k]];
      if Contains(text, catalog[n].0) {
        var before := pos;
        pos := before + [n];
        assert forall k :: 0 <= k < |before| ==> pos[k] == before[k];
        assert pos[|before|] == n;
      }
    }
  }

  /** With distinct catalog keywords, each keyword is matched at most once however often it occurs. */
  lemma MatchedDistinct(text: string, catalog: seq<(string, CatalogData)>)
    requires DistinctKeys(catalog)
    ensures DistinctKeys(Matched(text, catalog))
  {
    var m := Matched(text, catalog);
    var pos := MatchedOrder(text, catalog);
    forall i, j | 0 <= i < j < |m| ensures m[i].0 != m[j].0 {
      assert catalog[pos[i]] == m[i] && catalog[pos[j]] == m[j];
    }
  }

  /** The 16 catalog keywords are pairwise distinct. */
  lemma CatalogDistinct()
    ensures DistinctKeys(Catalog())
  {
    CatalogDistinctLow();
    CatalogDistinctHigh();
  }

  lemma CatalogDistinctLow()
    ensures forall i, j :: 0 <= i < 8 && i < j < 16 ==> CatalogEntry(i).0 != CatalogEntry(j).0
  {
  }

  lemma CatalogDistinctHigh()
    ensures forall i, j :: 8 <= i < j < 16 ==> CatalogEntry(i).0 != CatalogEntry(j).0
  {
  }

  /** Every catalog entry names a unit of issue. */
  lemma CatalogUnits()
    ensures forall i :: 0 <= i < |Catalog()| ==> Catalog()[i].1.unitOfIssue != ""
  {
  }

  /** Records synthesized from catalog entries carry each entry's capitalized keyword, type and unit. */
  lemma SynthesizeFound(m: seq<(string, CatalogData)>, brand: string, equipmentType: string, draws: nat -> FixedDraw)
    requires forall k :: 0 <= k < |m| ==> m[k].1.unitOfIssue != ""
    ensures var r := Synthesize(FoundParts(m), brand, equipmentType, draws);
      && |r| == |m|
      && forall k :: 0 <= k < |r| ==>
           && r[k].name == Capitalize(m[k].0)
           && r[k].partType == m[k].1.partType
           && r[k].unitOfIssue == m[k].1.unitOfIssue
  {
    var parts := FoundParts(m);
    var r := Synthesize(parts, brand, equipmentType, draws);
    forall k | 0 <= k < |r|
      ensures r[k].name == Capitalize(m[k].0) && r[k].partType == m[k].1.partType && r[k].unitOfIssue == m[k].1.unitOfIssue
    {
    }
  }

  /** Text shorter than ten characters, or naming no catalog keyword, yields the category defaults. */
  lemma ParsePartsFallback(text: string, brand: string, equipmentType: string, draws: nat -> FixedDraw)
    requires |text| < 10 || Matched(Lower(text), Catalog()) == []
    ensures ParsePartsSpec(text, brand, equipmentType, draws) == DefaultPartsSpec(equipmentType, draws)
  {
  }

  /**
   * Keyword identification: with at least ten characters of text and some
   * keyword present, one record per matched keyword in catalog order (the
   * matched entries are exactly the catalog entries whose keyword occurs in
   * the lower-cased text, none twice), named by the keyword with its first
   * letter upper-cased, typed and unitised from the catalog, and every part
   * number carrying the given brand.
   */
  lemma ParsePartsKeywords(text: string, brand: string, equipmentType: string, draws: nat -> FixedDraw)
    requires |text| >= 10 && Matched(Lower(text), Catalog()) != []
    ensures var r, m := ParsePartsSpec(text, brand, equipmentType, draws), Matched(Lower(text), Catalog());
      && |r| == |m| && DistinctKeys(m)
      && (forall e :: e in m <==> e in Catalog() && Contains(Lower(text), e.0))
      && (forall k :: 0 <= k < |r| ==>
            && r[k].name == Capitalize(m[k].0)
            && r[k].partType == m[k].1.partType
            && r[k].unitOfIssue == m[k].1.unitOfIssue
            && Branded(r[k], brand))
  {
    CatalogDistinct();
    CatalogUnits();
    MatchedRecords(Lower(text), Catalog(), brand, equipmentType, draws);
  }

  /** The records of the entries a distinct-keyed catalog with named units matches against t. */
  lemma MatchedRecords(t: string, catalog: seq<(string, CatalogData)>, brand: string, equipmentType: string, draws: nat -> FixedDraw)
    requires DistinctKeys(catalog)
    requires forall i :: 0 <= i < |catalog| ==> catalog[i].1.unitOfIssue != ""
    ensures var m := Matched(t, catalog);
      var r := Synthesize(FoundParts(m), brand, equipmentType, draws);
      && |r| == |m| && DistinctKeys(m)
      && (forall e :: e in m <==> e in catalog && Contains(t, e.0))
      && (forall k :: 0 <= k < |r| ==>
            && r[k].name == Capitalize(m[k].0)
            && r[k].partType == m[k].1.partType
            && r[k].unitOfIssue == m[k].1.unitOfIssue
            && Branded(r[k], brand))
  {
    var m := Matched(t, catalog);
    MatchedDistinct(t, catalog);
    forall e ensures e in m <==> e in catalog && Contains(t, e.0) {
      MatchedMembers(t, catalog, e);
    }
    var pos := MatchedOrder(t, catalog);
    assert forall k :: 0 <= k < |m| ==> m[k] == catalog[pos[k]];
    SynthesizeFound(m, brand, equipmentType, draws);
    SynthesizeBranded(FoundParts(m), brand, equipmentType, draws);
  }

  /** Some record of the list has this name. */
  predicate HasPartNamed(r: seq<PartRecord>, name: string) {
    exists k :: 0 <= k < |r| && r[k].name == name
  }

  /** Every catalog keyword occurring in text of ten or more characters yields a part named by it. */
  lemma KeywordYieldsPart(text: string, brand: string, equipmentType: string, draws: nat -> FixedDraw, i: nat, keyword: string)
    requires |text| >= 10 && i < 16 && CatalogEntry(i).0 == keyword && Contains(Lower(text), keyword)
    ensures HasPartNamed(ParsePartsSpec(text, brand, equipmentType, draws), Capitalize(keyword))
  {
    var t := Lower(text);
    var e := CatalogEntry(i);
    assert Catalog()[i] == e;
    MatchedMembers(t, Catalog(), e);
    var m := Matched(t, Catalog());
    ParsePartsKeywords(text, brand, equipmentType, draws);
    var k :| 0 <= k < |m| && m[k] == e;
    var r := ParsePartsSpec(text, brand, equipmentType, draws);
    assert r[k].name == Capitalize(e.0);
  }

  /** Each keyword is looked for on its own: text naming a "heating element" also yields an "Element" part. */
  lemma OverlappingKeywords(text: string, brand: string, equipmentType: string, draws: nat -> FixedDraw)
    requires |text| >= 10 && Contains(Lower(text), "heating element")
    ensures HasPartNamed(ParsePartsSpec(text, brand, equipmentType, draws), "Heating element")
    ensures HasPartNamed(ParsePartsSpec(text, brand, equipmentType, draws), "Element")
  {
    OverlappingNames();
    ElementInHeatingElement(Lower(text));
    assert CatalogEntry(0).0 == "heating element" && CatalogEntry(15).0 == "element";
    KeywordYieldsPart(text, brand, equipmentType, draws, 0, "heating element");
    KeywordYieldsPart(text, brand, equipmentType, draws, 15, "element");
  }

  lemma ElementInHeatingElement(t: string)
    requires Contains(t, "heating element")
    ensures Contains(t, "element")
  {
    assert OccursAt("heating element", "element", 8);
    ContainsTransitive(t, "heating element", "element");
  }

  /** The two part names of the overlap, "Heating element" and "Element". */
  lemma OverlappingNames()
    ensures Capitalize("heating element") == "Heating element" && Capitalize("element") == "Element"
  {
    assert UpperChar('h') == 'H' && UpperChar('e') == 'E';
    assert Capitalize("heating element") == ['H'] + "heating element"[1..];
    assert Capitalize("element") == ['E'] + "element"[1..];
  }

  /** The parts list is never empty. */
  lemma ParsePartsNonEmpty(text: string, brand: string, equipmentType: string, draws: nat -> FixedDraw)
    ensures |ParsePartsSpec(text, brand, equipmentType, draws)| >= 1
  {
    DefaultPartsBranded(equipmentType, draws);
  }

  // ---------------------------------------------------------------------
  // Tab-separated export (downloadAsExcel)
  // ---------------------------------------------------------------------

  /** The lines of the export: the header, then one line per record. */
  function TsvLines(results: seq<PartRecord>): (lines: seq<string>)
    ensures |lines| == |results| + 1
  {
    var rows := Table(results);
    seq(|rows|, k requires 0 <= k < |rows| => Join(rows[k], '\t'))
  }

  function TsvDocument(results: seq<PartRecord>): string {
    Terminated(TsvLines(results))
  }

  /** `downloadAsExcel(jobId)` up to the download: nothing without a job of that id. */
  method ExportTsv(jobs: seq<Job<PartRecord>>, id: string) returns (content: Option<string>)
    ensures FindJob(jobs, id).None? ==> content == None
    ensures FindJob(jobs, id).Some? ==> content == Some(TsvDocument(jobs[FindJob(jobs, id).value].results))
  {
    var found := FindJob(jobs, id);
    if found.None? {
      return None;
    }
    var tsv := WriteTsv(jobs[found.value].results);
    content := Some(tsv);
  }

  /** The header line, then one `forEach` step per record appending its joined cells. */
  method WriteTsv(results: seq<PartRecord>) returns (tsv: string)
    ensures tsv == TsvDocument(results)
  {
    tsv := Join(Header(), '\t') + "\n";
    tsv := AppendLines(tsv, results, RecordLine);
    TsvLinesMapped(results);
    TerminatedCons(Join(Header(), '\t'), MapLines(results, RecordLine));
  }

  /** One record's cells joined by tabs. */
  function RecordLine(r: PartRecord): string {
    Join(Cells(r), '\t')
  }

  /** The export's lines are the header line followed by each record's line, in order. */
  lemma TsvLinesMapped(results: seq<PartRecord>)
    ensures TsvLines(results) == [Join(Header(), '\t')] + MapLines(results, RecordLine)
  {
    var lines := TsvLines(results);
    var mapped := [Join(Header(), '\t')] + MapLines(results, RecordLine);
    assert |lines| == |mapped|;
    forall k | 0 <= k < |lines| ensures lines[k] == mapped[k] {
      if k > 0 {
        assert Table(results)[k] == Cells(results[k - 1]);
      }
    }
  }

  /** Reads a tab-separated document back as rows of cells. */
  function DecodeTsv(s: string): seq<seq<string>> {
    SplitRows(SplitLines(s))
  }

  /** Each line split at its tabs. */
  function SplitRows(lines: seq<string>): (rows: seq<seq<string>>)
    ensures |rows| == |lines| && forall k :: 0 <= k < |lines| ==> rows[k] == Split(lines[k], '\t')
  {
    seq(|lines|, k requires 0 <= k < |lines| => Split(lines[k], '\t'))
  }

  /**
   * When no free-text field holds a tab or a newline, the export has exactly
   * |results| + 1 lines: the 22 header cells, then each record's 22 cells in
   * results order.
   */
  lemma TsvRoundTrip(results: seq<PartRecord>)
    requires forall k :: 0 <= k < |results| ==> TextFieldsFree(results[k], '\t') && TextFieldsFree(results[k], '\n')
    ensures DecodeTsv(TsvDocument(results)) == Table(results)
    ensures |SplitLines(TsvDocument(results))| == |results| + 1
  {
    TsvLinesSplit(results);
    LinesRoundTrip(TsvLines(results), Table(results));
  }

  /** Newline-free lines that each split back into their row read back as the rows. */
  lemma LinesRoundTrip(lines: seq<string>, rows: seq<seq<string>>)
    requires |lines| >= 1 && |lines| == |rows|
    requires forall k :: 0 <= k < |lines| ==> '\n' !in lines[k] && Split(lines[k], '\t') == rows[k]
    ensures DecodeTsv(Terminated(lines)) == rows && |SplitLines(Terminated(lines))| == |rows|
  {
    SplitTerminated(lines);
    assert SplitRows(lines) == rows;
  }

  /** Each line of the export holds no newline and splits back into its table row. */
  lemma TsvLinesSplit(results: seq<PartRecord>)
    requires forall k :: 0 <= k < |results| ==> TextFieldsFree(results[k], '\t') && TextFieldsFree(results[k], '\n')
    ensures forall k :: 0 <= k < |TsvLines(results)| ==>
      '\n' !in TsvLines(results)[k] && Split(TsvLines(results)[k], '\t') == Table(results)[k]
  {
    var rows := Table(results);
    var lines := TsvLines(results);
    forall k | 0 <= k < |lines| ensures '\n' !in lines[k] && Split(lines[k], '\t') == rows[k] {
      TableRowFree(results, k);
      TsvLineRoundTrip(rows[k]);
    }
  }

  /** No row of the table holds a tab or a newline when no free-text field does. */
  lemma TableRowFree(results: seq<PartRecord>, k: nat)
    requires forall k :: 0 <= k < |results| ==> TextFieldsFree(results[k], '\t') && TextFieldsFree(results[k], '\n')
    requires k <= |results|
    ensures FreeOf(Table(results)[k], '\t') && FreeOf(Table(results)[k], '\n')
  {
    if k == 0 {
      HeaderFree();
    } else {
      CellsFree(results[k - 1], '\t');
      CellsFree(results[k - 1], '\n');
    }
  }

  /** A row without tabs or newlines joins into one line that splits back into the row. */
  lemma TsvLineRoundTrip(row: seq<string>)
    requires |row| >= 1 && FreeOf(row, '\t') && FreeOf(row, '\n')
    ensures '\n' !in Join(row, '\t') && Split(Join(row, '\t'), '\t') == row
  {
    SplitJoin(row, '\t');
    JoinFree(row, '\t', '\n');
  }

  lemma {:induction false} JoinFree(parts: seq<string>, sep: char, c: char)
    requires FreeOf(parts, c) && sep != c
    ensures c !in Join(parts, sep)
    decreases |parts|
  {
    if |parts| > 1 {
      JoinFree(parts[1..], sep, c);
    }
  }

  // ---------------------------------------------------------------------
  // The component state and startProcessing
  // ---------------------------------------------------------------------

  /** The progress values `startProcessing` sets, in order (the same with or without a PDF). */
  function FixedCheckpoints(): seq<nat> { [0, 20, 40, 50, 75, 95, 100] }

  lemma FixedCheckpointsMonotone()
    ensures NonDecreasing(FixedCheckpoints()) && FixedCheckpoints()[0] == 0
    ensures FixedCheckpoints()[|FixedCheckpoints()| - 1] == 100
  {
  }

  lemma Appended3(log: seq<nat>, a: nat, b: nat, c: nat)
    ensures log + [a] + [b] + [c] == log + [a, b, c]
  {
  }

  /** The checkpoints of the four stages of a run, in order, are the run's checkpoints. */
  lemma CheckpointStages(log: seq<nat>)
    ensures log + [0] + [20, 40] + [50, 75, 95] + [100] == log + FixedCheckpoints()
  {
  }

  /**
   * The text parsed for parts: the PDF's printable bytes, never more than the
   * file's bytes and all in 32..126, or the synthetic manual sentence.
   */
  function SourceText(pdf: Option<Upload>, brand: string, equipmentType: string): (t: string)
    ensures pdf.Some? ==> |t| <= |pdf.value.bytes| && forall i :: 0 <= i < |t| ==> 32 <= t[i] as int <= 126
    ensures pdf.None? ==> t == SimulatedManual(brand, equipmentType)
  {
    if pdf.Some? then PrintableFilter(pdf.value.bytes, []); Printable(pdf.value.bytes)
    else SimulatedManual(brand, equipmentType)
  }

  /**
   * The text analysed when no PDF was uploaded: it names the brand and the
   * equipment type, and it is never short enough for the short-text fallback.
   */
  function SimulatedManual(brand: string, equipmentType: string): (t: string)
    ensures |t| >= 10
    ensures Contains(t, brand) && Contains(t, equipmentType)
  {
    var t := brand + " " + equipmentType + " parts manual. Contains information about spare parts.";
    assert OccursAt(t, brand, 0) && OccursAt(t, equipmentType, |brand| + 1);
    t
  }

  /**
   * The job list after a run with the given inputs: the new 'processing' job
   * at the front, then every entry with the run's id replaced by the
   * completed job carrying the generated parts.
   */
  function RunJobs(jobs: seq<Job<PartRecord>>, id: string, pdf: Option<Upload>, brand: string,
                   equipmentType: string, draws: nat -> FixedDraw): seq<Job<PartRecord>> {
    var created := NewJob<PartRecord>(id, brand, equipmentType, if pdf.Some? then Some(pdf.value.name) else None);
    CompleteJobs([created] + jobs, id, created,
      ParsePartsSpec(SourceText(pdf, brand, equipmentType), Trim(brand), Trim(equipmentType), draws))
  }

  /** The state the component keeps with `useState`, as far as the generation pipeline uses it. */
  class Session {
    var jobs: seq<Job<PartRecord>>
    var pdf: Option<Upload>
    var brand: string
    var equipmentType: string
    var processing: bool
    var progress: nat
    ghost var progressLog: seq<nat>

    constructor ()
      ensures jobs == [] && pdf == None && brand == "" && equipmentType == ""
      ensures !processing && progress == 0 && progressLog == []
    {
      jobs, pdf, brand, equipmentType := [], None, "", "";
      processing, progress, progressLog := false, 0, [];
    }

    /** `handlePdfUpload`: only a file of type application/pdf is kept. */
    method HandlePdfUpload(file: Option<Upload>)
      modifies this`pdf
      ensures pdf == if file.Some? && file.value.mimeType == "application/pdf" then file else old(pdf)
    {
      if file.Some? && file.value.mimeType == "application/pdf" {
        pdf := file;
      }
    }

    /** The brand and type input fields. */
    method EnterDetails(newBrand: string, newType: string)
      modifies this`brand, this`equipmentType
      ensures brand == newBrand && equipmentType == newType
    {
      brand, equipmentType := newBrand, newType;
    }

    method SetProgress(p: nat)
      modifies this`progress, this`progressLog
      ensures progress == p && progressLog == old(progressLog) + [p]
    {
      progress := p;
      progressLog := progressLog + [p];
    }

    /**
     * `startProcessing` with `id` as the generated job id, run to completion.
     * Nothing happens when the trimmed brand or type is empty; otherwise one
     * 'processing' job is put at the front, the parts are generated, and the
     * entries with that id become the completed job.
     */
    method StartProcessing(id: string, draws: nat -> FixedDraw) returns (started: bool)
      modifies this
      ensures started <==> !IsBlank(old(brand)) && !IsBlank(old(equipmentType))
      ensures !started ==> unchanged(this)
      ensures started ==> jobs == RunJobs(old(jobs), id, old(pdf), old(brand), old(equipmentType), draws)
      ensures started ==> progressLog == old(progressLog) + FixedCheckpoints() && progress == 100
      ensures started ==> pdf == None && brand == "" && equipmentType == "" && !processing
    {
      TrimEmptyIffBlank(brand);
      TrimEmptyIffBlank(equipmentType);
      if Trim(brand) == [] || Trim(equipmentType) == [] {
        return false;
      }
      started := true;
      Run(id, draws);
    }

    /** The body of a run whose inputs passed validation. */
    method Run(id: string, draws: nat -> FixedDraw)
      modifies this
      ensures jobs == RunJobs(old(jobs), id, old(pdf), old(brand), old(equipmentType), draws)
      ensures progressLog == old(progressLog) + FixedCheckpoints() && progress == 100
      ensures pdf == None && brand == "" && equipmentType == "" && !processing
    {
      var file, b, e := pdf, brand, equipmentType;
      ghost var log := progressLog;
      var created := Begin(id, NewJob(id, b, e, if file.Some? then Some(file.value.name) else None));
      var spareParts := Generate(file, b, e, draws);
      Finish(id, created, spareParts);
      CheckpointStages(log);
    }

    /** Reads the text and parses the parts from it with the trimmed brand and type. */
    method Generate(file: Option<Upload>, b: string, e: string, draws: nat -> FixedDraw) returns (spareParts: seq<PartRecord>)
      modifies this`progress, this`progressLog
      ensures spareParts == ParsePartsSpec(SourceText(file, b, e), Trim(b), Trim(e), draws)
      ensures progressLog == old(progressLog) + [20, 40] + [50, 75, 95] && progress == 95
    {
      var pdfText := FetchText(file, b, e);
      spareParts := Analyse(pdfText, Trim(b), Trim(e), draws);
    }

    /** Marks the run as processing and puts its new job at the front of the list. */
    method Begin(id: string, job: Job<PartRecord>) returns (created: Job<PartRecord>)
      modifies this`processing, this`progress, this`progressLog, this`jobs
      ensures created == job && jobs == [job] + old(jobs) && processing
      ensures progress == 0 && progressLog == old(progressLog) + [0]
    {
      processing := true;
      SetProgress(0);
      created := job;
      jobs := [created] + jobs;
    }

    /** The text to analyse: the uploaded PDF's printable bytes, or the simulated manual text. */
    method FetchText(file: Option<Upload>, b: string, e: string) returns (pdfText: string)
      modifies this`progress, this`progressLog
      ensures pdfText == SourceText(file, b, e)
      ensures progressLog == old(progressLog) + [20, 40] && progress == 40
    {
      if file.Some? {
        SetProgress(20);
        pdfText := ExtractText(file.value.bytes);
        SetProgress(40);
      } else {
        SetProgress(20);
        pdfText := SimulatedManual(b, e);
        SetProgress(40);
      }
    }

    /** Parses the parts with the trimmed brand and type. */
    method Analyse(pdfText: string, b: string, e: string, draws: nat -> FixedDraw) returns (spareParts: seq<PartRecord>)
      modifies this`progress, this`progressLog
      ensures spareParts == ParsePartsSpec(pdfText, b, e, draws)
      ensures progressLog == old(progressLog) + [50, 75, 95] && progress == 95
    {
      ghost var log := progressLog;
      SetProgress(50);
      spareParts := ParseParts(pdfText, b, e, draws);
      SetProgress(75);
      SetProgress(95);
      Appended3(log, 50, 75, 95);
    }

    /** Stores the completed job under the run's id and clears the inputs. */
    method Finish(id: string, created: Job<PartRecord>, spareParts: seq<PartRecord>)
      modifies this`progress, this`progressLog, this`jobs, this`pdf, this`brand, this`equipmentType, this`processing
      ensures jobs == CompleteJobs(old(jobs), id, created, spareParts)
      ensures progressLog == old(progressLog) + [100] && progress == 100
      ensures pdf == None && brand == "" && equipmentType == "" && !processing
    {
      SetProgress(100);
      jobs := CompleteJobs(jobs, id, created, spareParts);
      pdf, brand, equipmentType := None, "", "";
      processing := false;
    }

    /** The catch branch of `startProcessing`: the run's entries are marked 'error'. */
    method FailProcessing(id: string, message: string)
      modifies this`jobs, this`processing
      ensures jobs == FailJobs(old(jobs), id, message) && !processing
    {
      jobs := FailJobs(jobs, id, message);
      processing := false;
    }
  }

  /**
   * A completed run's job is the one `find` returns for its id, it carries a
   * non-empty result list, and it has every result in the order generated.
   */
  lemma CompletedRunFound(jobs: seq<Job<PartRecord>>, created: Job<PartRecord>, text: string,
                          brand: string, equipmentType: string, draws: nat -> FixedDraw)
    ensures var results := ParsePartsSpec(text, brand, equipmentType, draws);
      var after := CompleteJobs([created] + jobs, created.id, created, results);
      && FindJob(after, created.id) == Some(0)
      && after[0] == Finished(created, results)
      && |after[0].results| >= 1 && after[0].status == Completed
  {
    var results := ParsePartsSpec(text, brand, equipmentType, draws);
    ParsePartsNonEmpty(text, brand, equipmentType, draws);
    FindPrepended(created, jobs);
    CompleteIsolated([created] + jobs, created.id, created, results, created.id + "'");
  }
}
