/**
 * The Gemini-based analyzer script: the category and shred-safety
 * enumerations, the JSON schema handed to the model, the validation of the
 * model's answer against the two enumerations, the plain-text processing
 * report and the loop over an image folder.
 */
module WilliamAnalyze {
  import opened Wrappers
  import opened Text

  // ---------------------------------------------------------------------
  // Enumerations
  // ---------------------------------------------------------------------

  /** The 37 kinds of item the model may name, in declaration order. */
  datatype ObjectCategory =
    | Smartphone | Tablet | Laptop | DesktopComputer | Monitor | Television
    | GamingConsole | Smartwatch | Earbuds | Camera
    | CircuitBoard | HardDrive | Ram | Processor | GraphicsCard | PowerSupply
    | Ssd | Motherboard
    | LithiumBattery | AlkalineBattery | LeadAcidBattery | ButtonBattery
    | LaptopBattery | PhoneBattery
    | Cables | Charger | Keyboard | Mouse | UsbDevice
    | Printer | Scanner | Router | Speaker | Microwave
    | Crt | MixedEwaste | UnknownDevice

  const AllCategories: seq<ObjectCategory> := [
    Smartphone, Tablet, Laptop, DesktopComputer, Monitor, Television,
    GamingConsole, Smartwatch, Earbuds, Camera,
    CircuitBoard, HardDrive, Ram, Processor, GraphicsCard, PowerSupply,
    Ssd, Motherboard,
    LithiumBattery, AlkalineBattery, LeadAcidBattery, ButtonBattery,
    LaptopBattery, PhoneBattery,
    Cables, Charger, Keyboard, Mouse, UsbDevice,
    Printer, Scanner, Router, Speaker, Microwave,
    Crt, MixedEwaste, UnknownDevice]

  /** The string value each category carries. */
  function CategoryValue(c: ObjectCategory): string {
    match c
    case Smartphone => "Smartphone"
    case Tablet => "Tablet"
    case Laptop => "Laptop"
    case DesktopComputer => "Desktop Computer"
    case Monitor => "Monitor"
    case Television => "Television"
    case GamingConsole => "Gaming Console"
    case Smartwatch => "Smartwatch"
    case Earbuds => "Earbuds/Headphones"
    case Camera => "Digital Camera"
    case CircuitBoard => "Circuit Board"
    case HardDrive => "Hard Drive"
    case Ram => "RAM Module"
    case Processor => "CPU/Processor"
    case GraphicsCard => "Graphics Card"
    case PowerSupply => "Power Supply Unit"
    case Ssd => "Solid State Drive"
    case Motherboard => "Motherboard"
    case LithiumBattery => "Lithium-ion Battery"
    case AlkalineBattery => "Alkaline Battery"
    case LeadAcidBattery => "Lead-acid Battery"
    case ButtonBattery => "Button Cell Battery"
    case LaptopBattery => "Laptop Battery Pack"
    case PhoneBattery => "Phone Battery"
    case Cables => "Cables/Wires"
    case Charger => "Charger/Adapter"
    case Keyboard => "Keyboard"
    case Mouse => "Mouse"
    case UsbDevice => "USB Device/Flash Drive"
    case Printer => "Printer"
    case Scanner => "Scanner"
    case Router => "Router/Modem"
    case Speaker => "Speaker System"
    case Microwave => "Microwave"
    case Crt => "Cathode-Ray Tube"
    case MixedEwaste => "Mixed E-waste"
    case UnknownDevice => "Unknown Device"
  }

  /**
   * Looking a member up by its value, as calling the enum class on a string
   * does: the first member in declaration order carrying that value.
   */
  function FindCategory(s: string, cs: seq<ObjectCategory>): Option<ObjectCategory> {
    if cs == [] then None
    else if CategoryValue(cs[0]) == s then Some(cs[0])
    else FindCategory(s, cs[1..])
  }

  function ParseCategory(s: string): Option<ObjectCategory> {
    FindCategory(s, AllCategories)
  }

  lemma {:induction false} FindCategorySound(s: string, cs: seq<ObjectCategory>)
    ensures FindCategory(s, cs).Some? ==>
      FindCategory(s, cs).value in cs && CategoryValue(FindCategory(s, cs).value) == s
  {
    if cs != [] && CategoryValue(cs[0]) != s {
      FindCategorySound(s, cs[1..]);
    }
  }

  lemma {:induction false} FindCategoryComplete(s: string, cs: seq<ObjectCategory>, c: ObjectCategory)
    requires c in cs && CategoryValue(c) == s
    ensures FindCategory(s, cs).Some?
  {
    if CategoryValue(cs[0]) != s {
      assert c in cs[1..];
      FindCategoryComplete(s, cs[1..], c);
    }
  }

  lemma CategoryListed(c: ObjectCategory)
    ensures c in AllCategories
  {
  }

  /** First character, length and last character: enough to tell the 37 values apart. */
  function Signature(s: string): (char, int, char) {
    if s == [] then ('\0', 0, '\0') else (s[0], |s|, s[|s| - 1])
  }

  function CategoryOfSignature(g: (char, int, char)): Option<ObjectCategory> {
    match g
    case ('S', 10, 'e') => Some(Smartphone)
    case ('T', 6, 't') => Some(Tablet)
    case ('L', 6, 'p') => Some(Laptop)
    case ('D', 16, 'r') => Some(DesktopComputer)
    case ('M', 7, 'r') => Some(Monitor)
    case ('T', 10, 'n') => Some(Television)
    case ('G', 14, 'e') => Some(GamingConsole)
    case ('S', 10, 'h') => Some(Smartwatch)
    case ('E', 18, 's') => Some(Earbuds)
    case ('D', 14, 'a') => Some(Camera)
    case ('C', 13, 'd') => Some(CircuitBoard)
    case ('H', 10, 'e') => Some(HardDrive)
    case ('R', 10, 'e') => Some(Ram)
    case ('C', 13, 'r') => Some(Processor)
    case ('G', 13, 'd') => Some(GraphicsCard)
    case ('P', 17, 't') => Some(PowerSupply)
    case ('S', 17, 'e') => Some(Ssd)
    case ('M', 11, 'd') => Some(Motherboard)
    case ('L', 19, 'y') => Some(LithiumBattery)
    case ('A', 16, 'y') => Some(AlkalineBattery)
    case ('L', 17, 'y') => Some(LeadAcidBattery)
    case ('B', 19, 'y') => Some(ButtonBattery)
    case ('L', 19, 'k') => Some(LaptopBattery)
    case ('P', 13, 'y') => Some(PhoneBattery)
    case ('C', 12, 's') => Some(Cables)
    case ('C', 15, 'r') => Some(Charger)
    case ('K', 8, 'd') => Some(Keyboard)
    case ('M', 5, 'e') => Some(Mouse)
    case ('U', 22, 'e') => Some(UsbDevice)
    case ('P', 7, 'r') => Some(Printer)
    case ('S', 7, 'r') => Some(Scanner)
    case ('R', 12, 'm') => Some(Router)
    case ('S', 14, 'm') => Some(Speaker)
    case ('M', 9, 'e') => Some(Microwave)
    case ('C', 16, 'e') => Some(Crt)
    case ('M', 13, 'e') => Some(MixedEwaste)
    case ('U', 14, 'e') => Some(UnknownDevice)

    case _ => None
  }

  /** The signature of each value, written out. */
  function CategorySignature(c: ObjectCategory): (char, int, char) {
    match c
    case Smartphone => ('S', 10, 'e')
    case Tablet => ('T', 6, 't')
    case Laptop => ('L', 6, 'p')
    case DesktopComputer => ('D', 16, 'r')
    case Monitor => ('M', 7, 'r')
    case Television => ('T', 10, 'n')
    case GamingConsole => ('G', 14, 'e')
    case Smartwatch => ('S', 10, 'h')
    case Earbuds => ('E', 18, 's')
    case Camera => ('D', 14, 'a')
    case CircuitBoard => ('C', 13, 'd')
    case HardDrive => ('H', 10, 'e')
    case Ram => ('R', 10, 'e')
    case Processor => ('C', 13, 'r')
    case GraphicsCard => ('G', 13, 'd')
    case PowerSupply => ('P', 17, 't')
    case Ssd => ('S', 17, 'e')
    case Motherboard => ('M', 11, 'd')
    case LithiumBattery => ('L', 19, 'y')
    case AlkalineBattery => ('A', 16, 'y')
    case LeadAcidBattery => ('L', 17, 'y')
    case ButtonBattery => ('B', 19, 'y')
    case LaptopBattery => ('L', 19, 'k')
    case PhoneBattery => ('P', 13, 'y')
    case Cables => ('C', 12, 's')
    case Charger => ('C', 15, 'r')
    case Keyboard => ('K', 8, 'd')
    case Mouse => ('M', 5, 'e')
    case UsbDevice => ('U', 22, 'e')
    case Printer => ('P', 7, 'r')
    case Scanner => ('S', 7, 'r')
    case Router => ('R', 12, 'm')
    case Speaker => ('S', 14, 'm')
    case Microwave => ('M', 9, 'e')
    case Crt => ('C', 16, 'e')
    case MixedEwaste => ('M', 13, 'e')
    case UnknownDevice => ('U', 14, 'e')
  }

  /** Consumer electronics and computer components: the first eighteen members. */
  predicate IsDevice(c: ObjectCategory) {
    || c.Smartphone? || c.Tablet? || c.Laptop? || c.DesktopComputer? || c.Monitor? || c.Television?
    || c.GamingConsole? || c.Smartwatch? || c.Earbuds? || c.Camera?
    || c.CircuitBoard? || c.HardDrive? || c.Ram? || c.Processor? || c.GraphicsCard? || c.PowerSupply?
    || c.Ssd? || c.Motherboard?
  }

  lemma SignatureOfValue(c: ObjectCategory)
    ensures Signature(CategoryValue(c)) == CategorySignature(c)
  {
    if IsDevice(c) {
      DeviceSignatures(c);
    } else {
      OtherSignatures(c);
    }
  }

  lemma DeviceSignatures(c: ObjectCategory)
    requires IsDevice(c)
    ensures Signature(CategoryValue(c)) == CategorySignature(c)
  {
  }

  lemma OtherSignatures(c: ObjectCategory)
    requires !IsDevice(c)
    ensures Signature(CategoryValue(c)) == CategorySignature(c)
  {
  }

  lemma SignatureIdentifies(c: ObjectCategory)
    ensures CategoryOfSignature(CategorySignature(c)) == Some(c)
  {
  }

  /** No two members share a value, so the enum has no aliases. */
  lemma CategoryValueInjective(c: ObjectCategory, d: ObjectCategory)
    requires CategoryValue(c) == CategoryValue(d)
    ensures c == d
  {
    SignatureOfValue(c);
    SignatureOfValue(d);
    SignatureIdentifies(c);
    SignatureIdentifies(d);
  }

  lemma CategoryRoundTrip(c: ObjectCategory)
    ensures ParseCategory(CategoryValue(c)) == Some(c)
  {
    CategoryListed(c);
    FindCategoryComplete(CategoryValue(c), AllCategories, c);
    FindCategorySound(CategoryValue(c), AllCategories);
    CategoryValueInjective(c, ParseCategory(CategoryValue(c)).value);
  }

  lemma CategoryParseSound(s: string)
    ensures ParseCategory(s).Some? ==> CategoryValue(ParseCategory(s).value) == s
  {
    FindCategorySound(s, AllCategories);
  }

  datatype ShredSafety = SafeToShred | DoNotShred | RequiresPreprocessing | Discard

  const AllSafeties: seq<ShredSafety> := [SafeToShred, DoNotShred, RequiresPreprocessing, Discard]

  function SafetyValue(s: ShredSafety): string {
    match s
    case SafeToShred => "Safe to Shred"
    case DoNotShred => "Do Not Shred"
    case RequiresPreprocessing => "Requires Preprocessing Before Shredding"
    case Discard => "Discard"
  }

  function ParseSafety(s: string): Option<ShredSafety> {
    match s
    case "Safe to Shred" => Some(SafeToShred)
    case "Do Not Shred" => Some(DoNotShred)
    case "Requires Preprocessing Before Shredding" => Some(RequiresPreprocessing)
    case "Discard" => Some(Discard)
    case _ => None
  }

  lemma SafetyRoundTrip(s: ShredSafety)
    ensures ParseSafety(SafetyValue(s)) == Some(s)
  {
  }

  lemma SafetyParseSound(v: string)
    ensures ParseSafety(v).Some? ==> SafetyValue(ParseSafety(v).value) == v
  {
  }

  // ---------------------------------------------------------------------
  // Analysis records
  // ---------------------------------------------------------------------

  datatype HazardousComponents = HazardousComponents(
    hasBattery: bool, hasMercury: bool, hasLead: bool, hasCapacitors: bool,
    hasToner: bool, hasRefrigerant: bool, hasCadmium: bool, hasNickel: bool)

  datatype EWasteAnalysis = EWasteAnalysis(
    objectType: ObjectCategory,
    shredSafety: ShredSafety,
    hazardousComponents: HazardousComponents,
    observations: string)

  /**
   * The model's JSON answer once decoded: the two enumerated fields are
   * still plain strings until validation turns them into enum members.
   */
  datatype RawAnswer = RawAnswer(
    objectType: string,
    shredSafety: string,
    hazardousComponents: HazardousComponents,
    observations: string)

  /** Building the validated record from the answer: fails on an unknown enum value. */
  function Validate(raw: RawAnswer): Option<EWasteAnalysis> {
    match (ParseCategory(raw.objectType), ParseSafety(raw.shredSafety))
    case (Some(c), Some(s)) =>
      Some(EWasteAnalysis(c, s, raw.hazardousComponents, raw.observations))
    case _ => None
  }

  // ---------------------------------------------------------------------
  // Response schema
  // ---------------------------------------------------------------------

  /** The fragment of JSON Schema the script writes. */
  datatype Schema =
    | ObjectSchema(properties: seq<Property>, required: seq<string>)
    | StringSchema(choices: Option<seq<string>>, description: Option<string>)
    | BooleanSchema

  datatype Property = Property(key: string, schema: Schema)

  /** The enumeration values in declaration order. */
  function CategoryValues(): seq<string> {
    seq(|AllCategories|, i requires 0 <= i < |AllCategories| => CategoryValue(AllCategories[i]))
  }

  function SafetyValues(): seq<string> {
    seq(|AllSafeties|, i requires 0 <= i < |AllSafeties| => SafetyValue(AllSafeties[i]))
  }

  const HazardKeys: seq<string> := [
    "has_battery", "has_mercury", "has_lead", "has_capacitors",
    "has_toner", "has_refrigerant", "has_cadmium", "has_nickel"]

  function HazardsSchema(): Schema {
    ObjectSchema(
      [Property("has_battery", BooleanSchema), Property("has_mercury", BooleanSchema),
       Property("has_lead", BooleanSchema), Property("has_capacitors", BooleanSchema),
       Property("has_toner", BooleanSchema), Property("has_refrigerant", BooleanSchema),
       Property("has_cadmium", BooleanSchema), Property("has_nickel", BooleanSchema)],
      HazardKeys)
  }

  function CreateAnalysisSchema(): Schema {
    ObjectSchema(
      [Property("object_type", StringSchema(Some(CategoryValues()), Some("Type of electronic waste"))),
       Property("shred_safety", StringSchema(Some(SafetyValues()), Some("Whether item is safe to shred"))),
       Property("hazardous_components", HazardsSchema()),
       Property("observations", StringSchema(None, Some("Additional observations")))],
      ["object_type", "shred_safety", "hazardous_components", "observations"])
  }

  function Keys(ps: seq<Property>): seq<string> {
    seq(|ps|, i requires 0 <= i < |ps| => ps[i].key)
  }

  /** The schema of the first property named `key`, if any. */
  function Lookup(ps: seq<Property>, key: string): Option<Schema> {
    if ps == [] then None
    else if ps[0].key == key then Some(ps[0].schema)
    else Lookup(ps[1..], key)
  }

  /** A string value is admitted by a string schema when it lies in its enumeration, if there is one. */
  predicate Admits(s: Schema, v: string) {
    s.StringSchema? && (s.choices.Some? ==> v in s.choices.value)
  }

  /** The decoded answer meets the constraints the schema places on the two enumerated fields. */
  predicate Conforms(schema: Schema, raw: RawAnswer) {
    schema.ObjectSchema?
    && var objectType := Lookup(schema.properties, "object_type");
    var shredSafety := Lookup(schema.properties, "shred_safety");
    objectType.Some? && Admits(objectType.value, raw.objectType)
    && shredSafety.Some? && Admits(shredSafety.value, raw.shredSafety)
  }

  /** Every category value appears in the schema's list. */
  lemma CategoryOffered(c: ObjectCategory)
    ensures CategoryValue(c) in CategoryValues()
  {
    CategoryListed(c);
    var i :| 0 <= i < |AllCategories| && AllCategories[i] == c;
    assert CategoryValues()[i] == CategoryValue(c);
  }

  /** The schema's category list names exactly the strings validation accepts. */
  lemma CategoryValuesAccepted(v: string)
    ensures v in CategoryValues() <==> ParseCategory(v).Some?
  {
    if v in CategoryValues() {
      var i :| 0 <= i < |CategoryValues()| && CategoryValues()[i] == v;
      CategoryRoundTrip(AllCategories[i]);
    }
    if ParseCategory(v).Some? {
      CategoryParseSound(v);
      CategoryOffered(ParseCategory(v).value);
    }
  }

  lemma SafetyValuesAccepted(v: string)
    ensures v in SafetyValues() <==> ParseSafety(v).Some?
  {
    if v in SafetyValues() {
      var i :| 0 <= i < |SafetyValues()| && SafetyValues()[i] == v;
      SafetyRoundTrip(AllSafeties[i]);
    }
    if ParseSafety(v).Some? {
      var s := ParseSafety(v).value;
      SafetyParseSound(v);
      assert SafetyValues()[if s == SafeToShred then 0 else if s == DoNotShred then 1
        else if s == RequiresPreprocessing then 2 else 3] == v;
    }
  }

  /**
   * An answer that keeps to the schema always validates, and one that
   * validates always kept to it: the schema's enumerations and the record's
   * enum types agree.
   */
  lemma SchemaMatchesValidation(raw: RawAnswer)
    ensures Conforms(CreateAnalysisSchema(), raw) <==> Validate(raw).Some?
  {
    var ps := CreateAnalysisSchema().properties;
    assert Lookup(ps, "object_type") == Some(StringSchema(Some(CategoryValues()), Some("Type of electronic waste")));
    assert Lookup(ps, "shred_safety") == Some(StringSchema(Some(SafetyValues()), Some("Whether item is safe to shred")));
    CategoryValuesAccepted(raw.objectType);
    SafetyValuesAccepted(raw.shredSafety);
  }

  /** A validated record keeps the answer's strings and flags. */
  lemma ValidateKeepsAnswer(raw: RawAnswer)
    requires Validate(raw).Some?
    ensures CategoryValue(Validate(raw).value.objectType) == raw.objectType
    ensures SafetyValue(Validate(raw).value.shredSafety) == raw.shredSafety
    ensures Validate(raw).value.hazardousComponents == raw.hazardousComponents
    ensures Validate(raw).value.observations == raw.observations
  {
    CategoryParseSound(raw.objectType);
    SafetyParseSound(raw.shredSafety);
  }

  /** Both object levels require exactly the properties they declare, in declaration order. */
  lemma SchemaRequiresAllProperties()
    ensures CreateAnalysisSchema().required == Keys(CreateAnalysisSchema().properties)
    ensures HazardsSchema().required == Keys(HazardsSchema().properties)
    ensures Lookup(CreateAnalysisSchema().properties, "hazardous_components") == Some(HazardsSchema())
  {
  }

  // ---------------------------------------------------------------------
  // Processing report
  // ---------------------------------------------------------------------

  function YesNo(b: bool): string {
    if b then "YES" else "NO"
  }

  /** The hazard list is printed for items that must not simply go into the shredder. */
  predicate ListsHazards(s: ShredSafety) {
    s == DoNotShred || s == RequiresPreprocessing
  }

  function HazardLine(name: string, flag: bool): string {
    "\n        " + name + ": " + YesNo(flag)
  }

  /** The eight flags in the record's order: battery, mercury, lead, capacitors, toner, refrigerant, cadmium, nickel. */
  function HazardBlock(h: HazardousComponents): string {
    "\n        Hazards:\n"
    + HazardLine("Battery", h.hasBattery) + HazardLine("Mercury", h.hasMercury)
    + HazardLine("Lead", h.hasLead) + HazardLine("Capacitors", h.hasCapacitors)
    + HazardLine("Toner", h.hasToner) + HazardLine("Refrigerant", h.hasRefrigerant)
    + HazardLine("Cadmium", h.hasCadmium) + HazardLine("Nickel", h.hasNickel)
  }

  function Header(num: nat, imagePath: string, a: EWasteAnalysis): string {
    "\n    " + Rule + "\n\n        ITEM " + NatToString(num) + ": (" + imagePath
    + ")\n\n        Item: " + CategoryValue(a.objectType) + " "
  }

  function ObservationPart(a: EWasteAnalysis): string {
    if a.objectType == UnknownDevice then "\n        " + a.observations else ""
  }

  function SafetyPart(a: EWasteAnalysis): string {
    "\n        Shred Safety: " + SafetyValue(a.shredSafety) + "\n    "
  }

  function HazardPart(a: EWasteAnalysis): string {
    if ListsHazards(a.shredSafety) then HazardBlock(a.hazardousComponents) else ""
  }

  const Closing: string := "\n\n    " + Rule

  /** The whole report for item number `num`. */
  function Report(num: nat, imagePath: string, a: EWasteAnalysis): string {
    Header(num, imagePath, a) + ObservationPart(a) + SafetyPart(a) + HazardPart(a) + Closing
  }

  /** Builds the report piece by piece, as the script appends to its string. */
  method GenerateProcessingReport(num: nat, imagePath: string, a: EWasteAnalysis)
    returns (report: string)
    ensures report == Report(num, imagePath, a)
  {
    report := "\n    " + Rule + "\n\n        ITEM " + NatToString(num) + ": (" + imagePath
      + ")\n\n        Item: " + CategoryValue(a.objectType) + " ";
    assert report == Header(num, imagePath, a);
    if a.objectType == UnknownDevice {
      report := report + ("\n        " + a.observations);
    }
    assert report == Header(num, imagePath, a) + ObservationPart(a);
    report := report + ("\n        Shred Safety: " + SafetyValue(a.shredSafety) + "\n    ");
    assert report == Header(num, imagePath, a) + ObservationPart(a) + SafetyPart(a);
    if a.shredSafety == DoNotShred || a.shredSafety == RequiresPreprocessing {
      report := report + HazardBlock(a.hazardousComponents);
    }
    assert report == Header(num, imagePath, a) + ObservationPart(a) + SafetyPart(a) + HazardPart(a);
    report := report + ("\n\n    " + Rule);
  }

  /** The report opens with the item's header and closes with the rule. */
  lemma ReportFraming(num: nat, imagePath: string, a: EWasteAnalysis)
    ensures StartsWith(Report(num, imagePath, a), Header(num, imagePath, a))
    ensures EndsWith(Report(num, imagePath, a), Closing)
  {
    var h := Header(num, imagePath, a);
    var o := ObservationPart(a);
    var s := SafetyPart(a);
    var z := HazardPart(a);
    StartsWithConcat(h, o);
    StartsWithLonger(h + o, h, s);
    StartsWithLonger(h + o + s, h, z);
    StartsWithLonger(h + o + s + z, h, Closing);
    EndsWithConcat(h + o + s + z, Closing);
  }

  /** The hazard block ends in the last letter of YES or NO. */
  lemma HazardBlockEnding(h: HazardousComponents)
    ensures |HazardBlock(h)| > 0
    ensures HazardBlock(h)[|HazardBlock(h)| - 1] in {'S', 'O'}
  {
  }

  /**
   * The report ends with the hazard list exactly for the two shred-safety
   * values that call for it; otherwise the safety line's trailing blank runs
   * straight into the closing rule.
   */
  lemma ReportListsHazards(num: nat, imagePath: string, a: EWasteAnalysis)
    ensures EndsWith(Report(num, imagePath, a), HazardBlock(a.hazardousComponents) + Closing)
      <==> ListsHazards(a.shredSafety)
  {
    var block := HazardBlock(a.hazardousComponents);
    var prefix := Header(num, imagePath, a) + ObservationPart(a) + SafetyPart(a);
    if ListsHazards(a.shredSafety) {
      EndsWithConcat(prefix, block);
      EndsWithExtended(prefix + block, block, Closing);
    } else {
      assert prefix + HazardPart(a) == prefix;
      HazardBlockEnding(a.hazardousComponents);
      assert prefix[|prefix| - 1] == ' ';
      if EndsWith(prefix + Closing, block + Closing) {
        EndsWithSameLast(prefix, block, Closing);
      }
    }
  }

  /** Only an unknown item carries the model's observations, right after the item line. */
  lemma ReportObservations(num: nat, imagePath: string, a: EWasteAnalysis)
    ensures a.objectType == UnknownDevice ==>
      StartsWith(Report(num, imagePath, a), Header(num, imagePath, a) + ("\n        " + a.observations) + SafetyPart(a))
    ensures a.objectType != UnknownDevice ==>
      StartsWith(Report(num, imagePath, a), Header(num, imagePath, a) + SafetyPart(a))
  {
    var h := Header(num, imagePath, a);
    var o := ObservationPart(a);
    var s := SafetyPart(a);
    var z := HazardPart(a);
    if a.objectType != UnknownDevice {
      assert h + o == h;
    }
    StartsWithConcat(h + o + s, z);
    StartsWithLonger(h + o + s + z, h + o + s, Closing);
  }

  // ---------------------------------------------------------------------
  // Folder loop
  // ---------------------------------------------------------------------

  /** What became of one image: the prompt file could not be read, the model call failed, or it answered. */
  datatype Attempt =
    | PromptUnreadable(message: string)
    | CallFailed(message: string)
    | Answered(raw: RawAnswer, rejection: string)

  const Cross: string := "\U{274c}"

  /** The lines one image prints, given its item number. */
  function ImageOutput(num: nat, imagePath: string, attempt: Attempt): seq<string> {
    match attempt
    case PromptUnreadable(m) => [Cross + " Error: " + m]
    case CallFailed(m) => ["Error analyzing image: " + m, Cross + " Error: " + m]
    case Answered(raw, m) =>
      match Validate(raw)
      case Some(a) => [Report(num, imagePath, a)]
      case None => ["Error analyzing image: " + m, Cross + " Error: " + m]
  }

  /** The lines each image of the listing prints, numbered from 1, in listing order. */
  function Outputs(images: seq<string>, attempts: seq<Attempt>): (outs: seq<seq<string>>)
    requires |attempts| == |images|
    ensures |outs| == |images|
  {
    seq(|images|, k requires 0 <= k < |images| => ImageOutput(k + 1, images[k], attempts[k]))
  }

  /** The blocks of lines one after another. */
  function Flatten(blocks: seq<seq<string>>): seq<string>
    decreases |blocks|
  {
    if blocks == [] then [] else Flatten(blocks[..|blocks| - 1]) + blocks[|blocks| - 1]
  }

  lemma FlattenSnoc(blocks: seq<seq<string>>, i: nat)
    requires i < |blocks|
    ensures Flatten(blocks[..i + 1]) == Flatten(blocks[..i]) + blocks[i]
  {
    assert blocks[..i + 1][..i] == blocks[..i];
  }

  /** Everything the loop prints for the listing. */
  function FolderOutput(images: seq<string>, attempts: seq<Attempt>): seq<string>
    requires |attempts| == |images|
  {
    Flatten(Outputs(images, attempts))
  }

  /**
   * Walks the directory listing in order; every entry, whether it fails or
   * not, advances the item number.
   */
  method AnalyzeFolder(images: seq<string>, attempts: seq<Attempt>) returns (out: seq<string>, num: nat)
    requires |attempts| == |images|
    ensures out == FolderOutput(images, attempts)
    ensures num == |images|
  {
    ghost var outs := Outputs(images, attempts);
    out := [];
    num := 0;
    while num < |images|
      invariant num <= |images|
      invariant out == Flatten(outs[..num])
    {
      var attempt := attempts[num];
      var imagePath := images[num];
      FlattenSnoc(outs, num);
      num := num + 1;
      var lines: seq<string>;
      match attempt {
        case PromptUnreadable(m) =>
          lines := [Cross + " Error: " + m];
        case CallFailed(m) =>
          lines := ["Error analyzing image: " + m, Cross + " Error: " + m];
        case Answered(raw, m) =>
          var analysis := Validate(raw);
          if analysis.Some? {
            var report := GenerateProcessingReport(num, imagePath, analysis.value);
            lines := [report];
          } else {
            lines := ["Error analyzing image: " + m, Cross + " Error: " + m];
          }
      }
      assert lines == ImageOutput(num, imagePath, attempt);
      out := out + lines;
    }
    assert outs[..num] == outs;
  }

  /** Blocks of one or two lines flatten to between one and two lines per block. */
  lemma {:induction false} FlattenBounds(blocks: seq<seq<string>>)
    requires forall k :: 0 <= k < |blocks| ==> 1 <= |blocks[k]| <= 2
    ensures |blocks| <= |Flatten(blocks)| <= 2 * |blocks|
    decreases |blocks|
  {
    if blocks != [] {
      FlattenBounds(blocks[..|blocks| - 1]);
    }
  }

  /** Each image contributes one or two lines. */
  lemma FolderOutputLength(images: seq<string>, attempts: seq<Attempt>)
    requires |attempts| == |images|
    ensures |images| <= |FolderOutput(images, attempts)| <= 2 * |images|
  {
    var outs := Outputs(images, attempts);
    forall k | 0 <= k < |outs|
      ensures 1 <= |outs[k]| <= 2
    {
      assert outs[k] == ImageOutput(k + 1, images[k], attempts[k]);
    }
    FlattenBounds(outs);
  }

  /** Every image's answer validated, to the analyses listed. */
  predicate AllValidate(attempts: seq<Attempt>, analyses: seq<EWasteAnalysis>) {
    |analyses| == |attempts|
    && forall k :: 0 <= k < |attempts| ==>
      attempts[k].Answered? && Validate(attempts[k].raw) == Some(analyses[k])
  }

  /** When every block is one line, line `k` is block `k`'s. */
  lemma {:induction false} FlattenSingles(blocks: seq<seq<string>>)
    requires forall k :: 0 <= k < |blocks| ==> |blocks[k]| == 1
    ensures |Flatten(blocks)| == |blocks|
    ensures forall k :: 0 <= k < |blocks| ==> Flatten(blocks)[k] == blocks[k][0]
    decreases |blocks|
  {
    if blocks != [] {
      FlattenSingles(blocks[..|blocks| - 1]);
    }
  }

  /** A listing in which every answer validates prints one report per image, numbered 1, 2, ... */
  lemma FolderReportsNumbered(images: seq<string>, attempts: seq<Attempt>, analyses: seq<EWasteAnalysis>)
    requires |attempts| == |images| && AllValidate(attempts, analyses)
    ensures |FolderOutput(images, attempts)| == |images|
    ensures forall k :: 0 <= k < |images| ==> FolderOutput(images, attempts)[k] == Report(k + 1, images[k], analyses[k])
  {
    var outs := Outputs(images, attempts);
    forall k | 0 <= k < |images|
      ensures outs[k] == [Report(k + 1, images[k], analyses[k])]
    {
      assert outs[k] == ImageOutput(k + 1, images[k], attempts[k]);
    }
    FlattenSingles(outs);
  }
}
