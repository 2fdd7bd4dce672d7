/**
 * The field-type tables of the remote API: which field types need an
 * `options` object, the default options of each type, and the check applied
 * to options a caller supplies.
 */
module FieldTypes {
  import opened Wrappers
  import opened JsValues

  datatype FieldType =
    | SingleLineText | MultilineText | Email | PhoneNumber | RichText | Url
    | Number | Currency | Percent
    | Date | DateTime | Duration
    | SingleSelect | MultipleSelects
    | Rating | Checkbox
    | Formula | Rollup | Lookup | MultipleRecordLinks
    | Attachment | Barcode | Button | Count | AutoNumber
    | MultiSelect

  /** The name the remote API uses for a field type. */
  function TypeName(t: FieldType): string
  {
    match t
    case SingleLineText => "singleLineText"
    case MultilineText => "multilineText"
    case Email => "email"
    case PhoneNumber => "phoneNumber"
    case RichText => "richText"
    case Url => "url"
    case Number => "number"
    case Currency => "currency"
    case Percent => "percent"
    case Date => "date"
    case DateTime => "dateTime"
    case Duration => "duration"
    case SingleSelect => "singleSelect"
    case MultipleSelects => "multipleSelects"
    case Rating => "rating"
    case Checkbox => "checkbox"
    case Formula => "formula"
    case Rollup => "rollup"
    case Lookup => "lookup"
    case MultipleRecordLinks => "multipleRecordLinks"
    case Attachment => "attachment"
    case Barcode => "barcode"
    case Button => "button"
    case Count => "count"
    case AutoNumber => "autoNumber"
    case MultiSelect => "multiSelect"
  }

  /** The field type a type string names, if any. */
  function ParseFieldType(s: string): Option<FieldType>
  {
    match s
    case "singleLineText" => Some(SingleLineText)
    case "multilineText" => Some(MultilineText)
    case "email" => Some(Email)
    case "phoneNumber" => Some(PhoneNumber)
    case "richText" => Some(RichText)
    case "url" => Some(Url)
    case "number" => Some(Number)
    case "currency" => Some(Currency)
    case "percent" => Some(Percent)
    case "date" => Some(Date)
    case "dateTime" => Some(DateTime)
    case "duration" => Some(Duration)
    case "singleSelect" => Some(SingleSelect)
    case "multipleSelects" => Some(MultipleSelects)
    case "rating" => Some(Rating)
    case "checkbox" => Some(Checkbox)
    case "formula" => Some(Formula)
    case "rollup" => Some(Rollup)
    case "lookup" => Some(Lookup)
    case "multipleRecordLinks" => Some(MultipleRecordLinks)
    case "attachment" => Some(Attachment)
    case "barcode" => Some(Barcode)
    case "button" => Some(Button)
    case "count" => Some(Count)
    case "autoNumber" => Some(AutoNumber)
    case "multiSelect" => Some(MultiSelect)
    case _ => None
  }

  /** Type names are distinct, and the names are exactly the strings that parse. */
  lemma ParseTypeName(t: FieldType, s: string)
    ensures ParseFieldType(TypeName(t)) == Some(t)
    ensures ParseFieldType(s) == Some(t) <==> s == TypeName(t)
  {
    NameParses(t);
    if ParseFieldType(s) == Some(t) {
      ParsedIsName(s);
    }
  }

  lemma NameParses(t: FieldType)
    ensures ParseFieldType(TypeName(t)) == Some(t)
  {
  }

  lemma ParsedIsName(s: string)
    requires ParseFieldType(s).Some?
    ensures s == TypeName(ParseFieldType(s).value)
  {
  }

  /** `fieldRequiresOptions`. */
  predicate FieldRequiresOptions(t: FieldType)
  {
    match t
    case Number | Currency | Percent => true
    case Date | DateTime | Duration => true
    case SingleSelect | MultipleSelects | MultiSelect => true
    case Rating | Checkbox => true
    case Formula | Rollup | Lookup | MultipleRecordLinks => true
    case Barcode | Button | Count => true
    case _ => false
  }

  // ---- default options --------------------------------------------------------

  function Obj1(k: string, v: Value): Value { Obj(map[k := v]) }

  function Choice(name: string, color: string): Value
  {
    Obj(map["name" := Str(name), "color" := Str(color)])
  }

  /** `getDefaultOptions`; `None` is `undefined`. */
  function GetDefaultOptions(t: FieldType): Option<Value>
  {
    match t
    case Number => Some(Obj1("precision", Num(0)))
    case Currency => Some(Obj(map["precision" := Num(2), "symbol" := Str("$")]))
    case Percent => Some(Obj1("precision", Num(2)))
    case Date => Some(Obj1("dateFormat", Obj1("name", Str("local"))))
    case DateTime => Some(Obj(map[
        "dateFormat" := Obj1("name", Str("local")),
        "timeFormat" := Obj1("name", Str("12hour")),
        "timeZone" := Str("client")]))
    case Duration => Some(Obj1("durationFormat", Str("h:mm")))
    case SingleSelect | MultipleSelects | MultiSelect =>
      Some(Obj1("choices", Arr([Choice("Option 1", "blueBright"), Choice("Option 2", "greenBright")])))
    case Rating => Some(Obj(map["max" := Num(5), "color" := Str("yellowBright"), "icon" := Str("star")]))
    case Checkbox => Some(Obj(map["color" := Str("greenBright"), "icon" := Str("check")]))
    case Barcode => Some(Obj1("result", Obj1("type", Str("text"))))
    case Button => Some(Obj(map["label" := Str("Click Me"), "url" := Str("https://example.com")]))
    case AutoNumber => Some(Obj(map[]))
    case _ => None
  }

  // ---- option validation --------------------------------------------------------

  /** `options.key !== undefined`. */
  predicate Has(options: Value, key: string)
  {
    Get(options, key).Some?
  }

  /** `options.key` is a number in `[lo, hi]`. */
  predicate NumberIn(options: Value, key: string, lo: int, hi: int)
  {
    match Get(options, key)
    case Some(Num(n)) => lo <= n <= hi
    case _ => false
  }

  /** `validateFieldOptions`. The second `currency` case of `validateFieldOptions`'s `switch` is never reached. */
  predicate ValidateFieldOptions(t: FieldType, options: Value)
  {
    match t
    case Number | Currency | Percent => NumberIn(options, "precision", 0, 8)
    case Rating => NumberIn(options, "max", 1, 10)
    case SingleSelect | MultipleSelects | MultiSelect =>
      (match Get(options, "choices") case Some(Arr(cs)) => |cs| > 0 case _ => false)
    case Formula => (match Get(options, "formula") case Some(Str(_)) => true case _ => false)
    case Rollup => Has(options, "linkedRecordFieldId") && Has(options, "recordLinkFieldId") && Has(options, "aggregationFunction")
    case Lookup => Has(options, "linkedRecordFieldId") && Has(options, "recordLinkFieldId")
    case MultipleRecordLinks => Has(options, "linkedTableId")
    case Count => Has(options, "linkedRecordFieldId")
    case _ => true
  }

  /** Every default options object that exists passes validation for its own type. */
  lemma DefaultsValidate(t: FieldType)
    ensures GetDefaultOptions(t).Some? ==> ValidateFieldOptions(t, GetDefaultOptions(t).value)
  {
    match t
    case Number => assert Get(Obj1("precision", Num(0)), "precision") == Some(Num(0));
    case Currency =>
      assert Get(Obj(map["precision" := Num(2), "symbol" := Str("$")]), "precision") == Some(Num(2));
    case Percent => assert Get(Obj1("precision", Num(2)), "precision") == Some(Num(2));
    case Rating =>
      assert Get(Obj(map["max" := Num(5), "color" := Str("yellowBright"), "icon" := Str("star")]), "max") == Some(Num(5));
    case SingleSelect | MultipleSelects | MultiSelect =>
      var cs := Arr([Choice("Option 1", "blueBright"), Choice("Option 2", "greenBright")]);
      assert Get(Obj1("choices", cs), "choices") == Some(cs);
    case _ =>
  }

  /**
   * The currency symbol is never checked: currency options are judged by
   * their precision alone, exactly as number options are.
   */
  lemma CurrencySymbolUnchecked(options: Value)
    ensures ValidateFieldOptions(Currency, options) <==> ValidateFieldOptions(Number, options)
    ensures ValidateFieldOptions(Currency, options) <==>
      (Get(options, "precision").Some? && Get(options, "precision").value.Num?
       && 0 <= Get(options, "precision").value.n <= 8)
  {
  }

  /** Formula, rollup, lookup, linked-record and count fields need options but have no defaults. */
  lemma MissingDefaults(t: FieldType)
    ensures t in {Formula, Rollup, Lookup, MultipleRecordLinks, Count} ==>
      FieldRequiresOptions(t) && GetDefaultOptions(t).None?
    ensures FieldRequiresOptions(t) && GetDefaultOptions(t).None? ==>
      t in {Formula, Rollup, Lookup, MultipleRecordLinks, Count}
    ensures GetDefaultOptions(AutoNumber) == Some(Obj(map[])) && !FieldRequiresOptions(AutoNumber)
  {
  }

  /** The types that take no options: the basic text types, attachments and auto-numbers. */
  lemma RequiresOptionsTable(t: FieldType)
    ensures !FieldRequiresOptions(t) <==>
      t in {SingleLineText, MultilineText, Email, PhoneNumber, RichText, Url, Attachment, AutoNumber}
  {
  }

  /** The members a linked-field type must be given. */
  function LinkKeys(t: FieldType): set<string>
  {
    match t
    case Rollup => {"linkedRecordFieldId", "recordLinkFieldId", "aggregationFunction"}
    case Lookup => {"linkedRecordFieldId", "recordLinkFieldId"}
    case MultipleRecordLinks => {"linkedTableId"}
    case Count => {"linkedRecordFieldId"}
    case _ => {}
  }

  /**
   * Options for a rollup, lookup, linked-record or count field are valid
   * exactly when they are an object holding every member its type needs,
   * whatever the values; so valid rollup options are valid lookup options,
   * and valid lookup options are valid count options.
   */
  lemma LinkedFieldRules(t: FieldType, options: Value)
    requires t in {Rollup, Lookup, MultipleRecordLinks, Count}
    ensures ValidateFieldOptions(t, options) <==> options.Obj? && LinkKeys(t) <= options.members.Keys
    ensures ValidateFieldOptions(Rollup, options) ==> ValidateFieldOptions(Lookup, options)
    ensures ValidateFieldOptions(Lookup, options) ==> ValidateFieldOptions(Count, options)
  {
  }

  /** Formula options are valid exactly when they are an object whose `formula` member is a string. */
  lemma FormulaRule(options: Value)
    ensures ValidateFieldOptions(Formula, options) <==>
      options.Obj? && "formula" in options.members && options.members["formula"].Str?
  {
  }

  /** Options for any type without a rule are accepted whatever they are. */
  lemma UncheckedTypesAccept(t: FieldType, options: Value)
    requires t !in {Number, Currency, Percent, Rating, SingleSelect, MultipleSelects, MultiSelect,
                    Formula, Rollup, Lookup, MultipleRecordLinks, Count}
    ensures ValidateFieldOptions(t, options)
  {
  }

  /** Rating options need a numeric `max` from 1 to 10; select options a non-empty `choices` array. */
  lemma RatingAndSelectRules(t: FieldType, options: Value)
    ensures ValidateFieldOptions(Rating, options) <==>
      options.Obj? && "max" in options.members && options.members["max"].Num?
      && 1 <= options.members["max"].n <= 10
    ensures t in {SingleSelect, MultipleSelects, MultiSelect} ==>
      (ValidateFieldOptions(t, options) <==>
         options.Obj? && "choices" in options.members && options.members["choices"].Arr?
         && |options.members["choices"].elems| > 0)
  {
  }
}
