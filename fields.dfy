/**
 * The Stripe field descriptors: construction with its nullability defaults,
 * and `stripe_to_db`, which picks out of one Stripe object the value to store
 * in one column.
 */
module Fields {
  import opened Wrappers
  import opened JsonValues
  import opened NestedAccess

  /** The field classes; each selects construction defaults and post-processing. */
  datatype Kind =
    | Currency
    | Boolean
    | NullBoolean
    | Char
    | Id
    | Text
    | DateTime
    | Integer
    | PositiveInteger
    | JsonBlob

  /**
   * The column keyword arguments the field classes themselves set before handing
   * them to the ORM column; `None` means the argument is not passed.
   * `defaultValue == Some(Null)` is `default=None`.
   */
  datatype ColumnArgs = ColumnArgs(
    nullable: Option<bool>,
    defaultValue: Option<Json>,
    maxLength: Option<int>,
    blank: Option<bool>,
    decimalPlaces: Option<int>,
    maxDigits: Option<int>)

  /** No column argument passed. */
  const NoColumnArgs := ColumnArgs(None, None, None, None, None, None)

  /** The keyword arguments a field is declared with; `None` means not passed. */
  datatype Kwargs = Kwargs(
    stripeName: Option<string>,
    nestedName: Option<string>,
    stripeRequired: Option<bool>,
    deprecated: Option<bool>,
    column: ColumnArgs)

  /** A constructed field: its Stripe options and the column arguments it was built with. */
  datatype Descriptor = Descriptor(
    kind: Kind,
    name: string,
    stripeName: Option<string>,
    nestedName: Option<string>,
    stripeRequired: bool,
    deprecated: bool,
    column: ColumnArgs)

  /** The error raised by a declaration the field classes refuse. */
  datatype ConfigError = ImproperlyConfigured(message: string)

  /** Python truthiness of an optional name: set and not the empty string. */
  function Truthy(s: Option<string>): (t: bool)
    ensures s == None ==> !t
    ensures s == Some("") ==> !t
    ensures s.Some? && |s.value| > 0 ==> t
  {
    s.Some? && s.value != ""
  }

  /** The argument if the caller passed it, otherwise the fallback. */
  function Prefer<T>(given: Option<T>, fallback: Option<T>): (r: Option<T>)
    ensures given.Some? ==> r == given
    ensures given.None? ==> r == fallback
  {
    if given.Some? then given else fallback
  }

  /** `defaults.update(kwargs)`: every argument the caller passed replaces the class default. */
  function Update(defaults: ColumnArgs, kwargs: ColumnArgs): (merged: ColumnArgs)
    ensures kwargs.nullable.Some? ==> merged.nullable == kwargs.nullable
    ensures kwargs.defaultValue.Some? ==> merged.defaultValue == kwargs.defaultValue
    ensures kwargs.maxLength.Some? ==> merged.maxLength == kwargs.maxLength
    ensures kwargs.blank.Some? ==> merged.blank == kwargs.blank
    ensures kwargs.decimalPlaces.Some? ==> merged.decimalPlaces == kwargs.decimalPlaces
    ensures kwargs.maxDigits.Some? ==> merged.maxDigits == kwargs.maxDigits
    ensures kwargs.nullable.None? ==> merged.nullable == defaults.nullable
    ensures kwargs.defaultValue.None? ==> merged.defaultValue == defaults.defaultValue
    ensures kwargs.maxLength.None? ==> merged.maxLength == defaults.maxLength
    ensures kwargs.blank.None? ==> merged.blank == defaults.blank
    ensures kwargs.decimalPlaces.None? ==> merged.decimalPlaces == defaults.decimalPlaces
    ensures kwargs.maxDigits.None? ==> merged.maxDigits == defaults.maxDigits
    ensures kwargs == NoColumnArgs ==> merged == defaults
  {
    ColumnArgs(
      Prefer(kwargs.nullable, defaults.nullable),
      Prefer(kwargs.defaultValue, defaults.defaultValue),
      Prefer(kwargs.maxLength, defaults.maxLength),
      Prefer(kwargs.blank, defaults.blank),
      Prefer(kwargs.decimalPlaces, defaults.decimalPlaces),
      Prefer(kwargs.maxDigits, defaults.maxDigits))
  }

  /** The defaults a field class merges under the caller's keyword arguments. */
  function ClassDefaults(kind: Kind): (defaults: ColumnArgs)
    ensures defaults.defaultValue == None
    ensures kind == Currency ==> defaults.decimalPlaces == Some(2) && defaults.maxDigits == Some(7)
    ensures kind == Currency ==> defaults.nullable == None && defaults.maxLength == None && defaults.blank == None
    ensures kind == Id ==> defaults.decimalPlaces == None && defaults.maxDigits == None
    ensures kind == Id ==> defaults.maxLength == Some(50) && defaults.blank == Some(false)
                           && defaults.nullable == Some(false)
    ensures kind != Currency && kind != Id ==> defaults == NoColumnArgs
  {
    match kind
    case Currency => NoColumnArgs.(decimalPlaces := Some(2), maxDigits := Some(7))
    case Id => NoColumnArgs.(maxLength := Some(50), blank := Some(false), nullable := Some(false))
    case _ => NoColumnArgs
  }

  /**
   * What every constructed descriptor satisfies: a field that may be absent from
   * Stripe's data, or is deprecated, is nullable; a deprecated field defaults to
   * None; a (non-null) Boolean field is never deprecated.
   */
  predicate Valid(d: Descriptor) {
    && (!d.stripeRequired || d.deprecated ==> d.column.nullable == Some(true))
    && (d.deprecated ==> d.column.defaultValue == Some(Null))
    && (d.kind == Boolean ==> !d.deprecated)
  }

  /**
   * Declares a field of class `kind` named `name`. A Boolean field declared
   * deprecated is refused; otherwise the class defaults are merged under the
   * caller's arguments and the Stripe options force nullability.
   */
  function Construct(kind: Kind, name: string, kwargs: Kwargs): (r: Result<Descriptor, ConfigError>)
    ensures r.Err? <==> kind == Boolean && kwargs.deprecated == Some(true)
    ensures r.Ok? ==> Valid(r.value)
    ensures r.Ok? ==> && r.value.kind == kind && r.value.name == name
                      && r.value.stripeName == kwargs.stripeName
                      && r.value.nestedName == kwargs.nestedName
                      && r.value.stripeRequired == kwargs.stripeRequired.GetOr(true)
                      && r.value.deprecated == kwargs.deprecated.GetOr(false)
  {
    if kind == Boolean && kwargs.deprecated == Some(true) then
      Err(ImproperlyConfigured("Boolean field cannot be deprecated. Change field type StripeNullBooleanField"))
    else
      var merged := Update(ClassDefaults(kind), kwargs.column);
      var required := kwargs.stripeRequired.GetOr(true);
      var deprecated := kwargs.deprecated.GetOr(false);
      var column := if !required then merged.(nullable := Some(true)) else merged;
      var column := if deprecated then column.(nullable := Some(true), defaultValue := Some(Null)) else column;
      Ok(Descriptor(kind, name, kwargs.stripeName, kwargs.nestedName, required, deprecated, column))
  }

  /**
   * Where the value sits: an explicit dotted stripe name, else the nested name
   * followed by the field name, else the field name as a top-level key.
   */
  function Locate(d: Descriptor, data: JsonObject): (r: Result<Json, LookupError>)
    ensures Truthy(d.stripeName) && r.Err? && r.error.KeyError? ==>
      r.error.key in Split(d.stripeName.value)
    ensures !Truthy(d.stripeName) && Truthy(d.nestedName) && r.Err? && r.error.KeyError? ==>
      r.error.key in Split(d.nestedName.value + "." + d.name)
    ensures !Truthy(d.stripeName) && !Truthy(d.nestedName) ==>
      (r.Ok? <==> d.name in data) && (r.Err? ==> r.error == KeyError(d.name))
  {
    if Truthy(d.stripeName) then NestedGet(data, d.stripeName.value)
    else if Truthy(d.nestedName) then NestedGet(data, d.nestedName.value + "." + d.name)
    else Get(data, d.name)
  }

  /**
   * The shared resolver's result: a deprecated field yields None without a lookup;
   * otherwise the located value, with a missing key raised for a required field
   * and None for an optional one.
   */
  function MixinToDb(d: Descriptor, data: JsonObject): (r: Result<Json, LookupError>)
    ensures d.deprecated ==> r == Ok(Null)
    ensures r.Err? ==> !d.deprecated && r == Locate(d, data)
    ensures r.Err? && r.error.KeyError? ==> d.stripeRequired
  {
    if d.deprecated then Ok(Null)
    else
      var found := Locate(d, data);
      if found.Err? && found.error.KeyError? && !d.stripeRequired then Ok(Null) else found
  }

  /** Stripe amounts are in cents; the column holds dollars. */
  function CentsToDollars(cents: int): (dollars: real)
    ensures dollars * 100.0 == cents as real
  {
    cents as real / 100.0
  }

  /** Back from dollars to cents, for amounts with at most two decimal places. */
  function DollarsToCents(dollars: real): int {
    (dollars * 100.0).Floor
  }

  /**
   * The currency field: the resolved value divided by 100 exactly, None kept as None.
   * Python's bool is an int, so true divides to 0.01; dividing a string, list or
   * mapping raises TypeError.
   */
  function CurrencyToDb(d: Descriptor, data: JsonObject): (r: Result<Option<real>, LookupError>)
    ensures d.deprecated ==> r == Ok(None)
  {
    match MixinToDb(d, data)
    case Err(e) => Err(e)
    case Ok(Null) => Ok(None)
    case Ok(Int(cents)) => Ok(Some(CentsToDollars(cents)))
    case Ok(Bool(b)) => Ok(Some(CentsToDollars(if b then 1 else 0)))
    case Ok(_) => Err(TypeError)
  }

  /**
   * The date-time field: None when deprecated, otherwise the timestamp converter
   * applied to the shared resolver's result (None included).
   */
  function DateTimeToDb<T>(d: Descriptor, data: JsonObject, convertTstamp: Json -> T): (r: Result<Option<T>, LookupError>)
    ensures d.deprecated ==> r == Ok(None)
    ensures r.Err? ==> MixinToDb(d, data).Err?
  {
    if d.deprecated then Ok(None)
    else
      match MixinToDb(d, data)
      case Err(e) => Err(e)
      case Ok(v) => Ok(Some(convertTstamp(v)))
  }

  /**
   * The JSON field: with a stripe name, the shared resolver's value; without one,
   * the whole Stripe object.
   */
  function JsonToDb(d: Descriptor, data: JsonObject): (r: Result<Json, LookupError>)
    ensures !Truthy(d.stripeName) ==> r == Ok(Object(data))
  {
    if Truthy(d.stripeName) then MixinToDb(d, data) else Ok(Object(data))
  }

  /** What `stripe_to_db` hands to the column, by field class. */
  datatype Stored<T> =
    | Plain(json: Json)               // the value as found (None is Plain(Null))
    | Amount(dollars: Option<real>)   // a currency value
    | Moment(instant: Option<T>)      // a converted timestamp
  {
    /** Python's None. */
    predicate IsNone() {
      (Plain? && json == Null) || (Amount? && dollars == None) || (Moment? && instant == None)
    }
  }

  /** `stripe_to_db` of a field, dispatched on its class. */
  function StripeToDb<T>(d: Descriptor, data: JsonObject, convertTstamp: Json -> T): (r: Result<Stored<T>, LookupError>)
    ensures r.Err? ==> !d.deprecated
    ensures r.Err? && d.kind == JsonBlob ==> Truthy(d.stripeName)
  {
    match d.kind
    case Currency =>
      (match CurrencyToDb(d, data)
       case Ok(v) => Ok(Amount(v))
       case Err(e) => Err(e))
    case DateTime =>
      (match DateTimeToDb(d, data, convertTstamp)
       case Ok(v) => Ok(Moment(v))
       case Err(e) => Err(e))
    case JsonBlob =>
      (match JsonToDb(d, data)
       case Ok(v) => Ok(Plain(v))
       case Err(e) => Err(e))
    case _ =>
      (match MixinToDb(d, data)
       case Ok(v) => Ok(Plain(v))
       case Err(e) => Err(e))
  }
}
