/** What the Stripe field descriptors promise, stated over all descriptors and all inputs. */
module FieldProperties {
  import opened Wrappers
  import opened JsonValues
  import opened NestedAccess
  import opened Fields

  // ---------------------------------------------------------------------------
  // Deprecated fields

  /**
   * A deprecated field stores None whatever the Stripe object holds, for every
   * field class except a JSON field without a stripe name, which keeps the
   * whole object.
   */
  lemma DeprecatedResolvesToNone<T>(d: Descriptor, data: JsonObject, convertTstamp: Json -> T)
    requires d.deprecated
    ensures d.kind != JsonBlob || Truthy(d.stripeName) ==>
      StripeToDb(d, data, convertTstamp).Ok? && StripeToDb(d, data, convertTstamp).value.IsNone()
    ensures d.kind == JsonBlob && !Truthy(d.stripeName) ==>
      StripeToDb(d, data, convertTstamp) == Ok(Plain(Object(data)))
  {
  }

  /** A deprecated field performs no lookup: its result does not depend on the data. */
  lemma DeprecatedIgnoresData<T>(d: Descriptor, data: JsonObject, other: JsonObject, convertTstamp: Json -> T)
    requires d.deprecated && (d.kind != JsonBlob || Truthy(d.stripeName))
    ensures StripeToDb(d, data, convertTstamp) == StripeToDb(d, other, convertTstamp)
  {
    DeprecatedResolvesToNone(d, data, convertTstamp);
    DeprecatedResolvesToNone(d, other, convertTstamp);
  }

  // ---------------------------------------------------------------------------
  // Lookup precedence

  /** A stripe name decides the lookup alone: the nested name and the field name play no part. */
  lemma StripeNamePrecedence(d: Descriptor, data: JsonObject, nestedName: Option<string>, name: string)
    requires Truthy(d.stripeName)
    ensures MixinToDb(d, data) == MixinToDb(d.(nestedName := nestedName, name := name), data)
  {
  }

  /**
   * An unset stripe name and an empty one are the same; so are an unset nested
   * name and an empty one.
   */
  lemma FalsyNamesAreUnset(d: Descriptor, data: JsonObject)
    requires !Truthy(d.stripeName)
    ensures MixinToDb(d, data) == MixinToDb(d.(stripeName := None), data)
    ensures !Truthy(d.nestedName) ==> MixinToDb(d, data) == MixinToDb(d.(stripeName := None, nestedName := None), data)
  {
  }

  /** With no stripe name, a nested name is a path prefix: the field name is read inside it. */
  lemma NestedNamePrefix(d: Descriptor, data: JsonObject)
    requires !Truthy(d.stripeName) && Truthy(d.nestedName) && Dot !in d.name
    ensures Locate(d, data) == Continue(NestedGet(data, d.nestedName.value), [d.name])
  {
    NestedGetConcat(data, d.nestedName.value, d.name);
    SplitNoDot(d.name);
  }

  /**
   * nested_name = "data" reads data["data"][name]: a missing "data" or a missing
   * name inside it is a KeyError for that key, a non-mapping "data" is a TypeError.
   */
  lemma NestedNameTwoLevels(d: Descriptor, data: JsonObject, group: string)
    requires !Truthy(d.stripeName) && d.nestedName == Some(group) && group != ""
    requires Dot !in group && Dot !in d.name
    ensures group !in data ==> Locate(d, data) == Err(KeyError(group))
    ensures group in data && !data[group].Object? ==> Locate(d, data) == Err(TypeError)
    ensures group in data && data[group].Object? && d.name !in data[group].fields ==>
      Locate(d, data) == Err(KeyError(d.name))
    ensures group in data && data[group].Object? && d.name in data[group].fields ==>
      Locate(d, data) == Ok(data[group].fields[d.name])
  {
    NestedGetTwoLevels(data, group, d.name);
  }

  /**
   * With neither name, the field name is one top-level key, dots and all
   * (unlike a stripe name, which the dots split into a path).
   */
  lemma PlainNameIsTopLevelKey(d: Descriptor, data: JsonObject)
    requires !Truthy(d.stripeName) && !Truthy(d.nestedName)
    ensures Locate(d, data).Ok? <==> d.name in data
    ensures Locate(d, data).Ok? ==> Locate(d, data).value == data[d.name]
    ensures Locate(d, data).Err? ==> Locate(d, data).error == KeyError(d.name)
  {
  }

  /** A stripe name "a.b" reads data["a"]["b"]. */
  lemma StripeNameTwoLevels(d: Descriptor, data: JsonObject, a: string, b: string)
    requires d.stripeName == Some(a + "." + b) && Dot !in a && Dot !in b
    ensures a !in data ==> Locate(d, data) == Err(KeyError(a))
    ensures a in data && !data[a].Object? ==> Locate(d, data) == Err(TypeError)
    ensures a in data && data[a].Object? && b !in data[a].fields ==> Locate(d, data) == Err(KeyError(b))
    ensures a in data && data[a].Object? && b in data[a].fields ==> Locate(d, data) == Ok(data[a].fields[b])
  {
    NestedGetTwoLevels(data, a, b);
  }

  /** A stripe name without a dot is one top-level key. */
  lemma StripeNamePlainKey(d: Descriptor, data: JsonObject)
    requires Truthy(d.stripeName) && Dot !in d.stripeName.value
    ensures Locate(d, data) == Get(data, d.stripeName.value)
  {
    NestedGetPlainKey(data, d.stripeName.value);
  }

  /** The documented example: stripe_name "data.id" on {"data": {"id": "abc"}} stores "abc". */
  lemma DataIdFieldExample(required: bool)
    ensures MixinToDb(Descriptor(Char, "id", Some("data.id"), None, required, false, NoColumnArgs),
                      map["data" := Object(map["id" := Str("abc")])]) == Ok(Str("abc"))
  {
    DataIdExample();
  }

  // ---------------------------------------------------------------------------
  // Missing keys

  /** A missing key is raised for a required field and becomes None for an optional one. */
  lemma MissingKeyPolicy(d: Descriptor, data: JsonObject, key: string)
    requires !d.deprecated && Locate(d, data) == Err(KeyError(key))
    ensures d.stripeRequired ==> MixinToDb(d, data) == Err(KeyError(key))
    ensures !d.stripeRequired ==> MixinToDb(d, data) == Ok(Null)
  {
  }

  /** A required field raises KeyError exactly when its key is missing. */
  lemma RequiredRaisesIffMissing(d: Descriptor, data: JsonObject)
    requires !d.deprecated && d.stripeRequired
    ensures MixinToDb(d, data) == Locate(d, data)
    ensures (MixinToDb(d, data).Err? && MixinToDb(d, data).error.KeyError?) <==>
            (Locate(d, data).Err? && Locate(d, data).error.KeyError?)
  {
  }

  /** A found value is stored as found, whether or not the field is required. */
  lemma FoundValueStored(d: Descriptor, data: JsonObject)
    requires !d.deprecated && Locate(d, data).Ok?
    ensures MixinToDb(d, data) == Locate(d, data)
  {
  }

  /** A top-level key missing from the data: KeyError if required, None otherwise. */
  lemma MissingTopLevelKey(kind: Kind, name: string, required: bool, data: JsonObject)
    requires name !in data
    ensures var d := Descriptor(kind, name, None, None, required, false, NoColumnArgs);
      MixinToDb(d, data) == if required then Err(KeyError(name)) else Ok(Null)
  {
  }

  // ---------------------------------------------------------------------------
  // Currency

  /** Dollars back to cents recovers the amount: the division by 100 loses nothing. */
  lemma CentsRoundTrip(cents: int)
    ensures DollarsToCents(CentsToDollars(cents)) == cents
  {
  }

  /**
   * The currency field divides a found integer by 100 exactly, keeps None as None,
   * and raises TypeError for a value that cannot be divided; lookup errors pass through.
   */
  lemma CurrencyResolution(d: Descriptor, data: JsonObject)
    ensures MixinToDb(d, data).Ok? && MixinToDb(d, data).value.Int? ==>
      var cents := MixinToDb(d, data).value.i;
      CurrencyToDb(d, data).Ok? && CurrencyToDb(d, data).value.Some?
      && CurrencyToDb(d, data).value.value * 100.0 == cents as real
      && DollarsToCents(CurrencyToDb(d, data).value.value) == cents
    ensures MixinToDb(d, data) == Ok(Null) ==> CurrencyToDb(d, data) == Ok(None)
    ensures MixinToDb(d, data).Ok? && (MixinToDb(d, data).value.Str? || MixinToDb(d, data).value.Array?
                                       || MixinToDb(d, data).value.Object?) ==>
      CurrencyToDb(d, data) == Err(TypeError)
    ensures MixinToDb(d, data).Err? ==> CurrencyToDb(d, data) == Err(MixinToDb(d, data).error)
  {
    if MixinToDb(d, data).Ok? && MixinToDb(d, data).value.Int? {
      CentsRoundTrip(MixinToDb(d, data).value.i);
    }
  }

  /** 1050 cents are stored as exactly 10.50 dollars. */
  lemma CurrencyExample()
    ensures CurrencyToDb(Descriptor(Currency, "amount", None, None, true, false, NoColumnArgs),
                         map["amount" := Int(1050)]) == Ok(Some(10.50))
  {
  }

  // ---------------------------------------------------------------------------
  // Date-time and JSON fields

  /** The date-time field converts whatever the shared resolver found, None included. */
  lemma DateTimeResolution<T>(d: Descriptor, data: JsonObject, convertTstamp: Json -> T)
    requires !d.deprecated
    ensures MixinToDb(d, data).Err? ==> DateTimeToDb(d, data, convertTstamp) == Err(MixinToDb(d, data).error)
    ensures MixinToDb(d, data).Ok? ==>
      DateTimeToDb(d, data, convertTstamp) == Ok(Some(convertTstamp(MixinToDb(d, data).value)))
  {
  }

  /**
   * A JSON field with a stripe name resolves like any field; without one it stores
   * the whole object, even when deprecated or given a nested name.
   */
  lemma JsonFieldResolution(d: Descriptor, data: JsonObject)
    ensures Truthy(d.stripeName) ==> JsonToDb(d, data) == MixinToDb(d, data)
    ensures !Truthy(d.stripeName) ==> JsonToDb(d, data) == Ok(Object(data))
  {
  }

  // ---------------------------------------------------------------------------
  // Construction

  /**
   * The column arguments a field is built with: the caller's arguments over the
   * class defaults, then null=True for an optional or deprecated field and
   * default=None for a deprecated one, whatever the caller passed.
   */
  lemma ConstructColumn(kind: Kind, name: string, kwargs: Kwargs)
    requires Construct(kind, name, kwargs).Ok?
    ensures var d := Construct(kind, name, kwargs).value;
      var caller := kwargs.column;
      var defaults := ClassDefaults(kind);
      && d.column.nullable == (if !d.stripeRequired || d.deprecated then Some(true)
                               else Prefer(caller.nullable, defaults.nullable))
      && d.column.defaultValue == (if d.deprecated then Some(Null) else caller.defaultValue)
      && d.column.maxLength == Prefer(caller.maxLength, defaults.maxLength)
      && d.column.blank == Prefer(caller.blank, defaults.blank)
      && d.column.decimalPlaces == Prefer(caller.decimalPlaces, defaults.decimalPlaces)
      && d.column.maxDigits == Prefer(caller.maxDigits, defaults.maxDigits)
  {
  }

  /** A currency column has two decimal places and seven digits unless the caller says otherwise. */
  lemma CurrencyColumnDefaults(name: string, kwargs: Kwargs)
    ensures Construct(Currency, name, kwargs).Ok?
    ensures Construct(Currency, name, kwargs).value.column.decimalPlaces == Some(kwargs.column.decimalPlaces.GetOr(2))
    ensures Construct(Currency, name, kwargs).value.column.maxDigits == Some(kwargs.column.maxDigits.GetOr(7))
  {
  }

  /**
   * An id field holds 50 characters and is neither blank nor null by default,
   * but declaring it not required makes it nullable even if the caller passed null=False.
   */
  lemma IdColumn(name: string, kwargs: Kwargs)
    ensures Construct(Id, name, kwargs).Ok?
    ensures Construct(Id, name, kwargs).value.column.maxLength == Some(kwargs.column.maxLength.GetOr(50))
    ensures Construct(Id, name, kwargs).value.column.blank == Some(kwargs.column.blank.GetOr(false))
    ensures kwargs.stripeRequired == Some(false) ==> Construct(Id, name, kwargs).value.column.nullable == Some(true)
    ensures kwargs.stripeRequired != Some(false) && kwargs.deprecated != Some(true) ==>
      Construct(Id, name, kwargs).value.column.nullable == Some(kwargs.column.nullable.GetOr(false))
  {
  }

  /**
   * Only a Boolean field declared deprecated is refused; every other declaration,
   * a deprecated NullBoolean field included, is accepted.
   */
  lemma BooleanCannotBeDeprecated(kind: Kind, name: string, kwargs: Kwargs)
    ensures kind == Boolean && kwargs.deprecated == Some(true) ==>
      Construct(kind, name, kwargs).Err? && Construct(kind, name, kwargs).error.ImproperlyConfigured?
    ensures kind != Boolean || kwargs.deprecated != Some(true) ==> Construct(kind, name, kwargs).Ok?
    ensures Construct(NullBoolean, name, kwargs).Ok?
  {
  }

  /** The keyword arguments a constructed descriptor stands for. */
  function KwargsOf(d: Descriptor): Kwargs {
    Kwargs(d.stripeName, d.nestedName, Some(d.stripeRequired), Some(d.deprecated), d.column)
  }

  /** Constructing again from a constructed field's own settings gives the same field. */
  lemma ConstructIdempotent(kind: Kind, name: string, kwargs: Kwargs)
    requires Construct(kind, name, kwargs).Ok?
    ensures Construct(kind, name, KwargsOf(Construct(kind, name, kwargs).value)) == Construct(kind, name, kwargs)
  {
  }
}
