# dj-stripe Stripe field descriptors, in Dafny

This project models the field descriptors of dj-stripe's `djstripe/fields.py`.
Each descriptor belongs to one database column of a Stripe model. It picks out of
one Stripe API object (decoded JSON: a nested mapping) the value to store in that
column. The model covers two things:

- **Construction.** `Fields.Construct` stands for the `__init__` methods. It applies
  the class defaults (currency precision, id length). Then it applies the Stripe
  options that force `null=True` and `default=None`. It refuses a deprecated
  non-null Boolean field with `ImproperlyConfigured`.
- **Resolution.** `stripe_to_db` is one pure function per field class, plus a dispatch
  on the class, `Fields.StripeToDb`:
  - A deprecated field yields None without a lookup.
  - Otherwise the lookup path is chosen in a fixed order: a non-empty `stripe_name`
    read as a dotted path, then `nested_name + "." + name`, then the top-level key
    `name`.
  - A missing key is raised for a required field and becomes None for an optional one.
  - The currency field divides cents by 100 exactly.
  - The date-time field applies the timestamp converter.
  - The JSON field stores the whole object when it has no stripe name.

Modules:

- `Wrappers` (wrappers.dfy): `Option` and `Result`.
- `JsonValues` (json.dfy): the `Json` datatype. `Null` stands for Python's `None`.
- `NestedAccess` (nested_access.dfy): `obj[key]` and the dotted-path accessor
  `NestedGet`. The accessor splits a path on `.` as Python's `str.split` does and
  walks one mapping level per segment. Both raise `KeyError(key)` for a missing
  key, and `TypeError` when a key is looked up in a value that is not a mapping.
  The currency field raises the same `TypeError` when the value it divides is not
  a number.
- `Fields` (fields.dfy): the descriptors, their construction and their resolution.
- `FieldProperties` (field_properties.dfy): the properties, as lemmas over all
  descriptors and all inputs.

The code catches only `KeyError` (fields.py:64). So `TypeError` always propagates,
even for optional fields. `ImproperlyConfigured` is a separate error type, because
only construction raises it.

Three behaviours of the code are worth stating on their own:

- An id field declared `stripe_required=False` is nullable. The forcing at
  fields.py:47-48 runs after the id defaults at fields.py:111-118, so it overrides
  their `null=False`. `FieldProperties.IdColumn` states this.
- A JSON field without a stripe name never reads `deprecated`. It stores the whole
  object (fields.py:140-146). `FieldProperties.DeprecatedResolvesToNone` states
  this exception.
- A missing key on a required field re-raises Python's `KeyError`
  (fields.py:64-66). It is modelled as `KeyError(key)`.

## Model

| member | source | states |
|---|---|---|
| `NestedAccess.Split` | djstripe/fields.py:21-23 | splitting a path on dots always gives at least one segment |
| `NestedAccess.SplitSegmentsDotFree` | djstripe/fields.py:21-23 | no segment of a split path contains a dot |
| `NestedAccess.JoinSplit` | djstripe/fields.py:21-23 | rejoining the segments with dots gives back the original path |
| `NestedAccess.SplitJoin` | djstripe/fields.py:21-23 | splitting dot-free segments joined with dots gives back those segments |
| `NestedAccess.SplitDotConcat` | djstripe/fields.py:61 | the path `p + "." + q` splits into the segments of `p` followed by those of `q` |
| `NestedAccess.Get` | djstripe/fields.py:63 | `obj[key]` succeeds exactly when the key is present, yields its value, and otherwise raises KeyError for that key |
| `NestedAccess.Walk` | djstripe/fields.py:22-23 | a KeyError always names one of the walked keys; a missing first key raises KeyError for it |
| `NestedAccess.WalkConcat` | djstripe/fields.py:22-23 | walking `p + q` is walking `p` and then `q` from the mapping it reached (a non-mapping is a TypeError, errors propagate) |
| `NestedAccess.NestedGetConcat` | djstripe/fields.py:61 | resolving `p + "." + q` resolves `p`, then the segments of `q` inside the result |
| `NestedAccess.NestedGetPlainKey` | djstripe/fields.py:59 | a dotted path without a dot reads one top-level key |
| `NestedAccess.NestedGetTwoLevels` | djstripe/fields.py:22-23 | `"a.b"` reads `obj["a"]["b"]`: KeyError for a missing `a` or `b`, TypeError for a non-mapping `obj["a"]` |
| `NestedAccess.NestedGet` | djstripe/fields.py:59-61 | the dotted-path accessor: a KeyError always names a segment of the path; NestedGetConcat, NestedGetPlainKey and NestedGetTwoLevels fix its value |
| `NestedAccess.DataIdExample` | djstripe/fields.py:23 | `"data.id"` on `{"data": {"id": "abc"}}` yields `"abc"` |
| `Fields.Truthy` | djstripe/fields.py:58-60 | an unset name and the empty string are both falsy, and every non-empty name is truthy; FalsyNamesAreUnset states the consequence for lookup |
| `Fields.Update` | djstripe/fields.py:82 | `defaults.update(kwargs)`: every argument the caller passed replaces the default, and an argument not passed keeps the default |
| `Fields.ClassDefaults` | djstripe/fields.py:78-116 | the currency class sets exactly decimal_places 2 and max_digits 7, the id class exactly max_length 50, blank False and null False, the others nothing, and none sets a default |
| `Fields.Construct` | djstripe/fields.py:42-53 | fails exactly for a Boolean field declared deprecated; otherwise it copies the Stripe options (stripe_required defaults to true and deprecated to false) and always gives a `Valid` descriptor: optional or deprecated means nullable, and deprecated means default None |
| `Fields.Locate` | djstripe/fields.py:58-63 | the lookup precedence: a KeyError names a segment of the stripe name when that is truthy, else of `nested_name + "." + name` when the nested name is truthy; with neither, the lookup succeeds exactly when `name` is a top-level key; StripeNamePrecedence, NestedNamePrefix and PlainNameIsTopLevelKey state the order |
| `Fields.MixinToDb` | djstripe/fields.py:55-70 | deprecated yields None; every error is the lookup's own error on a non-deprecated field; a KeyError escapes only from a required field |
| `Fields.CentsToDollars` | djstripe/fields.py:88 | the dollar amount times 100 is exactly the cents, so nothing is rounded |
| `Fields.CurrencyToDb` | djstripe/fields.py:85-88 | a deprecated currency field yields None |
| `Fields.DateTimeToDb` | djstripe/fields.py:126-128 | a deprecated date-time field yields None; it raises a lookup error only where the shared resolver does |
| `Fields.JsonToDb` | djstripe/fields.py:140-146 | without a truthy stripe name the JSON field stores the whole object unchanged |
| `Fields.StripeToDb` | djstripe/fields.py:55-146 | only a field that performs a lookup can fail: a deprecated field never fails, and a JSON field fails only when it has a stripe name |
| `FieldProperties.DeprecatedResolvesToNone` | djstripe/fields.py:55-70 | a deprecated field of every class stores None, except a JSON field without a stripe name, which stores the whole object |
| `FieldProperties.DeprecatedIgnoresData` | djstripe/fields.py:56 | a deprecated field's result is the same for every Stripe object, so no lookup takes place |
| `FieldProperties.StripeNamePrecedence` | djstripe/fields.py:58-59 | with a truthy stripe name, neither the nested name nor the field name changes the result |
| `FieldProperties.FalsyNamesAreUnset` | djstripe/fields.py:58-60 | an empty stripe name or nested name behaves exactly like an unset one |
| `FieldProperties.NestedNamePrefix` | djstripe/fields.py:60-61 | with no stripe name, a nested name is a path prefix and the field name is read as one key inside it |
| `FieldProperties.NestedNameTwoLevels` | djstripe/fields.py:26-28 | nested name `"data"` reads `obj["data"][name]`, with KeyError for the missing key and TypeError for a non-mapping |
| `FieldProperties.PlainNameIsTopLevelKey` | djstripe/fields.py:62-63 | with neither name, the lookup succeeds exactly when the field name is a top-level key, and yields that key's value |
| `FieldProperties.StripeNameTwoLevels` | djstripe/fields.py:21-23 | stripe name `"a.b"` reads `obj["a"]["b"]`, with the same error cases |
| `FieldProperties.StripeNamePlainKey` | djstripe/fields.py:58-59 | a stripe name without a dot is one top-level key |
| `FieldProperties.DataIdFieldExample` | djstripe/fields.py:23 | a field with stripe name `"data.id"` stores `"abc"` from `{"data": {"id": "abc"}}` |
| `FieldProperties.MissingKeyPolicy` | djstripe/fields.py:64-68 | a missing key is raised for a required field and becomes None for an optional one |
| `FieldProperties.RequiredRaisesIffMissing` | djstripe/fields.py:64-66 | a required field raises KeyError exactly when its key is missing |
| `FieldProperties.FoundValueStored` | djstripe/fields.py:57-70 | a value that is found is returned unchanged, required or not |
| `FieldProperties.MissingTopLevelKey` | djstripe/fields.py:63-68 | a missing top-level key gives KeyError for a required field and None for an optional one |
| `FieldProperties.CentsRoundTrip` | djstripe/fields.py:88 | converting dollars back to cents recovers every amount |
| `FieldProperties.CurrencyResolution` | djstripe/fields.py:85-88 | an integer is divided by 100 exactly and round-trips; None stays None; a string, list or mapping is a TypeError; lookup errors pass through |
| `FieldProperties.CurrencyExample` | djstripe/fields.py:75-88 | 1050 cents are stored as exactly 10.50 |
| `FieldProperties.DateTimeResolution` | djstripe/fields.py:126-128 | a non-deprecated date-time field applies the converter to the shared resolver's result, None included, and passes its errors through |
| `FieldProperties.JsonFieldResolution` | djstripe/fields.py:140-146 | with a stripe name, the JSON field resolves like the shared resolver; without one, it stores the whole object |
| `FieldProperties.ConstructColumn` | djstripe/fields.py:47-52 | the column gets the caller's arguments over the class defaults; optional or deprecated forces null=True and deprecated forces default=None, whatever the caller passed |
| `FieldProperties.CurrencyColumnDefaults` | djstripe/fields.py:77-83 | a currency column has decimal_places 2 and max_digits 7 unless the caller overrides them |
| `FieldProperties.IdColumn` | djstripe/fields.py:111-118 | an id column has max_length 50 and blank False by default; null is False by default, but True whenever the field is not required |
| `FieldProperties.BooleanCannotBeDeprecated` | djstripe/fields.py:92-96 | construction fails with ImproperlyConfigured exactly for a Boolean field declared deprecated; a deprecated NullBoolean field is accepted |
| `FieldProperties.ConstructIdempotent` | djstripe/fields.py:42-53 | constructing again from a constructed field's own settings gives the same field |

## Left out

- The ORM base classes (DecimalField, BooleanField, CharField, TextField, DateTimeField, IntegerField, PositiveIntegerField, NullBooleanField and jsonfield's JSONField) are left out. This covers column generation, validation of `max_digits` and `decimal_places` on save, persistence and admin. Only the column arguments the field classes themselves set are kept, as `Fields.ColumnArgs`.
- How the ORM assigns a field's `name` is left out. The name is a given attribute of the descriptor.
- Fields.DateTimeToDb: exceptions raised by `convert_tstamp` (for example on a string timestamp) are not modelled; the converter is total, and a caller may encode its failures in `T`.
- `convert_tstamp` (in djstripe/utils) is not part of this model. It is a parameter `convertTstamp: Json -> T` of `Fields.DateTimeToDb`, and its result is not specified. This includes what it does with None.
- `dict_nested_accessor` (in djstripe/utils) is not part of this model. `NestedAccess.NestedGet` follows its documented behaviour: one mapping level per dot-separated segment. A key looked up in a value that is not a mapping is modelled only as Python's uncaught `TypeError`. Nothing more about that case is claimed.
- Fields.CentsToDollars: the division is exact for every integer. Python's `decimal` context rounds results beyond 28 significant digits, so the source is exact for amounts below 10^28 cents; amounts with more than 28 significant digits are rounded.
- Fields.CurrencyToDb: `Decimal` division yields `10.5`, not `10.50`, for 1050 cents. The model keeps the value as an exact rational and does not track the decimal exponent.
- JSON floating-point numbers are left out. `Json` numbers are integers.
- Non-boolean values for `stripe_required` and `deprecated` (Python truthiness of other types) are left out. Non-string values for `stripe_name` and `nested_name` are left out too.
- A column argument passed explicitly as `None` (for example `decimal_places=None`) is left out. `Fields.ColumnArgs` treats "not passed" and "passed" as the only cases. `default=None` is represented as `Some(Null)`.
- Positional constructor arguments (`*args`), handed through to the ORM unchanged, are left out.
