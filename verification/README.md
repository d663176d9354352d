# django-nap field accessors and declarative settings, in Dafny

This project models two small pieces of django-nap.

- **Field accessors** (`nap/mapper/fields.py`). A mapper wraps a domain object. Each field is a descriptor that reads or writes one attribute of that object. The model treats the wrapped object as a finite map from attribute name to value (`Values.Obj`). Django's `NOT_PROVIDED` becomes the sentinel constructor `Values.NotProvided`. A read on the class rather than on an instance is a read with no instance (`None`). Such a read yields `Descriptor(f)`, the descriptor itself. A read on an instance yields `Read(v)`.
  - The base `field` and `context_field` carry user-supplied getters and setters. These stay abstract function values. A setter is modelled as a function that returns the updated object.
  - `Field` reads attribute `name` and falls back to its `default`. It writes attribute `name`. It rejects `readonly=True` together with `required=True` by returning `Err(ValueError(...))`.
  - `DigField` is a `Field` whose `readonly` defaults to true.
- **Declarative settings** (`nap/meta.py`). The metaclass splits a class body by name. Names starting with `_` stay on the class. Every other name moves into the class's own `_defaults` (`Meta.NewClass`, and `Meta.Collect` for the loop as written). An instance of the generic `Meta` container overlays an override object onto those defaults (`Meta.Overlay`, and `Meta.Init` for the loop as written).

The source's dict comprehension and `for` loop are modelled as `while` loops that visit every key once, in an unspecified order. Each loop is proved to compute the matching pure map function, so the result does not depend on the order in which keys are visited.

Only `Field.__init__` (nap/mapper/fields.py:67-68), and so `DigField`, rejects readonly together with required. The base `field` and `context_field` accept both flags set (`Fields.BaseFieldDefaults`). The docstring of `context_field` (nap/mapper/fields.py:37) speaks of access to the Mapper itself. The code instead passes the field and the wrapped object `instance._obj` to the getter and setter, never the mapper instance, and the model follows the code.

## Model

| member | source | states |
|---|---|---|
| Fields.ResolveOptions | nap/mapper/fields.py:20-22 | A `required`, `default` or `readonly` keyword that was passed is stored as given. A missing one takes not-required, `NOT_PROVIDED` and not-readonly. |
| Fields.NewBaseField | nap/mapper/fields.py:19-23 | `field` stores its getter and setter unchanged and resolves its options from the keywords. No combination of flags is rejected. |
| Fields.BaseFieldGet | nap/mapper/fields.py:25-28 | A class-level read returns the descriptor itself. An instance read returns the getter applied to the wrapped object. |
| Fields.BaseFieldSet | nap/mapper/fields.py:30-33 | With no setter the wrapped object is unchanged. Otherwise the object is what the setter makes of it. |
| Fields.NewContextField | nap/mapper/fields.py:38-40 | `context_field` resolves its options from the keywords exactly as `field` does. Its context is the keyword arguments as passed, still including `required`, `default` and `readonly`. |
| Fields.ContextFieldGet | nap/mapper/fields.py:42-45 | A class-level read returns the descriptor. An instance read passes the field's options and context, and the wrapped object, to the getter. |
| Fields.ContextFieldSet | nap/mapper/fields.py:47-50 | With no setter the write is a no-op. Otherwise the setter receives the field's options and context, the object and the value. |
| Fields.NewField | nap/mapper/fields.py:64-70 | Construction fails with the ValueError message exactly when the resolved `readonly` and `required` are both true (defaults false and true). Every success is the field with the passed name, and with the passed or default `default`, `required` and `readonly`; it never has both flags set. |
| Fields.FieldGet | nap/mapper/fields.py:72-76 | A class-level read returns the descriptor. An instance read returns the object's attribute `name` when present and the field's default when absent. |
| Fields.FieldSet | nap/mapper/fields.py:78-79 | A write binds attribute `name` to the value. It keeps every other attribute, adds no other key, and does not look at `readonly`. |
| Fields.NewDigField | nap/mapper/fields.py:86-88 | `DigField` fails exactly when the resolved `required` is true and `readonly` was not passed as false. A successful `DigField` is readonly unless `readonly=False` was passed. It stores the passed name, and the passed or default `default` and `required`, exactly as `Field` would. |
| Fields.DigFieldGet | nap/mapper/fields.py:90-93 | A class-level read returns the descriptor. An instance read delegates to the dotted-path resolver with the field's name and default. |
| Fields.FieldDefaults | nap/mapper/fields.py:64 | `Field(name)` has `default=NOT_PROVIDED`, `required=True` and `readonly=False`. |
| Fields.FieldStoresArguments | nap/mapper/fields.py:64-70 | Every explicit combination other than readonly+required succeeds, and it stores name, default and both flags unchanged. |
| Fields.BaseFieldDefaults | nap/mapper/fields.py:20-22 | `field` defaults to not required, `NOT_PROVIDED` and not readonly. It also accepts readonly+required. |
| Fields.GetAfterSet | nap/mapper/fields.py:72-79 | Reading a field right after writing it returns the written value. |
| Fields.SetLeavesOtherFields | nap/mapper/fields.py:72-79 | A write through one field does not change what a differently named field reads. |
| Fields.SetSet | nap/mapper/fields.py:78-79 | A second write through the same field overrides the first. |
| Fields.SetWhatWasRead | nap/mapper/fields.py:72-79 | Writing back what was read is a no-op when the attribute exists. Otherwise the write adds the default as a real attribute. |
| Fields.DigFieldNameOnlyFails | nap/mapper/fields.py:64-88 | `DigField(name)` with nothing else raises the readonly-and-required ValueError. |
| Fields.DigFieldExplicitReadonly | nap/mapper/fields.py:86-88 | When `readonly` is passed explicitly, `DigField` constructs exactly what `Field` does. |
| Fields.DigFieldWriteIgnoresReadonly | nap/mapper/fields.py:78-88 | A `DigField` with the default `readonly=True` (and `required=False`) is readonly. A write through it still binds the literal attribute `name`. Its read goes through the dotted-path resolver, which need not return that value. |
| Fields.FieldDocstringExample | nap/mapper/fields.py:59-76 | The docstring's `Field('bar', default=1)` is required and writable. It reads 1 from an object with no attribute `bar`. |
| Fields.BaseGetAfterSet | nap/mapper/fields.py:19-33 | For a `field` whose getter reads back what its setter stores, a read right after a write returns the written value. Without a setter the write is dropped and the read sees the unchanged object. |
| Fields.ContextGetAfterSet | nap/mapper/fields.py:38-50 | The same get-after-set law for `context_field`, whose getter and setter also receive the field's options and context. |
| Meta.NewClass | nap/meta.py:9-17 | The kept body and `_defaults` are disjoint and together equal the class body. Kept names all start with `_`, and default names never do. |
| Meta.Collect | nap/meta.py:9-17 | The pop-in-a-loop collection keeps exactly the underscore names. It moves exactly the other names into `_defaults` with their body values, and it equals the pure partition. |
| Meta.DefaultsArePublicBody | nap/meta.py:10-16 | A name is in `_defaults` if and only if it is in the class body and does not start with `_`. Its value there is the body's value. |
| Meta.DefaultsIgnoreBases | nap/meta.py:9-17 | `_defaults` is the same whatever the bases are. A name that only a base's defaults hold is absent from the subclass's `_defaults`. |
| Meta.PrivateBodyHasNoDefaults | nap/meta.py:10-20 | A body of underscore names only, such as the `Meta` container's own body, gives empty `_defaults` and keeps the whole body. |
| Meta.Overlay | nap/meta.py:23-26 | The instance has exactly the keys of `_defaults`. Each takes the override object's value when that object has the attribute, and the default otherwise. |
| Meta.Init | nap/meta.py:23-26 | The loop that calls `setattr` once per default, starting from an empty instance, yields exactly the overlay. |
| Meta.NoOverridesGivesDefaults | nap/meta.py:25-26 | An override object that has none of the default names yields exactly the defaults. |
| Meta.ExtraOverridesIgnored | nap/meta.py:25-26 | Attributes of the override object outside `_defaults` have no effect. |
| Meta.OverlayIdempotent | nap/meta.py:26 | Using the result as the override object again reproduces the result. |
| Meta.AgreeingOverridesReproduce | nap/meta.py:26 | Any override object that agrees with the result on every default name reproduces the result. |

## Left out

- `digattr` (nap/mapper/fields.py:6, 93): its dotted-path resolution lives in `nap.utils`, which is not part of this model. `Fields.DigFieldGet` takes the resolver as a function parameter.
- `MapperField` (nap/mapper/fields.py:96-115): it depends on the `Mapper` class's `<<` operator and `_update` method, which are not part of this model.
- `field.__new__` returning a `functools.partial` whenever no positional argument is given (nap/mapper/fields.py:11-17): this is decorator plumbing. The model builds fields from a getter that is already supplied.
- Fields.NewField: `FieldArgs` stands for a call that passes `name` positionally. A call with only keyword arguments, such as `Field(name='x', readonly=True, required=True)` or `DigField(name='x')`, gets a `functools.partial` back from `field.__new__`. `Field.__init__` never runs for it, so no ValueError is raised. The model does not represent that path.
- Fields.NewBaseField: `field.__init__` passes every keyword it does not pop on to `property.__init__`, which raises TypeError for anything other than `fget`, `fset`, `fdel` and `doc`. `Kwargs` holds only the three popped keywords, so neither that error path nor the property keywords are modelled.
- Fields.NewContextField: for the same reason, `context` can never carry any extra context in the source; only the three flags and the property keywords get through. A setter passed by keyword, as in `context_field(g, fset=s)`, gives a context holding `fset` in the source. The model passes getter and setter separately and gives `Kwargs(None, None, None)` for that call.
- Fields.ContextFieldGet: the source passes the field itself to the getter. The model passes its options and context only, without its own getter and setter, because a datatype cannot take itself as an argument of one of its function fields.
- Fields.ContextFieldSet: the setter likewise receives the field's options and context rather than the whole field.
- Property mechanics are not modelled: `fdel`, `doc`, `getter`/`setter` chaining, and the `fget`/`fset` slots that `Field` leaves unset because it never calls `property.__init__`.
- `six.with_metaclass`, and Python's attribute lookup through the MRO. The override object passed to `Meta` is modelled by its already-resolved attribute map. Reading a `Meta` instance attribute that falls back to the class is not modelled.
- Truthiness: `required` and `readonly` are modelled as booleans. The source tests arbitrary Python values with `and`.
- Fields.NewDigField: passing `readonly` positionally to `DigField` raises a TypeError, because of a duplicate argument after `setdefault`. The model passes `Field`'s parameters by keyword only, so this error path is not modelled.
- Fields.NewField: the source assigns `name` and `default` before raising. That is unobservable because the half-built instance is discarded, so the model returns only the error.
- Fields.BaseFieldSet: the user's setter mutates the wrapped object in place. The model represents it as a function from the old object and the value to the new object, with no side effects elsewhere.
- Django's `ValidationError` import is unused. The ORM's attribute semantics are out of scope; only `NOT_PROVIDED` is kept, as a sentinel.
