/**
 Field accessors of a mapper (nap/mapper/fields.py). A mapper instance wraps
 a domain object; each field knows how to read and write one attribute of
 that object. The wrapped object is an attribute map (`Values.Obj`), and a
 read on the class instead of an instance is an absent instance (`None`).
 */
module Fields {
  import opened Values

  /** The message of the ValueError raised by `Field` for readonly+required. */
  const BothFlagsMessage: string := "Field can not be both readonly and required."

  /** The metadata every field carries. */
  datatype Options<T> = Options(required: bool, default: Value<T>, readonly: bool)

  /** The keyword arguments `field` and `context_field` recognise; `None`
      means the keyword was not passed. */
  datatype Kwargs<T> = Kwargs(required: Option<bool>, default: Option<Value<T>>, readonly: Option<bool>)

  /** How `field.__init__` pops its keywords: a keyword that was passed is
      stored as given; a missing one leaves the field not required, not
      readonly, and with the sentinel as its default. */
  function ResolveOptions<T>(kwargs: Kwargs<T>): (o: Options<T>)
    ensures kwargs.required.Some? ==> o.required == kwargs.required.value
    ensures kwargs.required.None? ==> !o.required
    ensures kwargs.default.Some? ==> o.default == kwargs.default.value
    ensures kwargs.default.None? ==> o.default == NotProvided
    ensures kwargs.readonly.Some? ==> o.readonly == kwargs.readonly.value
    ensures kwargs.readonly.None? ==> !o.readonly
  {
    Options(kwargs.required.GetOr(false), kwargs.default.GetOr(NotProvided), kwargs.readonly.GetOr(false))
  }

  // ---------------------------------------------------------------------
  // The base `field`: a property whose getter and optional setter are
  // user-supplied functions of the wrapped object.
  // ---------------------------------------------------------------------

  /** The setter receives the wrapped object and the new value; its effect on
      the object is whatever the user's function does, so it is modelled as a
      function returning the updated object. */
  type Setter<!T> = (Obj<T>, Value<T>) -> Obj<T>

  datatype BaseField<!T> = BaseField(fget: Obj<T> -> Value<T>, fset: Option<Setter<T>>, options: Options<T>)

  /** `field(fget, fset, **kwargs)`: the flags default to not required and not
      readonly, the default to the sentinel. No combination is rejected. */
  function NewBaseField<T>(fget: Obj<T> -> Value<T>, fset: Option<Setter<T>>, kwargs: Kwargs<T>): (f: BaseField<T>)
    ensures f.fget == fget && f.fset == fset
    ensures f.options == ResolveOptions(kwargs)
  {
    BaseField(fget, fset, ResolveOptions(kwargs))
  }

  /** `field.__get__`: the descriptor itself on the class, otherwise the
      getter applied to the wrapped object. */
  function BaseFieldGet<T>(f: BaseField<T>, instance: Option<Obj<T>>): (r: Access<BaseField<T>, Value<T>>)
    ensures instance.None? ==> r == Descriptor(f)
    ensures instance.Some? ==> r == Read(f.fget(instance.value))
  {
    match instance
    case None => Descriptor(f)
    case Some(obj) => Read(f.fget(obj))
  }

  /** `field.__set__`: without a setter the write is silently dropped. */
  function BaseFieldSet<T>(f: BaseField<T>, obj: Obj<T>, v: Value<T>): (r: Obj<T>)
    ensures f.fset.None? ==> r == obj
    ensures f.fset.Some? ==> r == f.fset.value(obj, v)
  {
    match f.fset
    case None => obj
    case Some(setter) => setter(obj, v)
  }

  // ---------------------------------------------------------------------
  // `context_field`: like `field`, but the getter and setter also receive
  // the field itself, and the field keeps its keyword arguments as context.
  // ---------------------------------------------------------------------

  /** What a context getter or setter can see of the field it belongs to:
      its options and its context, but not its own getter and setter (a
      datatype cannot take itself as an argument of one of its functions). */
  datatype FieldView<T> = FieldView(options: Options<T>, context: Kwargs<T>)

  type ContextSetter<!T> = (FieldView<T>, Obj<T>, Value<T>) -> Obj<T>

  datatype ContextField<!T> = ContextField(
    fget: (FieldView<T>, Obj<T>) -> Value<T>,
    fset: Option<ContextSetter<T>>,
    options: Options<T>,
    context: Kwargs<T>)
  {
    function View(): FieldView<T> {
      FieldView(options, context)
    }
  }

  /** `context_field(fget, fset, **kwargs)`: the options resolve exactly as for
      `field`, and the context is the keyword arguments as passed, still
      holding `required`, `default` and `readonly` (the base constructor pops
      them from its own copy). */
  function NewContextField<T>(fget: (FieldView<T>, Obj<T>) -> Value<T>, fset: Option<ContextSetter<T>>, kwargs: Kwargs<T>)
    : (f: ContextField<T>)
    ensures f.fget == fget && f.fset == fset
    ensures f.context == kwargs
    ensures f.options == ResolveOptions(kwargs)
  {
    ContextField(fget, fset, ResolveOptions(kwargs), kwargs)
  }

  /** `context_field.__get__`: the descriptor on the class, otherwise the
      getter applied to the field's view and the wrapped object (not the
      mapper instance). */
  function ContextFieldGet<T>(f: ContextField<T>, instance: Option<Obj<T>>): (r: Access<ContextField<T>, Value<T>>)
    ensures instance.None? ==> r == Descriptor(f)
    ensures instance.Some? ==> r == Read(f.fget(f.View(), instance.value))
  {
    match instance
    case None => Descriptor(f)
    case Some(obj) => Read(f.fget(f.View(), obj))
  }

  /** `context_field.__set__`: without a setter the write is dropped. */
  function ContextFieldSet<T>(f: ContextField<T>, obj: Obj<T>, v: Value<T>): (r: Obj<T>)
    ensures f.fset.None? ==> r == obj
    ensures f.fset.Some? ==> r == f.fset.value(f.View(), obj, v)
  {
    match f.fset
    case None => obj
    case Some(setter) => setter(f.View(), obj, v)
  }

  // ---------------------------------------------------------------------
  // `Field`: a named attribute of the wrapped object with a default.
  // ---------------------------------------------------------------------

  datatype Field<T> = Field(name: string, default: Value<T>, required: bool, readonly: bool)

  /** The arguments of `Field(name, default=..., required=..., readonly=...)`;
      `None` means the parameter was left at its default. */
  datatype FieldArgs<T> = FieldArgs(name: string, default: Option<Value<T>>, required: Option<bool>, readonly: Option<bool>)

  /** The one invariant of a field: it is never both readonly and required. */
  predicate Valid<T>(f: Field<T>) {
    !(f.readonly && f.required)
  }

  /** `Field.__init__`: `required` defaults to true, `readonly` to false and
      `default` to the sentinel; readonly together with required raises. */
  function NewField<T>(args: FieldArgs<T>): (r: Result<Field<T>>)
    ensures r.Err? <==> args.readonly.GetOr(false) && args.required.GetOr(true)
    ensures r.Err? ==> r.error == ValueError(BothFlagsMessage)
    ensures r.Ok? ==> Valid(r.value)
    ensures r.Ok? ==> r.value == Field(args.name, args.default.GetOr(NotProvided), args.required.GetOr(true), args.readonly.GetOr(false))
  {
    var required := args.required.GetOr(true);
    var readonly := args.readonly.GetOr(false);
    if readonly && required then
      Err(ValueError(BothFlagsMessage))
    else
      Ok(Field(args.name, args.default.GetOr(NotProvided), required, readonly))
  }

  /** `Field.__get__`: the descriptor on the class; on an instance, the
      wrapped object's attribute `name`, or the field's default if the object
      has no such attribute. */
  function FieldGet<T>(f: Field<T>, instance: Option<Obj<T>>): (r: Access<Field<T>, Value<T>>)
    ensures instance.None? ==> r == Descriptor(f)
    ensures instance.Some? && f.name in instance.value ==> r == Read(instance.value[f.name])
    ensures instance.Some? && f.name !in instance.value ==> r == Read(f.default)
  {
    match instance
    case None => Descriptor(f)
    case Some(obj) => Read(GetAttr(obj, f.name, f.default))
  }

  /** `Field.__set__`: binds attribute `name` of the wrapped object, whatever
      the `readonly` flag says. */
  function FieldSet<T>(f: Field<T>, obj: Obj<T>, v: Value<T>): (r: Obj<T>)
    ensures r.Keys == obj.Keys + {f.name}
    ensures r[f.name] == v
    ensures forall k :: k in obj && k != f.name ==> r[k] == obj[k]
  {
    SetAttr(obj, f.name, v)
  }

  // ---------------------------------------------------------------------
  // `DigField`: a `Field` whose `readonly` defaults to true and whose read
  // resolves a dotted path.
  // ---------------------------------------------------------------------

  /** `DigField.__init__`: fills in `readonly=True` unless the caller passed
      `readonly`, then runs `Field.__init__`. With `required` still at its
      default of true this fails unless `readonly=False` is passed. */
  function NewDigField<T>(args: FieldArgs<T>): (r: Result<Field<T>>)
    ensures r.Err? <==> args.required.GetOr(true) && args.readonly != Some(false)
    ensures r.Err? ==> r.error == ValueError(BothFlagsMessage)
    ensures r.Ok? ==> Valid(r.value)
    ensures r.Ok? ==> r.value.readonly == (args.readonly != Some(false))
    ensures r.Ok? ==> r.value == Field(args.name, args.default.GetOr(NotProvided), args.required.GetOr(true), args.readonly.GetOr(true))
  {
    NewField(args.(readonly := Some(args.readonly.GetOr(true))))
  }

  /** A dotted-path resolver `digattr(obj, path, default)`. Its behaviour
      lives outside this model, so a read takes it as a parameter. */
  type DigAttr<!T> = (Obj<T>, string, Value<T>) -> Value<T>

  /** `DigField.__get__`: the descriptor on the class; on an instance, the
      resolver applied to the wrapped object, the field's name as the path,
      and the field's default. */
  function DigFieldGet<T>(f: Field<T>, instance: Option<Obj<T>>, digattr: DigAttr<T>): (r: Access<Field<T>, Value<T>>)
    ensures instance.None? ==> r == Descriptor(f)
    ensures instance.Some? ==> r == Read(digattr(instance.value, f.name, f.default))
  {
    match instance
    case None => Descriptor(f)
    case Some(obj) => Read(digattr(obj, f.name, f.default))
  }

  // ---------------------------------------------------------------------
  // Laws relating construction, reads and writes.
  // ---------------------------------------------------------------------

  /** `Field(name)` takes the documented defaults. */
  lemma FieldDefaults<T>(name: string)
    ensures NewField<T>(FieldArgs(name, None, None, None)) == Ok(Field(name, NotProvided, true, false))
  {
  }

  /** Every accepted combination is stored unchanged. */
  lemma FieldStoresArguments<T>(name: string, default: Value<T>, required: bool, readonly: bool)
    requires !(readonly && required)
    ensures NewField(FieldArgs(name, Some(default), Some(required), Some(readonly)))
            == Ok(Field(name, default, required, readonly))
  {
  }

  /** The base `field` has different defaults from `Field`, and it accepts the
      readonly+required combination that `Field` rejects. */
  lemma BaseFieldDefaults<T>(fget: Obj<T> -> Value<T>, fset: Option<Setter<T>>)
    ensures NewBaseField(fget, fset, Kwargs(None, None, None)).options == Options(false, NotProvided, false)
    ensures NewBaseField(fget, fset, Kwargs(Some(true), None, Some(true))).options == Options(true, NotProvided, true)
  {
  }

  /** A read immediately after a write returns the written value. */
  lemma GetAfterSet<T>(f: Field<T>, obj: Obj<T>, v: Value<T>)
    ensures FieldGet(f, Some(FieldSet(f, obj, v))) == Read(v)
  {
  }

  /** A write through one field is invisible to a field with another name. */
  lemma SetLeavesOtherFields<T>(f: Field<T>, g: Field<T>, obj: Obj<T>, v: Value<T>)
    requires g.name != f.name
    ensures FieldGet(g, Some(FieldSet(f, obj, v))) == FieldGet(g, Some(obj))
  {
  }

  /** A second write through the same field overrides the first. */
  lemma SetSet<T>(f: Field<T>, obj: Obj<T>, v: Value<T>, w: Value<T>)
    ensures FieldSet(f, FieldSet(f, obj, v), w) == FieldSet(f, obj, w)
  {
  }

  /** Writing back what was read changes nothing, provided the object has the
      attribute; otherwise the write adds the default as a real attribute. */
  lemma SetWhatWasRead<T>(f: Field<T>, obj: Obj<T>)
    ensures f.name in obj ==> FieldSet(f, obj, FieldGet(f, Some(obj)).value) == obj
    ensures f.name !in obj ==> FieldSet(f, obj, FieldGet(f, Some(obj)).value) == obj[f.name := f.default]
  {
  }

  /** `DigField(name)` alone raises: `readonly` becomes true while `required`
      keeps `Field`'s default of true. */
  lemma DigFieldNameOnlyFails<T>(name: string)
    ensures NewDigField<T>(FieldArgs(name, None, None, None)) == Err(ValueError(BothFlagsMessage))
  {
  }

  /** `DigField` differs from `Field` only in the default for `readonly`: with
      an explicit `readonly` the two constructors agree. */
  lemma DigFieldExplicitReadonly<T>(args: FieldArgs<T>)
    requires args.readonly.Some?
    ensures NewDigField(args) == NewField(args)
  {
  }

  /** A `DigField` built with the default `readonly=True` still accepts
      writes: the inherited `Field.__set__` never consults the flag and binds
      the literal attribute `name`. Reading back goes through the dotted-path
      resolver instead, which need not see that attribute. */
  lemma DigFieldWriteIgnoresReadonly<T>(args: FieldArgs<T>, obj: Obj<T>, v: Value<T>)
    requires args.readonly.None? && args.required == Some(false)
    ensures NewDigField(args).Ok?
    ensures NewDigField(args).value.readonly
    ensures FieldSet(NewDigField(args).value, obj, v) == obj[args.name := v]
  {
  }

  /** `Field('bar', default=1)`, the example in the class's docstring, is a
      required, writable field named `bar` that reads 1 when the object has no
      attribute `bar`. */
  lemma FieldDocstringExample(obj: Obj<int>)
    requires "bar" !in obj
    ensures NewField(FieldArgs("bar", Some(Data(1)), None, None)) == Ok(Field("bar", Data(1), true, false))
    ensures FieldGet(NewField(FieldArgs("bar", Some(Data(1)), None, None)).value, Some(obj)) == Read(Data(1))
  {
  }

  /** For a `field` whose getter reads back what its setter stores, a read
      right after a write returns the written value; without a setter the
      write is dropped and the read sees the object as it was. */
  lemma BaseGetAfterSet<T>(fget: Obj<T> -> Value<T>, fset: Option<Setter<T>>, kwargs: Kwargs<T>, obj: Obj<T>, v: Value<T>)
    requires fset.Some? ==> forall o, w :: fget(fset.value(o, w)) == w
    ensures fset.Some? ==>
      BaseFieldGet(NewBaseField(fget, fset, kwargs), Some(BaseFieldSet(NewBaseField(fget, fset, kwargs), obj, v))) == Read(v)
    ensures fset.None? ==>
      BaseFieldGet(NewBaseField(fget, fset, kwargs), Some(BaseFieldSet(NewBaseField(fget, fset, kwargs), obj, v))) == Read(fget(obj))
  {
  }

  /** The same law for `context_field`, whose getter and setter also see the
      field's options and context. */
  lemma ContextGetAfterSet<T>(fget: (FieldView<T>, Obj<T>) -> Value<T>, fset: Option<ContextSetter<T>>, kwargs: Kwargs<T>, obj: Obj<T>, v: Value<T>)
    requires fset.Some? ==> forall view, o, w :: fget(view, fset.value(view, o, w)) == w
    ensures fset.Some? ==>
      ContextFieldGet(NewContextField(fget, fset, kwargs), Some(ContextFieldSet(NewContextField(fget, fset, kwargs), obj, v))) == Read(v)
    ensures fset.None? ==>
      ContextFieldGet(NewContextField(fget, fset, kwargs), Some(ContextFieldSet(NewContextField(fget, fset, kwargs), obj, v)))
      == Read(fget(FieldView(ResolveOptions(kwargs), kwargs), obj))
  {
  }
}
