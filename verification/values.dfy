/**
 Shared vocabulary of the model: attribute values with the framework's
 "not provided" sentinel, wrapped objects as attribute maps, optional
 arguments, the outcome of a constructor that may raise, and the outcome of
 a descriptor read.
 */
module Values {

  /** An attribute value. `NotProvided` is the framework's sentinel meaning
      "no default was given"; every other value carries an opaque payload. */
  datatype Value<T> = NotProvided | Data(payload: T)

  /** A wrapped domain object, seen only through its attributes: `getattr`
      and `setattr` are map lookups and map updates. */
  type Obj<T> = map<string, Value<T>>

  /** An argument that the caller may leave out. */
  datatype Option<T> = None | Some(value: T) {

    /** The supplied argument, or the parameter's default when left out. */
    function GetOr(default: T): (r: T)
      ensures Some? ==> r == value
      ensures None? ==> r == default
    {
      match this
      case Some(v) => v
      case None => default
    }
  }

  /** The exceptions a constructor of the model can raise. */
  datatype Error = ValueError(message: string)

  /** Either the constructed object or the exception raised instead. */
  datatype Result<R> = Ok(value: R) | Err(error: Error)

  /** What a descriptor read yields: the descriptor itself for a read on the
      class (no instance), or a value for a read on an instance. */
  datatype Access<D, V> = Descriptor(descriptor: D) | Read(value: V)

  /** Python's `getattr(obj, name, default)` on an attribute map. */
  function GetAttr<T>(obj: Obj<T>, name: string, default: Value<T>): (r: Value<T>)
    ensures name in obj ==> r == obj[name]
    ensures name !in obj ==> r == default
  {
    if name in obj then obj[name] else default
  }

  /** Python's `setattr(obj, name, value)` on an attribute map: exactly the
      entry `name` is (re)bound, every other attribute is untouched. */
  function SetAttr<T>(obj: Obj<T>, name: string, value: Value<T>): (r: Obj<T>)
    ensures r.Keys == obj.Keys + {name}
    ensures r[name] == value
    ensures forall k :: k in obj && k != name ==> r[k] == obj[k]
  {
    obj[name := value]
  }
}
