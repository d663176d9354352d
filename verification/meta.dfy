/**
 Declarative settings containers (nap/meta.py). A class created through the
 declarative metaclass has its public class-body attributes moved into a
 `_defaults` mapping; an instance of the generic `Meta` container copies
 each default onto itself, taking the value from an override object when
 that object has the attribute. Class bodies and objects are attribute maps
 from name to value.
 */
module Meta {

  /** Python's `key.startswith('_')`; the empty name does not start with it. */
  predicate IsPrivate(key: string) {
    |key| > 0 && key[0] == '_'
  }

  /** The attributes a class body keeps: those whose names start with `_`. */
  function PrivatePart<A>(attrs: map<string, A>): (r: map<string, A>)
    ensures forall k :: k in r <==> k in attrs && IsPrivate(k)
    ensures forall k :: k in r ==> r[k] == attrs[k]
  {
    map k | k in attrs && IsPrivate(k) :: attrs[k]
  }

  /** The attributes a class body gives up to `_defaults`. */
  function PublicPart<A>(attrs: map<string, A>): (r: map<string, A>)
    ensures forall k :: k in r <==> k in attrs && !IsPrivate(k)
    ensures forall k :: k in r ==> r[k] == attrs[k]
  {
    map k | k in attrs && !IsPrivate(k) :: attrs[k]
  }

  /** A class made by the declarative metaclass: its name, its bases, the
      attributes left in its body, and its own `_defaults`. */
  datatype Class<A> = Class(name: string, bases: seq<Class<A>>, attrs: map<string, A>, defaults: map<string, A>)

  /** The class the metaclass builds, stated as a pure partition of the
      class body. */
  function NewClass<A>(name: string, bases: seq<Class<A>>, attrs: map<string, A>): (c: Class<A>)
    ensures c.name == name && c.bases == bases
    ensures c.attrs.Keys !! c.defaults.Keys
    ensures c.attrs + c.defaults == attrs
    ensures forall k :: k in c.attrs ==> IsPrivate(k)
    ensures forall k :: k in c.defaults ==> !IsPrivate(k)
  {
    var c := Class(name, bases, PrivatePart(attrs), PublicPart(attrs));
    assert c.attrs + c.defaults == attrs;
    c
  }

  /** `DeclarativeMetaclass.__new__(name, bases, attrs)`, as the source runs
      it: every key of the class body is visited once, and each key that does
      not start with `_` is popped from the body into `defaults`. The class
      is then built from what is left of the body and gets `defaults` as its
      own `_defaults`. The result is the pure partition above. */
  method Collect<A>(name: string, bases: seq<Class<A>>, attrs: map<string, A>) returns (c: Class<A>)
    ensures forall k :: k in c.attrs <==> k in attrs && IsPrivate(k)
    ensures forall k :: k in c.defaults <==> k in attrs && !IsPrivate(k)
    ensures forall k :: k in c.defaults ==> c.defaults[k] == attrs[k]
    ensures c == NewClass(name, bases, attrs)
  {
    var kept := attrs;
    var defaults := map[];
    var todo := attrs.Keys;
    while todo != {}
      invariant todo <= attrs.Keys
      invariant forall k :: k in kept <==> k in attrs && (k in todo || IsPrivate(k))
      invariant forall k :: k in defaults <==> k in attrs && k !in todo && !IsPrivate(k)
      invariant forall k :: k in kept ==> kept[k] == attrs[k]
      invariant forall k :: k in defaults ==> defaults[k] == attrs[k]
      decreases todo
    {
      var key :| key in todo;
      if !IsPrivate(key) {
        defaults := defaults[key := kept[key]];
        kept := kept - {key};
      }
      todo := todo - {key};
    }
    c := Class(name, bases, kept, defaults);
  }

  /** `_defaults` holds exactly the public keys of the class's own body, each
      with its value from the body. */
  lemma DefaultsArePublicBody<A>(name: string, bases: seq<Class<A>>, attrs: map<string, A>, key: string)
    ensures key in NewClass(name, bases, attrs).defaults <==> key in attrs && !IsPrivate(key)
    ensures key in NewClass(name, bases, attrs).defaults ==> NewClass(name, bases, attrs).defaults[key] == attrs[key]
  {
  }

  /** `_defaults` depends on the class body only: the bases, and whatever
      defaults they hold, play no part, so a subclass replaces rather than
      extends the defaults it inherits. */
  lemma DefaultsIgnoreBases<A>(name: string, bases: seq<Class<A>>, attrs: map<string, A>)
    ensures NewClass(name, bases, attrs).defaults == NewClass(name, [], attrs).defaults
    ensures forall b, k :: b in bases && k in b.defaults && k !in attrs ==> k !in NewClass(name, bases, attrs).defaults
  {
  }

  /** A body with only underscore names, such as the `Meta` container's own
      body of dunder attributes, yields empty defaults and keeps everything. */
  lemma PrivateBodyHasNoDefaults<A>(name: string, bases: seq<Class<A>>, attrs: map<string, A>)
    requires forall k :: k in attrs ==> IsPrivate(k)
    ensures NewClass(name, bases, attrs).defaults == map[]
    ensures NewClass(name, bases, attrs).attrs == attrs
  {
  }

  // ---------------------------------------------------------------------
  // `Meta.__init__`: overlay an override object onto the defaults.
  // ---------------------------------------------------------------------

  /** The reference overlay: the keys of `defaults`, each taking the override
      object's value when it has the attribute and the default otherwise. */
  function Overlay<A>(defaults: map<string, A>, meta: map<string, A>): (r: map<string, A>)
    ensures r.Keys == defaults.Keys
    ensures forall k :: k in r && k in meta ==> r[k] == meta[k]
    ensures forall k :: k in r && k !in meta ==> r[k] == defaults[k]
  {
    map k | k in defaults :: if k in meta then meta[k] else defaults[k]
  }

  /** `Meta(meta)`, as the source runs it: starting from an empty instance,
      each `(key, value)` of the class's `_defaults` is visited once, and
      `key` is bound on the instance to the override object's attribute of
      that name, or to the default when the override object lacks it. */
  method Init<A>(cls: Class<A>, meta: map<string, A>) returns (inst: map<string, A>)
    ensures inst == Overlay(cls.defaults, meta)
  {
    inst := map[];
    var todo := cls.defaults.Keys;
    while todo != {}
      invariant todo <= cls.defaults.Keys
      invariant inst.Keys == cls.defaults.Keys - todo
      invariant forall k :: k in inst ==> inst[k] == Overlay(cls.defaults, meta)[k]
      decreases todo
    {
      var key :| key in todo;
      var value := cls.defaults[key];
      inst := inst[key := if key in meta then meta[key] else value];
      todo := todo - {key};
    }
  }

  /** An override object with none of the default keys yields exactly the
      defaults. */
  lemma NoOverridesGivesDefaults<A>(defaults: map<string, A>, meta: map<string, A>)
    requires defaults.Keys !! meta.Keys
    ensures Overlay(defaults, meta) == defaults
  {
  }

  /** Attributes of the override object that are not defaults are ignored. */
  lemma ExtraOverridesIgnored<A>(defaults: map<string, A>, meta: map<string, A>)
    ensures Overlay(defaults, meta) == Overlay(defaults, map k | k in meta && k in defaults :: meta[k])
  {
  }

  /** Applying the result again as the override object changes nothing. */
  lemma OverlayIdempotent<A>(defaults: map<string, A>, meta: map<string, A>)
    ensures Overlay(defaults, Overlay(defaults, meta)) == Overlay(defaults, meta)
  {
  }

  /** More generally, an override object that agrees with the result on every
      default key reproduces the result. */
  lemma AgreeingOverridesReproduce<A>(defaults: map<string, A>, meta: map<string, A>, meta': map<string, A>)
    requires forall k :: k in defaults ==> k in meta' && meta'[k] == Overlay(defaults, meta)[k]
    ensures Overlay(defaults, meta') == Overlay(defaults, meta)
  {
  }
}
