/** The parts of Django's model-field layer that rule self-validation and evaluation look at: the
    field classes and how `isinstance` relates them, a model's fields, and attribute values. */
module Fields {
  import opened Wrappers

  /** The field classes a model's `_meta.get_fields()` can return (Django 3.2), plus the two
      non-field entries it also lists: reverse relations and generic foreign keys. */
  datatype FieldKind =
    | Field
    | IntegerField | BigIntegerField | SmallIntegerField
    | PositiveIntegerField | PositiveSmallIntegerField | PositiveBigIntegerField
    | AutoField | BigAutoField | SmallAutoField
    | FloatField | DecimalField
    | BooleanField | NullBooleanField
    | CharField | SlugField | EmailField | URLField | TextField | GenericIPAddressField
    | DateField | DateTimeField | TimeField | DurationField
    | UUIDField | BinaryField | JSONField
    | FileField | ImageField | FilePathField
    | RelatedField | ForeignObject | ForeignKey | OneToOneField | ManyToManyField
    | ForeignObjectRel | GenericForeignKey

  /** The classes an instance of `k` is an instance of: `k` and every superclass. Mixins that no
      rule mentions are omitted. `BigAutoField` and `SmallAutoField` include `AutoField` because
      Django's `AutoFieldMeta` makes `isinstance` report their instances as instances of it. */
  function Ancestors(k: FieldKind): set<FieldKind>
  {
    match k
    case Field | ForeignObjectRel | GenericForeignKey => {k}
    case IntegerField | FloatField | DecimalField | BooleanField | CharField | TextField
      | GenericIPAddressField | DateField | TimeField | DurationField | UUIDField | BinaryField
      | JSONField | FileField | FilePathField | RelatedField => {k, Field}
    case BigIntegerField | SmallIntegerField | PositiveIntegerField | AutoField =>
      {k, IntegerField, Field}
    case PositiveSmallIntegerField => {k, SmallIntegerField, IntegerField, Field}
    case PositiveBigIntegerField => {k, BigIntegerField, IntegerField, Field}
    case SmallAutoField => {k, AutoField, SmallIntegerField, IntegerField, Field}
    case BigAutoField => {k, AutoField, BigIntegerField, IntegerField, Field}
    case NullBooleanField => {k, BooleanField, Field}
    case SlugField | EmailField | URLField => {k, CharField, Field}
    case DateTimeField => {k, DateField, Field}
    case ImageField => {k, FileField, Field}
    case ForeignObject | ManyToManyField => {k, RelatedField, Field}
    case ForeignKey => {k, ForeignObject, RelatedField, Field}
    case OneToOneField => {k, ForeignKey, ForeignObject, RelatedField, Field}
  }

  /** `isinstance(field, t)` for a field of kind `k`. */
  predicate IsA(k: FieldKind, t: FieldKind)
  {
    t in Ancestors(k)
  }

  /** `isinstance(field, ts)` for a tuple of classes, given as the set of its members. */
  predicate IsAnyOf(k: FieldKind, ts: set<FieldKind>)
  {
    Ancestors(k) * ts != {}
  }

  /** `isinstance` with a tuple holds exactly when it holds for one member of the tuple. */
  lemma IsAnyOfIff(k: FieldKind, ts: set<FieldKind>)
    ensures IsAnyOf(k, ts) <==> exists t :: t in ts && IsA(k, t)
  {
    if IsAnyOf(k, ts) {
      var t :| t in Ancestors(k) * ts;
      assert t in ts && IsA(k, t);
    }
    if exists t :: t in ts && IsA(k, t) {
      var t :| t in ts && IsA(k, t);
      assert t in Ancestors(k) * ts;
    }
  }

  /** The superclasses of a superclass of `k` are superclasses of `k`: `IsA` is transitive. */
  lemma AncestorsClosed(k: FieldKind, t: FieldKind)
    requires IsA(k, t)
    ensures Ancestors(t) <= Ancestors(k)
  {
  }

  /** Together with reflexivity and transitivity this makes `IsA` a partial order. */
  lemma IsAAntisymmetric(a: FieldKind, b: FieldKind)
    requires IsA(a, b) && IsA(b, a)
    ensures a == b
  {
  }

  /** One entry of `Model._meta.get_fields()`. */
  datatype ModelField = ModelField(name: string, kind: FieldKind, editable: bool)

  /** `name in [f.name for f in fields]`. */
  predicate HasField(fields: seq<ModelField>, name: string)
  {
    exists i :: 0 <= i < |fields| && fields[i].name == name
  }

  /** `Model._meta.get_field(name)`: the first field of that name. */
  function GetField(fields: seq<ModelField>, name: string): (f: ModelField)
    requires HasField(fields, name)
    ensures f in fields && f.name == name
  {
    if fields[0].name == name then fields[0] else GetField(fields[1..], name)
  }

  /** A Python value read from a model attribute. `BoolValue` is kept apart from `IntValue`
      although Python's `bool` is a subclass of `int`; `ObjectValue` is a related model instance. */
  datatype Value =
    | NoneValue
    | BoolValue(b: bool)
    | IntValue(i: int)
    | FloatValue(f: real)
    | DecimalValue(d: real)
    | StrValue(s: string)
    | ObjectValue(pk: string)

  /** Python's truth value of the value (`bool(v)`). */
  predicate Truthy(v: Value)
  {
    match v
    case NoneValue => false
    case BoolValue(b) => b
    case IntValue(i) => i != 0
    case FloatValue(f) => f != 0.0
    case DecimalValue(d) => d != 0.0
    case StrValue(s) => s != []
    case ObjectValue(_) => true
  }

  /** A model instance's attributes, as `getattr` sees them. */
  type Attributes = map<string, Value>

  /** `getattr(obj, name)`, or `None` when it raises `AttributeError`. */
  function GetAttr(obj: Attributes, name: string): (r: Option<Value>)
    ensures r.Some? <==> name in obj
    ensures r.Some? ==> r.value == obj[name]
  {
    if name in obj then Some(obj[name]) else None
  }
}
