/**
 * The small slice of the CLR runtime the adapters rely on: runtime types with an
 * `IsAssignableFrom` relation, boxed values, the `(T)value` cast and `default(T)`.
 */
module Runtime {

  /**
   * A runtime type: its name, whether it is a value type (`int`, `bool`, ...)
   * and the names of every type other than itself it is assignable to
   * (its base classes, interfaces and `Object`).
   */
  datatype Ty = Ty(name: string, isValueType: bool, supertypes: set<string>)

  /** `target.IsAssignableFrom(source)`. */
  predicate IsAssignableFrom(target: Ty, source: Ty) {
    target == source || target.name in source.supertypes
  }

  /**
   * An `object` as the host framework hands it over: `null`, a boxed instance
   * of some runtime type (told apart by `data`), or one of the framework's two
   * sentinels `DependencyProperty.UnsetValue` and `Binding.DoNothing`.
   */
  datatype Value = Null | Obj(ty: Ty, data: int) | UnsetValue | BindingDoNothing

  /** The runtime type of both framework sentinels. */
  const NamedObjectType: Ty := Ty("NamedObject", false, {"Object"})

  /** `value.GetType()` for a non-null value. */
  function RuntimeType(v: Value): Ty
    requires v != Null
  {
    match v
    case Obj(t, _) => t
    case _ => NamedObjectType
  }

  /**
   * Whether `(T)v` succeeds. A null cast to a value type throws
   * NullReferenceException, a non-null value of a runtime type that `T` is not
   * assignable from throws InvalidCastException; the adapters catch both.
   */
  predicate CastsTo(v: Value, t: Ty) {
    if v == Null then !t.isValueType else IsAssignableFrom(t, RuntimeType(v))
  }

  /** `default(T)`, boxed: null for a reference type, the zero value for a value type. */
  function DefaultOf(t: Ty): (v: Value)
    ensures v == Null <==> !t.isValueType
    ensures CastsTo(v, t)
  {
    if t.isValueType then Obj(t, 0) else Null
  }

  /** A `CultureInfo`, passed through to the callbacks untouched. */
  datatype CultureInfo = CultureInfo(name: string)

  /** The exceptions the library itself throws. */
  datatype Exception =
    | NotSupported
    | ArgumentOutOfRange(paramName: string)
}
