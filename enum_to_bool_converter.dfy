/**
 * EnumToBoolConverter: binds a radio button to an enum value. A button is checked when the bound
 * value equals the button's parameter, and checking it sets the value to the parameter.
 *
 * The objects the converter sees are modelled as null, a boxed bool or a boxed enum value.
 */
module EnumToBoolConverter {
  import opened Common

  datatype Obj<E> = Null | Boxed(b: bool) | EnumValue(e: E)

  /** What ConvertBack returns: a value, or Binding.DoNothing. */
  datatype BindingResult<E> = Value(value: Obj<E>) | DoNothing

  /** object.Equals on the boxed values: equal kind and equal contents; nothing equals null. */
  predicate ObjEquals<E(==)>(a: Obj<E>, b: Obj<E>)
  {
    a != Null && a == b
  }

  /** Convert: a null value is unchecked; otherwise checked exactly when the value equals the parameter. */
  function Convert<E(==)>(value: Obj<E>, parameter: Obj<E>): (r: bool)
    ensures value == Null ==> !r
    ensures r <==> value != Null && value == parameter
  {
    if value == Null then false else ObjEquals(value, parameter)
  }

  /**
   * ConvertBack: nothing to do for a null value or parameter; a checked button gives the parameter
   * and an unchecked one nothing to do. A value that is not a bool fails the (bool) cast.
   */
  function ConvertBack<E(==)>(value: Obj<E>, parameter: Obj<E>): (r: Result<BindingResult<E>>)
    ensures r.Err? <==> value != Null && parameter != Null && !value.Boxed?
    ensures r.Err? ==> r.failure == InvalidCast
    ensures r == Ok(Value(parameter)) <==> value == Boxed(true) && parameter != Null
    ensures r.Ok? && r.value.Value? ==> r.value.value == parameter
  {
    if value == Null || parameter == Null then Ok(DoNothing)
    else match value
      case Boxed(b) => if b then Ok(Value(parameter)) else Ok(DoNothing)
      case _ => Err(InvalidCast)
  }

  /** Checking a button and converting the new value back checks that same button. */
  lemma CheckedRoundTrip<E>(parameter: Obj<E>)
    requires parameter != Null
    ensures ConvertBack(Boxed(true), parameter) == Ok(Value(parameter))
    ensures Convert(ConvertBack(Boxed(true), parameter).value.value, parameter)
  {
  }

  /** Among buttons with different parameters, at most one is checked. */
  lemma AtMostOneChecked<E>(value: Obj<E>, p1: Obj<E>, p2: Obj<E>)
    requires p1 != p2
    ensures !(Convert(value, p1) && Convert(value, p2))
  {
  }
}
