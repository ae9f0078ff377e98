/** Translation of a parameter's transformation into the Rust expression that converts
    the high-level value into what the native call expects. */
module TranslateToGlib {
  import opened Library
  import Wrappers

  type Result<T, E> = Wrappers.Result<T, E>

  /** How one parameter crosses into the native call
      (analysis::function_parameters::TransformationType). The variants this
      translation does not handle are represented by `Untranslated`, carrying the
      variant's name. */
  datatype TransformationType =
    | ToGlibDirect(name: string)
    | ToGlibScalar(name: string, nullable: bool)
    | ToGlibPointer(
        name: string,
        instanceParameter: bool,
        transfer: Transfer,
        refMode: RefMode,
        toGlibExtra: string,
        pointerCast: string,
        explicitTargetType: string)
    | ToGlibStash(name: string)
    | ToGlibBorrow
    | ToGlibUnknown(name: string)
    | ToSome(name: string)
    | IntoRaw(name: string)
    | Untranslated(variant: string)

  /** The source's `unreachable!` for a transformation that should have been resolved
      before translation. */
  datatype TranslateError = UnexpectedTransformationType(variant: string)

  /** The expression that converts the described value, or the rejection of a
      transformation this translation does not handle. */
  function Translate(t: TransformationType): (r: Result<string, TranslateError>)
    ensures r.Failure? <==> t.Untranslated?
    ensures r.Failure? ==> r.error == UnexpectedTransformationType(t.variant)
  {
    match t
    case ToGlibDirect(name) => Wrappers.Success(name)
    case ToGlibScalar(name, nullable) =>
      Wrappers.Success(name + (if !nullable then "" else ".into()") + ".to_glib()")
    case ToGlibPointer(name, instanceParameter, transfer, refMode, toGlibExtra, pointerCast, explicitTargetType) =>
      var (left, right) := ToGlibXxx(transfer, refMode, explicitTargetType);
      if instanceParameter then Wrappers.Success(left + "self" + right + pointerCast)
      else Wrappers.Success(left + name + toGlibExtra + right + pointerCast)
    case ToGlibStash(name) => Wrappers.Success(name + ".0")
    case ToGlibBorrow => Wrappers.Success("/*Not applicable conversion Borrow*/")
    case ToGlibUnknown(name) => Wrappers.Success("/*Unknown conversion*/" + name)
    case ToSome(name) => Wrappers.Success("Some(" + name + ")")
    case IntoRaw(name) => Wrappers.Success("Box::into_raw(" + name + ") as *mut _")
    case Untranslated(variant) => Wrappers.Failure(UnexpectedTransformationType(variant))
  }

  /** The text placed before and after a pointer value to convert it, chosen by the
      transfer mode, the ref mode and an explicit target pointer type. */
  function ToGlibXxx(transfer: Transfer, refMode: RefMode, explicitTargetType: string): (r: (string, string))
    ensures r.0 != "" ==> transfer == Transfer.None
    ensures r.1 == "" <==> transfer == Transfer.None && refMode == RefMode.ByRefFake
  {
    match transfer
    case None() =>
      (match refMode
      case None() => ("", ".to_glib_none_mut().0")
      case ByRef =>
        if explicitTargetType == "" then ("", ".to_glib_none().0")
        else ("ToGlibPtr::<" + explicitTargetType + ">::to_glib_none(", ").0")
      case ByRefMut => ("", ".to_glib_none_mut().0")
      case ByRefImmut => ("mut_override(", ".to_glib_none().0)")
      case ByRefConst => ("const_override(", ".to_glib_none().0)")
      case ByRefFake => ("", ""))
    case Full => ("", ".to_glib_full()")
    case Container => ("", ".to_glib_container().0")
  }

  // ---------------------------------------------------------------------------
  // The pointer conversion table

  /** The distinct conversions the table can select. */
  datatype Conversion =
    | BorrowMut      // `.to_glib_none_mut().0`
    | Borrow         // `.to_glib_none().0`
    | BorrowAs       // `ToGlibPtr::<T>::to_glib_none(..).0`
    | MutOverride    // `mut_override(..)`
    | ConstOverride  // `const_override(..)`
    | NoConversion
    | Owned          // `.to_glib_full()`
    | ContainerOwned // `.to_glib_container().0`

  /** Which conversion a transfer and ref mode call for, as the ownership rules read:
      a transferred value is converted the same way whatever its ref mode; a
      borrowed one by how it is referenced. */
  function ConversionOf(transfer: Transfer, refMode: RefMode, explicitTargetType: string): Conversion
  {
    if transfer == Transfer.Full then Owned
    else if transfer == Transfer.Container then ContainerOwned
    else if refMode == RefMode.None || refMode == RefMode.ByRefMut then BorrowMut
    else if refMode == RefMode.ByRef then (if explicitTargetType == "" then Borrow else BorrowAs)
    else if refMode == RefMode.ByRefImmut then MutOverride
    else if refMode == RefMode.ByRefConst then ConstOverride
    else NoConversion
  }

  /** The text of each conversion: what goes before and after the value. */
  function ConversionText(c: Conversion, explicitTargetType: string): (string, string)
  {
    match c
    case BorrowMut => ("", ".to_glib_none_mut().0")
    case Borrow => ("", ".to_glib_none().0")
    case BorrowAs => ("ToGlibPtr::<" + explicitTargetType + ">::to_glib_none(", ").0")
    case MutOverride => ("mut_override(", ".to_glib_none().0)")
    case ConstOverride => ("const_override(", ".to_glib_none().0)")
    case NoConversion => ("", "")
    case Owned => ("", ".to_glib_full()")
    case ContainerOwned => ("", ".to_glib_container().0")
  }

  /** The pointer table renders the conversion the transfer and ref mode call for. */
  lemma ToGlibXxxFollowsConversion(transfer: Transfer, refMode: RefMode, explicitTargetType: string)
    ensures ToGlibXxx(transfer, refMode, explicitTargetType)
         == ConversionText(ConversionOf(transfer, refMode, explicitTargetType), explicitTargetType)
  {
  }

  /** Two table entries are the same text exactly when they select the same
      conversion (for an explicit target type, the same type). In particular the
      table is not one-to-one: `RefMode::None` and `ByRefMut` share an entry, and
      `Full` and `Container` ignore the ref mode. */
  lemma ToGlibXxxEqualIff(t1: Transfer, m1: RefMode, e1: string, t2: Transfer, m2: RefMode, e2: string)
    ensures ToGlibXxx(t1, m1, e1) == ToGlibXxx(t2, m2, e2)
        <==> ConversionOf(t1, m1, e1) == ConversionOf(t2, m2, e2)
             && (ConversionOf(t1, m1, e1) == BorrowAs ==> e1 == e2)
  {
    var c1, c2 := ConversionOf(t1, m1, e1), ConversionOf(t2, m2, e2);
    if c1 == BorrowAs && c2 == BorrowAs && ToGlibXxx(t1, m1, e1) == ToGlibXxx(t2, m2, e2) {
      ExplicitTargetRecoverable(e1);
      ExplicitTargetRecoverable(e2);
    }
  }

  /** With an explicit target type, that type can be read back from the prefix. */
  lemma ExplicitTargetRecoverable(e: string)
    requires e != ""
    ensures var p := ToGlibXxx(Transfer.None, RefMode.ByRef, e).0;
      |p| == |e| + 28 && p[12..|p| - 16] == e
  {
  }

  // ---------------------------------------------------------------------------
  // Translations

  /** The instance parameter is rendered as a parameter named `self` without extra
      conversion text: its declared name and its extra text are dropped. */
  lemma InstanceParameterIsSelf(name: string, transfer: Transfer, refMode: RefMode,
                                extra: string, cast: string, explicitTargetType: string)
    ensures Translate(ToGlibPointer(name, true, transfer, refMode, extra, cast, explicitTargetType))
         == Translate(ToGlibPointer("self", false, transfer, refMode, "", cast, explicitTargetType))
  {
    var (left, right) := ToGlibXxx(transfer, refMode, explicitTargetType);
    assert left + "self" + "" + right + cast == left + "self" + right + cast;
  }

  /** A non-instance pointer parameter is its name and extra text, placed between the
      table's prefix and suffix, followed by the pointer cast. */
  lemma PointerLayout(name: string, transfer: Transfer, refMode: RefMode,
                      extra: string, cast: string, explicitTargetType: string)
    ensures var (left, right) := ToGlibXxx(transfer, refMode, explicitTargetType);
      var r := Translate(ToGlibPointer(name, false, transfer, refMode, extra, cast, explicitTargetType)).value;
      && |r| == |left| + |name| + |extra| + |right| + |cast|
      && r[..|left|] == left
      && r[|left|..|left| + |name|] == name
      && r[|left| + |name|..|left| + |name| + |extra|] == extra
      && r[|r| - |cast| - |right|..|r| - |cast|] == right
      && r[|r| - |cast|..] == cast
  {
  }

  /** Two pointer parameters that differ only in a ref mode the transfer ignores are
      translated alike: transferred values are converted the same whatever their ref mode. */
  lemma TransferredIgnoresRefMode(name: string, instance: bool, transfer: Transfer, m1: RefMode, m2: RefMode,
                                  extra: string, cast: string, e1: string, e2: string)
    requires transfer != Transfer.None
    ensures Translate(ToGlibPointer(name, instance, transfer, m1, extra, cast, e1))
         == Translate(ToGlibPointer(name, instance, transfer, m2, extra, cast, e2))
  {
  }

  /** The remaining translations wrap the name in fixed text: the identity, the
      stash's pointer field, a placeholder comment, `Some(..)` and a leaked box; a
      borrow is only a comment. */
  lemma WrapperShapes(name: string)
    ensures Translate(ToGlibDirect(name)).value == name
    ensures Translate(ToGlibStash(name)).value == name + ".0"
    ensures Translate(ToGlibUnknown(name)).value == "/*Unknown conversion*/" + name
    ensures Translate(ToSome(name)).value == "Some(" + name + ")"
    ensures Translate(IntoRaw(name)).value == "Box::into_raw(" + name + ") as *mut _"
    ensures Translate(ToGlibBorrow).value == "/*Not applicable conversion Borrow*/"
  {
  }

  /** A nullable scalar is first converted out of its `Option` with `.into()`: its
      translation is that of a non-nullable scalar named `name.into()`. */
  lemma ScalarNullableAddsInto(name: string)
    ensures Translate(ToGlibScalar(name, false)).value == name + ".to_glib()"
    ensures Translate(ToGlibScalar(name, true)) == Translate(ToGlibScalar(name + ".into()", false))
  {
    assert name + ".into()" + "" == name + ".into()";
    assert name + "" + ".to_glib()" == name + ".to_glib()";
  }

  /** The name can be read back from every translation that carries it: distinct
      names give distinct expressions. */
  lemma NameIsRecoverable(n1: string, n2: string, nullable: bool)
    ensures Translate(ToGlibDirect(n1)) == Translate(ToGlibDirect(n2)) ==> n1 == n2
    ensures Translate(ToGlibScalar(n1, nullable)) == Translate(ToGlibScalar(n2, nullable)) ==> n1 == n2
    ensures Translate(ToGlibStash(n1)) == Translate(ToGlibStash(n2)) ==> n1 == n2
    ensures Translate(ToGlibUnknown(n1)) == Translate(ToGlibUnknown(n2)) ==> n1 == n2
    ensures Translate(ToSome(n1)) == Translate(ToSome(n2)) ==> n1 == n2
    ensures Translate(IntoRaw(n1)) == Translate(IntoRaw(n2)) ==> n1 == n2
  {
    var post := (if !nullable then "" else ".into()") + ".to_glib()";
    if Translate(ToGlibScalar(n1, nullable)) == Translate(ToGlibScalar(n2, nullable)) {
      assert "" + n1 + post == n1 + (if !nullable then "" else ".into()") + ".to_glib()";
      assert "" + n2 + post == n2 + (if !nullable then "" else ".into()") + ".to_glib()";
      Unwrap("", n1, n2, post);
    }
    if Translate(ToGlibStash(n1)) == Translate(ToGlibStash(n2)) {
      assert "" + n1 + ".0" == n1 + ".0" && "" + n2 + ".0" == n2 + ".0";
      Unwrap("", n1, n2, ".0");
    }
    if Translate(ToGlibUnknown(n1)) == Translate(ToGlibUnknown(n2)) {
      assert "/*Unknown conversion*/" + n1 + "" == "/*Unknown conversion*/" + n1;
      assert "/*Unknown conversion*/" + n2 + "" == "/*Unknown conversion*/" + n2;
      Unwrap("/*Unknown conversion*/", n1, n2, "");
    }
    if Translate(ToSome(n1)) == Translate(ToSome(n2)) {
      Unwrap("Some(", n1, n2, ")");
    }
    if Translate(IntoRaw(n1)) == Translate(IntoRaw(n2)) {
      Unwrap("Box::into_raw(", n1, n2, ") as *mut _");
    }
  }

  /** Text placed between a fixed prefix and suffix can be read back. */
  lemma Unwrap(pre: string, a: string, b: string, post: string)
    requires pre + a + post == pre + b + post
    ensures a == b
  {
    assert a == (pre + a + post)[|pre|..|pre| + |a|];
    assert b == (pre + b + post)[|pre|..|pre| + |b|];
  }

  /** The two worked cases: a borrowed `ByRef` value with no explicit target type,
      and an owned instance parameter whose `ByRefMut` mode the transfer overrides. */
  lemma PointerScenarios(cast: string)
    ensures Translate(ToGlibPointer("val", false, Transfer.None, RefMode.ByRef, "", "", "")).value
         == "val.to_glib_none().0"
    ensures Translate(ToGlibPointer("obj", true, Transfer.Full, RefMode.ByRefMut, "", cast, "")).value
         == "self.to_glib_full()" + cast
  {
    assert "" + "self" + ".to_glib_full()" == "self.to_glib_full()";
  }
}
