/** Rendering of a generic type parameter's bound: how the parameter is referred to
    at the call site, the trait bound it must satisfy, and its `T: Bound` definition. */
module Bounds {
  import opened Wrappers

  /** The capability a generic parameter needs (analysis::bounds::BoundType). The
      lifetimes are lifetime names such as `a`, rendered as `'a`. */
  datatype BoundType =
    | NoWrapper
    | IsA(lifetime: Option<char>)
    | AsRef(lifetime: Option<char>)
    | ToGlibPtr(mutable: bool, lifetime: Option<char>)

  /** One generic type parameter of a function: its single-character alias and the
      type it stands for. */
  datatype Bound = Bound(boundType: BoundType, alias: char, typeStr: string)

  /** The three combinations the source refuses with a panic. */
  datatype BoundError =
    | AsyncOverwritesLifetime
    | AsRefCannotHaveLifetime
    | ToGlibPtrMustHaveLifetime

  /** A lifetime as written in Rust: `'` followed by its name. */
  function Lifetime(l: char): (r: string)
    ensures |r| == 2 && r[0] == '\'' && r[1] == l
  {
    ['\'', l]
  }

  /** The suffix every async bound carries instead of a lifetime. */
  const AsyncSuffix := " + Clone + 'static"

  /** The bound/context combinations that are configuration errors. */
  predicate Rejected(bt: BoundType, isAsync: bool)
  {
    || (bt.IsA? && isAsync && bt.lifetime.Some?)
    || (bt.AsRef? && bt.lifetime.Some?)
    || (bt.ToGlibPtr? && bt.lifetime.None?)
  }

  /** The error the source reports for a rejected combination. */
  function RejectionReason(bt: BoundType): BoundError
  {
    match bt
    case IsA(_) => AsyncOverwritesLifetime
    case AsRef(_) => AsRefCannotHaveLifetime
    case _ => ToGlibPtrMustHaveLifetime
  }

  /** The name used for the type parameter: its alias. */
  function TypeParameterReference(b: Bound): (c: char)
    ensures c == b.alias
  {
    b.alias
  }

  /** How the generic value is referred to inside the call. `refStr` is the reference
      prefix the parameter's ref mode renders to (`RefMode::for_rust_type`). */
  function FullTypeParameterReference(b: Bound, refStr: string, nullable: bool, isAsync: bool): (r: string)
    ensures |r| > 0
    ensures r[|r| - 1] == if b.boundType.IsA? && nullable then '>' else b.alias
  {
    var t := [TypeParameterReference(b)];
    match b.boundType
    case IsA(_) =>
      if nullable then "Option<" + refStr + t + ">" else refStr + t
    case ToGlibPtr(_, Some(l)) =>
      var lifetimePost :=
        if refStr == "" then ""
        else if isAsync then "'static"
        else " " + Lifetime(l);
      refStr + lifetimePost + " " + t
    case _ => t
  }

  /** The trait bound the type parameter must satisfy, or the configuration error. */
  function TraitBound(b: Bound, isAsync: bool): (r: Result<string, BoundError>)
    ensures r.Failure? <==> Rejected(b.boundType, isAsync)
    ensures r.Failure? ==> r.error == RejectionReason(b.boundType)
  {
    match b.boundType
    case NoWrapper => Success(b.typeStr)
    case IsA(lifetime) =>
      if isAsync && lifetime.Some? then Failure(AsyncOverwritesLifetime)
      else
        var post :=
          if isAsync then AsyncSuffix
          else if lifetime.Some? then " + " + Lifetime(lifetime.value)
          else "";
        Success("IsA<" + b.typeStr + ">" + post)
    case AsRef(Some(_)) => Failure(AsRefCannotHaveLifetime)
    case AsRef(None) => Success("AsRef<" + b.typeStr + ">")
    case ToGlibPtr(mutable, Some(l)) =>
      var modif := if mutable then "mut" else "const";
      var post := if isAsync then AsyncSuffix else " + " + Lifetime(l);
      var lifetime := if isAsync then "'static" else Lifetime(l);
      Success("ToGlibPtr<" + lifetime + ", *" + modif + " libc::c_char> + ?Sized" + post)
    case ToGlibPtr(_, None) => Failure(ToGlibPtrMustHaveLifetime)
  }

  /** The definition `T: Bound` of the type parameter: it fails exactly when the trait
      bound does, and otherwise splits into the alias, `": "` and the trait bound. */
  function TypeParameterDefinition(b: Bound, isAsync: bool): (r: Result<string, BoundError>)
    ensures r.Failure? <==> TraitBound(b, isAsync).Failure?
    ensures r.Failure? ==> r.error == TraitBound(b, isAsync).error
    ensures r.Success? ==>
      && |r.value| >= 3
      && r.value[0] == b.alias
      && r.value[1..3] == ": "
      && r.value[3..] == TraitBound(b, isAsync).value
  {
    match TraitBound(b, isAsync)
    case Success(bound) => Success([b.alias] + ": " + bound)
    case Failure(e) => Failure(e)
  }

  // ---------------------------------------------------------------------------
  // Call-site references

  /** For an `IsA` bound the reference is the prefixed alias, wrapped in `Option<..>`
      exactly when nullable; the lifetime and the async flag play no part. */
  lemma IsAReferenceShape(alias: char, typeStr: string, l1: Option<char>, l2: Option<char>,
                          refStr: string, async1: bool, async2: bool)
    ensures FullTypeParameterReference(Bound(IsA(l1), alias, typeStr), refStr, false, async1)
         == refStr + [alias]
    ensures FullTypeParameterReference(Bound(IsA(l1), alias, typeStr), refStr, true, async1)
         == "Option<" + FullTypeParameterReference(Bound(IsA(l2), alias, typeStr), refStr, false, async2) + ">"
  {
  }

  /** For `ToGlibPtr` with a lifetime the reference is the prefix, the lifetime
      decoration, a space and the alias. The declared lifetime shows only for a
      non-empty prefix outside an async call; async replaces it by `'static`; a
      value position (empty prefix) gets no lifetime at all. */
  lemma ToGlibPtrReferenceShape(b: Bound, refStr: string, nullable: bool, isAsync: bool)
    requires b.boundType.ToGlibPtr? && b.boundType.lifetime.Some?
    ensures var r := FullTypeParameterReference(b, refStr, nullable, isAsync);
      && r[..|refStr|] == refStr
      && r[|r| - 2..] == [' ', b.alias]
      && (refStr == "" ==> r == [' ', b.alias])
      && (refStr != "" && isAsync ==> r == refStr + "'static " + [b.alias])
      && (refStr != "" && !isAsync ==> r == refStr + " " + Lifetime(b.boundType.lifetime.value) + " " + [b.alias])
  {
  }

  /** `NoWrapper`, `AsRef` and `ToGlibPtr` without a lifetime are referred to by the
      bare alias, whatever the context. */
  lemma PlainReferenceIsAlias(b: Bound, refStr: string, nullable: bool, isAsync: bool)
    requires b.boundType.NoWrapper? || b.boundType.AsRef? || (b.boundType.ToGlibPtr? && b.boundType.lifetime.None?)
    ensures FullTypeParameterReference(b, refStr, nullable, isAsync) == [TypeParameterReference(b)]
  {
  }

  // ---------------------------------------------------------------------------
  // Trait bounds

  /** `NoWrapper` uses the type verbatim and `AsRef` without a lifetime wraps it, in
      either context. */
  lemma PlainTraitBounds(alias: char, typeStr: string, isAsync: bool)
    ensures TraitBound(Bound(NoWrapper, alias, typeStr), isAsync) == Success(typeStr)
    ensures TraitBound(Bound(AsRef(None), alias, typeStr), isAsync) == Success("AsRef<" + typeStr + ">")
  {
  }

  /** An `IsA` bound is `IsA<Type>`, extended by the declared lifetime outside an async
      call and by `Clone + 'static` inside one. */
  lemma IsABoundShape(alias: char, typeStr: string, l: char)
    ensures TraitBound(Bound(IsA(None), alias, typeStr), false) == Success("IsA<" + typeStr + ">")
    ensures TraitBound(Bound(IsA(Some(l)), alias, typeStr), false).value
         == TraitBound(Bound(IsA(None), alias, typeStr), false).value + " + " + Lifetime(l)
    ensures TraitBound(Bound(IsA(None), alias, typeStr), true).value
         == TraitBound(Bound(IsA(None), alias, typeStr), false).value + AsyncSuffix
  {
    assert "IsA<" + typeStr + ">" + "" == "IsA<" + typeStr + ">";
  }

  /** A `ToGlibPtr` bound mentions neither the parameter's type nor its alias; inside an
      async call it does not depend on the declared lifetime either, and the
      `mutable` flag selects `*mut` or `*const`. */
  lemma ToGlibPtrBoundShape(m: bool, l1: char, l2: char, a1: char, a2: char, t1: string, t2: string, isAsync: bool)
    ensures TraitBound(Bound(ToGlibPtr(m, Some(l1)), a1, t1), isAsync)
         == TraitBound(Bound(ToGlibPtr(m, Some(l1)), a2, t2), isAsync)
    ensures TraitBound(Bound(ToGlibPtr(m, Some(l1)), a1, t1), true)
         == TraitBound(Bound(ToGlibPtr(m, Some(l2)), a1, t1), true)
    ensures TraitBound(Bound(ToGlibPtr(m, Some(l1)), a1, t1), true)
         == Success("ToGlibPtr<'static, *" + (if m then "mut" else "const") + " libc::c_char> + ?Sized" + AsyncSuffix)
    ensures TraitBound(Bound(ToGlibPtr(m, Some(l1)), a1, t1), false)
         == Success("ToGlibPtr<" + Lifetime(l1) + ", *" + (if m then "mut" else "const") + " libc::c_char> + ?Sized + " + Lifetime(l1))
  {
    var modif := if m then "mut" else "const";
    assert "ToGlibPtr<" + "'static" + ", *" == "ToGlibPtr<'static, *";
    assert "ToGlibPtr<'static" + ", *" + modif + " libc::c_char> + ?Sized" + AsyncSuffix
        == "ToGlibPtr<'static, *" + modif + " libc::c_char> + ?Sized" + AsyncSuffix;
    assert "ToGlibPtr<" + Lifetime(l1) + ", *" + modif + " libc::c_char> + ?Sized" + (" + " + Lifetime(l1))
        == "ToGlibPtr<" + Lifetime(l1) + ", *" + modif + " libc::c_char> + ?Sized + " + Lifetime(l1);
  }

  /** Async with a declared lifetime is refused for `IsA` but not for `ToGlibPtr`, whose
      async rendering simply overrides the lifetime. */
  lemma AsyncLifetimeOnlyRejectedForIsA(alias: char, typeStr: string, m: bool, l: char)
    ensures TraitBound(Bound(IsA(Some(l)), alias, typeStr), true) == Failure(AsyncOverwritesLifetime)
    ensures TraitBound(Bound(ToGlibPtr(m, Some(l)), alias, typeStr), true).Success?
  {
  }
}
