/** The descriptor of a parameter as it is passed into a native call
    (chunk::parameter_ffi_call_in::Parameter). */
module ParameterFfiCallIn {
  import Library
  type TypeId = Library.TypeId
  type ParameterDirection = Library.ParameterDirection
  type Transfer = Library.Transfer
  type RefMode = Library.RefMode

  /** A parameter after analysis (analysis::function_parameters::CParameter), as far
      as the FFI-call descriptor reads it. */
  datatype CParameter = CParameter(
    name: string,
    typ: TypeId,
    instanceParameter: bool,
    direction: ParameterDirection,
    transfer: Transfer,
    nullable: bool,
    refMode: RefMode,
    toGlibExtra: string,
    isInto: bool)

  /** The FFI-call descriptor of one parameter. */
  datatype Parameter = Parameter(
    name: string,
    typ: TypeId,
    instanceParameter: bool,
    direction: ParameterDirection,
    transfer: Transfer,
    nullable: bool,
    refMode: RefMode,
    toGlibExtra: string,
    isInto: bool)

  /** Builds the descriptor from an analyzed parameter, copying every field unchanged. */
  function New(orig: CParameter): (p: Parameter)
    ensures p.name == orig.name && p.typ == orig.typ
    ensures p.instanceParameter == orig.instanceParameter && p.direction == orig.direction
    ensures p.transfer == orig.transfer && p.nullable == orig.nullable && p.refMode == orig.refMode
    ensures p.toGlibExtra == orig.toGlibExtra && p.isInto == orig.isInto
  {
    Parameter(
      orig.name,
      orig.typ,
      orig.instanceParameter,
      orig.direction,
      orig.transfer,
      orig.nullable,
      orig.refMode,
      orig.toGlibExtra,
      orig.isInto)
  }

  /** Nothing is lost in the copy: distinct analyzed parameters give distinct
      descriptors, and every descriptor is the copy of one. */
  lemma NewIsBijective(a: CParameter, b: CParameter, p: Parameter)
    ensures New(a) == New(b) ==> a == b
    ensures exists c :: New(c) == p
  {
    var c := CParameter(p.name, p.typ, p.instanceParameter, p.direction, p.transfer,
                        p.nullable, p.refMode, p.toGlibExtra, p.isInto);
    assert New(c) == p;
  }
}
