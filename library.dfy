/** The parts of the generator's `library` (the parsed introspection data) and of its
    environment that the core reads. Everything here is produced upstream. */
module Library {

  /** Who owns a value after it crosses the native boundary. */
  datatype Transfer = None | Full | Container

  /** How a value is passed at the call site (analysis::ref_mode::RefMode). */
  datatype RefMode = None | ByRef | ByRefMut | ByRefImmut | ByRefConst | ByRefFake

  datatype ParameterDirection = None | In | Out | InOut | Return

  /** Index of a type in the library: a namespace and a position in it. */
  datatype TypeId = TypeId(nsId: nat, id: nat)

  datatype FunctionKind = Constructor | Function | Method | Global

  /** Classification of a type (analysis::type_kind::TypeKind). Only `Unknown` is
      distinguished by the core; every other classification is kept as its name. */
  datatype TypeKind = Unknown | Classified(kind: string)

  /** A parameter or return value as declared in the introspection data (library::Parameter). */
  datatype Parameter = Parameter(
    name: string,
    typ: TypeId,
    cType: string,
    instanceParameter: bool,
    direction: ParameterDirection,
    transfer: Transfer,
    nullable: bool)

  /** A function declared on a class (library::Function). */
  datatype Function = Function(
    name: string,
    cIdentifier: string,
    kind: FunctionKind,
    ret: Parameter,
    parameters: seq<Parameter>)

  /** A class and its functions in declaration order (library::Class). */
  datatype Class = Class(name: string, cType: string, functions: seq<Function>)

  /** The lookups the analysis makes through `env.library`: resolving a type id and then
      asking the resolved type for its classification or its Rust name. They are
      foreign code, so they are whatever functions the caller supplies. */
  datatype Env = Env(typeKind: TypeId -> TypeKind, rustType: TypeId -> string)
}
