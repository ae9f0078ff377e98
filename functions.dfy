/** Per-class analysis: one summary per declared function, flagging those whose
    return type has no known classification so that their bodies are emitted
    commented out. */
module Functions {
  import opened Library

  /** The summary of one function (analysis::functions::Info). The field name
      `comented` keeps the source's spelling. */
  datatype Info = Info(
    name: string,
    glibName: string,
    kind: FunctionKind,
    comented: bool,
    className: string,
    ret: Parameter)

  /** `info` is the summary of function `f` declared on the class `classTid`:
      names, kind and return descriptor copied from `f`, the class's Rust name, and
      the comment-out flag set exactly when the return type is unclassified. */
  predicate Summarizes(env: Env, f: Function, classTid: TypeId, info: Info)
  {
    && info.name == f.name
    && info.glibName == f.cIdentifier
    && info.kind == f.kind
    && info.ret == f.ret
    && info.className == env.rustType(classTid)
    && (info.comented <==> env.typeKind(f.ret.typ) == TypeKind.Unknown)
  }

  /** A function has exactly one summary. */
  lemma SummaryIsUnique(env: Env, f: Function, classTid: TypeId, i1: Info, i2: Info)
    requires Summarizes(env, f, classTid, i1) && Summarizes(env, f, classTid, i2)
    ensures i1 == i2
  {
  }

  /** Summarizes one function of the class `classTid`. */
  method AnalyzeFunction(env: Env, f: Function, classTid: TypeId) returns (info: Info)
    ensures Summarizes(env, f, classTid, info)
  {
    var klass := env.rustType(classTid);

    var commented := false;
    var typeRet := f.ret.typ;
    if env.typeKind(typeRet) == TypeKind.Unknown {
      commented := true;
    }

    info := Info(f.name, f.cIdentifier, f.kind, commented, klass, f.ret);
  }

  /** Summarizes every function of `cls`, in declaration order. Unclassified returns
      do not drop a function: they only set its flag. All summaries share the class
      name. */
  method Analyze(env: Env, cls: Class, classTid: TypeId) returns (funcs: seq<Info>)
    ensures |funcs| == |cls.functions|
    ensures forall i :: 0 <= i < |funcs| ==> Summarizes(env, cls.functions[i], classTid, funcs[i])
    ensures forall i, j :: 0 <= i < |funcs| && 0 <= j < |funcs| ==> funcs[i].className == funcs[j].className
  {
    funcs := [];
    for k := 0 to |cls.functions|
      invariant |funcs| == k
      invariant forall i :: 0 <= i < k ==> Summarizes(env, cls.functions[i], classTid, funcs[i])
    {
      var info := AnalyzeFunction(env, cls.functions[k], classTid);
      funcs := funcs + [info];
    }
  }

  /** The summaries of a class are determined by its functions: two runs of the
      analysis agree. */
  lemma AnalysisIsDeterministic(env: Env, cls: Class, classTid: TypeId, a: seq<Info>, b: seq<Info>)
    requires |a| == |cls.functions| && |b| == |cls.functions|
    requires forall i :: 0 <= i < |a| ==> Summarizes(env, cls.functions[i], classTid, a[i])
    requires forall i :: 0 <= i < |b| ==> Summarizes(env, cls.functions[i], classTid, b[i])
    ensures a == b
  {
    forall i | 0 <= i < |a|
      ensures a[i] == b[i]
    {
      SummaryIsUnique(env, cls.functions[i], classTid, a[i], b[i]);
    }
  }
}
