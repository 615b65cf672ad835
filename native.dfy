/** The function-binding framework: the derivation of foreign-call metadata from an
    annotated stub signature, the choice of the bound symbol and of the prototype, and
    the macro value box. */
module Native {
  import opened Results
  import opened CTypes
  import opened PyValues

  /** ArgFlag: the direction bits of a parameter. */
  const IN: int := 1
  const OUT: int := 2
  const ZERO: int := 4

  /** IN and ZERO are distinct bits, so `IN | ZERO` is their sum. */
  lemma InZeroIsBitwiseOr()
    ensures (IN as bv8 | ZERO as bv8) as int == IN + ZERO == 5
  {
  }

  /** The annotation of one stub parameter. */
  datatype Annotation =
    | Missing                                           // no annotation at all
    | Pair(flag: int, ctype: CType)                     // (direction, type)
    | Triple(flag: int, ctype: CType, default: PyValue) // (direction, type, default)
    | Malformed                                         // not a tuple, or a tuple of another length

  /** The kinds of parameter a signature can declare. */
  datatype Kind = PositionalOnly | PositionalOrKeyword | VarPositional | KeywordOnly | VarKeyword

  /** One declared parameter; `default` is None when the stub gives no default. */
  datatype Param = Param(name: string, annotation: Annotation, kind: Kind, default: Option<PyValue>)

  /** A stub's signature; `returnAnnotation` is None when the return type is not annotated. */
  datatype Signature = Signature(returnAnnotation: Option<CType>, params: seq<Param>)

  /** The TypeErrors the derivation raises. */
  datatype MetadataError =
    | MissingReturnAnnotation
    | MissingAnnotation(param: string)
    | IncorrectAnnotation(param: string)
    | IncorrectKind(param: string)

  /** The message each TypeError carries. */
  function Message(e: MetadataError): string {
    match e
    case MissingReturnAnnotation => "missing return type annotation"
    case MissingAnnotation(p) => "missing annotation on parameter " + p
    case IncorrectAnnotation(p) => "incorrect annotation on parameter " + p
    case IncorrectKind(p) => "incorrect kind of parameter " + p
  }

  /** One entry of the parameter-flags table: `(flag, name)` or `(flag, name, default)`. */
  datatype ParamFlag =
    | Flag(flag: int, name: string)
    | FlagWithDefault(flag: int, name: string, default: PyValue)

  /** The derived metadata: return type, parameter types and parameter flags. */
  datatype Metadata = Metadata(restype: CType, argtypes: seq<CType>, paramflags: seq<ParamFlag>)

  /** The three checks on one parameter, in the order the derivation makes them. */
  function ParamCheck(p: Param): Option<MetadataError> {
    if p.annotation.Missing? then Some(MissingAnnotation(p.name))
    else if p.annotation.Malformed? then Some(IncorrectAnnotation(p.name))
    else if p.kind != PositionalOrKeyword then Some(IncorrectKind(p.name))
    else None
  }

  predicate WellFormed(p: Param) {
    ParamCheck(p).None?
  }

  /** The default that counts: the third annotation element, or else the stub's own. */
  function EffectiveDefault(p: Param): Option<PyValue>
    requires WellFormed(p)
  {
    if p.annotation.Triple? then Some(p.annotation.default) else p.default
  }

  /** The declared type of a parameter. */
  function ParamType(p: Param): CType
    requires WellFormed(p)
  {
    p.annotation.ctype
  }

  /** The flags entry of a well-formed parameter. */
  function EncodeFlag(p: Param): ParamFlag
    requires WellFormed(p)
  {
    var flag := p.annotation.flag;
    match EffectiveDefault(p)
    case None => Flag(flag, p.name)
    case Some(d) =>
      if flag == IN && EqualsZero(d) then Flag(IN + ZERO, p.name)
      else FlagWithDefault(flag, p.name, d)
  }

  /** The flags entry keeps the name, drops the default exactly for an IN parameter
      defaulting to 0 (which is tagged IN|ZERO instead), and otherwise carries the
      direction and the default unchanged. */
  lemma EncodeFlagCases(p: Param)
    requires WellFormed(p)
    ensures EncodeFlag(p).name == p.name
    ensures EncodeFlag(p).FlagWithDefault? <==>
      EffectiveDefault(p).Some? && !(p.annotation.flag == IN && EqualsZero(EffectiveDefault(p).value))
    ensures EncodeFlag(p).FlagWithDefault? ==>
      EncodeFlag(p).flag == p.annotation.flag && EncodeFlag(p).default == EffectiveDefault(p).value
    ensures EncodeFlag(p).Flag? ==>
      EncodeFlag(p).flag == if EffectiveDefault(p).Some? then IN + ZERO else p.annotation.flag
  {
  }

  /** Worked cases of the encoding: an IN parameter defaulting to 0 (or to False) loses
      its default and is tagged IN|ZERO; an OUT parameter defaulting to 0 and an IN
      parameter with another default keep theirs; a 3-element annotation's default
      replaces the stub's own. */
  lemma EncodeFlagExamples(name: string, t: CType)
    ensures EncodeFlag(Param(name, Pair(IN, t), PositionalOrKeyword, Some(PyInt(0)))) == Flag(5, name)
    ensures EncodeFlag(Param(name, Pair(IN, t), PositionalOrKeyword, Some(PyBool(false)))) == Flag(5, name)
    ensures EncodeFlag(Param(name, Pair(OUT, t), PositionalOrKeyword, Some(PyInt(0)))) ==
      FlagWithDefault(OUT, name, PyInt(0))
    ensures EncodeFlag(Param(name, Pair(IN, t), PositionalOrKeyword, Some(PyInt(7)))) ==
      FlagWithDefault(IN, name, PyInt(7))
    ensures EncodeFlag(Param(name, Triple(IN, t, PyInt(3)), PositionalOrKeyword, Some(PyInt(0)))) ==
      FlagWithDefault(IN, name, PyInt(3))
    ensures EncodeFlag(Param(name, Triple(IN, t, PyInt(0)), PositionalOrKeyword, None)) == Flag(5, name)
  {
  }

  /** `FirstFailing(ps, i)`: parameter i is the first one that fails its checks. */
  predicate FirstFailing(ps: seq<Param>, i: int) {
    0 <= i < |ps| && ParamCheck(ps[i]).Some? &&
    forall j :: 0 <= j < i ==> WellFormed(ps[j])
  }

  /** The parallel argument-type and parameter-flag columns. */
  datatype Columns = Columns(argtypes: seq<CType>, paramflags: seq<ParamFlag>)

  /** The scan over the declared parameters, in declaration order. */
  function Scan(ps: seq<Param>): (r: Result<Columns, MetadataError>)
    ensures r.Success? <==> forall i :: 0 <= i < |ps| ==> WellFormed(ps[i])
    ensures r.Success? ==> |r.value.argtypes| == |ps| && |r.value.paramflags| == |ps|
    ensures r.Success? ==> forall i :: 0 <= i < |ps| ==>
      r.value.argtypes[i] == ParamType(ps[i]) && r.value.paramflags[i] == EncodeFlag(ps[i])
  {
    if ps == [] then Success(Columns([], []))
    else match ParamCheck(ps[0])
      case Some(e) => Failure(e)
      case None =>
        match Scan(ps[1..])
        case Failure(e) => Failure(e)
        case Success(c) =>
          Success(Columns([ParamType(ps[0])] + c.argtypes, [EncodeFlag(ps[0])] + c.paramflags))
  }

  /** The scan stops at the first failing parameter and reports that parameter's error. */
  lemma {:induction false} ScanFailsAtFirst(ps: seq<Param>, i: int)
    requires FirstFailing(ps, i)
    ensures Scan(ps) == Failure(ParamCheck(ps[i]).value)
    decreases i
  {
    if i > 0 {
      assert WellFormed(ps[0]);
      assert FirstFailing(ps[1..], i - 1) by {
        forall j | 0 <= j < i - 1 ensures WellFormed(ps[1..][j]) {
          assert ps[1..][j] == ps[j + 1];
        }
      }
      ScanFailsAtFirst(ps[1..], i - 1);
    }
  }

  /** The result of `_ctypes_metadata` for a signature. */
  function MetadataOf(sig: Signature): Result<Metadata, MetadataError> {
    match sig.returnAnnotation
    case None => Failure(MissingReturnAnnotation)
    case Some(restype) =>
      match Scan(sig.params)
      case Failure(e) => Failure(e)
      case Success(c) => Success(Metadata(restype, c.argtypes, c.paramflags))
  }

  /** What the derivation promises: a missing return annotation is reported before any
      parameter is looked at; otherwise the first failing parameter decides the error;
      otherwise the metadata has one type and one flags entry per parameter, in
      declaration order. */
  lemma MetadataSpec(sig: Signature)
    ensures sig.returnAnnotation.None? ==> MetadataOf(sig) == Failure(MissingReturnAnnotation)
    ensures forall i :: sig.returnAnnotation.Some? && FirstFailing(sig.params, i) ==>
      MetadataOf(sig) == Failure(ParamCheck(sig.params[i]).value)
    ensures MetadataOf(sig).Success? <==>
      sig.returnAnnotation.Some? && forall i :: 0 <= i < |sig.params| ==> WellFormed(sig.params[i])
    ensures MetadataOf(sig).Success? ==>
      var m := MetadataOf(sig).value;
      && m.restype == sig.returnAnnotation.value
      && |m.argtypes| == |m.paramflags| == |sig.params|
      && forall i :: 0 <= i < |sig.params| ==>
           m.argtypes[i] == ParamType(sig.params[i]) && m.paramflags[i] == EncodeFlag(sig.params[i])
  {
    forall i | sig.returnAnnotation.Some? && FirstFailing(sig.params, i)
      ensures MetadataOf(sig) == Failure(ParamCheck(sig.params[i]).value)
    {
      ScanFailsAtFirst(sig.params, i);
    }
  }

  /** The TypeError a failed derivation raises carries the source's text: the return
      annotation's message, or else the message of the first failing check of the first
      failing parameter, naming that parameter. */
  lemma FailureMessage(sig: Signature, i: int)
    ensures sig.returnAnnotation.None? ==>
      MetadataOf(sig).Failure? && Message(MetadataOf(sig).error) == "missing return type annotation"
    ensures sig.returnAnnotation.Some? && FirstFailing(sig.params, i) ==>
      && MetadataOf(sig).Failure?
      && Message(MetadataOf(sig).error) ==
           if sig.params[i].annotation.Missing? then "missing annotation on parameter " + sig.params[i].name
           else if sig.params[i].annotation.Malformed? then "incorrect annotation on parameter " + sig.params[i].name
           else "incorrect kind of parameter " + sig.params[i].name
  {
    MetadataSpec(sig);
  }

  /** `_ctypes_metadata`: check the return annotation, then walk the parameters once,
      raising on the first bad one and appending a type and a flags entry for each good one. */
  method CtypesMetadata(sig: Signature) returns (r: Result<Metadata, MetadataError>)
    ensures r == MetadataOf(sig)
  {
    if sig.returnAnnotation.None? {
      return Failure(MissingReturnAnnotation);
    }
    var restype := sig.returnAnnotation.value;
    var argtypes: seq<CType> := [];
    var paramflags: seq<ParamFlag> := [];
    for i := 0 to |sig.params|
      invariant |argtypes| == i && |paramflags| == i
      invariant forall j :: 0 <= j < i ==> WellFormed(sig.params[j])
      invariant forall j :: 0 <= j < i ==>
        argtypes[j] == ParamType(sig.params[j]) && paramflags[j] == EncodeFlag(sig.params[j])
    {
      var param := sig.params[i];
      if param.annotation.Missing? {
        ScanFailsAtFirst(sig.params, i);
        return Failure(MissingAnnotation(param.name));
      }
      if param.annotation.Malformed? {
        ScanFailsAtFirst(sig.params, i);
        return Failure(IncorrectAnnotation(param.name));
      }
      if param.kind != PositionalOrKeyword {
        ScanFailsAtFirst(sig.params, i);
        return Failure(IncorrectKind(param.name));
      }
      var paramFlags, paramType, paramDefault;
      if param.annotation.Pair? {
        paramFlags, paramType, paramDefault := param.annotation.flag, param.annotation.ctype, param.default;
      } else {
        paramFlags, paramType, paramDefault := param.annotation.flag, param.annotation.ctype, Some(param.annotation.default);
      }
      if paramDefault.Some? {
        if paramFlags == IN && EqualsZero(paramDefault.value) {
          paramflags := paramflags + [Flag(IN + ZERO, param.name)];
        } else {
          paramflags := paramflags + [FlagWithDefault(paramFlags, param.name, paramDefault.value)];
        }
      } else {
        paramflags := paramflags + [Flag(paramFlags, param.name)];
      }
      argtypes := argtypes + [paramType];
    }
    var c := Scan(sig.params).value;
    assert c.argtypes == argtypes;
    assert c.paramflags == paramflags;
    return Success(Metadata(restype, argtypes, paramflags));
  }

  /** The `name_or_ordinal` argument of the binding decorator. */
  datatype NameOrOrdinal = Unset | Name(s: string) | Ordinal(n: int)

  /** Python truthiness: None, "" and 0 are false. */
  predicate Truthy(x: NameOrOrdinal) {
    match x
    case Unset => false
    case Name(s) => s != ""
    case Ordinal(n) => n != 0
  }

  /** The symbol a stub binds to: `name_or_ordinal or fn.__name__`. */
  function SymbolFor(nameOrOrdinal: NameOrOrdinal, fnName: string): (r: NameOrOrdinal)
    ensures Truthy(nameOrOrdinal) ==> r == nameOrOrdinal
    ensures !Truthy(nameOrOrdinal) ==> r == Name(fnName)
    ensures Truthy(r) <==> Truthy(nameOrOrdinal) || fnName != ""
  {
    if Truthy(nameOrOrdinal) then nameOrOrdinal else Name(fnName)
  }

  /** The prototype's type list: the return type, then the argument types. */
  function Prototype(m: Metadata): (proto: seq<CType>)
    ensures |proto| == |m.argtypes| + 1 && proto[0] == m.restype
    ensures forall i :: 0 <= i < |m.argtypes| ==> proto[i + 1] == m.argtypes[i]
  {
    [m.restype] + m.argtypes
  }

  /** A stub: the declared function's name and its annotated signature. */
  datatype Stub = Stub(name: string, signature: Signature)

  /** What a bound function is made of: the library, the symbol, the prototype and the flags. */
  datatype BoundFunction = BoundFunction(
    library: string, symbol: NameOrOrdinal, prototype: seq<CType>, paramflags: seq<ParamFlag>)

  /** `Function(library, name_or_ordinal)(fn)`, except for the marshalling itself. */
  function Bind(library: string, nameOrOrdinal: NameOrOrdinal, fn: Stub): Result<BoundFunction, MetadataError> {
    match MetadataOf(fn.signature)
    case Failure(e) => Failure(e)
    case Success(m) =>
      Success(BoundFunction(library, SymbolFor(nameOrOrdinal, fn.name), Prototype(m), m.paramflags))
  }

  /** Binding fails exactly when the derivation does, with the same error; a bound
      function's prototype lists the return type and then one type per declared
      parameter, and its flags table has one entry per declared parameter. */
  lemma BindSpec(library: string, nameOrOrdinal: NameOrOrdinal, fn: Stub)
    ensures Bind(library, nameOrOrdinal, fn).Failure? <==> MetadataOf(fn.signature).Failure?
    ensures Bind(library, nameOrOrdinal, fn).Failure? ==>
      Bind(library, nameOrOrdinal, fn).error == MetadataOf(fn.signature).error
    ensures Bind(library, nameOrOrdinal, fn).Success? ==>
      var b := Bind(library, nameOrOrdinal, fn).value;
      var ps := fn.signature.params;
      && b.library == library
      && b.symbol == SymbolFor(nameOrOrdinal, fn.name)
      && |b.prototype| == |ps| + 1 && |b.paramflags| == |ps|
      && b.prototype[0] == fn.signature.returnAnnotation.value
      && forall i :: 0 <= i < |ps| ==>
           b.prototype[i + 1] == ParamType(ps[i]) && b.paramflags[i] == EncodeFlag(ps[i])
  {
    MetadataSpec(fn.signature);
  }

  /** A named constant that stands in for its value in foreign calls. */
  datatype Macro = Macro(name: string, value: PyValue)

  /** `_as_parameter_`: what a foreign call receives in place of the macro. */
  function AsParameter(m: Macro): PyValue {
    m.value
  }

  /** `str(m)`: the value's text alone. */
  function MacroStr(m: Macro): string {
    Str(m.value)
  }

  /** `repr(m)`: `<name: repr(value)>`. */
  function MacroRepr(m: Macro): string {
    "<" + m.name + ": " + Repr(m.value) + ">"
  }

  /** A macro is transparent: a call gets its value, `str` gives the value's text, and
      `repr` splits back into the name and the value's repr between fixed delimiters. */
  lemma MacroViews(m: Macro)
    ensures AsParameter(m) == m.value
    ensures MacroStr(m) == Str(AsParameter(m))
    ensures var r := MacroRepr(m); var n := |m.name|;
      && |r| == n + |Repr(m.value)| + 4
      && r[0] == '<' && r[|r| - 1] == '>'
      && r[1..n + 1] == m.name && r[n + 1..n + 3] == ": "
      && r[n + 3..|r| - 1] == Repr(m.value)
  {
  }

  /** For an integer macro, `int(str(m))` recovers the value. */
  lemma IntMacroStrRoundTrip(name: string, i: int)
    ensures ParseInt(MacroStr(Macro(name, PyInt(i)))) == Some(i)
  {
    IntStrRoundTrip(i);
  }
}
