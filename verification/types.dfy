/** The text `visitAnyType` writes for a type (the same in both printer
  * generations, except that only KotlinMetadataPrinter marks definitely
  * non-null types with ` & Any`): function types in arrow syntax, every
  * other type by name with its arguments in angle brackets. */
module Types {
  import opened Results
  import opened Text
  import opened Flags
  import opened Frames
  import Names
  import NameContext

  /** KotlinConstants.NAME_KOTLIN_FUNCTION. */
  const NAME_KOTLIN_FUNCTION: string := "kotlin/Function"

  /** Integer.MAX_VALUE, the largest arity `Integer.parseInt` accepts. */
  const INT_MAX: nat := 0x7fff_ffff

  datatype Variance = Invariant | In | Out

  /** The variance keyword; none for an invariant or missing variance. */
  function VarianceText(variance: Option<Variance>): (r: string)
    ensures r == "" <==> variance.None? || variance.value == Invariant
  {
    match variance
    case None => ""
    case Some(Invariant) => ""
    case Some(In) => "in "
    case Some(Out) => "out "
  }

  /** A type node. `annotationText` is what the annotation printer wrote for
    * the type's annotations other than `ExtensionFunctionType` (which sets
    * `isExtensionFunctionType`) and `ParameterName` (whose `name` argument
    * is `parameterName`, empty when absent). */
  datatype KmType = KmType(
    className: Option<string>,
    aliasName: Option<string>,
    typeParamId: int,
    flags: TypeFlags,
    variance: Option<Variance>,
    annotationText: string,
    isExtensionFunctionType: bool,
    parameterName: string,
    arguments: seq<TypeArgument>)

  datatype TypeArgument = StarProjection | Projection(projected: KmType)

  /** What the name resolver knows while a type is printed. */
  datatype Scope = Scope(frames: seq<ContextFrame>, packageName: string, typeParameters: map<int, string>)

  /** `^kotlin/Function(\d+)$` matched against the whole name. */
  predicate IsNumberedFunction(name: string)
  {
    |name| > |NAME_KOTLIN_FUNCTION| && StartsWith(name, NAME_KOTLIN_FUNCTION)
    && forall k | |NAME_KOTLIN_FUNCTION| <= k < |name| :: IsDigit(name[k])
  }

  /** The declared parameter count of a function type: the number after
    * `kotlin/Function`, or 0 when the name is not of that form;
    * `Integer.parseInt` rejects a number above `INT_MAX`. */
  function FunctionArity(name: string): (r: Result<nat>)
    ensures !IsNumberedFunction(name) ==> r == Success(0)
    ensures r.Success? ==> r.value <= INT_MAX
    ensures r.Failure? ==> r.error == NumberFormat
  {
    if IsNumberedFunction(name) then
      var n := DigitsValue(name[|NAME_KOTLIN_FUNCTION|..]);
      if n <= INT_MAX then Success(n) else Failure(NumberFormat)
    else Success(0)
  }

  /** The arity written in the name is the arity read back. */
  lemma FunctionArityRoundTrip(n: nat)
    requires n <= INT_MAX
    ensures FunctionArity(NAME_KOTLIN_FUNCTION + NatToString(n)) == Success(n)
  {
    var name := NAME_KOTLIN_FUNCTION + NatToString(n);
    assert name[|NAME_KOTLIN_FUNCTION|..] == NatToString(n);
    assert StartsWith(name, NAME_KOTLIN_FUNCTION);
    DigitsValueOfNatToString(n);
  }

  /** `kotlin/Function2147483648` overflows the parser. */
  lemma FunctionArityOverflow()
    ensures FunctionArity(NAME_KOTLIN_FUNCTION + NatToString(INT_MAX + 1)).Failure?
  {
    var name := NAME_KOTLIN_FUNCTION + NatToString(INT_MAX + 1);
    assert name[|NAME_KOTLIN_FUNCTION|..] == NatToString(INT_MAX + 1);
    assert StartsWith(name, NAME_KOTLIN_FUNCTION);
    DigitsValueOfNatToString(INT_MAX + 1);
  }

  /** What the `before` hook prints ahead of argument `i` of a function type
    * of arity `arity`: the opening parenthesis (after the receiver for an
    * extension), then the arrow before the return type or a separator. */
  function FunctionArgumentLead(i: nat, arity: nat, extension: bool): string
  {
    (if i == 0 && !extension then "(" else if i == 1 && extension then ".(" else "")
    + (if i == arity then ") -> " else if (i > 0 && !extension) || (i > 1 && extension) then ", " else "")
  }

  /** The first `k` arguments of a function type, each after its lead. */
  function FunctionArguments(args: seq<string>, k: nat, arity: nat, extension: bool): string
    requires k <= |args|
  {
    if k == 0 then ""
    else FunctionArguments(args, k - 1, arity, extension) + FunctionArgumentLead(k - 1, arity, extension) + args[k - 1]
  }

  /** A function type in arrow syntax, in parentheses when nullable. */
  function FunctionTypeText(args: seq<string>, arity: nat, extension: bool, nullable: bool): (r: string)
    ensures nullable ==> r == "(" + FunctionTypeText(args, arity, extension, false) + ")?"
    ensures !nullable ==> r == FunctionArguments(args, |args|, arity, extension)
    decreases if nullable then 1 else 0
  {
    (if nullable then "(" else "") + FunctionArguments(args, |args|, arity, extension) + (if nullable then ")?" else "")
  }

  /** The type arguments of any other type: `<`, the arguments separated by
    * `", "`, and `>` after the last (none when there are no arguments). */
  function GenericArguments(args: seq<string>, k: nat): string
    requires k <= |args|
  {
    if k == 0 then ""
    else GenericArguments(args, k - 1) + (if k - 1 == 0 then "<" else ", ") + args[k - 1]
         + (if k - 1 == |args| - 1 then ">" else "")
  }

  /** The name printed for a type that is not a function type: its type
    * parameter, else its alias, else its class; a type with neither alias
    * nor class fails on `requireNonNull`. */
  function TypeName(scope: Scope, t: KmType): (r: Result<string>)
    requires Names.ScopeFrames(scope.frames)
    ensures r.Failure? <==> t.typeParamId < 0 && t.aliasName.None? && t.className.None?
    ensures t.typeParamId >= 0 && t.typeParamId !in scope.typeParameters ==>
      r == Success(NameContext.UnknownTypeParameter(t.typeParamId))
  {
    if t.typeParamId >= 0 then
      Success(if t.typeParamId in scope.typeParameters then scope.typeParameters[t.typeParamId]
              else NameContext.UnknownTypeParameter(t.typeParamId))
    else if t.aliasName.Some? then Success(Names.ClassName(scope.frames, scope.packageName, t.aliasName.value, "."))
    else if t.className.Some? then Success(Names.ClassName(scope.frames, scope.packageName, t.className.value, "."))
    else Failure(NullPointer)
  }

  predicate IsFunctionType(t: KmType)
  {
    t.className.Some? && StartsWith(t.className.value, NAME_KOTLIN_FUNCTION)
  }

  /** What precedes the type proper: annotations, flags, the parameter name
    * of a function-type parameter, and the variance. */
  function TypeLead(t: KmType): string
  {
    t.annotationText + KeywordsText(Printed(TypeTable(t.flags)))
    + (if t.parameterName != "" then t.parameterName + ": " else "") + VarianceText(t.variance)
  }

  /** ` & Any` after a definitely non-null type; KotlinSourcePrinter has no such marker. */
  function NonNullMarker(g: Generation, t: KmType): string
  {
    if g == KotlinMetadataPrinter && t.flags.isDefinitelyNonNull then " & Any" else ""
  }

  /** The full text of a type: its lead, then the function type or the named
    * type, then the non-null marker. */
  function TypeText(g: Generation, scope: Scope, t: KmType): (r: Result<string>)
    requires Names.ScopeFrames(scope.frames)
    ensures !IsFunctionType(t) && TypeName(scope, t).Failure? ==> r.Failure?
    ensures IsFunctionType(t) && FunctionArity(t.className.value).Failure? ==> r == Failure(NumberFormat)
    ensures r.Success? ==> StartsWith(r.value, TypeLead(t))
    decreases t, |t.arguments| + 1
  {
    if IsFunctionType(t) then
      var arity :- FunctionArity(t.className.value);
      var args :- ArgumentTexts(g, scope, t, 0);
      var text := FunctionTypeText(args, arity, t.isExtensionFunctionType, t.flags.isNullable);
      ConcatEnds(TypeLead(t), text, NonNullMarker(g, t));
      Success(TypeLead(t) + text + NonNullMarker(g, t))
    else
      var name :- TypeName(scope, t);
      var args :- ArgumentTexts(g, scope, t, 0);
      var mark := if t.flags.isNullable then "?" else "";
      ConcatEnds(TypeLead(t), name, mark);
      PrefixExtended(TypeLead(t) + name + mark, TypeLead(t), NonNullMarker(g, t));
      PrefixExtended(TypeLead(t) + name + mark + NonNullMarker(g, t), TypeLead(t), GenericArguments(args, |args|));
      Success(TypeLead(t) + name + mark + NonNullMarker(g, t) + GenericArguments(args, |args|))
  }

  /** The texts of the arguments of `t` from index `i` on. */
  function ArgumentTexts(g: Generation, scope: Scope, t: KmType, i: nat): (r: Result<seq<string>>)
    requires Names.ScopeFrames(scope.frames) && i <= |t.arguments|
    ensures r.Success? ==> |r.value| == |t.arguments| - i
    decreases t, |t.arguments| - i
  {
    if i == |t.arguments| then Success([])
    else
      var head :- match t.arguments[i]
        case StarProjection => Success("*")
        case Projection(u) => TypeText(g, scope, u);
      var rest :- ArgumentTexts(g, scope, t, i + 1);
      Success([head] + rest)
  }

  lemma Regroup3(a: string, b: string, c: string, d: string)
    ensures a + b + (c + d) == a + (b + c) + d
  {
  }

  /** Up to the arity, a plain function type's arguments are the opening
    * parenthesis and the parameters separated by `", "`. */
  lemma {:induction false} PlainParameters(args: seq<string>, k: nat, arity: nat)
    requires 1 <= k <= arity && k <= |args|
    ensures FunctionArguments(args, k, arity, false) == "(" + Join(args[..k], ", ")
  {
    if k == 1 {
      assert FunctionArguments(args, 0, arity, false) == "";
      assert FunctionArgumentLead(0, arity, false) == "(";
      assert args[..1] == [args[0]];
    } else {
      PlainParameters(args, k - 1, arity);
      PlainStep(args, k, arity, Join(args[..k - 1], ", "));
    }
  }

  /** One step of `PlainParameters`: a separator, then the next parameter. */
  lemma PlainStep(args: seq<string>, k: nat, arity: nat, joined: string)
    requires 2 <= k <= arity && k <= |args|
    requires joined == Join(args[..k - 1], ", ")
    requires FunctionArguments(args, k - 1, arity, false) == "(" + joined
    ensures FunctionArguments(args, k, arity, false) == "(" + Join(args[..k], ", ")
  {
    assert FunctionArgumentLead(k - 1, arity, false) == ", ";
    JoinExtend(args, k, ", ");
    Regroup3("(", joined, ", ", args[k - 1]);
  }

  /** `kotlin/FunctionN<A, B, R>` reads `(A, B) -> R`: the first N arguments
    * are the parameters and the last is the return type. */
  lemma PlainFunctionType(args: seq<string>, arity: nat, nullable: bool)
    requires |args| == arity + 1
    ensures FunctionTypeText(args, arity, false, nullable)
         == (if nullable then "(" else "") + "(" + Join(args[..arity], ", ") + ") -> " + args[arity]
            + (if nullable then ")?" else "")
  {
    PlainArrow(args, arity);
    var open := if nullable then "(" else "";
    var close := if nullable then ")?" else "";
    var joined := Join(args[..arity], ", ");
    assert FunctionTypeText(args, arity, false, nullable) == open + FunctionArguments(args, |args|, arity, false) + close;
    Associative(open, "(" + joined + ") -> ", args[arity]);
    Associative(open, "(" + joined, ") -> ");
    Associative(open, "(", joined);
  }

  lemma PlainArrow(args: seq<string>, arity: nat)
    requires |args| == arity + 1
    ensures FunctionArguments(args, |args|, arity, false) == "(" + Join(args[..arity], ", ") + ") -> " + args[arity]
  {
    if arity == 0 {
      assert FunctionArguments(args, 0, arity, false) == "";
      assert FunctionArgumentLead(0, 0, false) == "(" + ") -> ";
      assert args[..0] == [];
    } else {
      PlainParameters(args, arity, arity);
      ArrowStep(args, arity, false, "(" + Join(args[..arity], ", "));
    }
  }

  /** The last argument of a function type is the return type, after the arrow. */
  lemma ArrowStep(args: seq<string>, arity: nat, extension: bool, front: string)
    requires |args| == arity + 1 && arity >= 1 && (extension ==> arity >= 2)
    requires FunctionArguments(args, arity, arity, extension) == front
    ensures FunctionArguments(args, |args|, arity, extension) == front + ") -> " + args[arity]
  {
    assert FunctionArgumentLead(arity, arity, extension) == ") -> ";
  }

  /** With the extension marker the first argument is the receiver. */
  lemma {:induction false} ReceiverParameters(args: seq<string>, k: nat, arity: nat)
    requires 1 <= k <= arity && k <= |args|
    ensures FunctionArguments(args, k, arity, true)
         == args[0] + (if k > 1 then ".(" + Join(args[1..k], ", ") else "")
  {
    if k == 1 {
      assert FunctionArguments(args, 0, arity, true) == "";
      assert FunctionArgumentLead(0, arity, true) == "";
    } else if k == 2 {
      ReceiverParameters(args, 1, arity);
      assert FunctionArgumentLead(1, arity, true) == ".(";
      assert args[1..2] == [args[1]];
    } else {
      ReceiverParameters(args, k - 1, arity);
      ReceiverStep(args, k, arity, Join(args[1..k - 1], ", "));
    }
  }

  /** One step of `ReceiverParameters` past the first parameter. */
  lemma ReceiverStep(args: seq<string>, k: nat, arity: nat, joined: string)
    requires 3 <= k <= arity && k <= |args|
    requires joined == Join(args[1..k - 1], ", ")
    requires FunctionArguments(args, k - 1, arity, true) == args[0] + (".(" + joined)
    ensures FunctionArguments(args, k, arity, true) == args[0] + (".(" + Join(args[1..k], ", "))
  {
    assert FunctionArgumentLead(k - 1, arity, true) == ", ";
    JoinExtendSlice(args, 1, k, ", ");
    var prev := FunctionArguments(args, k - 1, arity, true);
    assert FunctionArguments(args, k, arity, true) == prev + ", " + args[k - 1];
    Regroup3(args[0] + ".(", joined, ", ", args[k - 1]);
  }

  /** `@ExtensionFunctionType kotlin/FunctionN<T, A, R>` reads `T.(A) -> R`. */
  lemma ExtensionFunctionType(args: seq<string>, arity: nat, nullable: bool)
    requires |args| == arity + 1 && arity >= 1
    ensures FunctionTypeText(args, arity, true, nullable)
         == (if nullable then "(" else "") + args[0] + ".(" + Join(args[1..arity], ", ") + ") -> " + args[arity]
            + (if nullable then ")?" else "")
  {
    ExtensionArrow(args, arity);
    var open := if nullable then "(" else "";
    var close := if nullable then ")?" else "";
    var joined := Join(args[1..arity], ", ");
    assert FunctionTypeText(args, arity, true, nullable) == open + FunctionArguments(args, |args|, arity, true) + close;
    Associative(open, args[0] + ".(" + joined + ") -> ", args[arity]);
    Associative(open, args[0] + ".(" + joined, ") -> ");
    Associative(open, args[0] + ".(", joined);
    Associative(open, args[0], ".(");
  }

  lemma ExtensionArrow(args: seq<string>, arity: nat)
    requires |args| == arity + 1 && arity >= 1
    ensures FunctionArguments(args, |args|, arity, true)
         == args[0] + ".(" + Join(args[1..arity], ", ") + ") -> " + args[arity]
  {
    ReceiverParameters(args, arity, arity);
    if arity == 1 {
      assert FunctionArgumentLead(1, 1, true) == ".(" + ") -> ";
      assert args[1..1] == [];
    } else {
      ArrowStep(args, arity, true, args[0] + (".(" + Join(args[1..arity], ", ")));
      assert args[0] + (".(" + Join(args[1..arity], ", ")) == args[0] + ".(" + Join(args[1..arity], ", ");
    }
  }

  /** Type arguments read `<A, B>`; a type without arguments gets no brackets. */
  lemma {:induction false} GenericArgumentsJoined(args: seq<string>, k: nat)
    requires k <= |args|
    ensures GenericArguments(args, k)
         == if k == 0 then "" else "<" + Join(args[..k], ", ") + (if k == |args| then ">" else "")
  {
    if k == 1 {
      assert GenericArguments(args, 0) == "";
      assert args[..1] == [args[0]];
    } else if k > 1 {
      GenericArgumentsJoined(args, k - 1);
      JoinExtend(args, k, ", ");
      Regroup3("<", Join(args[..k - 1], ", "), ", ", args[k - 1]);
    }
  }

  /** `kotlin/FunctionN` with N parameter types and a return type prints in
    * arrow syntax, in parentheses when nullable. */
  lemma NumberedFunctionType(g: Generation, scope: Scope, t: KmType, n: nat, args: seq<string>)
    requires Names.ScopeFrames(scope.frames)
    requires t.className == Some(NAME_KOTLIN_FUNCTION + NatToString(n)) && n <= INT_MAX
    requires !t.isExtensionFunctionType
    requires ArgumentTexts(g, scope, t, 0) == Success(args) && |args| == n + 1
    ensures TypeText(g, scope, t) == Success(TypeLead(t)
      + ((if t.flags.isNullable then "(" else "") + "(" + Join(args[..n], ", ") + ") -> " + args[n]
         + (if t.flags.isNullable then ")?" else ""))
      + NonNullMarker(g, t))
  {
    FunctionArityRoundTrip(n);
    assert StartsWith(t.className.value, NAME_KOTLIN_FUNCTION);
    PlainFunctionType(args, n, t.flags.isNullable);
    var open, close := if t.flags.isNullable then "(" else "", if t.flags.isNullable then ")?" else "";
    var ft := FunctionTypeText(args, n, false, t.flags.isNullable);
    assert TypeText(g, scope, t) == Success(TypeLead(t) + ft + NonNullMarker(g, t));
    assert ft == open + "(" + Join(args[..n], ", ") + ") -> " + args[n] + close;
  }

  /** The two generations print the same text for a type without arguments,
    * except for KotlinMetadataPrinter's ` & Any` on definitely non-null types. */
  lemma DefinitelyNonNullMarker(scope: Scope, t: KmType)
    requires Names.ScopeFrames(scope.frames) && t.arguments == []
    ensures TypeText(KotlinSourcePrinter, scope, t).Failure? <==> TypeText(KotlinMetadataPrinter, scope, t).Failure?
    ensures TypeText(KotlinSourcePrinter, scope, t).Success? ==>
      TypeText(KotlinMetadataPrinter, scope, t).value
      == TypeText(KotlinSourcePrinter, scope, t).value + (if t.flags.isDefinitelyNonNull then " & Any" else "")
  {
    assert ArgumentTexts(KotlinSourcePrinter, scope, t, 0) == Success([]);
    assert ArgumentTexts(KotlinMetadataPrinter, scope, t, 0) == Success([]);
    assert GenericArguments([], 0) == "";
  }
}
