/** The annotations stored in Kotlin metadata, as the older generation
  * prints them: through `KotlinAnnotationPrinter` for type, type-parameter
  * and type-alias annotations, and through `printKotlinAnnotation` for the
  * annotations the source printer visits itself. */
module KotlinAnnotations {
  import opened Results
  import opened Text
  import opened Frames
  import opened Names
  import opened Output
  import opened NameContext

  newtype int8 = x: int | -0x80 <= x < 0x80
  newtype int16 = x: int | -0x8000 <= x < 0x8000
  newtype int32 = x: int | -0x8000_0000 <= x < 0x8000_0000
  newtype int64 = x: int | -0x8000_0000_0000_0000 <= x < 0x8000_0000_0000_0000

  /** A literal argument, printed with Java's `toString`. Integral values of
    * every width are numbers; floating-point values come pre-rendered. */
  datatype Literal =
    | BooleanLiteral(truth: bool)
    | CharLiteral(character: char)
    | IntegralLiteral(number: int)
    | FloatingLiteral(rendered: string)

  /** The value of a metadata annotation argument. Unsigned values are held
    * in the signed Java type of their width. */
  datatype ArgumentValue =
    | LiteralValue(literal: Literal)
    | UByteValue(byteBits: int8)
    | UShortValue(shortBits: int16)
    | UIntValue(intBits: int32)
    | ULongValue(longBits: int64)
    | StringValue(text: string)
    | ClassValue(className: string, arrayDimensionsCount: nat)
    | EnumValue(enumClassName: string, enumEntryName: string)
    | AnnotationValue(annotation: MetadataAnnotation)
    | ArrayValue(members: seq<ArgumentValue>)

  datatype Argument = Argument(name: string, value: ArgumentValue)

  /** An annotation in metadata: its class, by internal name, and its arguments. */
  datatype MetadataAnnotation = MetadataAnnotation(className: string, arguments: seq<Argument>)

  /** The value of a two's-complement `bits` pattern read as unsigned:
    * `Byte.toUnsignedInt`, `Short.toUnsignedInt`, `Integer.toUnsignedString`
    * and `Long.toUnsignedString` for moduli 2^8, 2^16, 2^32 and 2^64. */
  function ToUnsigned(bits: int, modulus: nat): (r: nat)
    requires modulus > 0 && -(modulus / 2) <= bits < modulus / 2
    ensures r < modulus && (r - bits) % modulus == 0
    ensures bits >= 0 ==> r == bits
  {
    if bits < 0 then bits + modulus else bits
  }

  /** The signed Java value stored for an unsigned one. */
  function ToSigned(value: nat, modulus: nat): (r: int)
    requires modulus > 0 && value < modulus
    ensures -(modulus / 2) <= r < modulus - modulus / 2
  {
    if value >= modulus - modulus / 2 then value - modulus else value
  }

  /** Reading the bits as unsigned loses nothing: the signed value comes back,
    * and every unsigned value of the width is reached. */
  lemma UnsignedRoundTrip(bits: int, value: nat, modulus: nat)
    requires modulus > 0 && modulus % 2 == 0
    requires -(modulus / 2) <= bits < modulus / 2 && value < modulus
    ensures ToSigned(ToUnsigned(bits, modulus), modulus) == bits
    ensures ToUnsigned(ToSigned(value, modulus), modulus) == value
  {
  }

  /** `toString` of a literal. */
  function LiteralText(l: Literal): (r: string)
    ensures l.IntegralLiteral? ==> r != "" && (l.number < 0 <==> r[0] == '-')
  {
    match l
    case BooleanLiteral(b) => if b then "true" else "false"
    case CharLiteral(c) => [c]
    case IntegralLiteral(n) => IntToString(n)
    case FloatingLiteral(s) => s
  }

  /** `"Array<"` once per array dimension around the class name, and as many `>`. */
  function ArrayWrapped(className: string, dimensions: nat): (r: string)
    ensures |r| == |className| + 7 * dimensions
  {
    Repeat("Array<", dimensions) + className + Repeat(">", dimensions)
  }

  lemma {:induction false} RepeatInFront(s: string, n: nat)
    ensures s + Repeat(s, n) == Repeat(s, n + 1)
  {
    if n > 0 {
      RepeatInFront(s, n - 1);
      assert s + Repeat(s, n) == s + Repeat(s, n - 1) + s;
    }
  }

  /** Each array dimension adds one `Array<…>` around the ones inside it. */
  lemma ArrayWrappedNests(className: string, dimensions: nat)
    ensures ArrayWrapped(className, 0) == className
    ensures ArrayWrapped(className, dimensions + 1) == "Array<" + ArrayWrapped(className, dimensions) + ">"
  {
    RepeatInFront("Array<", dimensions);
    var inner := ArrayWrapped(className, dimensions);
    assert Repeat("Array<", dimensions + 1) + className + Repeat(">", dimensions + 1)
        == ("Array<" + Repeat("Array<", dimensions)) + className + (Repeat(">", dimensions) + ">");
    assert "" + className + "" == className;
  }

  /** `", "` goes before an argument unless it directly follows the `(` of
    * an annotation or the `[` of an array. */
  function Separator(previous: char): (r: string)
    ensures r == "" <==> previous == '(' || previous == '['
  {
    if previous != '(' && previous != '[' then ", " else ""
  }


  /** The text of a value that holds no other value. */
  function ScalarText(frames: seq<ContextFrame>, packageName: string, v: ArgumentValue): (r: string)
    requires ScopeFrames(frames) && !v.AnnotationValue? && !v.ArrayValue?
    ensures v.StringValue? ==> |r| == |v.text| + 2 && r[0] == '"' && r[|r| - 1] == '"' && r[1..|r| - 1] == v.text
    ensures v.EnumValue? ==> EndsWith(r, "." + v.enumEntryName)
    ensures v.ClassValue? ==> EndsWith(r, "::class") && StartsWith(r, Repeat("Array<", v.arrayDimensionsCount))
  {
    match v
    case LiteralValue(l) => LiteralText(l)
    case UByteValue(b) => NatToString(ToUnsigned(b as int, 0x100))
    case UShortValue(s) => NatToString(ToUnsigned(s as int, 0x1_0000))
    case UIntValue(i) => NatToString(ToUnsigned(i as int, 0x1_0000_0000))
    case ULongValue(l) => NatToString(ToUnsigned(l as int, 0x1_0000_0000_0000_0000))
    case StringValue(s) => QuotedText(s)
    case ClassValue(c, n) => ClassArgumentText(ClassName(frames, packageName, c, "."), n)
    case EnumValue(c, entry) => EntryText(ClassName(frames, packageName, c, "."), entry)
  }

  /** A string argument between double quotes, as the printer writes it. */
  function QuotedText(s: string): (r: string)
    ensures |r| == |s| + 2 && r[0] == '"' && r[|r| - 1] == '"' && r[1..|r| - 1] == s
  {
    var quoted := "\"" + s + "\"";
    assert quoted[1..|quoted| - 1] == s;
    quoted
  }

  /** An enum argument: its class, `.` and the entry's name. */
  function EntryText(className: string, entry: string): (r: string)
    ensures EndsWith(r, "." + entry)
  {
    ConcatEnds("", className, "." + entry);
    assert "" + className + ("." + entry) == className + ("." + entry);
    className + ("." + entry)
  }

  /** An unsigned argument prints as the decimal digits of its unsigned value. */
  lemma UnsignedPrinted(frames: seq<ContextFrame>, packageName: string, v: ArgumentValue)
    requires ScopeFrames(frames) && (v.UByteValue? || v.UShortValue? || v.UIntValue? || v.ULongValue?)
    ensures var modulus := if v.UByteValue? then 0x100 else if v.UShortValue? then 0x1_0000
                           else if v.UIntValue? then 0x1_0000_0000 else 0x1_0000_0000_0000_0000;
            var bits := if v.UByteValue? then v.byteBits as int else if v.UShortValue? then v.shortBits as int
                        else if v.UIntValue? then v.intBits as int else v.longBits as int;
            var text := ScalarText(frames, packageName, v);
            (forall k | 0 <= k < |text| :: IsDigit(text[k]))
            && DigitsValue(text) < modulus && ToSigned(DigitsValue(text), modulus) == bits
  {
    var modulus := if v.UByteValue? then 0x100 else if v.UShortValue? then 0x1_0000
                   else if v.UIntValue? then 0x1_0000_0000 else 0x1_0000_0000_0000_0000;
    var bits := if v.UByteValue? then v.byteBits as int else if v.UShortValue? then v.shortBits as int
                else if v.UIntValue? then v.intBits as int else v.longBits as int;
    DigitsValueOfNatToString(ToUnsigned(bits, modulus));
    UnsignedRoundTrip(bits, 0, modulus);
  }

  /** A class argument: the class inside one `Array<…>` per array dimension,
    * then `::class`. */
  function ClassArgumentText(className: string, n: nat): (r: string)
    ensures EndsWith(r, "::class") && StartsWith(r, Repeat("Array<", n))
  {
    Associative(Repeat("Array<", n), className, Repeat(">", n));
    ConcatEnds(Repeat("Array<", n), className + Repeat(">", n), "::class");
    ArrayWrapped(className, n) + "::class"
  }

  /** An annotation without `@`: its shortened class, then its arguments in
    * parentheses when it has any. `named` says whether array members repeat
    * the name of their argument, as the printer does. */
  function AnnotationBody(frames: seq<ContextFrame>, packageName: string, a: MetadataAnnotation, named: bool): (r: string)
    requires ScopeFrames(frames)
    ensures StartsWith(r, ClassName(frames, packageName, a.className, "."))
    ensures r != "" && r[0] != '@'
    decreases a, 1
  {
    var name := ClassName(frames, packageName, a.className, ".");
    var text := ArgumentsText(frames, packageName, a.arguments, '(', named);
    ConcatEnds(name, "(" + text, ")");
    assert (name + "(" + text + ")")[0] == name[0];
    if a.arguments == [] then name
    else name + "(" + text + ")"
  }

  /** The annotation body in its two shapes: the name alone, or the name
    * and the arguments in parentheses. */
  lemma AnnotationBodyParts(frames: seq<ContextFrame>, packageName: string, a: MetadataAnnotation, named: bool)
    requires ScopeFrames(frames)
    ensures var name := ClassName(frames, packageName, a.className, ".");
      AnnotationBody(frames, packageName, a, named)
      == if a.arguments == [] then name else name + "(" + ArgumentsText(frames, packageName, a.arguments, '(', named) + ")"
  {
  }

  /** Printing the name and then, when there are arguments, the
    * parenthesised arguments appends the annotation body. */
  lemma AnnotationBodyPrinted(frames: seq<ContextFrame>, packageName: string, a: MetadataAnnotation, b0: seq<string>, b1: seq<string>, b2: seq<string>)
    requires ScopeFrames(frames) && b0 != []
    requires b1 == Appended(b0, ClassName(frames, packageName, a.className, "."))
    requires b2 == if a.arguments == [] then b1 else Appended(b1, "(" + ArgumentsText(frames, packageName, a.arguments, '(', true) + ")")
    ensures b2 == Appended(b0, AnnotationBody(frames, packageName, a, true))
  {
    AnnotationBodyParts(frames, packageName, a, true);
    if a.arguments != [] {
      BodyWithArguments(frames, packageName, a, b0, b1, b2);
    }
  }

  /** The case with arguments, kept apart so that its proof stays small. */
  lemma BodyWithArguments(frames: seq<ContextFrame>, packageName: string, a: MetadataAnnotation, b0: seq<string>, b1: seq<string>, b2: seq<string>)
    requires ScopeFrames(frames) && b0 != [] && a.arguments != []
    requires b1 == Appended(b0, ClassName(frames, packageName, a.className, "."))
    requires b2 == Appended(b1, "(" + ArgumentsText(frames, packageName, a.arguments, '(', true) + ")")
    ensures b2 == Appended(b0, AnnotationBody(frames, packageName, a, true))
  {
    var name := ClassName(frames, packageName, a.className, ".");
    var text := ArgumentsText(frames, packageName, a.arguments, '(', true);
    AppendedTwice(b0, name, "(" + text + ")");
    AnnotationBodyParts(frames, packageName, a, true);
    Associative(name, "(", text);
    Associative(name, "(" + text, ")");
  }

  /** The arguments in order, each after the text before it, when the text
    * so far ends with `previous`. */
  function ArgumentsText(frames: seq<ContextFrame>, packageName: string, args: seq<Argument>, previous: char, named: bool): (r: string)
    requires ScopeFrames(frames)
    ensures args == [] ==> r == ""
    ensures args != [] && previous != '(' && previous != '[' ==> StartsWith(r, ", ")
    decreases args, 0
  {
    if args == [] then ""
    else
      var before := ArgumentsText(frames, packageName, args[..|args| - 1], previous, named);
      var last := args[|args| - 1];
      var text := ArgumentText(frames, packageName, last.name, last.value, LastChar(before, previous), named);
      assert before == "" && previous != '(' && previous != '[' ==> StartsWith(text, ", ") by {
        if before == "" && previous != '(' && previous != '[' {
          ConcatEnds(", ", last.name + " = ", ValueText(frames, packageName, last.name, last.value, named));
          Associative(", ", last.name, " = ");
        }
      }
      assert before != "" && StartsWith(before, ", ") ==> StartsWith(before + text, ", ") by {
        if before != "" && StartsWith(before, ", ") {
          PrefixExtended(before, ", ", text);
        }
      }
      before + text
  }

  /** `visitAnyArgument` and the value: the separator, `name = `, the value. */
  function ArgumentText(frames: seq<ContextFrame>, packageName: string, name: string, v: ArgumentValue, previous: char, named: bool): string
    requires ScopeFrames(frames)
    decreases v, 1
  {
    Separator(previous) + name + " = " + ValueText(frames, packageName, name, v, named)
  }

  /** A member of an array argument: with the argument's name when `named`,
    * as its value alone otherwise. */
  function MemberText(frames: seq<ContextFrame>, packageName: string, name: string, v: ArgumentValue, previous: char, named: bool): string
    requires ScopeFrames(frames)
    decreases v, 2
  {
    if named then ArgumentText(frames, packageName, name, v, previous, named)
    else Separator(previous) + ValueText(frames, packageName, name, v, named)
  }

  /** The members of an array argument in order. */
  function MembersText(frames: seq<ContextFrame>, packageName: string, name: string, members: seq<ArgumentValue>, previous: char, named: bool): string
    requires ScopeFrames(frames)
    decreases members, 0
  {
    if members == [] then ""
    else
      var before := MembersText(frames, packageName, name, members[..|members| - 1], previous, named);
      before + MemberText(frames, packageName, name, members[|members| - 1], LastChar(before, previous), named)
  }

  /** The value part of an argument. Nested annotations have no `@`; arrays
    * are bracketed. */
  function ValueText(frames: seq<ContextFrame>, packageName: string, name: string, v: ArgumentValue, named: bool): (r: string)
    requires ScopeFrames(frames)
    ensures v.ArrayValue? ==> |r| >= 2 && r[0] == '[' && r[|r| - 1] == ']'
    ensures v.AnnotationValue? ==> r != "" && r[0] != '@'
    decreases v, 0
  {
    match v
    case AnnotationValue(a) => AnnotationBody(frames, packageName, a, named)
    case ArrayValue(members) => "[" + MembersText(frames, packageName, name, members, '[', named) + "]"
    case _ => ScalarText(frames, packageName, v)
  }

  /** A nested annotation argument: separator, `name = ` and the body. */
  lemma AnnotationArgumentText(frames: seq<ContextFrame>, packageName: string, name: string, a: MetadataAnnotation, previous: char)
    requires ScopeFrames(frames)
    ensures ArgumentText(frames, packageName, name, AnnotationValue(a), previous, true)
         == Separator(previous) + name + " = " + AnnotationBody(frames, packageName, a, true)
  {
  }

  /** A top-level annotation as printed: `@` (indented unless inline), the
    * body, then a space when inline and a line separator otherwise. */
  function TopLevelAnnotationText(frames: seq<ContextFrame>, packageName: string, a: MetadataAnnotation, inline: bool, indentation: int): string
    requires ScopeFrames(frames)
  {
    (if inline then "" else IndentText(indentation)) + "@" + AnnotationBody(frames, packageName, a, true) + (if inline then " " else LINE_SEPARATOR)
  }

  /** A nested annotation is printed without `@`. */
  lemma NestedAnnotationHasNoAtSign(frames: seq<ContextFrame>, packageName: string, name: string, a: MetadataAnnotation)
    requires ScopeFrames(frames)
    ensures var nested := ValueText(frames, packageName, name, AnnotationValue(a), true);
            nested != "" && nested[0] != '@'
  {
    var className := ClassName(frames, packageName, a.className, ".");
    assert AnnotationBody(frames, packageName, a, true)[0] == className[0];
  }

  /** A top-level annotation starts with `@` after its indentation, and ends
    * with a space when inline and with a line separator otherwise. */
  lemma TopLevelAnnotationShape(frames: seq<ContextFrame>, packageName: string, a: MetadataAnnotation, inline: bool, indentation: int)
    requires ScopeFrames(frames)
    ensures var r := TopLevelAnnotationText(frames, packageName, a, inline, indentation);
            StartsWith(r, (if inline then "" else IndentText(indentation)) + "@")
            && EndsWith(r, if inline then " " else LINE_SEPARATOR)
  {
    var body := AnnotationBody(frames, packageName, a, true);
    var lead := (if inline then "" else IndentText(indentation)) + "@";
    var term := if inline then " " else LINE_SEPARATOR;
    assert TopLevelAnnotationText(frames, packageName, a, inline, indentation) == lead + body + term;
    ConcatEnds(lead, body, term);
  }

  /** Text that neither is empty nor ends with an opening bracket. */
  predicate Closed(text: string)
  {
    text != "" && text[|text| - 1] != '(' && text[|text| - 1] != '['
  }

  /** Joining one more closed piece keeps the text closed. */
  lemma JoinedClosed(before: string, sep: string, p: string)
    requires Closed(p)
    ensures before + (sep + p) == before + sep + p
    ensures Closed(before + (sep + p))
  {
    var r := before + (sep + p);
    assert r[|r| - 1] == p[|p| - 1];
  }

  /** An argument as it stands in the list: `name = value`. */
  function ArgumentPiece(frames: seq<ContextFrame>, packageName: string, arg: Argument, named: bool): (r: string)
    requires ScopeFrames(frames)
    ensures Closed(ValueText(frames, packageName, arg.name, arg.value, named)) ==> Closed(r)
  {
    var v := ValueText(frames, packageName, arg.name, arg.value, named);
    var r := arg.name + " = " + v;
    assert v != "" ==> r[|r| - 1] == v[|v| - 1];
    r
  }

  /** The pieces of the arguments, in order. */
  function ArgumentPieces(frames: seq<ContextFrame>, packageName: string, args: seq<Argument>, named: bool): (r: seq<string>)
    requires ScopeFrames(frames)
    ensures |r| == |args|
    ensures forall k | 0 <= k < |r| :: r[k] == ArgumentPiece(frames, packageName, args[k], named)
  {
    if args == [] then []
    else ArgumentPieces(frames, packageName, args[..|args| - 1], named) + [ArgumentPiece(frames, packageName, args[|args| - 1], named)]
  }

  /** The texts of array members, in order. */
  function MemberValues(frames: seq<ContextFrame>, packageName: string, name: string, members: seq<ArgumentValue>, named: bool): (r: seq<string>)
    requires ScopeFrames(frames)
    ensures |r| == |members|
    ensures forall k | 0 <= k < |r| :: r[k] == ValueText(frames, packageName, name, members[k], named)
  {
    if members == [] then []
    else MemberValues(frames, packageName, name, members[..|members| - 1], named) + [ValueText(frames, packageName, name, members[|members| - 1], named)]
  }

  /** An argument reads as its separator and its piece. */
  lemma ArgumentTextIsPiece(frames: seq<ContextFrame>, packageName: string, arg: Argument, previous: char, named: bool)
    requires ScopeFrames(frames)
    ensures ArgumentText(frames, packageName, arg.name, arg.value, previous, named)
         == Separator(previous) + ArgumentPiece(frames, packageName, arg, named)
  {
    var v := ValueText(frames, packageName, arg.name, arg.value, named);
    var separator := Separator(previous);
    assert ArgumentPiece(frames, packageName, arg, named) == arg.name + " = " + v;
    assert ArgumentText(frames, packageName, arg.name, arg.value, previous, named) == separator + arg.name + " = " + v;
    Associative(separator, arg.name, " = ");
    Associative(separator, arg.name + " = ", v);
  }

  /** When no value reads as empty or ends with an opening bracket, the
    * arguments after `(` are their `name = value` pieces separated by `", "`. */
  lemma {:induction false} ArgumentsJoined(frames: seq<ContextFrame>, packageName: string, args: seq<Argument>, named: bool)
    requires ScopeFrames(frames)
    requires forall k | 0 <= k < |args| :: Closed(ValueText(frames, packageName, args[k].name, args[k].value, named))
    ensures ArgumentsText(frames, packageName, args, '(', named) == Join(ArgumentPieces(frames, packageName, args, named), ", ")
    ensures args != [] ==> Closed(ArgumentsText(frames, packageName, args, '(', named))
  {
    if args != [] {
      var init := args[..|args| - 1];
      var last := args[|args| - 1];
      ArgumentsJoined(frames, packageName, init, named);
      var before := ArgumentsText(frames, packageName, init, '(', named);
      var p := ArgumentPiece(frames, packageName, last, named);
      assert ArgumentPieces(frames, packageName, args, named) == ArgumentPieces(frames, packageName, init, named) + [p];
      assert ArgumentsText(frames, packageName, args, '(', named)
          == before + ArgumentText(frames, packageName, last.name, last.value, LastChar(before, '('), named);
      ArgumentTextIsPiece(frames, packageName, last, LastChar(before, '('), named);
      ClosedJoinStep(ArgumentPieces(frames, packageName, init, named), before, '(', p);
    }
  }

  /** Appending one closed piece to closed, joined text adds exactly the
    * separator the printer chooses and the piece. */
  lemma ClosedJoinStep(items: seq<string>, before: string, open: char, p: string)
    requires (open == '(' || open == '[') && Closed(p)
    requires before == Join(items, ", ") && (items != [] ==> Closed(before))
    ensures before + (Separator(LastChar(before, open)) + p) == Join(items + [p], ", ")
    ensures Closed(before + (Separator(LastChar(before, open)) + p))
  {
    var all := items + [p];
    assert all[..|all| - 1] == items;
    if items == [] {
      assert before == "" && Separator(LastChar(before, open)) == "";
      EmptySides(p);
    } else {
      JoinedClosed(before, ", ", p);
    }
  }

  /** As the printer is written, every member of an array argument repeats
    * the argument's name: `xs = [v]` prints as `xs = [xs = v]`. */
  lemma ArrayMembersRepeatName(frames: seq<ContextFrame>, packageName: string, name: string, member: ArgumentValue)
    requires ScopeFrames(frames)
    ensures ValueText(frames, packageName, name, ArrayValue([member]), true)
         == "[" + name + " = " + ValueText(frames, packageName, name, member, true) + "]"
    ensures ValueText(frames, packageName, name, ArrayValue([member]), true)
         != "[" + ValueText(frames, packageName, name, member, true) + "]"
  {
    var members := [member];
    assert members[..0] == [];
    var v := ValueText(frames, packageName, name, member, true);
    assert MembersText(frames, packageName, name, members[..0], '[', true) == "";
    assert LastChar("", '[') == '[' && Separator('[') == "";
    assert MemberText(frames, packageName, name, member, '[', true) == "" + name + " = " + v;
    assert MembersText(frames, packageName, name, members, '[', true) == "" + ("" + name + " = " + v);
    assert |"[" + name + " = " + v + "]"| > |"[" + v + "]"|;
  }

  /** With the members printed as values alone, an array argument reads
    * `[v1, v2, ...]` whenever no value is empty or ends with a bracket. */
  lemma {:induction false} IntendedArrayJoined(frames: seq<ContextFrame>, packageName: string, name: string, members: seq<ArgumentValue>)
    requires ScopeFrames(frames)
    requires forall k | 0 <= k < |members| :: Closed(ValueText(frames, packageName, name, members[k], false))
    ensures MembersText(frames, packageName, name, members, '[', false) == Join(MemberValues(frames, packageName, name, members, false), ", ")
    ensures members != [] ==> Closed(MembersText(frames, packageName, name, members, '[', false))
  {
    if members != [] {
      var init := members[..|members| - 1];
      var last := members[|members| - 1];
      IntendedArrayJoined(frames, packageName, name, init);
      var before := MembersText(frames, packageName, name, init, '[', false);
      var p := ValueText(frames, packageName, name, last, false);
      assert MemberValues(frames, packageName, name, members, false) == MemberValues(frames, packageName, name, init, false) + [p];
      assert MembersText(frames, packageName, name, members, '[', false)
          == before + MemberText(frames, packageName, name, last, LastChar(before, '['), false);
      assert MemberText(frames, packageName, name, last, LastChar(before, '['), false) == Separator(LastChar(before, '[')) + p;
      ClosedJoinStep(MemberValues(frames, packageName, name, init, false), before, '[', p);
    }
  }

  /** The arguments up to `i + 1`: those up to `i`, then argument `i`. */
  lemma ArgumentsTextStep(frames: seq<ContextFrame>, packageName: string, args: seq<Argument>, i: nat, previous: char)
    requires ScopeFrames(frames) && i < |args|
    ensures var done := ArgumentsText(frames, packageName, args[..i], previous, true);
            ArgumentsText(frames, packageName, args[..i + 1], previous, true)
            == done + ArgumentText(frames, packageName, args[i].name, args[i].value, LastChar(done, previous), true)
  {
    assert args[..i + 1][..i] == args[..i];
  }

  /** Printing argument `i` after the arguments before it leaves the
    * arguments up to `i + 1` printed. */
  lemma ArgumentsAdvance(frames: seq<ContextFrame>, packageName: string, args: seq<Argument>, i: nat, previous: char, b0: seq<string>)
    requires ScopeFrames(frames) && i < |args| && b0 != []
    ensures var done := ArgumentsText(frames, packageName, args[..i], previous, true);
            Appended(Appended(b0, done), ArgumentText(frames, packageName, args[i].name, args[i].value, LastChar(done, previous), true))
            == Appended(b0, ArgumentsText(frames, packageName, args[..i + 1], previous, true))
  {
    var done := ArgumentsText(frames, packageName, args[..i], previous, true);
    ArgumentsTextStep(frames, packageName, args, i, previous);
    AppendedTwice(b0, done, ArgumentText(frames, packageName, args[i].name, args[i].value, LastChar(done, previous), true));
  }

  /** The members up to `j + 1`: those up to `j`, then member `j`. */
  lemma MembersTextStep(frames: seq<ContextFrame>, packageName: string, name: string, members: seq<ArgumentValue>, j: nat, previous: char)
    requires ScopeFrames(frames) && j < |members|
    ensures var done := MembersText(frames, packageName, name, members[..j], previous, true);
            MembersText(frames, packageName, name, members[..j + 1], previous, true)
            == done + ArgumentText(frames, packageName, name, members[j], LastChar(done, previous), true)
  {
    assert members[..j + 1][..j] == members[..j];
  }

  /** `KmMembersTextStep` inside the braces the array branch prints first. */
  lemma BracedMembersStep(frames: seq<ContextFrame>, packageName: string, members: seq<ArgumentValue>, j: nat)
    requires ScopeFrames(frames) && j < |members|
    ensures "{" + KmMembersText(frames, packageName, members[..j + 1])
         == "{" + KmMembersText(frames, packageName, members[..j]) + (if j > 0 then ", " else "") + KmValueText(frames, packageName, members[j])
  {
    var done := KmMembersText(frames, packageName, members[..j]);
    var separator := if j > 0 then ", " else "";
    KmMembersTextStep(frames, packageName, members, j);
    Associative("{", done, separator);
    Associative("{", done + separator, KmValueText(frames, packageName, members[j]));
  }

  /** Printing member `j` after the members before it leaves the members up
    * to `j + 1` printed. */
  lemma MembersAdvance(frames: seq<ContextFrame>, packageName: string, name: string, members: seq<ArgumentValue>, j: nat, previous: char, b0: seq<string>)
    requires ScopeFrames(frames) && j < |members| && b0 != []
    ensures var done := MembersText(frames, packageName, name, members[..j], previous, true);
            Appended(Appended(b0, done), ArgumentText(frames, packageName, name, members[j], LastChar(done, previous), true))
            == Appended(b0, MembersText(frames, packageName, name, members[..j + 1], previous, true))
  {
    var done := MembersText(frames, packageName, name, members[..j], previous, true);
    MembersTextStep(frames, packageName, name, members, j, previous);
    AppendedTwice(b0, done, ArgumentText(frames, packageName, name, members[j], LastChar(done, previous), true));
  }


  /** An annotation as `printKotlinAnnotation` renders it, without `@`: the
    * shortened class, then the arguments in parentheses when there are any. */
  function KmAnnotationText(frames: seq<ContextFrame>, packageName: string, a: MetadataAnnotation): (r: string)
    requires ScopeFrames(frames)
    ensures StartsWith(r, ClassName(frames, packageName, a.className, "."))
    ensures r != "" && r[0] != '@'
    decreases a, 1
  {
    var name := ClassName(frames, packageName, a.className, ".");
    var text := KmArgumentsText(frames, packageName, a.arguments);
    ConcatEnds(name, "(" + text, ")");
    assert (name + "(" + text + ")")[0] == name[0];
    if a.arguments == [] then name
    else name + "(" + text + ")"
  }

  /** The arguments in order, `", "` before every one but the first, each
    * as its name, ` = ` and its value. */
  function KmArgumentsText(frames: seq<ContextFrame>, packageName: string, args: seq<Argument>): string
    requires ScopeFrames(frames)
    decreases args, 0
  {
    if args == [] then ""
    else
      var last := args[|args| - 1];
      KmArgumentsText(frames, packageName, args[..|args| - 1]) + (if |args| > 1 then ", " else "")
      + last.name + " = " + KmValueText(frames, packageName, last.value)
  }

  /** `printKmAnnotationArgument`: strings quoted, nested annotations without
    * `@`, classes and enum entries by shortened name, arrays in braces, and
    * everything else by its `toString`. */
  function KmValueText(frames: seq<ContextFrame>, packageName: string, v: ArgumentValue): (r: string)
    requires ScopeFrames(frames)
    ensures v.StringValue? ==> |r| == |v.text| + 2 && r[0] == '"' && r[|r| - 1] == '"' && r[1..|r| - 1] == v.text
    ensures v.ArrayValue? ==> |r| >= 2 && r[0] == '{' && r[|r| - 1] == '}'
    ensures v.AnnotationValue? ==> r != "" && r[0] != '@'
    decreases v, 0
  {
    match v
    case StringValue(s) => QuotedText(s)
    case AnnotationValue(a) => KmAnnotationText(frames, packageName, a)
    case ClassValue(c, _) => ClassName(frames, packageName, c, ".")
    case EnumValue(c, entry) => ClassName(frames, packageName, c + "." + entry, ".")
    case ArrayValue(members) => "{" + KmMembersText(frames, packageName, members) + "}"
    case _ => ScalarText(frames, packageName, v)
  }

  /** The members of an array in order, `", "` before every one but the first. */
  function KmMembersText(frames: seq<ContextFrame>, packageName: string, members: seq<ArgumentValue>): string
    requires ScopeFrames(frames)
    decreases members, 0
  {
    if members == [] then ""
    else
      KmMembersText(frames, packageName, members[..|members| - 1]) + (if |members| > 1 then ", " else "")
      + KmValueText(frames, packageName, members[|members| - 1])
  }

  /** The `name = value` pieces of the arguments, in order. */
  function KmArgumentPieces(frames: seq<ContextFrame>, packageName: string, args: seq<Argument>): (r: seq<string>)
    requires ScopeFrames(frames)
    ensures |r| == |args|
    ensures forall k | 0 <= k < |r| :: r[k] == args[k].name + " = " + KmValueText(frames, packageName, args[k].value)
  {
    if args == [] then []
    else
      var last := args[|args| - 1];
      KmArgumentPieces(frames, packageName, args[..|args| - 1]) + [last.name + " = " + KmValueText(frames, packageName, last.value)]
  }

  /** The texts of array members, in order. */
  function KmMemberValues(frames: seq<ContextFrame>, packageName: string, members: seq<ArgumentValue>): (r: seq<string>)
    requires ScopeFrames(frames)
    ensures |r| == |members|
    ensures forall k | 0 <= k < |r| :: r[k] == KmValueText(frames, packageName, members[k])
  {
    seq(|members|, k requires 0 <= k < |members| => KmValueText(frames, packageName, members[k]))
  }

  /** Counting the arguments makes the separators independent of what the
    * values print: the arguments are always their pieces joined by `", "`. */
  lemma {:induction false} KmArgumentsJoined(frames: seq<ContextFrame>, packageName: string, args: seq<Argument>)
    requires ScopeFrames(frames)
    ensures KmArgumentsText(frames, packageName, args) == Join(KmArgumentPieces(frames, packageName, args), ", ")
  {
    if args != [] {
      var init := args[..|args| - 1];
      var last := args[|args| - 1];
      KmArgumentsJoined(frames, packageName, init);
      var v := KmValueText(frames, packageName, last.value);
      var p := last.name + " = " + v;
      var before := KmArgumentsText(frames, packageName, init);
      var sep := if |args| > 1 then ", " else "";
      assert KmArgumentsText(frames, packageName, args) == before + sep + last.name + " = " + v;
      Associative(before + sep, last.name + " = ", v);
      Associative(before + sep, last.name, " = ");
      assert KmArgumentPieces(frames, packageName, args)[..|args| - 1] == KmArgumentPieces(frames, packageName, init);
      if init == [] {
        assert before + sep == "";
      }
    }
  }

  /** An array prints as its members' texts joined by `", "` in braces. */
  lemma {:induction false} KmArrayJoined(frames: seq<ContextFrame>, packageName: string, members: seq<ArgumentValue>)
    requires ScopeFrames(frames)
    ensures KmMembersText(frames, packageName, members) == Join(KmMemberValues(frames, packageName, members), ", ")
    ensures KmValueText(frames, packageName, ArrayValue(members)) == "{" + Join(KmMemberValues(frames, packageName, members), ", ") + "}"
  {
    if members != [] {
      var init := members[..|members| - 1];
      KmArrayJoined(frames, packageName, init);
      assert KmMemberValues(frames, packageName, members)[..|members| - 1] == KmMemberValues(frames, packageName, init);
      if init == [] {
        assert KmMembersText(frames, packageName, members) == KmValueText(frames, packageName, members[0]);
      }
    }
  }

  /** The arguments up to `i + 1`: those up to `i`, then argument `i` after
    * a separator unless it is the first. */
  lemma KmArgumentsTextStep(frames: seq<ContextFrame>, packageName: string, args: seq<Argument>, i: nat)
    requires ScopeFrames(frames) && i < |args|
    ensures KmArgumentsText(frames, packageName, args[..i + 1])
         == KmArgumentsText(frames, packageName, args[..i]) + (if i > 0 then ", " else "")
            + args[i].name + " = " + KmValueText(frames, packageName, args[i].value)
  {
    assert args[..i + 1][..i] == args[..i];
  }

  /** The members up to `j + 1`: those up to `j`, then member `j` after a
    * separator unless it is the first. */
  lemma KmMembersTextStep(frames: seq<ContextFrame>, packageName: string, members: seq<ArgumentValue>, j: nat)
    requires ScopeFrames(frames) && j < |members|
    ensures KmMembersText(frames, packageName, members[..j + 1])
         == KmMembersText(frames, packageName, members[..j]) + (if j > 0 then ", " else "") + KmValueText(frames, packageName, members[j])
  {
    assert members[..j + 1][..j] == members[..j];
  }

  /** The older generation's `KotlinAnnotationPrinter`: prints into the
    * source printer's buffer, shortening names in its context. `inline` is
    * set by the kind of annotation visited; `level` counts the annotations
    * being printed, so that only the outermost gets `@`. */
  class KotlinAnnotationPrinter {
    const out: OutputBuffer
    const context: Context
    var inline: bool
    var level: int

    constructor (out: OutputBuffer, context: Context)
      ensures this.out == out && this.context == context && !inline && level == 0
    {
      this.out := out;
      this.context := context;
      inline := false;
      level := 0;
    }

    /** Type annotations are printed inline. */
    method VisitTypeAnnotation(a: MetadataAnnotation)
      requires context.Valid() && out.builders != [] && level == 0
      modifies this, out
      ensures inline && level == 0 && out.indentation == old(out.indentation)
      ensures out.builders == Appended(old(out.builders), TopLevelAnnotationText(context.frames, context.packageName, a, true, out.indentation))
    {
      inline := true;
      VisitAnyAnnotation(a);
    }

    /** Type-parameter annotations are printed inline. */
    method VisitTypeParameterAnnotation(a: MetadataAnnotation)
      requires context.Valid() && out.builders != [] && level == 0
      modifies this, out
      ensures inline && level == 0 && out.indentation == old(out.indentation)
      ensures out.builders == Appended(old(out.builders), TopLevelAnnotationText(context.frames, context.packageName, a, true, out.indentation))
    {
      inline := true;
      VisitAnyAnnotation(a);
    }

    /** Type-alias annotations are printed as blocks, one per line. */
    method VisitTypeAliasAnnotation(a: MetadataAnnotation)
      requires context.Valid() && out.builders != [] && level == 0
      modifies this, out
      ensures !inline && level == 0 && out.indentation == old(out.indentation)
      ensures out.builders == Appended(old(out.builders), TopLevelAnnotationText(context.frames, context.packageName, a, false, out.indentation))
    {
      inline := false;
      VisitAnyAnnotation(a);
    }

    /** Prints one annotation: at the top level with `@` and its terminator,
      * nested as the body alone. `level` is back where it started. */
    method VisitAnyAnnotation(a: MetadataAnnotation)
      requires context.Valid() && out.builders != [] && level >= 0
      modifies this, out
      decreases a, 2
      ensures level == old(level) && inline == old(inline) && out.indentation == old(out.indentation)
      ensures out.builders == Appended(old(out.builders),
                if old(level) == 0 then TopLevelAnnotationText(context.frames, context.packageName, a, inline, out.indentation)
                else AnnotationBody(context.frames, context.packageName, a, true))
    {
      ghost var frames, packageName := context.frames, context.packageName;
      ghost var b0 := out.builders;
      ghost var lead := if level == 0 then (if inline then "" else IndentText(out.indentation)) + "@" else "";
      if level == 0 {
        out.Print("@", !inline);
      } else {
        AppendedNothing(b0);
      }
      level := level + 1;
      PrintAnnotationBody(a);
      ghost var body := AnnotationBody(frames, packageName, a, true);
      AppendedTwice(b0, lead, body);
      level := level - 1;
      if level == 0 {
        var terminator := if inline then " " else LINE_SEPARATOR;
        out.Print(terminator, false);
        AppendedTwice(b0, lead + body, terminator);
      } else {
        assert lead + body == body;
      }
    }

    /** The shortened class and, when there are arguments, the arguments in
      * parentheses. */
    method PrintAnnotationBody(a: MetadataAnnotation)
      requires context.Valid() && out.builders != [] && level >= 1
      modifies this, out
      decreases a, 1
      ensures level == old(level) && inline == old(inline) && out.indentation == old(out.indentation)
      ensures out.builders == Appended(old(out.builders), AnnotationBody(context.frames, context.packageName, a, true))
    {
      ghost var b0 := out.builders;
      var name := context.ClassName(a.className, ".");
      out.Print(name, false);
      ghost var b1 := out.builders;
      if |a.arguments| > 0 {
        PrintArgumentsInParentheses(a.arguments);
      }
      AnnotationBodyPrinted(context.frames, context.packageName, a, b0, b1, out.builders);
    }

    /** The arguments between an opening and a closing parenthesis. */
    method PrintArgumentsInParentheses(args: seq<Argument>)
      requires context.Valid() && out.builders != [] && level >= 1
      modifies this, out
      decreases args, 1
      ensures level == old(level) && inline == old(inline) && out.indentation == old(out.indentation)
      ensures out.builders == Appended(old(out.builders), "(" + ArgumentsText(context.frames, context.packageName, args, '(', true) + ")")
    {
      ghost var b0 := out.builders;
      ghost var inner := ArgumentsText(context.frames, context.packageName, args, '(', true);
      out.Print("(", false);
      ghost var top := out.Top();
      assert top == b0[|b0| - 1] + "(";
      assert top[|top| - 1] == '(';
      ArgumentsAccept(args);
      AppendedTwice(b0, "(", inner);
      out.Print(")", false);
      AppendedTwice(b0, "(" + inner, ")");
    }

    /** `argumentsAccept`: the arguments in order, each seeing the last
      * character printed before it. */
    method ArgumentsAccept(args: seq<Argument>)
      requires context.Valid() && out.builders != [] && out.Top() != "" && level >= 1
      modifies this, out
      decreases args, 0
      ensures level == old(level) && inline == old(inline) && out.indentation == old(out.indentation)
      ensures out.builders == Appended(old(out.builders), ArgumentsText(context.frames, context.packageName, args, old(out.PreviousChar()), true))
    {
      ghost var frames, packageName := context.frames, context.packageName;
      ghost var b0 := out.builders;
      ghost var previous := out.PreviousChar();
      AppendedNothing(b0);
      var i := 0;
      while i < |args|
        invariant 0 <= i <= |args| && level == old(level) && inline == old(inline)
        invariant out.indentation == old(out.indentation) && out.builders != []
        invariant out.builders == Appended(b0, ArgumentsText(frames, packageName, args[..i], previous, true))
      {
        LastCharOfAppended(b0, ArgumentsText(frames, packageName, args[..i], previous, true));
        ArgumentAccept(args[i].name, args[i].value);
        ArgumentsAdvance(frames, packageName, args, i, previous, b0);
        i := i + 1;
      }
      assert args[..i] == args;
    }

    /** `elementsAccept` of an array: each member is visited with the
      * enclosing argument, name included. */
    method ElementsAccept(name: string, members: seq<ArgumentValue>)
      requires context.Valid() && out.builders != [] && out.Top() != "" && level >= 1
      modifies this, out
      decreases members, 0
      ensures level == old(level) && inline == old(inline) && out.indentation == old(out.indentation)
      ensures out.builders == Appended(old(out.builders), MembersText(context.frames, context.packageName, name, members, old(out.PreviousChar()), true))
    {
      ghost var frames, packageName := context.frames, context.packageName;
      ghost var b0 := out.builders;
      ghost var previous := out.PreviousChar();
      AppendedNothing(b0);
      var j := 0;
      while j < |members|
        invariant 0 <= j <= |members| && level == old(level) && inline == old(inline)
        invariant out.indentation == old(out.indentation) && out.builders != []
        invariant out.builders == Appended(b0, MembersText(frames, packageName, name, members[..j], previous, true))
      {
        LastCharOfAppended(b0, MembersText(frames, packageName, name, members[..j], previous, true));
        ArgumentAccept(name, members[j]);
        MembersAdvance(frames, packageName, name, members, j, previous, b0);
        j := j + 1;
      }
      assert members[..j] == members;
    }

    /** Dispatches an argument value to the visitor of its kind. */
    method ArgumentAccept(name: string, v: ArgumentValue)
      requires context.Valid() && out.builders != [] && out.Top() != "" && level >= 1
      modifies this, out
      decreases v, 3
      ensures level == old(level) && inline == old(inline) && out.indentation == old(out.indentation)
      ensures out.builders == Appended(old(out.builders), ArgumentText(context.frames, context.packageName, name, v, old(out.PreviousChar()), true))
      ensures out.Top() != "" && out.PreviousChar() == LastChar(ArgumentText(context.frames, context.packageName, name, v, old(out.PreviousChar()), true), old(out.PreviousChar()))
    {
      ghost var b0 := out.builders;
      ghost var t := ArgumentText(context.frames, context.packageName, name, v, out.PreviousChar(), true);
      if v.AnnotationValue? {
        VisitAnnotationArgument(name, v);
      } else if v.ArrayValue? {
        VisitArrayArgument(name, v);
      } else {
        VisitScalarArgument(name, v);
      }
      LastCharOfAppended(b0, t);
    }

    /** `visitAnyArgument`: the separator and `name = `. */
    method VisitAnyArgument(name: string)
      requires out.builders != [] && out.Top() != ""
      modifies out
      ensures out.indentation == old(out.indentation)
      ensures out.builders == Appended(old(out.builders), Separator(old(out.PreviousChar())) + name + " = ")
    {
      ghost var b0 := out.builders;
      var previous := out.PreviousChar();
      if previous != '(' && previous != '[' {
        out.Print(", ", false);
      } else {
        AppendedNothing(b0);
      }
      out.Print(name + " = ", false);
      AppendedTwice(b0, Separator(previous), name + " = ");
      assert Separator(previous) + (name + " = ") == Separator(previous) + name + " = ";
    }

    /** The literal, unsigned, string, class and enum visitors: `name = `
      * and the value's text. */
    method VisitScalarArgument(name: string, v: ArgumentValue)
      requires !v.AnnotationValue? && !v.ArrayValue?
      requires context.Valid() && out.builders != [] && out.Top() != ""
      modifies out
      ensures out.indentation == old(out.indentation)
      ensures out.builders == Appended(old(out.builders), ArgumentText(context.frames, context.packageName, name, v, old(out.PreviousChar()), true))
    {
      ghost var frames, packageName := context.frames, context.packageName;
      ghost var b0 := out.builders;
      ghost var head := Separator(out.PreviousChar()) + name + " = ";
      VisitAnyArgument(name);
      PrintScalarValue(v);
      assert ValueText(frames, packageName, name, v, true) == ScalarText(frames, packageName, v);
      AppendedTwice(b0, head, ScalarText(frames, packageName, v));
    }

    /** The value part of the literal, unsigned, string, class and enum
      * visitors. */
    method PrintScalarValue(v: ArgumentValue)
      requires !v.AnnotationValue? && !v.ArrayValue?
      requires context.Valid() && out.builders != []
      modifies out
      ensures out.indentation == old(out.indentation)
      ensures out.builders == Appended(old(out.builders), ScalarText(context.frames, context.packageName, v))
    {
      if v.ClassValue? {
        PrintClassValue(v);
      } else if v.EnumValue? {
        PrintEnumValue(v);
      } else {
        out.Print(ScalarText(context.frames, context.packageName, v), false);
      }
    }

    /** `visitClassArgument`'s value: the shortened class inside one
      * `Array<…>` per array dimension, then `::class`. */
    method PrintClassValue(v: ArgumentValue)
      requires v.ClassValue? && context.Valid() && out.builders != []
      modifies out
      ensures out.indentation == old(out.indentation)
      ensures out.builders == Appended(old(out.builders), ScalarText(context.frames, context.packageName, v))
    {
      var className := context.ClassName(v.className, ".");
      out.Print(Repeat("Array<", v.arrayDimensionsCount) + className + Repeat(">", v.arrayDimensionsCount) + "::class", false);
    }

    /** `visitEnumArgument`'s value: the shortened class, `.` and the entry. */
    method PrintEnumValue(v: ArgumentValue)
      requires v.EnumValue? && context.Valid() && out.builders != []
      modifies out
      ensures out.indentation == old(out.indentation)
      ensures out.builders == Appended(old(out.builders), ScalarText(context.frames, context.packageName, v))
    {
      var className := context.ClassName(v.enumClassName, ".");
      Associative(className, ".", v.enumEntryName);
      out.Print(className + "." + v.enumEntryName, false);
    }

    method VisitAnnotationArgument(name: string, v: ArgumentValue)
      requires v.AnnotationValue?
      requires context.Valid() && out.builders != [] && out.Top() != "" && level >= 1
      modifies this, out
      decreases v, 2
      ensures level == old(level) && inline == old(inline) && out.indentation == old(out.indentation)
      ensures out.builders == Appended(old(out.builders), ArgumentText(context.frames, context.packageName, name, v, old(out.PreviousChar()), true))
    {
      ghost var frames, packageName := context.frames, context.packageName;
      ghost var b0 := out.builders;
      ghost var previous := out.PreviousChar();
      ghost var head := Separator(previous) + name + " = ";
      VisitAnyArgument(name);
      ghost var b1 := out.builders;
      VisitAnyAnnotation(v.annotation);
      ghost var body := AnnotationBody(frames, packageName, v.annotation, true);
      assert out.builders == Appended(b1, body);
      AppendedTwice(b0, head, body);
      AnnotationArgumentText(frames, packageName, name, v.annotation, previous);
    }

    method VisitArrayArgument(name: string, v: ArgumentValue)
      requires v.ArrayValue?
      requires context.Valid() && out.builders != [] && out.Top() != "" && level >= 1
      modifies this, out
      decreases v, 2
      ensures level == old(level) && inline == old(inline) && out.indentation == old(out.indentation)
      ensures out.builders == Appended(old(out.builders), ArgumentText(context.frames, context.packageName, name, v, old(out.PreviousChar()), true))
    {
      ghost var frames, packageName := context.frames, context.packageName;
      ghost var b0 := out.builders;
      ghost var head := Separator(out.PreviousChar()) + name + " = ";
      ghost var argumentText := ArgumentText(frames, packageName, name, v, out.PreviousChar(), true);
      VisitAnyArgument(name);
      PrintArray(name, v.members);
      ghost var bracketed := "[" + MembersText(frames, packageName, name, v.members, '[', true) + "]";
      AppendedTwice(b0, head, bracketed);
      assert ValueText(frames, packageName, name, v, true) == bracketed;
    }

    /** The members of an array argument, in brackets. */
    method PrintArray(name: string, members: seq<ArgumentValue>)
      requires context.Valid() && out.builders != [] && level >= 1
      modifies this, out
      decreases members, 1
      ensures level == old(level) && inline == old(inline) && out.indentation == old(out.indentation)
      ensures out.builders == Appended(old(out.builders), "[" + MembersText(context.frames, context.packageName, name, members, '[', true) + "]")
    {
      ghost var b0 := out.builders;
      out.Print("[", false);
      assert out.PreviousChar() == '[';
      ghost var inner := MembersText(context.frames, context.packageName, name, members, '[', true);
      ElementsAccept(name, members);
      AppendedTwice(b0, "[", inner);
      out.Print("]", false);
      AppendedTwice(b0, "[" + inner, "]");
    }
  }
}
