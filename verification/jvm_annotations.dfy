/** The kmp generation's printer for JVM class-file annotations (the element
  * values of section 4.7.16.1 of the Java Virtual Machine Specification),
  * writing into the metadata printer's buffer with its name context. */
module JvmAnnotations {
  import opened Results
  import opened Text
  import opened Frames
  import opened Names
  import opened Output
  import opened NameContext

  /** The primitive base types a class element value can name (section 4.3.2
    * of the Java Virtual Machine Specification), `void` aside. */
  datatype PrimitiveType = BooleanType | ByteType | CharType | ShortType | IntType | FloatType | LongType | DoubleType

  /** The constant-pool entries a constant element value can refer to, as
    * `ConstantToStringVisitor` renders them. `boolean`, `byte`, `char` and
    * `short` values are stored as integer constants. Floating-point values
    * and the Java class name of any other entry come pre-rendered. */
  datatype ConstantValue =
    | IntegralConstant(number: int)
    | FloatingConstant(rendered: string)
    | StringConstant(text: string)
    | ClassConstant(internalName: string)
    | OtherConstant(javaClass: string)

  /** A class literal: a primitive type, or a class by its descriptor. */
  datatype ClassLiteral = PrimitiveClass(primitive: PrimitiveType) | ReferenceClass(descriptor: string)

  datatype ElementValue = ElementValue(name: Option<string>, value: Value)

  datatype Value =
    | ConstantElement(constant: ConstantValue)
    | EnumConstantElement(typeDescriptor: string, constantName: string)
    | ClassElement(literal: ClassLiteral)
    | AnnotationElement(annotation: Annotation)
    | ArrayElement(elements: seq<ElementValue>)

  /** An annotation: its type descriptor and its element values. */
  datatype Annotation = Annotation(descriptor: string, elements: seq<ElementValue>)

  /** The annotation types the printer never shows. */
  const HIDDEN_ANNOTATIONS: set<string> :=
    {"Lkotlin/Metadata;", "Lorg/jetbrains/annotations/NotNull;", "Lorg/jetbrains/annotations/Nullable;"}

  /** The descriptor character of a primitive type. */
  function PrimitiveDescriptor(t: PrimitiveType): char
  {
    match t
    case BooleanType => 'Z'
    case ByteType => 'B'
    case CharType => 'C'
    case ShortType => 'S'
    case IntType => 'I'
    case FloatType => 'F'
    case LongType => 'J'
    case DoubleType => 'D'
  }

  /** What follows the class name in a Kotlin class literal. */
  const CLASS_SUFFIX: string := "::class"

  /** The static `primitiveTypeToClass` map: a descriptor character to the
    * Kotlin class literal of its type. */
  function PrimitiveTypeToClass(c: char): (r: Option<string>)
  {
    match c
    case 'Z' => Some("Boolean" + CLASS_SUFFIX)
    case 'B' => Some("Byte" + CLASS_SUFFIX)
    case 'C' => Some("Char" + CLASS_SUFFIX)
    case 'S' => Some("Short" + CLASS_SUFFIX)
    case 'I' => Some("Int" + CLASS_SUFFIX)
    case 'F' => Some("Float" + CLASS_SUFFIX)
    case 'J' => Some("Long" + CLASS_SUFFIX)
    case 'D' => Some("Double" + CLASS_SUFFIX)
    case _ => None
  }

  /** Exactly the eight primitive descriptors are in the map; `V` is not. */
  lemma PrimitiveMapDomain(c: char)
    ensures PrimitiveTypeToClass(c).Some? <==> c in "ZBCSIFJD"
  {
  }

  /** A Kotlin class literal: the class name, then `::class`. */
  function ClassLiteralOf(name: string): (r: string)
    ensures EndsWith(r, CLASS_SUFFIX)
    ensures PlainShortName(name) ==> PlainShortName(r)
  {
    var suffix := CLASS_SUFFIX;
    assert '/' !in suffix && '$' !in suffix;
    assert (name + suffix)[|name + suffix| - |suffix|..] == suffix;
    name + suffix
  }

  /** The Kotlin name of a primitive type. */
  function KotlinPrimitiveName(t: PrimitiveType): (r: string)
    ensures PlainShortName(r)
  {
    match t
    case BooleanType => "Boolean"
    case ByteType => "Byte"
    case CharType => "Char"
    case ShortType => "Short"
    case IntType => "Int"
    case FloatType => "Float"
    case LongType => "Long"
    case DoubleType => "Double"
  }

  /** Every primitive type is in the map, as the `::class` literal of its
    * Kotlin name, which shortening leaves alone. */
  lemma PrimitiveLiterals(t: PrimitiveType)
    ensures PrimitiveTypeToClass(PrimitiveDescriptor(t)) == Some(ClassLiteralOf(KotlinPrimitiveName(t)))
    ensures PlainShortName(PrimitiveTypeToClass(PrimitiveDescriptor(t)).value)
  {
    match t
    case BooleanType =>
    case ByteType =>
    case CharType =>
    case ShortType =>
    case IntType =>
    case FloatType =>
    case LongType =>
    case DoubleType =>
  }

  /** The number of leading `[` of an array type descriptor. */
  function ArrayDimensions(descriptor: string): (n: nat)
    ensures n <= |descriptor|
    ensures forall k | 0 <= k < n :: descriptor[k] == '['
    ensures n < |descriptor| ==> descriptor[n] != '['
  {
    if descriptor != [] && descriptor[0] == '[' then 1 + ArrayDimensions(descriptor[1..]) else 0
  }

  /** `ClassUtil.internalClassNameFromType`: a descriptor of two or more
    * characters ending in `;` loses its array dimensions, then its first
    * and last characters; any other descriptor is returned as it is. An
    * array prefix before a one-character rest, which makes the source's
    * `substring` throw, gives "". */
  function InternalClassNameFromType(descriptor: string): (r: string)
    ensures |r| <= |descriptor|
    ensures !(|descriptor| > 1 && descriptor[|descriptor| - 1] == ';') ==> r == descriptor
  {
    if |descriptor| > 1 && descriptor[|descriptor| - 1] == ';' then
      var element := descriptor[ArrayDimensions(descriptor)..];
      if |element| >= 2 then element[1..|element| - 1] else ""
    else descriptor
  }

  /** The class type of an internal name decodes back to that name. */
  lemma ClassTypeRoundTrip(internalName: string)
    ensures InternalClassNameFromType("L" + internalName + ";") == internalName
  {
    var d := "L" + internalName + ";";
    assert ArrayDimensions(d) == 0 by {
      assert d[0] == 'L';
    }
    assert d[0..] == d;
    assert d[1..|d| - 1] == internalName;
  }

  /** `n` repetitions of one character hold that character everywhere. */
  lemma {:induction false} RepeatedChar(c: char, n: nat)
    ensures |Repeat([c], n)| == n
    ensures forall k | 0 <= k < n :: Repeat([c], n)[k] == c
  {
    if n > 0 {
      RepeatedChar(c, n - 1);
      assert Repeat([c], n) == Repeat([c], n - 1) + [c];
    }
  }

  /** An array of a class type, of any dimension, decodes to the element
    * class's internal name: `[[Ljava/lang/String;` gives `java/lang/String`. */
  lemma ArrayClassTypeName(internalName: string, dimensions: nat)
    ensures InternalClassNameFromType(Repeat("[", dimensions) + "L" + internalName + ";") == internalName
  {
    var prefix := Repeat("[", dimensions);
    var d := prefix + "L" + internalName + ";";
    RepeatedChar('[', dimensions);
    assert "[" == ['['];
    forall k | 0 <= k < dimensions
      ensures d[k] == '['
    {
      assert d[k] == prefix[k];
    }
    assert d[dimensions] == 'L';
    assert ArrayDimensions(d) == dimensions;
    assert d[dimensions..] == "L" + internalName + ";";
    ClassTypeRoundTrip(internalName);
  }

  /** `ConstantToStringVisitor`: strings in double quotes, numbers in
    * decimal, class constants by internal name. */
  function ConstantText(c: ConstantValue): (r: string)
    ensures c.StringConstant? ==> |r| == |c.text| + 2 && r[0] == '"' && r[|r| - 1] == '"' && r[1..|r| - 1] == c.text
    ensures c.IntegralConstant? ==> r != "" && (c.number < 0 <==> r[0] == '-')
  {
    match c
    case IntegralConstant(n) => IntToString(n)
    case FloatingConstant(s) => s
    case StringConstant(s) => "\"" + s + "\""
    case ClassConstant(name) => name
    case OtherConstant(javaClass) => "constant (" + javaClass + ")"
  }

  /** `", "` goes before an element value unless it directly follows the
    * opening `(` of an annotation or `{` of an array. */
  function Separator(previous: char): (r: string)
    ensures r == "" <==> previous == '(' || previous == '{'
  {
    if previous != '(' && previous != '{' then ", " else ""
  }

  /** The name of an element value, unless it is `value`; an element with no
    * name (an array member) gets none. */
  function NamePrefix(name: Option<string>): (r: string)
    ensures r == "" <==> name.None? || name.value == "value"
    ensures r != "" ==> r == name.value + " = "
  {
    match name
    case Some(n) => if n != "value" then n + " = " else ""
    case None => ""
  }


  /** An annotation without `@`: its shortened type, then its element values
    * in parentheses when it has any. */
  function AnnotationBody(frames: seq<ContextFrame>, packageName: string, a: Annotation): (r: string)
    requires ScopeFrames(frames)
    ensures StartsWith(r, ClassName(frames, packageName, InternalClassNameFromType(a.descriptor), "."))
    ensures r != "" && r[0] != '@'
    decreases a, 1
  {
    var name := ClassName(frames, packageName, InternalClassNameFromType(a.descriptor), ".");
    var text := ElementsText(frames, packageName, a.elements, '(');
    ConcatEnds(name, "(" + text, ")");
    assert (name + "(" + text + ")")[0] == name[0];
    if a.elements == [] then name
    else name + "(" + text + ")"
  }

  /** The annotation body in its two shapes: the name alone, or the name
    * and the element values in parentheses. */
  lemma AnnotationBodyParts(frames: seq<ContextFrame>, packageName: string, a: Annotation)
    requires ScopeFrames(frames)
    ensures var name := ClassName(frames, packageName, InternalClassNameFromType(a.descriptor), ".");
      AnnotationBody(frames, packageName, a)
      == if a.elements == [] then name else name + "(" + ElementsText(frames, packageName, a.elements, '(') + ")"
  {
  }

  /** Printing the name and then, when there are element values, the
    * parenthesised values appends the annotation body. */
  lemma AnnotationBodyPrinted(frames: seq<ContextFrame>, packageName: string, a: Annotation, b0: seq<string>, b1: seq<string>, b2: seq<string>)
    requires ScopeFrames(frames) && b0 != []
    requires b1 == Appended(b0, ClassName(frames, packageName, InternalClassNameFromType(a.descriptor), "."))
    requires b2 == if a.elements == [] then b1 else Appended(b1, "(" + ElementsText(frames, packageName, a.elements, '(') + ")")
    ensures b2 == Appended(b0, AnnotationBody(frames, packageName, a))
  {
    AnnotationBodyParts(frames, packageName, a);
    if a.elements != [] {
      BodyWithElements(frames, packageName, a, b0, b1, b2);
    }
  }

  /** The case with element values, kept apart so that its proof stays small. */
  lemma BodyWithElements(frames: seq<ContextFrame>, packageName: string, a: Annotation, b0: seq<string>, b1: seq<string>, b2: seq<string>)
    requires ScopeFrames(frames) && b0 != [] && a.elements != []
    requires b1 == Appended(b0, ClassName(frames, packageName, InternalClassNameFromType(a.descriptor), "."))
    requires b2 == Appended(b1, "(" + ElementsText(frames, packageName, a.elements, '(') + ")")
    ensures b2 == Appended(b0, AnnotationBody(frames, packageName, a))
  {
    var name := ClassName(frames, packageName, InternalClassNameFromType(a.descriptor), ".");
    var text := ElementsText(frames, packageName, a.elements, '(');
    AppendedTwice(b0, name, "(" + text + ")");
    AnnotationBodyParts(frames, packageName, a);
    Associative(name, "(", text);
    Associative(name, "(" + text, ")");
  }

  /** The element values in order, each after the text before it, when the
    * text so far ends with `previous`. */
  function ElementsText(frames: seq<ContextFrame>, packageName: string, elements: seq<ElementValue>, previous: char): (r: string)
    requires ScopeFrames(frames)
    ensures elements == [] ==> r == ""
    ensures elements != [] && previous != '(' && previous != '{' ==> StartsWith(r, ", ")
    decreases elements, 0
  {
    if elements == [] then ""
    else
      var before := ElementsText(frames, packageName, elements[..|elements| - 1], previous);
      var text := ElementText(frames, packageName, elements[|elements| - 1], LastChar(before, previous));
      assert before == "" && previous != '(' && previous != '{' ==> StartsWith(text, ", ") by {
        if before == "" && previous != '(' && previous != '{' {
          var e := elements[|elements| - 1];
          ConcatEnds(", ", NamePrefix(e.name), ValueText(frames, packageName, e.value));
        }
      }
      assert before != "" && StartsWith(before, ", ") ==> StartsWith(before + text, ", ") by {
        if before != "" && StartsWith(before, ", ") {
          PrefixExtended(before, ", ", text);
        }
      }
      before + text
  }

  /** One element value after text ending with `previous`: the separator,
    * the name, the value. */
  function ElementText(frames: seq<ContextFrame>, packageName: string, e: ElementValue, previous: char): string
    requires ScopeFrames(frames)
    decreases e, 0
  {
    Separator(previous) + NamePrefix(e.name) + ValueText(frames, packageName, e.value)
  }

  /** The value part of an element value. Nested annotations have no `@`;
    * arrays are braced. */
  function ValueText(frames: seq<ContextFrame>, packageName: string, v: Value): (r: string)
    requires ScopeFrames(frames)
    ensures v.EnumConstantElement? ==> EndsWith(r, "." + v.constantName)
    ensures v.ArrayElement? ==> |r| >= 2 && r[0] == '{' && r[|r| - 1] == '}'
    ensures v.AnnotationElement? ==> r != "" && r[0] != '@'
    decreases v, 0
  {
    match v
    case ConstantElement(c) => ConstantText(c)
    case EnumConstantElement(t, constName) =>
      var name := ClassName(frames, packageName, InternalClassNameFromType(t), ".");
      ConcatEnds("", name, "." + constName);
      assert "" + name + ("." + constName) == name + ("." + constName);
      name + ("." + constName)
    case ClassElement(literal) => ClassLiteralText(frames, packageName, literal)
    case AnnotationElement(a) => AnnotationBody(frames, packageName, a)
    case ArrayElement(elements) => "{" + ElementsText(frames, packageName, elements, '{') + "}"
  }

  /** The name a class literal is shortened from: the `::class` literal of a
    * primitive type, the internal name of a class type. */
  function ClassLiteralName(literal: ClassLiteral): string
  {
    match literal
    case PrimitiveClass(t) => PrimitiveTypeToClass(PrimitiveDescriptor(t)).value
    case ReferenceClass(d) => InternalClassNameFromType(d)
  }

  /** A primitive class prints through the `::class` map; a reference class
    * prints as its shortened name alone. */
  function ClassLiteralText(frames: seq<ContextFrame>, packageName: string, literal: ClassLiteral): string
    requires ScopeFrames(frames)
  {
    ClassName(frames, packageName, ClassLiteralName(literal), ".")
  }

  /** A top-level annotation: `@` (indented unless inline), the body, and a
    * line separator unless inline. */
  function TopLevelAnnotationText(frames: seq<ContextFrame>, packageName: string, a: Annotation, inline: bool, indentation: int): (r: string)
    requires ScopeFrames(frames)
    ensures EndsWith(r, "@" + AnnotationBody(frames, packageName, a) + (if inline then "" else LINE_SEPARATOR))
  {
    var lead := if inline then "" else IndentText(indentation);
    var body := AnnotationBody(frames, packageName, a);
    var tail := if inline then "" else LINE_SEPARATOR;
    ConcatEnds(lead, "@" + body, tail);
    ConcatEnds("", "@" + body, tail);
    assert "" + ("@" + body) + tail == "@" + body + tail;
    SuffixExtended(lead, "@" + body + tail, "@" + body + tail);
    Associative(lead, "@" + body, tail);
    Associative(lead, "@", body);
    lead + "@" + body + tail
  }

  /** The annotations of an attribute that the type filter lets through, in order. */
  function AnnotationsText(frames: seq<ContextFrame>, packageName: string, annotations: seq<Annotation>, inline: bool, indentation: int): (r: string)
    requires ScopeFrames(frames)
    ensures r == "" <==> forall k | 0 <= k < |annotations| :: Hidden(annotations[k])
  {
    if annotations == [] then ""
    else
      assert forall k | 0 <= k < |annotations| - 1 :: annotations[..|annotations| - 1][k] == annotations[k];
      AnnotationsText(frames, packageName, annotations[..|annotations| - 1], inline, indentation)
      + ShownText(frames, packageName, annotations[|annotations| - 1], inline, indentation)
  }

  /** Whether the annotation is one of those never printed. */
  predicate Hidden(a: Annotation)
  {
    a.descriptor in HIDDEN_ANNOTATIONS
  }

  /** One annotation of an attribute: nothing when it is hidden, the
    * top-level annotation otherwise. */
  function ShownText(frames: seq<ContextFrame>, packageName: string, a: Annotation, inline: bool, indentation: int): string
    requires ScopeFrames(frames)
  {
    if Hidden(a) then "" else TopLevelAnnotationText(frames, packageName, a, inline, indentation)
  }

  /** The annotations up to `i + 1`: those up to `i`, then annotation `i`. */
  lemma AnnotationsTextStep(frames: seq<ContextFrame>, packageName: string, annotations: seq<Annotation>, i: nat, inline: bool, indentation: int)
    requires ScopeFrames(frames) && i < |annotations|
    ensures AnnotationsText(frames, packageName, annotations[..i + 1], inline, indentation)
         == AnnotationsText(frames, packageName, annotations[..i], inline, indentation)
            + ShownText(frames, packageName, annotations[i], inline, indentation)
  {
    assert annotations[..i + 1][..i] == annotations[..i];
  }

  /** The annotations that are shown, in order. */
  function Shown(annotations: seq<Annotation>): (r: seq<Annotation>)
    ensures |r| <= |annotations|
    ensures forall k | 0 <= k < |r| :: r[k] in annotations && !Hidden(r[k])
    ensures forall a | a in annotations && !Hidden(a) :: a in r
  {
    if annotations == [] then []
    else
      var last := annotations[|annotations| - 1];
      var init := annotations[..|annotations| - 1];
      assert annotations == init + [last];
      Shown(init) + (if Hidden(last) then [] else [last])
  }

  /** Hidden annotations print nothing: the text is that of the shown
    * annotations alone. */
  lemma {:induction false} HiddenAnnotationsSkipped(frames: seq<ContextFrame>, packageName: string, annotations: seq<Annotation>, inline: bool, indentation: int)
    requires ScopeFrames(frames)
    ensures AnnotationsText(frames, packageName, annotations, inline, indentation)
         == AnnotationsText(frames, packageName, Shown(annotations), inline, indentation)
  {
    if annotations != [] {
      var init := annotations[..|annotations| - 1];
      var last := annotations[|annotations| - 1];
      HiddenAnnotationsSkipped(frames, packageName, init, inline, indentation);
      var before := AnnotationsText(frames, packageName, init, inline, indentation);
      if Hidden(last) {
        assert Shown(annotations) == Shown(init);
        assert AnnotationsText(frames, packageName, annotations, inline, indentation) == before + "";
      } else {
        var s := Shown(init) + [last];
        assert Shown(annotations) == s;
        assert s[..|s| - 1] == Shown(init);
        var text := TopLevelAnnotationText(frames, packageName, last, inline, indentation);
        assert AnnotationsText(frames, packageName, annotations, inline, indentation) == before + text;
        assert AnnotationsText(frames, packageName, s, inline, indentation) == before + text;
      }
    }
  }

  /** A body is the shortened type name, followed, exactly when there are
    * element values, by the values in parentheses. */
  lemma ParenthesesIffElements(frames: seq<ContextFrame>, packageName: string, a: Annotation)
    requires ScopeFrames(frames)
    ensures var name := ClassName(frames, packageName, InternalClassNameFromType(a.descriptor), ".");
            var r := AnnotationBody(frames, packageName, a);
            StartsWith(r, name) && (r == name <==> a.elements == [])
            && (a.elements != [] ==> r[|name|] == '(' && EndsWith(r, ")"))
  {
  }

  /** A nested annotation is printed without `@`. */
  lemma NestedAnnotationHasNoAtSign(frames: seq<ContextFrame>, packageName: string, a: Annotation)
    requires ScopeFrames(frames)
    ensures var nested := ValueText(frames, packageName, AnnotationElement(a));
            nested != "" && nested[0] != '@'
  {
  }

  /** A top-level annotation starts with `@` after its indentation, and only
    * a block one ends a line. */
  lemma TopLevelAnnotationShape(frames: seq<ContextFrame>, packageName: string, a: Annotation, inline: bool, indentation: int)
    requires ScopeFrames(frames)
    ensures var r := TopLevelAnnotationText(frames, packageName, a, inline, indentation);
            var lead := if inline then "" else IndentText(indentation);
            StartsWith(r, lead + "@") && (inline ==> r == "@" + AnnotationBody(frames, packageName, a))
            && (!inline ==> EndsWith(r, LINE_SEPARATOR))
  {
    TopLevelFrame(inline, IndentText(indentation), AnnotationBody(frames, packageName, a));
  }

  lemma TopLevelFrame(inline: bool, indent: string, body: string)
    ensures var r := (if inline then "" else indent) + "@" + body + (if inline then "" else LINE_SEPARATOR);
            StartsWith(r, (if inline then "" else indent) + "@") && (inline ==> r == "@" + body)
            && (!inline ==> EndsWith(r, LINE_SEPARATOR))
  {
    var lead := if inline then "" else indent;
    ConcatEnds(lead + "@", body, if inline then "" else LINE_SEPARATOR);
    if inline {
      EmptySides("@" + body);
    }
  }

  /** An element value as it reads in a list: its name and its value. */
  function Piece(frames: seq<ContextFrame>, packageName: string, e: ElementValue): string
    requires ScopeFrames(frames)
  {
    NamePrefix(e.name) + ValueText(frames, packageName, e.value)
  }

  /** The pieces of the element values, in order. */
  function Pieces(frames: seq<ContextFrame>, packageName: string, elements: seq<ElementValue>): (r: seq<string>)
    requires ScopeFrames(frames)
    ensures |r| == |elements|
    ensures forall k | 0 <= k < |r| :: r[k] == Piece(frames, packageName, elements[k])
  {
    if elements == [] then []
    else
      var init := elements[..|elements| - 1];
      assert forall k | 0 <= k < |init| :: init[k] == elements[k];
      Pieces(frames, packageName, init) + [Piece(frames, packageName, elements[|elements| - 1])]
  }

  /** Text that neither is empty nor ends with an opening bracket. */
  predicate Closed(text: string)
  {
    text != "" && text[|text| - 1] != '(' && text[|text| - 1] != '{'
  }

  /** When no element value reads as empty or ends with an opening bracket,
    * the values after `(` or `{` are their pieces separated by `", "`. */
  lemma {:induction false} ElementsJoined(frames: seq<ContextFrame>, packageName: string, elements: seq<ElementValue>, open: char)
    requires ScopeFrames(frames) && (open == '(' || open == '{')
    requires forall k | 0 <= k < |elements| :: Closed(Piece(frames, packageName, elements[k]))
    ensures ElementsText(frames, packageName, elements, open) == Join(Pieces(frames, packageName, elements), ", ")
    ensures elements != [] ==> Closed(ElementsText(frames, packageName, elements, open))
  {
    if elements != [] {
      var init := elements[..|elements| - 1];
      ElementsJoined(frames, packageName, init, open);
      var before := ElementsText(frames, packageName, init, open);
      var p := Piece(frames, packageName, elements[|elements| - 1]);
      assert Pieces(frames, packageName, elements) == Pieces(frames, packageName, init) + [p];
      assert ElementsText(frames, packageName, elements, open)
          == before + ElementText(frames, packageName, elements[|elements| - 1], LastChar(before, open));
      ElementTextIsPiece(frames, packageName, elements[|elements| - 1], LastChar(before, open));
      ClosedJoinStep(Pieces(frames, packageName, init), before, open, p);
    }
  }

  /** An element value reads as its separator and its piece. */
  lemma ElementTextIsPiece(frames: seq<ContextFrame>, packageName: string, e: ElementValue, previous: char)
    requires ScopeFrames(frames)
    ensures ElementText(frames, packageName, e, previous) == Separator(previous) + Piece(frames, packageName, e)
  {
    var prefix, value := NamePrefix(e.name), ValueText(frames, packageName, e.value);
    assert ElementText(frames, packageName, e, previous) == Separator(previous) + prefix + value;
    assert Piece(frames, packageName, e) == prefix + value;
    Associative(Separator(previous), prefix, value);
  }

  /** A nested annotation's element text is its separator, name prefix and body. */
  lemma NestedElementText(frames: seq<ContextFrame>, packageName: string, e: ElementValue, previous: char)
    requires ScopeFrames(frames) && e.value.AnnotationElement?
    ensures ElementText(frames, packageName, e, previous)
         == Separator(previous) + NamePrefix(e.name) + AnnotationBody(frames, packageName, e.value.annotation)
  {
  }

  /** Appending one closed piece to closed, joined text adds exactly the
    * separator the printer chooses and the piece. */
  lemma ClosedJoinStep(items: seq<string>, before: string, open: char, p: string)
    requires (open == '(' || open == '{') && Closed(p)
    requires before == Join(items, ", ") && (items != [] ==> Closed(before))
    ensures before + (Separator(LastChar(before, open)) + p) == Join(items + [p], ", ")
    ensures Closed(before + (Separator(LastChar(before, open)) + p))
  {
    var all := items + [p];
    assert all[..|all| - 1] == items;
    if items == [] {
      assert before == "" && Separator(LastChar(before, open)) == "";
      EmptySides(p);
    } else {
      JoinedClosed(before, ", ", p);
    }
  }

  lemma JoinedClosed(before: string, sep: string, p: string)
    requires Closed(p)
    ensures before + (sep + p) == before + sep + p
    ensures Closed(before + (sep + p))
  {
    var r := before + (sep + p);
    assert r[|r| - 1] == p[|p| - 1];
  }

  /** Inside classes (no file facade in scope) a primitive class value
    * prints as its `::class` literal, unchanged by shortening. */
  lemma PrimitiveClassPrinted(frames: seq<ContextFrame>, packageName: string, t: PrimitiveType)
    requires ScopeFrames(frames) && WithoutFacades(frames)
    ensures ClassLiteralText(frames, packageName, PrimitiveClass(t)) == ClassLiteralOf(KotlinPrimitiveName(t))
  {
    PrimitiveLiterals(t);
    var s := ClassLiteralOf(KotlinPrimitiveName(t));
    assert InternalShortClassName(s) == s;
    assert |packageName + "/" + s| > |s|;
    assert StripPackage(s, packageName, s) == s;
    PlainNameIsNotImported(s);
    PlainNameSurvivesCleanup(frames, packageName, s, s, ".");
  }

  /** Inside classes, a class value of an unpackaged class `n` prints as
    * `n` alone, without `::class` (`markerClass = {UnstableApi}`). */
  lemma ReferenceClassPrinted(frames: seq<ContextFrame>, packageName: string, n: string)
    requires ScopeFrames(frames) && WithoutFacades(frames) && PlainShortName(n)
    ensures ClassLiteralText(frames, packageName, ReferenceClass("L" + n + ";")) == n
  {
    ClassTypeRoundTrip(n);
    assert InternalShortClassName(n) == n;
    assert |packageName + "/" + n| > |n|;
    assert StripPackage(n, packageName, n) == n;
    PlainNameIsNotImported(n);
    PlainNameSurvivesCleanup(frames, packageName, n, n, ".");
  }

  /** The element values up to `i + 1`: those up to `i`, then element `i`. */
  lemma ElementsTextStep(frames: seq<ContextFrame>, packageName: string, elements: seq<ElementValue>, i: nat, previous: char)
    requires ScopeFrames(frames) && i < |elements|
    ensures var done := ElementsText(frames, packageName, elements[..i], previous);
            ElementsText(frames, packageName, elements[..i + 1], previous)
            == done + ElementText(frames, packageName, elements[i], LastChar(done, previous))
  {
    assert elements[..i + 1][..i] == elements[..i];
  }

  /** Printing element `i` after the elements before it leaves the elements
    * up to `i + 1` printed. */
  lemma ElementsAdvance(frames: seq<ContextFrame>, packageName: string, elements: seq<ElementValue>, i: nat, previous: char, b0: seq<string>)
    requires ScopeFrames(frames) && i < |elements| && b0 != []
    ensures var done := ElementsText(frames, packageName, elements[..i], previous);
            Appended(Appended(b0, done), ElementText(frames, packageName, elements[i], LastChar(done, previous)))
            == Appended(b0, ElementsText(frames, packageName, elements[..i + 1], previous))
  {
    var done := ElementsText(frames, packageName, elements[..i], previous);
    ElementsTextStep(frames, packageName, elements, i, previous);
    AppendedTwice(b0, done, ElementText(frames, packageName, elements[i], LastChar(done, previous)));
  }


  /** The kmp `AnnotationPrinter`: prints into the metadata printer's buffer,
    * shortening names in its context. `level` counts the annotations being
    * printed, so that only the outermost one gets `@`. */
  class AnnotationPrinter {
    const out: OutputBuffer
    const context: Context
    const inline: bool
    var level: int

    constructor (out: OutputBuffer, context: Context, inline: bool)
      ensures this.out == out && this.context == context && this.inline == inline && level == 0
    {
      this.out := out;
      this.context := context;
      this.inline := inline;
      level := 0;
    }

    /** Prints the annotations of an attribute that are not hidden, each as
      * a top-level annotation. */
    method VisitAnyAnnotationsAttribute(annotations: seq<Annotation>)
      requires context.Valid() && out.builders != [] && level == 0
      modifies this, out
      ensures level == 0 && out.indentation == old(out.indentation)
      ensures out.builders == Appended(old(out.builders), AnnotationsText(context.frames, context.packageName, annotations, inline, out.indentation))
    {
      ghost var frames, packageName := context.frames, context.packageName;
      ghost var b0 := out.builders;
      AppendedNothing(b0);
      var i := 0;
      while i < |annotations|
        invariant 0 <= i <= |annotations| && level == 0
        invariant out.indentation == old(out.indentation) && out.builders != []
        invariant out.builders == Appended(b0, AnnotationsText(frames, packageName, annotations[..i], inline, out.indentation))
      {
        ghost var done := AnnotationsText(frames, packageName, annotations[..i], inline, out.indentation);
        VisitListedAnnotation(annotations[i]);
        AppendedTwice(b0, done, ShownText(frames, packageName, annotations[i], inline, out.indentation));
        AnnotationsTextStep(frames, packageName, annotations, i, inline, out.indentation);
        i := i + 1;
      }
      assert annotations[..i] == annotations;
    }

    /** One annotation of the attribute: skipped when hidden, visited
      * otherwise. */
    method VisitListedAnnotation(a: Annotation)
      requires context.Valid() && out.builders != [] && level == 0
      modifies this, out
      ensures level == 0 && out.indentation == old(out.indentation)
      ensures out.builders == Appended(old(out.builders), ShownText(context.frames, context.packageName, a, inline, out.indentation))
    {
      if a.descriptor !in HIDDEN_ANNOTATIONS {
        VisitAnnotation(a);
      } else {
        AppendedNothing(out.builders);
      }
    }

    /** Prints one annotation: at the top level with `@` and its terminator,
      * nested as the body alone. `level` is back where it started. */
    method VisitAnnotation(a: Annotation)
      requires context.Valid() && out.builders != [] && level >= 0
      modifies this, out
      decreases a, 1
      ensures level == old(level) && out.indentation == old(out.indentation)
      ensures out.builders == Appended(old(out.builders),
                if old(level) == 0 then TopLevelAnnotationText(context.frames, context.packageName, a, inline, out.indentation)
                else AnnotationBody(context.frames, context.packageName, a))
    {
      ghost var frames, packageName := context.frames, context.packageName;
      ghost var b0 := out.builders;
      ghost var lead := if level == 0 then (if inline then "" else IndentText(out.indentation)) + "@" else "";
      if level == 0 {
        out.Print("@", !inline);
      } else {
        AppendedNothing(b0);
      }
      level := level + 1;
      PrintAnnotationBody(a);
      ghost var body := AnnotationBody(frames, packageName, a);
      AppendedTwice(b0, lead, body);
      level := level - 1;
      if level == 0 {
        var terminator := if inline then "" else LINE_SEPARATOR;
        out.Print(terminator, false);
        AppendedTwice(b0, lead + body, terminator);
      } else {
        assert lead + body == body;
      }
    }

    /** The shortened type and, when there are element values, the values in
      * parentheses. */
    method PrintAnnotationBody(a: Annotation)
      requires context.Valid() && out.builders != [] && level >= 1
      modifies this, out
      decreases a, 0
      ensures level == old(level) && out.indentation == old(out.indentation)
      ensures out.builders == Appended(old(out.builders), AnnotationBody(context.frames, context.packageName, a))
    {
      ghost var b0 := out.builders;
      PrintTypeName(a.descriptor);
      ghost var b1 := out.builders;
      if |a.elements| > 0 {
        PrintElementsInParentheses(a.elements);
      }
      AnnotationBodyPrinted(context.frames, context.packageName, a, b0, b1, out.builders);
    }

    /** The shortened name of the type an annotation descriptor names. */
    method PrintTypeName(descriptor: string)
      requires context.Valid() && out.builders != []
      modifies out
      ensures out.indentation == old(out.indentation)
      ensures out.builders == Appended(old(out.builders), ClassName(context.frames, context.packageName, InternalClassNameFromType(descriptor), "."))
    {
      var name := context.ClassName(InternalClassNameFromType(descriptor), ".");
      out.Print(name, false);
    }

    /** The element values between an opening and a closing parenthesis. */
    method PrintElementsInParentheses(elements: seq<ElementValue>)
      requires context.Valid() && out.builders != [] && level >= 1
      modifies this, out
      decreases elements, 1
      ensures level == old(level) && out.indentation == old(out.indentation)
      ensures out.builders == Appended(old(out.builders), "(" + ElementsText(context.frames, context.packageName, elements, '(') + ")")
    {
      ghost var b0 := out.builders;
      ghost var inner := ElementsText(context.frames, context.packageName, elements, '(');
      out.Print("(", false);
      ghost var top := out.Top();
      assert top == b0[|b0| - 1] + "(";
      assert top[|top| - 1] == '(';
      VisitElementValues(elements);
      AppendedTwice(b0, "(", inner);
      out.Print(")", false);
      AppendedTwice(b0, "(" + inner, ")");
    }

    /** `elementValuesAccept`: the element values in order, each seeing the
      * last character printed before it. */
    method VisitElementValues(elements: seq<ElementValue>)
      requires context.Valid() && out.builders != [] && out.Top() != "" && level >= 1
      modifies this, out
      decreases elements, 0
      ensures level == old(level) && out.indentation == old(out.indentation)
      ensures out.builders == Appended(old(out.builders), ElementsText(context.frames, context.packageName, elements, old(out.PreviousChar())))
    {
      ghost var frames, packageName := context.frames, context.packageName;
      ghost var b0 := out.builders;
      ghost var previous := out.PreviousChar();
      AppendedNothing(b0);
      var i := 0;
      while i < |elements|
        invariant 0 <= i <= |elements| && level == old(level)
        invariant out.indentation == old(out.indentation) && out.builders != []
        invariant out.builders == Appended(b0, ElementsText(frames, packageName, elements[..i], previous))
      {
        LastCharOfAppended(b0, ElementsText(frames, packageName, elements[..i], previous));
        ElementValueAccept(elements[i]);
        ElementsAdvance(frames, packageName, elements, i, previous, b0);
        i := i + 1;
      }
      assert elements[..i] == elements;
    }

    /** Dispatches an element value to the visitor of its kind. */
    method ElementValueAccept(e: ElementValue)
      requires context.Valid() && out.builders != [] && out.Top() != "" && level >= 1
      modifies this, out
      decreases e, 2
      ensures level == old(level) && out.indentation == old(out.indentation)
      ensures out.builders == Appended(old(out.builders), ElementText(context.frames, context.packageName, e, old(out.PreviousChar())))
      ensures out.Top() != "" && out.PreviousChar() == LastChar(ElementText(context.frames, context.packageName, e, old(out.PreviousChar())), old(out.PreviousChar()))
    {
      ghost var b0 := out.builders;
      ghost var t := ElementText(context.frames, context.packageName, e, out.PreviousChar());
      match e.value {
        case ConstantElement(_) => VisitConstantElementValue(e);
        case EnumConstantElement(_, _) => VisitEnumConstantElementValue(e);
        case ClassElement(_) => VisitClassElementValue(e);
        case AnnotationElement(_) => VisitAnnotationElementValue(e);
        case ArrayElement(_) => VisitArrayElementValue(e);
      }
      LastCharOfAppended(b0, t);
    }

    /** `visitAnyElementValue`: the separator and the name. */
    method VisitAnyElementValue(name: Option<string>)
      requires out.builders != [] && out.Top() != ""
      modifies out
      ensures out.indentation == old(out.indentation)
      ensures out.builders == Appended(old(out.builders), Separator(old(out.PreviousChar())) + NamePrefix(name))
    {
      ghost var b0 := out.builders;
      var previous := out.PreviousChar();
      if previous != '(' && previous != '{' {
        out.Print(", ", false);
      } else {
        AppendedNothing(b0);
      }
      if name.Some? && name.value != "value" {
        out.Print(name.value + " = ", false);
        AppendedTwice(b0, Separator(previous), name.value + " = ");
      } else {
        assert Separator(previous) + "" == Separator(previous);
      }
    }

    method VisitConstantElementValue(e: ElementValue)
      requires e.value.ConstantElement?
      requires context.Valid() && out.builders != [] && out.Top() != ""
      modifies out
      ensures out.indentation == old(out.indentation)
      ensures out.builders == Appended(old(out.builders), ElementText(context.frames, context.packageName, e, old(out.PreviousChar())))
    {
      ghost var b0 := out.builders;
      ghost var head := Separator(out.PreviousChar()) + NamePrefix(e.name);
      VisitAnyElementValue(e.name);
      var text := ConstantText(e.value.constant);
      out.Print(text, false);
      AppendedTwice(b0, head, text);
    }

    method VisitEnumConstantElementValue(e: ElementValue)
      requires e.value.EnumConstantElement?
      requires context.Valid() && out.builders != [] && out.Top() != ""
      modifies out
      ensures out.indentation == old(out.indentation)
      ensures out.builders == Appended(old(out.builders), ElementText(context.frames, context.packageName, e, old(out.PreviousChar())))
    {
      ghost var b0 := out.builders;
      ghost var head := Separator(out.PreviousChar()) + NamePrefix(e.name);
      VisitAnyElementValue(e.name);
      PrintEnumConstant(e.value);
      AppendedTwice(b0, head, ValueText(context.frames, context.packageName, e.value));
    }

    /** The shortened type of an enum constant, `.` and the constant's name. */
    method PrintEnumConstant(v: Value)
      requires v.EnumConstantElement?
      requires context.Valid() && out.builders != []
      modifies out
      ensures out.indentation == old(out.indentation)
      ensures out.builders == Appended(old(out.builders), ValueText(context.frames, context.packageName, v))
    {
      ghost var b0 := out.builders;
      var typeName := context.ClassName(InternalClassNameFromType(v.typeDescriptor), ".");
      out.Print(typeName, false);
      var constant := "." + v.constantName;
      out.Print(constant, false);
      AppendedTwice(b0, typeName, constant);
    }

    method VisitClassElementValue(e: ElementValue)
      requires e.value.ClassElement?
      requires context.Valid() && out.builders != [] && out.Top() != ""
      modifies out
      ensures out.indentation == old(out.indentation)
      ensures out.builders == Appended(old(out.builders), ElementText(context.frames, context.packageName, e, old(out.PreviousChar())))
    {
      ghost var b0 := out.builders;
      ghost var head := Separator(out.PreviousChar()) + NamePrefix(e.name);
      VisitAnyElementValue(e.name);
      PrintClassLiteral(e.value);
      AppendedTwice(b0, head, ValueText(context.frames, context.packageName, e.value));
    }

    /** The shortened name of a class literal. */
    method PrintClassLiteral(v: Value)
      requires v.ClassElement?
      requires context.Valid() && out.builders != []
      modifies out
      ensures out.indentation == old(out.indentation)
      ensures out.builders == Appended(old(out.builders), ValueText(context.frames, context.packageName, v))
    {
      var internalClassName := ClassLiteralName(v.literal);
      var className := context.ClassName(internalClassName, ".");
      out.Print(className, false);
    }

    method VisitAnnotationElementValue(e: ElementValue)
      requires e.value.AnnotationElement?
      requires context.Valid() && out.builders != [] && out.Top() != "" && level >= 1
      modifies this, out
      decreases e, 1
      ensures level == old(level) && out.indentation == old(out.indentation)
      ensures out.builders == Appended(old(out.builders), ElementText(context.frames, context.packageName, e, old(out.PreviousChar())))
    {
      ghost var b0 := out.builders;
      ghost var previous := out.PreviousChar();
      ghost var head := Separator(previous) + NamePrefix(e.name);
      VisitAnyElementValue(e.name);
      VisitAnnotation(e.value.annotation);
      AppendedTwice(b0, head, AnnotationBody(context.frames, context.packageName, e.value.annotation));
      NestedElementText(context.frames, context.packageName, e, previous);
    }

    method VisitArrayElementValue(e: ElementValue)
      requires e.value.ArrayElement?
      requires context.Valid() && out.builders != [] && out.Top() != "" && level >= 1
      modifies this, out
      decreases e, 1
      ensures level == old(level) && out.indentation == old(out.indentation)
      ensures out.builders == Appended(old(out.builders), ElementText(context.frames, context.packageName, e, old(out.PreviousChar())))
    {
      ghost var frames, packageName := context.frames, context.packageName;
      ghost var b0 := out.builders;
      ghost var head := Separator(out.PreviousChar()) + NamePrefix(e.name);
      ghost var elementText := ElementText(frames, packageName, e, out.PreviousChar());
      VisitAnyElementValue(e.name);
      PrintArray(e.value.elements);
      ghost var braced := "{" + ElementsText(frames, packageName, e.value.elements, '{') + "}";
      AppendedTwice(b0, head, braced);
      assert ValueText(frames, packageName, e.value) == braced;
    }

    /** The members of an array element value, in braces. */
    method PrintArray(elements: seq<ElementValue>)
      requires context.Valid() && out.builders != [] && level >= 1
      modifies this, out
      decreases elements, 1
      ensures level == old(level) && out.indentation == old(out.indentation)
      ensures out.builders == Appended(old(out.builders), "{" + ElementsText(context.frames, context.packageName, elements, '{') + "}")
    {
      ghost var b0 := out.builders;
      out.Print("{", false);
      assert out.PreviousChar() == '{';
      ghost var inner := ElementsText(context.frames, context.packageName, elements, '{');
      VisitElementValues(elements);
      AppendedTwice(b0, "{", inner);
      out.Print("}", false);
      AppendedTwice(b0, "{" + inner, "}");
    }
  }
}
