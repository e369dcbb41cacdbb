/** Value parameters: the renaming of compiler-generated parameter names,
  * the text ahead of a parameter's type, and whether a constructor
  * parameter is printed as a `val` or `var` property. */
module Parameters {
  import opened Results
  import opened Text
  import opened Flags

  /** One or more ASCII digits (`\d+`). */
  predicate AllDigits(s: string)
  {
    s != [] && forall k | 0 <= k < |s| :: IsDigit(s[k])
  }

  /** Text `.` can match throughout: no line terminator. */
  predicate SingleLine(s: string)
  {
    forall k | 0 <= k < |s| :: !IsLineTerminator(s[k])
  }

  /** `^<(.*) (\d+)>$` as `replaceAll` applies it: the match starts at the
    * beginning and, since `$` follows `>`, ends where `$` matches after a
    * character that is not a line terminator (`EndAnchor`). That part of
    * the name is `<`, text without line terminators, a space, one or more
    * ASCII digits and `>`. The result is the digits (group 2); since digits
    * hold no space, the split is at the last space. */
  function AnonymousIndex(name: string): (r: Option<string>)
    ensures r.Some? ==> AllDigits(r.value) && '<' in name
    ensures r.Some? ==> forall k | EndAnchor(name) <= k < |name| :: IsLineTerminator(name[k])
  {
    var body := name[..EndAnchor(name)];
    if |body| >= 4 && body[0] == '<' && body[|body| - 1] == '>' then
      var inner := body[1..|body| - 1];
      var space := LastIndexOf(inner, ' ');
      if space >= 0 && AllDigits(inner[space + 1..]) && SingleLine(inner[..space]) then
        assert name[0] == '<';
        Some(inner[space + 1..])
      else None
    else None
  }

  /** The printed name of a parameter: `<anonymous parameter N>` becomes
    * `pN` (keeping any final line terminator after the match), then every
    * `<set-?>` becomes `p0`. */
  function RenameParameter(name: string): (r: string)
    ensures '<' !in name ==> r == name
  {
    var first := match AnonymousIndex(name)
      case Some(digits) => "p" + digits + name[EndAnchor(name)..]
      case None => name;
    if '<' !in name then
      ReplaceAllNoMatch(name, "<set-?>", "p0", '<');
      ReplaceAll(first, "<set-?>", "p0")
    else ReplaceAll(first, "<set-?>", "p0")
  }

  /** The inside of `<description digits>` splits at the last space. */
  lemma AnonymousSplit(description: string, digits: string)
    requires AllDigits(digits)
    ensures var inner := description + " " + digits;
      LastIndexOf(inner, ' ') == |description| && inner[|description| + 1..] == digits && inner[..|description|] == description
  {
    var inner := description + " " + digits;
    assert inner[|description|] == ' ';
    forall k | |description| < k < |inner|
      ensures inner[k] != ' '
    {
      assert inner[k] == digits[k - |description| - 1];
    }
  }

  /** Digits hold no `<`. */
  lemma DigitsHaveNoAngle(digits: string, tail: string)
    requires AllDigits(digits) && '<' !in tail
    ensures '<' !in "p" + digits + tail
  {
    var s := "p" + digits + tail;
    forall k | 0 <= k < |s|
      ensures s[k] != '<'
    {
      if 0 < k <= |digits| {
        assert s[k] == digits[k - 1];
      } else if k > |digits| {
        assert s[k] == tail[k - 1 - |digits|];
      }
    }
  }

  /** A lambda's unused parameter `<anonymous parameter N>` prints as `pN`;
    * a final line terminator after it is kept. */
  lemma AnonymousParameterRenamed(description: string, n: nat, t: string)
    requires SingleLine(description)
    requires t == [] || FinalTerminator(t)
    ensures RenameParameter("<" + description + " " + NatToString(n) + ">" + t) == "p" + NatToString(n) + t
  {
    var digits := NatToString(n);
    var body := "<" + description + " " + digits + ">";
    var name := body + t;
    EndAnchorBeforeTerminator(body, t);
    assert name[..|body|] == body && name[|body|..] == t;
    assert body[1..|body| - 1] == description + " " + digits;
    AnonymousSplit(description, digits);
    assert AnonymousIndex(name) == Some(digits);
    assert '<' !in t;
    DigitsHaveNoAngle(digits, t);
    ReplaceAllNoMatch("p" + digits + t, "<set-?>", "p0", '<');
  }

  /** `<set-?>` holds no space, so it is not an anonymous parameter. */
  lemma SetterNotAnonymous()
    ensures AnonymousIndex("<set-?>") == None
  {
    var name := "<set-?>";
    assert EndAnchor(name) == |name|;
    assert name[..|name|] == name;
    assert name[1..|name| - 1] == "set-?";
    assert LastIndexOf("set-?", ' ') == -1;
  }

  /** A property setter's parameter `<set-?>` prints as `p0`. */
  lemma SetterParameterRenamed()
    ensures RenameParameter("<set-?>") == "p0"
  {
    SetterNotAnonymous();
    ReplaceAllFrontMatch("<set-?>", "", "<set-?>", "p0");
    assert "<set-?>" + "" == "<set-?>";
    assert "p0" + "" == "p0";
  }

  /** How a constructor parameter is declared: NORMAL, VAR or VAL. */
  datatype ValueParameterType = Normal | Var | Val

  /** What the checker sees of a property: its name and whether it has
    * getter and setter signatures. */
  datatype PropertySignatures = PropertySignatures(name: string, hasGetter: bool, hasSetter: bool)

  /** A property with a setter makes its parameter `var`, one with only a
    * getter `val`, one with neither a plain parameter. */
  function PropertyParameterType(p: PropertySignatures): (r: ValueParameterType)
    ensures r == ValueParameterType.Var <==> p.hasSetter
    ensures r == ValueParameterType.Val <==> !p.hasSetter && p.hasGetter
  {
    if p.hasSetter then ValueParameterType.Var
    else if p.hasGetter then ValueParameterType.Val
    else Normal
  }

  /** The kind the checker holds after visiting, in order, every property
    * of `props` named `name`: the last such property decides. */
  function LastMatch(props: seq<PropertySignatures>, name: string): (r: ValueParameterType)
  {
    if props == [] then Normal
    else if props[|props| - 1].name == name then PropertyParameterType(props[|props| - 1])
    else LastMatch(props[..|props| - 1], name)
  }

  /** With no property of that name the parameter is plain; otherwise the
    * last property of that name decides, whatever came before it. */
  lemma {:induction false} LastMatchDecides(props: seq<PropertySignatures>, name: string)
    ensures (forall i | 0 <= i < |props| :: props[i].name != name) ==> LastMatch(props, name) == Normal
    ensures forall i | 0 <= i < |props| && props[i].name == name && (forall j | i < j < |props| :: props[j].name != name)
      :: LastMatch(props, name) == PropertyParameterType(props[i])
  {
    if props != [] {
      var init := props[..|props| - 1];
      var last := props[|props| - 1];
      LastMatchDecides(init, name);
      assert forall i | 0 <= i < |init| :: init[i] == props[i];
      if last.name != name {
        assert LastMatch(props, name) == LastMatch(init, name);
      }
    }
  }

  /** The visitor KotlinMetadataPrinter hands the properties named like a
    * constructor parameter, to decide whether that parameter is declared
    * `val`, `var` or neither. */
  class ConstructorValParameterTypeChecker {
    var valueParameterType: ValueParameterType

    constructor()
      ensures valueParameterType == Normal
    {
      valueParameterType := Normal;
    }

    /** Each visit overwrites the kind with the visited property's. */
    method VisitAnyProperty(p: PropertySignatures)
      modifies this
      ensures valueParameterType == PropertyParameterType(p)
    {
      if p.hasSetter {
        valueParameterType := ValueParameterType.Var;
      } else if p.hasGetter {
        valueParameterType := ValueParameterType.Val;
      } else {
        valueParameterType := Normal;
      }
    }
  }

  /** `visitConstructorValParameter`'s first step: a fresh checker visits
    * the class's properties through a filter on the parameter's name. */
  method ConstructorParameterType(props: seq<PropertySignatures>, name: string) returns (kind: ValueParameterType)
    ensures kind == LastMatch(props, name)
  {
    var checker := new ConstructorValParameterTypeChecker();
    var i := 0;
    while i < |props|
      invariant 0 <= i <= |props|
      invariant checker.valueParameterType == LastMatch(props[..i], name)
    {
      assert props[..i + 1][..i] == props[..i];
      if props[i].name == name {
        checker.VisitAnyProperty(props[i]);
      }
      i := i + 1;
    }
    assert props[..i] == props;
    kind := checker.valueParameterType;
  }

  /** The parameter itself, as far as its declaration is printed. */
  datatype ValueParameter = ValueParameter(index: nat, flags: ValueParameterFlags, isVararg: bool, parameterName: string)

  /** The declaration keyword of a constructor parameter. */
  function DeclarationText(kind: ValueParameterType): (r: string)
    ensures r == "" <==> kind == Normal
  {
    match kind
    case Val() => "val "
    case Var() => "var "
    case Normal() => ""
  }

  /** The flags, `vararg `, the printed name and `": "`. */
  function ParameterDeclaration(p: ValueParameter): (r: string)
    ensures EndsWith(r, RenameParameter(p.parameterName) + ": ")
  {
    var head := KeywordsText(Printed(ValueParameterTable(p.flags))) + (if p.isVararg then "vararg " else "");
    var name := RenameParameter(p.parameterName) + ": ";
    assert head + RenameParameter(p.parameterName) + ": " == head + name;
    assert (head + name)[|head + name| - |name|..] == name;
    head + RenameParameter(p.parameterName) + ": "
  }

  /** The text KotlinMetadataPrinter's `printValueParameter` writes ahead of
    * the type: `", "` unless first, the declaration keyword, the flags,
    * `vararg `, the printed name and `": "`. KotlinSourcePrinter writes the
    * same without a declaration keyword, which is `Normal` here. */
  function ValueParameterPrefix(kind: ValueParameterType, p: ValueParameter): string
  {
    (if p.index != 0 then ", " else "") + DeclarationText(kind) + ParameterDeclaration(p)
  }

  /** KotlinSourcePrinter's text is KotlinMetadataPrinter's with the
    * declaration keyword taken out: the keyword follows the separator, and
    * the separator is there exactly when the parameter is not the first. */
  lemma DeclarationKeyword(kind: ValueParameterType, p: ValueParameter)
    ensures var plain := ValueParameterPrefix(Normal, p);
      if p.index == 0 then ValueParameterPrefix(kind, p) == DeclarationText(kind) + plain
      else StartsWith(plain, ", ") && ValueParameterPrefix(kind, p) == ", " + DeclarationText(kind) + plain[2..]
  {
    SeparatorAndKeyword(p.index != 0, kind, ParameterDeclaration(p));
  }

  lemma SeparatorAndKeyword(separated: bool, kind: ValueParameterType, tail: string)
    ensures var plain := (if separated then ", " else "") + DeclarationText(Normal) + tail;
      var full := (if separated then ", " else "") + DeclarationText(kind) + tail;
      if !separated then full == DeclarationText(kind) + plain
      else StartsWith(plain, ", ") && full == ", " + DeclarationText(kind) + plain[2..]
  {
    if separated {
      assert (", " + "" + tail)[2..] == tail;
    } else {
      assert "" + "" + tail == tail;
    }
  }

  /** The text ends with the printed name followed by `": "`. */
  lemma ParameterNameLast(kind: ValueParameterType, p: ValueParameter)
    ensures EndsWith(ValueParameterPrefix(kind, p), RenameParameter(p.parameterName) + ": ")
  {
    var head := (if p.index != 0 then ", " else "") + DeclarationText(kind);
    SuffixOfConcat(head, ParameterDeclaration(p), RenameParameter(p.parameterName) + ": ");
  }

  lemma SuffixOfConcat(head: string, tail: string, suffix: string)
    requires EndsWith(tail, suffix)
    ensures EndsWith(head + tail, suffix)
  {
    assert (head + tail)[|head + tail| - |suffix|..] == tail[|tail| - |suffix|..];
  }
}
