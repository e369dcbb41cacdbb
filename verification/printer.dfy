/** The printer object of both generations (KotlinMetadataPrinter and
  * KotlinSourcePrinter): the state it keeps between visits and the steps
  * that print into its buffer stack one piece at a time. What the visitors
  * render in between (members, types, annotations) arrives as text. */
module Printer {
  import opened Results
  import opened Text
  import opened Frames
  import opened Flags
  import opened Output
  import opened NameContext
  import opened Sections
  import opened EnumLayout
  import opened Parameters
  import Names
  import KA = KotlinAnnotations

  /** What a class visit decides for each class of `classes` in turn, when
    * the classes in `seen` have been printed already: a class is printed
    * the first time only. */
  function Visits(seen: set<string>, classes: seq<string>): (r: seq<bool>)
    ensures |r| == |classes|
    decreases |classes|
  {
    if classes == [] then []
    else [classes[0] !in seen] + Visits(seen + {classes[0]}, classes[1..])
  }

  /** A class is printed exactly when neither an earlier visit nor an
    * earlier position of the run has printed it, so no class is printed
    * twice. */
  lemma VisitsAtMostOnce(seen: set<string>, classes: seq<string>)
    ensures forall i | 0 <= i < |classes| :: Visits(seen, classes)[i] <==> classes[i] !in seen && classes[i] !in classes[..i]
    ensures forall i, j | 0 <= i < j < |classes| && classes[i] == classes[j] :: !(Visits(seen, classes)[i] && Visits(seen, classes)[j])
  {
    VisitsFirstOnly(seen, classes);
    forall i, j | 0 <= i < j < |classes| && classes[i] == classes[j]
      ensures !(Visits(seen, classes)[i] && Visits(seen, classes)[j])
    {
      assert classes[i] in classes[..j];
    }
  }

  lemma {:induction false} VisitsFirstOnly(seen: set<string>, classes: seq<string>)
    ensures forall i | 0 <= i < |classes| :: Visits(seen, classes)[i] <==> classes[i] !in seen && classes[i] !in classes[..i]
    decreases |classes|
  {
    if classes != [] {
      var c, rest := classes[0], classes[1..];
      VisitsFirstOnly(seen + {c}, rest);
      forall i | 0 <= i < |classes|
        ensures Visits(seen, classes)[i] <==> classes[i] !in seen && classes[i] !in classes[..i]
      {
        if i > 0 {
          assert Visits(seen, classes)[i] == Visits(seen + {c}, rest)[i - 1];
          assert classes[i] == rest[i - 1];
          assert classes[..i] == [c] + rest[..i - 1];
        }
      }
    }
  }

  /** The suffix a value parameter with a default value gets. */
  const DEFAULT_VALUE: string := " = /* default value */"

  class KotlinPrinter {
    const generation: Generation
    /** KotlinMetadataPrinter's option to leave the nodes printed inside
      * other nodes out of the top level; KotlinSourcePrinter always does. */
    const excludeEmbedded: bool
    const out: OutputBuffer
    const context: Context
    /** KotlinSourcePrinter: the classes printed so far. */
    var alreadyVisited: set<string>
    /** The processing info each visited class carries, by class name. */
    var processingInfo: map<string, Option<string>>

    constructor (generation: Generation, excludeEmbedded: bool)
      ensures this.generation == generation && this.excludeEmbedded == excludeEmbedded
      ensures fresh(out) && fresh(context)
      ensures out.builders == [] && out.indentation == 0
      ensures context.Valid() && context.frames == []
      ensures alreadyVisited == {} && processingInfo == map[]
    {
      this.generation := generation;
      this.excludeEmbedded := excludeEmbedded;
      out := new OutputBuffer();
      context := new Context();
      alreadyVisited := {};
      processingInfo := map[];
    }

    /** `visitAnyKotlinMetadata`: renders the node into a fresh buffer, when
      * the top-level filter lets it through, and leaves the text on the
      * class as its processing info (none when it is empty). `rendered` is
      * what the inner printer writes for the node. */
    method VisitAnyKotlinMetadata(className: string, k: int, rendered: string)
      modifies this, out
      ensures processingInfo == old(processingInfo)[className := ProcessingInfo(if TopLevelRendered(generation, excludeEmbedded, k) then rendered else "")]
      ensures out.builders == old(out.builders) && out.indentation == old(out.indentation)
      ensures alreadyVisited == old(alreadyVisited)
    {
      out.PushStringBuilder();
      if TopLevelRendered(generation, excludeEmbedded, k) {
        out.Print(rendered, false);
        AppendedTop(old(out.builders), "", rendered);
        assert "" + rendered == rendered;
      }
      var result := out.PopStringBuilder();
      if |result| > 0 {
        processingInfo := processingInfo[className := Some(result)];
      } else {
        processingInfo := processingInfo[className := None];
      }
    }

    /** KotlinSourcePrinter's guard at the start of a class visit: go on only
      * for a class not printed before, and remember it. */
    method ShouldVisit(className: string) returns (visit: bool)
      modifies this
      ensures visit <==> className !in old(alreadyVisited)
      ensures alreadyVisited == old(alreadyVisited) + {className}
      ensures processingInfo == old(processingInfo)
    {
      if className in alreadyVisited {
        return false;
      }
      alreadyVisited := alreadyVisited + {className};
      visit := true;
    }

    /** `printHeader`: writes `HeaderText` at the current indentation. When
      * KotlinMetadataPrinter reads a metadata version shorter than three
      * numbers, it stops with that error after the start of the kind line. */
    method PrintHeader(md: KotlinMetadata, kindString: string, className: string) returns (error: Option<JavaException>)
      requires out.builders != []
      modifies out
      ensures out.indentation == old(out.indentation)
      ensures var h := HeaderText(generation, context.IsTop(), context.packageName, md, kindString, className, out.indentation);
        && (h.Success? ==> error == None && out.builders == Appended(old(out.builders), h.value))
        && (h.Failure? ==>
              error == Some(h.error)
              && out.builders == Appended(old(out.builders), HeaderBeforeVersion(context.IsTop(), context.packageName, md, kindString, out.indentation)))
    {
      ghost var b0 := out.builders;
      ghost var ind := out.indentation;
      var isTop := context.IsTop();
      PrintPackageLines();
      ghost var pkg := PackageLines(isTop, context.packageName, ind);
      var kind := kindString;
      if md.kind.ClassKind? && md.kind.isCompanionObject {
        kind := "companion " + kind;
      }
      assert kind == KindText(md, kindString);
      var from := Names.ExternalClassName(className);
      ghost var h := HeaderText(generation, isTop, context.packageName, md, kindString, className, ind);
      if isTop {
        ghost var c := TopComment(generation, kind, from, md.mv, ind);
        assert h == if c.Success? then Success(pkg + c.value) else Failure(c.error);
        error := PrintTopComment(kind, from, md.mv);
        if error.Some? {
          AppendedTwice(b0, pkg, TopCommentBeforeVersion(kind, ind));
          return;
        }
        AppendedTwice(b0, pkg, c.value);
      } else {
        assert h == Success(pkg + NestedComment(kind, from, md, ind));
        PrintNestedComment(kind, from, md);
        AppendedTwice(b0, pkg, NestedComment(kind, from, md, ind));
        error := None;
      }
    }

    /** The package line of the outermost node of a named package, then an
      * empty line. */
    method PrintPackageLines()
      requires out.builders != []
      modifies out
      ensures out.indentation == old(out.indentation)
      ensures out.builders == Appended(old(out.builders), PackageLines(context.IsTop(), context.packageName, out.indentation))
    {
      ghost var b0 := out.builders;
      if context.IsTop() && |context.packageName| > 0 {
        out.PrintLine("package " + Names.ExternalClassName(context.packageName), true);
        out.PrintNewline();
        AppendedTwice(b0, Line(out.indentation, "package " + Names.ExternalClassName(context.packageName)), LINE_SEPARATOR);
      } else {
        AppendedNothing(b0);
      }
    }

    /** The comment block of the outermost node's header. */
    method PrintTopComment(kind: string, from: string, mv: seq<int>) returns (error: Option<JavaException>)
      requires out.builders != []
      modifies out
      ensures out.indentation == old(out.indentation)
      ensures var c := TopComment(generation, kind, from, mv, out.indentation);
        && (c.Success? ==> error == None && out.builders == Appended(old(out.builders), c.value))
        && (c.Failure? ==> error == Some(c.error) && out.builders == Appended(old(out.builders), TopCommentBeforeVersion(kind, out.indentation)))
    {
      ghost var b0 := out.builders;
      ghost var ind := out.indentation;
      out.PrintLine("/**", true);
      ghost var acc := Line(ind, "/**");
      if generation == KotlinMetadataPrinter {
        out.Print("* Kotlin " + kind + " ", false);
        AppendedTwice(b0, acc, "* Kotlin " + kind + " ");
        acc := acc + ("* Kotlin " + kind + " ");
        if |mv| < 3 {
          error := Some(ArrayIndexOutOfBounds);
          return;
        }
        out.PrintLine(VersionText(mv), true);
        AppendedTwice(b0, acc, Line(ind, VersionText(mv)));
        acc := acc + Line(ind, VersionText(mv));
      } else {
        out.PrintLine("* Kotlin " + kind + ".", true);
        AppendedTwice(b0, acc, Line(ind, "* Kotlin " + kind + "."));
        acc := acc + Line(ind, "* Kotlin " + kind + ".");
      }
      out.PrintLine("* From Java class: " + from, true);
      AppendedTwice(b0, acc, Line(ind, "* From Java class: " + from));
      acc := acc + Line(ind, "* From Java class: " + from);
      out.PrintLine("*/", true);
      AppendedTwice(b0, acc, Line(ind, "*/"));
      error := None;
    }

    /** The comment lines of a nested node's header. */
    method PrintNestedComment(kind: string, from: string, md: KotlinMetadata)
      requires out.builders != []
      modifies out
      ensures out.indentation == old(out.indentation)
      ensures out.builders == Appended(old(out.builders), NestedComment(kind, from, md, out.indentation))
    {
      ghost var b0 := out.builders;
      ghost var ind := out.indentation;
      out.PrintLine("// Kotlin " + kind + " from Java class: " + from, true);
      ghost var line := Line(ind, "// Kotlin " + kind + " from Java class: " + from);
      if md.kind.ClassKind? && md.kind.anonymousObjectOriginName.Some? {
        out.PrintLine("// Anonymous object origin: " + Names.ExternalClassName(md.kind.anonymousObjectOriginName.value), true);
        AppendedTwice(b0, line, OriginLine(md, ind));
      } else {
        assert line + OriginLine(md, ind) == line;
      }
    }

    /** One section of `printMembers`: the section's opening, then each
      * member's text, when there are members. */
    method PrintSection(title: string, members: seq<string>)
      requires out.builders != []
      modifies out
      ensures out.builders == Appended(old(out.builders), SectionText(title, members, out.indentation))
      ensures out.indentation == old(out.indentation)
    {
      ghost var b0 := out.builders;
      if |members| > 0 {
        out.PrintNewline();
        out.PrintLine("// " + title, true);
        AppendedTwice(b0, LINE_SEPARATOR, Line(out.indentation, "// " + title));
        out.PrintNewline();
        AppendedTwice(b0, LINE_SEPARATOR + Line(out.indentation, "// " + title), LINE_SEPARATOR);
        ghost var head := SectionHead(title, out.indentation);
        var i := 0;
        assert head + Concat(members[..0]) == head;
        while i < |members|
          invariant 0 <= i <= |members|
          invariant out.indentation == old(out.indentation)
          invariant out.builders == Appended(b0, head + Concat(members[..i]))
        {
          out.Print(members[i], false);
          AppendedTwice(b0, head + Concat(members[..i]), members[i]);
          assert members[..i + 1][..i] == members[..i];
          assert head + Concat(members[..i]) + members[i] == head + Concat(members[..i + 1]);
          i := i + 1;
        }
        assert members[..|members|] == members;
      } else {
        AppendedNothing(b0);
      }
    }

    /** `printMembers`: type aliases, then properties together with local
      * delegated properties, then functions. */
    method PrintMembers(typeAliases: seq<string>, properties: seq<string>, delegatedProperties: seq<string>, functions: seq<string>)
      requires out.builders != []
      modifies out
      ensures out.builders == Appended(old(out.builders), MembersText(typeAliases, properties, delegatedProperties, functions, out.indentation))
      ensures out.indentation == old(out.indentation)
    {
      ghost var b0 := out.builders;
      var ind := out.indentation;
      PrintSection("Type aliases", typeAliases);
      PrintSection("Properties", properties + delegatedProperties);
      AppendedTwice(b0, SectionText("Type aliases", typeAliases, ind), SectionText("Properties", properties + delegatedProperties, ind));
      PrintSection("Functions", functions);
      AppendedTwice(b0, SectionText("Type aliases", typeAliases, ind) + SectionText("Properties", properties + delegatedProperties, ind),
        SectionText("Functions", functions, ind));
    }

    /** The tail of a class visit: the enum entries are written into a
      * buffer of their own, five to a line, the indentation steps back, the
      * entries and the class body (the buffer on top when this starts) are
      * popped, and `ClassClose` of the two is printed into the buffer below. */
    method PrintEnumEntriesAndClose(names: seq<string>)
      requires |out.builders| >= 2
      modifies out
      ensures out.indentation == old(out.indentation) - 1
      ensures out.builders == Appended(old(out.builders[..|out.builders| - 1]),
        ClassClose(old(out.Top()), EnumEntriesText(names, old(out.indentation)), |names|, old(out.indentation) - 1))
    {
      ghost var below := out.builders[..|out.builders| - 1];
      ghost var body := out.Top();
      ghost var ind := out.indentation;
      assert out.builders == below + [body];
      out.PushStringBuilder();
      var i := 0;
      while i < |names|
        invariant 0 <= i <= |names|
        invariant out.indentation == ind
        invariant out.builders == below + [body] + [EnumEntriesPrefix(names, i, ind)]
      {
        PrintEnumEntry(names, i);
        AppendedTop(below + [body], EnumEntriesPrefix(names, i, ind), EnumEntryText(names, i, ind));
        i := i + 1;
      }
      out.Outdent();
      var entries := out.PopStringBuilder();
      var classBody := out.PopStringBuilder();
      assert entries == EnumEntriesText(names, ind);
      assert classBody == body && out.builders == below;
      PrintClassClose(classBody, entries, |names|);
    }

    /** One iteration of the entry loop. */
    method PrintEnumEntry(names: seq<string>, i: nat)
      requires i < |names| && out.builders != []
      modifies out
      ensures out.indentation == old(out.indentation)
      ensures out.builders == Appended(old(out.builders), EnumEntryText(names, i, out.indentation))
    {
      ghost var b0 := out.builders;
      ghost var ind := out.indentation;
      if i > 0 && i % 5 == 0 {
        out.PrintNewline();
      } else {
        AppendedNothing(b0);
      }
      out.Print(names[i], i % 5 == 0);
      assert EntryIndent(i, ind) == if i % 5 == 0 then IndentText(ind) else "";
      AppendedTwice(b0, EntryBreak(i), EntryIndent(i, ind) + names[i]);
      out.Print(if i != |names| - 1 then ", " else "", false);
      AppendedTwice(b0, EntryBreak(i) + (EntryIndent(i, ind) + names[i]), EntrySeparator(i, |names|));
      EntryPieces(names, i, ind);
    }

    /** Prints `ClassClose` of a popped class body and entry text. */
    method PrintClassClose(classBody: string, entries: string, entryCount: nat)
      requires out.builders != []
      modifies out
      ensures out.indentation == old(out.indentation)
      ensures out.builders == Appended(old(out.builders), ClassClose(classBody, entries, entryCount, out.indentation))
    {
      ghost var b0 := out.builders;
      ghost var ind := out.indentation;
      if |classBody| > 0 {
        out.PrintLine("{", false);
        ghost var acc := "{" + LINE_SEPARATOR;
        if |entries| > 0 {
          out.PrintLine(entries + ";", false);
          AppendedTwice(b0, acc, entries + ";" + LINE_SEPARATOR);
          acc := acc + (entries + ";" + LINE_SEPARATOR);
        }
        out.Print(classBody, true);
        AppendedTwice(b0, acc, IndentText(ind) + classBody);
        acc := acc + (IndentText(ind) + classBody);
        out.PrintLine("}", true);
        AppendedTwice(b0, acc, IndentText(ind) + "}" + LINE_SEPARATOR);
      } else if |entries| > 0 {
        var oneLine := entryCount <= MAX_ENUM_ENTRY_PER_LINE;
        ghost var lead := if oneLine then "" else IndentText(ind);
        out.Print("{" + (if oneLine then " " else LINE_SEPARATOR), false);
        out.Print(if oneLine then Trim(entries) + " " else entries + LINE_SEPARATOR, !oneLine);
        AppendedTwice(b0, "{" + (if oneLine then " " else LINE_SEPARATOR), lead + (if oneLine then Trim(entries) + " " else entries + LINE_SEPARATOR));
        out.PrintLine("}", !oneLine);
        AppendedTwice(b0, "{" + (if oneLine then " " else LINE_SEPARATOR) + (lead + (if oneLine then Trim(entries) + " " else entries + LINE_SEPARATOR)),
          lead + "}" + LINE_SEPARATOR);
      } else {
        out.PrintNewline();
        out.PrintNewline();
        AppendedTwice(b0, LINE_SEPARATOR, LINE_SEPARATOR);
      }
    }

    /** `printValueParameter` (KotlinSourcePrinter's `visitAnyValueParameter`
      * with `Normal`): the text ahead of the parameter's type. */
    method PrintValueParameter(kind: ValueParameterType, p: ValueParameter)
      requires out.builders != []
      modifies out
      ensures out.indentation == old(out.indentation)
      ensures out.builders == Appended(old(out.builders), ValueParameterPrefix(kind, p))
    {
      ghost var b0 := out.builders;
      var separator := if p.index != 0 then ", " else "";
      out.Print(separator, false);
      if kind == ValueParameterType.Val {
        out.Print("val ", false);
      } else if kind == ValueParameterType.Var {
        out.Print("var ", false);
      }
      AppendedTwice(b0, separator, DeclarationText(kind));
      assert kind == Normal ==> separator + DeclarationText(kind) == separator;
      PrintParameterDeclaration(p);
      AppendedTwice(b0, separator + DeclarationText(kind), ParameterDeclaration(p));
    }

    /** The flags, `vararg `, the printed name and `": "`. */
    method PrintParameterDeclaration(p: ValueParameter)
      requires out.builders != []
      modifies out
      ensures out.indentation == old(out.indentation)
      ensures out.builders == Appended(old(out.builders), ParameterDeclaration(p))
    {
      ghost var b0 := out.builders;
      var keywords := KeywordsText(Printed(ValueParameterTable(p.flags)));
      out.Print(keywords, false);
      var vararg := if p.isVararg then "vararg " else "";
      out.Print(vararg, false);
      AppendedTwice(b0, keywords, vararg);
      var name := RenameParameter(p.parameterName);
      out.Print(name, false);
      AppendedTwice(b0, keywords + vararg, name);
      out.Print(": ", false);
      AppendedTwice(b0, keywords + vararg + name, ": ");
    }

    /** A value parameter visit: the text ahead of the type, then the type
      * rendered into a buffer of its own and copied out, then the default
      * value marker. For a vararg the element type's visit follows the
      * type's and resets that buffer first, so only the element type is
      * printed. */
    method PrintTypedValueParameter(kind: ValueParameterType, p: ValueParameter, typeText: string, varargElementText: Option<string>)
      requires out.builders != []
      modifies out
      ensures out.indentation == old(out.indentation)
      ensures out.builders == Appended(old(out.builders),
        ValueParameterPrefix(kind, p)
        + (if varargElementText.Some? then varargElementText.value else typeText)
        + (if p.flags.hasDefaultValue then DEFAULT_VALUE else ""))
    {
      ghost var b0 := out.builders;
      PrintValueParameter(kind, p);
      PrintParameterType(typeText, varargElementText);
      ghost var typed := ValueParameterPrefix(kind, p) + (if varargElementText.Some? then varargElementText.value else typeText);
      AppendedTwice(b0, ValueParameterPrefix(kind, p), if varargElementText.Some? then varargElementText.value else typeText);
      if p.flags.hasDefaultValue {
        out.Print(DEFAULT_VALUE, false);
        AppendedTwice(b0, typed, DEFAULT_VALUE);
      } else {
        assert typed + "" == typed;
      }
    }

    /** The type rendered into a buffer of its own and copied out; a vararg
      * element type's visit resets that buffer, so only it is kept. */
    method PrintParameterType(typeText: string, varargElementText: Option<string>)
      requires out.builders != []
      modifies out
      ensures out.indentation == old(out.indentation)
      ensures out.builders == Appended(old(out.builders), if varargElementText.Some? then varargElementText.value else typeText)
    {
      ghost var b1 := out.builders;
      out.PushStringBuilder();
      out.Print(typeText, false);
      AppendedTop(b1, "", typeText);
      if varargElementText.Some? {
        out.ResetStringBuilder();
        assert out.builders == b1 + [""];
        out.Print(varargElementText.value, false);
        AppendedTop(b1, "", varargElementText.value);
      }
      var text := out.PopStringBuilder();
      assert out.builders == b1;
      assert text == (if varargElementText.Some? then varargElementText.value else typeText) by {
        assert "" + typeText == typeText;
        assert varargElementText.Some? ==> "" + varargElementText.value == varargElementText.value;
      }
      out.Print(text, false);
    }

    /** KotlinMetadataPrinter's `visitConstructorValParameter`: the
      * declaration keyword comes from the last of the class's properties
      * named like the parameter. */
    method VisitConstructorValParameter(properties: seq<PropertySignatures>, p: ValueParameter, typeText: string, varargElementText: Option<string>)
      requires out.builders != []
      modifies out
      ensures out.indentation == old(out.indentation)
      ensures out.builders == Appended(old(out.builders),
        ValueParameterPrefix(LastMatch(properties, p.parameterName), p)
        + (if varargElementText.Some? then varargElementText.value else typeText)
        + (if p.flags.hasDefaultValue then DEFAULT_VALUE else ""))
    {
      var kind := ConstructorParameterType(properties, p.parameterName);
      PrintTypedValueParameter(kind, p, typeText, varargElementText);
    }

    /** KotlinSourcePrinter's `visitAnyAnnotation` for metadata annotations:
      * `@` and the annotation. */
    method VisitMetadataAnnotation(a: KA.MetadataAnnotation)
      requires context.Valid() && out.builders != []
      modifies out
      ensures out.indentation == old(out.indentation)
      ensures out.builders == Appended(old(out.builders), "@" + KA.KmAnnotationText(context.frames, context.packageName, a))
    {
      ghost var b0 := out.builders;
      out.Print("@", false);
      PrintKotlinAnnotation(a);
      AppendedTwice(b0, "@", KA.KmAnnotationText(context.frames, context.packageName, a));
    }

    /** `printKotlinAnnotation`: the shortened class, then, when there are
      * arguments, each as `name = value` with `", "` before all but the
      * first, in parentheses. */
    method PrintKotlinAnnotation(a: KA.MetadataAnnotation)
      requires context.Valid() && out.builders != []
      modifies out
      decreases a, 1
      ensures out.indentation == old(out.indentation)
      ensures out.builders == Appended(old(out.builders), KA.KmAnnotationText(context.frames, context.packageName, a))
    {
      ghost var frames, packageName := context.frames, context.packageName;
      ghost var b0 := out.builders;
      var name := context.ClassName(a.className, ".");
      out.Print(name, false);
      var open := if |a.arguments| > 0 then "(" else "";
      out.Print(open, false);
      AppendedTwice(b0, name, open);
      PrintKmArguments(a.arguments);
      ghost var inner := KA.KmArgumentsText(frames, packageName, a.arguments);
      AppendedTwice(b0, name + open, inner);
      var close := if |a.arguments| > 0 then ")" else "";
      out.Print(close, false);
      AppendedTwice(b0, name + open + inner, close);
      assert a.arguments == [] ==> inner == "" && name + open + inner + close == name;
    }

    /** The loop of `printKotlinAnnotation` over the argument map. */
    method PrintKmArguments(args: seq<KA.Argument>)
      requires context.Valid() && out.builders != []
      modifies out
      decreases args, 0
      ensures out.indentation == old(out.indentation)
      ensures out.builders == Appended(old(out.builders), KA.KmArgumentsText(context.frames, context.packageName, args))
    {
      ghost var frames, packageName := context.frames, context.packageName;
      ghost var b0 := out.builders;
      AppendedNothing(b0);
      var i := 0;
      while i < |args|
        invariant 0 <= i <= |args|
        invariant out.indentation == old(out.indentation) && out.builders != []
        invariant out.builders == Appended(b0, KA.KmArgumentsText(frames, packageName, args[..i]))
      {
        ghost var done := KA.KmArgumentsText(frames, packageName, args[..i]);
        PrintKmArgumentEntry(args[i], i);
        ghost var entry := (if i > 0 then ", " else "") + args[i].name + " = " + KA.KmValueText(frames, packageName, args[i].value);
        AppendedTwice(b0, done, entry);
        KA.KmArgumentsTextStep(frames, packageName, args, i);
        assert done + entry == KA.KmArgumentsText(frames, packageName, args[..i + 1]);
        i := i + 1;
      }
      assert args[..i] == args;
    }

    /** One entry of the argument map, the `i`-th: `", "` unless it is the
      * first, the name, ` = ` and the value. */
    method PrintKmArgumentEntry(arg: KA.Argument, i: nat)
      requires context.Valid() && out.builders != []
      modifies out
      decreases arg, 0
      ensures out.indentation == old(out.indentation)
      ensures out.builders == Appended(old(out.builders),
        (if i > 0 then ", " else "") + arg.name + " = " + KA.KmValueText(context.frames, context.packageName, arg.value))
    {
      ghost var b0 := out.builders;
      var sep := if i > 0 then ", " else "";
      out.Print(sep, false);
      out.Print(arg.name + " = ", false);
      AppendedTwice(b0, sep, arg.name + " = ");
      PrintKmAnnotationArgument(arg.value);
      AppendedTwice(b0, sep + (arg.name + " = "), KA.KmValueText(context.frames, context.packageName, arg.value));
      assert sep + (arg.name + " = ") + KA.KmValueText(context.frames, context.packageName, arg.value)
          == sep + arg.name + " = " + KA.KmValueText(context.frames, context.packageName, arg.value);
    }

    /** `printKmAnnotationArgument`: one argument value. */
    method PrintKmAnnotationArgument(v: KA.ArgumentValue)
      requires context.Valid() && out.builders != []
      modifies out
      decreases v, 1
      ensures out.indentation == old(out.indentation)
      ensures out.builders == Appended(old(out.builders), KA.KmValueText(context.frames, context.packageName, v))
    {
      if v.AnnotationValue? {
        PrintKotlinAnnotation(v.annotation);
      } else if v.ArrayValue? {
        PrintKmArray(v.members);
        assert KA.KmValueText(context.frames, context.packageName, v)
            == "{" + KA.KmMembersText(context.frames, context.packageName, v.members) + "}";
      } else {
        var text: string;
        if v.StringValue? {
          text := "\"" + v.text + "\"";
        } else if v.ClassValue? {
          text := context.ClassName(v.className, ".");
        } else if v.EnumValue? {
          text := context.ClassName(v.enumClassName + "." + v.enumEntryName, ".");
        } else {
          text := KA.ScalarText(context.frames, context.packageName, v);
        }
        out.Print(text, false);
        assert KA.KmValueText(context.frames, context.packageName, v) == text;
      }
    }

    /** The array branch of `printKmAnnotationArgument`: the members in
      * braces, `", "` before all but the first. */
    method PrintKmArray(members: seq<KA.ArgumentValue>)
      requires context.Valid() && out.builders != []
      modifies out
      decreases members, 0
      ensures out.indentation == old(out.indentation)
      ensures out.builders == Appended(old(out.builders), "{" + KA.KmMembersText(context.frames, context.packageName, members) + "}")
    {
      ghost var frames, packageName := context.frames, context.packageName;
      ghost var b0 := out.builders;
      out.Print("{", false);
      var j := 0;
      assert members[..0] == [];
      assert "{" + KA.KmMembersText(frames, packageName, members[..0]) == "{";
      while j < |members|
        invariant 0 <= j <= |members|
        invariant out.indentation == old(out.indentation) && out.builders != []
        invariant out.builders == Appended(b0, "{" + KA.KmMembersText(frames, packageName, members[..j]))
      {
        ghost var done := "{" + KA.KmMembersText(frames, packageName, members[..j]);
        var sep := if j > 0 then ", " else "";
        out.Print(sep, false);
        PrintKmAnnotationArgument(members[j]);
        ghost var valueText := KA.KmValueText(frames, packageName, members[j]);
        AppendedTwice(b0, done, sep);
        AppendedTwice(b0, done + sep, valueText);
        KA.BracedMembersStep(frames, packageName, members, j);
        j := j + 1;
      }
      assert members[..j] == members;
      out.Print("}", false);
      AppendedTwice(b0, "{" + KA.KmMembersText(frames, packageName, members), "}");
    }
  }
}
