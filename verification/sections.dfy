/** The fixed pieces of text the two printer generations write around the
  * declarations they render: the header comment, the member-section
  * comments, the top-level filter, constructors, supertypes and the
  * `@file:` lines of a multi-file class part. The declarations themselves
  * (members, types, parameters) arrive here already rendered. */
module Sections {
  import opened Results
  import opened Text
  import opened Frames
  import opened Flags
  import Names

  // ---------------------------------------------------------------------
  // Header
  // ---------------------------------------------------------------------

  /** `println(s, true)`: the text at the current indentation, then a line
    * separator. */
  function Line(indentation: int, s: string): (r: string)
    ensures StartsWith(r, IndentText(indentation) + s)
    ensures EndsWith(r, LINE_SEPARATOR)
  {
    var r := IndentText(indentation) + s + LINE_SEPARATOR;
    assert r[..|IndentText(indentation) + s|] == IndentText(indentation) + s;
    r
  }

  /** The kind name `metadataKindToString` gives, with `companion ` in front
    * for a companion object's class. */
  function KindText(md: KotlinMetadata, kindString: string): (r: string)
    ensures EndsWith(r, kindString)
    ensures StartsWith(r, "companion ") ==> md.kind.ClassKind? || StartsWith(kindString, "companion ")
  {
    if md.kind.ClassKind? && md.kind.isCompanionObject then
      assert ("companion " + kindString)[10..] == kindString;
      "companion " + kindString
    else
      assert kindString[|kindString| - |kindString|..] == kindString;
      kindString
  }

  /** `package x.y`, then an empty line: only for the outermost node of a
    * named package. */
  function PackageLines(isTop: bool, packageName: string, indentation: int): (r: string)
    ensures r == "" <==> !(isTop && packageName != "")
    ensures r != "" ==> StartsWith(r, IndentText(indentation) + "package ")
  {
    if isTop && packageName != "" then
      var line := Line(indentation, "package " + Names.ExternalClassName(packageName));
      assert StartsWith(IndentText(indentation) + "package " + Names.ExternalClassName(packageName), IndentText(indentation) + "package ") by {
        PrefixOfConcat(IndentText(indentation) + "package ", Names.ExternalClassName(packageName), IndentText(indentation) + "package ");
      }
      StartsWithTrans(line, IndentText(indentation) + "package " + Names.ExternalClassName(packageName), IndentText(indentation) + "package ");
      PrefixOfConcat(line, LINE_SEPARATOR, IndentText(indentation) + "package ");
      line + LINE_SEPARATOR
    else ""
  }

  /** The metadata version KotlinMetadataPrinter writes in the outermost
    * header, from the first three entries of `mv`. */
  function VersionText(mv: seq<int>): string
    requires |mv| >= 3
  {
    "(metadata version " + IntToString(mv[0]) + "." + IntToString(mv[1]) + "." + IntToString(mv[2]) + ")."
  }

  /** `// Anonymous object origin: …` for a class that has one. */
  function OriginLine(md: KotlinMetadata, indentation: int): string
  {
    if md.kind.ClassKind? && md.kind.anonymousObjectOriginName.Some? then
      Line(indentation, "// Anonymous object origin: " + Names.ExternalClassName(md.kind.anonymousObjectOriginName.value))
    else ""
  }

  /** The comment block opening the outermost node, in the order it is
    * printed. KotlinMetadataPrinter starts the second line unindented and
    * completes it with the metadata version, reading three entries of `mv`,
    * which fails on a shorter array; KotlinSourcePrinter ends the line after
    * the kind. */
  function TopComment(g: Generation, kind: string, from: string, mv: seq<int>, indentation: int): (r: Result<string>)
    ensures r.Failure? <==> g == KotlinMetadataPrinter && |mv| < 3
  {
    if g == KotlinMetadataPrinter && |mv| < 3 then Failure(ArrayIndexOutOfBounds)
    else
      var kindLine := if g == KotlinMetadataPrinter
        then Line(indentation, "/**") + ("* Kotlin " + kind + " ") + Line(indentation, VersionText(mv))
        else Line(indentation, "/**") + Line(indentation, "* Kotlin " + kind + ".");
      Success(kindLine + Line(indentation, "* From Java class: " + from) + Line(indentation, "*/"))
  }

  /** What KotlinMetadataPrinter has written of the comment block when
    * reading the metadata version fails. */
  function TopCommentBeforeVersion(kind: string, indentation: int): string
  {
    Line(indentation, "/**") + ("* Kotlin " + kind + " ")
  }

  /** The comment line opening a nested node, and a second one for an
    * anonymous object's origin. */
  function NestedComment(kind: string, from: string, md: KotlinMetadata, indentation: int): string
  {
    Line(indentation, "// Kotlin " + kind + " from Java class: " + from) + OriginLine(md, indentation)
  }

  /** `printHeader`: the package lines, then the comment block of the
    * outermost node or the comment line of a nested one. */
  function HeaderText(g: Generation, isTop: bool, packageName: string, md: KotlinMetadata, kindString: string, className: string, indentation: int): (r: Result<string>)
    ensures r.Failure? <==> g == KotlinMetadataPrinter && isTop && |md.mv| < 3
  {
    var kind := KindText(md, kindString);
    var from := Names.ExternalClassName(className);
    var comment :- if isTop then TopComment(g, kind, from, md.mv, indentation) else Success(NestedComment(kind, from, md, indentation));
    Success(PackageLines(isTop, packageName, indentation) + comment)
  }

  /** The text written before the header fails. */
  function HeaderBeforeVersion(isTop: bool, packageName: string, md: KotlinMetadata, kindString: string, indentation: int): string
  {
    PackageLines(isTop, packageName, indentation) + TopCommentBeforeVersion(KindText(md, kindString), indentation)
  }

  /** The first comment line of the header. */
  function FirstCommentLine(isTop: bool, md: KotlinMetadata, kindString: string, className: string, indentation: int): (r: string)
    ensures StartsWith(r, IndentText(indentation) + "/")
  {
    var ind := IndentText(indentation);
    var s := if isTop then "/**" else "// Kotlin " + KindText(md, kindString) + " from Java class: " + Names.ExternalClassName(className);
    assert s[0] == '/';
    assert (ind + s)[..|ind + "/"|] == ind + "/";
    StartsWithTrans(Line(indentation, s), ind + s, ind + "/");
    Line(indentation, s)
  }

  /** Every header opens with its package lines, then its first comment line. */
  lemma HeaderOpening(g: Generation, isTop: bool, packageName: string, md: KotlinMetadata, kindString: string, className: string, indentation: int)
    requires HeaderText(g, isTop, packageName, md, kindString, className, indentation).Success?
    ensures StartsWith(HeaderText(g, isTop, packageName, md, kindString, className, indentation).value,
      PackageLines(isTop, packageName, indentation) + FirstCommentLine(isTop, md, kindString, className, indentation))
  {
    var kind := KindText(md, kindString);
    var from := Names.ExternalClassName(className);
    var first := FirstCommentLine(isTop, md, kindString, className, indentation);
    var comment := if isTop then TopComment(g, kind, from, md.mv, indentation).value else NestedComment(kind, from, md, indentation);
    assert HeaderText(g, isTop, packageName, md, kindString, className, indentation).value == PackageLines(isTop, packageName, indentation) + comment;
    if isTop {
      TopCommentOpening(g, kind, from, md.mv, indentation);
    } else {
      PrefixOfConcat(first, OriginLine(md, indentation), first);
    }
    StartsWithBoth(PackageLines(isTop, packageName, indentation), comment, first);
  }

  lemma TopCommentOpening(g: Generation, kind: string, from: string, mv: seq<int>, indentation: int)
    requires TopComment(g, kind, from, mv, indentation).Success?
    ensures StartsWith(TopComment(g, kind, from, mv, indentation).value, Line(indentation, "/**"))
  {
    var head := Line(indentation, "/**");
    var a := if g == KotlinMetadataPrinter then head + ("* Kotlin " + kind + " ") else head;
    var b := if g == KotlinMetadataPrinter then Line(indentation, VersionText(mv)) else Line(indentation, "* Kotlin " + kind + ".");
    PrefixOfConcat(head, "* Kotlin " + kind + " ", head);
    PrefixOfConcat(a, b, head);
    PrefixOfConcat(a + b, Line(indentation, "* From Java class: " + from), head);
    PrefixOfConcat(a + b + Line(indentation, "* From Java class: " + from), Line(indentation, "*/"), head);
  }

  lemma StartsWithBoth(a: string, b: string, prefix: string)
    requires StartsWith(b, prefix)
    ensures StartsWith(a + b, a + prefix)
  {
    assert (a + b)[..|a + prefix|] == a + b[..|prefix|];
  }

  /** The package line opens the header exactly when the node is outermost
    * and its package is named; otherwise the header opens with a comment. */
  lemma HeaderPackageLine(g: Generation, isTop: bool, packageName: string, md: KotlinMetadata, kindString: string, className: string, indentation: int)
    requires HeaderText(g, isTop, packageName, md, kindString, className, indentation).Success?
    ensures StartsWith(HeaderText(g, isTop, packageName, md, kindString, className, indentation).value, IndentText(indentation) + "package ")
      <==> isTop && packageName != ""
  {
    var ind := IndentText(indentation);
    var r := HeaderText(g, isTop, packageName, md, kindString, className, indentation).value;
    var pkg := PackageLines(isTop, packageName, indentation);
    var first := FirstCommentLine(isTop, md, kindString, className, indentation);
    HeaderOpening(g, isTop, packageName, md, kindString, className, indentation);
    if isTop && packageName != "" {
      PrefixOfConcat(pkg, first, ind + "package ");
      StartsWithTrans(r, pkg + first, ind + "package ");
    } else {
      assert pkg + first == first;
      StartsWithTrans(r, first, ind + "/");
      assert r[|ind|] == '/' by {
        assert (ind + "/")[|ind|] == '/';
      }
      assert (ind + "package ")[|ind|] == 'p';
    }
  }

  /** The outermost header ends by closing its comment block. */
  lemma TopHeaderEnd(g: Generation, packageName: string, md: KotlinMetadata, kindString: string, className: string, indentation: int)
    requires HeaderText(g, true, packageName, md, kindString, className, indentation).Success?
    ensures EndsWith(HeaderText(g, true, packageName, md, kindString, className, indentation).value, Line(indentation, "*/"))
  {
    var close := Line(indentation, "*/");
    var comment := TopComment(g, KindText(md, kindString), Names.ExternalClassName(className), md.mv, indentation).value;
    assert comment == comment[..|comment| - |close|] + close;
    EndsWithOfConcat(comment[..|comment| - |close|], close, close);
    EndsWithOfConcat(PackageLines(true, packageName, indentation), comment, close);
  }

  /** A nested node's header opens with one comment line naming the kind and
    * the Java class. */
  lemma NestedHeaderStart(g: Generation, packageName: string, md: KotlinMetadata, kindString: string, className: string, indentation: int)
    ensures var r := HeaderText(g, false, packageName, md, kindString, className, indentation);
      r.Success? && StartsWith(r.value, IndentText(indentation) + ("// Kotlin " + KindText(md, kindString) + " from Java class: "))
  {
    var head := "// Kotlin " + KindText(md, kindString) + " from Java class: ";
    var line := Line(indentation, head + Names.ExternalClassName(className));
    var r := HeaderText(g, false, packageName, md, kindString, className, indentation);
    NestedHeaderValue(g, packageName, md, kindString, className, indentation);
    assert r.value == line + OriginLine(md, indentation);
    LineStart(indentation, head, Names.ExternalClassName(className));
    PrefixOfConcat(line, OriginLine(md, indentation), IndentText(indentation) + head);
    assert StartsWith(r.value, IndentText(indentation) + head);
  }

  /** A line starts with its indentation and the start of its text. */
  lemma LineStart(indentation: int, head: string, tail: string)
    ensures StartsWith(Line(indentation, head + tail), IndentText(indentation) + head)
  {
    var ind := IndentText(indentation);
    assert (ind + (head + tail))[..|ind + head|] == ind + head;
    StartsWithTrans(Line(indentation, head + tail), ind + (head + tail), ind + head);
  }

  /** A nested node's header: its comment line, then the origin line. */
  lemma NestedHeaderValue(g: Generation, packageName: string, md: KotlinMetadata, kindString: string, className: string, indentation: int)
    ensures var r := HeaderText(g, false, packageName, md, kindString, className, indentation);
      r.Success? && r.value == Line(indentation, "// Kotlin " + KindText(md, kindString) + " from Java class: " + Names.ExternalClassName(className)) + OriginLine(md, indentation)
  {
    var line := Line(indentation, "// Kotlin " + KindText(md, kindString) + " from Java class: " + Names.ExternalClassName(className));
    assert PackageLines(false, packageName, indentation) == "";
    assert "" + (line + OriginLine(md, indentation)) == line + OriginLine(md, indentation);
  }

  lemma EndsWithOfConcat(a: string, b: string, suffix: string)
    requires EndsWith(b, suffix)
    ensures EndsWith(a + b, suffix)
  {
    assert (a + b)[|a + b| - |suffix|..] == b[|b| - |suffix|..];
  }

  lemma StartsWithTrans(a: string, b: string, c: string)
    requires StartsWith(a, b) && StartsWith(b, c)
    ensures StartsWith(a, c)
  {
    assert a[..|c|] == b[..|c|];
  }

  /** Below the outermost node the two generations write the same header. */
  lemma NestedHeaderSameInBothGenerations(packageName: string, md: KotlinMetadata, kindString: string, className: string, indentation: int)
    ensures HeaderText(KotlinMetadataPrinter, false, packageName, md, kindString, className, indentation)
         == HeaderText(KotlinSourcePrinter, false, packageName, md, kindString, className, indentation)
    ensures HeaderText(KotlinSourcePrinter, false, packageName, md, kindString, className, indentation).Success?
  {
  }

  // ---------------------------------------------------------------------
  // Member sections
  // ---------------------------------------------------------------------

  /** The opening of one section of `printMembers`: an empty line, the
    * indented `// <title>` comment, an empty line. */
  function SectionHead(title: string, indentation: int): string
  {
    LINE_SEPARATOR + Line(indentation, "// " + title) + LINE_SEPARATOR
  }

  /** The first characters of a section: a blank line, then the indented
    * comment naming it. */
  function SectionOpening(title: string, indentation: int): string
  {
    LINE_SEPARATOR + IndentText(indentation) + "// " + title + LINE_SEPARATOR
  }

  /** One section of `printMembers`: its opening, then the members; nothing
    * at all when the group is empty. */
  function SectionText(title: string, members: seq<string>, indentation: int): (r: string)
    ensures members == [] ==> r == ""
    ensures members != [] ==> StartsWith(r, SectionOpening(title, indentation))
  {
    if members == [] then ""
    else
      var head := SectionHead(title, indentation);
      var opening := SectionOpening(title, indentation);
      assert head[..|opening|] == opening;
      PrefixOfConcat(head, Concat(members), opening);
      head + Concat(members)
  }

  /** `printMembers`: type aliases, then properties together with local
    * delegated properties, then functions. */
  function MembersText(typeAliases: seq<string>, properties: seq<string>, delegatedProperties: seq<string>, functions: seq<string>, indentation: int): (r: string)
    ensures r == "" <==> typeAliases == [] && properties == [] && delegatedProperties == [] && functions == []
  {
    var a := SectionText("Type aliases", typeAliases, indentation);
    var p := SectionText("Properties", properties + delegatedProperties, indentation);
    var f := SectionText("Functions", functions, indentation);
    assert typeAliases != [] ==> a != "" by { if typeAliases != [] { SectionNotEmpty("Type aliases", typeAliases, indentation); } }
    assert properties + delegatedProperties != [] ==> p != "" by { if properties + delegatedProperties != [] { SectionNotEmpty("Properties", properties + delegatedProperties, indentation); } }
    assert functions != [] ==> f != "" by { if functions != [] { SectionNotEmpty("Functions", functions, indentation); } }
    a + p + f
  }

  lemma SectionNotEmpty(title: string, members: seq<string>, indentation: int)
    requires members != []
    ensures SectionText(title, members, indentation) != ""
  {
    assert |SectionOpening(title, indentation)| > 0;
  }

  /** With type aliases, their section comes first. */
  lemma TypeAliasesFirst(typeAliases: seq<string>, properties: seq<string>, delegatedProperties: seq<string>, functions: seq<string>, indentation: int)
    requires typeAliases != []
    ensures StartsWith(MembersText(typeAliases, properties, delegatedProperties, functions, indentation),
      SectionOpening("Type aliases", indentation))
  {
    var a := SectionText("Type aliases", typeAliases, indentation);
    var p := SectionText("Properties", properties + delegatedProperties, indentation);
    var f := SectionText("Functions", functions, indentation);
    FirstSection("Type aliases", typeAliases, p, indentation);
    PrefixOfConcat(a + p, f, SectionOpening("Type aliases", indentation));
    assert MembersText(typeAliases, properties, delegatedProperties, functions, indentation) == a + p + f;
  }

  /** Without type aliases, the properties' section comes first when there
    * are properties or local delegated properties. */
  lemma PropertiesFirst(properties: seq<string>, delegatedProperties: seq<string>, functions: seq<string>, indentation: int)
    requires properties + delegatedProperties != []
    ensures StartsWith(MembersText([], properties, delegatedProperties, functions, indentation),
      SectionOpening("Properties", indentation))
  {
    var p := SectionText("Properties", properties + delegatedProperties, indentation);
    var f := SectionText("Functions", functions, indentation);
    FirstSection("Properties", properties + delegatedProperties, f, indentation);
    assert SectionText("Type aliases", [], indentation) == "";
    assert MembersText([], properties, delegatedProperties, functions, indentation) == "" + p + f;
    assert "" + p == p;
  }

  /** With functions only, only the functions' section is written; with no
    * members at all, nothing is. */
  lemma FunctionsOnly(functions: seq<string>, indentation: int)
    ensures MembersText([], [], [], functions, indentation) == SectionText("Functions", functions, indentation)
    ensures functions == [] ==> MembersText([], [], [], functions, indentation) == ""
  {
    var none: seq<string> := [];
    assert none + none == none;
  }

  /** A non-empty section opens the text it starts. */
  lemma FirstSection(title: string, members: seq<string>, rest: string, indentation: int)
    requires members != []
    ensures StartsWith(SectionText(title, members, indentation) + rest, SectionOpening(title, indentation))
  {
    PrefixOfConcat(SectionText(title, members, indentation), rest, SectionOpening(title, indentation));
  }

  /** A prefix of the first part is a prefix of the whole. */
  lemma PrefixOfConcat(a: string, b: string, prefix: string)
    requires StartsWith(a, prefix)
    ensures StartsWith(a + b, prefix)
  {
    assert (a + b)[..|prefix|] == a[..|prefix|];
  }

  // ---------------------------------------------------------------------
  // Top-level filter
  // ---------------------------------------------------------------------

  /** Whether the inner printer renders a node handed to the printer at top
    * level: KotlinSourcePrinter, and KotlinMetadataPrinter when it excludes
    * embedded nodes, skip synthetic classes and multi-file class parts,
    * which are printed inside the node that holds them. */
  function TopLevelRendered(g: Generation, excludeEmbedded: bool, k: int): (r: bool)
    ensures (g == KotlinSourcePrinter || excludeEmbedded) && (k == METADATA_KIND_SYNTHETIC_CLASS || k == METADATA_KIND_MULTI_FILE_CLASS_PART) ==> !r
    ensures k != METADATA_KIND_SYNTHETIC_CLASS && k != METADATA_KIND_MULTI_FILE_CLASS_PART ==> r
    ensures g == KotlinMetadataPrinter && !excludeEmbedded ==> r
  {
    !(g == KotlinSourcePrinter || excludeEmbedded)
    || (k != METADATA_KIND_SYNTHETIC_CLASS && k != METADATA_KIND_MULTI_FILE_CLASS_PART)
  }

  /** The processing info left on the class: the text rendered for it, or
    * none when that text is empty. */
  function ProcessingInfo(text: string): (r: Option<string>)
    ensures r.Some? <==> text != ""
    ensures r.Some? ==> r.value == text
  {
    if text != "" then Some(text) else None
  }

  // ---------------------------------------------------------------------
  // Constructors
  // ---------------------------------------------------------------------

  /** A `@SinceKotlin` requirement. */
  datatype Version = Version(major: int, minor: int, patch: int)

  /** The opening of a version requirement, up to its version string. */
  const SINCE_KOTLIN: string := "@SinceKotlin(\""

  /** `printVersionRequirement(prefix, v, inline)`: indented and ended by a
    * line separator unless inline. */
  function VersionRequirementText(prefix: string, v: Version, inline: bool, indentation: int): (r: string)
    ensures inline ==> StartsWith(r, prefix + SINCE_KOTLIN)
    ensures !inline ==> EndsWith(r, "\")" + LINE_SEPARATOR)
  {
    var core := SINCE_KOTLIN + IntToString(v.major) + "." + IntToString(v.minor) + "." + IntToString(v.patch) + "\")";
    if inline then
      assert (prefix + core)[..|prefix + SINCE_KOTLIN|] == prefix + SINCE_KOTLIN;
      prefix + core
    else
      var r := IndentText(indentation) + prefix + core + LINE_SEPARATOR;
      assert r[|r| - 3..] == "\")" + LINE_SEPARATOR;
      r
  }

  /** What a constructor's printing needs: whether it is secondary (the
    * older generation's `!isPrimary`), its version requirement, how many
    * annotations the annotation printer rendered and their text, and the
    * rendered value parameters (each with its own leading `", "`). */
  datatype Constructor = Constructor(
    isSecondary: bool,
    versionRequirement: Option<Version>,
    annotationCount: nat,
    annotationsText: string,
    parameters: seq<string>)

  /** `visitConstructor`. A primary constructor is written inline after the
    * class name; a secondary one on its own indented line, ending in
    * `{ }`. The keyword `constructor` appears for a secondary constructor
    * and for a primary one carrying a version requirement or annotations. */
  function ConstructorText(c: Constructor, indentation: int): (r: string)
    ensures c.isSecondary ==> EndsWith(r, ") { }" + LINE_SEPARATOR)
    ensures !c.isSecondary ==> EndsWith(r, ") ")
  {
    var head := ConstructorLead(c, indentation) + "(" + Concat(c.parameters);
    var tail := if c.isSecondary then ") { }" + LINE_SEPARATOR else ") ";
    assert tail[|tail| - |tail|..] == tail;
    SuffixExtended(head, tail, tail);
    head + tail
  }

  /** What precedes a constructor's parameter list: its version requirement,
    * its annotations, and the keyword when one of them is present or the
    * constructor is secondary. */
  function ConstructorLead(c: Constructor, indentation: int): string
  {
    var lead := if c.isSecondary then "" else " ";
    (if c.versionRequirement.Some? then VersionRequirementText(lead, c.versionRequirement.value, !c.isSecondary, indentation) else "")
    + (if c.annotationCount > 0 then lead + c.annotationsText else "")
    + (if c.isSecondary || c.versionRequirement.Some? || c.annotationCount > 0
       then (if c.isSecondary then IndentText(indentation) else " ") + "constructor"
       else "")
  }

  /** A plain primary constructor is only its parameter list; a plain
    * secondary one is `constructor(…) { }` on its own line. */
  lemma PlainConstructors(c: Constructor, indentation: int)
    requires c.versionRequirement.None? && c.annotationCount == 0
    ensures !c.isSecondary ==> ConstructorText(c, indentation) == "(" + Concat(c.parameters) + ") "
    ensures c.isSecondary ==>
      ConstructorText(c, indentation) == IndentText(indentation) + "constructor(" + Concat(c.parameters) + ") { }" + LINE_SEPARATOR
  {
    var x := Concat(c.parameters);
    var keyword := if c.isSecondary then IndentText(indentation) + "constructor" else "";
    assert ConstructorLead(c, indentation) == "" + "" + keyword;
    assert "" + "" + keyword == keyword;
    if c.isSecondary {
      var indent := IndentText(indentation);
      assert ConstructorText(c, indentation) == indent + "constructor" + "(" + x + (") { }" + LINE_SEPARATOR);
      Associative(indent, "constructor", "(");
      assert "constructor" + "(" == "constructor(";
      Associative(indent + "constructor(" + x, ") { }", LINE_SEPARATOR);
    } else {
      assert ConstructorText(c, indentation) == "" + "(" + x + ") ";
      assert "" + "(" == "(";
    }
  }

  /** A primary constructor with a version requirement is written
    * ` @SinceKotlin("…") constructor(…) `, all on the class line. */
  lemma AnnotatedPrimaryConstructor(c: Constructor, indentation: int)
    requires !c.isSecondary && c.versionRequirement.Some? && c.annotationCount == 0
    ensures var v := VersionRequirementText(" ", c.versionRequirement.value, true, indentation);
      ConstructorText(c, indentation) == v + " constructor(" + Concat(c.parameters) + ") "
      && StartsWith(ConstructorText(c, indentation), " " + SINCE_KOTLIN)
  {
    var v := VersionRequirementText(" ", c.versionRequirement.value, true, indentation);
    var x := Concat(c.parameters);
    var since := " " + SINCE_KOTLIN;
    PrimaryConstructorParts(c, indentation, v);
    PrefixOfConcat(v, " constructor(", since);
    PrefixOfConcat(v + " constructor(", x, since);
    PrefixOfConcat(v + " constructor(" + x, ") ", since);
  }

  /** The parts of a primary constructor with a version requirement. */
  lemma PrimaryConstructorParts(c: Constructor, indentation: int, v: string)
    requires !c.isSecondary && c.versionRequirement.Some? && c.annotationCount == 0
    requires v == VersionRequirementText(" ", c.versionRequirement.value, true, indentation)
    ensures ConstructorText(c, indentation) == v + " constructor(" + Concat(c.parameters) + ") "
  {
    var x := Concat(c.parameters);
    assert ConstructorLead(c, indentation) == v + " constructor" by {
      assert ConstructorLead(c, indentation) == v + "" + " constructor";
      assert v + "" == v;
    }
    assert ConstructorText(c, indentation) == (v + " constructor") + "(" + x + ") ";
    Associative(v, " constructor", "(");
    assert " constructor" + "(" == " constructor(";
  }


  /** Whether the class line shows this constructor: a primary constructor
    * with at least one parameter. */
  predicate PrimaryShown(c: Constructor)
  {
    !c.isSecondary && c.parameters != []
  }

  /** The constructors the class line shows, in order. */
  function ShownConstructors(cs: seq<Constructor>): (r: seq<Constructor>)
    ensures forall c | c in r :: c in cs && PrimaryShown(c)
    ensures (forall c | c in cs :: !PrimaryShown(c)) ==> r == []
  {
    if cs == [] then []
    else
      var rest := ShownConstructors(cs[..|cs| - 1]);
      assert forall c | c in rest :: c in cs by {
        forall c | c in rest ensures c in cs {
          assert c in cs[..|cs| - 1];
        }
      }
      assert (forall c | c in cs :: !PrimaryShown(c)) ==> rest == [] by {
        if forall c | c in cs :: !PrimaryShown(c) {
          assert forall c | c in cs[..|cs| - 1] :: c in cs;
        }
      }
      rest + (if PrimaryShown(cs[|cs| - 1]) then [cs[|cs| - 1]] else [])
  }

  function ConstructorTexts(cs: seq<Constructor>, indentation: int): (r: seq<string>)
    ensures |r| == |cs|
    ensures forall k | 0 <= k < |cs| :: r[k] == ConstructorText(cs[k], indentation)
  {
    if cs == [] then [] else ConstructorTexts(cs[..|cs| - 1], indentation) + [ConstructorText(cs[|cs| - 1], indentation)]
  }

  /** What follows the class name: the shown constructors, or a single space
    * when none is shown. */
  function PrimaryConstructorText(cs: seq<Constructor>, indentation: int): (r: string)
    ensures (forall c | c in cs :: !PrimaryShown(c)) ==> r == " "
    ensures r != ""
  {
    var text := Concat(ConstructorTexts(ShownConstructors(cs), indentation));
    if text == "" then " " else text
  }

  // ---------------------------------------------------------------------
  // Supertypes
  // ---------------------------------------------------------------------

  /** A supertype: its class name and its rendered type text. */
  datatype Supertype = Supertype(className: string, text: string)

  /** The supertypes a generation leaves out: `kotlin/Any` and `kotlin/Enum`,
    * and in KotlinMetadataPrinter also `kotlin/Annotation`. */
  predicate SupertypeShown(g: Generation, className: string)
  {
    className != "kotlin/Any" && className != "kotlin/Enum"
    && (g == KotlinMetadataPrinter ==> className != "kotlin/Annotation")
  }

  function ShownSupertypes(g: Generation, supers: seq<Supertype>): (r: seq<Supertype>)
    ensures |r| <= |supers|
    ensures forall k | 0 <= k < |r| :: SupertypeShown(g, r[k].className)
  {
    if supers == [] then []
    else
      var last := supers[|supers| - 1];
      ShownSupertypes(g, supers[..|supers| - 1]) + (if SupertypeShown(g, last.className) then [last] else [])
  }

  /** The shown supertypes `shown[..k]` with the wrapper's hooks: `": "`
    * before the first, `", "` before the others, and `" "` after the one
    * whose index equals `last`. */
  function SupertypeList(shown: seq<Supertype>, k: nat, last: int): (r: string)
    requires k <= |shown|
    ensures k == 0 <==> r == ""
    ensures k > 0 ==> StartsWith(r, ": ")
  {
    if k == 0 then ""
    else
      var init := SupertypeList(shown, k - 1, last);
      var piece := (if k - 1 == 0 then ": " else ", ") + shown[k - 1].text + (if k - 1 == last then " " else "");
      assert StartsWith(init + piece, ": ") by {
        if k - 1 == 0 {
          assert init + piece == piece;
          assert piece[..2] == ": ";
        } else {
          PrefixOfConcat(init, piece, ": ");
        }
      }
      init + piece
  }

  /** The supertype list as written: the index the `after` hook receives
    * counts the shown supertypes, but it is compared with the size of the
    * unfiltered list. */
  function SupertypesAsWritten(g: Generation, supers: seq<Supertype>): (r: string)
    ensures r == "" <==> ShownSupertypes(g, supers) == []
    ensures r != "" ==> StartsWith(r, ": ")
  {
    var shown := ShownSupertypes(g, supers);
    SupertypeList(shown, |shown|, |supers| - 1)
  }

  /** The corrected list: nothing when every supertype is left out, and
    * otherwise `": "`, the shown supertypes, and one space before the class
    * body. */
  function Supertypes(g: Generation, supers: seq<Supertype>): (r: string)
    ensures r == "" <==> ShownSupertypes(g, supers) == []
    ensures r != "" ==> StartsWith(r, ": ") && EndsWith(r, " ")
  {
    var shown := ShownSupertypes(g, supers);
    SupertypeListEnds(shown, |shown|, |shown| - 1);
    SupertypeList(shown, |shown|, |shown| - 1)
  }

  /** With a space after the index `last`, a list that ends there ends in
    * the last shown supertype and a space. */
  lemma SupertypeListEnds(shown: seq<Supertype>, k: nat, last: int)
    requires k <= |shown|
    ensures k > 0 && last == k - 1 ==> EndsWith(SupertypeList(shown, k, last), " ")
    ensures k > 0 && last == k - 1 ==> EndsWith(SupertypeList(shown, k, last), shown[k - 1].text + " ")
  {
    if k > 0 {
      var init := SupertypeList(shown, k - 1, last);
      var piece := (if k - 1 == 0 then ": " else ", ") + shown[k - 1].text + (if k - 1 == last then " " else "");
      assert SupertypeList(shown, k, last) == init + piece;
      if last == k - 1 {
        var tail := shown[k - 1].text + " ";
        assert EndsWith(piece, tail);
        assert (init + piece)[|init + piece| - |tail|..] == piece[|piece| - |tail|..];
      }
    }
  }

  /** When no supertype is left out, the list as written is the corrected
    * one. */
  lemma AsWrittenWhenNothingLeftOut(g: Generation, supers: seq<Supertype>)
    requires forall k | 0 <= k < |supers| :: SupertypeShown(g, supers[k].className)
    ensures SupertypesAsWritten(g, supers) == Supertypes(g, supers)
  {
    AllShown(g, supers);
  }

  lemma {:induction false} AllShown(g: Generation, supers: seq<Supertype>)
    requires forall k | 0 <= k < |supers| :: SupertypeShown(g, supers[k].className)
    ensures ShownSupertypes(g, supers) == supers
  {
    if supers != [] {
      AllShown(g, supers[..|supers| - 1]);
      assert supers[..|supers| - 1] + [supers[|supers| - 1]] == supers;
    }
  }

  /** An enum class implementing an interface: `kotlin/Enum` comes first and
    * is left out, so the after hook sees index 0 against a size of 2 and the
    * list as written loses the space before the class body. */
  lemma EnumWithInterfaceLosesSpace(g: Generation)
    ensures var supers := [Supertype("kotlin/Enum", "Enum<E>"), Supertype("I", "I")];
      SupertypesAsWritten(g, supers) == ": I" && Supertypes(g, supers) == ": I "
  {
    var supers := [Supertype("kotlin/Enum", "Enum<E>"), Supertype("I", "I")];
    assert supers[..1] == [Supertype("kotlin/Enum", "Enum<E>")];
    assert ShownSupertypes(g, supers[..1]) == [] by {
      assert supers[..1][..0] == [];
    }
    assert ShownSupertypes(g, supers) == [Supertype("I", "I")];
  }

  /** `kotlin/Annotation` is shown by KotlinSourcePrinter only. */
  lemma AnnotationSupertypeByGeneration(text: string)
    ensures Supertypes(KotlinMetadataPrinter, [Supertype("kotlin/Annotation", text)]) == ""
    ensures Supertypes(KotlinSourcePrinter, [Supertype("kotlin/Annotation", text)]) == ": " + text + " "
  {
    var supers := [Supertype("kotlin/Annotation", text)];
    assert supers[..0] == [];
    assert ShownSupertypes(KotlinSourcePrinter, supers) == supers;
    assert SupertypeList(supers, 0, 0) == "";
    assert SupertypeList(supers, 1, 0) == "" + (": " + text + " ");
  }

  // ---------------------------------------------------------------------
  // Multi-file class parts
  // ---------------------------------------------------------------------

  /** `replaceFirst("Kt$", "")`: `$` follows `t`, so it matches only where
    * `EndAnchor` puts it, and a `Kt` just before that position is dropped;
    * a final line break after it is kept. */
  function StripKtSuffix(s: string): (r: string)
    ensures var e := EndAnchor(s);
      EndsWith(s[..e], "Kt") ==> |r| == |s| - 2 && r[..e - 2] + "Kt" == s[..e] && r[e - 2..] == s[e..]
    ensures !EndsWith(s[..EndAnchor(s)], "Kt") ==> r == s
  {
    var e := EndAnchor(s);
    if EndsWith(s[..e], "Kt") then
      var r := s[..e - 2] + s[e..];
      assert r[..e - 2] == s[..e - 2] && r[e - 2..] == s[e..];
      assert s[..e] == s[..e - 2] + s[..e][e - 2..];
      r
    else s
  }

  /** A trailing `Kt` is dropped, before a final line break if there is one. */
  lemma KtSuffixStripped(name: string, t: string)
    requires t == [] || FinalTerminator(t)
    ensures StripKtSuffix(name + "Kt" + t) == name + t
  {
    var s := name + "Kt" + t;
    EndAnchorBeforeTerminator(name + "Kt", t);
    assert s[..|name| + 2] == name + "Kt";
    assert s[..|name|] == name && s[|name| + 2..] == t;
  }

  /** The `@file:JvmName` line for the short name `short[..index]`. */
  function JvmNameLine(short: string, index: nat, indentation: int): string
    requires index <= |short|
  {
    IndentText(indentation) + "@file:JvmName(\"" + StripKtSuffix(short[..index]) + "\")" + LINE_SEPARATOR
  }

  const MULTIFILE_LINE: string := "@file:JvmMultifileClass"

  /** KotlinMetadataPrinter: the `@file:JvmName` line only when the part's
    * short name holds `__`, then `@file:JvmMultifileClass`. */
  function PartFileLines(short: string, indentation: int): (r: string)
    ensures EndsWith(r, IndentText(indentation) + MULTIFILE_LINE + LINE_SEPARATOR)
  {
    var index := IndexOf(short, "__");
    var tail := IndentText(indentation) + MULTIFILE_LINE + LINE_SEPARATOR;
    var head := if index != -1 then JvmNameLine(short, index, indentation) else "";
    assert (head + tail)[|head + tail| - |tail|..] == tail;
    head + tail
  }

  /** KotlinSourcePrinter: the same lines, but without the check, so a short
    * name without `__` makes `substring(0, -1)` throw. */
  function PartFileLinesAsWritten(short: string, indentation: int): (r: Result<string>)
    ensures r.Failure? ==> r == Failure(StringIndexOutOfBounds)
    ensures r.Success? ==> r.value == PartFileLines(short, indentation)
  {
    var index := IndexOf(short, "__");
    if index == -1 then Failure(StringIndexOutOfBounds)
    else Success(JvmNameLine(short, index, indentation) + IndentText(indentation) + MULTIFILE_LINE + LINE_SEPARATOR)
  }

  /** The unguarded lines fail exactly on a short name in which `__` occurs
    * nowhere, and agree with the guarded ones everywhere else. */
  lemma PartFileLinesGuard(short: string, indentation: int)
    ensures PartFileLinesAsWritten(short, indentation).Failure?
      <==> forall k | 0 <= k <= |short| - 2 :: !OccursAt(short, "__", k)
    ensures PartFileLinesAsWritten(short, indentation).Success? ==> PartFileLinesAsWritten(short, indentation).value == PartFileLines(short, indentation)
  {
    IndexOfFirst(short, "__");
  }

  /** A part named by its facade: `FacadeKt__FileKt` is declared as
    * `@file:JvmName("Facade")`. */
  lemma {:induction false} FacadeJvmName(facade: string, file: string, indentation: int)
    requires '_' !in facade
    ensures PartFileLines(facade + "Kt__" + file, indentation)
      == IndentText(indentation) + "@file:JvmName(\"" + facade + "\")" + LINE_SEPARATOR
       + IndentText(indentation) + MULTIFILE_LINE + LINE_SEPARATOR
  {
    var short := facade + "Kt__" + file;
    assert short == (facade + "Kt") + "__" + file;
    FirstDoubleUnderscore(facade + "Kt", file);
    var line := IndentText(indentation) + "@file:JvmName(\"" + facade + "\")" + LINE_SEPARATOR;
    assert JvmNameLine(short, |facade| + 2, indentation) == line by {
      assert short[..|facade| + 2] == facade + "Kt";
      KtSuffixStripped(facade, "");
      assert facade + "Kt" + "" == facade + "Kt" && facade + "" == facade;
    }
    var indent, multifile := IndentText(indentation), MULTIFILE_LINE;
    assert PartFileLines(short, indentation) == line + (indent + multifile + LINE_SEPARATOR);
    Associative(line, indent + multifile, LINE_SEPARATOR);
    Associative(line, indent, multifile);
  }

  /** `indexOf("__")` finds the first `__`, which follows a part free of `_`. */
  lemma {:induction false} FirstDoubleUnderscore(head: string, tail: string)
    requires '_' !in head
    ensures IndexOf(head + "__" + tail, "__") == |head|
    decreases |head|
  {
    var s := head + "__" + tail;
    if head == [] {
      assert s[..2] == "__";
    } else {
      assert s[..2] != "__" by {
        assert s[0] == head[0];
      }
      assert s[1..] == head[1..] + "__" + tail;
      assert '_' !in head[1..] by {
        forall k | 0 <= k < |head[1..]| ensures head[1..][k] != '_' {
          assert head[1..][k] == head[k + 1];
        }
      }
      FirstDoubleUnderscore(head[1..], tail);
    }
  }
}
