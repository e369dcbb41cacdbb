/** The name-shortening rules of `Context.className`, as functions of the
  * frame stack and the package captured on the first push. */
module Names {
  import opened Results
  import opened Text
  import opened Frames

  /** Returned for an empty class name. */
  const EMPTY_CLASS_NAME: string := "EmptyClassName /* Invalid metadata */"

  /** The sub-packages of `kotlin/` whose classes Kotlin imports by default. */
  const DEFAULT_KOTLIN_PACKAGES: set<string> :=
    {"annotation", "collections", "comparisons", "io", "ranges", "sequences", "test", "jvm"}

  /** The frames the printer pushes all carry a class and metadata. */
  predicate ScopeFrames(frames: seq<ContextFrame>)
  {
    forall k | 0 <= k < |frames| :: frames[k].IsScope()
  }

  /** `ClassUtil.internalPackageName`: everything before the last `/`. */
  function InternalPackageName(name: string): (r: string)
    ensures '/' !in name ==> r == ""
    ensures |r| < |name| || r == ""
  {
    var k := LastIndexOf(name, '/');
    if k < 0 then "" else name[..k]
  }

  /** `ClassUtil.internalShortClassName`: everything after the last `/`. */
  function InternalShortClassName(name: string): (r: string)
    ensures '/' !in r
    ensures EndsWith(name, r)
    ensures '/' !in name ==> r == name
  {
    AfterLastIndexOf(name, '/');
    name[LastIndexOf(name, '/') + 1..]
  }

  /** A qualified name splits back into its package and its short name. */
  lemma PackageAndShortName(name: string)
    requires '/' in name
    ensures name == InternalPackageName(name) + "/" + InternalShortClassName(name)
  {
    var k := LastIndexOf(name, '/');
    assert name == name[..k] + [name[k]] + name[k + 1..];
  }

  /** The short name of `package/short` is `short`, whatever the package. */
  lemma {:induction false} ShortNameOfQualified(packageName: string, short: string)
    requires '/' !in short
    ensures InternalShortClassName(packageName + "/" + short) == short
    ensures InternalPackageName(packageName + "/" + short) == packageName
  {
    var name := packageName + "/" + short;
    var k := LastIndexOf(name, '/');
    assert name[|packageName|] == '/';
    assert k == |packageName|;
    assert name[k + 1..] == short;
    assert name[..k] == packageName;
  }

  /** `ClassUtil.externalClassName`: every `/` becomes `.`. */
  function ExternalClassName(name: string): (r: string)
    ensures '/' !in r
    ensures '/' !in name ==> r == name
  {
    ExternalFormFacts(name);
    ReplaceAll(name, "/", ".")
  }

  lemma ExternalFormFacts(name: string)
    ensures '/' !in ReplaceAll(name, "/", ".")
    ensures '/' !in name ==> ReplaceAll(name, "/", ".") == name
  {
    ReplaceAllRemoves(name, '/', ".");
    if '/' !in name {
      ReplaceAllNoMatch(name, "/", ".", '/');
    }
  }

  /** `ClassUtil.externalShortClassName`: everything after the last `.`. */
  function ExternalShortClassName(name: string): (r: string)
    ensures '.' !in r
    ensures EndsWith(name, r)
  {
    AfterLastIndexOf(name, '.');
    name[LastIndexOf(name, '.') + 1..]
  }

  /** `replaceFirst("^" + facade + ".", "")`: the facade name and the one
    * character after it, at the start only. The regex `.` refuses line
    * terminators, and a `$` inside the facade name anchors at the end of the
    * input, so that pattern never matches. */
  function StripFacadePrefix(s: string, facade: string): (r: string)
    ensures r != s <==> '$' !in facade && |s| > |facade| && StartsWith(s, facade) && !IsLineTerminator(s[|facade|])
    ensures r != s ==> r == s[|facade| + 1..]
  {
    if '$' !in facade && |s| > |facade| && s[..|facade|] == facade && !IsLineTerminator(s[|facade|])
    then s[|facade| + 1..]
    else s
  }

  /** One iteration of the frame loop: a class frame whose `className + "$"`
    * prefixes the ORIGINAL name removes every occurrence of that prefix from
    * the current result; a file-facade frame strips its own class name. */
  function StripFrame(frame: ContextFrame, original: string, result: string): (r: string)
    requires frame.IsScope()
    ensures frame.kotlinMetadata.value.kind.FileFacadeKind? ==> EndsWith(result, r)
    ensures frame.kotlinMetadata.value.kind.ClassKind? && !StartsWith(original, frame.kotlinMetadata.value.kind.className + "$") ==> r == result
    ensures !frame.kotlinMetadata.value.kind.ClassKind? && !frame.kotlinMetadata.value.kind.FileFacadeKind? ==> r == result
  {
    match frame.kotlinMetadata.value.kind
    case ClassKind(className, _, _) =>
      if StartsWith(original, className + "$") then ReplaceAll(result, className + "$", "") else result
    case FileFacadeKind => StripFacadePrefix(result, frame.clazz.value)
    case _ => result
  }

  /** The frame loop, from the top of the stack (last element) down. */
  function StripScopes(frames: seq<ContextFrame>, original: string, result: string): (r: string)
    requires ScopeFrames(frames)
    ensures WithoutFacades(frames) && '$' !in original ==> r == result
    decreases |frames|
  {
    if frames == [] then result
    else
      FrameKeepsPlainName(frames[|frames| - 1], original, result);
      assert WithoutFacades(frames) ==> WithoutFacades(frames[..|frames| - 1]);
      StripScopes(frames[..|frames| - 1], original, StripFrame(frames[|frames| - 1], original, result))
  }

  /** A frame that is not a file facade changes nothing when the original
    * name has no `$`: a class frame strips only `Outer$` prefixes. */
  lemma FrameKeepsPlainName(frame: ContextFrame, original: string, result: string)
    requires frame.IsScope()
    ensures !frame.kotlinMetadata.value.kind.FileFacadeKind? && '$' !in original ==> StripFrame(frame, original, result) == result
  {
    var kind := frame.kotlinMetadata.value.kind;
    if kind.ClassKind? && '$' !in original {
      var prefix := kind.className + "$";
      assert prefix[|prefix| - 1] == '$';
    }
  }

  /** The package prefix goes only when the result is exactly
    * `package/shortName(original)`. */
  function StripPackage(result: string, packageName: string, original: string): (r: string)
    ensures r == result || (result == packageName + "/" + InternalShortClassName(original) && r == InternalShortClassName(original))
    ensures '/' !in result ==> r == result
  {
    var qualified := packageName + "/" + InternalShortClassName(original);
    assert qualified[|packageName|] == '/';
    if result == qualified then result[|packageName| + 1..] else result
  }

  /** `^kotlin/(?:(?:annotation|…|jvm)/)?([^/]*)$` replaced by the group. */
  function StripKotlinDefaultImport(result: string): (r: string)
    ensures r == result || (StartsWith(result, "kotlin/") && '/' !in r && EndsWith(result, r))
  {
    if StartsWith(result, "kotlin/") then
      var rest := result[7..];
      var k := LastIndexOf(rest, '/');
      AfterLastIndexOf(rest, '/');
      assert EndsWith(result, rest[k + 1..]) by {
        assert result[|result| - |rest[k + 1..]|..] == rest[k + 1..];
      }
      if k < 0 then rest
      else if rest[..k] in DEFAULT_KOTLIN_PACKAGES then rest[k + 1..]
      else result
    else result
  }

  /** `^java/lang/([^/]*)$` replaced by the group. */
  function StripJavaLang(result: string): (r: string)
    ensures r == result || (StartsWith(result, "java/lang/") && '/' !in r && |r| == |result| - 10 && EndsWith(result, r))
  {
    if StartsWith(result, "java/lang/") && '/' !in result[10..] then result[10..] else result
  }

  /** The name before the identifier-start guard: frames, package, default
    * imports, `$` replacement, external form. */
  function Shortened(frames: seq<ContextFrame>, packageName: string, name: string, dollarReplacement: string): (r: string)
    requires ScopeFrames(frames)
    ensures '/' !in r
  {
    var scoped := StripScopes(frames, name, name);
    var unpackaged := StripPackage(scoped, packageName, name);
    var imported := StripJavaLang(StripKotlinDefaultImport(unpackaged));
    ExternalClassName(ReplaceAll(imported, "$", dollarReplacement))
  }

  /** `Context.className` as written: `charAt(0)` on an empty shortened name
    * throws. */
  function ClassNameAsWritten(frames: seq<ContextFrame>, packageName: string, name: string, dollarReplacement: string): (r: Result<string>)
    requires ScopeFrames(frames)
    ensures r.Failure? <==> name != "" && Shortened(frames, packageName, name, dollarReplacement) == ""
  {
    if name == "" then Success(EMPTY_CLASS_NAME)
    else
      var s := Shortened(frames, packageName, name, dollarReplacement);
      if s == [] then Failure(StringIndexOutOfBounds)
      else if IsJavaIdentifierStart(s[0]) then Success(s)
      else Success("_" + s)
  }

  /** `Context.className` with the identifier guard applied to an empty
    * shortened name too, so that it yields `_` instead of throwing. */
  function ClassName(frames: seq<ContextFrame>, packageName: string, name: string, dollarReplacement: string): (r: string)
    requires ScopeFrames(frames)
    ensures name == "" ==> r == EMPTY_CLASS_NAME
    ensures r != "" && IsJavaIdentifierStart(r[0])
    ensures name != "" ==> '/' !in r
    ensures name != "" && '$' !in dollarReplacement ==> '$' !in r
  {
    if name == "" then EMPTY_CLASS_NAME
    else
      var s := Shortened(frames, packageName, name, dollarReplacement);
      ShortenedHasNoDollar(frames, packageName, name, dollarReplacement);
      if s == [] || !IsJavaIdentifierStart(s[0]) then "_" + s else s
  }

  /** The corrected resolver returns what the resolver as written returns
    * wherever the latter does not throw. */
  lemma ClassNameAgrees(frames: seq<ContextFrame>, packageName: string, name: string, dollarReplacement: string)
    requires ScopeFrames(frames)
    ensures ClassNameAsWritten(frames, packageName, name, dollarReplacement).Success? ==>
              ClassName(frames, packageName, name, dollarReplacement) == ClassNameAsWritten(frames, packageName, name, dollarReplacement).value
  {
  }

  lemma ShortenedHasNoDollar(frames: seq<ContextFrame>, packageName: string, name: string, dollarReplacement: string)
    requires ScopeFrames(frames)
    ensures '$' !in dollarReplacement ==> '$' !in Shortened(frames, packageName, name, dollarReplacement)
  {
    if '$' !in dollarReplacement {
      var imported := StripJavaLang(StripKotlinDefaultImport(StripPackage(StripScopes(frames, name, name), packageName, name)));
      ReplaceAllRemoves(imported, '$', dollarReplacement);
      ReplaceAllKeepsAbsent(ReplaceAll(imported, "$", dollarReplacement), "/", ".", '$');
    }
  }

  /** A name that shortening leaves alone: no `/`, no `$`, a valid start. */
  predicate PlainShortName(s: string)
  {
    s != [] && IsJavaIdentifierStart(s[0]) && '/' !in s && '$' !in s
  }

  /** The package, default-import, `$` and external-form steps leave a plain
    * short name unchanged. */
  lemma PlainNameSurvivesCleanup(frames: seq<ContextFrame>, packageName: string, name: string, s: string, dollarReplacement: string)
    requires ScopeFrames(frames) && PlainShortName(s) && name != ""
    requires StripJavaLang(StripKotlinDefaultImport(StripPackage(StripScopes(frames, name, name), packageName, name))) == s
    ensures ClassName(frames, packageName, name, dollarReplacement) == s
  {
    ReplaceAllNoMatch(s, "$", dollarReplacement, '$');
    assert Shortened(frames, packageName, name, dollarReplacement) == s;
  }

  /** The default-import patterns need a `/`, so they leave a plain name alone. */
  lemma PlainNameIsNotImported(s: string)
    requires PlainShortName(s)
    ensures StripJavaLang(StripKotlinDefaultImport(s)) == s
  {
    if |s| >= 7 {
      assert s[..7][6] == s[6] != '/';
    }
    if |s| >= 10 {
      assert s[..10][4] == s[4] != '/';
    }
  }

  /** `Outer$Inner` printed inside the class frame of `Outer` becomes `Inner`. */
  lemma NestedClassLosesEnclosingPrefix(frame: ContextFrame, packageName: string, inner: string, dollarReplacement: string)
    requires frame.IsScope() && frame.kotlinMetadata.value.kind.ClassKind?
    requires PlainShortName(inner)
    ensures ClassName([frame], packageName, frame.kotlinMetadata.value.kind.className + "$" + inner, dollarReplacement) == inner
  {
    var outer := frame.kotlinMetadata.value.kind.className;
    var name := outer + "$" + inner;
    var prefix := outer + "$";
    assert name == prefix + inner;
    assert StartsWith(name, prefix);
    ReplaceAllFrontMatch(prefix, inner, prefix, "");
    ReplaceAllNoMatch(inner, prefix, "", '$');
    assert StripScopes([frame], name, name) == inner by {
      assert [frame][..0] == [];
    }
    assert StripPackage(inner, packageName, name) == inner by {
      assert '/' in packageName + "/" + InternalShortClassName(name);
    }
    PlainNameIsNotImported(inner);
    PlainNameSurvivesCleanup([frame], packageName, name, inner, dollarReplacement);
  }

  /** A class of the current package is printed by its short name. */
  lemma CurrentPackageDropped(frames: seq<ContextFrame>, packageName: string, short: string, dollarReplacement: string)
    requires ScopeFrames(frames) && PlainShortName(short)
    requires StripScopes(frames, packageName + "/" + short, packageName + "/" + short) == packageName + "/" + short
    ensures ClassName(frames, packageName, packageName + "/" + short, dollarReplacement) == short
  {
    var name := packageName + "/" + short;
    ShortNameOfQualified(packageName, short);
    assert name[|packageName| + 1..] == short;
    PlainNameIsNotImported(short);
    PlainNameSurvivesCleanup(frames, packageName, name, short, dollarReplacement);
  }

  /** The prefixes Kotlin's default imports make redundant. */
  ghost predicate IsDefaultImportPrefix(prefix: string)
  {
    prefix == "java/lang/" || exists sub | sub == "" || sub in DEFAULT_KOTLIN_PACKAGES :: prefix == DefaultImportPrefix(sub)
  }

  /** The `kotlin/` form of a default-import prefix. */
  function DefaultImportPrefix(subPackage: string): string
  {
    if subPackage == "" then "kotlin/" else "kotlin/" + subPackage + "/"
  }

  /** `kotlin/X` and `kotlin/<default sub-package>/X` reduce to `X`. */
  lemma KotlinImportStripped(subPackage: string, short: string)
    requires PlainShortName(short)
    requires subPackage == "" || subPackage in DEFAULT_KOTLIN_PACKAGES
    ensures StripKotlinDefaultImport(DefaultImportPrefix(subPackage) + short) == short
  {
    var name := DefaultImportPrefix(subPackage) + short;
    assert StartsWith(name, "kotlin/");
    var rest := name[7..];
    if subPackage == "" {
      assert rest == short;
    } else {
      assert rest == subPackage + "/" + short;
      ShortNameOfQualified(subPackage, short);
      PackageAndShortName(rest);
    }
  }

  /** `java/lang/X` reduces to `X`. */
  lemma JavaLangStripped(short: string)
    requires PlainShortName(short)
    ensures StripJavaLang("java/lang/" + short) == short
  {
    assert ("java/lang/" + short)[10..] == short;
  }

  /** The package step either strips `p/` from `p/X` or leaves it whole. */
  lemma PackageStepOfQualified(packageName: string, p: string, short: string)
    requires '/' !in short
    ensures StripPackage(p + "/" + short, packageName, p + "/" + short) in {short, p + "/" + short}
  {
    ShortNameOfQualified(p, short);
    assert (p + "/" + short)[|p| + 1..] == short;
  }

  /** The package and default-import steps reduce `java/lang/X` to `X`. */
  lemma JavaLangUnqualified(packageName: string, short: string)
    requires PlainShortName(short)
    ensures StripJavaLang(StripKotlinDefaultImport(StripPackage("java/lang/" + short, packageName, "java/lang/" + short))) == short
  {
    var name := "java/lang/" + short;
    assert name == "java/lang" + "/" + short;
    PackageStepOfQualified(packageName, "java/lang", short);
    PlainNameIsNotImported(short);
    assert name[..7][0] == 'j';
    JavaLangStripped(short);
  }

  /** The package and default-import steps reduce `kotlin/[sub/]X` to `X`. */
  lemma KotlinUnqualified(packageName: string, subPackage: string, short: string)
    requires PlainShortName(short)
    requires subPackage == "" || subPackage in DEFAULT_KOTLIN_PACKAGES
    ensures var name := DefaultImportPrefix(subPackage) + short;
      StripJavaLang(StripKotlinDefaultImport(StripPackage(name, packageName, name))) == short
  {
    var prefix := DefaultImportPrefix(subPackage);
    var p := prefix[..|prefix| - 1];
    assert prefix + short == p + "/" + short;
    PackageStepOfQualified(packageName, p, short);
    PlainNameIsNotImported(short);
    KotlinImportStripped(subPackage, short);
    KotlinImportLeavesJavaLang(short);
  }

  /** The package and default-import steps reduce `prefix + X` to `X`. */
  lemma DefaultImportUnqualified(packageName: string, prefix: string, short: string)
    requires PlainShortName(short) && IsDefaultImportPrefix(prefix)
    ensures StripJavaLang(StripKotlinDefaultImport(StripPackage(prefix + short, packageName, prefix + short))) == short
  {
    if prefix == "java/lang/" {
      JavaLangUnqualified(packageName, short);
    } else {
      var sub :| (sub == "" || sub in DEFAULT_KOTLIN_PACKAGES) && prefix == DefaultImportPrefix(sub);
      KotlinUnqualified(packageName, sub, short);
    }
  }

  lemma KotlinImportLeavesJavaLang(short: string)
    requires PlainShortName(short)
    ensures StripJavaLang(short) == short
  {
    PlainNameIsNotImported(short);
    assert !StartsWith(short, "kotlin/") by {
      if |short| >= 7 { assert short[..7][6] == short[6] != '/'; }
    }
  }

  /** `kotlin/X`, `kotlin/<default sub-package>/X` and `java/lang/X` print as
    * `X`, whether or not the current package is the default one. */
  lemma DefaultImportDropped(frames: seq<ContextFrame>, packageName: string, prefix: string, short: string, dollarReplacement: string)
    requires ScopeFrames(frames) && PlainShortName(short)
    requires IsDefaultImportPrefix(prefix)
    requires StripScopes(frames, prefix + short, prefix + short) == prefix + short
    ensures ClassName(frames, packageName, prefix + short, dollarReplacement) == short
  {
    DefaultImportUnqualified(packageName, prefix, short);
    PlainNameSurvivesCleanup(frames, packageName, prefix + short, short, dollarReplacement);
  }

  /** The frame of the file facade `a`. */
  function FacadeFrame(facade: string): (f: ContextFrame)
    ensures f.IsScope() && f.kotlinMetadataKind == METADATA_KIND_FILE_FACADE
  {
    NewClassFrame(facade, KotlinMetadata(FileFacadeKind, [1, 9, 0]))
  }

  /** The facade frame `a` strips all of `ab`. */
  lemma FacadeScopesEmpty()
    ensures StripScopes([FacadeFrame("a")], "ab", "ab") == ""
  {
    var frames := [FacadeFrame("a")];
    var f := frames[0];
    assert f.kotlinMetadata.value.kind == FileFacadeKind && f.clazz.value == "a";
    assert "ab"[..1] == "a" && "ab"[2..] == "";
    assert StripFacadePrefix("ab", "a") == "";
    assert StripFrame(f, "ab", "ab") == "";
    assert frames[..0] == [];
    assert StripScopes(frames, "ab", "ab") == StripScopes([], "ab", "");
  }

  /** The facade pattern's `.` is a wildcard: under facade `a`, the name `ab`
    * loses both characters, and the as-written resolver then reads the
    * first character of an empty string. */
  lemma FacadeWildcardEmptiesName()
    ensures Shortened([FacadeFrame("a")], "", "ab", ".") == ""
    ensures ClassNameAsWritten([FacadeFrame("a")], "", "ab", ".") == Failure(StringIndexOutOfBounds)
    ensures ClassName([FacadeFrame("a")], "", "ab", ".") == "_"
  {
    FacadeScopesEmpty();
    var frames := [FacadeFrame("a")];
    var s := Shortened(frames, "", "ab", ".");
    assert s == "" by {
      assert StripPackage("", "", "ab") == "";
      assert StripJavaLang(StripKotlinDefaultImport("")) == "";
      assert ReplaceAll("", "$", ".") == "";
    }
    assert ClassName(frames, "", "ab", ".") == "_" + s;
    assert "_" + s == "_";
  }

  /** Inside the file facade `F`, a name `F` + one character + a plain short
    * name resolves to that short name, whatever the character. */
  lemma FacadePrefixStripped(facade: string, c: char, short: string)
    requires '$' !in facade && !IsLineTerminator(c) && PlainShortName(short)
    ensures ClassName([FacadeFrame(facade)], "", facade + [c] + short, ".") == short
  {
    var name := facade + [c] + short;
    var frames := [FacadeFrame(facade)];
    assert name[..|facade|] == facade && name[|facade|] == c && name[|facade| + 1..] == short;
    assert StripFrame(frames[0], name, name) == short;
    assert frames[..0] == [];
    assert StripScopes(frames, name, name) == short;
    PlainNameIsNotImported(short);
    PlainNameSurvivesCleanup(frames, "", name, short, ".");
  }

  /** Under facade `a`, resolving `aaab` gives `ab`, and resolving that result
    * again gives `_`: a second resolution is not the identity. */
  lemma ResolutionNotIdempotent()
    ensures ClassName([FacadeFrame("a")], "", "aaab", ".") == "ab"
    ensures ClassName([FacadeFrame("a")], "", ClassName([FacadeFrame("a")], "", "aaab", "."), ".") == "_"
  {
    assert "a" + ['a'] + "ab" == "aaab";
    FacadePrefixStripped("a", 'a', "ab");
    FacadeWildcardEmptiesName();
  }

  /** No frame of the stack is a file facade. */
  predicate WithoutFacades(frames: seq<ContextFrame>)
  {
    forall k | 0 <= k < |frames| :: frames[k].IsScope() && !frames[k].kotlinMetadata.value.kind.FileFacadeKind?
  }

  /** Without file-facade frames, and with a replacement free of `$`,
    * resolving a resolved name again changes nothing. */
  lemma ResolutionIdempotentWithoutFacades(frames: seq<ContextFrame>, packageName: string, name: string, dollarReplacement: string)
    requires WithoutFacades(frames) && name != "" && '$' !in dollarReplacement
    ensures ScopeFrames(frames)
    ensures var once := ClassName(frames, packageName, name, dollarReplacement);
      ClassName(frames, packageName, once, dollarReplacement) == once
  {
    var once := ClassName(frames, packageName, name, dollarReplacement);
    assert PlainShortName(once);
    assert StripPackage(once, packageName, once) == once by {
      var qualified := packageName + "/" + InternalShortClassName(once);
      assert qualified[|packageName|] == '/';
    }
    PlainNameIsNotImported(once);
    PlainNameSurvivesCleanup(frames, packageName, once, once, dollarReplacement);
  }
}
