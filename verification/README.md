# Kotlin metadata printer — a Dafny model of the text-building core

This project models in Dafny the part of the Kotlin metadata printer that turns a decoded Kotlin metadata tree into Kotlin-like source text. It covers:

- **`Context`** and its name resolver (module `NameContext`, pure part in `Names`). The context keeps a stack of scope frames, the package name captured on the first push and the map from type-parameter id to name. `className` shortens a JVM internal class name against the enclosing frames, the current package and Kotlin's default imports.
- **`ContextFrame`** (module `Frames`). This is the immutable scope record and its empty sentinel, whose kind is -1.
- **The printing engine of both generations.** `KotlinMetadataPrinter` is the kmp library; `KotlinSourcePrinter` is the older one. The model keeps the two as a `Generation` value wherever their rules differ. This part covers:
  - the stack of string builders and the indentation counter (`Output`);
  - the header, member sections, constructors, supertypes, multi-file parts and processing info (`Sections`);
  - the enum-entry layout (`EnumLayout`);
  - function-type and generic-type rendering (`Types`);
  - value-parameter naming and the constructor `val`/`var` detection (`Parameters`);
  - the flag-to-keyword mappers (`Flags`);
  - the printer object, which owns the buffer, the context, the `alreadyVisited` set and the processing-info results (`Printer.KotlinPrinter`).
- **The two annotation printers.**
  - `AnnotationPrinter` renders class-file annotations. Element values follow section 4.7.16.1 of the Java Virtual Machine Specification, and primitive descriptors follow section 4.3.2 (`JvmAnnotations`).
  - `KotlinAnnotationPrinter` renders Kotlin metadata annotations (`KotlinAnnotations`). This module also holds `printKotlinAnnotation` and `printKmAnnotationArgument` of the older engine.
  - Both printers are classes that keep a nesting `level` and append to the shared buffer. Each method is proved equal to a recursive text function, and lemmas about that function state the source's promises.
- **The index-counting visitor wrappers** (`Hooks`, `KmpVisitors`, `SourceVisitors`). Each forwarded visit runs `before(i)`, then the delegate, then `after(i)`, then `i++`. The wrappers record the hook calls as a trace, and `Valid()` ties the trace and the counter to the visits forwarded so far.

Exceptions the Java code can throw become `Result`/`Option` values (`Results`):

- `StringIndexOutOfBoundsException`;
- `NullPointerException` from `requireNonNull`;
- `NumberFormatException` from `Integer.parseInt`.

Regular expressions are written out as string functions:

- the file-facade pattern `^facade.` keeps the wildcard `.`;
- `replaceAll` is `Text.ReplaceAll`;
- `replaceFirst("Kt$", "")` is `Sections.StripKtSuffix`. There, as in the anonymous-parameter pattern, a non-multiline `$` matches at the end of the text or just before a final line break (`Text.EndAnchor`).

Fixed platform assumptions:

- `System.lineSeparator()` is `"\n"`;
- `Character.isJavaIdentifierStart` is approximated as ASCII letters, `_`, `$` and every character from U+0080 up.

## Model

| member | source | states |
|---|---|---|
| Frames.KotlinMetadata.K | kmp-library/src/main/java/com/guardsquare/proguard/kotlin/printer/internal/ContextFrame.java:43 | the numeric kind lies in the metadata-kind range; it is the class kind exactly for class metadata and the file-facade kind exactly for file facades |
| Frames.NewFrame | kmp-library/src/main/java/com/guardsquare/proguard/kotlin/printer/internal/ContextFrame.java:39-45 | keeps the class, metadata and function metadata; the kind is -1 exactly when there is no metadata, otherwise it is the metadata's `k` |
| Frames.NewClassFrame | kmp-library/src/main/java/com/guardsquare/proguard/kotlin/printer/internal/ContextFrame.java:33-36 | the two-argument frame has no function metadata and is a usable scope frame |
| Frames.EmptyFrameHasNoKind | kmp-library/src/main/java/com/guardsquare/proguard/kotlin/printer/internal/ContextFrame.java:19-30 | the sentinel frame has no class, metadata or function metadata, kind -1, and is not a scope |
| Names.InternalPackageName | src/main/java/proguard/kotlin/printer/Context.java:110-113 | the package part is empty for a name without `/` and strictly shorter than the name |
| Text.LastIndexOf | src/main/java/proguard/kotlin/printer/Context.java:110 | -1 or the last position holding the character; no later position holds it |
| Text.AfterLastIndexOf | src/main/java/proguard/kotlin/printer/Context.java:110 | the text after the last occurrence holds no occurrence |
| Text.ReplaceAll | src/main/java/proguard/kotlin/printer/Context.java:120 | a text shorter than the pattern, or a replacement equal to the pattern, leaves the text unchanged |
| Text.ReplaceAllFrontMatch | src/main/java/proguard/kotlin/printer/Context.java:120 | a match at the front is replaced and the scan resumes after it |
| Text.ReplaceAllRemoves | src/main/java/proguard/kotlin/printer/Context.java:120 | replacing a character by text without it leaves no occurrence |
| Text.ReplaceAllNoMatch | src/main/java/proguard/kotlin/printer/Context.java:120 | a text lacking a character of the pattern is unchanged |
| Text.ReplaceAllKeepsAbsent | src/main/java/proguard/kotlin/printer/Context.java:120 | a character absent from the text and the replacement stays absent |
| Text.ReplaceAllNonEmpty | src/main/java/proguard/kotlin/printer/Context.java:120 | a non-empty text with a non-empty replacement stays non-empty |
| Text.IndexOf | kmp-library/src/main/java/com/guardsquare/proguard/kotlin/printer/KotlinMetadataPrinter.java:466 | -1 or a position at which the pattern occurs |
| Text.IndexOfFirst | kmp-library/src/main/java/com/guardsquare/proguard/kotlin/printer/KotlinMetadataPrinter.java:466 | the position found is the first occurrence, and -1 exactly when the pattern occurs nowhere |
| Text.Trim | kmp-library/src/main/java/com/guardsquare/proguard/kotlin/printer/KotlinMetadataPrinter.java:381 | the result is no longer than the text, starts and ends with characters above space, and is empty iff every character is at most space |
| Text.TrimOfPadded | kmp-library/src/main/java/com/guardsquare/proguard/kotlin/printer/KotlinMetadataPrinter.java:381 | trimming leading spaces before a trimmed text gives that text |
| Text.EndAnchor | kmp-library/src/main/java/com/guardsquare/proguard/kotlin/printer/KotlinMetadataPrinter.java:580 | a non-multiline `$` matches at the end, or before a final line terminator or `\r\n`, and only line terminators follow it |
| Text.EndAnchorBeforeTerminator | kmp-library/src/main/java/com/guardsquare/proguard/kotlin/printer/KotlinMetadataPrinter.java:580 | after a name not ending in a line terminator, `$` matches right after the name, whether or not one final line break follows |
| Text.Repeat | kmp-library/src/main/java/com/guardsquare/proguard/kotlin/printer/KotlinMetadataPrinter.java:1199-1210 | n copies of the text, of n times its length |
| Names.InternalShortClassName | src/main/java/proguard/kotlin/printer/Context.java:110-113 | the short name is a `/`-free suffix of the name, and the whole name when it has no `/` |
| Names.PackageAndShortName | src/main/java/proguard/kotlin/printer/Context.java:110-113 | a qualified name is exactly its package, `/`, and its short name |
| Names.ShortNameOfQualified | src/main/java/proguard/kotlin/printer/Context.java:110-113 | splitting `package/short` gives back `package` and `short` |
| Names.ExternalClassName | src/main/java/proguard/kotlin/printer/Context.java:122 | the external form has no `/` and leaves `/`-free names unchanged |
| Names.ExternalShortClassName | src/main/java/proguard/kotlin/printer/Context.java:110-113 | the external short name has no `.` and is a suffix of the name |
| Names.ClassNameAsWritten | src/main/java/proguard/kotlin/printer/Context.java:80-128 | the resolver as written fails with `StringIndexOutOfBounds` exactly when a non-empty name is shortened to "" |
| Names.ClassName | src/main/java/proguard/kotlin/printer/Context.java:80-128 | `""` gives `EmptyClassName /* Invalid metadata */`; otherwise the result starts with an identifier-start character and contains no `/`, nor any `$` unless the replacement has one |
| Names.ClassNameAgrees | src/main/java/proguard/kotlin/printer/Context.java:80-128 | the corrected resolver returns what the resolver as written returns wherever the latter does not throw |
| Names.ShortenedHasNoDollar | src/main/java/proguard/kotlin/printer/Context.java:120 | after clean-up no `$` is left unless the replacement brings one |
| Names.PlainNameSurvivesCleanup | src/main/java/proguard/kotlin/printer/Context.java:120-127 | a plain identifier left by the stripping steps is returned unchanged |
| Names.PlainNameIsNotImported | src/main/java/proguard/kotlin/printer/Context.java:115-118 | neither default-import step touches a name without `/` |
| Names.NestedClassLosesEnclosingPrefix | src/main/java/proguard/kotlin/printer/Context.java:90-101 | under class frame `Outer`, `Outer$Inner` resolves to `Inner` |
| Names.CurrentPackageDropped | src/main/java/proguard/kotlin/printer/Context.java:110-113 | `package/Short` in the current package resolves to `Short` |
| Names.KotlinImportStripped | src/main/java/proguard/kotlin/printer/Context.java:115-117 | `kotlin/X`, and `kotlin/<sub>/X` for each default-import sub-package, reduce to `X` |
| Names.JavaLangStripped | src/main/java/proguard/kotlin/printer/Context.java:118 | `java/lang/X` reduces to `X` |
| Names.PackageStepOfQualified | src/main/java/proguard/kotlin/printer/Context.java:110-113 | the package step either drops the package or leaves the name as it was |
| Names.JavaLangUnqualified | src/main/java/proguard/kotlin/printer/Context.java:110-118 | `java/lang/X` goes through the package and import steps to `X` in any package |
| Names.KotlinUnqualified | src/main/java/proguard/kotlin/printer/Context.java:110-117 | the `kotlin` default-import prefixes go through the package and import steps to `X` in any package |
| Names.DefaultImportUnqualified | src/main/java/proguard/kotlin/printer/Context.java:110-118 | every default-import prefix reduces to the bare short name |
| Names.KotlinImportLeavesJavaLang | src/main/java/proguard/kotlin/printer/Context.java:118 | the `java/lang` step leaves a plain short name alone |
| Names.DefaultImportDropped | src/main/java/proguard/kotlin/printer/Context.java:80-128 | a default-import class name resolves to its short name |
| Names.FacadeFrame | src/main/java/proguard/kotlin/printer/Context.java:103-106 | builds a file-facade scope frame |
| Names.FacadeWildcardEmptiesName | src/main/java/proguard/kotlin/printer/Context.java:103-127 | with facade `a`, `ab` is shortened to "", the as-written resolver throws, and the corrected one returns `_` |
| Names.StripFacadePrefix | src/main/java/proguard/kotlin/printer/Context.java:105 | `replaceFirst("^facade.", "")` changes the name exactly when it starts with the facade name and one more character that is not a line terminator (a facade holding `$` never matches), and then drops them |
| Names.StripFrame | src/main/java/proguard/kotlin/printer/Context.java:92-106 | a class frame leaves the name alone unless the original starts with `Outer$`; a file facade only removes a prefix; other frames change nothing |
| Names.StripScopes | src/main/java/proguard/kotlin/printer/Context.java:90-107 | without file-facade frames, a `$`-free name leaves the frame loop unchanged |
| Names.FrameKeepsPlainName | src/main/java/proguard/kotlin/printer/Context.java:95-101 | a frame that is not a file facade leaves a `$`-free name unchanged |
| Names.FacadeScopesEmpty | src/main/java/proguard/kotlin/printer/Context.java:105 | facade `a` strips `ab` to the empty name |
| Names.FacadePrefixStripped | src/main/java/proguard/kotlin/printer/Context.java:103-106 | under facade `F`, `F`, one more character and a plain short name resolve to that short name |
| Names.StripPackage | src/main/java/proguard/kotlin/printer/Context.java:110-113 | the name is kept or, when it is exactly `package/short`, reduced to `short`; a `/`-free name is kept |
| Names.StripKotlinDefaultImport | src/main/java/proguard/kotlin/printer/Context.java:115-117 | the name is kept or, for a `kotlin/` name, reduced to a `/`-free suffix |
| Names.StripJavaLang | src/main/java/proguard/kotlin/printer/Context.java:118 | the name is kept or, for `java/lang/X` with a `/`-free `X`, reduced to `X` |
| Names.Shortened | src/main/java/proguard/kotlin/printer/Context.java:87-122 | the shortened name never contains `/` |
| Names.ResolutionNotIdempotent | src/main/java/proguard/kotlin/printer/Context.java:80-128 | with facade `a`, `aaab` resolves to `ab`, and resolving `ab` again gives `_` |
| Names.ResolutionIdempotentWithoutFacades | src/main/java/proguard/kotlin/printer/Context.java:80-128 | without file-facade frames and with a `$`-free replacement, resolving a resolved name again returns it unchanged |
| NameContext.Context.constructor | src/main/java/proguard/kotlin/printer/Context.java:35-38 | a new context has no frames, an empty type-parameter map and no package |
| NameContext.Context.Push | src/main/java/proguard/kotlin/printer/Context.java:40-60 | appends the frame; sets the package only on the first push; clears the type-parameter map exactly on a first push, below a file facade, or for a multi-file part over its facade, and otherwise keeps it; afterwards `IsTop` holds iff the stack was empty, and `Previous` is the former top |
| NameContext.Context.Pop | src/main/java/proguard/kotlin/printer/Context.java:63-66 | returns the last pushed frame and removes it (LIFO); the map and the package stay |
| NameContext.Context.IsTop | src/main/java/proguard/kotlin/printer/Context.java:69-72 | true exactly at depth 1 |
| NameContext.Context.Previous | src/main/java/proguard/kotlin/printer/Context.java:133-142 | the empty frame (kind -1) below depth 2, otherwise the frame just below the top |
| NameContext.Context.GetTypeParamName | src/main/java/proguard/kotlin/printer/Context.java:145-148 | the registered name, or `X /* unknown id */` when none is registered |
| NameContext.Context.VisitAnyTypeParameter | src/main/java/proguard/kotlin/printer/Context.java:157-162 | registers the name for that id; other ids and the stack are unchanged |
| NameContext.Context.ClassName | src/main/java/proguard/kotlin/printer/Context.java:80-128 | the loop over the frames computes exactly `Names.ClassName` over the current stack and package |
| Output.Appended | kmp-library/src/main/java/com/guardsquare/proguard/kotlin/printer/KotlinMetadataPrinter.java:1199-1210 | printing changes only the top buffer, by appending the text |
| Output.AppendedAll | kmp-library/src/main/java/com/guardsquare/proguard/kotlin/printer/KotlinMetadataPrinter.java:1199-1210 | appending a sequence of pieces keeps the stack non-empty |
| Output.AppendedTwice | kmp-library/src/main/java/com/guardsquare/proguard/kotlin/printer/KotlinMetadataPrinter.java:1199-1210 | two appends are one append of the concatenation |
| Output.AppendedTop | kmp-library/src/main/java/com/guardsquare/proguard/kotlin/printer/KotlinMetadataPrinter.java:1199-1210 | appending adds the text to the last buffer of the stack |
| Output.AppendedNothing | kmp-library/src/main/java/com/guardsquare/proguard/kotlin/printer/KotlinMetadataPrinter.java:1199-1210 | appending "" changes nothing |
| Output.PushAppendPop | kmp-library/src/main/java/com/guardsquare/proguard/kotlin/printer/KotlinMetadataPrinter.java:1143-1153 | after a push, the top buffer holds exactly the text appended since then |
| Output.OutputBuffer.constructor | kmp-library/src/main/java/com/guardsquare/proguard/kotlin/printer/KotlinMetadataPrinter.java:102-110 | starts with no buffer and indentation 0 |
| Output.OutputBuffer.PushStringBuilder | kmp-library/src/main/java/com/guardsquare/proguard/kotlin/printer/KotlinMetadataPrinter.java:1143-1146 | adds an empty buffer on top; indentation unchanged |
| Output.OutputBuffer.PopStringBuilder | kmp-library/src/main/java/com/guardsquare/proguard/kotlin/printer/KotlinMetadataPrinter.java:1149-1153 | returns the top buffer's text and restores the stack below it |
| Output.OutputBuffer.ResetStringBuilder | kmp-library/src/main/java/com/guardsquare/proguard/kotlin/printer/KotlinMetadataPrinter.java:1156-1160 | keeps the depth and the buffers below, and empties the top |
| Output.OutputBuffer.PreviousChar | kmp-library/src/main/java/com/guardsquare/proguard/kotlin/printer/KotlinMetadataPrinter.java:1163-1166 | the top buffer's last character, or `(char) -1` when there is no buffer |
| Output.OutputBuffer.Indent | kmp-library/src/main/java/com/guardsquare/proguard/kotlin/printer/KotlinMetadataPrinter.java:1168-1171 | indentation goes up by one; buffers unchanged |
| Output.OutputBuffer.Outdent | kmp-library/src/main/java/com/guardsquare/proguard/kotlin/printer/KotlinMetadataPrinter.java:1174-1177 | indentation goes down by one; buffers unchanged |
| Output.OutputBuffer.Print | kmp-library/src/main/java/com/guardsquare/proguard/kotlin/printer/KotlinMetadataPrinter.java:1199-1210 | appends `indentation` copies of four spaces (only when asked) and then the text, to the top buffer only |
| Output.OutputBuffer.PrintNewline | kmp-library/src/main/java/com/guardsquare/proguard/kotlin/printer/KotlinMetadataPrinter.java:1213-1216 | appends one line separator to the top buffer |
| Output.OutputBuffer.PrintLine | kmp-library/src/main/java/com/guardsquare/proguard/kotlin/printer/KotlinMetadataPrinter.java:1186-1190 | appends the optionally indented text and one line separator |
| Flags.Printed | kmp-library/src/main/java/com/guardsquare/proguard/kotlin/printer/KotlinMetadataPrinter.java:1220-1341 | a mapper prints only keywords whose flag is set, in table order |
| Flags.PrintedOnce | kmp-library/src/main/java/com/guardsquare/proguard/kotlin/printer/KotlinMetadataPrinter.java:1220-1341 | a keyword that occurs once in a table is printed once iff its flag is set |
| Flags.PrintedEmpty | kmp-library/src/main/java/com/guardsquare/proguard/kotlin/printer/KotlinMetadataPrinter.java:1220-1341 | a mapper prints nothing iff no flag in its table is set |
| Flags.PrintedNever | kmp-library/src/main/java/com/guardsquare/proguard/kotlin/printer/KotlinMetadataPrinter.java:1220-1341 | a keyword missing from a table is never printed |
| Flags.PropertyMutabilityKeyword | kmp-library/src/main/java/com/guardsquare/proguard/kotlin/printer/KotlinMetadataPrinter.java:1301-1318 | `propertyFlags` prints exactly one of `var `/`val `: `var ` for a var, otherwise `val ` |
| Flags.PropertyTableTerms | kmp-library/src/main/java/com/guardsquare/proguard/kotlin/printer/KotlinMetadataPrinter.java:1301-1318 | the property table has 16 terms, and only the tenth can be `var`/`val` |
| Flags.AbstractSuppressedForInterfaces | kmp-library/src/main/java/com/guardsquare/proguard/kotlin/printer/KotlinMetadataPrinter.java:1242-1262 | `abstract ` is printed for a class iff it is abstract and not an interface |
| Flags.VisibilityKeywordsByGeneration | src/main/java/proguard/kotlin/printer/KotlinSourcePrinter.java:1167-1176 | visibility prints nothing iff it is not private, not protected, and not internal under the kmp printer; `internal ` is printed only by the kmp printer |
| Flags.InlineClassKeywordByGeneration | src/main/java/proguard/kotlin/printer/KotlinSourcePrinter.java:1179-1196 | the kmp printer prints `value ` for value classes and never `inline `; the older one prints `inline ` and never `value ` |
| Flags.ReifiedKeyword | kmp-library/src/main/java/com/guardsquare/proguard/kotlin/printer/KotlinMetadataPrinter.java:1329-1332 | the type-parameter mapper prints `reified ` iff the parameter is reified |
| Flags.VisibilityTable | kmp-library/src/main/java/com/guardsquare/proguard/kotlin/printer/KotlinMetadataPrinter.java:1230-1239 | the visibility mapper tests 3 flags, each with its own keyword |
| Flags.ModalityTable | kmp-library/src/main/java/com/guardsquare/proguard/kotlin/printer/KotlinMetadataPrinter.java:1220-1227 | the modality mapper tests 3 flags, each with its own keyword |
| Flags.ModifierTable | kmp-library/src/main/java/com/guardsquare/proguard/kotlin/printer/KotlinMetadataPrinter.java:1220-1239 | the visibility followed by modality mapper tests 6 flags, each with its own keyword |
| Flags.ClassTable | kmp-library/src/main/java/com/guardsquare/proguard/kotlin/printer/KotlinMetadataPrinter.java:1242-1262 | the class mapper tests 21 flags, each with its own keyword |
| Flags.ClassHead | kmp-library/src/main/java/com/guardsquare/proguard/kotlin/printer/KotlinMetadataPrinter.java:1242-1262 | the leading class mapper tests 9 flags, each with its own keyword |
| Flags.ClassTail | kmp-library/src/main/java/com/guardsquare/proguard/kotlin/printer/KotlinMetadataPrinter.java:1242-1262 | the trailing class mapper tests 11 flags, each with its own keyword |
| Flags.EffectExpressionTable | kmp-library/src/main/java/com/guardsquare/proguard/kotlin/printer/KotlinMetadataPrinter.java:1265-1270 | the effect-expression mapper tests 2 flags, each with its own keyword |
| Flags.FunctionTable | kmp-library/src/main/java/com/guardsquare/proguard/kotlin/printer/KotlinMetadataPrinter.java:1273-1288 | the function mapper tests 16 flags, each with its own keyword |
| Flags.FunctionTail | kmp-library/src/main/java/com/guardsquare/proguard/kotlin/printer/KotlinMetadataPrinter.java:1273-1288 | the non-modifier function mapper tests 10 flags, each with its own keyword |
| Flags.PropertyAccessorTable | kmp-library/src/main/java/com/guardsquare/proguard/kotlin/printer/KotlinMetadataPrinter.java:1291-1298 | the property-accessor mapper tests 8 flags, each with its own keyword |
| Flags.PropertyTable | kmp-library/src/main/java/com/guardsquare/proguard/kotlin/printer/KotlinMetadataPrinter.java:1301-1318 | the property mapper tests 16 flags, each with its own keyword |
| Flags.PropertyHead | kmp-library/src/main/java/com/guardsquare/proguard/kotlin/printer/KotlinMetadataPrinter.java:1301-1318 | the leading property mapper tests 9 flags, each with its own keyword |
| Flags.PropertyTail | kmp-library/src/main/java/com/guardsquare/proguard/kotlin/printer/KotlinMetadataPrinter.java:1301-1318 | the trailing property mapper tests 6 flags, each with its own keyword |
| Flags.TypeTable | kmp-library/src/main/java/com/guardsquare/proguard/kotlin/printer/KotlinMetadataPrinter.java:1321-1326 | the type mapper tests 1 flags, each with its own keyword |
| Flags.TypeParameterTable | kmp-library/src/main/java/com/guardsquare/proguard/kotlin/printer/KotlinMetadataPrinter.java:1329-1332 | the type-parameter mapper tests 1 flags, each with its own keyword |
| Flags.ValueParameterTable | kmp-library/src/main/java/com/guardsquare/proguard/kotlin/printer/KotlinMetadataPrinter.java:1335-1341 | the value-parameter mapper tests 2 flags, each with its own keyword |
| Types.VarianceText | kmp-library/src/main/java/com/guardsquare/proguard/kotlin/printer/KotlinMetadataPrinter.java:863-866 | no variance text exactly for a missing or invariant variance |
| Types.FunctionArity | kmp-library/src/main/java/com/guardsquare/proguard/kotlin/printer/KotlinMetadataPrinter.java:875-876 | names not of the form `kotlin/FunctionN` give 0; a too-large `N` fails with `NumberFormatException`; otherwise at most `Integer.MAX_VALUE` |
| Types.FunctionArityRoundTrip | kmp-library/src/main/java/com/guardsquare/proguard/kotlin/printer/KotlinMetadataPrinter.java:875-876 | `kotlin/Function` + decimal `n` parses back to `n` for every `n` up to `Integer.MAX_VALUE` |
| Types.FunctionArityOverflow | kmp-library/src/main/java/com/guardsquare/proguard/kotlin/printer/KotlinMetadataPrinter.java:875-876 | `kotlin/Function2147483648` throws `NumberFormatException` |
| Types.TypeName | kmp-library/src/main/java/com/guardsquare/proguard/kotlin/printer/KotlinMetadataPrinter.java:918-928 | fails (`requireNonNull`) exactly when the type has no type-parameter id, alias or class name; unknown type-parameter ids print the unknown marker |
| Types.ArgumentTexts | kmp-library/src/main/java/com/guardsquare/proguard/kotlin/printer/KotlinMetadataPrinter.java:884-906 | one rendered text per type argument |
| Types.PlainParameters | kmp-library/src/main/java/com/guardsquare/proguard/kotlin/printer/KotlinMetadataPrinter.java:884-906 | the first `k` arguments of a plain function type render as `(` followed by them joined with `, ` |
| Types.PlainFunctionType | kmp-library/src/main/java/com/guardsquare/proguard/kotlin/printer/KotlinMetadataPrinter.java:868-917 | `kotlin/FunctionN<A..., R>` renders as `(A, ...) -> R`, wrapped as `(...)?` when nullable |
| Types.PlainArrow | kmp-library/src/main/java/com/guardsquare/proguard/kotlin/printer/KotlinMetadataPrinter.java:884-906 | all arguments of a plain function type render as `(A, ...) -> R` |
| Types.ReceiverParameters | kmp-library/src/main/java/com/guardsquare/proguard/kotlin/printer/KotlinMetadataPrinter.java:884-906 | with the extension marker, argument 0 is the receiver, followed by `.(` and the rest joined |
| Types.ExtensionFunctionType | kmp-library/src/main/java/com/guardsquare/proguard/kotlin/printer/KotlinMetadataPrinter.java:868-917 | an extension function type renders as `T.(A, ...) -> R`, wrapped as `(...)?` when nullable |
| Types.ExtensionArrow | kmp-library/src/main/java/com/guardsquare/proguard/kotlin/printer/KotlinMetadataPrinter.java:884-906 | all arguments of an extension function type render as `T.(A, ...) -> R` |
| Types.GenericArgumentsJoined | kmp-library/src/main/java/com/guardsquare/proguard/kotlin/printer/KotlinMetadataPrinter.java:940-944 | generic arguments render as `<` + arguments joined with `, ` + `>` |
| Types.NumberedFunctionType | kmp-library/src/main/java/com/guardsquare/proguard/kotlin/printer/KotlinMetadataPrinter.java:838-946 | the complete text of a non-extension `kotlin/FunctionN` type: lead, arrow form, non-null marker |
| Types.DefinitelyNonNullMarker | kmp-library/src/main/java/com/guardsquare/proguard/kotlin/printer/KotlinMetadataPrinter.java:913-938 | both generations fail together; the kmp printer's text is the older one's plus ` & Any` for definitely-non-null types |
| Types.FunctionTypeText | kmp-library/src/main/java/com/guardsquare/proguard/kotlin/printer/KotlinMetadataPrinter.java:868-917 | a nullable function type is the non-null text wrapped as `(...)?`; a non-null one is the argument list and arrow |
| Types.TypeText | kmp-library/src/main/java/com/guardsquare/proguard/kotlin/printer/KotlinMetadataPrinter.java:838-946 | a non-function type whose name is missing fails; a function type whose arity does not parse fails with `NumberFormatException`; any success starts with the annotations, flags, parameter name and variance |
| Parameters.AnonymousIndex | kmp-library/src/main/java/com/guardsquare/proguard/kotlin/printer/KotlinMetadataPrinter.java:579-581 | a match of `^<(.*) (\d+)>$` yields only digits from a name containing `<`, and anything after the place where `$` matched is a final line break |
| Parameters.RenameParameter | kmp-library/src/main/java/com/guardsquare/proguard/kotlin/printer/KotlinMetadataPrinter.java:579-581 | names without `<` are printed unchanged |
| Parameters.AnonymousSplit | kmp-library/src/main/java/com/guardsquare/proguard/kotlin/printer/KotlinMetadataPrinter.java:580 | the last space separates the description from the digits |
| Parameters.DigitsHaveNoAngle | kmp-library/src/main/java/com/guardsquare/proguard/kotlin/printer/KotlinMetadataPrinter.java:581 | the renamed `pN` contains no `<`, so the setter rule cannot fire on it |
| Parameters.AnonymousParameterRenamed | kmp-library/src/main/java/com/guardsquare/proguard/kotlin/printer/KotlinMetadataPrinter.java:580 | `<description N>` with a single-line description prints as `pN`, and a final line break after `>` is kept |
| Parameters.SetterNotAnonymous | kmp-library/src/main/java/com/guardsquare/proguard/kotlin/printer/KotlinMetadataPrinter.java:580 | `<set-?>` does not match the anonymous-parameter pattern |
| Parameters.SetterParameterRenamed | kmp-library/src/main/java/com/guardsquare/proguard/kotlin/printer/KotlinMetadataPrinter.java:581 | `<set-?>` prints as `p0` |
| Parameters.PropertyParameterType | kmp-library/src/main/java/com/guardsquare/proguard/kotlin/printer/KotlinMetadataPrinter.java:1357-1359 | `var` iff the property has a setter; `val` iff it has a getter and no setter |
| Parameters.LastMatchDecides | kmp-library/src/main/java/com/guardsquare/proguard/kotlin/printer/KotlinMetadataPrinter.java:626-629 | with no property of that name the parameter is plain; otherwise the last matching property decides |
| Parameters.ConstructorValParameterTypeChecker.constructor | kmp-library/src/main/java/com/guardsquare/proguard/kotlin/printer/KotlinMetadataPrinter.java:1350 | starts as `NORMAL` |
| Parameters.ConstructorValParameterTypeChecker.VisitAnyProperty | kmp-library/src/main/java/com/guardsquare/proguard/kotlin/printer/KotlinMetadataPrinter.java:1353-1360 | overwrites the kind with the property's setter/getter classification |
| Parameters.ConstructorParameterType | kmp-library/src/main/java/com/guardsquare/proguard/kotlin/printer/KotlinMetadataPrinter.java:621-631 | the loop over the filtered properties yields the last match's kind |
| Parameters.DeclarationText | kmp-library/src/main/java/com/guardsquare/proguard/kotlin/printer/KotlinMetadataPrinter.java:575-576 | nothing is printed for a plain parameter |
| Parameters.ParameterDeclaration | kmp-library/src/main/java/com/guardsquare/proguard/kotlin/printer/KotlinMetadataPrinter.java:577-582 | the declaration ends with the renamed parameter name and `: ` |
| Parameters.DeclarationKeyword | kmp-library/src/main/java/com/guardsquare/proguard/kotlin/printer/KotlinMetadataPrinter.java:572-583 | `, ` appears iff the index is non-zero, and `val `/`var ` comes right after it, before everything else |
| Parameters.SeparatorAndKeyword | kmp-library/src/main/java/com/guardsquare/proguard/kotlin/printer/KotlinMetadataPrinter.java:574-576 | the separator precedes the keyword, and an unseparated text starts with the keyword |
| Parameters.ParameterNameLast | kmp-library/src/main/java/com/guardsquare/proguard/kotlin/printer/KotlinMetadataPrinter.java:572-583 | every parameter prefix ends with the renamed name and `: ` |
| Sections.Line | kmp-library/src/main/java/com/guardsquare/proguard/kotlin/printer/KotlinMetadataPrinter.java:1186-1190 | a printed line starts with the indentation and the text, and ends with the line separator |
| Sections.KindText | kmp-library/src/main/java/com/guardsquare/proguard/kotlin/printer/KotlinMetadataPrinter.java:1120-1123 | the kind text ends with the kind string and starts with `companion ` only for companion classes |
| Sections.PackageLines | kmp-library/src/main/java/com/guardsquare/proguard/kotlin/printer/KotlinMetadataPrinter.java:1114-1118 | a `package` line is printed iff the context is at top level and the package is non-empty |
| Sections.TopComment | kmp-library/src/main/java/com/guardsquare/proguard/kotlin/printer/KotlinMetadataPrinter.java:1124-1131 | the kmp top comment fails (array index) exactly when the metadata version has fewer than three parts |
| Sections.HeaderText | kmp-library/src/main/java/com/guardsquare/proguard/kotlin/printer/KotlinMetadataPrinter.java:1112-1140 | the header fails exactly under the kmp printer, at top level, with a metadata version of fewer than three parts |
| Sections.FirstCommentLine | kmp-library/src/main/java/com/guardsquare/proguard/kotlin/printer/KotlinMetadataPrinter.java:1112-1140 | the first comment line starts with the indentation and `/` |
| Sections.HeaderOpening | kmp-library/src/main/java/com/guardsquare/proguard/kotlin/printer/KotlinMetadataPrinter.java:1112-1140 | the header starts with the package lines, then the first comment line |
| Sections.TopCommentOpening | kmp-library/src/main/java/com/guardsquare/proguard/kotlin/printer/KotlinMetadataPrinter.java:1124-1131 | the top comment opens with `/**` |
| Sections.HeaderPackageLine | src/main/java/proguard/kotlin/printer/KotlinSourcePrinter.java:990-1018 | the header starts with `package ` iff at top level with a non-empty package |
| Sections.TopHeaderEnd | kmp-library/src/main/java/com/guardsquare/proguard/kotlin/printer/KotlinMetadataPrinter.java:1124-1131 | a top-level header ends with ` */` |
| Sections.NestedHeaderStart | kmp-library/src/main/java/com/guardsquare/proguard/kotlin/printer/KotlinMetadataPrinter.java:1132-1139 | a nested header is one `// Kotlin <kind> from Java class: ` line |
| Sections.NestedHeaderValue | kmp-library/src/main/java/com/guardsquare/proguard/kotlin/printer/KotlinMetadataPrinter.java:1132-1139 | the nested header text is that line with the external class name, then the origin line |
| Sections.NestedHeaderSameInBothGenerations | src/main/java/proguard/kotlin/printer/KotlinSourcePrinter.java:990-1018 | both generations print the same nested header, and it never fails |
| Sections.SectionText | kmp-library/src/main/java/com/guardsquare/proguard/kotlin/printer/KotlinMetadataPrinter.java:183-212 | an empty group prints nothing; otherwise it starts with a blank line and `// <title>` |
| Sections.MembersText | kmp-library/src/main/java/com/guardsquare/proguard/kotlin/printer/KotlinMetadataPrinter.java:183-212 | the member sections print nothing iff there are no type aliases, properties, delegated properties or functions |
| Sections.SectionNotEmpty | kmp-library/src/main/java/com/guardsquare/proguard/kotlin/printer/KotlinMetadataPrinter.java:183-212 | a section with members prints something |
| Sections.TypeAliasesFirst | kmp-library/src/main/java/com/guardsquare/proguard/kotlin/printer/KotlinMetadataPrinter.java:183-212 | with type aliases, the members start with the `Type aliases` section |
| Sections.PropertiesFirst | kmp-library/src/main/java/com/guardsquare/proguard/kotlin/printer/KotlinMetadataPrinter.java:183-212 | without type aliases, properties come first |
| Sections.FunctionsOnly | kmp-library/src/main/java/com/guardsquare/proguard/kotlin/printer/KotlinMetadataPrinter.java:183-212 | with only functions, just the `Functions` section is printed, and nothing when there are none |
| Sections.FirstSection | kmp-library/src/main/java/com/guardsquare/proguard/kotlin/printer/KotlinMetadataPrinter.java:183-212 | a non-empty section leads whatever follows it |
| Sections.TopLevelRendered | src/main/java/proguard/kotlin/printer/KotlinSourcePrinter.java:81-85 | the older engine, and the kmp one when excluding embedded classes, never renders synthetic classes or multi-file parts at top level; every other kind is rendered |
| Sections.ProcessingInfo | src/main/java/proguard/kotlin/printer/KotlinSourcePrinter.java:87-95 | processing info is set to the text iff it is non-empty, else null |
| Sections.VersionRequirementText | kmp-library/src/main/java/com/guardsquare/proguard/kotlin/printer/KotlinMetadataPrinter.java:1058-1081 | inline requirements start with `@SinceKotlin("`; block ones end with `")` and a line separator |
| Sections.PlainConstructors | src/main/java/proguard/kotlin/printer/KotlinSourcePrinter.java:445-458 | a primary constructor prints `(params) `; a secondary one prints an indented `constructor(params) { }` line |
| Sections.AnnotatedPrimaryConstructor | src/main/java/proguard/kotlin/printer/KotlinSourcePrinter.java:405-444 | a primary constructor with a version requirement prints ` @SinceKotlin(...) constructor(params) ` |
| Sections.ShownConstructors | src/main/java/proguard/kotlin/printer/KotlinSourcePrinter.java:203-211 | only primary, non-parameterless constructors are shown; none are shown when no constructor qualifies |
| Sections.ConstructorTexts | src/main/java/proguard/kotlin/printer/KotlinSourcePrinter.java:203-211 | one text per shown constructor, in order |
| Sections.ConstructorText | src/main/java/proguard/kotlin/printer/KotlinSourcePrinter.java:445-458 | a secondary constructor ends with `) { }` and a line separator; a primary one ends with `) ` |
| Sections.PrimaryConstructorText | src/main/java/proguard/kotlin/printer/KotlinSourcePrinter.java:203-211 | with no primary constructor shown, a single space is printed; the text is never empty |
| Sections.ShownSupertypes | src/main/java/proguard/kotlin/printer/KotlinSourcePrinter.java:213-220 | only supertypes other than `kotlin/Any` and `kotlin/Enum` (and, in the kmp printer, `kotlin/Annotation`) are shown |
| Sections.SupertypeList | kmp-library/src/main/java/com/guardsquare/proguard/kotlin/printer/KotlinMetadataPrinter.java:273-281 | the first k shown supertypes print nothing iff k is 0, and otherwise start with `: ` |
| Sections.SupertypesAsWritten | kmp-library/src/main/java/com/guardsquare/proguard/kotlin/printer/KotlinMetadataPrinter.java:273-281 | as written: nothing iff no supertype is shown, otherwise starting with `: ` |
| Sections.SupertypeListEnds | kmp-library/src/main/java/com/guardsquare/proguard/kotlin/printer/KotlinMetadataPrinter.java:273-281 | a non-empty list starts with `: ` and, when the last index is that of the final shown entry, ends with it and a space |
| Sections.Supertypes | kmp-library/src/main/java/com/guardsquare/proguard/kotlin/printer/KotlinMetadataPrinter.java:273-281 | corrected: nothing iff no supertype is shown, otherwise `: ...` followed by a space |
| Sections.AsWrittenWhenNothingLeftOut | kmp-library/src/main/java/com/guardsquare/proguard/kotlin/printer/KotlinMetadataPrinter.java:273-281 | the as-written and corrected lists agree when no supertype is filtered out |
| Sections.AllShown | kmp-library/src/main/java/com/guardsquare/proguard/kotlin/printer/KotlinMetadataPrinter.java:273-281 | nothing is filtered when every supertype is shown |
| Sections.EnumWithInterfaceLosesSpace | kmp-library/src/main/java/com/guardsquare/proguard/kotlin/printer/KotlinMetadataPrinter.java:273-281 | as written, an enum implementing `I` prints `: I` with no trailing space; corrected, `: I ` |
| Sections.AnnotationSupertypeByGeneration | src/main/java/proguard/kotlin/printer/KotlinSourcePrinter.java:213-220 | `kotlin/Annotation` is hidden by the kmp printer and shown by the older one |
| Sections.StripKtSuffix | kmp-library/src/main/java/com/guardsquare/proguard/kotlin/printer/KotlinMetadataPrinter.java:469 | a `Kt` just before where `$` matches (the end, or before a final line break) is removed once and the rest kept; other names are unchanged |
| Sections.KtSuffixStripped | kmp-library/src/main/java/com/guardsquare/proguard/kotlin/printer/KotlinMetadataPrinter.java:469 | `NameKt`, with or without one final line break, loses `Kt` and keeps the break |
| Sections.PartFileLines | kmp-library/src/main/java/com/guardsquare/proguard/kotlin/printer/KotlinMetadataPrinter.java:460-475 | the part always ends with the multi-file-class line, after the guarded `@file:JvmName` |
| Sections.PartFileLinesGuard | src/main/java/proguard/kotlin/printer/KotlinSourcePrinter.java:387-399 | the older engine throws `StringIndexOutOfBounds` exactly when `__` occurs nowhere in the short name, and otherwise agrees with the guarded kmp version |
| Sections.PartFileLinesAsWritten | src/main/java/proguard/kotlin/printer/KotlinSourcePrinter.java:387-399 | the older engine either fails with `StringIndexOutOfBounds` or prints the same lines as the kmp printer |
| Sections.FacadeJvmName | kmp-library/src/main/java/com/guardsquare/proguard/kotlin/printer/KotlinMetadataPrinter.java:466-470 | a part `FooKt__File` prints `@file:JvmName("Foo")` and the multi-file line |
| Sections.FirstDoubleUnderscore | kmp-library/src/main/java/com/guardsquare/proguard/kotlin/printer/KotlinMetadataPrinter.java:466 | `indexOf("__")` finds the first `__` after an underscore-free head |
| EnumLayout.EntryPieces | kmp-library/src/main/java/com/guardsquare/proguard/kotlin/printer/KotlinMetadataPrinter.java:350-359 | entry i is its line break, its indentation and name, then its separator |
| EnumLayout.EnumEntryText | kmp-library/src/main/java/com/guardsquare/proguard/kotlin/printer/KotlinMetadataPrinter.java:350-359 | entry i ends with its name and separator; the first entry starts with the indentation and the first name |
| EnumLayout.EnumEntriesText | kmp-library/src/main/java/com/guardsquare/proguard/kotlin/printer/KotlinMetadataPrinter.java:350-359 | no entries print nothing; otherwise the text starts with the indented first name and ends with the last name |
| EnumLayout.ClassClose | kmp-library/src/main/java/com/guardsquare/proguard/kotlin/printer/KotlinMetadataPrinter.java:366-388 | a class with a body or entries closes with text starting with `{`; one with neither prints two line separators |
| EnumLayout.ClassCloseShape | kmp-library/src/main/java/com/guardsquare/proguard/kotlin/printer/KotlinMetadataPrinter.java:366-388 | entries and a body give `{`, the entries, `;`; any content is wrapped in `{ ... }`; a class with neither prints two line separators |
| EnumLayout.EntryCounts | kmp-library/src/main/java/com/guardsquare/proguard/kotlin/printer/KotlinMetadataPrinter.java:350-359 | entry i holds a line break iff `i > 0` and `i % 5 == 0`, and a comma iff it is not the last |
| EnumLayout.PieceCounts | kmp-library/src/main/java/com/guardsquare/proguard/kotlin/printer/KotlinMetadataPrinter.java:350-359 | the line break and separator pieces carry exactly those breaks and commas |
| EnumLayout.EnumLineBreaks | kmp-library/src/main/java/com/guardsquare/proguard/kotlin/printer/KotlinMetadataPrinter.java:350-359 | k entries contain `(k - 1) / 5` line breaks |
| EnumLayout.EntryBreaks | kmp-library/src/main/java/com/guardsquare/proguard/kotlin/printer/KotlinMetadataPrinter.java:350-359 | the loop's line breaks are counted by the breaks before each entry |
| EnumLayout.BreaksIsQuotient | kmp-library/src/main/java/com/guardsquare/proguard/kotlin/printer/KotlinMetadataPrinter.java:350-359 | the number of breaks before k entries is `(k - 1) / 5` |
| EnumLayout.NextQuotient | kmp-library/src/main/java/com/guardsquare/proguard/kotlin/printer/KotlinMetadataPrinter.java:353 | `j / 5` grows by one exactly at multiples of 5 |
| EnumLayout.EnumSeparators | kmp-library/src/main/java/com/guardsquare/proguard/kotlin/printer/KotlinMetadataPrinter.java:350-359 | `, ` follows every entry but the last |
| EnumLayout.FirstLineEntries | kmp-library/src/main/java/com/guardsquare/proguard/kotlin/printer/KotlinMetadataPrinter.java:350-359 | up to five entries form one indented line joined with `, ` |
| EnumLayout.FirstEntry | kmp-library/src/main/java/com/guardsquare/proguard/kotlin/printer/KotlinMetadataPrinter.java:350-359 | the first entry is indented and followed by its separator |
| EnumLayout.FirstLineStep | kmp-library/src/main/java/com/guardsquare/proguard/kotlin/printer/KotlinMetadataPrinter.java:350-359 | proof step: each further entry on the first line extends the join by `, name` |
| EnumLayout.OneLineEnum | kmp-library/src/main/java/com/guardsquare/proguard/kotlin/printer/KotlinMetadataPrinter.java:366-388 | a body-less enum with 1 to 5 entries prints `{ A, B }` on one line |
| EnumLayout.OneLineEntriesTrimmed | kmp-library/src/main/java/com/guardsquare/proguard/kotlin/printer/KotlinMetadataPrinter.java:366-388 | trimming the first-line entries gives the names joined with `, ` |
| EnumLayout.TrimIndentedJoin | kmp-library/src/main/java/com/guardsquare/proguard/kotlin/printer/KotlinMetadataPrinter.java:366-388 | trimming removes exactly the indentation from one line of entries |
| EnumLayout.OneLineClose | kmp-library/src/main/java/com/guardsquare/proguard/kotlin/printer/KotlinMetadataPrinter.java:366-388 | a short body-less enum closes as `{ trimmed }` and a line separator |
| Printer.Visits | src/main/java/proguard/kotlin/printer/KotlinSourcePrinter.java:161-164 | one visit decision per class in the order visited |
| Printer.VisitsAtMostOnce | src/main/java/proguard/kotlin/printer/KotlinSourcePrinter.java:161-164 | a class is rendered iff it was not seen before; no class is rendered twice |
| Printer.KotlinPrinter.constructor | kmp-library/src/main/java/com/guardsquare/proguard/kotlin/printer/KotlinMetadataPrinter.java:102-110 | a new printer has no buffers, indentation 0, an empty context, and nothing visited or recorded |
| Printer.KotlinPrinter.VisitAnyKotlinMetadata | kmp-library/src/main/java/com/guardsquare/proguard/kotlin/printer/KotlinMetadataPrinter.java:115-147 | records `ProcessingInfo` for the class: the rendered text when the kind is printed at top level, otherwise null |
| Printer.KotlinPrinter.ShouldVisit | src/main/java/proguard/kotlin/printer/KotlinSourcePrinter.java:161-164 | reports whether the class is new and marks it visited |
| Printer.KotlinPrinter.PrintPackageLines | kmp-library/src/main/java/com/guardsquare/proguard/kotlin/printer/KotlinMetadataPrinter.java:1112-1116 | appends `package x.y` and an empty line for the outermost node of a named package, and nothing otherwise |
| Printer.KotlinPrinter.PrintHeader | kmp-library/src/main/java/com/guardsquare/proguard/kotlin/printer/KotlinMetadataPrinter.java:1112-1140 | appends the header text; on a short version, appends what was printed before the exception and reports it |
| Printer.KotlinPrinter.PrintTopComment | kmp-library/src/main/java/com/guardsquare/proguard/kotlin/printer/KotlinMetadataPrinter.java:1124-1131 | appends the top comment, or its part before the failing version access and the error |
| Printer.KotlinPrinter.PrintNestedComment | kmp-library/src/main/java/com/guardsquare/proguard/kotlin/printer/KotlinMetadataPrinter.java:1132-1139 | appends the nested comment |
| Printer.KotlinPrinter.PrintSection | kmp-library/src/main/java/com/guardsquare/proguard/kotlin/printer/KotlinMetadataPrinter.java:183-212 | appends one member section |
| Printer.KotlinPrinter.PrintMembers | kmp-library/src/main/java/com/guardsquare/proguard/kotlin/printer/KotlinMetadataPrinter.java:183-212 | appends the type-alias, property and function sections in that order |
| Printer.KotlinPrinter.PrintEnumEntriesAndClose | kmp-library/src/main/java/com/guardsquare/proguard/kotlin/printer/KotlinMetadataPrinter.java:350-388 | pops the class body, renders the entries, outdents, and appends the closed class to the buffer below |
| Printer.KotlinPrinter.PrintEnumEntry | kmp-library/src/main/java/com/guardsquare/proguard/kotlin/printer/KotlinMetadataPrinter.java:351-359 | appends one entry with its break and separator |
| Printer.KotlinPrinter.PrintClassClose | kmp-library/src/main/java/com/guardsquare/proguard/kotlin/printer/KotlinMetadataPrinter.java:366-388 | appends the class close for the body and entries |
| Printer.KotlinPrinter.PrintValueParameter | kmp-library/src/main/java/com/guardsquare/proguard/kotlin/printer/KotlinMetadataPrinter.java:572-583 | appends the separator, keyword, flags, `vararg `, renamed name and `: ` |
| Printer.KotlinPrinter.PrintParameterDeclaration | kmp-library/src/main/java/com/guardsquare/proguard/kotlin/printer/KotlinMetadataPrinter.java:577-582 | appends the flags, `vararg ` and renamed name |
| Printer.KotlinPrinter.PrintTypedValueParameter | kmp-library/src/main/java/com/guardsquare/proguard/kotlin/printer/KotlinMetadataPrinter.java:587-617 | appends the prefix, then the vararg element type if any, else the type, and the default-value marker |
| Printer.KotlinPrinter.PrintParameterType | kmp-library/src/main/java/com/guardsquare/proguard/kotlin/printer/KotlinMetadataPrinter.java:644-678 | the vararg visit resets the scratch buffer, so only the element type survives |
| Printer.KotlinPrinter.VisitConstructorValParameter | kmp-library/src/main/java/com/guardsquare/proguard/kotlin/printer/KotlinMetadataPrinter.java:621-640 | a constructor parameter gets `var `/`val ` from the last matching property |
| Printer.KotlinPrinter.VisitMetadataAnnotation | src/main/java/proguard/kotlin/printer/KotlinSourcePrinter.java:932-936 | appends `@` and the annotation |
| Printer.KotlinPrinter.PrintKotlinAnnotation | src/main/java/proguard/kotlin/printer/KotlinSourcePrinter.java:1020-1035 | appends the class name and, only when there are arguments, `(k = v, ...)` |
| Printer.KotlinPrinter.PrintKmArguments | src/main/java/proguard/kotlin/printer/KotlinSourcePrinter.java:1023-1033 | appends the arguments separated by `, ` |
| Printer.KotlinPrinter.PrintKmArgumentEntry | src/main/java/proguard/kotlin/printer/KotlinSourcePrinter.java:1027-1031 | appends `, ` when not first, then `name = value` |
| Printer.KotlinPrinter.PrintKmAnnotationArgument | src/main/java/proguard/kotlin/printer/KotlinSourcePrinter.java:1038-1077 | appends the value: quoted strings, `{...}` arrays, nested annotations without `@`, class and enum names through `className` |
| Printer.KotlinPrinter.PrintKmArray | src/main/java/proguard/kotlin/printer/KotlinSourcePrinter.java:1058-1072 | appends `{`, the members separated by `, `, and `}` |
| Hooks.ForwardTrace | kmp-library/src/main/java/com/guardsquare/proguard/kotlin/printer/internal/visitor/KotlinTypeVisitorWrapper.java:57-70 | one forwarded visit calls `before(i)`, then the delegate, then `after(i)` when present |
| Hooks.TraceOf | kmp-library/src/main/java/com/guardsquare/proguard/kotlin/printer/internal/visitor/KotlinTypeVisitorWrapper.java:57-70 | k visits make 3k hook calls with an `after` hook, 2k without |
| Hooks.BeforeIndices | kmp-library/src/main/java/com/guardsquare/proguard/kotlin/printer/internal/visitor/KotlinTypeVisitorWrapper.java:57-60 | the indices passed to `before` |
| Hooks.AfterIndices | kmp-library/src/main/java/com/guardsquare/proguard/kotlin/printer/internal/visitor/KotlinTypeVisitorWrapper.java:63-70 | the indices passed to `after` |
| Hooks.Delegated | kmp-library/src/main/java/com/guardsquare/proguard/kotlin/printer/internal/visitor/KotlinTypeVisitorWrapper.java:79-360 | the visits passed to the delegate |
| Hooks.Range | kmp-library/src/main/java/com/guardsquare/proguard/kotlin/printer/internal/visitor/KotlinTypeVisitorWrapper.java:69 | the indices `lo` .. `hi - 1` in order |
| Hooks.ProjectionsAppend | kmp-library/src/main/java/com/guardsquare/proguard/kotlin/printer/internal/visitor/KotlinTypeVisitorWrapper.java:57-70 | the hook projections distribute over concatenated traces |
| Hooks.TraceIndices | kmp-library/src/main/java/com/guardsquare/proguard/kotlin/printer/internal/visitor/KotlinTypeVisitorWrapper.java:57-70 | after k visits from index s, `before` saw s .. s+k-1 in order, `after` the same (or nothing without a hook), and the delegate every visit in order |
| Hooks.ForwardProjections | kmp-library/src/main/java/com/guardsquare/proguard/kotlin/printer/internal/visitor/KotlinTypeVisitorWrapper.java:57-70 | one visit passes index i once to each hook and the visit once to the delegate |
| Hooks.RangeOnce | kmp-library/src/main/java/com/guardsquare/proguard/kotlin/printer/internal/visitor/KotlinMetadataVisitorWrapper.java:42 | each index in the range occurs exactly once |
| Hooks.FirstIndexOnce | kmp-library/src/main/java/com/guardsquare/proguard/kotlin/printer/internal/visitor/KotlinMetadataVisitorWrapper.java:40-44 | `before` sees index 0 exactly once, on the first visit, so a header printed at index 0 appears once |
| KmpVisitors.AbbreviationSubjects | kmp-library/src/main/java/com/guardsquare/proguard/kotlin/printer/internal/visitor/KotlinTypeVisitorWrapper.java:88-96 | only `visitAbbreviation` passes different types to the hooks: the outer type to `before`, the abbreviation to `after` |
| KmpVisitors.TypeVisitorWrapper.constructor | kmp-library/src/main/java/com/guardsquare/proguard/kotlin/printer/internal/visitor/KotlinTypeVisitorWrapper.java:40-54 | starts at index 0 with no calls; the two-argument form has no `after` hook |
| KmpVisitors.TypeVisitorWrapper.BeforeHook | kmp-library/src/main/java/com/guardsquare/proguard/kotlin/printer/internal/visitor/KotlinTypeVisitorWrapper.java:57-60 | calls `before(i)` and leaves the counter alone |
| KmpVisitors.TypeVisitorWrapper.AfterHook | kmp-library/src/main/java/com/guardsquare/proguard/kotlin/printer/internal/visitor/KotlinTypeVisitorWrapper.java:63-70 | calls `after(i)` when present, then increments the counter |
| KmpVisitors.TypeVisitorWrapper.Visit | kmp-library/src/main/java/com/guardsquare/proguard/kotlin/printer/internal/visitor/KotlinTypeVisitorWrapper.java:79-360 | every forwarding visit appends `before(i)`, the delegate call and `after(i)`, and increments i; the counter stays equal to the number of visits |
| KmpVisitors.TypeVisitorWrapper.VisitAnyType | kmp-library/src/main/java/com/guardsquare/proguard/kotlin/printer/internal/visitor/KotlinTypeVisitorWrapper.java:75 | does nothing |
| KmpVisitors.TypeParameterVisitorWrapper.constructor | kmp-library/src/main/java/com/guardsquare/proguard/kotlin/printer/internal/visitor/KotlinTypeParameterVisitorWrapper.java:40-51 | starts at index 0; the short form has no `after` hook |
| KmpVisitors.TypeParameterVisitorWrapper.Visit | kmp-library/src/main/java/com/guardsquare/proguard/kotlin/printer/internal/visitor/KotlinTypeParameterVisitorWrapper.java:54-127 | each class, property, function or alias visit is `before(i)`, the delegate, `after(i)`, then `i++` |
| KmpVisitors.TypeParameterVisitorWrapper.VisitAnyTypeParameter | kmp-library/src/main/java/com/guardsquare/proguard/kotlin/printer/internal/visitor/KotlinTypeParameterVisitorWrapper.java:71 | does nothing |
| KmpVisitors.MetadataVisitorWrapper.constructor | kmp-library/src/main/java/com/guardsquare/proguard/kotlin/printer/internal/visitor/KotlinMetadataVisitorWrapper.java:21-37 | starts at index 0; the short form has no `after` hook |
| KmpVisitors.MetadataVisitorWrapper.VisitAnyKotlinMetadata | kmp-library/src/main/java/com/guardsquare/proguard/kotlin/printer/internal/visitor/KotlinMetadataVisitorWrapper.java:40-63 | `before(i)`, accept with the delegate, `after(i)`, then `i++` |
| SourceVisitors.TypeParameterVisitorWrapper.constructor | src/main/java/proguard/kotlin/printer/visitor/KotlinTypeParameterVisitorWrapper.java:28-45 | starts at index 0; the short form has no `after` hook |
| SourceVisitors.TypeParameterVisitorWrapper.Visit | src/main/java/proguard/kotlin/printer/visitor/KotlinTypeParameterVisitorWrapper.java:48-121 | each forwarded visit is `before(i)`, the delegate, `after(i)`, then `i++` |
| SourceVisitors.TypeParameterVisitorWrapper.VisitAnyTypeParameter | src/main/java/proguard/kotlin/printer/visitor/KotlinTypeParameterVisitorWrapper.java:65 | does nothing |
| SourceVisitors.TypedCount | src/main/java/proguard/kotlin/printer/visitor/KotlinAnnotationVisitorWrapper.java:62-91 | counts the typed visits, never more than all visits |
| SourceVisitors.EventTraceSnoc | src/main/java/proguard/kotlin/printer/visitor/KotlinAnnotationVisitorWrapper.java:39-91 | a typed visit adds one to the count, and every visit appends its own hook calls |
| SourceVisitors.EventTraceIndices | src/main/java/proguard/kotlin/printer/visitor/KotlinAnnotationVisitorWrapper.java:45-91 | `after` saw exactly 0 .. n-1 for n typed visits, and the delegate was called n times |
| SourceVisitors.AnnotationVisitorWrapper.constructor | src/main/java/proguard/kotlin/printer/visitor/KotlinAnnotationVisitorWrapper.java:24-37 | starts at index 0; the short form has no `after` hook |
| SourceVisitors.AnnotationVisitorWrapper.VisitAnyAnnotation | src/main/java/proguard/kotlin/printer/visitor/KotlinAnnotationVisitorWrapper.java:55-58 | calls only `before(i)`; the counter does not move, so repeated calls see the same index |
| SourceVisitors.AnnotationVisitorWrapper.Visit | src/main/java/proguard/kotlin/printer/visitor/KotlinAnnotationVisitorWrapper.java:62-91 | a typed visit is `before(i)`, accept with the delegate, `after(i)`, then `i++` |
| JvmAnnotations.PrimitiveMapDomain | kmp-library/src/main/java/com/guardsquare/proguard/kotlin/printer/internal/AnnotationPrinter.java:46-57 | exactly the descriptors Z, B, C, S, I, F, J, D have a class literal |
| JvmAnnotations.ClassLiteralOf | kmp-library/src/main/java/com/guardsquare/proguard/kotlin/printer/internal/AnnotationPrinter.java:48-57 | a class literal ends with `::class` |
| JvmAnnotations.KotlinPrimitiveName | kmp-library/src/main/java/com/guardsquare/proguard/kotlin/printer/internal/AnnotationPrinter.java:48-57 | each primitive maps to a plain Kotlin class name |
| JvmAnnotations.PrimitiveLiterals | kmp-library/src/main/java/com/guardsquare/proguard/kotlin/printer/internal/AnnotationPrinter.java:48-57 | each primitive descriptor maps to `Boolean::class` ... `Double::class` |
| JvmAnnotations.InternalClassNameFromType | kmp-library/src/main/java/com/guardsquare/proguard/kotlin/printer/internal/AnnotationPrinter.java:156 | the internal name is no longer than the descriptor, and a descriptor not ending in `;` is returned as it is |
| JvmAnnotations.ArrayDimensions | kmp-library/src/main/java/com/guardsquare/proguard/kotlin/printer/internal/AnnotationPrinter.java:156 | the count of leading `[` of the descriptor |
| JvmAnnotations.ArrayClassTypeName | kmp-library/src/main/java/com/guardsquare/proguard/kotlin/printer/internal/AnnotationPrinter.java:156 | any number of `[` before `L<name>;` gives back `<name>`: array dimensions are dropped |
| JvmAnnotations.ClassTypeRoundTrip | kmp-library/src/main/java/com/guardsquare/proguard/kotlin/printer/internal/AnnotationPrinter.java:152-158 | `L<name>;` gives back `<name>` |
| JvmAnnotations.ConstantText | kmp-library/src/main/java/com/guardsquare/proguard/kotlin/printer/internal/AnnotationPrinter.java:128-134 | strings are double-quoted around their text; integers start with `-` iff negative |
| JvmAnnotations.Separator | kmp-library/src/main/java/com/guardsquare/proguard/kotlin/printer/internal/AnnotationPrinter.java:110-114 | no `, ` exactly after `(` or `{` |
| JvmAnnotations.NamePrefix | kmp-library/src/main/java/com/guardsquare/proguard/kotlin/printer/internal/AnnotationPrinter.java:115-123 | no `name = ` for a missing name or `value`, else `name = ` |
| Text.LastChar | kmp-library/src/main/java/com/guardsquare/proguard/kotlin/printer/internal/AnnotationPrinter.java:110-114 | the last character of the text written, or the previous last character when nothing was written |
| JvmAnnotations.AnnotationsTextStep | kmp-library/src/main/java/com/guardsquare/proguard/kotlin/printer/internal/AnnotationPrinter.java:76-84 | proof step: the attribute's text grows by one annotation's shown text per step |
| JvmAnnotations.Shown | kmp-library/src/main/java/com/guardsquare/proguard/kotlin/printer/internal/AnnotationPrinter.java:78-83 | keeps exactly the annotations that are not hidden |
| JvmAnnotations.HiddenAnnotationsSkipped | kmp-library/src/main/java/com/guardsquare/proguard/kotlin/printer/internal/AnnotationPrinter.java:76-84 | `Metadata`, `NotNull` and `Nullable` contribute nothing to the printed attribute |
| JvmAnnotations.ParenthesesIffElements | kmp-library/src/main/java/com/guardsquare/proguard/kotlin/printer/internal/AnnotationPrinter.java:93-101 | the body is the class name, followed by `(...)` iff there are element values |
| JvmAnnotations.NestedAnnotationHasNoAtSign | kmp-library/src/main/java/com/guardsquare/proguard/kotlin/printer/internal/AnnotationPrinter.java:162-169 | an annotation nested as an element value does not start with `@` |
| JvmAnnotations.TopLevelAnnotationShape | kmp-library/src/main/java/com/guardsquare/proguard/kotlin/printer/internal/AnnotationPrinter.java:88-104 | at level 0: `@`, indented iff block, ending with a line separator iff block; inline is exactly `@` + body |
| JvmAnnotations.TopLevelFrame | kmp-library/src/main/java/com/guardsquare/proguard/kotlin/printer/internal/AnnotationPrinter.java:90-103 | proof step: the level-0 framing of a body |
| JvmAnnotations.Pieces | kmp-library/src/main/java/com/guardsquare/proguard/kotlin/printer/internal/AnnotationPrinter.java:108-124 | one piece per element value, in order |
| JvmAnnotations.ElementsJoined | kmp-library/src/main/java/com/guardsquare/proguard/kotlin/printer/internal/AnnotationPrinter.java:108-124 | after `(` or `{`, the element values are their pieces joined with `, ` |
| JvmAnnotations.ElementTextIsPiece | kmp-library/src/main/java/com/guardsquare/proguard/kotlin/printer/internal/AnnotationPrinter.java:108-124 | each element value is the separator followed by its piece |
| JvmAnnotations.ClosedJoinStep | kmp-library/src/main/java/com/guardsquare/proguard/kotlin/printer/internal/AnnotationPrinter.java:110-114 | proof step: the separator chosen from the last character extends the join by one item |
| JvmAnnotations.JoinedClosed | kmp-library/src/main/java/com/guardsquare/proguard/kotlin/printer/internal/AnnotationPrinter.java:110-114 | proof step: appending a piece keeps the text ending in a closing character |
| JvmAnnotations.PrimitiveClassPrinted | kmp-library/src/main/java/com/guardsquare/proguard/kotlin/printer/internal/AnnotationPrinter.java:152-155 | a primitive class value prints its Kotlin class literal |
| JvmAnnotations.ReferenceClassPrinted | kmp-library/src/main/java/com/guardsquare/proguard/kotlin/printer/internal/AnnotationPrinter.java:156-158 | `L<name>;` prints the resolved name |
| JvmAnnotations.ElementsTextStep | kmp-library/src/main/java/com/guardsquare/proguard/kotlin/printer/internal/AnnotationPrinter.java:108-124 | proof step: the element loop appends one element value at a time |
| JvmAnnotations.ElementsAdvance | kmp-library/src/main/java/com/guardsquare/proguard/kotlin/printer/internal/AnnotationPrinter.java:108-124 | proof step: one loop step on the buffer equals appending the next prefix |
| Output.LastCharOfAppended | kmp-library/src/main/java/com/guardsquare/proguard/kotlin/printer/internal/AnnotationPrinter.java:110-114 | proof step: after appending to a non-empty top buffer, its last character is that of the appended text, or the old one when the text is empty |
| JvmAnnotations.AnnotationPrinter.constructor | kmp-library/src/main/java/com/guardsquare/proguard/kotlin/printer/internal/AnnotationPrinter.java:59-68 | level 0 with the given buffer, context and inline flag |
| JvmAnnotations.AnnotationPrinter.VisitAnyAnnotationsAttribute | kmp-library/src/main/java/com/guardsquare/proguard/kotlin/printer/internal/AnnotationPrinter.java:76-84 | appends every shown annotation; level back to 0 |
| JvmAnnotations.AnnotationPrinter.VisitListedAnnotation | kmp-library/src/main/java/com/guardsquare/proguard/kotlin/printer/internal/AnnotationPrinter.java:78-83 | appends one annotation unless it is hidden |
| JvmAnnotations.AnnotationPrinter.VisitAnnotation | kmp-library/src/main/java/com/guardsquare/proguard/kotlin/printer/internal/AnnotationPrinter.java:88-104 | appends the level-0 framed annotation or, nested, its body; level restored |
| JvmAnnotations.AnnotationPrinter.PrintAnnotationBody | kmp-library/src/main/java/com/guardsquare/proguard/kotlin/printer/internal/AnnotationPrinter.java:92-101 | appends the class name and the parenthesised element values |
| JvmAnnotations.AnnotationBodyPrinted | kmp-library/src/main/java/com/guardsquare/proguard/kotlin/printer/internal/AnnotationPrinter.java:92-101 | the shortened name followed, only when there are element values, by those values in parentheses adds up to exactly the annotation body |
| JvmAnnotations.AnnotationBody | kmp-library/src/main/java/com/guardsquare/proguard/kotlin/printer/internal/AnnotationPrinter.java:92-101 | the body starts with the shortened class name and never with `@` |
| JvmAnnotations.ElementsText | kmp-library/src/main/java/com/guardsquare/proguard/kotlin/printer/internal/AnnotationPrinter.java:108-124 | no element values print nothing; after a character other than `(` or `{`, they start with `, ` |
| JvmAnnotations.ValueText | kmp-library/src/main/java/com/guardsquare/proguard/kotlin/printer/internal/AnnotationPrinter.java:128-179 | an enum constant ends with `.CONST`; an array is enclosed in `{` and `}`; a nested annotation does not start with `@` |
| JvmAnnotations.NestedElementText | kmp-library/src/main/java/com/guardsquare/proguard/kotlin/printer/internal/AnnotationPrinter.java:162-169 | proof step: a nested annotation element is its separator, name prefix and body |
| JvmAnnotations.TopLevelAnnotationText | kmp-library/src/main/java/com/guardsquare/proguard/kotlin/printer/internal/AnnotationPrinter.java:88-104 | a level-0 annotation ends with `@`, the body and, in block form, a line separator |
| JvmAnnotations.AnnotationsText | kmp-library/src/main/java/com/guardsquare/proguard/kotlin/printer/internal/AnnotationPrinter.java:76-84 | an annotations attribute prints nothing iff every annotation in it is hidden |
| JvmAnnotations.AnnotationPrinter.VisitElementValues | kmp-library/src/main/java/com/guardsquare/proguard/kotlin/printer/internal/AnnotationPrinter.java:97 | appends the element values with separators chosen from the last character |
| JvmAnnotations.AnnotationPrinter.ElementValueAccept | kmp-library/src/main/java/com/guardsquare/proguard/kotlin/printer/internal/AnnotationPrinter.java:108-179 | appends one element value, and the buffer then ends in its last character |
| JvmAnnotations.AnnotationPrinter.VisitAnyElementValue | kmp-library/src/main/java/com/guardsquare/proguard/kotlin/printer/internal/AnnotationPrinter.java:108-124 | appends the separator and the name prefix |
| JvmAnnotations.AnnotationPrinter.VisitConstantElementValue | kmp-library/src/main/java/com/guardsquare/proguard/kotlin/printer/internal/AnnotationPrinter.java:128-134 | appends the separated constant |
| JvmAnnotations.AnnotationPrinter.VisitEnumConstantElementValue | kmp-library/src/main/java/com/guardsquare/proguard/kotlin/printer/internal/AnnotationPrinter.java:138-145 | appends the separated `Type.CONST` |
| JvmAnnotations.AnnotationPrinter.PrintEnumConstant | kmp-library/src/main/java/com/guardsquare/proguard/kotlin/printer/internal/AnnotationPrinter.java:143-144 | appends `Type.CONST` with the resolved type name |
| JvmAnnotations.AnnotationPrinter.VisitClassElementValue | kmp-library/src/main/java/com/guardsquare/proguard/kotlin/printer/internal/AnnotationPrinter.java:148-159 | appends the separated class literal |
| JvmAnnotations.AnnotationPrinter.PrintClassLiteral | kmp-library/src/main/java/com/guardsquare/proguard/kotlin/printer/internal/AnnotationPrinter.java:151-158 | appends the primitive literal or the resolved class name |
| JvmAnnotations.AnnotationPrinter.VisitAnnotationElementValue | kmp-library/src/main/java/com/guardsquare/proguard/kotlin/printer/internal/AnnotationPrinter.java:162-169 | appends the nested annotation without `@`; level restored |
| JvmAnnotations.AnnotationPrinter.VisitArrayElementValue | kmp-library/src/main/java/com/guardsquare/proguard/kotlin/printer/internal/AnnotationPrinter.java:173-179 | appends the separated array |
| JvmAnnotations.AnnotationPrinter.PrintArray | kmp-library/src/main/java/com/guardsquare/proguard/kotlin/printer/internal/AnnotationPrinter.java:176-178 | appends `{`, the members, `}` |
| KotlinAnnotations.ToUnsigned | src/main/java/proguard/kotlin/printer/KotlinAnnotationPrinter.java:121-149 | the unsigned reading of the bits: below the modulus, congruent to them, and equal for non-negative bits |
| KotlinAnnotations.ToSigned | src/main/java/proguard/kotlin/printer/KotlinAnnotationPrinter.java:121-149 | the signed value lies in the two's-complement range |
| KotlinAnnotations.UnsignedRoundTrip | src/main/java/proguard/kotlin/printer/KotlinAnnotationPrinter.java:121-149 | the signed and unsigned readings are inverse to each other |
| KotlinAnnotations.LiteralText | src/main/java/proguard/kotlin/printer/KotlinAnnotationPrinter.java:109-117 | integer literals start with `-` iff negative |
| KotlinAnnotations.RepeatInFront | src/main/java/proguard/kotlin/printer/KotlinAnnotationPrinter.java:186-192 | one more `Array<` in front is one more repetition |
| KotlinAnnotations.ArrayWrappedNests | src/main/java/proguard/kotlin/printer/KotlinAnnotationPrinter.java:186-192 | zero dimensions is the class name; each dimension adds one `Array<...>` |
| KotlinAnnotations.ArrayWrapped | src/main/java/proguard/kotlin/printer/KotlinAnnotationPrinter.java:186-192 | each dimension adds seven characters (`Array<` and `>`) around the class name |
| KotlinAnnotations.Separator | src/main/java/proguard/kotlin/printer/KotlinAnnotationPrinter.java:99-101 | no `, ` exactly after `(` or `[` |
| KotlinAnnotations.UnsignedPrinted | src/main/java/proguard/kotlin/printer/KotlinAnnotationPrinter.java:121-149 | UByte, UShort, UInt and ULong print decimal digits whose value is below 2^8, 2^16, 2^32, 2^64 and reads back as the stored bits |
| KotlinAnnotations.ScalarText | src/main/java/proguard/kotlin/printer/KotlinAnnotationPrinter.java:109-217 | a string prints as its text between double quotes; an enum entry ends with `.ENTRY`; a class literal with n dimensions starts with n `Array<` and ends with `::class` |
| KotlinAnnotations.QuotedText | src/main/java/proguard/kotlin/printer/KotlinAnnotationPrinter.java:174 | the string between double quotes: two characters longer, with the text in between |
| KotlinAnnotations.EntryText | src/main/java/proguard/kotlin/printer/KotlinAnnotationPrinter.java:209-217 | the enum text ends with `.ENTRY` |
| KotlinAnnotations.ClassArgumentText | src/main/java/proguard/kotlin/printer/KotlinAnnotationPrinter.java:186-192 | the wrapped name starts with n `Array<` and ends with `::class` |
| KotlinAnnotations.NestedAnnotationHasNoAtSign | src/main/java/proguard/kotlin/printer/KotlinAnnotationPrinter.java:197-205 | a nested annotation argument does not start with `@` |
| KotlinAnnotations.TopLevelAnnotationShape | src/main/java/proguard/kotlin/printer/KotlinAnnotationPrinter.java:45-58 | at level 0: `@`, indented iff not inline, ending with a space when inline and a line separator otherwise |
| KotlinAnnotations.JoinedClosed | src/main/java/proguard/kotlin/printer/KotlinAnnotationPrinter.java:99-101 | proof step: appending a piece keeps the text ending in a closing character |
| KotlinAnnotations.ArgumentPiece | src/main/java/proguard/kotlin/printer/KotlinAnnotationPrinter.java:93-105 | an argument piece ends in a closing character when its value does |
| KotlinAnnotations.ArgumentPieces | src/main/java/proguard/kotlin/printer/KotlinAnnotationPrinter.java:93-105 | one piece per argument, in order |
| KotlinAnnotations.MemberValues | src/main/java/proguard/kotlin/printer/KotlinAnnotationPrinter.java:153-163 | one value text per array member, in order |
| KotlinAnnotations.ArgumentTextIsPiece | src/main/java/proguard/kotlin/printer/KotlinAnnotationPrinter.java:93-105 | each argument is the separator followed by `name = value` |
| KotlinAnnotations.ArgumentsJoined | src/main/java/proguard/kotlin/printer/KotlinAnnotationPrinter.java:48-58 | the argument list is the pieces joined with `, ` |
| KotlinAnnotations.ClosedJoinStep | src/main/java/proguard/kotlin/printer/KotlinAnnotationPrinter.java:99-101 | proof step: the separator chosen from the last character extends the join by one item |
| KotlinAnnotations.ArrayMembersRepeatName | src/main/java/proguard/kotlin/printer/KotlinAnnotationPrinter.java:153-163 | as written, a one-member array argument prints `[name = v]`, not `[v]` |
| KotlinAnnotations.IntendedArrayJoined | src/main/java/proguard/kotlin/printer/KotlinAnnotationPrinter.java:153-163 | corrected, array members are their values joined with `, ` |
| KotlinAnnotations.ArgumentsTextStep | src/main/java/proguard/kotlin/printer/KotlinAnnotationPrinter.java:93-105 | proof step: the argument loop appends one argument at a time |
| KotlinAnnotations.ArgumentsAdvance | src/main/java/proguard/kotlin/printer/KotlinAnnotationPrinter.java:93-105 | proof step: one loop step on the buffer equals appending the next prefix |
| KotlinAnnotations.MembersTextStep | src/main/java/proguard/kotlin/printer/KotlinAnnotationPrinter.java:153-163 | proof step: the member loop appends one member at a time |
| KotlinAnnotations.MembersAdvance | src/main/java/proguard/kotlin/printer/KotlinAnnotationPrinter.java:153-163 | proof step: one member step on the buffer equals appending the next prefix |
| KotlinAnnotations.KmArgumentPieces | src/main/java/proguard/kotlin/printer/KotlinSourcePrinter.java:1023-1033 | one `name = value` per argument, in order |
| KotlinAnnotations.KmArgumentsJoined | src/main/java/proguard/kotlin/printer/KotlinSourcePrinter.java:1020-1035 | the older engine's arguments are `name = value` joined with `, ` |
| KotlinAnnotations.KmArrayJoined | src/main/java/proguard/kotlin/printer/KotlinSourcePrinter.java:1058-1072 | the older engine's arrays are `{` + values joined with `, ` + `}` |
| KotlinAnnotations.KmAnnotationText | src/main/java/proguard/kotlin/printer/KotlinSourcePrinter.java:1020-1035 | the older engine's annotation starts with the shortened class name and never with `@` |
| KotlinAnnotations.KmValueText | src/main/java/proguard/kotlin/printer/KotlinSourcePrinter.java:1038-1072 | strings are double-quoted around their text; arrays are enclosed in `{` and `}`; nested annotations do not start with `@` |
| KotlinAnnotations.KmArgumentsTextStep | src/main/java/proguard/kotlin/printer/KotlinSourcePrinter.java:1023-1033 | proof step: that loop appends `, ` (except first) and one argument |
| KotlinAnnotations.KmMembersTextStep | src/main/java/proguard/kotlin/printer/KotlinSourcePrinter.java:1058-1072 | proof step: the array loop appends `, ` (except first) and one member |
| KotlinAnnotations.KotlinAnnotationPrinter.constructor | src/main/java/proguard/kotlin/printer/KotlinAnnotationPrinter.java:34-37 | level 0, not inline |
| KotlinAnnotations.KotlinAnnotationPrinter.VisitTypeAnnotation | src/main/java/proguard/kotlin/printer/KotlinAnnotationPrinter.java:63-69 | type annotations are inline |
| KotlinAnnotations.KotlinAnnotationPrinter.VisitTypeParameterAnnotation | src/main/java/proguard/kotlin/printer/KotlinAnnotationPrinter.java:73-79 | type-parameter annotations are inline |
| KotlinAnnotations.KotlinAnnotationPrinter.VisitTypeAliasAnnotation | src/main/java/proguard/kotlin/printer/KotlinAnnotationPrinter.java:83-89 | type-alias annotations are block |
| KotlinAnnotations.KotlinAnnotationPrinter.VisitAnyAnnotation | src/main/java/proguard/kotlin/printer/KotlinAnnotationPrinter.java:41-59 | appends the level-0 framed annotation or, nested, its body; level restored |
| KotlinAnnotations.KotlinAnnotationPrinter.PrintAnnotationBody | src/main/java/proguard/kotlin/printer/KotlinAnnotationPrinter.java:46-57 | appends the class name and `(arguments)` only when there are arguments |
| KotlinAnnotations.AnnotationBodyPrinted | src/main/java/proguard/kotlin/printer/KotlinAnnotationPrinter.java:46-57 | the shortened class name followed, only when there are arguments, by the arguments in parentheses adds up to exactly the annotation body |
| KotlinAnnotations.AnnotationBody | src/main/java/proguard/kotlin/printer/KotlinAnnotationPrinter.java:46-57 | the body starts with the shortened class name and never with `@` |
| KotlinAnnotations.ArgumentsText | src/main/java/proguard/kotlin/printer/KotlinAnnotationPrinter.java:93-105 | no arguments print nothing; after a character other than `(` or `[`, the arguments start with `, ` |
| KotlinAnnotations.ValueText | src/main/java/proguard/kotlin/printer/KotlinAnnotationPrinter.java:153-205 | an array value is enclosed in `[` and `]`; a nested annotation does not start with `@` |
| KotlinAnnotations.AnnotationArgumentText | src/main/java/proguard/kotlin/printer/KotlinAnnotationPrinter.java:197-205 | a nested annotation argument is its separator, `name = ` and the annotation body |
| KotlinAnnotations.KotlinAnnotationPrinter.ArgumentsAccept | src/main/java/proguard/kotlin/printer/KotlinAnnotationPrinter.java:52 | appends the arguments with separators chosen from the last character |
| KotlinAnnotations.KotlinAnnotationPrinter.ElementsAccept | src/main/java/proguard/kotlin/printer/KotlinAnnotationPrinter.java:161 | appends the array members, each as a full argument |
| KotlinAnnotations.KotlinAnnotationPrinter.ArgumentAccept | src/main/java/proguard/kotlin/printer/KotlinAnnotationPrinter.java:93-217 | appends one argument, and the buffer then ends in its last character |
| KotlinAnnotations.KotlinAnnotationPrinter.VisitAnyArgument | src/main/java/proguard/kotlin/printer/KotlinAnnotationPrinter.java:93-105 | appends the separator and `name = `, `value` included |
| KotlinAnnotations.KotlinAnnotationPrinter.VisitScalarArgument | src/main/java/proguard/kotlin/printer/KotlinAnnotationPrinter.java:109-217 | appends a separated scalar argument |
| KotlinAnnotations.KotlinAnnotationPrinter.PrintScalarValue | src/main/java/proguard/kotlin/printer/KotlinAnnotationPrinter.java:109-175 | appends the literal, unsigned, string, class or enum text |
| KotlinAnnotations.KotlinAnnotationPrinter.PrintClassValue | src/main/java/proguard/kotlin/printer/KotlinAnnotationPrinter.java:179-193 | appends the array-wrapped class literal |
| KotlinAnnotations.KotlinAnnotationPrinter.PrintEnumValue | src/main/java/proguard/kotlin/printer/KotlinAnnotationPrinter.java:209-217 | appends `Class.ENTRY` |
| KotlinAnnotations.KotlinAnnotationPrinter.VisitAnnotationArgument | src/main/java/proguard/kotlin/printer/KotlinAnnotationPrinter.java:197-205 | appends a nested annotation without `@`; level restored |
| KotlinAnnotations.KotlinAnnotationPrinter.VisitArrayArgument | src/main/java/proguard/kotlin/printer/KotlinAnnotationPrinter.java:153-163 | appends a separated array argument |
| KotlinAnnotations.KotlinAnnotationPrinter.PrintArray | src/main/java/proguard/kotlin/printer/KotlinAnnotationPrinter.java:160-162 | appends `[`, the members, `]` |

## Left out

- **ProGuard traversal.** The ProGuard Core traversal (`accept` ordering, class-pool lookups, class-reference initialisation) is not part of this model. Neither is ProGuard Core's `ClassUtil`; the one descriptor helper the printers use is written out as `JvmAnnotations.InternalClassNameFromType`. Children arrive as given sequences, or as already-rendered strings where only their text matters (member texts, type texts, enum entry names, the rendered class).
- **CLI and I/O.** The command-line tool (`src/main/java/proguard/tools/KotlinMetadataPrinter.java`) and `Dex2JarReader` are I/O, so they are not part of this model. `metadataKindToString` is an input string.
- **Constant rendering.** `ConstantToStringVisitor` is not part of this model. Class-file and metadata constants other than strings and integers arrive as rendered text, which covers floating point.
- **Type-parameter visitor.** `KotlinClassTypeParameterVisitor` is a one-line delegation into ProGuard Core, and is not part of this model.
- **Omitted class parts.** The printers' sealed-subclass, underlying-property and synthetic-inner-class comments, and the property body details, are not modelled. Neither is the companion/nested-class bookkeeping through `visitedNestedClassPool`.
- **The `void` class literal.** For `V`, `AnnotationPrinter` takes the primitive branch, gets `null` from its primitive map, and `className(null)` throws `NullPointerException`. The model's `ClassLiteral` has no `void` case: a primitive literal is one of the eight mapped types, and a reference descriptor `V` prints as `V`.
- **Platform functions.**
  - `System.lineSeparator()` is fixed to `"\n"`.
  - `Character.isJavaIdentifierStart` is the ASCII approximation stated above. Unicode classes are not modelled.
  - Class names are assumed not to contain regular-expression metacharacters, which `Context.className` would otherwise interpret.
- **Concurrency.** The printers have none, and none is modelled.
- **Buffer preconditions.** `Print`, `PopStringBuilder` and the methods built on them require a non-empty buffer stack, and `PreviousChar` requires a non-empty top buffer. The engine always guarantees both; the Java code would throw `EmptyStackException` or `StringIndexOutOfBoundsException` otherwise.
- NameContext.Context.ClassName: returns the corrected `_`-prefixed name where `Context.className` throws on a shortened empty name. The throwing behaviour is modelled by `Names.ClassNameAsWritten` (see Findings).
- Names.ClassName: resolving an already resolved name again is not idempotent when a file-facade frame is on the stack. `Names.ResolutionNotIdempotent` shows `aaab` resolving to `ab` and then to `_` under facade `a`; `Names.ResolutionIdempotentWithoutFacades` proves idempotence when no file-facade frame is present and the `$` replacement holds no `$`.
- JvmAnnotations.InternalClassNameFromType: follows `ClassUtil.internalClassNameFromType` for well-formed class and array descriptors. A malformed array descriptor such as `[;`, on which the Java `substring` throws, gives "" here.
- NameContext.Context.Push: requires a frame that carries both a class and metadata, as every push in the printers does. The Java code would throw on `clazz.getName()` for a frame without a class.
- Printer.KotlinPrinter.VisitAnyKotlinMetadata: takes the rendered text of the class as a parameter instead of producing it through the traversal.
- KotlinAnnotations.KotlinAnnotationPrinter.ElementsAccept: models array members exactly as written (each repeats `name = `); the intended form is proved separately (see Findings).

## Findings

| source | as written | input that shows it | evidently intended | confidence | as-written member | corrected member |
|---|---|---|---|---|---|---|
| src/main/java/proguard/kotlin/printer/Context.java:103-127 | the file-facade pattern `^facade.` also eats any one following character, then `charAt(0)` is read on a possibly empty result | file-facade frame `a`, class name `ab`: the name shortens to "" and `StringIndexOutOfBoundsException` is thrown | the name guarded to `_` | not executed | Names.FacadeWildcardEmptiesName | Names.ClassName |
| kmp-library/src/main/java/com/guardsquare/proguard/kotlin/printer/KotlinMetadataPrinter.java:273-281 | the trailing space is printed when the index among the *shown* supertypes equals `superTypes.size() - 1` of the *unfiltered* list | enum class implementing `I`, supertypes `[kotlin/Enum, I]`: prints `: I` with no space before `{` | `: I ` | not executed | Sections.EnumWithInterfaceLosesSpace | Sections.Supertypes |
| src/main/java/proguard/kotlin/printer/KotlinSourcePrinter.java:390-394 | `substring(0, indexOf("__"))` without a guard | a multi-file part whose short name has no `__`: `StringIndexOutOfBoundsException` | the guarded form at kmp-library/src/main/java/com/guardsquare/proguard/kotlin/printer/KotlinMetadataPrinter.java:466-470 | not executed | Sections.PartFileLinesGuard | Sections.FacadeJvmName |
| src/main/java/proguard/kotlin/printer/KotlinAnnotationPrinter.java:153-163 | array members go back through `visitAnyArgument`, so each member repeats the argument's `name = ` | argument `xs = [1]` prints `xs = [xs = 1]` | `xs = [1]` | not executed | KotlinAnnotations.ArrayMembersRepeatName | KotlinAnnotations.IntendedArrayJoined |
