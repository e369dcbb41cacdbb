/** The flag-to-keyword mappers of both printer generations. Each mapper
  * concatenates fixed fragments, each printed when its flag is set (flags
  * that print an empty fragment are left out); the model keeps the mapper as
  * a table of terms, and the printed text is the concatenation of the
  * printed terms' keywords. */
module Flags {
  import opened Text

  /** The two generations of the printing engine: the kmp-library
    * `KotlinMetadataPrinter` and the older `KotlinSourcePrinter`. */
  datatype Generation = KotlinMetadataPrinter | KotlinSourcePrinter

  datatype VisibilityFlags = VisibilityFlags(
    isInternal: bool, isPrivate: bool, isPublic: bool,
    isProtected: bool, isPrivateToThis: bool, isLocal: bool)

  datatype ModalityFlags = ModalityFlags(isFinal: bool, isOpen: bool, isAbstract: bool, isSealed: bool)

  /** `isInline` is the older library's name for what the newer one calls
    * `isValue`; each generation reads its own. */
  datatype ClassFlags = ClassFlags(
    visibility: VisibilityFlags, modality: ModalityFlags,
    isAnnotationClass: bool, isInner: bool, isData: bool, isValue: bool, isInline: bool,
    isUsualClass: bool, isFun: bool, isInterface: bool, isObject: bool, isExpect: bool,
    isExternal: bool, isCompanionObject: bool, isEnumEntry: bool, isEnumClass: bool,
    isCompiledInCompatibilityMode: bool, hasMethodBodiesInInterface: bool)

  datatype FunctionFlags = FunctionFlags(
    visibility: VisibilityFlags, modality: ModalityFlags,
    isDeclaration: bool, isFakeOverride: bool, isDelegation: bool, isSynthesized: bool,
    isInline: bool, isInfix: bool, isOperator: bool, isTailrec: bool,
    isExternal: bool, isSuspend: bool, isExpect: bool)

  datatype PropertyAccessorFlags = PropertyAccessorFlags(
    visibility: VisibilityFlags, modality: ModalityFlags,
    isDefault: bool, isExternal: bool, isInline: bool)

  datatype PropertyFlags = PropertyFlags(
    visibility: VisibilityFlags, modality: ModalityFlags,
    isDeclared: bool, isFakeOverride: bool, isDelegation: bool, isSynthesized: bool,
    isVar: bool, isConst: bool, isLateinit: bool, hasConstant: bool, isExternal: bool,
    isDelegated: bool, isExpect: bool, isMovedFromInterfaceCompanion: bool)

  datatype TypeFlags = TypeFlags(isNullable: bool, isSuspend: bool, isDefinitelyNonNull: bool)

  datatype TypeParameterFlags = TypeParameterFlags(isReified: bool)

  datatype ValueParameterFlags = ValueParameterFlags(isCrossInline: bool, isNoInline: bool, hasDefaultValue: bool)

  datatype EffectExpressionFlags = EffectExpressionFlags(isNegated: bool, isNullCheckPredicate: bool)

  /** The fixed fragments the mappers print, one per flag. */
  datatype Keyword =
    | Internal | Private | Protected
    | Open | Abstract | Sealed
    | AnnotationClass | Inner | Data | Value | Inline | Class | Fun | Interface | Object
    | Expect | External | CompanionObject | EnumEntry | EnumClass
    | CompiledInCompatibilityMode | HasMethodBodiesInInterface
    | Negated | NullCheckPredicate
    | FakeOverride | By | Synthetic | Infix | Operator | Tailrec | Suspend
    | Var | Val | Const | Lateinit | Delegated | MovedFromInterfaceCompanion
    | Reified | CrossInline | NoInline
  {
    function Text(): string
    {
      match this
      case Internal => "internal "
      case Private => "private "
      case Protected => "protected "
      case Open => "open "
      case Abstract => "abstract "
      case Sealed => "sealed "
      case AnnotationClass => "annotation class "
      case Inner => "inner "
      case Data => "data "
      case Value => "value "
      case Inline => "inline "
      case Class => "class "
      case Fun => "fun "
      case Interface => "interface "
      case Object => "object "
      case Expect => "expect "
      case External => "external "
      case CompanionObject => "companion object "
      case EnumEntry => "enum entry "
      case EnumClass => "enum class "
      case CompiledInCompatibilityMode => "/* compiledInCompatibilityMode */ "
      case HasMethodBodiesInInterface => "/* hasMethodBodiesInInterface */"
      case Negated => "negated "
      case NullCheckPredicate => "nullCheckPredicate "
      case FakeOverride => "fakeOverride "
      case By => "by "
      case Synthetic => "/* synthetic */ "
      case Infix => "infix "
      case Operator => "operator "
      case Tailrec => "tailrec "
      case Suspend => "suspend "
      case Var => "var "
      case Val => "val "
      case Const => "const "
      case Lateinit => "lateinit "
      case Delegated => "/* delegated */ "
      case MovedFromInterfaceCompanion => "movedFromInterfaceCompanion "
      case Reified => "reified "
      case CrossInline => "crossinline "
      case NoInline => "noinline "
    }
  }

  /** One term of a mapper: a keyword printed when its flag is set. */
  datatype Fragment = Fragment(printed: bool, keyword: Keyword)

  /** The keywords of the printed fragments of a mapper, in order. */
  function Printed(table: seq<Fragment>): (r: seq<Keyword>)
    ensures |r| <= |table|
    ensures forall k :: k in r ==> exists i :: 0 <= i < |table| && table[i] == Fragment(true, k)
  {
    if table == [] then []
    else
      var rest := Printed(table[1..]);
      assert forall k :: k in rest ==> exists i :: 0 <= i < |table| && table[i] == Fragment(true, k) by {
        forall k | k in rest
          ensures exists i :: 0 <= i < |table| && table[i] == Fragment(true, k)
        {
          var i :| 0 <= i < |table[1..]| && table[1..][i] == Fragment(true, k);
          assert table[i + 1] == Fragment(true, k);
        }
      }
      (if table[0].printed then [table[0].keyword] else []) + rest
  }

  /** The text of a keyword list: the fragments concatenated in order. */
  function KeywordsText(keywords: seq<Keyword>): string
  {
    if keywords == [] then "" else KeywordsText(keywords[..|keywords| - 1]) + keywords[|keywords| - 1].Text()
  }

  /** A keyword that only one term of a mapper can print is printed at most
    * once, and exactly when that term's flag is set. */
  lemma {:induction false} PrintedOnce(table: seq<Fragment>, j: nat, word: Keyword)
    requires j < |table| && table[j].keyword == word
    requires forall i :: 0 <= i < |table| && i != j ==> table[i].keyword != word
    ensures multiset(Printed(table))[word] == (if table[j].printed then 1 else 0)
  {
    if j == 0 {
      PrintedNever(table[1..], word);
    } else {
      var tail := table[1..];
      assert forall i :: 0 <= i < |tail| && i != j - 1 ==> tail[i].keyword != word by {
        forall i | 0 <= i < |tail| && i != j - 1
          ensures tail[i].keyword != word
        {
          assert tail[i] == table[i + 1];
        }
      }
      PrintedOnce(tail, j - 1, word);
    }
  }

  /** A mapper prints nothing iff none of its flags is set. */
  lemma {:induction false} PrintedEmpty(table: seq<Fragment>)
    ensures Printed(table) == [] <==> forall i :: 0 <= i < |table| ==> !table[i].printed
  {
    if table != [] {
      var tail := table[1..];
      PrintedEmpty(tail);
      assert forall i :: 0 < i < |table| ==> table[i] == tail[i - 1];
    }
  }

  /** A keyword no term of a mapper carries is never printed. */
  lemma {:induction false} PrintedNever(table: seq<Fragment>, word: Keyword)
    requires forall i :: 0 <= i < |table| ==> table[i].keyword != word
    ensures multiset(Printed(table))[word] == 0
  {
    if table != [] {
      var tail := table[1..];
      assert forall i :: 0 <= i < |tail| ==> tail[i].keyword != word by {
        forall i | 0 <= i < |tail|
          ensures tail[i].keyword != word
        {
          assert tail[i] == table[i + 1];
        }
      }
      PrintedNever(tail, word);
    }
  }

  /** No two terms of the table carry the same keyword, so that each
    * keyword is printed at most once. */
  predicate DistinctKeywords(table: seq<Fragment>)
  {
    forall i, j | 0 <= i < j < |table| :: table[i].keyword != table[j].keyword
  }

  /** No term of the table carries the keyword. */
  predicate Lacks(table: seq<Fragment>, word: Keyword)
  {
    forall i :: 0 <= i < |table| ==> table[i].keyword != word
  }

  /** A keyword carried by one term between two tables that lack it is
    * printed once iff that term's flag is set. */
  lemma PrintedOnceAt(head: seq<Fragment>, term: Fragment, tail: seq<Fragment>, word: Keyword)
    requires Lacks(head, word) && Lacks(tail, word) && term.keyword == word
    ensures multiset(Printed(head + [term] + tail))[word] == (if term.printed then 1 else 0)
  {
    var table := head + [term] + tail;
    forall i | 0 <= i < |table| && i != |head|
      ensures table[i].keyword != word
    {
      if i < |head| {
        assert table[i] == head[i];
      } else {
        assert table[i] == tail[i - |head| - 1];
      }
    }
    PrintedOnce(table, |head|, word);
  }

  /** Two tables with distinct keywords, no keyword of the first carried by
    * the second, join into a table with distinct keywords. */
  lemma DistinctJoined(a: seq<Fragment>, b: seq<Fragment>)
    requires DistinctKeywords(a) && DistinctKeywords(b)
    requires forall i | 0 <= i < |a| :: Lacks(b, a[i].keyword)
    ensures DistinctKeywords(a + b)
  {
    var t := a + b;
    forall i, j | 0 <= i < j < |t|
      ensures t[i].keyword != t[j].keyword
    {
      if j < |a| {
        assert t[i] == a[i] && t[j] == a[j];
      } else if i >= |a| {
        assert t[i] == b[i - |a|] && t[j] == b[j - |a|];
      } else {
        assert t[i] == a[i] && t[j] == b[j - |a|];
      }
    }
  }

  /** A keyword missing from all three parts is never printed. */
  lemma PrintedNeverIn(head: seq<Fragment>, term: Fragment, tail: seq<Fragment>, word: Keyword)
    requires Lacks(head, word) && Lacks(tail, word) && term.keyword != word
    ensures multiset(Printed(head + [term] + tail))[word] == 0
  {
    var table := head + [term] + tail;
    forall i | 0 <= i < |table|
      ensures table[i].keyword != word
    {
      if i < |head| {
        assert table[i] == head[i];
      } else if i > |head| {
        assert table[i] == tail[i - |head| - 1];
      }
    }
    PrintedNever(table, word);
  }

  function VisibilityTable(g: Generation, flags: VisibilityFlags): (r: seq<Fragment>)
    ensures |r| == 3 && DistinctKeywords(r)
  {
    [ Fragment(flags.isInternal && g == KotlinMetadataPrinter, Internal),
      Fragment(flags.isPrivate, Private),
      Fragment(flags.isProtected, Protected) ]
  }

  function ModalityTable(printAbstract: bool, flags: ModalityFlags): (r: seq<Fragment>)
    ensures |r| == 3 && DistinctKeywords(r)
  {
    [ Fragment(flags.isOpen, Open),
      Fragment(flags.isAbstract && printAbstract, Abstract),
      Fragment(flags.isSealed, Sealed) ]
  }

  /** Interfaces are implicitly abstract, so their `abstract` is not printed;
    * the kmp generation prints inline classes as `value`, the older one as
    * `inline`. */
  function ClassTable(g: Generation, flags: ClassFlags): (r: seq<Fragment>)
    ensures |r| == 21 && DistinctKeywords(r)
  {
    var head, tail := ClassHead(g, flags) + [InlineClassTerm(g, flags)], ClassTail(g, flags);
    DistinctJoined(ClassHead(g, flags), [InlineClassTerm(g, flags)]);
    DistinctJoined(head, tail);
    head + tail
  }

  /** The class terms before the inline-class keyword. */
  function ClassHead(g: Generation, flags: ClassFlags): (r: seq<Fragment>)
    ensures |r| == 9 && DistinctKeywords(r)
  {
    var modifiers := ModifierTable(g, flags.visibility, !flags.isInterface, flags.modality);
    var kinds := [ Fragment(flags.isAnnotationClass, AnnotationClass),
                   Fragment(flags.isInner, Inner),
                   Fragment(flags.isData, Data) ];
    DistinctJoined(modifiers, kinds);
    modifiers + kinds
  }

  /** The visibility terms, then the modality terms, as every declaration's
    * mapper starts. */
  function ModifierTable(g: Generation, visibility: VisibilityFlags, printAbstract: bool, modality: ModalityFlags): (r: seq<Fragment>)
    ensures |r| == 6 && DistinctKeywords(r)
    ensures r == VisibilityTable(g, visibility) + ModalityTable(printAbstract, modality)
  {
    DistinctJoined(VisibilityTable(g, visibility), ModalityTable(printAbstract, modality));
    VisibilityTable(g, visibility) + ModalityTable(printAbstract, modality)
  }

  function InlineClassTerm(g: Generation, flags: ClassFlags): Fragment
  {
    if g == KotlinMetadataPrinter then Fragment(flags.isValue, Value) else Fragment(flags.isInline, Inline)
  }

  /** The class terms after the inline-class keyword. */
  function ClassTail(g: Generation, flags: ClassFlags): (r: seq<Fragment>)
    ensures |r| == 11 && DistinctKeywords(r)
  {
    [ Fragment(flags.isUsualClass, Class),
      Fragment(flags.isFun && g == KotlinMetadataPrinter, Fun),
      Fragment(flags.isInterface, Interface),
      Fragment(flags.isObject, Object),
      Fragment(flags.isExpect, Expect),
      Fragment(flags.isExternal, External),
      Fragment(flags.isCompanionObject, CompanionObject),
      Fragment(flags.isEnumEntry, EnumEntry),
      Fragment(flags.isEnumClass, EnumClass),
      Fragment(flags.isCompiledInCompatibilityMode && g == KotlinMetadataPrinter, CompiledInCompatibilityMode),
      Fragment(flags.hasMethodBodiesInInterface && g == KotlinMetadataPrinter, HasMethodBodiesInInterface) ]
  }

  function EffectExpressionTable(flags: EffectExpressionFlags): (r: seq<Fragment>)
    ensures |r| == 2 && DistinctKeywords(r)
  {
    [ Fragment(flags.isNegated, Negated), Fragment(flags.isNullCheckPredicate, NullCheckPredicate) ]
  }

  function FunctionTable(g: Generation, flags: FunctionFlags): (r: seq<Fragment>)
    ensures |r| == 16 && DistinctKeywords(r)
  {
    var modifiers := ModifierTable(g, flags.visibility, true, flags.modality);
    var rest := FunctionTail(flags);
    DistinctJoined(modifiers, rest);
    modifiers + rest
  }

  /** The function terms after visibility and modality. */
  function FunctionTail(flags: FunctionFlags): (r: seq<Fragment>)
    ensures |r| == 10 && DistinctKeywords(r)
  {
    [ Fragment(flags.isFakeOverride, FakeOverride),
        Fragment(flags.isDelegation, By),
        Fragment(flags.isSynthesized, Synthetic),
        Fragment(flags.isInline, Inline),
        Fragment(flags.isInfix, Infix),
        Fragment(flags.isOperator, Operator),
        Fragment(flags.isTailrec, Tailrec),
        Fragment(flags.isExternal, External),
        Fragment(flags.isSuspend, Suspend),
        Fragment(flags.isExpect, Expect) ]
  }

  function PropertyAccessorTable(g: Generation, flags: PropertyAccessorFlags): (r: seq<Fragment>)
    ensures |r| == 8 && DistinctKeywords(r)
  {
    var modifiers := ModifierTable(g, flags.visibility, true, flags.modality);
    var rest := [ Fragment(flags.isExternal, External), Fragment(flags.isInline, Inline) ];
    DistinctJoined(modifiers, rest);
    modifiers + rest
  }

  /** The mutability keyword is the one term printed whatever the flags. */
  function PropertyTable(g: Generation, flags: PropertyFlags): (r: seq<Fragment>)
    ensures |r| == 16 && DistinctKeywords(r)
  {
    var head, tail := PropertyHead(g, flags) + [Fragment(true, if flags.isVar then Var else Val)], PropertyTail(flags);
    DistinctJoined(PropertyHead(g, flags), [Fragment(true, if flags.isVar then Var else Val)]);
    DistinctJoined(head, tail);
    head + tail
  }

  /** The property terms before the mutability keyword. */
  function PropertyHead(g: Generation, flags: PropertyFlags): (r: seq<Fragment>)
    ensures |r| == 9 && DistinctKeywords(r)
  {
    var modifiers := ModifierTable(g, flags.visibility, true, flags.modality);
    var kinds := [ Fragment(flags.isFakeOverride, FakeOverride),
                   Fragment(flags.isDelegation, By),
                   Fragment(flags.isSynthesized, Synthetic) ];
    DistinctJoined(modifiers, kinds);
    modifiers + kinds
  }

  /** The property terms after the mutability keyword. */
  function PropertyTail(flags: PropertyFlags): (r: seq<Fragment>)
    ensures |r| == 6 && DistinctKeywords(r)
  {
    [ Fragment(flags.isConst, Const),
      Fragment(flags.isLateinit, Lateinit),
      Fragment(flags.isExternal, External),
      Fragment(flags.isDelegated, Delegated),
      Fragment(flags.isExpect, Expect),
      Fragment(flags.isMovedFromInterfaceCompanion, MovedFromInterfaceCompanion) ]
  }

  /** Nullability is printed as `?` after the type, so only `suspend` is a keyword. */
  function TypeTable(flags: TypeFlags): (r: seq<Fragment>)
    ensures |r| == 1 && DistinctKeywords(r)
  {
    [ Fragment(flags.isSuspend, Suspend) ]
  }

  function TypeParameterTable(flags: TypeParameterFlags): (r: seq<Fragment>)
    ensures |r| == 1 && DistinctKeywords(r)
  {
    [ Fragment(flags.isReified, Reified) ]
  }

  function ValueParameterTable(flags: ValueParameterFlags): (r: seq<Fragment>)
    ensures |r| == 2 && DistinctKeywords(r)
  {
    [ Fragment(flags.isCrossInline, CrossInline), Fragment(flags.isNoInline, NoInline) ]
  }

  /** A property is declared with exactly one of `var`/`val`: `var` iff it is
    * mutable. */
  lemma PropertyMutabilityKeyword(g: Generation, flags: PropertyFlags)
    ensures multiset(Printed(PropertyTable(g, flags)))[Var] == (if flags.isVar then 1 else 0)
    ensures multiset(Printed(PropertyTable(g, flags)))[Val] == (if flags.isVar then 0 else 1)
  {
    var head, term, tail := PropertyHead(g, flags), Fragment(true, if flags.isVar then Var else Val), PropertyTail(flags);
    assert Lacks(head, Var) && Lacks(head, Val);
    assert Lacks(tail, Var) && Lacks(tail, Val);
    if flags.isVar {
      PrintedOnceAt(head, term, tail, Var);
      PrintedNeverIn(head, term, tail, Val);
    } else {
      PrintedNeverIn(head, term, tail, Var);
      PrintedOnceAt(head, term, tail, Val);
    }
  }

  /** Only the tenth term of a property's mapper is a mutability keyword. */
  lemma PropertyTableTerms(g: Generation, flags: PropertyFlags)
    ensures |PropertyTable(g, flags)| == 16
    ensures PropertyTable(g, flags)[9].keyword == (if flags.isVar then Var else Val)
    ensures forall i :: 0 <= i < 16 && i != 9 ==>
              PropertyTable(g, flags)[i].keyword != Var && PropertyTable(g, flags)[i].keyword != Val
  {
    var head, tail := PropertyHead(g, flags), PropertyTail(flags);
    assert Lacks(head, Var) && Lacks(head, Val);
    assert Lacks(tail, Var) && Lacks(tail, Val);
    var table := PropertyTable(g, flags);
    forall i | 0 <= i < 16 && i != 9
      ensures table[i].keyword != Var && table[i].keyword != Val
    {
      if i < 9 {
        assert table[i] == head[i];
      } else {
        assert table[i] == tail[i - 10];
      }
    }
  }

  /** `abstract` is printed for an abstract class but never for an interface. */
  lemma AbstractSuppressedForInterfaces(g: Generation, flags: ClassFlags)
    ensures multiset(Printed(ClassTable(g, flags)))[Abstract] == (if flags.modality.isAbstract && !flags.isInterface then 1 else 0)
  {
    PrintedOnce(ClassTable(g, flags), 4, Abstract);
  }

  /** Public, private-to-this and local visibility print nothing; `internal`
    * is printed by the kmp generation only. */
  lemma VisibilityKeywordsByGeneration(g: Generation, flags: VisibilityFlags)
    ensures Printed(VisibilityTable(g, flags)) == [] <==>
              !(flags.isInternal && g == KotlinMetadataPrinter) && !flags.isPrivate && !flags.isProtected
    ensures Internal in Printed(VisibilityTable(g, flags)) <==> flags.isInternal && g == KotlinMetadataPrinter
  {
    var table := VisibilityTable(g, flags);
    assert table == [ Fragment(flags.isInternal && g == KotlinMetadataPrinter, Internal),
                      Fragment(flags.isPrivate, Private), Fragment(flags.isProtected, Protected) ];
    assert Printed(table) == [] <==> !table[0].printed && !table[1].printed && !table[2].printed by {
      PrintedEmpty(table);
      assert |table| == 3;
    }
    assert Internal in Printed(table) <==> table[0].printed by {
      PrintedOnce(table, 0, Internal);
      assert Internal in Printed(table) <==> multiset(Printed(table))[Internal] > 0;
    }
  }

  /** The kmp generation prints inline classes as `value`, the older one as
    * `inline`; neither prints the other's keyword. */
  lemma InlineClassKeywordByGeneration(g: Generation, flags: ClassFlags)
    ensures g == KotlinMetadataPrinter ==>
              multiset(Printed(ClassTable(g, flags)))[Value] == (if flags.isValue then 1 else 0)
              && multiset(Printed(ClassTable(g, flags)))[Inline] == 0
    ensures g == KotlinSourcePrinter ==>
              multiset(Printed(ClassTable(g, flags)))[Inline] == (if flags.isInline then 1 else 0)
              && multiset(Printed(ClassTable(g, flags)))[Value] == 0
  {
    if g == KotlinMetadataPrinter {
      InlineClassCounts(g, flags, Value, Inline);
    } else {
      InlineClassCounts(g, flags, Inline, Value);
    }
  }

  /** The generation's inline-class keyword is printed iff its flag is set,
    * and the other generation's keyword is not printed. */
  lemma InlineClassCounts(g: Generation, flags: ClassFlags, word: Keyword, other: Keyword)
    requires word == InlineClassTerm(g, flags).keyword
    requires (word == Value && other == Inline) || (word == Inline && other == Value)
    ensures multiset(Printed(ClassTable(g, flags)))[word] == (if InlineClassTerm(g, flags).printed then 1 else 0)
    ensures multiset(Printed(ClassTable(g, flags)))[other] == 0
  {
    var head, term, tail := ClassHead(g, flags), InlineClassTerm(g, flags), ClassTail(g, flags);
    assert ClassTable(g, flags) == head + [term] + tail;
    assert Lacks(head, word) && Lacks(head, other);
    assert Lacks(tail, word) && Lacks(tail, other);
    PrintedOnceAt(head, term, tail, word);
    PrintedNeverIn(head, term, tail, other);
  }

  /** `reified` is printed iff the type parameter is reified. */
  lemma ReifiedKeyword(flags: TypeParameterFlags)
    ensures KeywordsText(Printed(TypeParameterTable(flags))) == (if flags.isReified then "reified " else "")
  {
    if flags.isReified {
      assert Printed(TypeParameterTable(flags)) == [Reified];
      assert [Reified][..0] == [];
    }
  }
}
