/** The scope frame the name resolver keeps per visited metadata node
  * (ContextFrame), with a stand-in for the decoded Kotlin metadata it refers to. */
module Frames {
  import opened Results

  /** The `k` values of the Kotlin `@Metadata` annotation. */
  const METADATA_KIND_CLASS: int := 1
  const METADATA_KIND_FILE_FACADE: int := 2
  const METADATA_KIND_SYNTHETIC_CLASS: int := 3
  const METADATA_KIND_MULTI_FILE_CLASS_FACADE: int := 4
  const METADATA_KIND_MULTI_FILE_CLASS_PART: int := 5

  /** The kind-specific part of a metadata node; only the fields the name
    * resolver and the header read are kept. */
  datatype MetadataKind =
    | ClassKind(className: string, isCompanionObject: bool, anonymousObjectOriginName: Option<string>)
    | FileFacadeKind
    | SyntheticClassKind
    | MultiFileClassFacadeKind
    | MultiFileClassPartKind

  /** A decoded `@Metadata` annotation: its kind and its version `mv`. */
  datatype KotlinMetadata = KotlinMetadata(kind: MetadataKind, mv: seq<int>)
  {
    /** The `k` value that identifies the kind. */
    function K(): (k: int)
      ensures METADATA_KIND_CLASS <= k <= METADATA_KIND_MULTI_FILE_CLASS_PART
      ensures k == METADATA_KIND_CLASS <==> kind.ClassKind?
      ensures k == METADATA_KIND_FILE_FACADE <==> kind.FileFacadeKind?
    {
      match kind
      case ClassKind(_, _, _) => METADATA_KIND_CLASS
      case FileFacadeKind => METADATA_KIND_FILE_FACADE
      case SyntheticClassKind => METADATA_KIND_SYNTHETIC_CLASS
      case MultiFileClassFacadeKind => METADATA_KIND_MULTI_FILE_CLASS_FACADE
      case MultiFileClassPartKind => METADATA_KIND_MULTI_FILE_CLASS_PART
    }
  }

  /** An immutable frame: the JVM class (by internal name), its metadata, the
    * metadata kind cached at construction, and the function being printed. */
  datatype ContextFrame = ContextFrame(
    clazz: Option<string>,
    kotlinMetadata: Option<KotlinMetadata>,
    kotlinMetadataKind: int,
    kotlinFunctionMetadata: Option<string>)
  {
    /** The frames the printer pushes: a class and metadata, and the cached kind. */
    predicate IsScope()
    {
      clazz.Some? && kotlinMetadata.Some? && kotlinMetadataKind == kotlinMetadata.value.K()
    }
  }

  /** The three-argument constructor: the kind is `k` of the metadata, or -1
    * when there is none. */
  function NewFrame(clazz: Option<string>, kotlinMetadata: Option<KotlinMetadata>, kotlinFunctionMetadata: Option<string>): (f: ContextFrame)
    ensures f.clazz == clazz && f.kotlinMetadata == kotlinMetadata && f.kotlinFunctionMetadata == kotlinFunctionMetadata
    ensures f.kotlinMetadataKind == -1 <==> kotlinMetadata.None?
    ensures kotlinMetadata.Some? ==> f.kotlinMetadataKind == kotlinMetadata.value.K()
    ensures clazz.Some? && kotlinMetadata.Some? ==> f.IsScope()
  {
    ContextFrame(clazz, kotlinMetadata, if kotlinMetadata.Some? then kotlinMetadata.value.K() else -1, kotlinFunctionMetadata)
  }

  /** The two-argument constructor: a frame for a class, with no function. */
  function NewClassFrame(clazz: string, kotlinMetadata: KotlinMetadata): (f: ContextFrame)
    ensures f.IsScope() && f.kotlinFunctionMetadata.None?
    ensures f.clazz == Some(clazz) && f.kotlinMetadata == Some(kotlinMetadata)
  {
    NewFrame(Some(clazz), Some(kotlinMetadata), None)
  }

  /** The sentinel returned when no frame is available. */
  const EMPTY_CONTEXT_FRAME: ContextFrame := NewFrame(None, None, None)

  lemma EmptyFrameHasNoKind()
    ensures EMPTY_CONTEXT_FRAME.clazz.None? && EMPTY_CONTEXT_FRAME.kotlinMetadata.None?
    ensures EMPTY_CONTEXT_FRAME.kotlinFunctionMetadata.None?
    ensures EMPTY_CONTEXT_FRAME.kotlinMetadataKind == -1
    ensures !EMPTY_CONTEXT_FRAME.IsScope()
  {
  }
}
