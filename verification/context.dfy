/** The printer's scope stack (Context): frames, the type-parameter names
  * registered in the current scope, and the package of the outermost class. */
module NameContext {
  import opened Text
  import opened Frames
  import opened Names

  /** Whether pushing `frame` onto `below` empties the type-parameter map:
    * the first push, a push above a file facade, or a multi-file part pushed
    * above its facade. */
  predicate ClearsTypeParameters(below: seq<ContextFrame>, frame: ContextFrame)
  {
    below == []
    || below[|below| - 1].kotlinMetadataKind == METADATA_KIND_FILE_FACADE
    || (frame.kotlinMetadataKind == METADATA_KIND_MULTI_FILE_CLASS_PART
        && below[|below| - 1].kotlinMetadataKind == METADATA_KIND_MULTI_FILE_CLASS_FACADE)
  }

  /** The placeholder for a type parameter nobody registered. */
  function UnknownTypeParameter(id: int): string
  {
    "X /* unknown " + IntToString(id) + " */"
  }

  class Context {
    /** The frame stack; the last element is the top. */
    var frames: seq<ContextFrame>
    var typeParamIdMap: map<int, string>
    var packageName: string

    ghost predicate Valid()
      reads this
    {
      ScopeFrames(frames)
    }

    constructor ()
      ensures Valid()
      ensures frames == [] && typeParamIdMap == map[] && packageName == ""
    {
      frames := [];
      typeParamIdMap := map[];
      packageName := "";
    }

    /** Pushes a frame. The first push records the package of the outermost
      * class; every push may empty the type-parameter map. */
    method Push(frame: ContextFrame)
      requires Valid() && frame.IsScope()
      modifies this
      ensures Valid()
      ensures frames == old(frames) + [frame]
      ensures packageName == if old(frames) == [] then InternalPackageName(frame.clazz.value) else old(packageName)
      ensures typeParamIdMap == if ClearsTypeParameters(old(frames), frame) then map[] else old(typeParamIdMap)
      ensures IsTop() <==> old(frames) == []
      ensures Previous() == if old(frames) == [] then EMPTY_CONTEXT_FRAME else old(frames[|frames| - 1])
    {
      if frames == [] {
        packageName := InternalPackageName(frame.clazz.value);
        typeParamIdMap := map[];
      }
      frames := frames + [frame];
      if Previous().kotlinMetadataKind == METADATA_KIND_FILE_FACADE {
        typeParamIdMap := map[];
      }
      if frame.kotlinMetadataKind == METADATA_KIND_MULTI_FILE_CLASS_PART
         && Previous().kotlinMetadataKind == METADATA_KIND_MULTI_FILE_CLASS_FACADE {
        typeParamIdMap := map[];
      }
    }

    /** Pops and returns the most recently pushed frame. */
    method Pop() returns (frame: ContextFrame)
      requires Valid() && frames != []
      modifies this
      ensures Valid()
      ensures frame == old(frames[|frames| - 1]) && frames == old(frames[..|frames| - 1])
      ensures typeParamIdMap == old(typeParamIdMap) && packageName == old(packageName)
    {
      frame := frames[|frames| - 1];
      frames := frames[..|frames| - 1];
    }

    /** Whether the node being printed is the outermost one. */
    function IsTop(): (top: bool)
      reads this
      ensures top <==> |frames| == 1
    {
      |frames| == 1
    }

    /** The frame below the top, or the empty frame (kind -1). */
    function Previous(): (frame: ContextFrame)
      reads this
      requires Valid()
      ensures |frames| < 2 ==> frame == EMPTY_CONTEXT_FRAME && frame.kotlinMetadataKind == -1
      ensures |frames| >= 2 ==> frame == frames[|frames| - 2] && frame.IsScope()
    {
      if |frames| < 2 then EMPTY_CONTEXT_FRAME else frames[|frames| - 2]
    }

    /** The name registered for a type-parameter id, or a placeholder. */
    function GetTypeParamName(id: int): (name: string)
      reads this
      ensures id in typeParamIdMap ==> name == typeParamIdMap[id]
      ensures id !in typeParamIdMap ==> name == UnknownTypeParameter(id)
    {
      if id in typeParamIdMap then typeParamIdMap[id] else UnknownTypeParameter(id)
    }

    /** Registers a type parameter: the last registration for an id wins. */
    method VisitAnyTypeParameter(id: int, name: string)
      modifies this
      ensures frames == old(frames) && packageName == old(packageName)
      ensures typeParamIdMap == old(typeParamIdMap)[id := name]
      ensures GetTypeParamName(id) == name
      ensures forall other | other != id :: GetTypeParamName(other) == old(GetTypeParamName(other))
    {
      typeParamIdMap := typeParamIdMap[id := name];
    }

    /** The shortest unambiguous external name of `name` in the current scope,
      * with `$` replaced by `dollarReplacement`. */
    method ClassName(name: string, dollarReplacement: string) returns (result: string)
      requires Valid()
      ensures result == Names.ClassName(frames, packageName, name, dollarReplacement)
    {
      if name == "" {
        return EMPTY_CLASS_NAME;
      }
      result := name;
      var i := |frames|;
      assert frames[..i] == frames;
      while i > 0
        invariant 0 <= i <= |frames|
        invariant StripScopes(frames[..i], name, result) == StripScopes(frames, name, name)
      {
        assert frames[..i][..i - 1] == frames[..i - 1];
        i := i - 1;
        result := StripFrame(frames[i], name, result);
      }
      ghost var scoped := result;
      if result == packageName + "/" + InternalShortClassName(name) {
        result := result[|packageName| + 1..];
      }
      assert result == StripPackage(scoped, packageName, name);
      result := StripKotlinDefaultImport(result);
      result := StripJavaLang(result);
      result := ReplaceAll(result, "$", dollarReplacement);
      result := ExternalClassName(result);
      assert result == Shortened(frames, packageName, name, dollarReplacement);
      if result == [] || !IsJavaIdentifierStart(result[0]) {
        result := "_" + result;
      }
    }
  }
}
