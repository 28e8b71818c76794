/** One SDK level (`SdkStore.Sdk`): its jar, opened on first use, a cache
    of the classes looked up in it, and the check of one shadow method
    against it. */
module SdkArchive {
  import opened Java
  import opened Bytecode
  import opened Elements
  import opened Signatures
  import opened ClassTables

  /** What is reported for one shadow method at one SDK level. */
  datatype Diagnostic =
    | NoSuchClass(className: string, sdkInt: int32)
    | NoSuchMethod(className: string, methodName: string, sdkInt: int32)
    | StaticMismatch(methodName: string, implIsStatic: bool, sdkInt: int32)
    | ReturnTypeMismatch(methodName: string, implReturnType: string, sdkReturnType: string, sdkInt: int32)

  /** The `RuntimeException` thrown when the jar cannot be opened. */
  datatype SdkError = FailedToOpenSdk(sdkInt: int32, path: string)

  /** A cache entry: `NULL_CLASS_INFO`, the shared marker of a class that is
      not in the jar, or the table of a class that is. */
  datatype CachedClass = NullClassInfo | Cached(info: ClassInfo)

  /** `name.replace('.', '/')`. */
  function ReplaceDots(name: string): (r: string)
    ensures |r| == |name|
    ensures forall i :: 0 <= i < |name| ==> r[i] == if name[i] == '.' then '/' else name[i]
  {
    if name == [] then [] else [if name[0] == '.' then '/' else name[0]] + ReplaceDots(name[1..])
  }

  /** The jar entry that holds class `name`. */
  function EntryName(name: string): (r: string)
    ensures |r| == |name| + 6 && r[|name|..] == ".class"
  {
    ReplaceDots(name) + ".class"
  }

  /** Distinct class names that contain no `/` live in distinct entries. */
  lemma {:induction false} EntryNameInjective(a: string, b: string)
    requires '/' !in a && '/' !in b
    requires EntryName(a) == EntryName(b)
    ensures a == b
  {
    assert |a| == |b|;
    forall i | 0 <= i < |a| ensures a[i] == b[i] {
      assert EntryName(a)[i] == EntryName(b)[i];
      assert a[i] in a && b[i] in b;
    }
  }

  /** A cache entry agrees with the jar it was loaded from. */
  ghost predicate Agrees(jar: JarFile, name: string, c: CachedClass) {
    match c
    case NullClassInfo => EntryName(name) !in jar.entries
    case Cached(info) =>
      && EntryName(name) in jar.entries
      && info.Valid()
      && info.nodes == jar.entries[EntryName(name)].methods
  }

  /** What `getClassInfo` reports for a cache entry. */
  function Reported(c: CachedClass): ClassInfo? {
    match c
    case NullClassInfo => null
    case Cached(info) => info
  }

  ghost predicate NoDuplicates(s: seq<string>) {
    forall i, j :: 0 <= i < j < |s| ==> s[i] != s[j]
  }

  /** What `verifyMethod` reports, as the source is written: one diagnostic
      for a missing class, one for a class with no method of the declared
      (cleaned) name and arity, and nothing otherwise. */
  function Diagnose(sdkInt: int32, jar: JarFile, className: string, methodElement: ExecutableElement): (d: seq<Diagnostic>)
    ensures |d| <= 1
    ensures forall x :: x in d ==> x.NoSuchClass? || x.NoSuchMethod?
  {
    var entry := EntryName(className);
    if entry !in jar.entries then [NoSuchClass(className, sdkInt)]
    else if !HasShape(jar.entries[entry].methods, DeclaredKey(methodElement)) then
      [NoSuchMethod(className, methodElement.simpleName, sdkInt)]
    else []
  }

  /** What the static and return-type checks report against the method the
      lookup picked. */
  function Mismatches(sdkInt: int32, methodElement: ExecutableElement, sdkMethod: MethodNode): seq<Diagnostic> {
    var implIsStatic := Static in methodElement.modifiers;
    var sdkReturnType := sdkMethod.desc.returnType.className;
    (if implIsStatic != IsStaticAccess(sdkMethod.access)
     then [StaticMismatch(methodElement.simpleName, implIsStatic, sdkInt)] else [])
    + (if methodElement.returnType != sdkReturnType
       then [ReturnTypeMismatch(methodElement.simpleName, methodElement.returnType, sdkReturnType, sdkInt)] else [])
  }

  /** What `verifyMethod` evidently means to report: as `Diagnose`, and when
      a method is found, a static mismatch and a return-type mismatch, each
      independently. */
  function DiagnoseIntended(sdkInt: int32, jar: JarFile, className: string, methodElement: ExecutableElement): seq<Diagnostic> {
    var entry := EntryName(className);
    if entry !in jar.entries then [NoSuchClass(className, sdkInt)]
    else
      var nodes := jar.entries[entry].methods;
      match Resolve(nodes, DeclaredKey(methodElement))
      case None => [NoSuchMethod(className, methodElement.simpleName, sdkInt)]
      case Some(i) => Mismatches(sdkInt, methodElement, nodes[i])
  }

  /** `Sdk`. The jar is opened on the first lookup and kept; the cache only
      grows, and an entry once written never changes. */
  class Sdk {
    const sdkInt: int32
    const path: string
    var jarFile: Option<JarFile>
    var classInfos: map<string, CachedClass>
    /** The class names handed to `loadClassNode`, in call order. */
    ghost var loaded: seq<string>

    ghost predicate Valid()
      reads this
    {
      && (jarFile.None? ==> classInfos == map[])
      && (forall n :: n in classInfos ==> jarFile.Some? && Agrees(jarFile.value, n, classInfos[n]))
      && (forall n :: n in classInfos <==> n in loaded)
      && NoDuplicates(loaded)
    }

    constructor (sdkInt: int32, path: string)
      ensures Valid()
      ensures this.sdkInt == sdkInt && this.path == path
      ensures jarFile.None? && classInfos == map[] && loaded == []
    {
      this.sdkInt := sdkInt;
      this.path := path;
      jarFile := None;
      classInfos := map[];
      loaded := [];
    }

    /** `loadClassNode`: the entry named after the class with every `.`
        replaced by `/` and `.class` appended, or `null` when the jar has no
        such entry. */
    method LoadClassNode(name: string) returns (node: Option<ClassNode>)
      requires jarFile.Some?
      ensures node.Some? <==> EntryName(name) in jarFile.value.entries
      ensures node.Some? ==> node.value == jarFile.value.entries[EntryName(name)]
    {
      var classFileName := EntryName(name);
      if classFileName !in jarFile.value.entries {
        return None;
      }
      node := Some(jarFile.value.entries[classFileName]);
    }

    /** `getClassInfo`: opens the jar found at `path` on `disk` if it is not
        open yet, and looks the class up in the cache, loading and caching
        it (or the not-found marker) on a miss. */
    method GetClassInfo(disk: map<string, JarFile>, name: string) returns (r: Outcome<ClassInfo?, SdkError>)
      requires Valid()
      modifies this
      ensures Valid()
      ensures old(jarFile).Some? ==> jarFile == old(jarFile)
      ensures old(jarFile).None? && path in disk ==> jarFile == Some(disk[path])
      ensures r.Thrown? <==> old(jarFile).None? && path !in disk
      ensures r.Thrown? ==> r.error == FailedToOpenSdk(sdkInt, path) && unchanged(this)
      ensures r.Ok? ==> classInfos.Keys == old(classInfos).Keys + {name}
      ensures forall n :: n in old(classInfos) ==> n in classInfos && classInfos[n] == old(classInfos)[n]
      ensures r.Ok? ==> r.value == Reported(classInfos[name])
      ensures r.Ok? ==> (r.value == null <==> EntryName(name) !in jarFile.value.entries)
      ensures r.Ok? && r.value != null ==>
        r.value.Valid() && r.value.nodes == jarFile.value.entries[EntryName(name)].methods
      ensures name in old(classInfos) ==> loaded == old(loaded)
      ensures r.Ok? && name !in old(classInfos) ==> loaded == old(loaded) + [name]
    {
      if jarFile.None? {
        if path !in disk {
          return Thrown(FailedToOpenSdk(sdkInt, path));
        }
        jarFile := Some(disk[path]);
      }

      var classInfo: Option<CachedClass> := if name in classInfos then Some(classInfos[name]) else None;
      if classInfo.None? {
        var classNode := LoadClassNode(name);
        loaded := loaded + [name];
        if classNode.None? {
          classInfos := classInfos[name := NullClassInfo];
        } else {
          var info := new ClassInfo(classNode.value);
          classInfo := Some(Cached(info));
          classInfos := classInfos[name := Cached(info)];
        }
      }

      r := Ok(if classInfo.Some? then Reported(classInfo.value) else null);
    }

    /** `verifyMethod` as written: the static and return-type checks sit
        behind `sdkMethod.equals(implMethod)`, an identity test against an
        object made on the line before, so they never run. */
    method VerifyMethod(disk: map<string, JarFile>, className: string, methodElement: ExecutableElement)
      returns (r: Outcome<seq<Diagnostic>, SdkError>)
      requires Valid()
      modifies this
      ensures Valid()
      ensures old(jarFile).Some? ==> jarFile == old(jarFile)
      ensures old(jarFile).None? && path in disk ==> jarFile == Some(disk[path])
      ensures r.Thrown? <==> old(jarFile).None? && path !in disk
      ensures r.Thrown? ==> r.error == FailedToOpenSdk(sdkInt, path) && unchanged(this)
      ensures r.Ok? ==> classInfos.Keys == old(classInfos).Keys + {className}
      ensures forall n :: n in old(classInfos) ==> n in classInfos && classInfos[n] == old(classInfos)[n]
      ensures className in old(classInfos) ==> loaded == old(loaded)
      ensures r.Ok? && className !in old(classInfos) ==> loaded == old(loaded) + [className]
      ensures r.Ok? ==> jarFile.Some? && r.value == Diagnose(sdkInt, jarFile.value, className, methodElement)
    {
      var lookup := GetClassInfo(disk, className);
      if lookup.Thrown? {
        return Thrown(lookup.error);
      }
      var classInfo := lookup.value;
      var diagnostics: seq<Diagnostic> := [];
      if classInfo == null {
        diagnostics := [NoSuchClass(className, sdkInt)];
      } else {
        var sdkMethod := classInfo.FindMethod(methodElement);
        if sdkMethod == null {
          diagnostics := [NoSuchMethod(className, methodElement.simpleName, sdkInt)];
        } else {
          var implMethod := new MethodExtraInfo.FromElement(methodElement);
          var implIsStatic, implReturnType := implMethod.isStatic, implMethod.returnType;
          var sdkIsStatic, sdkReturnType := sdkMethod.isStatic, sdkMethod.returnType;
          // `implMethod` was allocated after the table was built, so it is
          // never the object the table returned.
          assert sdkMethod != implMethod;
          if sdkMethod == implMethod {
            if implIsStatic != sdkIsStatic {
              diagnostics := diagnostics + [StaticMismatch(methodElement.simpleName, implIsStatic, sdkInt)];
            }
            if implReturnType != sdkReturnType {
              diagnostics := diagnostics + [ReturnTypeMismatch(methodElement.simpleName, implReturnType, sdkReturnType, sdkInt)];
            }
          }
        }
      }
      r := Ok(diagnostics);
    }

    /** `verifyMethod` with the guard dropped, so that both field checks run
        on every found method, as the messages at the guarded lines mean. */
    method VerifyMethodComparingFields(disk: map<string, JarFile>, className: string, methodElement: ExecutableElement)
      returns (r: Outcome<seq<Diagnostic>, SdkError>)
      requires Valid()
      modifies this
      ensures Valid()
      ensures old(jarFile).Some? ==> jarFile == old(jarFile)
      ensures old(jarFile).None? && path in disk ==> jarFile == Some(disk[path])
      ensures r.Thrown? <==> old(jarFile).None? && path !in disk
      ensures r.Thrown? ==> r.error == FailedToOpenSdk(sdkInt, path) && unchanged(this)
      ensures r.Ok? ==> classInfos.Keys == old(classInfos).Keys + {className}
      ensures forall n :: n in old(classInfos) ==> n in classInfos && classInfos[n] == old(classInfos)[n]
      ensures className in old(classInfos) ==> loaded == old(loaded)
      ensures r.Ok? && className !in old(classInfos) ==> loaded == old(loaded) + [className]
      ensures r.Ok? ==> jarFile.Some? && r.value == DiagnoseIntended(sdkInt, jarFile.value, className, methodElement)
    {
      var lookup := GetClassInfo(disk, className);
      if lookup.Thrown? {
        return Thrown(lookup.error);
      }
      ghost var jar := jarFile.value;
      var classInfo := lookup.value;
      var diagnostics: seq<Diagnostic> := [];
      if classInfo == null {
        diagnostics := [NoSuchClass(className, sdkInt)];
      } else {
        var sdkMethod := classInfo.FindMethod(methodElement);
        if sdkMethod == null {
          diagnostics := [NoSuchMethod(className, methodElement.simpleName, sdkInt)];
        } else {
          ghost var i := Resolve(classInfo.nodes, DeclaredKey(methodElement)).value;
          var implMethod := new MethodExtraInfo.FromElement(methodElement);
          diagnostics := CompareFields(sdkInt, methodElement, implMethod, sdkMethod, classInfo.nodes[i]);
          IntendedWhenFound(sdkInt, jar, className, methodElement, i);
          assert diagnostics == DiagnoseIntended(sdkInt, jar, className, methodElement);
        }
      }
      r := Ok(diagnostics);
    }
  }

  /** The two field checks of the corrected `verifyMethod`: a static
      mismatch and a return-type mismatch between the declaration and the
      SDK method `sdkMethod` describes, each reported on its own. */
  method CompareFields(sdkInt: int32, methodElement: ExecutableElement, implMethod: MethodExtraInfo,
                       sdkMethod: MethodExtraInfo, ghost picked: MethodNode)
    returns (diagnostics: seq<Diagnostic>)
    requires implMethod.isStatic == (Static in methodElement.modifiers)
    requires implMethod.returnType == methodElement.returnType
    requires sdkMethod.Describes(picked)
    ensures diagnostics == Mismatches(sdkInt, methodElement, picked)
  {
    diagnostics := [];
    if implMethod.isStatic != sdkMethod.isStatic {
      diagnostics := diagnostics + [StaticMismatch(methodElement.simpleName, implMethod.isStatic, sdkInt)];
    }
    if implMethod.returnType != sdkMethod.returnType {
      diagnostics := diagnostics + [ReturnTypeMismatch(methodElement.simpleName, implMethod.returnType, sdkMethod.returnType, sdkInt)];
    }
  }

  /** `DiagnoseIntended` once the lookup has picked the method at `i`. */
  lemma IntendedWhenFound(sdkInt: int32, jar: JarFile, className: string, methodElement: ExecutableElement, i: nat)
    requires EntryName(className) in jar.entries
    requires Resolve(jar.entries[EntryName(className)].methods, DeclaredKey(methodElement)) == Some(i)
    ensures i < |jar.entries[EntryName(className)].methods|
    ensures DiagnoseIntended(sdkInt, jar, className, methodElement)
            == Mismatches(sdkInt, methodElement, jar.entries[EntryName(className)].methods[i])
  {
  }

  /** Whenever the class and a method of the declared name and arity are
      found, the source as written reports nothing, while the intended check
      reports every static and return-type mismatch against the method the
      lookup picked. */
  lemma {:induction false} IdentityGuardHidesMismatches(sdkInt: int32, jar: JarFile, className: string, methodElement: ExecutableElement)
    requires EntryName(className) in jar.entries
    requires HasShape(jar.entries[EntryName(className)].methods, DeclaredKey(methodElement))
    ensures Diagnose(sdkInt, jar, className, methodElement) == []
    ensures var nodes := jar.entries[EntryName(className)].methods;
      && Resolve(nodes, DeclaredKey(methodElement)).Some?
      && DiagnoseIntended(sdkInt, jar, className, methodElement)
         == Mismatches(sdkInt, methodElement, nodes[Resolve(nodes, DeclaredKey(methodElement)).value])
  {
    ResolveIffShape(jar.entries[EntryName(className)].methods, DeclaredKey(methodElement));
  }

  /** An instance `draw(int, int)` shadowing a static `draw(int, int)` at
      SDK level 21: as written nothing is reported; the intended check
      reports one static mismatch and no return-type mismatch. */
  lemma StaticDrawIsNotReported(className: string, draw: MethodNode, decl: ExecutableElement)
    requires draw == MethodNode("draw", Descriptor([AsmType("int"), AsmType("int")], AsmType("void")), 0x0009)
    requires decl == ExecutableElement("draw", [VariableElement("int"), VariableElement("int")], {Public}, "void")
    ensures var jar := JarFile(map[EntryName(className) := ClassNode([draw])]);
      && Diagnose(21, jar, className, decl) == []
      && DiagnoseIntended(21, jar, className, decl) == [StaticMismatch("draw", false, 21)]
  {
    var jar := JarFile(map[EntryName(className) := ClassNode([draw])]);
    var key := MethodInfo("draw", ["int", "int"]);
    assert NodeKey(draw) == key;
    assert DeclaredKey(decl) == key;
    assert Writes(draw, key);
    assert LastWriter([draw], key) == Some(0);
    assert Resolve([draw], key) == Some(0);
    assert SameShape(NodeKey([draw][0]), key);
    assert IsStaticAccess(draw.access);
    assert Mismatches(21, decl, draw) == [StaticMismatch("draw", false, 21)];
  }

  /** A second lookup of the same class does not load it again and reports
      the same table, or `null` again for a class the jar lacks; when the
      jar cannot be opened, both lookups throw and nothing changes. */
  method RepeatedLookupIsCached(sdk: Sdk, disk: map<string, JarFile>, name: string)
    returns (first: Outcome<ClassInfo?, SdkError>, second: Outcome<ClassInfo?, SdkError>)
    requires sdk.Valid()
    modifies sdk
    ensures sdk.Valid()
    ensures second == first
    ensures first.Thrown? ==> unchanged(sdk)
    ensures first.Ok? ==> name in sdk.classInfos
    ensures first.Ok? ==> sdk.loaded == old(sdk.loaded) + (if name in old(sdk.classInfos) then [] else [name])
  {
    first := sdk.GetClassInfo(disk, name);
    second := sdk.GetClassInfo(disk, name);
  }
}
