/** The per-class method table (`SdkStore.ClassInfo`) and the extra
    information kept per method (`SdkStore.MethodExtraInfo`). */
module ClassTables {
  import opened Java
  import opened Bytecode
  import opened Elements
  import opened Signatures

  /** `MethodExtraInfo`: static flag and return type. The source does not
      override `equals`, so `==` on two of these is object identity, which
      is what `==` on a Dafny class is. */
  class MethodExtraInfo {
    const isStatic: bool
    const returnType: string

    /** `new MethodExtraInfo(MethodNode)`. */
    constructor FromNode(methodNode: MethodNode)
      ensures Describes(methodNode)
    {
      isStatic := IsStaticAccess(methodNode.access);
      returnType := methodNode.desc.returnType.className;
    }

    /** `new MethodExtraInfo(ExecutableElement)`. */
    constructor FromElement(methodElement: ExecutableElement)
      ensures isStatic == (Static in methodElement.modifiers)
      ensures returnType == methodElement.returnType
    {
      isStatic := Static in methodElement.modifiers;
      returnType := methodElement.returnType;
    }

    /** This object holds the static flag and return type of `methodNode`. */
    predicate Describes(methodNode: MethodNode) {
      isStatic == IsStaticAccess(methodNode.access) && returnType == methodNode.desc.returnType.className
    }
  }

  /** The constructor puts a method's exact key and then its erased key. */
  predicate Writes(methodNode: MethodNode, k: MethodInfo) {
    NodeKey(methodNode) == k || Erase(NodeKey(methodNode)) == k
  }

  /** The position of the last method in `nodes` that writes key `k`, which
      is the one whose extra info the table holds for `k`. */
  function LastWriter(nodes: seq<MethodNode>, k: MethodInfo): (r: Option<nat>)
    ensures r.Some? ==> r.value < |nodes| && Writes(nodes[r.value], k)
    ensures r.Some? ==> forall j :: r.value < j < |nodes| ==> !Writes(nodes[j], k)
    ensures r.None? ==> forall j :: 0 <= j < |nodes| ==> !Writes(nodes[j], k)
  {
    if |nodes| == 0 then None
    else if Writes(nodes[|nodes| - 1], k) then Some(|nodes| - 1)
    else LastWriter(nodes[..|nodes| - 1], k)
  }

  /** Two-tier lookup over the table built from `nodes`: the writer of the
      exact key if there is one, otherwise the writer of the erased key. */
  function Resolve(nodes: seq<MethodNode>, k: MethodInfo): Option<nat> {
    if LastWriter(nodes, k).Some? then LastWriter(nodes, k) else LastWriter(nodes, Erase(k))
  }

  /** Some method in `nodes` has the name and arity of `k`. */
  predicate HasShape(nodes: seq<MethodNode>, k: MethodInfo) {
    exists j :: 0 <= j < |nodes| && SameShape(NodeKey(nodes[j]), k)
  }

  /** `ClassInfo`: the method table of one class of one SDK. */
  class ClassInfo {
    const methods: map<MethodInfo, MethodExtraInfo>
    /** The decoded methods the table was built from, in class-file order. */
    ghost const nodes: seq<MethodNode>
    /** The extra info built for each of `nodes`. */
    ghost const extras: seq<MethodExtraInfo>

    /** Every key written by some method is present and maps to the extra
        info of the last method that wrote it. */
    ghost predicate Valid() {
      && |extras| == |nodes|
      && (forall i :: 0 <= i < |nodes| ==> extras[i].Describes(nodes[i]))
      && (forall k :: k in methods <==> LastWriter(nodes, k).Some?)
      && (forall k :: k in methods ==> methods[k] == extras[LastWriter(nodes, k).value])
    }

    /** `new ClassInfo(ClassNode)`: for each method in order, put its exact
        key and then its erased key, both to one fresh extra info. */
    constructor (classNode: ClassNode)
      ensures Valid() && nodes == classNode.methods
      ensures forall i :: 0 <= i < |extras| ==> fresh(extras[i])
    {
      var ms := classNode.methods;
      var table: map<MethodInfo, MethodExtraInfo> := map[];
      ghost var built: seq<MethodExtraInfo> := [];
      for i := 0 to |ms|
        invariant |built| == i
        invariant forall j :: 0 <= j < i ==> built[j].Describes(ms[j]) && fresh(built[j])
        invariant forall k :: k in table <==> LastWriter(ms[..i], k).Some?
        invariant forall k :: k in table ==> table[k] == built[LastWriter(ms[..i], k).value]
      {
        var methodInfo := MethodInfoOfNode(ms[i]);
        var methodExtraInfo := new MethodExtraInfo.FromNode(ms[i]);
        table := table[methodInfo := methodExtraInfo];
        var erased := ObjectMethodInfo(methodInfo.name, |methodInfo.paramTypes|);
        table := table[erased := methodExtraInfo];
        built := built + [methodExtraInfo];
        assert ms[..i + 1][..i] == ms[..i];
      }
      assert ms[..|ms|] == ms;
      methods := table;
      nodes := ms;
      extras := built;
    }

    /** `findMethod`: the entry for the declaration's exact key if there is
        one, otherwise the entry for its erased key, otherwise `null`; that
        is the extra info of the method `Resolve` picks, and `null` exactly
        when no method has the declaration's cleaned name and arity. */
    method FindMethod(methodElement: ExecutableElement) returns (r: MethodExtraInfo?)
      requires Valid()
      ensures var k := DeclaredKey(methodElement);
        r == if k in methods then methods[k] else if Erase(k) in methods then methods[Erase(k)] else null
      ensures var i := Resolve(nodes, DeclaredKey(methodElement));
        (r == null <==> i.None?) && (i.Some? ==> r == extras[i.value])
      ensures r == null <==> !HasShape(nodes, DeclaredKey(methodElement))
      ensures r != null ==> var i := Resolve(nodes, DeclaredKey(methodElement));
        i.Some? && i.value < |nodes| && r.Describes(nodes[i.value])
    {
      var methodInfo := MethodInfoOfElement(methodElement);
      if methodInfo in methods {
        r := methods[methodInfo];
      } else {
        var erased := ObjectMethodInfo(methodInfo.name, |methodInfo.paramTypes|);
        r := if erased in methods then methods[erased] else null;
      }
      ResolveIffShape(nodes, methodInfo);
    }
  }

  /** The two-tier lookup finds a method exactly when some method has the
      key's name and arity: the erased tier catches every same-arity
      method, and neither tier can find a method of another shape. */
  lemma {:induction false} ResolveIffShape(nodes: seq<MethodNode>, k: MethodInfo)
    ensures Resolve(nodes, k).Some? <==> HasShape(nodes, k)
  {
    if HasShape(nodes, k) {
      var j :| 0 <= j < |nodes| && SameShape(NodeKey(nodes[j]), k);
      EraseEqualIff(NodeKey(nodes[j]), k);
      assert Writes(nodes[j], Erase(k));
    }
    if Resolve(nodes, k).Some? {
      var key := if LastWriter(nodes, k).Some? then k else Erase(k);
      var j := Resolve(nodes, k).value;
      assert Writes(nodes[j], key);
      EraseEqualIff(NodeKey(nodes[j]), key);
      assert SameShape(NodeKey(nodes[j]), k);
    }
  }

  /** Exact match wins: when no erased key can equal `k` (some parameter is
      not `java.lang.Object`) and some method has exact key `k`, the lookup
      picks the last such method. */
  lemma {:induction false} ExactMatchWins(nodes: seq<MethodNode>, k: MethodInfo, j: nat)
    requires !AllObject(k.paramTypes)
    requires j < |nodes| && NodeKey(nodes[j]) == k
    ensures Resolve(nodes, k).Some?
    ensures NodeKey(nodes[Resolve(nodes, k).value]) == k
    ensures j <= Resolve(nodes, k).value
  {
    assert Writes(nodes[j], k);
    var i := LastWriter(nodes, k).value;
    assert Erase(NodeKey(nodes[i])) != k;
  }

  /** Erased fallback: when no method has `k` as its exact key or erased key,
      a method with the same name and arity but different parameter type
      names is still found, through the erased key. */
  lemma {:induction false} ErasedFallback(nodes: seq<MethodNode>, k: MethodInfo, j: nat)
    requires LastWriter(nodes, k).None?
    requires j < |nodes| && SameShape(NodeKey(nodes[j]), k)
    ensures Resolve(nodes, k) == LastWriter(nodes, Erase(k))
    ensures Resolve(nodes, k).Some? && j <= Resolve(nodes, k).value
  {
    EraseEqualIff(NodeKey(nodes[j]), k);
    assert Writes(nodes[j], Erase(k));
  }

  /** Last write wins across overloads: with `f(Object)` declared before
      `f(String)`, the erased key of `f(String)` overwrites the exact entry
      of `f(Object)`, so a lookup of `f(Object)` resolves to `f(String)`. */
  lemma LaterOverloadOverwritesObjectEntry(objectOverload: MethodNode, stringOverload: MethodNode)
    requires NodeKey(objectOverload) == MethodInfo("f", [JAVA_LANG_OBJECT])
    requires NodeKey(stringOverload) == MethodInfo("f", ["java.lang.String"])
    ensures Resolve([objectOverload, stringOverload], MethodInfo("f", [JAVA_LANG_OBJECT])) == Some(1)
  {
    assert Writes(stringOverload, MethodInfo("f", [JAVA_LANG_OBJECT]));
  }
}
