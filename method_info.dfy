/** Method keys (`SdkStore.MethodInfo`): a method name with its ordered
    parameter type names, built either from a decoded binary method or from
    a shadow declaration, and their arity-erased form. */
module Signatures {
  import opened Bytecode
  import opened Elements

  /** The type name that `erase` puts in place of every parameter type. It is
      an ordinary type name, not a wildcard. */
  const JAVA_LANG_OBJECT: string := "java.lang.Object"

  /** `MethodInfo`; its `equals` compares name and parameter list, which is
      what equality on this datatype does. */
  datatype MethodInfo = MethodInfo(name: string, paramTypes: seq<string>)

  /** `size` copies of `java.lang.Object`. */
  function ObjectParams(size: nat): (r: seq<string>)
    ensures |r| == size
  {
    seq(size, _ => JAVA_LANG_OBJECT)
  }

  predicate AllObject(ps: seq<string>) {
    forall i :: 0 <= i < |ps| ==> ps[i] == JAVA_LANG_OBJECT
  }

  /** `erase()`: the key with the same name and arity whose parameters are
      all `java.lang.Object`. */
  function Erase(k: MethodInfo): (r: MethodInfo)
    ensures r.name == k.name && |r.paramTypes| == |k.paramTypes|
    ensures AllObject(r.paramTypes)
  {
    MethodInfo(k.name, ObjectParams(|k.paramTypes|))
  }

  /** Two keys erase to the same key exactly when they agree on name and
      arity. */
  predicate SameShape(a: MethodInfo, b: MethodInfo) {
    a.name == b.name && |a.paramTypes| == |b.paramTypes|
  }

  /** `cleanMethodName`: the shadow sentinels become the JVM's special
      method names (section 2.9 of the Java Virtual Machine Specification). */
  function CleanMethodName(name: string): (r: string)
    ensures name == CONSTRUCTOR_METHOD_NAME ==> r == "<init>"
    ensures name == STATIC_INITIALIZER_METHOD_NAME ==> r == "<clinit>"
    ensures name != CONSTRUCTOR_METHOD_NAME && name != STATIC_INITIALIZER_METHOD_NAME ==> r == name
    ensures r != CONSTRUCTOR_METHOD_NAME && r != STATIC_INITIALIZER_METHOD_NAME
  {
    if CONSTRUCTOR_METHOD_NAME == name then "<init>"
    else if STATIC_INITIALIZER_METHOD_NAME == name then "<clinit>"
    else name
  }

  /** The exact key of a decoded binary method. */
  function NodeKey(m: MethodNode): MethodInfo {
    MethodInfo(m.name, seq(|m.desc.argumentTypes|, i requires 0 <= i < |m.desc.argumentTypes| => m.desc.argumentTypes[i].className))
  }

  /** The exact key of a shadow declaration. */
  function DeclaredKey(e: ExecutableElement): MethodInfo {
    MethodInfo(CleanMethodName(e.simpleName), seq(|e.parameters|, i requires 0 <= i < |e.parameters| => e.parameters[i].typeName))
  }

  /** `new MethodInfo(MethodNode)`: collects the class name of every argument
      type of the descriptor, in order. */
  method MethodInfoOfNode(methodNode: MethodNode) returns (k: MethodInfo)
    ensures k.name == methodNode.name
    ensures |k.paramTypes| == |methodNode.desc.argumentTypes|
    ensures forall i :: 0 <= i < |k.paramTypes| ==> k.paramTypes[i] == methodNode.desc.argumentTypes[i].className
    ensures k == NodeKey(methodNode)
  {
    var types := methodNode.desc.argumentTypes;
    var paramTypes: seq<string> := [];
    for i := 0 to |types|
      invariant |paramTypes| == i
      invariant forall j :: 0 <= j < i ==> paramTypes[j] == types[j].className
    {
      paramTypes := paramTypes + [types[i].className];
    }
    k := MethodInfo(methodNode.name, paramTypes);
  }

  /** `new MethodInfo(String name, int size)`: `size` parameters, each
      `java.lang.Object`. */
  method ObjectMethodInfo(name: string, size: nat) returns (k: MethodInfo)
    ensures k.name == name && |k.paramTypes| == size
    ensures AllObject(k.paramTypes)
    ensures k == MethodInfo(name, ObjectParams(size))
  {
    var paramTypes: seq<string> := [];
    for i := 0 to size
      invariant |paramTypes| == i
      invariant AllObject(paramTypes)
    {
      paramTypes := paramTypes + [JAVA_LANG_OBJECT];
    }
    k := MethodInfo(name, paramTypes);
  }

  /** `new MethodInfo(ExecutableElement)`: the cleaned name and the type
      name of every declared parameter, in order. */
  method MethodInfoOfElement(methodElement: ExecutableElement) returns (k: MethodInfo)
    ensures k.name == CleanMethodName(methodElement.simpleName)
    ensures |k.paramTypes| == |methodElement.parameters|
    ensures forall i :: 0 <= i < |k.paramTypes| ==> k.paramTypes[i] == methodElement.parameters[i].typeName
    ensures k == DeclaredKey(methodElement)
  {
    var name := CleanMethodName(methodElement.simpleName);
    var paramTypes: seq<string> := [];
    for i := 0 to |methodElement.parameters|
      invariant |paramTypes| == i
      invariant forall j :: 0 <= j < i ==> paramTypes[j] == methodElement.parameters[j].typeName
    {
      paramTypes := paramTypes + [methodElement.parameters[i].typeName];
    }
    k := MethodInfo(name, paramTypes);
  }

  /** Erasing twice is erasing once. */
  lemma EraseIdempotent(k: MethodInfo)
    ensures Erase(Erase(k)) == Erase(k)
  {
  }

  /** A key is its own erasure exactly when every parameter is
      `java.lang.Object`; in particular every key with no parameters. */
  lemma {:induction false} EraseFixedIff(k: MethodInfo)
    ensures Erase(k) == k <==> AllObject(k.paramTypes)
  {
    if AllObject(k.paramTypes) {
      assert Erase(k).paramTypes == k.paramTypes;
    }
  }

  /** Two keys have the same erasure exactly when they have the same name
      and arity. */
  lemma {:induction false} EraseEqualIff(a: MethodInfo, b: MethodInfo)
    ensures Erase(a) == Erase(b) <==> SameShape(a, b)
  {
    if Erase(a) == Erase(b) {
      assert |Erase(a).paramTypes| == |Erase(b).paramTypes|;
    }
  }

  /** The erased key of a one-parameter overload is the exact key of the
      overload that takes `java.lang.Object`. */
  lemma ErasedKeyIsObjectOverloadKey(name: string, t: string)
    ensures Erase(MethodInfo(name, [t])) == MethodInfo(name, [JAVA_LANG_OBJECT])
  {
  }
}
