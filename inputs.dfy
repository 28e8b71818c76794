/** Plain-data stand-ins for what the ASM library decodes from a class file.
    The class-file parser and descriptor decoder are ASM's, not this
    repository's, so their results are given here already decoded. */
module Bytecode {

  /** `ACC_STATIC` of a method's `access_flags` (section 4.6 of the Java
      Virtual Machine Specification). */
  const ACC_STATIC: bv32 := 0x0008

  /** An ASM `Type`, given by what `Type.getClassName()` returns for it:
      the dotted source-level name (`int`, `int[]`, `java.lang.String`). */
  datatype AsmType = AsmType(className: string)

  /** A method descriptor (section 4.3.3 of the Java Virtual Machine
      Specification), given by what `Type.getArgumentTypes(desc)` and
      `Type.getReturnType(desc)` decode from it. */
  datatype Descriptor = Descriptor(argumentTypes: seq<AsmType>, returnType: AsmType)

  /** An ASM `MethodNode`: name, descriptor and access flags. */
  datatype MethodNode = MethodNode(name: string, desc: Descriptor, access: bv32)

  /** An ASM `ClassNode` read with code, debug and frame data skipped:
      only its method table matters. */
  datatype ClassNode = ClassNode(methods: seq<MethodNode>)

  /** An opened SDK jar: entry name to the class node decoded from it. */
  datatype JarFile = JarFile(entries: map<string, ClassNode>)

  /** The bit test `(access & Opcodes.ACC_STATIC) != 0`. */
  predicate IsStaticAccess(access: bv32) {
    access & ACC_STATIC != 0
  }
}

/** Plain-data stand-ins for the `javax.lang.model` view of a shadow
    method declaration. */
module Elements {

  /** `ImplementsValidator.CONSTRUCTOR_METHOD_NAME`: how a shadow class
      names the method that shadows a constructor. */
  const CONSTRUCTOR_METHOD_NAME: string := "__constructor__"

  /** `ImplementsValidator.STATIC_INITIALIZER_METHOD_NAME`: how a shadow
      class names the method that shadows a static initializer. */
  const STATIC_INITIALIZER_METHOD_NAME: string := "__staticInitializer__"

  datatype Modifier = Public | Protected | Private | Abstract | Static | Final | Native | Synchronized

  /** A parameter, given by `asType().toString()`. */
  datatype VariableElement = VariableElement(typeName: string)

  /** A declared shadow method: simple name, parameters, modifiers and
      `getReturnType().toString()`. */
  datatype ExecutableElement = ExecutableElement(
    simpleName: string,
    parameters: seq<VariableElement>,
    modifiers: set<Modifier>,
    returnType: string)
}
