/**
 * An abstract view of a compiled class, as the class transformer sees it
 * through the visitor interface of the bytecode library: the header passed
 * to `visit`, and per method its access flags, name, descriptor and the
 * instructions passed to its method visitor.
 */
module Bytecode {

  /** Java's `int`, as used for access flags. */
  type Int32 = bv32

  /** `Opcodes.ACC_STATIC`. */
  const ACC_STATIC: Int32 := 0x0008

  /** `Opcodes.INVOKESPECIAL`. */
  const INVOKESPECIAL: int := 183

  /**
   * One instruction of a method body. `MethodInsn` is what the library hands
   * to `visitMethodInsn`; every other kind of instruction is `OtherInsn`,
   * which a method visitor forwards as it is.
   */
  datatype Insn =
    | MethodInsn(opcode: int, owner: string, name: string, desc: string, itf: bool)
    | OtherInsn(opcode: int)

  datatype Method = Method(access: Int32, name: string, desc: string, body: seq<Insn>)

  datatype ClassFile = ClassFile(name: string, superName: string, interfaces: seq<string>, methods: seq<Method>)

  /** The test `(access & Opcodes.ACC_STATIC) == 0`, negated. */
  predicate IsStatic(access: Int32)
  {
    access & ACC_STATIC != 0
  }
}
