/** The VM token kinds, which double as the VM command types (08/VmToken.py). */
module VmTokens {

  datatype VmToken =
    | IDENTIFIER | NUMBER | ARITHMETIC
    | PUSH | POP | LABEL | GOTO | IF | FUNCTION | CALL | RETURN
    | EOF | ERROR
}
