/** FIR types (compiler/include/foundation/type.hpp) and the declarations they name. */
module FirTypes {
  import opened Wrappers

  datatype Kind =
    | Invalid | Void | Never
    | I8 | I16 | I32 | I64 | U8 | U16 | U32 | U64 | Isize | Usize | F32 | F64 | Bool
    | String | Raw | RawConst | Array | Slice | Own | View | Edit | Parameter
    | Struct | Enum | Contract | Function | Task | Channel | Sender | Receiver

  datatype Type = Type(kind: Kind, declaration: nat, arguments: seq<Type>)

  const C_FUNCTION_QUALIFIER: nat := 2

  predicate IsCFunction(t: Type) {
    t.kind == Function && t.declaration == C_FUNCTION_QUALIFIER
  }

  predicate IsSignedInteger(t: Type) {
    t.kind in {I8, I16, I32, I64, Isize}
  }

  predicate IsUnsignedInteger(t: Type) {
    t.kind in {U8, U16, U32, U64, Usize}
  }

  predicate IsNumeric(t: Type) {
    IsSignedInteger(t) || IsUnsignedInteger(t) || t.kind == F32 || t.kind == F64
  }

  predicate IsMachineScalar(t: Type) {
    t.kind == Void || t.kind == Never || IsNumeric(t) || t.kind == Bool
  }
}
