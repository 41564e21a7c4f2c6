/** The four parameters of a client call and their types (core/gp_ops.c, teek_client_constants.h). */
module ParamTypes {

  const PARAM_NUM: nat := 4
  const MAX_SHARED_SIZE: nat := 0x100000
  const ZERO_SIZE_PTR: nat := 16

  // ----- parameter types

  const TEEC_VALUE_INPUT: nat := 0x1
  const TEEC_VALUE_OUTPUT: nat := 0x2
  const TEEC_VALUE_INOUT: nat := 0x3
  const TEEC_MEMREF_TEMP_INPUT: nat := 0x5
  const TEEC_MEMREF_TEMP_OUTPUT: nat := 0x6
  const TEEC_MEMREF_TEMP_INOUT: nat := 0x7
  const TEEC_ION_INPUT: nat := 0x8
  const TEEC_ION_SGLIST_INPUT: nat := 0x9
  const TEEC_MEMREF_PARTIAL_INPUT: nat := 0xd
  const TEEC_MEMREF_PARTIAL_OUTPUT: nat := 0xe
  const TEEC_MEMREF_PARTIAL_INOUT: nat := 0xf

  /** `teec_param_type_get` for each of the four parameters: the four lowest digits to base 16, the lowest first. */
  function TypesOf(paramTypes: nat): (ts: seq<nat>)
    ensures |ts| == PARAM_NUM && forall k :: 0 <= k < PARAM_NUM ==> ts[k] < 16
    ensures var rest := paramTypes / 16 / 16 / 16 / 16;
      paramTypes == ts[0] + 16 * (ts[1] + 16 * (ts[2] + 16 * (ts[3] + 16 * rest)))
  {
    var second := paramTypes / 16;
    var third := second / 16;
    var fourth := third / 16;
    [paramTypes % 16, second % 16, third % 16, fourth % 16]
  }

  predicate IsTmpMem(t: nat) {
    t == TEEC_MEMREF_TEMP_INPUT || t == TEEC_MEMREF_TEMP_OUTPUT || t == TEEC_MEMREF_TEMP_INOUT
  }

  predicate IsRefMem(t: nat) {
    t == TEEC_MEMREF_PARTIAL_INPUT || t == TEEC_MEMREF_PARTIAL_OUTPUT || t == TEEC_MEMREF_PARTIAL_INOUT
  }

  predicate IsMem(t: nat) {
    IsTmpMem(t) || IsRefMem(t)
  }

  predicate IsValue(t: nat) {
    t == TEEC_VALUE_INPUT || t == TEEC_VALUE_OUTPUT || t == TEEC_VALUE_INOUT
  }

  /** One parameter as the client gives it; the flags say which copies from and checks of the client go well. */
  datatype Param = Param(size: nat, buffer: nat, offset: nat, readOk: bool, inputOk: bool, authOk: bool)

  /** The sizes of the blocks that the parameters from `i` on need, in the order in which they are asked for. */
  function Needs(types: seq<nat>, params: seq<Param>, i: nat): (sizes: seq<nat>)
    requires |types| == |params| == PARAM_NUM
    decreases PARAM_NUM - i
  {
    if i >= PARAM_NUM then []
    else (if IsMem(types[i]) then [params[i].size] else []) + Needs(types, params, i + 1)
  }

  /** A temporary parameter that the call can take over: readable, and with a buffer neither empty nor too large. */
  predicate AdmissibleTmp(t: nat, p: Param) {
    p.readOk && 0 < p.size <= MAX_SHARED_SIZE && (t == TEEC_MEMREF_TEMP_OUTPUT || p.inputOk) && p.authOk
  }

  datatype Ret = Okay | NoMemory | Invalid | Fault | Unsupported | FromTee
}
