/**
  The bits of every operation, keyed by format and operation: which bits of the first two halfwords are
  fixed, to what, and which values of the register fields are excluded. Bit numbers are those of one
  halfword.
 */
module OpBits {
  import opened OpTable
  import opened Decode

  // The first halfword: the opcode in bits 10 to 5, 10 to 6, 10 to 7 or 10 to 4, the two register fields, and
  // single bits.

  function Opcode(c0: nat): nat { c0 / 0x20 % 0x40 }
  function Opcode5(c0: nat): nat { c0 / 0x40 % 0x20 }
  function Opcode4(c0: nat): nat { c0 / 0x80 % 0x10 }
  function Opcode7(c0: nat): nat { c0 / 0x10 % 0x80 }
  function Low(c0: nat): nat { c0 % 0x20 }
  function High(c0: nat): nat { c0 / 0x800 }
  function Top(c0: nat): nat { c0 / 0x4000 }
  function Bit0(c: nat): nat { c % 2 }
  function Bit4(c: nat): nat { c / 0x10 % 2 }
  function Bit11(c0: nat): nat { c0 / 0x800 % 2 }

  // The second halfword (bits 16 to 31 of the instruction): the sub-opcode in its bits 10 to 5, register 3, and the
  // bits below.

  function SubOpcode(c1: nat): nat { c1 / 0x20 % 0x40 }
  function SubOpcode5(c1: nat): nat { c1 / 0x40 % 0x20 }
  function Sub10to8(c1: nat): nat { c1 / 0x100 % 8 }
  function Sub6to5(c1: nat): nat { c1 / 0x20 % 4 }
  function Reg3Of(c1: nat): nat { c1 / 0x800 }
  function Bit1(c1: nat): nat { c1 / 2 % 2 }
  function Bits2to0(c1: nat): nat { c1 % 8 }
  function Bits3to0(c1: nat): nat { c1 % 0x10 }
  function Bits2to1(c1: nat): nat { c1 / 2 % 4 }
  function Bits3to1(c1: nat): nat { c1 / 2 % 8 }
  function Bits4to1(c1: nat): nat { c1 / 2 % 0x10 }

  // ---- base operations ---------------------------------------------------------------------

  predicate Bits1(op: OpCode, c0: nat) {
    || (op == NOP_1 && c0 == 0)
    || (op == SYNCP_1 && Opcode(c0) == 0 && High(c0) == 0 && Low(c0) == 31)
    || (op == SYNCM_1 && Opcode(c0) == 0 && High(c0) == 0 && Low(c0) == 30)
    || (op == SYNCE_1 && Opcode(c0) == 0 && High(c0) == 0 && Low(c0) == 29)
    || (op == MOV_1 && Opcode(c0) == 0 && (High(c0) != 0 || 1 <= Low(c0) <= 27))
    || (op == NOT_1 && Opcode(c0) == 1)
    || (op == RIE_1 && Opcode(c0) == 2 && High(c0) == 0 && Low(c0) == 0)
    || (op == SWITCH_1 && Opcode(c0) == 2 && High(c0) == 0 && Low(c0) != 0)
    || (op == FETRAP_1 && Opcode(c0) == 2 && 1 <= High(c0) <= 15 && Low(c0) == 0)
    || (op == DIVH_1 && Opcode(c0) == 2 && High(c0) != 0 && Low(c0) != 0)
    || (op == JMP_1 && Opcode(c0) == 3 && High(c0) == 0)
    || (op == SATSUBR_1 && Opcode(c0) == 4 && High(c0) != 0)
    || (op == ZXB_1 && Opcode(c0) == 4 && High(c0) == 0)
    || (op == SATSUB_1 && Opcode(c0) == 5 && High(c0) != 0)
    || (op == SXB_1 && Opcode(c0) == 5 && High(c0) == 0)
    || (op == SATADD_1 && Opcode(c0) == 6 && High(c0) != 0)
    || (op == ZXH_1 && Opcode(c0) == 6 && High(c0) == 0)
    || (op == MULH_1 && Opcode(c0) == 7 && High(c0) != 0)
    || (op == SXH_1 && Opcode(c0) == 7 && High(c0) == 0)
    || (op == OR_1 && Opcode(c0) == 8)
    || (op == XOR_1 && Opcode(c0) == 9)
    || (op == AND_1 && Opcode(c0) == 10)
    || (op == TST_1 && Opcode(c0) == 11)
    || (op == SUBR_1 && Opcode(c0) == 12)
    || (op == SUB_1 && Opcode(c0) == 13)
    || (op == ADD_1 && Opcode(c0) == 14)
    || (op == CMP_1 && Opcode(c0) == 15)
  }

  predicate Bits2(op: OpCode, c0: nat) {
    || (op == MOV_2 && Opcode(c0) == 16 && High(c0) != 0)
    || (op == SATADD_2 && Opcode(c0) == 17 && High(c0) != 0)
    || (op == CALLT_2 && Opcode5(c0) == 8 && High(c0) == 0)
    || (op == ADD_2 && Opcode(c0) == 18)
    || (op == CMP_2 && Opcode(c0) == 19)
    || (op == SHR_2 && Opcode(c0) == 20)
    || (op == SAR_2 && Opcode(c0) == 21)
    || (op == SHL_2 && Opcode(c0) == 22)
    || (op == MULH_2 && Opcode(c0) == 23 && High(c0) != 0)
  }

  predicate Bits3(op: OpCode, c0: nat) {
    || (op == Bcond_3 && Opcode4(c0) == 11)
  }

  predicate Bits4(op: OpCode, c0: nat) {
    || (op == SLD_BU_4 && Opcode7(c0) == 6 && High(c0) != 0)
    || (op == SLD_HU_4 && Opcode7(c0) == 7 && High(c0) != 0)
    || (op == SLD_B_4 && Opcode4(c0) == 6)
    || (op == SST_B_4 && Opcode4(c0) == 7)
    || (op == SLD_H_4 && Opcode4(c0) == 8)
    || (op == SST_H_4 && Opcode4(c0) == 9)
    || (op == SLD_W_4 && Opcode4(c0) == 10 && Bit0(c0) == 0)
    || (op == SST_W_4 && Opcode4(c0) == 10 && Bit0(c0) == 1)
  }

  predicate Bits5(op: OpCode, c0: nat, c1: nat) {
    || (op == JR_5 && Opcode5(c0) == 30 && High(c0) == 0 && Bit0(c1) == 0)
    || (op == JARL_5 && Opcode5(c0) == 30 && High(c0) != 0 && Bit0(c1) == 0)
  }

  predicate Bits6(op: OpCode, c0: nat, c1: nat) {
    || (op == JR_6 && Opcode(c0) == 23 && High(c0) == 0 && Low(c0) == 0)
    || (op == JARL_6 && Opcode(c0) == 23 && High(c0) == 0 && Low(c0) != 0)
    || (op == ADDI_6 && Opcode(c0) == 48)
    || (op == MOVEA_6 && Opcode(c0) == 49 && High(c0) != 0)
    || (op == MOV_6 && Opcode(c0) == 49 && High(c0) == 0)
    || (op == MOVHI_6 && Opcode(c0) == 50 && High(c0) != 0)
    || (op == SATSUBI_6 && Opcode(c0) == 51 && High(c0) != 0)
    || (op == ORI_6 && Opcode(c0) == 52)
    || (op == XORI_6 && Opcode(c0) == 53)
    || (op == ANDI_6 && Opcode(c0) == 54)
    || (op == MULHI_6 && Opcode(c0) == 55 && High(c0) != 0)
    || (op == JMP_6 && Opcode(c0) == 55 && High(c0) == 0 && Bit0(c1) == 0)
  }

  predicate Bits7(op: OpCode, c0: nat, c1: nat) {
    || (op == LD_B_7 && Opcode(c0) == 56)
    || (op == LD_H_7 && Opcode(c0) == 57 && Bit0(c1) == 0)
    || (op == LD_W_7 && Opcode(c0) == 57 && Bit0(c1) == 1)
    || (op == ST_B_7 && Opcode(c0) == 58)
    || (op == ST_H_7 && Opcode(c0) == 59 && Bit0(c1) == 0)
    || (op == ST_W_7 && Opcode(c0) == 59 && Bit0(c1) == 1)
    || (op == LD_BU_7 && Opcode5(c0) == 30 && High(c0) != 0 && Bit0(c1) == 1)
    || (op == LD_HU_7 && Opcode(c0) == 63 && High(c0) != 0 && Bit0(c1) == 1)
  }

  predicate Bits8(op: OpCode, c0: nat) {
    || (op == SET1_8 && Opcode(c0) == 62 && Top(c0) == 0)
    || (op == NOT1_8 && Opcode(c0) == 62 && Top(c0) == 1)
    || (op == CLR1_8 && Opcode(c0) == 62 && Top(c0) == 2)
    || (op == TST1_8 && Opcode(c0) == 62 && Top(c0) == 3)
  }

  predicate Bits13(op: OpCode, c0: nat, c1: nat) {
    || (op == DISPOSE_13 && Opcode5(c0) == 25 && High(c0) == 0)
    || (op == PREPARE_13 && Opcode5(c0) == 30 && High(c0) == 0 && (Bits2to0(c1) == 3 || Bits3to0(c1) == 1))
  }

  predicate Bits14(op: OpCode, c0: nat, c1: nat) {
    || (op == LD_B_14 && Opcode(c0) == 60 && High(c0) == 0 && Bits3to0(c1) == 5)
    || (op == LD_H_14 && Opcode(c0) == 60 && High(c0) == 0 && Bits3to0(c1) == 7)
    || (op == LD_W_14 && Opcode(c0) == 60 && High(c0) == 0 && Bits3to0(c1) == 9)
    || (op == ST_B_14 && Opcode(c0) == 60 && High(c0) == 0 && Bits3to0(c1) == 13)
    || (op == ST_W_14 && Opcode(c0) == 60 && High(c0) == 0 && Bits3to0(c1) == 15)
    || (op == LD_BU_14 && Opcode(c0) == 61 && High(c0) == 0 && Bits3to0(c1) == 5)
    || (op == LD_HU_14 && Opcode(c0) == 61 && High(c0) == 0 && Bits3to0(c1) == 7)
    || (op == ST_H_14 && Opcode(c0) == 61 && High(c0) == 0 && Bits3to0(c1) == 13)
  }

  // ---- operations behind the prefix --------------------------------------------------------

  predicate Bits9(op: OpCode, c0: nat, c1: nat) {
    || (op == SETF_9 && SubOpcode(c1) == 0 && Bit4(c0) == 0)
    || (op == LDSR_9 && SubOpcode(c1) == 1)
    || (op == STSR_9 && SubOpcode(c1) == 2)
    || (op == SHR_9 && SubOpcode(c1) == 4 && Bit1(c1) == 0 && Bit4(c1) == 0)
    || (op == SAR_9 && SubOpcode(c1) == 5 && Bit1(c1) == 0 && Bit4(c1) == 0)
    || (op == SHL_9 && SubOpcode(c1) == 6 && Bits2to1(c1) == 0 && Bit4(c1) == 0)
    || (op == SET1_9 && SubOpcode(c1) == 7 && Bits2to1(c1) == 0)
    || (op == NOT1_9 && SubOpcode(c1) == 7 && Bits2to1(c1) == 1)
    || (op == CLR1_9 && SubOpcode(c1) == 7 && Bits2to1(c1) == 2)
    || (op == TST1_9 && SubOpcode(c1) == 7 && Bits3to1(c1) == 3)
    || (op == SASF_9 && SubOpcode(c1) == 16)
    || (op == SCH0R_9 && SubOpcode(c1) == 27 && Bits4to1(c1) == 0)
    || (op == SCH1R_9 && SubOpcode(c1) == 27 && Bits4to1(c1) == 1)
    || (op == SCH0L_9 && SubOpcode(c1) == 27 && Bits4to1(c1) == 2)
    || (op == SCH1L_9 && SubOpcode(c1) == 27 && Bits4to1(c1) == 3)
  }

  predicate Bits10(op: OpCode, c0: nat, c1: nat) {
    || (op == RIE_10 && SubOpcode(c1) == 0 && Bit4(c0) == 1)
    || (op == TRAP_10 && SubOpcode(c1) == 8)
    || (op == HALT_10 && SubOpcode(c1) == 9 && Bit11(c0) == 0)
    || (op == RETI_10 && SubOpcode(c1) == 10 && Bits3to1(c1) == 0)
    || (op == EIRET_10 && SubOpcode(c1) == 10 && Bits3to1(c1) == 4)
    || (op == FERET_10 && SubOpcode(c1) == 10 && Bits3to1(c1) == 5)
    || (op == CTRET_10 && SubOpcode(c1) == 10 && Bits3to1(c1) == 2)
    || (op == DI_10 && SubOpcode(c1) == 11 && High(c0) == 0)
    || (op == EI_10 && SubOpcode(c1) == 11 && High(c0) == 16)
    || (op == SYSCALL_10 && SubOpcode(c1) == 11 && High(c0) == 26)
  }

  predicate Bits11(op: OpCode, c1: nat) {
    || (op == SHR_11 && SubOpcode(c1) == 4 && Bit1(c1) == 1 && Bit4(c1) == 0)
    || (op == SAR_11 && SubOpcode(c1) == 5 && Bit1(c1) == 1 && Bit4(c1) == 0)
    || (op == SHL_11 && SubOpcode(c1) == 6 && Bits2to1(c1) == 1 && Bit4(c1) == 0)
    || (op == CAXI_11 && SubOpcode(c1) == 7 && Bits3to1(c1) == 7)
    || (op == MUL_11 && SubOpcode(c1) == 17 && Bit1(c1) == 0)
    || (op == MULU_11 && SubOpcode(c1) == 17 && Bit1(c1) == 1)
    || (op == DIVH_11 && SubOpcode(c1) == 20 && Bit1(c1) == 0)
    || (op == DIVHU_11 && SubOpcode(c1) == 20 && Bit1(c1) == 1)
    || (op == DIV_11 && SubOpcode(c1) == 22 && Bit1(c1) == 0)
    || (op == DIVU_11 && SubOpcode(c1) == 22 && Bit1(c1) == 1)
    || (op == DIVQ_11 && SubOpcode(c1) == 23 && Bit1(c1) == 0)
    || (op == DIVQU_11 && SubOpcode(c1) == 23 && Bit1(c1) == 1)
    || (op == CMOV_11 && SubOpcode(c1) == 25)
    || (op == SATSUB_11 && SubOpcode(c1) == 28 && Bits4to1(c1) == 13)
    || (op == SBF_11 && SubOpcode(c1) == 28 && Bits4to1(c1) != 13)
    || (op == SATADD_11 && SubOpcode(c1) == 29 && Bits4to1(c1) == 13)
    || (op == ADF_11 && SubOpcode(c1) == 29 && Bits4to1(c1) != 13)
    || (op == MAC_11 && SubOpcode(c1) == 30)
    || (op == MACU_11 && SubOpcode(c1) == 31)
  }

  predicate Bits12(op: OpCode, c1: nat) {
    || (op == MUL_12 && SubOpcode5(c1) == 9 && Bit1(c1) == 0)
    || (op == MULU_12 && SubOpcode5(c1) == 9 && Bit1(c1) == 1)
    || (op == CMOV_12 && SubOpcode(c1) == 24)
    || (op == BSW_12 && SubOpcode(c1) == 26 && Bits2to1(c1) == 0)
    || (op == BSH_12 && SubOpcode(c1) == 26 && Bits2to1(c1) == 1)
    || (op == HSW_12 && SubOpcode(c1) == 26 && Bits2to1(c1) == 2)
    || (op == HSH_12 && SubOpcode(c1) == 26 && Bits2to1(c1) == 3)
  }

  /** Format F, except the operations with one source. */
  predicate BitsF(op: OpCode, c1: nat) {
    || (op == CMOVF_S_F && SubOpcode(c1) == 32 && Reg3Of(c1) != 0 && Bit4(c1) == 0)
    || (op == CMOVF_D_F && SubOpcode(c1) == 32 && Reg3Of(c1) != 0 && Bit4(c1) == 1)
    || (op == TRFSR_F && SubOpcode(c1) == 32 && Reg3Of(c1) == 0 && Bit4(c1) == 0)
    || (op == CMPF_S_F && SubOpcode(c1) == 33 && Bit4(c1) == 0)
    || (op == CMPF_D_F && SubOpcode(c1) == 33 && Bit4(c1) == 1)
    || (op == ADDF_S_F && SubOpcode(c1) == 35 && Bits4to1(c1) == 0)
    || (op == ADDF_D_F && SubOpcode(c1) == 35 && Bits4to1(c1) == 8)
    || (op == DIVF_S_F && SubOpcode(c1) == 35 && Bits4to1(c1) == 7)
    || (op == DIVF_D_F && SubOpcode(c1) == 35 && Bits4to1(c1) == 15)
    || (op == MAXF_S_F && SubOpcode(c1) == 35 && Bits4to1(c1) == 4)
    || (op == MAXF_D_F && SubOpcode(c1) == 35 && Bits4to1(c1) == 12)
    || (op == MINF_S_F && SubOpcode(c1) == 35 && Bits4to1(c1) == 5)
    || (op == MINF_D_F && SubOpcode(c1) == 35 && Bits4to1(c1) == 13)
    || (op == MULF_S_F && SubOpcode(c1) == 35 && Bits4to1(c1) == 2)
    || (op == SUBF_S_F && SubOpcode(c1) == 35 && Bits4to1(c1) == 1)
    || (op == SUBF_D_F && SubOpcode(c1) == 35 && Bits4to1(c1) == 9)
    || (op == MULF_D_F && SubOpcode(c1) == 35 && Bits4to1(c1) == 10)
    || (op == MADDF_S_F && Sub10to8(c1) == 5 && Sub6to5(c1) == 0)
    || (op == MSUBF_S_F && Sub10to8(c1) == 5 && Sub6to5(c1) == 1)
    || (op == NMADDF_S_F && Sub10to8(c1) == 5 && Sub6to5(c1) == 2)
    || (op == NMSUBF_S_F && Sub10to8(c1) == 5 && Sub6to5(c1) == 3)
  }

  /** Those: their sub-opcode is 34, and the low register field is part of it. */
  predicate BitsUnary(op: OpCode, low: nat, kind: nat) {
    || (op == ABSF_D_F && low == 0 && kind == 12)
    || (op == ABSF_S_F && low == 0 && kind == 4)
    || (op == CEILF_DL_F && low == 2 && kind == 10)
    || (op == CEILF_DUL_F && low == 18 && kind == 10)
    || (op == CEILF_DUW_F && low == 18 && kind == 8)
    || (op == CEILF_DW_F && low == 2 && kind == 8)
    || (op == CEILF_SL_F && low == 2 && kind == 2)
    || (op == CEILF_SUL_F && low == 18 && kind == 2)
    || (op == CEILF_SUW_F && low == 18 && kind == 0)
    || (op == CEILF_SW_F && low == 2 && kind == 0)
    || (op == CVTF_DL_F && low == 4 && kind == 10)
    || (op == CVTF_DS_F && low == 3 && kind == 9)
    || (op == CVTF_DUL_F && low == 20 && kind == 10)
    || (op == CVTF_DUW_F && low == 20 && kind == 8)
    || (op == CVTF_DW_F && low == 4 && kind == 8)
    || (op == CVTF_LD_F && low == 1 && kind == 9)
    || (op == CVTF_LS_F && low == 1 && kind == 1)
    || (op == CVTF_SD_F && low == 2 && kind == 9)
    || (op == CVTF_SL_F && low == 4 && kind == 2)
    || (op == CVTF_SUL_F && low == 20 && kind == 2)
    || (op == CVTF_SUW_F && low == 20 && kind == 0)
    || (op == CVTF_SW_F && low == 4 && kind == 0)
    || (op == CVTF_ULD_F && low == 17 && kind == 9)
    || (op == CVTF_ULS_F && low == 17 && kind == 1)
    || (op == CVTF_UWD_F && low == 16 && kind == 9)
    || (op == CVTF_UWS_F && low == 16 && kind == 1)
    || (op == CVTF_WD_F && low == 0 && kind == 9)
    || (op == CVTF_WS_F && low == 0 && kind == 1)
    || (op == FLOORF_DL_F && low == 3 && kind == 10)
    || (op == FLOORF_DUL_F && low == 19 && kind == 10)
    || (op == FLOORF_DUW_F && low == 19 && kind == 8)
    || (op == FLOORF_DW_F && low == 3 && kind == 8)
    || (op == FLOORF_SL_F && low == 3 && kind == 2)
    || (op == FLOORF_SUL_F && low == 19 && kind == 2)
    || (op == FLOORF_SUW_F && low == 19 && kind == 0)
    || (op == FLOORF_SW_F && low == 3 && kind == 0)
    || (op == NEGF_D_F && low == 1 && kind == 12)
    || (op == NEGF_S_F && low == 1 && kind == 4)
    || (op == RECIPF_D_F && low == 1 && kind == 15)
    || (op == RECIPF_S_F && low == 1 && kind == 7)
    || (op == RSQRTF_D_F && low == 2 && kind == 15)
    || (op == RSQRTF_S_F && low == 2 && kind == 7)
    || (op == SQRTF_D_F && low == 0 && kind == 15)
    || (op == SQRTF_S_F && low == 0 && kind == 7)
    || (op == TRNCF_DL_F && low == 1 && kind == 10)
    || (op == TRNCF_DUL_F && low == 17 && kind == 10)
    || (op == TRNCF_DUW_F && low == 17 && kind == 8)
    || (op == TRNCF_DW_F && low == 1 && kind == 8)
    || (op == TRNCF_SL_F && low == 1 && kind == 2)
    || (op == TRNCF_SUL_F && low == 17 && kind == 2)
    || (op == TRNCF_SUW_F && low == 17 && kind == 0)
    || (op == TRNCF_SW_F && low == 1 && kind == 0)
  }

  // ---- code words --------------------------------------------------------------------------

  /** The six opcode bits all set and the next halfword even. */
  predicate Prefixed(c0: nat, c1: nat) { Opcode(c0) == 63 && Bit0(c1) == 0 }

  predicate BaseCarries(op: OpCode, format: Format, c0: nat, c1: nat) {
    match format
    case Format1 => Bits1(op, c0)
    case Format2 => Bits2(op, c0)
    case Format3 => Bits3(op, c0)
    case Format4 => Bits4(op, c0)
    case Format5 => Bits5(op, c0, c1)
    case Format6 => Bits6(op, c0, c1)
    case Format7 => Bits7(op, c0, c1)
    case Format8 => Bits8(op, c0)
    case Format13 => Bits13(op, c0, c1)
    case Format14 => Bits14(op, c0, c1)
    case _ => false
  }

  predicate ExtendedCarries(op: OpCode, format: Format, c0: nat, c1: nat) {
    match format
    case Format9 => Bits9(op, c0, c1)
    case Format10 => Bits10(op, c0, c1)
    case Format11 => Bits11(op, c1)
    case Format12 => Bits12(op, c1)
    case FormatF => BitsF(op, c1) || (SubOpcode(c1) == 34 && BitsUnary(op, Low(c0), Bits4to1(c1)))
    case _ => false
  }

  /** The code word carries the bits of this operation in this format. */
  predicate Carries(op: OpCode, format: Format, code: Code) {
    if Prefixed(code.c0, code.c1) then ExtendedCarries(op, format, code.c0, code.c1)
    else BaseCarries(op, format, code.c0, code.c1)
  }
}
