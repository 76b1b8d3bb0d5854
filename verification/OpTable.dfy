/**
  The opcode classifiers of src/cpu/cpu_dec/op_parse_private.c: 64 rows for base codes and 64 for
  extended codes, each a chain of tests of which the first that holds decides.
 */
module OpTable {
  import opened Results

  datatype Format =
    | Format1 | Format2 | Format3 | Format4 | Format5 | Format6 | Format7 | Format8 | Format9
    | Format10 | Format11 | Format12 | Format13 | Format14 | FormatF

  /** OpCodeId_*: the index into op_exec_table. */
  type OpCode = n: nat | n < 205

  const ABSF_D_F: OpCode := 0
  const ABSF_S_F: OpCode := 1
  const ADD_1: OpCode := 2
  const ADD_2: OpCode := 3
  const ADDF_D_F: OpCode := 4
  const ADDF_S_F: OpCode := 5
  const ADDI_6: OpCode := 6
  const ADF_11: OpCode := 7
  const AND_1: OpCode := 8
  const ANDI_6: OpCode := 9
  const BSH_12: OpCode := 10
  const BSW_12: OpCode := 11
  const Bcond_3: OpCode := 12
  const CALLT_2: OpCode := 13
  const CAXI_11: OpCode := 14
  const CEILF_DL_F: OpCode := 15
  const CEILF_DUL_F: OpCode := 16
  const CEILF_DUW_F: OpCode := 17
  const CEILF_DW_F: OpCode := 18
  const CEILF_SL_F: OpCode := 19
  const CEILF_SUL_F: OpCode := 20
  const CEILF_SUW_F: OpCode := 21
  const CEILF_SW_F: OpCode := 22
  const CLR1_8: OpCode := 23
  const CLR1_9: OpCode := 24
  const CMOV_12: OpCode := 25
  const CMOV_11: OpCode := 26
  const CMOVF_D_F: OpCode := 27
  const CMOVF_S_F: OpCode := 28
  const CMP_1: OpCode := 29
  const CMP_2: OpCode := 30
  const CMPF_D_F: OpCode := 31
  const CMPF_S_F: OpCode := 32
  const CTRET_10: OpCode := 33
  const CVTF_DL_F: OpCode := 34
  const CVTF_DS_F: OpCode := 35
  const CVTF_DUL_F: OpCode := 36
  const CVTF_DUW_F: OpCode := 37
  const CVTF_DW_F: OpCode := 38
  const CVTF_LD_F: OpCode := 39
  const CVTF_LS_F: OpCode := 40
  const CVTF_SD_F: OpCode := 41
  const CVTF_SL_F: OpCode := 42
  const CVTF_SUL_F: OpCode := 43
  const CVTF_SUW_F: OpCode := 44
  const CVTF_SW_F: OpCode := 45
  const CVTF_ULD_F: OpCode := 46
  const CVTF_ULS_F: OpCode := 47
  const CVTF_UWD_F: OpCode := 48
  const CVTF_UWS_F: OpCode := 49
  const CVTF_WD_F: OpCode := 50
  const CVTF_WS_F: OpCode := 51
  const DI_10: OpCode := 52
  const DISPOSE_13: OpCode := 53
  const DIV_11: OpCode := 54
  const DIVF_D_F: OpCode := 55
  const DIVF_S_F: OpCode := 56
  const DIVH_1: OpCode := 57
  const DIVH_11: OpCode := 58
  const DIVHU_11: OpCode := 59
  const DIVQ_11: OpCode := 60
  const DIVQU_11: OpCode := 61
  const DIVU_11: OpCode := 62
  const EI_10: OpCode := 63
  const EIRET_10: OpCode := 64
  const FERET_10: OpCode := 65
  const FETRAP_1: OpCode := 66
  const FLOORF_DL_F: OpCode := 67
  const FLOORF_DUL_F: OpCode := 68
  const FLOORF_DUW_F: OpCode := 69
  const FLOORF_DW_F: OpCode := 70
  const FLOORF_SL_F: OpCode := 71
  const FLOORF_SUL_F: OpCode := 72
  const FLOORF_SUW_F: OpCode := 73
  const FLOORF_SW_F: OpCode := 74
  const HALT_10: OpCode := 75
  const HSH_12: OpCode := 76
  const HSW_12: OpCode := 77
  const JARL_6: OpCode := 78
  const JARL_5: OpCode := 79
  const JMP_1: OpCode := 80
  const JMP_6: OpCode := 81
  const JR_6: OpCode := 82
  const JR_5: OpCode := 83
  const LDSR_9: OpCode := 84
  const LD_B_7: OpCode := 85
  const LD_B_14: OpCode := 86
  const LD_BU_7: OpCode := 87
  const LD_BU_14: OpCode := 88
  const LD_H_7: OpCode := 89
  const LD_H_14: OpCode := 90
  const LD_HU_14: OpCode := 91
  const LD_HU_7: OpCode := 92
  const LD_W_7: OpCode := 93
  const LD_W_14: OpCode := 94
  const MAC_11: OpCode := 95
  const MACU_11: OpCode := 96
  const MADDF_S_F: OpCode := 97
  const MAXF_D_F: OpCode := 98
  const MAXF_S_F: OpCode := 99
  const MINF_D_F: OpCode := 100
  const MINF_S_F: OpCode := 101
  const MOV_1: OpCode := 102
  const MOV_2: OpCode := 103
  const MOV_6: OpCode := 104
  const MOVEA_6: OpCode := 105
  const MOVHI_6: OpCode := 106
  const MSUBF_S_F: OpCode := 107
  const MUL_11: OpCode := 108
  const MUL_12: OpCode := 109
  const MULF_D_F: OpCode := 110
  const MULF_S_F: OpCode := 111
  const MULH_1: OpCode := 112
  const MULH_2: OpCode := 113
  const MULHI_6: OpCode := 114
  const MULU_11: OpCode := 115
  const MULU_12: OpCode := 116
  const NEGF_D_F: OpCode := 117
  const NEGF_S_F: OpCode := 118
  const NMADDF_S_F: OpCode := 119
  const NMSUBF_S_F: OpCode := 120
  const NOP_1: OpCode := 121
  const NOT_1: OpCode := 122
  const NOT1_8: OpCode := 123
  const NOT1_9: OpCode := 124
  const OR_1: OpCode := 125
  const ORI_6: OpCode := 126
  const PREPARE_13: OpCode := 127
  const RECIPF_D_F: OpCode := 128
  const RECIPF_S_F: OpCode := 129
  const RETI_10: OpCode := 130
  const RIE_1: OpCode := 131
  const RIE_10: OpCode := 132
  const RSQRTF_D_F: OpCode := 133
  const RSQRTF_S_F: OpCode := 134
  const SAR_2: OpCode := 135
  const SAR_9: OpCode := 136
  const SAR_11: OpCode := 137
  const SASF_9: OpCode := 138
  const SATADD_1: OpCode := 139
  const SATADD_2: OpCode := 140
  const SATADD_11: OpCode := 141
  const SATSUB_1: OpCode := 142
  const SATSUB_11: OpCode := 143
  const SATSUBI_6: OpCode := 144
  const SATSUBR_1: OpCode := 145
  const SBF_11: OpCode := 146
  const SCH0L_9: OpCode := 147
  const SCH0R_9: OpCode := 148
  const SCH1L_9: OpCode := 149
  const SCH1R_9: OpCode := 150
  const SET1_8: OpCode := 151
  const SET1_9: OpCode := 152
  const SETF_9: OpCode := 153
  const SHL_2: OpCode := 154
  const SHL_9: OpCode := 155
  const SHL_11: OpCode := 156
  const SHR_2: OpCode := 157
  const SHR_9: OpCode := 158
  const SHR_11: OpCode := 159
  const SLD_B_4: OpCode := 160
  const SLD_BU_4: OpCode := 161
  const SLD_H_4: OpCode := 162
  const SLD_HU_4: OpCode := 163
  const SLD_W_4: OpCode := 164
  const SQRTF_D_F: OpCode := 165
  const SQRTF_S_F: OpCode := 166
  const SST_B_4: OpCode := 167
  const SST_H_4: OpCode := 168
  const SST_W_4: OpCode := 169
  const STSR_9: OpCode := 170
  const ST_B_7: OpCode := 171
  const ST_B_14: OpCode := 172
  const ST_H_7: OpCode := 173
  const ST_H_14: OpCode := 174
  const ST_W_7: OpCode := 175
  const ST_W_14: OpCode := 176
  const SUB_1: OpCode := 177
  const SUBF_D_F: OpCode := 178
  const SUBF_S_F: OpCode := 179
  const SUBR_1: OpCode := 180
  const SWITCH_1: OpCode := 181
  const SXB_1: OpCode := 182
  const SXH_1: OpCode := 183
  const SYNCE_1: OpCode := 184
  const SYNCM_1: OpCode := 185
  const SYNCP_1: OpCode := 186
  const SYSCALL_10: OpCode := 187
  const TRAP_10: OpCode := 188
  const TRFSR_F: OpCode := 189
  const TRNCF_DL_F: OpCode := 190
  const TRNCF_DUL_F: OpCode := 191
  const TRNCF_DUW_F: OpCode := 192
  const TRNCF_DW_F: OpCode := 193
  const TRNCF_SL_F: OpCode := 194
  const TRNCF_SUL_F: OpCode := 195
  const TRNCF_SUW_F: OpCode := 196
  const TRNCF_SW_F: OpCode := 197
  const TST_1: OpCode := 198
  const TST1_8: OpCode := 199
  const TST1_9: OpCode := 200
  const XOR_1: OpCode := 201
  const XORI_6: OpCode := 202
  const ZXB_1: OpCode := 203
  const ZXH_1: OpCode := 204

  datatype OpType = OpType(codeId: OpCode, formatId: Format)

  function Pow2(n: nat): (p: nat)
    ensures p > 0
  {
    if n == 0 then 1 else 2 * Pow2(n - 1)
  }

  /** The `n` bits of `w` from bit `lo` up. */
  function Field(w: nat, lo: nat, n: nat): nat { w / Pow2(lo) % Pow2(n) }

  function Reg1(c0: nat): nat { c0 % 0x20 }
  function Reg2(c0: nat): nat { c0 / 0x800 }
  function Reg3(c1: nat): nat { c1 / 0x800 }

  /** Rows 0 to 15 of op_parse_base_code_table. */
  function BaseRows0(row: nat, c0: nat, c1: nat): Option<OpType> {
    match row
    case 0 =>
      if Reg1(c0) == 0 && Reg2(c0) == 0 then Some(OpType(NOP_1, Format1))
      else if Reg1(c0) == 31 && Reg2(c0) == 0 then Some(OpType(SYNCP_1, Format1))
      else if Reg1(c0) == 30 && Reg2(c0) == 0 then Some(OpType(SYNCM_1, Format1))
      else if Reg1(c0) == 29 && Reg2(c0) == 0 then Some(OpType(SYNCE_1, Format1))
      else if Reg1(c0) >= 1 && Reg1(c0) <= 27 && Reg2(c0) == 0 then Some(OpType(MOV_1, Format1))
      else if Reg1(c0) == 0 && Reg2(c0) != 0 then Some(OpType(MOV_1, Format1))
      else if Reg1(c0) != 0 && Reg2(c0) != 0 then Some(OpType(MOV_1, Format1))
      else None
    case 1 => Some(OpType(NOT_1, Format1))
    case 2 =>
      if Reg1(c0) == 0 && Reg2(c0) == 0 then Some(OpType(RIE_1, Format1))
      else if Reg1(c0) != 0 && Reg2(c0) == 0 then Some(OpType(SWITCH_1, Format1))
      else if Reg1(c0) == 0 && Reg2(c0) >= 1 && Reg2(c0) <= 15 then Some(OpType(FETRAP_1, Format1))
      else if Reg1(c0) != 0 && Reg2(c0) != 0 then Some(OpType(DIVH_1, Format1))
      else None
    case 3 =>
      if Reg2(c0) == 0 then Some(OpType(JMP_1, Format1))
      else if Reg2(c0) != 0 && Field(c0, 4, 1) == 0 then Some(OpType(SLD_BU_4, Format4))
      else if Reg2(c0) != 0 && Field(c0, 4, 1) == 1 then Some(OpType(SLD_HU_4, Format4))
      else None
    case 4 =>
      if Reg2(c0) != 0 then Some(OpType(SATSUBR_1, Format1))
      else if Reg2(c0) == 0 then Some(OpType(ZXB_1, Format1))
      else None
    case 5 =>
      if Reg2(c0) != 0 then Some(OpType(SATSUB_1, Format1))
      else if Reg2(c0) == 0 then Some(OpType(SXB_1, Format1))
      else None
    case 6 =>
      if Reg2(c0) != 0 then Some(OpType(SATADD_1, Format1))
      else if Reg2(c0) == 0 then Some(OpType(ZXH_1, Format1))
      else None
    case 7 =>
      if Reg2(c0) != 0 then Some(OpType(MULH_1, Format1))
      else if Reg2(c0) == 0 then Some(OpType(SXH_1, Format1))
      else None
    case 8 => Some(OpType(OR_1, Format1))
    case 9 => Some(OpType(XOR_1, Format1))
    case 10 => Some(OpType(AND_1, Format1))
    case 11 => Some(OpType(TST_1, Format1))
    case 12 => Some(OpType(SUBR_1, Format1))
    case 13 => Some(OpType(SUB_1, Format1))
    case 14 => Some(OpType(ADD_1, Format1))
    case 15 => Some(OpType(CMP_1, Format1))
    case _ => None
  }

  /** Rows 16 to 31 of op_parse_base_code_table. */
  function BaseRows16(row: nat, c0: nat, c1: nat): Option<OpType> {
    match row
    case 16 =>
      if Reg2(c0) != 0 then Some(OpType(MOV_2, Format2))
      else if Reg2(c0) == 0 then Some(OpType(CALLT_2, Format2))
      else None
    case 17 =>
      if Reg2(c0) != 0 then Some(OpType(SATADD_2, Format2))
      else if Reg2(c0) == 0 then Some(OpType(CALLT_2, Format2))
      else None
    case 18 => Some(OpType(ADD_2, Format2))
    case 19 => Some(OpType(CMP_2, Format2))
    case 20 => Some(OpType(SHR_2, Format2))
    case 21 => Some(OpType(SAR_2, Format2))
    case 22 => Some(OpType(SHL_2, Format2))
    case 23 =>
      if Reg2(c0) != 0 then Some(OpType(MULH_2, Format2))
      else if Reg1(c0) == 0 && Reg2(c0) == 0 then Some(OpType(JR_6, Format6))
      else if Reg1(c0) != 0 && Reg2(c0) == 0 then Some(OpType(JARL_6, Format6))
      else None
    case 24 => Some(OpType(SLD_B_4, Format4))
    case 25 => Some(OpType(SLD_B_4, Format4))
    case 26 => Some(OpType(SLD_B_4, Format4))
    case 27 => Some(OpType(SLD_B_4, Format4))
    case 28 => Some(OpType(SST_B_4, Format4))
    case 29 => Some(OpType(SST_B_4, Format4))
    case 30 => Some(OpType(SST_B_4, Format4))
    case 31 => Some(OpType(SST_B_4, Format4))
    case _ => None
  }

  /** Rows 32 to 47 of op_parse_base_code_table. */
  function BaseRows32(row: nat, c0: nat, c1: nat): Option<OpType> {
    match row
    case 32 => Some(OpType(SLD_H_4, Format4))
    case 33 => Some(OpType(SLD_H_4, Format4))
    case 34 => Some(OpType(SLD_H_4, Format4))
    case 35 => Some(OpType(SLD_H_4, Format4))
    case 36 => Some(OpType(SST_H_4, Format4))
    case 37 => Some(OpType(SST_H_4, Format4))
    case 38 => Some(OpType(SST_H_4, Format4))
    case 39 => Some(OpType(SST_H_4, Format4))
    case 40 =>
      if Field(c0, 0, 1) == 0 then Some(OpType(SLD_W_4, Format4))
      else if Field(c0, 0, 1) == 1 then Some(OpType(SST_W_4, Format4))
      else None
    case 41 =>
      if Field(c0, 0, 1) == 0 then Some(OpType(SLD_W_4, Format4))
      else if Field(c0, 0, 1) == 1 then Some(OpType(SST_W_4, Format4))
      else None
    case 42 =>
      if Field(c0, 0, 1) == 0 then Some(OpType(SLD_W_4, Format4))
      else if Field(c0, 0, 1) == 1 then Some(OpType(SST_W_4, Format4))
      else None
    case 43 =>
      if Field(c0, 0, 1) == 0 then Some(OpType(SLD_W_4, Format4))
      else if Field(c0, 0, 1) == 1 then Some(OpType(SST_W_4, Format4))
      else None
    case 44 => Some(OpType(Bcond_3, Format3))
    case 45 => Some(OpType(Bcond_3, Format3))
    case 46 => Some(OpType(Bcond_3, Format3))
    case 47 => Some(OpType(Bcond_3, Format3))
    case _ => None
  }

  /** Rows 48 to 63 of op_parse_base_code_table. */
  function BaseRows48(row: nat, c0: nat, c1: nat): Option<OpType> {
    match row
    case 48 => Some(OpType(ADDI_6, Format6))
    case 49 =>
      if Reg2(c0) != 0 then Some(OpType(MOVEA_6, Format6))
      else if Reg2(c0) == 0 then Some(OpType(MOV_6, Format6))
      else None
    case 50 =>
      if Reg2(c0) != 0 then Some(OpType(MOVHI_6, Format6))
      else if Reg2(c0) == 0 then Some(OpType(DISPOSE_13, Format13))
      else None
    case 51 =>
      if Reg2(c0) != 0 then Some(OpType(SATSUBI_6, Format6))
      else if Reg2(c0) == 0 then Some(OpType(DISPOSE_13, Format13))
      else None
    case 52 => Some(OpType(ORI_6, Format6))
    case 53 => Some(OpType(XORI_6, Format6))
    case 54 => Some(OpType(ANDI_6, Format6))
    case 55 =>
      if Reg2(c0) != 0 then Some(OpType(MULHI_6, Format6))
      else if Reg2(c0) == 0 && Field(c1, 0, 1) == 0 then Some(OpType(JMP_6, Format6))
      else None
    case 56 => Some(OpType(LD_B_7, Format7))
    case 57 =>
      if Field(c1, 0, 1) == 0 then Some(OpType(LD_H_7, Format7))
      else if Field(c1, 0, 1) == 1 then Some(OpType(LD_W_7, Format7))
      else None
    case 58 => Some(OpType(ST_B_7, Format7))
    case 59 =>
      if Field(c1, 0, 1) == 0 then Some(OpType(ST_H_7, Format7))
      else if Field(c1, 0, 1) == 1 then Some(OpType(ST_W_7, Format7))
      else None
    case 60 =>
      if Reg2(c0) == 0 && Field(c0, 5, 1) == 0 && Field(c1, 0, 4) == 5 then Some(OpType(LD_B_14, Format14))
      else if Reg2(c0) == 0 && Field(c0, 5, 1) == 0 && Field(c1, 0, 4) == 7 then Some(OpType(LD_H_14, Format14))
      else if Reg2(c0) == 0 && Field(c0, 5, 1) == 0 && Field(c1, 0, 4) == 9 then Some(OpType(LD_W_14, Format14))
      else if Reg2(c0) == 0 && Field(c0, 5, 1) == 0 && Field(c1, 0, 4) == 13 then Some(OpType(ST_B_14, Format14))
      else if Reg2(c0) == 0 && Field(c0, 5, 1) == 0 && Field(c1, 0, 4) == 15 then Some(OpType(ST_W_14, Format14))
      else if Reg2(c0) == 0 && Field(c1, 0, 1) == 0 then Some(OpType(JR_5, Format5))
      else if Reg2(c0) != 0 && Field(c1, 0, 1) == 0 then Some(OpType(JARL_5, Format5))
      else if Reg2(c0) != 0 && Field(c1, 0, 1) == 1 then Some(OpType(LD_BU_7, Format7))
      else if Reg2(c0) == 0 && Field(c1, 0, 3) == 3 then Some(OpType(PREPARE_13, Format13))
      else if Reg2(c0) == 0 && Field(c1, 0, 4) == 1 then Some(OpType(PREPARE_13, Format13))
      else None
    case 61 =>
      if Reg2(c0) == 0 && Field(c0, 5, 1) == 1 && Field(c1, 0, 4) == 5 then Some(OpType(LD_BU_14, Format14))
      else if Reg2(c0) == 0 && Field(c0, 5, 1) == 1 && Field(c1, 0, 4) == 7 then Some(OpType(LD_HU_14, Format14))
      else if Reg2(c0) == 0 && Field(c0, 5, 1) == 1 && Field(c1, 0, 4) == 13 then Some(OpType(ST_H_14, Format14))
      else if Reg2(c0) == 0 && Field(c1, 0, 1) == 0 then Some(OpType(JR_5, Format5))
      else if Reg2(c0) != 0 && Field(c1, 0, 1) == 0 then Some(OpType(JARL_5, Format5))
      else if Reg2(c0) != 0 && Field(c1, 0, 1) == 1 then Some(OpType(LD_BU_7, Format7))
      else if Reg2(c0) == 0 && Field(c1, 0, 3) == 3 then Some(OpType(PREPARE_13, Format13))
      else if Reg2(c0) == 0 && Field(c1, 0, 4) == 1 then Some(OpType(PREPARE_13, Format13))
      else None
    case 62 =>
      if Field(c0, 14, 2) == 0 then Some(OpType(SET1_8, Format8))
      else if Field(c0, 14, 2) == 1 then Some(OpType(NOT1_8, Format8))
      else if Field(c0, 14, 2) == 2 then Some(OpType(CLR1_8, Format8))
      else if Field(c0, 14, 2) == 3 then Some(OpType(TST1_8, Format8))
      else None
    case 63 =>
      if Reg2(c0) != 0 && Field(c1, 0, 1) == 1 then Some(OpType(LD_HU_7, Format7))
      else None
    case _ => None
  }

  /** op_parse_base_code_table */
  function BaseRow(row: nat, c0: nat, c1: nat): Option<OpType> {
    if row < 16 then BaseRows0(row, c0, c1)
    else if row < 32 then BaseRows16(row, c0, c1)
    else if row < 48 then BaseRows32(row, c0, c1)
    else BaseRows48(row, c0, c1)
  }

  /** Rows 0 to 15 of op_parse_extend_code_table. */
  function ExtendRows0(row: nat, c0: nat, c1: nat): Option<OpType> {
    match row
    case 0 =>
      if Field(c0, 4, 1) == 0 then Some(OpType(SETF_9, Format9))
      else if Field(c0, 4, 1) == 1 then Some(OpType(RIE_10, Format10))
      else None
    case 1 => Some(OpType(LDSR_9, Format9))
    case 2 => Some(OpType(STSR_9, Format9))
    case 4 =>
      if Field(c1, 1, 1) == 0 && Field(c1, 4, 1) == 0 then Some(OpType(SHR_9, Format9))
      else if Field(c1, 1, 1) == 1 && Field(c1, 4, 1) == 0 then Some(OpType(SHR_11, Format11))
      else None
    case 5 =>
      if Field(c1, 1, 1) == 0 && Field(c1, 4, 1) == 0 then Some(OpType(SAR_9, Format9))
      else if Field(c1, 1, 1) == 1 && Field(c1, 4, 1) == 0 then Some(OpType(SAR_11, Format11))
      else None
    case 6 =>
      if Field(c1, 1, 2) == 0 && Field(c1, 4, 1) == 0 then Some(OpType(SHL_9, Format9))
      else if Field(c1, 1, 2) == 1 && Field(c1, 4, 1) == 0 then Some(OpType(SHL_11, Format11))
      else None
    case 7 =>
      if Field(c1, 1, 2) == 0 then Some(OpType(SET1_9, Format9))
      else if Field(c1, 1, 2) == 1 then Some(OpType(NOT1_9, Format9))
      else if Field(c1, 1, 2) == 2 then Some(OpType(CLR1_9, Format9))
      else if Field(c1, 1, 3) == 3 then Some(OpType(TST1_9, Format9))
      else if Field(c1, 1, 3) == 7 then Some(OpType(CAXI_11, Format11))
      else None
    case 8 => Some(OpType(TRAP_10, Format10))
    case 9 =>
      if Field(c0, 11, 1) == 0 then Some(OpType(HALT_10, Format10))
      else None
    case 10 =>
      if Field(c1, 1, 3) == 0 then Some(OpType(RETI_10, Format10))
      else if Field(c1, 1, 3) == 4 then Some(OpType(EIRET_10, Format10))
      else if Field(c1, 1, 3) == 5 then Some(OpType(FERET_10, Format10))
      else if Field(c1, 1, 3) == 2 then Some(OpType(CTRET_10, Format10))
      else None
    case 11 =>
      if Field(c0, 11, 5) == 0 then Some(OpType(DI_10, Format10))
      else if Field(c0, 11, 5) == 16 then Some(OpType(EI_10, Format10))
      else if Field(c0, 11, 5) == 26 then Some(OpType(SYSCALL_10, Format10))
      else None
    case _ => None
  }

  /** Rows 16 to 31 of op_parse_extend_code_table. */
  function ExtendRows16(row: nat, c0: nat, c1: nat): Option<OpType> {
    match row
    case 16 => Some(OpType(SASF_9, Format9))
    case 17 =>
      if Field(c1, 1, 1) == 0 then Some(OpType(MUL_11, Format11))
      else if Field(c1, 1, 1) == 1 then Some(OpType(MULU_11, Format11))
      else None
    case 18 =>
      if Field(c1, 1, 1) == 0 then Some(OpType(MUL_12, Format12))
      else if Field(c1, 1, 1) == 1 then Some(OpType(MULU_12, Format12))
      else None
    case 19 =>
      if Field(c1, 1, 1) == 0 then Some(OpType(MUL_12, Format12))
      else if Field(c1, 1, 1) == 1 then Some(OpType(MULU_12, Format12))
      else None
    case 20 =>
      if Field(c1, 1, 1) == 0 then Some(OpType(DIVH_11, Format11))
      else if Field(c1, 1, 1) == 1 then Some(OpType(DIVHU_11, Format11))
      else None
    case 22 =>
      if Field(c1, 1, 1) == 0 then Some(OpType(DIV_11, Format11))
      else if Field(c1, 1, 1) == 1 then Some(OpType(DIVU_11, Format11))
      else None
    case 23 =>
      if Field(c1, 1, 1) == 0 then Some(OpType(DIVQ_11, Format11))
      else if Field(c1, 1, 1) == 1 then Some(OpType(DIVQU_11, Format11))
      else None
    case 24 => Some(OpType(CMOV_12, Format12))
    case 25 => Some(OpType(CMOV_11, Format11))
    case 26 =>
      if Field(c1, 1, 2) == 0 then Some(OpType(BSW_12, Format12))
      else if Field(c1, 1, 2) == 1 then Some(OpType(BSH_12, Format12))
      else if Field(c1, 1, 2) == 2 then Some(OpType(HSW_12, Format12))
      else if Field(c1, 1, 2) == 3 then Some(OpType(HSH_12, Format12))
      else None
    case 27 =>
      if Field(c1, 1, 4) == 0 then Some(OpType(SCH0R_9, Format9))
      else if Field(c1, 1, 4) == 1 then Some(OpType(SCH1R_9, Format9))
      else if Field(c1, 1, 4) == 2 then Some(OpType(SCH0L_9, Format9))
      else if Field(c1, 1, 4) == 3 then Some(OpType(SCH1L_9, Format9))
      else None
    case 28 =>
      if Field(c1, 1, 4) == 13 then Some(OpType(SATSUB_11, Format11))
      else if Field(c1, 1, 4) != 13 then Some(OpType(SBF_11, Format11))
      else None
    case 29 =>
      if Field(c1, 1, 4) == 13 then Some(OpType(SATADD_11, Format11))
      else if Field(c1, 1, 4) != 13 then Some(OpType(ADF_11, Format11))
      else None
    case 30 => Some(OpType(MAC_11, Format11))
    case 31 => Some(OpType(MACU_11, Format11))
    case _ => None
  }

  /** Rows 32 to 47 of op_parse_extend_code_table. */
  function ExtendRows32(row: nat, c0: nat, c1: nat): Option<OpType> {
    match row
    case 32 =>
      if Reg3(c1) != 0 && Field(c1, 4, 1) == 0 then Some(OpType(CMOVF_S_F, FormatF))
      else if Reg3(c1) != 0 && Field(c1, 4, 1) == 1 then Some(OpType(CMOVF_D_F, FormatF))
      else if Reg3(c1) == 0 && Field(c1, 4, 1) == 0 then Some(OpType(TRFSR_F, FormatF))
      else None
    case 33 =>
      if Field(c1, 4, 1) == 0 then Some(OpType(CMPF_S_F, FormatF))
      else if Field(c1, 4, 1) == 1 then Some(OpType(CMPF_D_F, FormatF))
      else None
    case 34 =>
      if Field(c0, 0, 5) == 0 && Field(c1, 1, 4) == 4 then Some(OpType(ABSF_S_F, FormatF))
      else if Field(c0, 0, 5) == 0 && Field(c1, 1, 4) == 12 then Some(OpType(ABSF_D_F, FormatF))
      else if Field(c0, 0, 5) == 2 && Field(c1, 1, 4) == 2 then Some(OpType(CEILF_SL_F, FormatF))
      else if Field(c0, 0, 5) == 2 && Field(c1, 1, 4) == 10 then Some(OpType(CEILF_DL_F, FormatF))
      else if Field(c0, 0, 5) == 18 && Field(c1, 1, 4) == 2 then Some(OpType(CEILF_SUL_F, FormatF))
      else if Field(c0, 0, 5) == 18 && Field(c1, 1, 4) == 10 then Some(OpType(CEILF_DUL_F, FormatF))
      else if Field(c0, 0, 5) == 18 && Field(c1, 1, 4) == 0 then Some(OpType(CEILF_SUW_F, FormatF))
      else if Field(c0, 0, 5) == 18 && Field(c1, 1, 4) == 8 then Some(OpType(CEILF_DUW_F, FormatF))
      else if Field(c0, 0, 5) == 2 && Field(c1, 1, 4) == 0 then Some(OpType(CEILF_SW_F, FormatF))
      else if Field(c0, 0, 5) == 2 && Field(c1, 1, 4) == 8 then Some(OpType(CEILF_DW_F, FormatF))
      else if Field(c0, 0, 5) == 1 && Field(c1, 1, 4) == 1 then Some(OpType(CVTF_LS_F, FormatF))
      else if Field(c0, 0, 5) == 4 && Field(c1, 1, 4) == 2 then Some(OpType(CVTF_SL_F, FormatF))
      else if Field(c0, 0, 5) == 20 && Field(c1, 1, 4) == 2 then Some(OpType(CVTF_SUL_F, FormatF))
      else if Field(c0, 0, 5) == 20 && Field(c1, 1, 4) == 0 then Some(OpType(CVTF_SUW_F, FormatF))
      else if Field(c0, 0, 5) == 4 && Field(c1, 1, 4) == 0 then Some(OpType(CVTF_SW_F, FormatF))
      else if Field(c0, 0, 5) == 17 && Field(c1, 1, 4) == 1 then Some(OpType(CVTF_ULS_F, FormatF))
      else if Field(c0, 0, 5) == 16 && Field(c1, 1, 4) == 1 then Some(OpType(CVTF_UWS_F, FormatF))
      else if Field(c0, 0, 5) == 0 && Field(c1, 1, 4) == 1 then Some(OpType(CVTF_WS_F, FormatF))
      else if Field(c0, 0, 5) == 1 && Field(c1, 1, 4) == 9 then Some(OpType(CVTF_LD_F, FormatF))
      else if Field(c0, 0, 5) == 4 && Field(c1, 1, 4) == 10 then Some(OpType(CVTF_DL_F, FormatF))
      else if Field(c0, 0, 5) == 20 && Field(c1, 1, 4) == 10 then Some(OpType(CVTF_DUL_F, FormatF))
      else if Field(c0, 0, 5) == 20 && Field(c1, 1, 4) == 8 then Some(OpType(CVTF_DUW_F, FormatF))
      else if Field(c0, 0, 5) == 4 && Field(c1, 1, 4) == 8 then Some(OpType(CVTF_DW_F, FormatF))
      else if Field(c0, 0, 5) == 17 && Field(c1, 1, 4) == 9 then Some(OpType(CVTF_ULD_F, FormatF))
      else if Field(c0, 0, 5) == 16 && Field(c1, 1, 4) == 9 then Some(OpType(CVTF_UWD_F, FormatF))
      else if Field(c0, 0, 5) == 0 && Field(c1, 1, 4) == 9 then Some(OpType(CVTF_WD_F, FormatF))
      else if Field(c0, 0, 5) == 3 && Field(c1, 1, 4) == 2 then Some(OpType(FLOORF_SL_F, FormatF))
      else if Field(c0, 0, 5) == 19 && Field(c1, 1, 4) == 2 then Some(OpType(FLOORF_SUL_F, FormatF))
      else if Field(c0, 0, 5) == 19 && Field(c1, 1, 4) == 0 then Some(OpType(FLOORF_SUW_F, FormatF))
      else if Field(c0, 0, 5) == 3 && Field(c1, 1, 4) == 0 then Some(OpType(FLOORF_SW_F, FormatF))
      else if Field(c0, 0, 5) == 3 && Field(c1, 1, 4) == 10 then Some(OpType(FLOORF_DL_F, FormatF))
      else if Field(c0, 0, 5) == 19 && Field(c1, 1, 4) == 10 then Some(OpType(FLOORF_DUL_F, FormatF))
      else if Field(c0, 0, 5) == 19 && Field(c1, 1, 4) == 8 then Some(OpType(FLOORF_DUW_F, FormatF))
      else if Field(c0, 0, 5) == 3 && Field(c1, 1, 4) == 8 then Some(OpType(FLOORF_DW_F, FormatF))
      else if Field(c0, 0, 5) == 1 && Field(c1, 1, 4) == 4 then Some(OpType(NEGF_S_F, FormatF))
      else if Field(c0, 0, 5) == 1 && Field(c1, 1, 4) == 12 then Some(OpType(NEGF_D_F, FormatF))
      else if Field(c0, 0, 5) == 1 && Field(c1, 1, 4) == 7 then Some(OpType(RECIPF_S_F, FormatF))
      else if Field(c0, 0, 5) == 1 && Field(c1, 1, 4) == 15 then Some(OpType(RECIPF_D_F, FormatF))
      else if Field(c0, 0, 5) == 2 && Field(c1, 1, 4) == 7 then Some(OpType(RSQRTF_S_F, FormatF))
      else if Field(c0, 0, 5) == 2 && Field(c1, 1, 4) == 15 then Some(OpType(RSQRTF_D_F, FormatF))
      else if Field(c0, 0, 5) == 0 && Field(c1, 1, 4) == 7 then Some(OpType(SQRTF_S_F, FormatF))
      else if Field(c0, 0, 5) == 0 && Field(c1, 1, 4) == 15 then Some(OpType(SQRTF_D_F, FormatF))
      else if Field(c0, 0, 5) == 3 && Field(c1, 1, 4) == 9 then Some(OpType(CVTF_DS_F, FormatF))
      else if Field(c0, 0, 5) == 2 && Field(c1, 1, 4) == 9 then Some(OpType(CVTF_SD_F, FormatF))
      else if Field(c0, 0, 5) == 1 && Field(c1, 1, 4) == 2 then Some(OpType(TRNCF_SL_F, FormatF))
      else if Field(c0, 0, 5) == 17 && Field(c1, 1, 4) == 2 then Some(OpType(TRNCF_SUL_F, FormatF))
      else if Field(c0, 0, 5) == 17 && Field(c1, 1, 4) == 0 then Some(OpType(TRNCF_SUW_F, FormatF))
      else if Field(c0, 0, 5) == 1 && Field(c1, 1, 4) == 0 then Some(OpType(TRNCF_SW_F, FormatF))
      else if Field(c0, 0, 5) == 1 && Field(c1, 1, 4) == 10 then Some(OpType(TRNCF_DL_F, FormatF))
      else if Field(c0, 0, 5) == 17 && Field(c1, 1, 4) == 10 then Some(OpType(TRNCF_DUL_F, FormatF))
      else if Field(c0, 0, 5) == 17 && Field(c1, 1, 4) == 8 then Some(OpType(TRNCF_DUW_F, FormatF))
      else if Field(c0, 0, 5) == 1 && Field(c1, 1, 4) == 8 then Some(OpType(TRNCF_DW_F, FormatF))
      else None
    case 35 =>
      if Field(c1, 1, 4) == 0 then Some(OpType(ADDF_S_F, FormatF))
      else if Field(c1, 1, 4) == 8 then Some(OpType(ADDF_D_F, FormatF))
      else if Field(c1, 1, 4) == 7 then Some(OpType(DIVF_S_F, FormatF))
      else if Field(c1, 1, 4) == 15 then Some(OpType(DIVF_D_F, FormatF))
      else if Field(c1, 1, 4) == 4 then Some(OpType(MAXF_S_F, FormatF))
      else if Field(c1, 1, 4) == 12 then Some(OpType(MAXF_D_F, FormatF))
      else if Field(c1, 1, 4) == 5 then Some(OpType(MINF_S_F, FormatF))
      else if Field(c1, 1, 4) == 13 then Some(OpType(MINF_D_F, FormatF))
      else if Field(c1, 1, 4) == 2 then Some(OpType(MULF_S_F, FormatF))
      else if Field(c1, 1, 4) == 1 then Some(OpType(SUBF_S_F, FormatF))
      else if Field(c1, 1, 4) == 9 then Some(OpType(SUBF_D_F, FormatF))
      else if Field(c1, 1, 4) == 10 then Some(OpType(MULF_D_F, FormatF))
      else None
    case 40 => Some(OpType(MADDF_S_F, FormatF))
    case 41 => Some(OpType(MSUBF_S_F, FormatF))
    case 42 => Some(OpType(NMADDF_S_F, FormatF))
    case 43 => Some(OpType(NMSUBF_S_F, FormatF))
    case 44 => Some(OpType(MADDF_S_F, FormatF))
    case 45 => Some(OpType(MSUBF_S_F, FormatF))
    case 46 => Some(OpType(NMADDF_S_F, FormatF))
    case 47 => Some(OpType(NMSUBF_S_F, FormatF))
    case _ => None
  }

  /** Rows 48 to 63 of op_parse_extend_code_table. */
  function ExtendRows48(row: nat, c0: nat, c1: nat): Option<OpType> {
    match row
    case _ => None
  }

  /** op_parse_extend_code_table */
  function ExtendRow(row: nat, c0: nat, c1: nat): Option<OpType> {
    if row < 16 then ExtendRows0(row, c0, c1)
    else if row < 32 then ExtendRows16(row, c0, c1)
    else if row < 48 then ExtendRows32(row, c0, c1)
    else ExtendRows48(row, c0, c1)
  }
}
