/** op_parse and OpDecode13 as the source runs them, writing the decoded code in place. */
module DecodeCore {
  import opened Results
  import opened OpTable
  import opened Decode

  class DecodedCode {
    const list: array<nat>
    var fields: Fields
    var optype: OpType

    ghost predicate Valid()
      reads this
    {
      list.Length == LIST_SIZE
    }

    constructor ()
      ensures Valid() && fresh(list)
    {
      list := new nat[LIST_SIZE];
      fields, optype := Type1(0, 0, 0), OpType(NOP_1, Format1);
    }

    /** The list part of OpDecode13. */
    method DecodeList(t1: nat, t2: nat)
      requires Valid()
      modifies list
      ensures list[..] == ListOf(t1, t2)
    {
      ghost var z := Zeros()[30 := t1];
      TwoMore(z, t2, 9);
      hide Marked, BitOf;
      var i := 0;
      while i < LIST_SIZE
        invariant 0 <= i <= LIST_SIZE && list[..i] == Zeros()[..i]
      {
        list[i] := 0;
        i := i + 1;
      }
      list[30] := t1;
      assert list[..] == Marked(z, t2, 0);
      list[31] := BitOf(t2, 0);
      list[29] := BitOf(t2, 1);
      list[28] := BitOf(t2, 2);
      ThreeMore(z, t2, 0);
      assert list[..] == Marked(z, t2, 3);
      list[23] := BitOf(t2, 3);
      list[22] := BitOf(t2, 4);
      list[21] := BitOf(t2, 5);
      ThreeMore(z, t2, 3);
      assert list[..] == Marked(z, t2, 6);
      list[20] := BitOf(t2, 6);
      list[27] := BitOf(t2, 7);
      list[26] := BitOf(t2, 8);
      ThreeMore(z, t2, 6);
      assert list[..] == Marked(z, t2, 9);
      list[25] := BitOf(t2, 9);
      list[24] := BitOf(t2, 10);
      assert list[..] == Marked(z, t2, 11);
    }

    /** OpDecoder[format_id].decode */
    method OpDecode(format: Format, code: Code)
      requires Valid()
      modifies this`fields, list
      ensures fields == DecodeFields(format, code)
      ensures !format.Format13? ==> list[..] == old(list[..])
    {
      hide ListOf;
      if format.Format13? {
        var c0: int, c1: int := code.c0, code.c1;
        DecodeList(c0 % 2, c1 / 0x20);
        fields := Type13(c0 / 0x40 % 0x20, c0 / 0x800, c0 / 2 % 0x20, c1 % 0x20, list[..]);
      } else {
        fields := DecodeFields(format, code);
      }
    }

    /** op_parse; a refused code leaves everything as it was. */
    method OpParse(code: Code) returns (ret: int)
      requires Valid()
      modifies this`fields, this`optype, list
      ensures ret == 0 <==> Parse(code).Some?
      ensures ret == 0 ==> Parsed(optype, fields) == Parse(code).value
      ensures ret != 0 ==> ret == -1 && optype == old(optype) && fields == old(fields) && list[..] == old(list[..])
    {
      var found;
      if code.c0 / 0x20 % 0x40 == 0x3F && code.c1 % 2 == 0 {
        found := ExtendRow(code.c1 / 0x20 % 0x40, code.c0, code.c1);
      } else {
        found := BaseRow(code.c0 / 0x20 % 0x40, code.c0, code.c1);
      }
      hide ExtendRow, BaseRow, DecodeFields;
      if found.None? { return -1; }
      optype := found.value;
      OpDecode(optype.formatId, code);
      return 0;
    }
  }

  lemma ThreeMore(z: seq<nat>, t2: nat, n: nat)
    requires |z| == LIST_SIZE && n + 3 <= LIST_BITS
    ensures Marked(z, t2, n + 3) ==
            Marked(z, t2, n)[LIST12[n] := BitOf(t2, n)][LIST12[n + 1] := BitOf(t2, n + 1)]
              [LIST12[n + 2] := BitOf(t2, n + 2)]
  {
    assert Marked(z, t2, n + 1) == Marked(z, t2, n)[LIST12[n] := BitOf(t2, n)];
    assert Marked(z, t2, n + 2) == Marked(z, t2, n + 1)[LIST12[n + 1] := BitOf(t2, n + 1)];
  }

  lemma TwoMore(z: seq<nat>, t2: nat, n: nat)
    requires |z| == LIST_SIZE && n + 2 <= LIST_BITS
    ensures Marked(z, t2, n + 2) == Marked(z, t2, n)[LIST12[n] := BitOf(t2, n)][LIST12[n + 1] := BitOf(t2, n + 1)]
    ensures Marked(z, t2, 0) == z
  {
    assert Marked(z, t2, n + 1) == Marked(z, t2, n)[LIST12[n] := BitOf(t2, n)];
  }
}
