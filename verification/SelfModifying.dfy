/**
  A program that overwrites its own first instruction, on the V850E2M decoder: why the condition of
  CacheHazard cannot be dropped.
 */
module SelfModifying {
  import opened Results
  import opened OpTable
  import opened Decode
  import opened CodeCache
  import opened CacheHazard

  /** Memory by even address, and the registers other than r0. */
  datatype Board = Board(mem: map<nat, Half>, r: map<nat, int>)

  function Register(m: Machine<Board>, i: nat): int {
    if i == 0 then m.r0 else if i in m.rest.r then m.rest.r[i] else 0
  }

  function HalfAt(b: Board, a: nat): Half { if a in b.mem then b.mem[a] else 0 }

  /** bus_get_pointer: three halfwords from a mapped address on. */
  function FetchCode(b: Board, pc: nat): Result<Code, int> {
    if pc in b.mem then Result.Ok(Code(HalfAt(b, pc), HalfAt(b, pc + 2), HalfAt(b, pc + 4))) else Err(-1)
  }

  /** ST.H stores the low half of reg2 at reg1 plus the signed displacement. */
  function StoreHalf(f: Fields, m: Machine<Board>): Executed<Board>
    requires f.Type7?
  {
    var disp := if f.disp < 0x4000 then 2 * f.disp else 2 * f.disp - 0x1_0000;
    var addr: nat := (Register(m, f.reg1) + disp) % 0x1_0000_0000;
    if addr !in m.rest.mem then Executed(m, false)
    else Executed(m.(rest := m.rest.(mem := m.rest.mem[addr := Register(m, f.reg2) % 0x1_0000]), pc := m.pc + 4), true)
  }

  /** The three operations the program uses; the others have no entry here. */
  function ExecOp(op: OpCode, f: Fields, m: Machine<Board>): Executed<Board> {
    if op == ST_H_7 && f.Type7? then StoreHalf(f, m)
    else if op == JMP_1 && f.Type1? then Executed(m.(pc := Register(m, f.reg1) % 0x1_0000_0000), true)
    else if op == NOP_1 then Executed(m.(pc := m.pc + 2), true)
    else Executed(m, false)
  }

  predicate Supports(op: OpCode) { op in {ST_H_7, JMP_1, NOP_1} }

  function ClocksOf(op: OpCode): nat { if op == JMP_1 then 4 else 1 }

  const CACHED: nat := 16

  function SlotOf(a: nat): Option<nat> { if a < CACHED then Some(a) else None }

  function Allow(m: Machine<Board>): Checked<Board> { Checked(m, true) }

  function V850Board(): Isa<Board, Code, OpCode, Fields> {
    Isa(CACHED, SlotOf, FetchCode, AsInstruction, Allow, Supports, ClocksOf, ExecOp)
  }

  /** 0: ST.H r0, 0[r0]; 4: JMP [r0]. The store makes the first halfword zero, which is NOP. */
  const PROGRAM: map<nat, Half> := map[0 := 0x760, 2 := 0, 4 := 0x60]

  const START := Machine(0, 0, 0, 0, false, Board(PROGRAM, map[]))

  lemma StoreDecodes(c2: Half)
    ensures AsInstruction(Code(0x760, 0, c2)) == Some(STORE)
  {
    StoreRow();
    hide ListOf, Field, ExtendRow, BaseRows48;
  }

  lemma StoreRow()
    ensures BaseRows48(59, 0x760, 0) == Some(OpType(ST_H_7, Format7))
  {
    assert Pow2(0) == 1 && Pow2(1) == 2;
    assert Field(0, 0, 1) == 0;
    hide Field;
  }

  lemma JumpDecodes(c1: Half, c2: Half)
    ensures AsInstruction(Code(0x60, c1, c2)) == Some(JUMP)
  {
    hide ListOf, Field;
  }

  lemma NopDecodes(c1: Half, c2: Half)
    ensures AsInstruction(Code(0, c1, c2)) == Some(NOP)
  {
    hide ListOf, Field;
  }

  const STORED := Board(PROGRAM[0 := 0], map[])

  const STORE: Instruction<OpCode, Fields> := Instruction(ST_H_7, Type7(59, 0, 0, 0, 0))
  const JUMP: Instruction<OpCode, Fields> := Instruction(JMP_1, Type1(3, 0, 0))
  const NOP: Instruction<OpCode, Fields> := Instruction(NOP_1, Type1(0, 0, 0))

  const STORED_ONCE := Machine(4, 0, 1, 1, false, STORED)
  const JUMPED := Machine(0, 0, 4, 5, false, STORED)

  /** A clock without a cache, from the instruction it decodes. */
  lemma ClockOf(m: Machine<Board>, i: Instruction<OpCode, Fields>)
    requires !m.halted && m.r0 == 0 && Decoded(V850Board(), m) == Some(i) && Supports(i.op)
    ensures PlainStep(V850Board(), m) == Execute(V850Board(), i, m)
  {
    assert m.(r0 := 0) == m;
    hide AsInstruction, ExecOp, Execute, FetchCode;
  }

  /** The store at 0, by the plain core and again by a core that still has it cached. */
  lemma StoreClock(m: Machine<Board>)
    requires m.pc == 0 && m.r0 == 0 && !m.halted && 0 in m.rest.mem
    ensures Execute(V850Board(), STORE, m) ==
            Outcome(Machine(4, 0, 1, (m.elaps + 1) % WRAP64, false, m.rest.(mem := m.rest.mem[0 := 0])), Done,
                    Some(STORE))
  {
    hide AsInstruction, FetchCode;
  }

  lemma JumpClock(m: Machine<Board>)
    requires m.r0 == 0 && !m.halted
    ensures Execute(V850Board(), JUMP, m) ==
            Outcome(Machine(0, 0, 4, (m.elaps + 4) % WRAP64, false, m.rest), Done, Some(JUMP))
  {
    hide AsInstruction, FetchCode;
  }

  lemma NopClock(m: Machine<Board>)
    ensures Execute(V850Board(), NOP, m).m.pc == m.pc + 2
  {
    hide AsInstruction, FetchCode;
  }

  lemma ClocksOfProgram()
    ensures PlainStep(V850Board(), START) == Outcome(STORED_ONCE, Done, Some(STORE))
    ensures PlainStep(V850Board(), STORED_ONCE) == Outcome(JUMPED, Done, Some(JUMP))
    ensures PlainStep(V850Board(), JUMPED).m.pc == 2
    ensures HitStep(V850Board(), JUMPED, STORE).m.pc == 4
  {
    Fetches();
    hide AsInstruction, ExecOp, FetchCode, Execute, Decoded, PlainStep;
    ClockOf(START, STORE);
    ClockOf(STORED_ONCE, JUMP);
    ClockOf(JUMPED, NOP);
    StoreClock(START);
    JumpClock(STORED_ONCE);
    NopClock(JUMPED);
    StoreClock(JUMPED);
    assert JUMPED.(r0 := 0) == JUMPED;
  }

  lemma Fetches()
    ensures Decoded(V850Board(), START) == Some(STORE)
    ensures Decoded(V850Board(), STORED_ONCE) == Some(JUMP)
    ensures Decoded(V850Board(), JUMPED) == Some(NOP)
  {
    hide AsInstruction, ExecOp;
    StoreDecodes(0x60);
    JumpDecodes(0, 0);
    NopDecodes(0, 0x60);
  }

  /** Three clocks with an environment that does nothing. */
  lemma ThreeClocks<S(!new), C(!new), O(!new), D(!new)>(isa: Isa<S, C, O, D>, m: Machine<S>, cache: seq<Entry<O, D>>,
        id: Machine<S> -> Machine<S>)
    requires forall x: Machine<S> :: id(x) == x
    ensures var one := PlainStep(isa, m);
            var two := PlainStep(isa, one.m);
            PlainRun(isa, m, [id, id, id]).m == PlainStep(isa, two.m).m
    ensures var one := CachedStep(isa, m, cache);
            var two := CachedStep(isa, one.outcome.m, one.cache);
            CachedRun(isa, m, cache, [id, id, id]).m == CachedStep(isa, two.outcome.m, two.cache).outcome.m
  {
    hide PlainStep, CachedStep;
    assert [id, id, id][1..] == [id, id] && [id, id][1..] == [id] && [id][1..] == [];
    var p, q := PlainStep(isa, m).m, CachedStep(isa, m, cache);
    assert PlainRun(isa, m, [id, id, id]).m == PlainRun(isa, p, [id, id]).m;
    assert PlainRun(isa, p, [id, id]).m == PlainRun(isa, PlainStep(isa, p).m, [id]).m;
    assert CachedRun(isa, m, cache, [id, id, id]).m == CachedRun(isa, q.outcome.m, q.cache, [id, id]).m;
    var r := CachedStep(isa, q.outcome.m, q.cache);
    assert CachedRun(isa, q.outcome.m, q.cache, [id, id]).m == CachedRun(isa, r.outcome.m, r.cache, [id]).m;
  }

  /** A clock that fills an empty slot. */
  lemma FillsSlot(m: Machine<Board>, cache: seq<Entry<OpCode, Fields>>, i: Instruction<OpCode, Fields>)
    requires |cache| == CACHED && !m.halted && m.pc < CACHED && cache[m.pc].op.None?
    requires PlainStep(V850Board(), m).ret.Done? && PlainStep(V850Board(), m).used == Some(i)
    ensures CachedStep(V850Board(), m, cache) ==
            Cached(PlainStep(V850Board(), m), cache[m.pc := Entry(i.fields, Some(i.op))])
  {
    UsedIsDecoded(V850Board(), m);
    assert m.r0 == 0 ==> m.(r0 := 0) == m;
    hide PlainStep, AsInstruction, ExecOp;
  }

  /** The cache after the store, and after the jump. */
  function Filled(blank: Fields): seq<Entry<OpCode, Fields>> {
    EmptyCache(CACHED, blank)[0 := Entry(STORE.fields, Some(ST_H_7))]
  }

  function FilledTwice(blank: Fields): seq<Entry<OpCode, Fields>> {
    Filled(blank)[4 := Entry(JUMP.fields, Some(JMP_1))]
  }

  lemma FirstClock(blank: Fields)
    ensures CachedStep(V850Board(), START, EmptyCache(CACHED, blank)) ==
            Cached(PlainStep(V850Board(), START), Filled(blank))
  {
    ClocksOfProgram();
    hide PlainStep, HitStep, CachedStep, V850Board, Parse;
    FillsSlot(START, EmptyCache(CACHED, blank), STORE);
  }

  lemma SecondClock(blank: Fields)
    ensures CachedStep(V850Board(), STORED_ONCE, Filled(blank)) ==
            Cached(PlainStep(V850Board(), STORED_ONCE), FilledTwice(blank))
  {
    ClocksOfProgram();
    hide PlainStep, HitStep, CachedStep, V850Board, Parse;
    FillsSlot(STORED_ONCE, Filled(blank), JUMP);
  }

  lemma ThirdClock(blank: Fields)
    ensures CachedStep(V850Board(), JUMPED, FilledTwice(blank)).outcome == HitStep(V850Board(), JUMPED, STORE)
  {
    hide PlainStep, HitStep, CachedStep, V850Board, Parse;
    Hits(JUMPED, FilledTwice(blank), STORE);
  }

  lemma Hits(m: Machine<Board>, cache: seq<Entry<OpCode, Fields>>, i: Instruction<OpCode, Fields>)
    requires |cache| == CACHED && !m.halted && m.pc < CACHED && cache[m.pc] == Entry(i.fields, Some(i.op))
    ensures CachedStep(V850Board(), m, cache).outcome == HitStep(V850Board(), m, i)
  {
    hide PlainStep, HitStep, AsInstruction, ExecOp, FetchCode;
  }

  /**
    Three clocks of this program from reset: the plain core runs the NOP it wrote and stands at address 2,
    the cached core runs the old store again and stands at address 4.
   */
  lemma ProgramDiverges(blank: Fields)
    ensures var id := (m: Machine<Board>) => m;
            var env := [id, id, id];
            PlainRun(V850Board(), START, env).m.pc == 2
            && CachedRun(V850Board(), START, EmptyCache(CACHED, blank), env).m.pc == 4
  {
    var cache := EmptyCache(CACHED, blank);
    ClocksOfProgram();
    FirstClock(blank);
    SecondClock(blank);
    ThirdClock(blank);
    ThreeClocks(V850Board(), START, cache, (m: Machine<Board>) => m);
    hide *;
  }

  lemma BoardIsV850()
    ensures SlotsDistinct(V850Board()) && ParsesV850(V850Board())
  {
    hide AsInstruction;
  }
}
