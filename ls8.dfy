/**
 * The semantics of the LS-8 CPU of ls8/cpu.py, written as functions on a
 * machine value.  Every handler of the class `CPU` has a function here that
 * gives the machine after the handler runs, or the machine at the point where
 * the handler raised and the reason why.  The class in cpu.dfy is proved to
 * do exactly what these functions say, and properties.dfy proves what the
 * instruction set promises about them.
 */
module Ls8 {

  // Opcode bytes (the binary literals at the top of ls8/cpu.py).
  const HLT: int := 0x01   // 0b00000001
  const LDI: int := 0x82   // 0b10000010
  const ST: int := 0x84    // 0b10000100
  const PRN: int := 0x47   // 0b01000111
  const MUL: int := 0xA2   // 0b10100010
  const ADD: int := 0xA0   // 0b10100000
  const POP: int := 0x46   // 0b01000110
  const PUSH: int := 0x45  // 0b01000101
  const CALL: int := 0x50  // 0b01010000
  const RET: int := 0x11   // 0b00010001

  const REG_COUNT: int := 8
  const RAM_SIZE: int := 256
  /** Register 7 is the stack pointer. */
  const SP: int := 7
  /** The stack pointer's value after construction; the stack grows down from here. */
  const SP_INIT: int := 0xF4

  datatype Option<T> = None | Some(value: T)

  /** The bound methods that the dispatch table maps opcodes to. */
  datatype Handler = Hlt | Ldi | St | Prn | Mul | Add | Pop | Push | Call | Ret

  /** What stops execution short of HLT: the exceptions the Python code raises. */
  datatype Fault =
    | IllegalOpcode(opcode: int)          // KeyError from the dispatch table
    | OutOfBounds(address: int)           // IndexError on `ram`
    | InvalidRegister(index: int)         // IndexError on `reg`
    | UnsupportedAluOperation(op: string) // the exception raised by `alu`

  datatype Result<T> = Ok(value: T) | Err(fault: Fault)

  /**
   * The whole state of a CPU object: the register file, the memory, the
   * program counter, what PRN has printed so far (oldest first) and whether
   * HLT has ended the run.  Registers and memory cells hold Python integers,
   * which are unbounded and never wrap.
   */
  datatype Machine = Machine(reg: seq<int>, ram: seq<int>, pc: int, out: seq<int>, halted: bool)

  /** The list lengths fixed at construction, which no handler changes. */
  predicate Valid(m: Machine) {
    |m.reg| == REG_COUNT && |m.ram| == RAM_SIZE
  }

  predicate InRam(address: int) { 0 <= address < RAM_SIZE }

  predicate IsReg(index: int) { 0 <= index < REG_COUNT }

  /** How a handler, a step or a run ends: normally, or raising a fault in the given state. */
  datatype Exec = Normal(m: Machine) | Raised(m: Machine, fault: Fault)

  /** The outcome of a state and an optional fault, as a method of the class reports them. */
  function Outcome(m: Machine, fault: Option<Fault>): Exec {
    match fault
    case None => Normal(m)
    case Some(f) => Raised(m, f)
  }

  function Opcode(h: Handler): int {
    match h
    case Hlt => HLT
    case Ldi => LDI
    case St => ST
    case Prn => PRN
    case Mul => MUL
    case Add => ADD
    case Pop => POP
    case Push => PUSH
    case Call => CALL
    case Ret => RET
  }

  /** The dispatch table built once by the constructor. */
  function BranchTable(): map<int, Handler> {
    map[HLT := Hlt, LDI := Ldi, ST := St, PRN := Prn, MUL := Mul,
        ADD := Add, POP := Pop, PUSH := Push, CALL := Call, RET := Ret]
  }

  /** A freshly constructed CPU. */
  function Init(): (m: Machine)
    ensures Valid(m)
    ensures forall i | 0 <= i < REG_COUNT :: m.reg[i] == (if i == SP then SP_INIT else 0)
    ensures forall a | 0 <= a < RAM_SIZE :: m.ram[a] == 0
    ensures m.pc == 0 && m.out == [] && !m.halted
  {
    Machine(seq(REG_COUNT, i => 0)[SP := SP_INIT], seq(RAM_SIZE, a => 0), 0, [], false)
  }

  /** `ram_read(mar)`: the cell at `mar`, or the IndexError of an address outside memory. */
  function RamRead(m: Machine, mar: int): (r: Result<int>)
    requires Valid(m)
    ensures r.Ok? <==> InRam(mar)
    ensures r.Ok? ==> r.value == m.ram[mar]
    ensures r.Err? ==> r.fault == OutOfBounds(mar)
  {
    if InRam(mar) then Ok(m.ram[mar]) else Err(OutOfBounds(mar))
  }

  /**
   * The register named by the operand byte at `pc + k`: first the memory read
   * `ram_read(PC + k)`, then the index into `reg`.
   */
  function RegOperand(m: Machine, k: int): (r: Result<int>)
    requires Valid(m)
    ensures r.Ok? <==> InRam(m.pc + k) && IsReg(m.ram[m.pc + k])
    ensures r.Ok? ==> r.value == m.ram[m.pc + k]
    ensures r.Err? && !InRam(m.pc + k) ==> r.fault == OutOfBounds(m.pc + k)
    ensures r.Err? && InRam(m.pc + k) ==> r.fault == InvalidRegister(m.ram[m.pc + k])
  {
    if !InRam(m.pc + k) then Err(OutOfBounds(m.pc + k))
    else if !IsReg(m.ram[m.pc + k]) then Err(InvalidRegister(m.ram[m.pc + k]))
    else Ok(m.ram[m.pc + k])
  }

  /** `hlt`: the process exits; here the run is marked as over and nothing else changes. */
  function HltEffect(m: Machine): (r: Exec)
    requires Valid(m)
    ensures Valid(r.m)
    ensures r.Normal? && r.m.halted && r.m.(halted := m.halted) == m
  {
    Normal(m.(halted := true))
  }

  /**
   * `ldi`: the right-hand side `ram_read(PC+2)` is evaluated before the target
   * register `ram_read(PC+1)`; then PC moves over the two operands.
   */
  function LdiEffect(m: Machine): (r: Exec)
    requires Valid(m)
    ensures Valid(r.m)
    ensures r.Normal? <==> InRam(m.pc + 2) && RegOperand(m, 1).Ok?
    ensures !InRam(m.pc + 2) ==> r == Raised(m, OutOfBounds(m.pc + 2))
    ensures r.Raised? ==> r.m == m
    ensures r.Normal? ==> r.m.reg[m.ram[m.pc + 1]] == m.ram[m.pc + 2] && r.m.pc == m.pc + 2
  {
    if !InRam(m.pc + 2) then Raised(m, OutOfBounds(m.pc + 2))
    else match RegOperand(m, 1)
      case Err(f) => Raised(m, f)
      case Ok(a) => Normal(m.(reg := m.reg[a := m.ram[m.pc + 2]], pc := m.pc + 2))
  }

  /**
   * `st`: calls `ram_write(reg[op1], reg[op2])`, and `ram_write(mdr, mar)`
   * stores `mdr` at `mar`, so the register named SECOND holds the address
   * and the register named first the value stored.
   */
  function StEffect(m: Machine): (r: Exec)
    requires Valid(m)
    ensures Valid(r.m)
    ensures r.Normal? <==>
              RegOperand(m, 1).Ok? && RegOperand(m, 2).Ok? && InRam(m.reg[m.ram[m.pc + 2]])
    ensures RegOperand(m, 1).Err? ==> r == Raised(m, RegOperand(m, 1).fault)
    ensures r.Raised? ==> r.m == m
    ensures r.Normal? ==> r.m.ram[m.reg[m.ram[m.pc + 2]]] == m.reg[m.ram[m.pc + 1]] && r.m.reg == m.reg
  {
    match RegOperand(m, 1)
    case Err(f) => Raised(m, f)
    case Ok(a) =>
      match RegOperand(m, 2)
      case Err(f) => Raised(m, f)
      case Ok(b) =>
        if !InRam(m.reg[b]) then Raised(m, OutOfBounds(m.reg[b]))
        else Normal(m.(ram := m.ram[m.reg[b] := m.reg[a]], pc := m.pc + 2))
  }

  /** `prn`: the register named by the operand is printed (appended to `out`). */
  function PrnEffect(m: Machine): (r: Exec)
    requires Valid(m)
    ensures Valid(r.m)
    ensures r.Normal? <==> RegOperand(m, 1).Ok?
    ensures r.Raised? ==> r == Raised(m, RegOperand(m, 1).fault)
    ensures r.Normal? ==> r.m.out == m.out + [m.reg[m.ram[m.pc + 1]]]
  {
    match RegOperand(m, 1)
    case Err(f) => Raised(m, f)
    case Ok(a) => Normal(m.(out := m.out + [m.reg[a]], pc := m.pc + 1))
  }

  /**
   * The shape shared by `mul` and `add`: `reg[op1] = reg[op1] <op> reg[op2]`,
   * with the first operand resolved before the second.
   */
  function ArithEffect(m: Machine, mul: bool): (r: Exec)
    requires Valid(m)
    ensures Valid(r.m)
    ensures r.Normal? <==> RegOperand(m, 1).Ok? && RegOperand(m, 2).Ok?
    ensures RegOperand(m, 1).Err? ==> r == Raised(m, RegOperand(m, 1).fault)
    ensures r.Raised? ==> r.m == m
  {
    match RegOperand(m, 1)
    case Err(f) => Raised(m, f)
    case Ok(a) =>
      match RegOperand(m, 2)
      case Err(f) => Raised(m, f)
      case Ok(b) =>
        var v := if mul then m.reg[a] * m.reg[b] else m.reg[a] + m.reg[b];
        Normal(m.(reg := m.reg[a := v], pc := m.pc + 2))
  }

  /** `mul`: an unbounded product; nothing masks it to a byte. */
  function MulEffect(m: Machine): (r: Exec)
    requires Valid(m)
    ensures Valid(r.m)
    ensures RegOperand(m, 1).Ok? && RegOperand(m, 2).Ok? ==>
              var a, b := RegOperand(m, 1).value, RegOperand(m, 2).value;
              r.Normal? && r.m.reg[a] == m.reg[a] * m.reg[b]
  {
    ArithEffect(m, true)
  }

  /** `add`: an unbounded sum; nothing masks it to a byte. */
  function AddEffect(m: Machine): (r: Exec)
    requires Valid(m)
    ensures Valid(r.m)
    ensures RegOperand(m, 1).Ok? && RegOperand(m, 2).Ok? ==>
              var a, b := RegOperand(m, 1).value, RegOperand(m, 2).value;
              r.Normal? && r.m.reg[a] == m.reg[a] + m.reg[b]
  {
    ArithEffect(m, false)
  }

  /**
   * `pop`: the right-hand side `ram_read(reg[7])` is read first, then stored
   * into the register named by the operand; only then is `reg[7]` increased,
   * so `POP 7` leaves the popped value plus one in the stack pointer.
   */
  function PopEffect(m: Machine): (r: Exec)
    requires Valid(m)
    ensures Valid(r.m)
    ensures r.Normal? <==> InRam(m.reg[SP]) && RegOperand(m, 1).Ok?
    ensures !InRam(m.reg[SP]) ==> r == Raised(m, OutOfBounds(m.reg[SP]))
    ensures r.Raised? ==> r.m == m
  {
    var sp := m.reg[SP];
    if !InRam(sp) then Raised(m, OutOfBounds(sp))
    else match RegOperand(m, 1)
      case Err(f) => Raised(m, f)
      case Ok(a) =>
        var reg1 := m.reg[a := m.ram[sp]];
        Normal(m.(reg := reg1[SP := reg1[SP] + 1], pc := m.pc + 1))
  }

  /**
   * `push`: `reg[7]` is decreased first, and stays decreased if the rest
   * raises; then the register named by the operand is stored at the new top.
   */
  function PushEffect(m: Machine): (r: Exec)
    requires Valid(m)
    ensures Valid(r.m)
    ensures r.Normal? <==> RegOperand(m, 1).Ok? && InRam(m.reg[SP] - 1)
    ensures r.m.reg == m.reg[SP := m.reg[SP] - 1]
    ensures r.Raised? ==> r.m == m.(reg := m.reg[SP := m.reg[SP] - 1])
  {
    var m1 := m.(reg := m.reg[SP := m.reg[SP] - 1]);
    match RegOperand(m1, 1)
    case Err(f) => Raised(m1, f)
    case Ok(a) =>
      var sp := m1.reg[SP];
      if !InRam(sp) then Raised(m1, OutOfBounds(sp))
      else Normal(m1.(ram := m1.ram[sp := m1.reg[a]], pc := m1.pc + 1))
  }

  /**
   * `call`: `reg[7]` is decreased, the return address `PC + 2` is stored at
   * the new top, and only then is the operand read (from the updated memory)
   * and PC set to the register it names.
   */
  function CallEffect(m: Machine): (r: Exec)
    requires Valid(m)
    ensures Valid(r.m)
    ensures r.m.reg == m.reg[SP := m.reg[SP] - 1]
    ensures !InRam(m.reg[SP] - 1) ==> r == Raised(m.(reg := r.m.reg), OutOfBounds(m.reg[SP] - 1))
    ensures InRam(m.reg[SP] - 1) ==> r.m.ram == m.ram[m.reg[SP] - 1 := m.pc + 2]
  {
    var m1 := m.(reg := m.reg[SP := m.reg[SP] - 1]);
    var sp := m1.reg[SP];
    if !InRam(sp) then Raised(m1, OutOfBounds(sp))
    else
      var m2 := m1.(ram := m1.ram[sp := m.pc + 2]);
      match RegOperand(m2, 1)
      case Err(f) => Raised(m2, f)
      case Ok(a) => Normal(m2.(pc := m2.reg[a]))
  }

  /** `ret`: PC is set to the cell at the top of the stack, then `reg[7]` is increased. */
  function RetEffect(m: Machine): (r: Exec)
    requires Valid(m)
    ensures Valid(r.m)
    ensures r.Normal? <==> InRam(m.reg[SP])
    ensures r.Raised? ==> r == Raised(m, OutOfBounds(m.reg[SP]))
    ensures r.Normal? ==> r.m.pc == m.ram[m.reg[SP]] && r.m.reg == m.reg[SP := m.reg[SP] + 1]
  {
    var sp := m.reg[SP];
    if !InRam(sp) then Raised(m, OutOfBounds(sp))
    else Normal(m.(pc := m.ram[sp], reg := m.reg[SP := sp + 1]))
  }

  /** Calling the handler that the dispatch table gave. */
  function Handle(h: Handler, m: Machine): (r: Exec)
    requires Valid(m)
    ensures Valid(r.m)
    ensures r.m.halted <==> m.halted || h == Hlt
    ensures r.Raised? ==> !r.fault.IllegalOpcode?
    ensures r.m.out == m.out || (h == Prn && r.Normal? && |r.m.out| == |m.out| + 1 && m.out <= r.m.out)
  {
    match h
    case Hlt => HltEffect(m)
    case Ldi => LdiEffect(m)
    case St => StEffect(m)
    case Prn => PrnEffect(m)
    case Mul => MulEffect(m)
    case Add => AddEffect(m)
    case Pop => PopEffect(m)
    case Push => PushEffect(m)
    case Call => CallEffect(m)
    case Ret => RetEffect(m)
  }

  /**
   * One turn of the loop in `run`: fetch the opcode at PC, dispatch it, and
   * add 1 to PC unless the opcode is CALL or RET.  After HLT nothing is added:
   * in Python `exit()` never returns to the loop.
   */
  function Step(m: Machine): (r: Exec)
    requires Valid(m)
    ensures Valid(r.m)
    ensures r.m.halted <==> m.halted || (InRam(m.pc) && m.ram[m.pc] == HLT)
    ensures r.Raised? && r.fault.IllegalOpcode? <==> InRam(m.pc) && m.ram[m.pc] !in BranchTable()
    ensures m.out <= r.m.out && |r.m.out| <= |m.out| + 1
    ensures |r.m.out| == |m.out| + 1 <==> r.Normal? && InRam(m.pc) && m.ram[m.pc] == PRN
  {
    if !InRam(m.pc) then Raised(m, OutOfBounds(m.pc))
    else
      var ir := m.ram[m.pc];
      if ir !in BranchTable() then Raised(m, IllegalOpcode(ir))
      else
        var h := BranchTable()[ir];
        match Handle(h, m)
        case Raised(m1, f) => Raised(m1, f)
        case Normal(m1) =>
          if h == Hlt || ir == CALL || ir == RET then Normal(m1)
          else Normal(m1.(pc := m1.pc + 1))
  }

  /**
   * `run`, with at most `fuel` turns of its loop: it stops when HLT has run,
   * when a handler raises, or when the fuel is spent.
   */
  function Run(m: Machine, fuel: nat): (r: Exec)
    requires Valid(m)
    ensures Valid(r.m)
    decreases fuel, 0
  {
    if m.halted || fuel == 0 then Normal(m)
    else Continue(m, fuel - 1)
  }

  /**
   * One turn of that loop on a running machine, followed by the rest of the
   * run with the fuel that is left; a raised fault ends the run.
   */
  function Continue(m: Machine, fuel: nat): (r: Exec)
    requires Valid(m)
    ensures Valid(r.m)
    decreases fuel, 1
  {
    match Step(m)
    case Raised(m1, f) => Raised(m1, f)
    case Normal(m1) => Run(m1, fuel)
  }

  /**
   * `load`: the program's words go to addresses 0, 1, 2, ... in order; a
   * program longer than memory fills all of it and then raises at address 256.
   */
  function Load(m: Machine, program: seq<int>): (r: Exec)
    requires Valid(m)
    ensures Valid(r.m)
    ensures r.Normal? <==> |program| <= RAM_SIZE
    ensures r.Raised? ==> r.fault == OutOfBounds(RAM_SIZE)
    ensures forall a | 0 <= a < RAM_SIZE ::
              r.m.ram[a] == if a < |program| then program[a] else m.ram[a]
    ensures r.m.reg == m.reg && r.m.pc == m.pc && r.m.out == m.out && r.m.halted == m.halted
  {
    if |program| <= RAM_SIZE then Normal(m.(ram := program + m.ram[|program|..]))
    else Raised(m.(ram := program[..RAM_SIZE]), OutOfBounds(RAM_SIZE))
  }

  /** `alu`: only "ADD" is implemented; any other operation name raises. */
  function Alu(m: Machine, op: string, regA: int, regB: int): (r: Exec)
    requires Valid(m)
    ensures Valid(r.m)
    ensures r.Normal? <==> op == "ADD" && IsReg(regA) && IsReg(regB)
    ensures op != "ADD" ==> r == Raised(m, UnsupportedAluOperation(op))
    ensures r.Normal? ==> r.m == m.(reg := m.reg[regA := m.reg[regA] + m.reg[regB]])
    ensures r.Raised? ==> r.m == m
  {
    if op != "ADD" then Raised(m, UnsupportedAluOperation(op))
    else if !IsReg(regA) then Raised(m, InvalidRegister(regA))
    else if !IsReg(regB) then Raised(m, InvalidRegister(regB))
    else Normal(m.(reg := m.reg[regA := m.reg[regA] + m.reg[regB]]))
  }
}
