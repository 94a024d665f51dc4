/**
 * The class `CPU` of ls8/cpu.py.  Its register file and memory are arrays
 * that the handlers update in place; each method is proved to leave the
 * object in exactly the state that the matching function of module `Ls8`
 * gives, and to report the same fault.
 */
module Ls8Cpu {
  import opened Ls8

  class CPU {
    const reg: array<int>
    const ram: array<int>
    var PC: int
    /** The opcode-to-handler table, built once by the constructor and never changed. */
    const branchtable: map<int, Handler>
    /** What PRN has printed, oldest first. */
    var out: seq<int>
    /** Set by HLT, where the Python code exits the process. */
    var halted: bool

    ghost predicate Valid() {
      reg.Length == REG_COUNT && ram.Length == RAM_SIZE && reg != ram &&
      branchtable == BranchTable()
    }

    /** The object's state as a value of the semantics. */
    ghost function View(): (m: Machine)
      reads this, reg, ram
      requires Valid()
      ensures Ls8.Valid(m)
    {
      Machine(reg[..], ram[..], PC, out, halted)
    }

    constructor ()
      ensures Valid() && View() == Init()
      ensures fresh(reg) && fresh(ram)
    {
      var registers := new int[REG_COUNT](i => 0);
      registers[SP] := SP_INIT;
      reg := registers;
      ram := new int[RAM_SIZE](a => 0);
      PC := 0;
      branchtable := map[HLT := Handler.Hlt, LDI := Handler.Ldi, ST := Handler.St,
                         PRN := Handler.Prn, MUL := Handler.Mul, ADD := Handler.Add,
                         POP := Handler.Pop, PUSH := Handler.Push, CALL := Handler.Call,
                         RET := Handler.Ret];
      out := [];
      halted := false;
      new;
      assert reg[..] == Init().reg;
      assert ram[..] == Init().ram;
    }

    /** `ram_read`: the cell at `mar`, or OutOfBounds; nothing changes. */
    method RamRead(mar: int) returns (r: Result<int>)
      requires Valid()
      ensures r == Ls8.RamRead(View(), mar)
    {
      if !InRam(mar) {
        return Err(OutOfBounds(mar));
      }
      return Ok(ram[mar]);
    }

    /** `ram_write`: stores `mdr` at address `mar`. */
    method RamWrite(mdr: int, mar: int) returns (fault: Option<Fault>)
      requires Valid()
      modifies ram
      ensures fault == if InRam(mar) then None else Some(OutOfBounds(mar))
      ensures ram[..] == if InRam(mar) then old(ram[..])[mar := mdr] else old(ram[..])
    {
      if !InRam(mar) {
        return Some(OutOfBounds(mar));
      }
      ram[mar] := mdr;
      return None;
    }

    /** `self.reg[self.ram_read(self.PC + k)]`: the register index in the operand byte at PC + k. */
    method RegOperand(k: int) returns (r: Result<int>)
      requires Valid()
      ensures r == Ls8.RegOperand(View(), k)
    {
      r := RamRead(PC + k);
      if r.Ok? && !IsReg(r.value) {
        r := Err(InvalidRegister(r.value));
      }
    }

    method Hlt() returns (fault: Option<Fault>)
      requires Valid()
      modifies this`halted
      ensures Outcome(View(), fault) == HltEffect(old(View()))
    {
      halted := true;
      return None;
    }

    method Ldi() returns (fault: Option<Fault>)
      requires Valid()
      modifies this`PC, reg
      ensures Outcome(View(), fault) == LdiEffect(old(View()))
    {
      var immediate := RamRead(PC + 2);
      if immediate.Err? {
        return Some(immediate.fault);
      }
      var a := RegOperand(1);
      if a.Err? {
        return Some(a.fault);
      }
      reg[a.value] := immediate.value;
      PC := PC + 2;
      return None;
    }

    method St() returns (fault: Option<Fault>)
      requires Valid()
      modifies this`PC, ram
      ensures Outcome(View(), fault) == StEffect(old(View()))
    {
      var a := RegOperand(1);
      if a.Err? {
        return Some(a.fault);
      }
      var b := RegOperand(2);
      if b.Err? {
        return Some(b.fault);
      }
      fault := RamWrite(reg[a.value], reg[b.value]);
      if fault.None? {
        PC := PC + 2;
      }
    }

    method Prn() returns (fault: Option<Fault>)
      requires Valid()
      modifies this`PC, this`out
      ensures Outcome(View(), fault) == PrnEffect(old(View()))
    {
      var a := RegOperand(1);
      if a.Err? {
        return Some(a.fault);
      }
      out := out + [reg[a.value]];
      PC := PC + 1;
      return None;
    }

    method Mul() returns (fault: Option<Fault>)
      requires Valid()
      modifies this`PC, reg
      ensures Outcome(View(), fault) == MulEffect(old(View()))
    {
      var a := RegOperand(1);
      if a.Err? {
        return Some(a.fault);
      }
      var b := RegOperand(2);
      if b.Err? {
        return Some(b.fault);
      }
      reg[a.value] := reg[a.value] * reg[b.value];
      PC := PC + 2;
      return None;
    }

    method Add() returns (fault: Option<Fault>)
      requires Valid()
      modifies this`PC, reg
      ensures Outcome(View(), fault) == AddEffect(old(View()))
    {
      var a := RegOperand(1);
      if a.Err? {
        return Some(a.fault);
      }
      var b := RegOperand(2);
      if b.Err? {
        return Some(b.fault);
      }
      reg[a.value] := reg[a.value] + reg[b.value];
      PC := PC + 2;
      return None;
    }

    method Pop() returns (fault: Option<Fault>)
      requires Valid()
      modifies this`PC, reg
      ensures Outcome(View(), fault) == PopEffect(old(View()))
    {
      var top := RamRead(reg[SP]);
      if top.Err? {
        return Some(top.fault);
      }
      var a := RegOperand(1);
      if a.Err? {
        return Some(a.fault);
      }
      reg[a.value] := top.value;
      reg[SP] := reg[SP] + 1;
      PC := PC + 1;
      return None;
    }

    method Push() returns (fault: Option<Fault>)
      requires Valid()
      modifies this`PC, reg, ram
      ensures Outcome(View(), fault) == PushEffect(old(View()))
    {
      reg[SP] := reg[SP] - 1;
      var a := RegOperand(1);
      if a.Err? {
        return Some(a.fault);
      }
      fault := RamWrite(reg[a.value], reg[SP]);
      if fault.None? {
        PC := PC + 1;
      }
    }

    method Call() returns (fault: Option<Fault>)
      requires Valid()
      modifies this`PC, reg, ram
      ensures Outcome(View(), fault) == CallEffect(old(View()))
    {
      // push the address of the next instruction
      reg[SP] := reg[SP] - 1;
      fault := RamWrite(PC + 2, reg[SP]);
      if fault.Some? {
        return;
      }
      // jump to the address held in the operand's register
      var a := RegOperand(1);
      if a.Err? {
        return Some(a.fault);
      }
      PC := reg[a.value];
    }

    method Ret() returns (fault: Option<Fault>)
      requires Valid()
      modifies this`PC, reg
      ensures Outcome(View(), fault) == RetEffect(old(View()))
    {
      var top := RamRead(reg[SP]);
      if top.Err? {
        return Some(top.fault);
      }
      PC := top.value;
      reg[SP] := reg[SP] + 1;
      return None;
    }

    /** `self.branchtable[ir]()`: runs the handler the table gave. */
    method Dispatch(h: Handler) returns (fault: Option<Fault>)
      requires Valid()
      modifies this, reg, ram
      ensures Outcome(View(), fault) == Handle(h, old(View()))
    {
      match h
      case Hlt => fault := Hlt();
      case Ldi => fault := Ldi();
      case St => fault := St();
      case Prn => fault := Prn();
      case Mul => fault := Mul();
      case Add => fault := Add();
      case Pop => fault := Pop();
      case Push => fault := Push();
      case Call => fault := Call();
      case Ret => fault := Ret();
    }

    /** One turn of the loop in `run`: fetch, dispatch, then advance PC unless CALL or RET. */
    method Step() returns (fault: Option<Fault>)
      requires Valid()
      modifies this, reg, ram
      ensures Outcome(View(), fault) == Ls8.Step(old(View()))
    {
      var ir := RamRead(PC);
      if ir.Err? {
        return Some(ir.fault);
      }
      if ir.value !in branchtable {
        return Some(IllegalOpcode(ir.value));
      }
      var h := branchtable[ir.value];
      fault := Dispatch(h);
      if fault.Some? || h == Handler.Hlt {
        return;
      }
      if ir.value != CALL && ir.value != RET {
        PC := PC + 1;
      }
    }

    /** `run`, for at most `fuel` instructions: until HLT, a fault, or the fuel is spent. */
    method Run(fuel: nat) returns (fault: Option<Fault>)
      requires Valid()
      modifies this, reg, ram
      ensures Outcome(View(), fault) == Ls8.Run(old(View()), fuel)
    {
      var n := fuel;
      while !halted && n > 0
        invariant Ls8.Run(View(), n) == Ls8.Run(old(View()), fuel)
        decreases n
      {
        fault := Step();
        if fault.Some? {
          return;
        }
        n := n - 1;
      }
      return None;
    }

    /** `load`: writes the program into memory from address 0 on. */
    method Load(program: seq<int>) returns (fault: Option<Fault>)
      requires Valid()
      modifies ram
      ensures Outcome(View(), fault) == Ls8.Load(old(View()), program)
    {
      ghost var loaded := Ls8.Load(View(), program);
      var address := 0;
      for i := 0 to |program|
        invariant address == i
        invariant i <= RAM_SIZE
        invariant forall a | 0 <= a < RAM_SIZE :: ram[a] == if a < i then program[a] else old(ram[a])
      {
        if !InRam(address) {
          assert ram[..] == loaded.m.ram;
          return Some(OutOfBounds(address));
        }
        ram[address] := program[i];
        address := address + 1;
      }
      assert ram[..] == loaded.m.ram;
      return None;
    }

    /** `alu`: applies the named operation to two registers; only "ADD" exists. */
    method Alu(op: string, regA: int, regB: int) returns (fault: Option<Fault>)
      requires Valid()
      modifies reg
      ensures Outcome(View(), fault) == Ls8.Alu(old(View()), op, regA, regB)
    {
      if op == "ADD" {
        if !IsReg(regA) {
          return Some(InvalidRegister(regA));
        }
        if !IsReg(regB) {
          return Some(InvalidRegister(regB));
        }
        reg[regA] := reg[regA] + reg[regB];
        return None;
      } else {
        return Some(UnsupportedAluOperation(op));
      }
    }
  }
}
