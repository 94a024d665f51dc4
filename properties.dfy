/**
 * What the LS-8 instruction set promises, proved about the semantics in
 * module `Ls8` (and so, through the contracts of cpu.dfy, about the class).
 */
module Ls8Properties {
  import opened Ls8

  /** The machine is about to fetch opcode `op`. */
  predicate At(m: Machine, op: int)
    requires Valid(m)
  {
    InRam(m.pc) && m.ram[m.pc] == op
  }

  // ---------------------------------------------------------------------------
  // The dispatch table

  /** The table holds exactly the ten opcodes, each mapped to its own handler. */
  lemma BranchTableDecodes()
    ensures BranchTable().Keys == {HLT, LDI, ST, PRN, MUL, ADD, POP, PUSH, CALL, RET}
    ensures forall h: Handler :: Opcode(h) in BranchTable() && BranchTable()[Opcode(h)] == h
    ensures forall op | op in BranchTable() :: Opcode(BranchTable()[op]) == op
  {
    forall h: Handler ensures Opcode(h) in BranchTable() && BranchTable()[Opcode(h)] == h {
      match h
      case Hlt =>
      case Ldi =>
      case St =>
      case Prn =>
      case Mul =>
      case Add =>
      case Pop =>
      case Push =>
      case Call =>
      case Ret =>
    }
  }

  // ---------------------------------------------------------------------------
  // One step of `run`, instruction by instruction

  /** HLT ends the run where it stands: PC, registers, memory and output stay as they are. */
  lemma StepHlt(m: Machine)
    requires Valid(m) && At(m, HLT)
    ensures Step(m) == Normal(m.(halted := true))
  {
  }

  /** LDI r, v: only register r changes, to v, and PC moves 3 (2 by the handler, 1 by the loop). */
  lemma StepLdi(m: Machine)
    requires Valid(m) && At(m, LDI)
    ensures Step(m).Normal? <==> InRam(m.pc + 2) && IsReg(m.ram[m.pc + 1])
    ensures Step(m).Normal? ==>
              Step(m).m == m.(reg := m.reg[m.ram[m.pc + 1] := m.ram[m.pc + 2]], pc := m.pc + 3)
  {
  }

  /**
   * ST a, b: only the memory cell addressed by register b changes, to the
   * value of register a; PC moves 3.
   */
  lemma StepSt(m: Machine)
    requires Valid(m) && At(m, ST)
    ensures Step(m).Normal? <==>
              InRam(m.pc + 2) && IsReg(m.ram[m.pc + 1]) && IsReg(m.ram[m.pc + 2]) &&
              InRam(m.reg[m.ram[m.pc + 2]])
    ensures Step(m).Normal? ==>
              Step(m).m == m.(ram := m.ram[m.reg[m.ram[m.pc + 2]] := m.reg[m.ram[m.pc + 1]]],
                              pc := m.pc + 3)
  {
  }

  /** PRN r: the value of register r is appended to the output; PC moves 2. */
  lemma StepPrn(m: Machine)
    requires Valid(m) && At(m, PRN)
    ensures Step(m).Normal? <==> InRam(m.pc + 1) && IsReg(m.ram[m.pc + 1])
    ensures Step(m).Normal? ==>
              Step(m).m == m.(out := m.out + [m.reg[m.ram[m.pc + 1]]], pc := m.pc + 2)
  {
  }

  /** ADD a, b: register a becomes the exact sum, with no reduction modulo 256; PC moves 3. */
  lemma StepAdd(m: Machine)
    requires Valid(m) && At(m, ADD)
    ensures Step(m).Normal? <==>
              InRam(m.pc + 2) && IsReg(m.ram[m.pc + 1]) && IsReg(m.ram[m.pc + 2])
    ensures Step(m).Normal? ==>
              var a, b := m.ram[m.pc + 1], m.ram[m.pc + 2];
              Step(m).m == m.(reg := m.reg[a := m.reg[a] + m.reg[b]], pc := m.pc + 3)
  {
  }

  /** MUL a, b: register a becomes the exact product, with no reduction modulo 256; PC moves 3. */
  lemma StepMul(m: Machine)
    requires Valid(m) && At(m, MUL)
    ensures Step(m).Normal? <==>
              InRam(m.pc + 2) && IsReg(m.ram[m.pc + 1]) && IsReg(m.ram[m.pc + 2])
    ensures Step(m).Normal? ==>
              var a, b := m.ram[m.pc + 1], m.ram[m.pc + 2];
              Step(m).m == m.(reg := m.reg[a := m.reg[a] * m.reg[b]], pc := m.pc + 3)
  {
  }

  /** The ADD handler does what `alu("ADD", a, b)` does, and also moves PC. */
  lemma AddAgreesWithAlu(m: Machine)
    requires Valid(m) && At(m, ADD)
    requires InRam(m.pc + 2) && IsReg(m.ram[m.pc + 1]) && IsReg(m.ram[m.pc + 2])
    ensures Alu(m, "ADD", m.ram[m.pc + 1], m.ram[m.pc + 2]).Normal?
    ensures Step(m) == Normal(Alu(m, "ADD", m.ram[m.pc + 1], m.ram[m.pc + 2]).m.(pc := m.pc + 3))
  {
  }

  /**
   * PUSH r: the stack pointer goes down by one and the new top of the stack
   * receives register r (read after the decrement, so PUSH 7 stores the new
   * stack pointer); PC moves 2.
   */
  lemma StepPush(m: Machine)
    requires Valid(m) && At(m, PUSH)
    ensures Step(m).Normal? <==>
              InRam(m.pc + 1) && IsReg(m.ram[m.pc + 1]) && InRam(m.reg[SP] - 1)
    ensures Step(m).Normal? ==>
              var sp, r := m.reg[SP] - 1, m.ram[m.pc + 1];
              Step(m).m == m.(reg := m.reg[SP := sp],
                              ram := m.ram[sp := if r == SP then sp else m.reg[r]],
                              pc := m.pc + 2)
  {
  }

  /**
   * POP r: register r receives the top of the stack, then the stack pointer
   * goes up by one; PC moves 2.
   */
  lemma StepPop(m: Machine)
    requires Valid(m) && At(m, POP)
    ensures Step(m).Normal? <==>
              InRam(m.reg[SP]) && InRam(m.pc + 1) && IsReg(m.ram[m.pc + 1])
    ensures Step(m).Normal? ==>
              var sp, r := m.reg[SP], m.ram[m.pc + 1];
              var top := m.ram[sp];
              Step(m).m == m.(reg := m.reg[r := top][SP := (if r == SP then top else sp) + 1],
                              pc := m.pc + 2)
  {
  }

  /**
   * CALL r: the stack pointer goes down by one, the new top receives the
   * return address PC + 2, and PC becomes register r; the loop adds nothing.
   * The operand is read after the write, so a stack top at PC + 1 makes the
   * return address itself the operand.
   */
  lemma StepCall(m: Machine)
    requires Valid(m) && At(m, CALL)
    ensures var sp := m.reg[SP] - 1;
            Step(m).Normal? <==>
              InRam(sp) && InRam(m.pc + 1) && IsReg(m.ram[sp := m.pc + 2][m.pc + 1])
    ensures Step(m).Normal? ==>
              var sp := m.reg[SP] - 1;
              var reg1, ram1 := m.reg[SP := sp], m.ram[sp := m.pc + 2];
              Step(m).m == m.(reg := reg1, ram := ram1, pc := reg1[ram1[m.pc + 1]])
  {
  }

  /** RET: PC becomes the top of the stack and the stack pointer goes up by one; the loop adds nothing. */
  lemma StepRet(m: Machine)
    requires Valid(m) && At(m, RET)
    ensures Step(m).Normal? <==> InRam(m.reg[SP])
    ensures Step(m).Normal? ==>
              Step(m).m == m.(pc := m.ram[m.reg[SP]], reg := m.reg[SP := m.reg[SP] + 1])
  {
  }

  /**
   * PUSH with the stack pointer already at 0: the push raises OutOfBounds at
   * address -1, and the faulted state keeps the decremented stack pointer,
   * because `push` decreases `reg[7]` before it writes.
   */
  lemma StepPushPastBottom(m: Machine)
    requires Valid(m) && At(m, PUSH)
    requires InRam(m.pc + 1) && IsReg(m.ram[m.pc + 1]) && m.reg[SP] == 0
    ensures Step(m) == Raised(m.(reg := m.reg[SP := -1]), OutOfBounds(-1))
  {
  }

  /** A byte the dispatch table does not know stops the run with IllegalOpcode, changing nothing. */
  lemma StepIllegalOpcode(m: Machine, fuel: nat)
    requires Valid(m) && !m.halted && InRam(m.pc) && m.ram[m.pc] !in BranchTable()
    ensures Step(m) == Raised(m, IllegalOpcode(m.ram[m.pc]))
    ensures fuel > 0 ==> Run(m, fuel) == Raised(m, IllegalOpcode(m.ram[m.pc]))
  {
  }

  /** A PC outside memory stops the run with OutOfBounds before anything is fetched. */
  lemma StepPcOutOfBounds(m: Machine)
    requires Valid(m) && !InRam(m.pc)
    ensures Step(m) == Raised(m, OutOfBounds(m.pc))
  {
  }

  // ---------------------------------------------------------------------------
  // Runs

  /** A halted machine runs no further instruction, however much fuel it gets. */
  lemma RunAfterHalt(m: Machine, fuel: nat)
    requires Valid(m) && m.halted
    ensures Run(m, fuel) == Normal(m)
  {
  }

  /** A run that ends normally may be continued: running a + b steps is running a, then b. */
  lemma {:induction false} RunCompose(m: Machine, a: nat, b: nat)
    requires Valid(m) && Run(m, a).Normal?
    ensures Run(m, a + b) == Run(Run(m, a).m, b)
    decreases a
  {
    if m.halted {
      RunAfterHalt(m, b);
    } else if a > 0 {
      RunCompose(Step(m).m, a - 1, b);
    }
  }

  /** Once HLT has run, more fuel changes nothing: no instruction after HLT is fetched. */
  lemma HaltIsFinal(m: Machine, a: nat, b: nat)
    requires Valid(m) && Run(m, a).Normal? && Run(m, a).m.halted
    requires a <= b
    ensures Run(m, b) == Run(m, a)
  {
    RunCompose(m, a, b - a);
    RunAfterHalt(Run(m, a).m, b - a);
  }

  /** HLT at PC: every run, of any length, ends at once with the machine halted and nothing else changed. */
  lemma HltStops(m: Machine, fuel: nat)
    requires Valid(m) && !m.halted && At(m, HLT)
    ensures Run(m, fuel + 1) == Normal(m.(halted := true))
  {
    StepHlt(m);
    RunAfterHalt(m.(halted := true), fuel);
  }

  /** Output is only ever appended to: what was printed stays printed, in order. */
  lemma {:induction false} RunOutputExtends(m: Machine, fuel: nat)
    requires Valid(m)
    ensures m.out <= Run(m, fuel).m.out
    decreases fuel
  {
    if !m.halted && fuel > 0 && Step(m).Normal? {
      RunOutputExtends(Step(m).m, fuel - 1);
    }
  }

  /** Unfolding one instruction at the front of a run. */
  lemma RunUnfold(m: Machine, fuel: nat)
    requires Valid(m) && !m.halted && Step(m).Normal?
    ensures Run(m, fuel + 1) == Run(Step(m).m, fuel)
  {
  }

  // ---------------------------------------------------------------------------
  // Stack discipline

  /**
   * PUSH r, then any code that runs normally for k steps and reaches a POP r
   * with the stack pointer and the pushed cell as PUSH left them: after the
   * POP, register r and the stack pointer have their values from before the
   * PUSH, PC is past the POP, and everything else is as the code left it.
   * With k == 0 this is PUSH r immediately followed by POP r.
   */
  lemma PushPopRestores(m: Machine, k: nat, m2: Machine)
    requires Valid(m) && !m.halted && At(m, PUSH)
    requires InRam(m.pc + 1) && IsReg(m.ram[m.pc + 1]) && InRam(m.reg[SP] - 1)
    requires var m1 := Step(m).m;
             Run(m1, k) == Normal(m2) && !m2.halted && At(m2, POP) &&
             InRam(m2.pc + 1) && m2.ram[m2.pc + 1] == m.ram[m.pc + 1] &&
             m2.reg[SP] == m1.reg[SP] && m2.ram[m2.reg[SP]] == m1.ram[m1.reg[SP]]
    ensures var r := m.ram[m.pc + 1];
            Run(m, k + 2) ==
              Normal(m2.(reg := m2.reg[r := m.reg[r]][SP := m.reg[SP]], pc := m2.pc + 2))
  {
    StepPush(m);
    var m1 := Step(m).m;
    RunUnfold(m, k + 1);
    RunCompose(m1, k, 1);
    StepPop(m2);
    RunUnfold(m2, 0);
  }

  /**
   * CALL r at address A, then any code that runs normally for k steps and
   * reaches a RET with the stack pointer and the return-address cell as
   * CALL left them: the RET resumes at A + 2 with the stack pointer back at
   * its value before the CALL, and everything else is as the subroutine left
   * it.  With k == 0 the subroutine is a lone RET.
   */
  lemma CallRetLinks(m: Machine, k: nat, m2: Machine)
    requires Valid(m) && !m.halted && At(m, CALL)
    requires var sp := m.reg[SP] - 1;
             InRam(sp) && InRam(m.pc + 1) && IsReg(m.ram[sp := m.pc + 2][m.pc + 1])
    requires var m1 := Step(m).m;
             Run(m1, k) == Normal(m2) && !m2.halted && At(m2, RET) &&
             m2.reg[SP] == m1.reg[SP] && m2.ram[m2.reg[SP]] == m1.ram[m1.reg[SP]]
    ensures Run(m, k + 2) == Normal(m2.(pc := m.pc + 2, reg := m2.reg[SP := m.reg[SP]]))
  {
    StepCall(m);
    var m1 := Step(m).m;
    RunUnfold(m, k + 1);
    RunCompose(m1, k, 1);
    StepRet(m2);
    RunUnfold(m2, 0);
  }

  // ---------------------------------------------------------------------------
  // Whole programs, from a freshly constructed CPU

  /** LDI 0,8; LDI 1,9; ADD 0,1; PRN 0; HLT prints 17. */
  lemma ProgramPrintsSum()
    ensures var p := [LDI, 0, 8, LDI, 1, 9, ADD, 0, 1, PRN, 0, HLT];
            var r := Run(Load(Init(), p).m, 5);
            r.Normal? && r.m.halted && r.m.out == [17]
  {
    var p := [LDI, 0, 8, LDI, 1, 9, ADD, 0, 1, PRN, 0, HLT];
    var m0 := Load(Init(), p).m;
    StepLdi(m0);
    var m1 := Step(m0).m;
    StepLdi(m1);
    var m2 := Step(m1).m;
    StepAdd(m2);
    var m3 := Step(m2).m;
    StepPrn(m3);
    var m4 := Step(m3).m;
    StepHlt(m4);
    RunUnfold(m0, 4);
    RunUnfold(m1, 3);
    RunUnfold(m2, 2);
    RunUnfold(m3, 1);
    RunUnfold(m4, 0);
  }

  /** LDI 0,200; LDI 1,100; ADD 0,1; PRN 0; HLT prints 300: the sum is not reduced to a byte. */
  lemma ProgramSumDoesNotWrap()
    ensures var p := [LDI, 0, 200, LDI, 1, 100, ADD, 0, 1, PRN, 0, HLT];
            var r := Run(Load(Init(), p).m, 5);
            r.Normal? && r.m.halted && r.m.out == [300]
  {
    var p := [LDI, 0, 200, LDI, 1, 100, ADD, 0, 1, PRN, 0, HLT];
    var m0 := Load(Init(), p).m;
    StepLdi(m0);
    var m1 := Step(m0).m;
    StepLdi(m1);
    var m2 := Step(m1).m;
    StepAdd(m2);
    var m3 := Step(m2).m;
    StepPrn(m3);
    var m4 := Step(m3).m;
    StepHlt(m4);
    RunUnfold(m0, 4);
    RunUnfold(m1, 3);
    RunUnfold(m2, 2);
    RunUnfold(m3, 1);
    RunUnfold(m4, 0);
  }

  /** LDI 0,20; LDI 1,30; MUL 0,1; PRN 0; HLT prints 600: the product is not reduced to a byte. */
  lemma ProgramProductDoesNotWrap()
    ensures var p := [LDI, 0, 20, LDI, 1, 30, MUL, 0, 1, PRN, 0, HLT];
            var r := Run(Load(Init(), p).m, 5);
            r.Normal? && r.m.halted && r.m.out == [600]
  {
    var p := [LDI, 0, 20, LDI, 1, 30, MUL, 0, 1, PRN, 0, HLT];
    var m0 := Load(Init(), p).m;
    StepLdi(m0);
    var m1 := Step(m0).m;
    StepLdi(m1);
    var m2 := Step(m1).m;
    StepMul(m2);
    var m3 := Step(m2).m;
    StepPrn(m3);
    var m4 := Step(m3).m;
    StepHlt(m4);
    RunUnfold(m0, 4);
    RunUnfold(m1, 3);
    RunUnfold(m2, 2);
    RunUnfold(m3, 1);
    RunUnfold(m4, 0);
  }

  /**
   * LDI 0,7; PUSH 0; LDI 0,0; POP 0; HLT: register 0 holds 7 again and the
   * stack pointer is back at 0xF4.
   */
  lemma ProgramPushPop()
    ensures var p := [LDI, 0, 7, PUSH, 0, LDI, 0, 0, POP, 0, HLT];
            var r := Run(Load(Init(), p).m, 5);
            r.Normal? && r.m.halted && r.m.reg[0] == 7 && r.m.reg[SP] == SP_INIT
  {
    var p := [LDI, 0, 7, PUSH, 0, LDI, 0, 0, POP, 0, HLT];
    var m0 := Load(Init(), p).m;
    StepLdi(m0);
    var m1 := Step(m0).m;
    StepPush(m1);
    var m2 := Step(m1).m;
    StepLdi(m2);
    var m3 := Step(m2).m;
    StepPop(m3);
    var m4 := Step(m3).m;
    StepHlt(m4);
    RunUnfold(m0, 4);
    RunUnfold(m1, 3);
    RunUnfold(m2, 2);
    RunUnfold(m3, 1);
    RunUnfold(m4, 0);
  }

  /**
   * LDI 0,42; LDI 1,100; ST 0,1; HLT stores 42 (register 0) at address 100
   * (register 1): the second operand names the address register.
   */
  lemma ProgramStore()
    ensures var p := [LDI, 0, 42, LDI, 1, 100, ST, 0, 1, HLT];
            var r := Run(Load(Init(), p).m, 4);
            r.Normal? && r.m.halted && r.m.ram[100] == 42 && r.m.ram[42] == 0
  {
    var p := [LDI, 0, 42, LDI, 1, 100, ST, 0, 1, HLT];
    var m0 := Load(Init(), p).m;
    StepLdi(m0);
    var m1 := Step(m0).m;
    StepLdi(m1);
    var m2 := Step(m1).m;
    StepSt(m2);
    var m3 := Step(m2).m;
    StepHlt(m3);
    RunUnfold(m0, 3);
    RunUnfold(m1, 2);
    RunUnfold(m2, 1);
    RunUnfold(m3, 0);
  }

  /**
   * LDI 1,8; CALL 1; PRN 0; HLT; then at address 8 the subroutine LDI 0,5; RET.
   * The subroutine returns to the PRN at address 5, which prints 5, and the
   * stack pointer is back at 0xF4.
   */
  lemma ProgramCallRet()
    ensures var p := [LDI, 1, 8, CALL, 1, PRN, 0, HLT, LDI, 0, 5, RET];
            var r := Run(Load(Init(), p).m, 6);
            r.Normal? && r.m.halted && r.m.out == [5] && r.m.reg[SP] == SP_INIT
  {
    var p := [LDI, 1, 8, CALL, 1, PRN, 0, HLT, LDI, 0, 5, RET];
    var m0 := Load(Init(), p).m;
    StepLdi(m0);
    var m1 := Step(m0).m;
    StepCall(m1);
    var m2 := Step(m1).m;
    StepLdi(m2);
    var m3 := Step(m2).m;
    StepRet(m3);
    var m4 := Step(m3).m;
    StepPrn(m4);
    var m5 := Step(m4).m;
    StepHlt(m5);
    RunUnfold(m0, 5);
    RunUnfold(m1, 4);
    RunUnfold(m2, 3);
    RunUnfold(m3, 2);
    RunUnfold(m4, 1);
    RunUnfold(m5, 0);
  }
}
