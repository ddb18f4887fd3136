/** The day-5 Intcode computer: a buffer of integers executed in place.
    Only three instructions exist: 1 (add), 2 (multiply) and 99 (halt).
    Every operand is an address (position mode), and every arithmetic
    instruction is four cells wide. */
module Intcode {
  import opened Wrappers

  /** How a run ends. `IndexFault(k)` is the list index `k` that the
      source cannot subscript (off the end, or negative); `UnknownOpcode`
      is an instruction that is not a key of the dispatch table. */
  datatype Outcome =
    | Halted(value: int)
    | UnknownOpcode(pc: nat, opcode: int)
    | IndexFault(index: int)

  /** The keys of the dispatch table. */
  datatype Op = Add | Multiply | Halt

  /** One step of execution: either the next memory and pointer, or the end of the run. */
  datatype StepResult = Continue(mem: seq<int>, pc: nat) | Stop(outcome: Outcome)

  /** The memory left behind by a run, and how the run ended. */
  datatype Final = Final(outcome: Outcome, mem: seq<int>)

  predicate InRange(mem: seq<int>, k: int) {
    0 <= k < |mem|
  }

  /** The dispatch table: the handler an opcode selects, if any. */
  function Decode(opcode: int): (r: Option<Op>)
    ensures r.None? <==> opcode != 1 && opcode != 2 && opcode != 99
    ensures r == Some(Add) <==> opcode == 1
    ensures r == Some(Multiply) <==> opcode == 2
    ensures r == Some(Halt) <==> opcode == 99
  {
    if opcode == 1 then Some(Add)
    else if opcode == 2 then Some(Multiply)
    else if opcode == 99 then Some(Halt)
    else None
  }

  /** The arithmetic an opcode performs. */
  function Apply(op: Op, a: int, b: int): int
    requires op != Halt
  {
    if op == Add then a + b else a * b
  }

  /** True when every index an arithmetic instruction at `pc` touches
      (its three parameter cells and the three cells they name) exists. */
  predicate OperandsInRange(mem: seq<int>, pc: nat) {
    && pc + 3 < |mem|
    && InRange(mem, mem[pc + 1])
    && InRange(mem, mem[pc + 2])
    && InRange(mem, mem[pc + 3])
  }

  /** The first index an arithmetic instruction at `pc` cannot subscript,
      in the order the statement `mem[mem[pc+3]] = mem[mem[pc+1]] op mem[mem[pc+2]]`
      evaluates them: the two operands first, then the target. */
  function ArithFault(mem: seq<int>, pc: nat): (f: Option<int>)
    requires pc < |mem|
    ensures f.None? <==> OperandsInRange(mem, pc)
    ensures f.Some? ==> !InRange(mem, f.value)
  {
    if !InRange(mem, pc + 1) then Some(pc + 1)
    else if !InRange(mem, mem[pc + 1]) then Some(mem[pc + 1])
    else if !InRange(mem, pc + 2) then Some(pc + 2)
    else if !InRange(mem, mem[pc + 2]) then Some(mem[pc + 2])
    else if !InRange(mem, pc + 3) then Some(pc + 3)
    else if !InRange(mem, mem[pc + 3]) then Some(mem[pc + 3])
    else None
  }

  /** One instruction at pointer `pc`. */
  function Step(mem: seq<int>, pc: nat): (s: StepResult)
    ensures s.Continue? ==> pc < |mem| && |s.mem| == |mem| && s.pc == pc + 4
    ensures s.Stop? && s.outcome.IndexFault? ==> !InRange(mem, s.outcome.index)
  {
    if pc >= |mem| then Stop(IndexFault(pc))
    else match Decode(mem[pc])
      case None => Stop(UnknownOpcode(pc, mem[pc]))
      case Some(Halt) => Stop(Halted(mem[0]))
      case Some(op) =>
        match ArithFault(mem, pc)
        case Some(k) => Stop(IndexFault(k))
        case None => Continue(mem[mem[pc + 3] := Apply(op, mem[mem[pc + 1]], mem[mem[pc + 2]])], pc + 4)
  }

  /** Runs from pointer `pc` until the program stops. It always stops: the
      pointer moves forward by four per instruction and memory never grows. */
  function Execute(mem: seq<int>, pc: nat): (r: Final)
    ensures |r.mem| == |mem|
    ensures r.outcome.Halted? ==> 0 < |r.mem| && r.outcome.value == r.mem[0]
    ensures r.outcome.IndexFault? ==> !InRange(r.mem, r.outcome.index)
    decreases |mem| - pc
  {
    match Step(mem, pc)
    case Stop(o) => Final(o, mem)
    case Continue(m, next) => Execute(m, next)
  }

  /** The memory `run_program` executes: the input with cell 1 set to
      `noun` and cell 2 set to `verb`. */
  function Patched(mem: seq<int>, noun: int, verb: int): (m: seq<int>)
    requires |mem| >= 3
    ensures |m| == |mem| && m[1] == noun && m[2] == verb
    ensures m[0] == mem[0] && forall i :: 3 <= i < |mem| ==> m[i] == mem[i]
  {
    mem[1 := noun][2 := verb]
  }

  /** What `run_program(mem, noun, verb)` returns. Patching a list that has
      no cell 1 or no cell 2 fails before anything runs; a list long enough
      to patch can never fault at those two indices. */
  function RunProgramResult(mem: seq<int>, noun: int, verb: int): (r: Outcome)
    ensures (r == IndexFault(1) || r == IndexFault(2)) <==> |mem| < 3
    ensures r.IndexFault? ==> !InRange(mem, r.index)
  {
    if |mem| < 2 then IndexFault(1)
    else if |mem| < 3 then IndexFault(2)
    else Execute(Patched(mem, noun, verb), 0).outcome
  }

  /** An add instruction writes the sum of the two cells its first two
      parameters name into the cell its third parameter names, changes no
      other cell, and moves the pointer on by four. */
  lemma StepAdd(mem: seq<int>, pc: nat)
    requires OperandsInRange(mem, pc) && mem[pc] == 1
    ensures Step(mem, pc).Continue? && Step(mem, pc).pc == pc + 4
    ensures Step(mem, pc).mem[mem[pc + 3]] == mem[mem[pc + 1]] + mem[mem[pc + 2]]
    ensures forall k :: 0 <= k < |mem| && k != mem[pc + 3] ==> Step(mem, pc).mem[k] == mem[k]
  {
  }

  /** A multiply instruction writes the product of the same two operands
      into the target cell, changes no other cell, and moves on by four. */
  lemma StepMultiply(mem: seq<int>, pc: nat)
    requires OperandsInRange(mem, pc) && mem[pc] == 2
    ensures Step(mem, pc).Continue? && Step(mem, pc).pc == pc + 4
    ensures Step(mem, pc).mem[mem[pc + 3]] == mem[mem[pc + 1]] * mem[mem[pc + 2]]
    ensures forall k :: 0 <= k < |mem| && k != mem[pc + 3] ==> Step(mem, pc).mem[k] == mem[k]
  {
  }

  /** Halt ends the run with the value of cell 0 and leaves memory as it is. */
  lemma ExecuteHalt(mem: seq<int>, pc: nat)
    requires pc < |mem| && mem[pc] == 99
    ensures Execute(mem, pc) == Final(Halted(mem[0]), mem)
  {
  }

  /** A run stops for exactly one of three reasons, and the one that stops
      it at an instruction is the opcode at that instruction. */
  lemma StopReasons(mem: seq<int>, pc: nat)
    ensures Step(mem, pc).Stop? <==>
      || pc >= |mem|
      || mem[pc] == 99
      || (mem[pc] != 1 && mem[pc] != 2)
      || !OperandsInRange(mem, pc)
    ensures Step(mem, pc).Stop? && Step(mem, pc).outcome.UnknownOpcode? <==>
      pc < |mem| && mem[pc] != 1 && mem[pc] != 2 && mem[pc] != 99
    ensures pc < |mem| && Decode(mem[pc]).None? ==> Step(mem, pc) == Stop(UnknownOpcode(pc, mem[pc]))
  {
  }

  /** The four programs the source checks itself against. */
  lemma RunProgramExamples()
    ensures RunProgramResult([1, 0, 0, 0, 99], 0, 0) == Halted(2)
    ensures RunProgramResult([2, 3, 0, 3, 99], 3, 0) == Halted(2)
    ensures RunProgramResult([2, 4, 4, 5, 99, 0], 4, 4) == Halted(2)
    ensures RunProgramResult([1, 1, 1, 4, 99, 5, 6, 0, 99], 1, 1) == Halted(30)
  {
    var m4 := Patched([1, 1, 1, 4, 99, 5, 6, 0, 99], 1, 1);
    assert Step(m4, 0) == Continue([1, 1, 1, 4, 2, 5, 6, 0, 99], 4);
    assert Step([1, 1, 1, 4, 2, 5, 6, 0, 99], 4) == Continue([30, 1, 1, 4, 2, 5, 6, 0, 99], 8);
  }

  /** The interpreter object: it holds the program's list and runs it in place. */
  class Program {
    var opcodes: array<int>

    /** The list is shared with the caller, not copied. */
    constructor (opcodes: array<int>)
      ensures this.opcodes == opcodes
    {
      this.opcodes := opcodes;
    }

    /** Runs from the first cell. */
    method Run() returns (o: Outcome)
      modifies opcodes
      ensures Execute(old(opcodes[..]), 0) == Final(o, opcodes[..])
    {
      o := RunFrom(0);
    }

    /** Fetch, dispatch and execute until the program stops. */
    method RunFrom(index: nat) returns (o: Outcome)
      modifies opcodes
      ensures Execute(old(opcodes[..]), index) == Final(o, opcodes[..])
    {
      var pc := index;
      while true
        invariant Execute(opcodes[..], pc) == Execute(old(opcodes[..]), index)
        decreases opcodes.Length - pc
      {
        if pc >= opcodes.Length {
          return IndexFault(pc);
        }
        var op := opcodes[pc];
        match Decode(op) {
          case None =>
            return UnknownOpcode(pc, op);
          case Some(Halt) =>
            var value := Halt(pc);
            return Halted(value);
          case Some(Add) =>
            var fault := Add(pc);
            if fault.Some? {
              return IndexFault(fault.value);
            }
          case Some(Multiply) =>
            var fault := Multiply(pc);
            if fault.Some? {
              return IndexFault(fault.value);
            }
        }
        pc := pc + 4;
      }
    }

    /** Reads the three parameters of the arithmetic instruction at `index`
        and the two operand values they name, stopping at the first index
        that cannot be subscripted. */
    method Operands(index: nat) returns (fault: Option<int>, a: int, b: int, target: nat)
      requires index < opcodes.Length
      ensures fault == ArithFault(opcodes[..], index)
      ensures fault.None? ==>
        && a == opcodes[opcodes[index + 1]]
        && b == opcodes[opcodes[index + 2]]
        && target == opcodes[index + 3]
    {
      a, b, target := 0, 0, 0;
      if index + 1 >= opcodes.Length {
        return Some(index + 1), a, b, target;
      }
      var p := opcodes[index + 1];
      if !(0 <= p < opcodes.Length) {
        return Some(p), a, b, target;
      }
      a := opcodes[p];
      if index + 2 >= opcodes.Length {
        return Some(index + 2), a, b, target;
      }
      var q := opcodes[index + 2];
      if !(0 <= q < opcodes.Length) {
        return Some(q), a, b, target;
      }
      b := opcodes[q];
      if index + 3 >= opcodes.Length {
        return Some(index + 3), a, b, target;
      }
      var t := opcodes[index + 3];
      if !(0 <= t < opcodes.Length) {
        return Some(t), a, b, target;
      }
      target := t;
      fault := None;
    }

    /** Opcode 1. On a fault nothing has been written. */
    method Add(index: nat) returns (fault: Option<int>)
      requires index < opcodes.Length && opcodes[index] == 1
      modifies opcodes
      ensures Step(old(opcodes[..]), index) ==
        if fault.Some? then Stop(IndexFault(fault.value)) else Continue(opcodes[..], index + 4)
      ensures fault.Some? ==> opcodes[..] == old(opcodes[..])
    {
      var a, b, target;
      fault, a, b, target := Operands(index);
      if fault.None? {
        opcodes[target] := a + b;
      }
    }

    /** Opcode 2. On a fault nothing has been written. */
    method Multiply(index: nat) returns (fault: Option<int>)
      requires index < opcodes.Length && opcodes[index] == 2
      modifies opcodes
      ensures Step(old(opcodes[..]), index) ==
        if fault.Some? then Stop(IndexFault(fault.value)) else Continue(opcodes[..], index + 4)
      ensures fault.Some? ==> opcodes[..] == old(opcodes[..])
    {
      var a, b, target;
      fault, a, b, target := Operands(index);
      if fault.None? {
        opcodes[target] := a * b;
      }
    }

    /** Opcode 99: the run's result is cell 0. */
    method Halt(index: nat) returns (value: int)
      requires index < opcodes.Length && opcodes[index] == 99
      ensures Step(opcodes[..], index) == Stop(Halted(value))
    {
      value := opcodes[0];
    }
  }

  /** Runs a copy of `opcodes` with cells 1 and 2 set to `noun` and `verb`.
      The caller's array is not modified: this method may modify nothing
      that existed before the call. */
  method RunProgram(opcodes: array<int>, noun: int, verb: int) returns (o: Outcome)
    ensures o == RunProgramResult(opcodes[..], noun, verb)
  {
    var copy := new int[opcodes.Length];
    forall i | 0 <= i < opcodes.Length {
      copy[i] := opcodes[i];
    }
    if copy.Length < 2 {
      return IndexFault(1);
    }
    copy[1] := noun;
    if copy.Length < 3 {
      return IndexFault(2);
    }
    copy[2] := verb;
    assert copy[..] == Patched(opcodes[..], noun, verb);
    var program := new Program(copy);
    o := program.Run();
  }
}
