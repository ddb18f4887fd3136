# Advent of Code 2019, days 3, 4 and 5: a verified Dafny model

This project models three small puzzle solutions and proves what they compute.

- **Intcode computer** (`intcode.dfy`, day 5). A `Program` object holds a list of integers and runs it in place. Opcode 1 adds, opcode 2 multiplies and opcode 99 halts with the value of cell 0. Every parameter is an address. `run_program` copies the caller's list, puts `noun` in cell 1 and `verb` in cell 2, and runs the copy. The model keeps the object: the list is an `array<int>` that `Add` and `Multiply` overwrite, and a `while` loop on a program counter takes the place of the tail-recursive dispatch. The methods are proved against the functions `Step` and `Execute` over `seq<int>`. Every list index the source cannot subscript ends the run as `IndexFault(index)`, in the order the source evaluates its subscripts. An opcode that is not in the dispatch table ends it as `UnknownOpcode`.
- **Wire path builder** (`wires.dfy`, day 3). `make_line` turns parsed move tokens (a direction letter and a distance) into the turning points of a wire, starting at the origin. `changing_index` reports which coordinate differs between two points. `MakeLine` is the loop; it is proved equal to the recursive definition `TurningPoints`, and the lemmas are about that function.
- **Password rules** (`password.dfy`, day 4). `valid_password` checks that the decimal digits never decrease and that two adjacent digits are equal. `try_range` collects the valid numbers of `[start, end)`. Digits are the most-significant-first decimal expansion of a natural number, and 0 has the single digit 0.

`wrappers.dfy` holds the `Option` type the three modules share.

Where the source's own comments disagree with its code, the model follows the code:
- The docstring example of `make_line` (3_1.py:56) contradicts the code and the check at 3_1.py:101. The model follows the code and that check.
- The comment at the top of 5.py describes opcodes 3 and 4 and parameter modes. The code has neither, and neither does the model.
- The rules in 4.py's comment ask for six digits. `valid_password` does not check that, and neither does `IsValidPassword`.
- Distances in move tokens may be any integer, because the source parses them with `int()`.

## Model

| member | source | states |
|---|---|---|
| Intcode.Decode | 5.py:95-99 | the dispatch table has exactly the keys 1 (add), 2 (multiply) and 99 (halt); any other opcode has no handler |
| Intcode.ArithFault | 5.py:108-116 | an add or multiply faults exactly when one of its three parameter cells or the cells they name is out of range, and the reported index is one that cannot be subscripted |
| Intcode.Step | 5.py:104-120 | an instruction that does not end the run keeps the memory length and moves the pointer forward by exactly 4; a reported index fault names an index outside the memory |
| Intcode.Execute | 5.py:101-120 | a run always terminates (measure: memory length minus pointer), never changes the memory length, a halted run's result is cell 0 of the final memory, and a faulting run names an index outside the final memory |
| Intcode.Patched | 5.py:123-125 | the memory that is run equals the input, except that cell 1 holds noun and cell 2 holds verb |
| Intcode.RunProgramResult | 5.py:122-128 | the result faults at index 1 or 2 exactly when the list is too short to patch both cells (5.py:124-125); any index fault names an index outside the input list |
| Intcode.StepAdd | 5.py:108-111 | add writes mem[mem[i+1]] + mem[mem[i+2]] into cell mem[i+3], leaves every other cell unchanged and continues at i+4 |
| Intcode.StepMultiply | 5.py:113-116 | multiply writes the product of the same two operands into cell mem[i+3], leaves every other cell unchanged and continues at i+4 |
| Intcode.ExecuteHalt | 5.py:118-120 | halt ends the run with the current value of cell 0 and leaves memory as it is |
| Intcode.StopReasons | 5.py:104-106 | a step stops exactly when the pointer is off the end, the opcode is 99, the opcode is not in the table, or an operand index is out of range; an opcode outside the table is reported as unknown |
| Intcode.RunProgramExamples | 5.py:143-147 | the four test programs return 2, 2, 2 and 30 |
| Intcode.Program.constructor | 5.py:93-99 | the program object shares the list it is given, without copying it |
| Intcode.Program.Run | 5.py:101-102 | running from pointer 0 gives the outcome and final memory of Execute from 0 |
| Intcode.Program.RunFrom | 5.py:104-106 | the fetch-dispatch loop gives the outcome of Execute from the pointer and leaves the memory Execute leaves |
| Intcode.Program.Operands | 5.py:110 | the operand reads stop at the first index that cannot be subscripted; otherwise they return the two operand values and the target address |
| Intcode.Program.Add | 5.py:108-111 | the in-place add is exactly one Step: on success the new memory is Step's memory, and on a fault the memory is unchanged |
| Intcode.Program.Multiply | 5.py:113-116 | the in-place multiply is exactly one Step, with memory unchanged on a fault |
| Intcode.Program.Halt | 5.py:118-120 | halt returns cell 0, which is the Halted outcome of Step, and modifies nothing |
| Intcode.RunProgram | 5.py:122-128 | the result is Execute on the patched copy; a list shorter than 3 faults at index 1 or 2; the caller's array is not modified (the method has no modifies clause) |
| Wires.Translate | 3_1.py:61-71 | a move is defined exactly for the letters R, L, U and D; R and L change only x, by +distance and -distance; U and D change only y, by +distance and -distance |
| Wires.TurningPoints | 3_1.py:58-73 | a built line starts at (0,0) and has one more point than there are tokens |
| Wires.ChangingIndex | 3_1.py:75-81 | the result is 1 exactly when only y differs and 0 exactly when only x differs; equal points and points that differ in both coordinates are errors |
| Wires.MakeLine | 3_1.py:53-73 | the appending loop returns exactly TurningPoints of the tokens, including its error for the first unknown letter |
| Wires.TurningPointsErrorSticks | 3_1.py:70-71 | once a prefix of the tokens raises the error, the whole list raises the same error |
| Wires.TurningPointsPrefix | 3_1.py:59-72 | the points built from a prefix of the tokens are a prefix of the points built from all of them |
| Wires.TurningPointsStep | 3_1.py:60-72 | each point after the first is the previous point moved by the token at the same position |
| Wires.TurningPointsSucceeds | 3_1.py:62-71 | building succeeds exactly when every letter is R, L, U or D; otherwise the error names the first unknown letter |
| Wires.TurningPointsEnd | 3_1.py:60-72 | the last point is (sum of R - sum of L, sum of U - sum of D) over the token distances |
| Wires.TurningPointsChangingIndex | 3_1.py:75-81 | between consecutive points of a line, changing_index gives 0 for a nonzero R or L move, 1 for a nonzero U or D move, and fails for a zero-distance move |
| Wires.TurningPointsExample | 3_1.py:101 | R5, U17, L3 give (0,0), (5,0), (5,17), (2,17) |
| Password.Digits | 4.py:33 | the digits are decimal digits with no leading zero, and they denote the number again (round trip) |
| Password.ValidPassword | 4.py:29-45 | the digit walk with its early return is true exactly when no adjacent pair of digits decreases and some adjacent pair is equal |
| Password.ValidAtLeast11 | 4.py:29-45 | every number that meets the rules of IsValidPassword (digits never decrease, some adjacent pair is equal) is at least 11 |
| Password.ValidInRange | 4.py:23-27 | the reference for the range filter: every element lies in [start, end) and is valid |
| Password.TryRange | 4.py:21-27 | fails exactly when end <= start (the assertion at 4.py:22); otherwise the result holds exactly the valid numbers n with start <= n < end (end excluded), strictly increasing, at most end - start of them |
| Password.ValidInRangeMembers | 4.py:24-27 | the range filter holds exactly the valid numbers of [start, end) |
| Password.ValidInRangeAscending | 4.py:24-27 | the range filter is strictly increasing, so it has no duplicates |
| Password.ValidInRangeLength | 4.py:24-27 | the range filter has at most end - start elements |
| Password.DecreasingPairRejects | 4.py:40-42 | a number with any decreasing adjacent pair of digits is invalid |
| Password.SingleDigitRejected | 4.py:34-45 | a one-digit number is never valid, because it has no pair to be equal |
| Password.AcceptedExample | 4.py:47 | 111111 is valid |
| Password.RejectedExample | 4.py:48 | 223450 is not valid |

## Left out

- File and console I/O: `get_opcodes` (5.py:136-141), `part_1` and `part_2` (5.py:149-159), and the top-level driver calls and prints of all three files. The noun and verb search of `part_2` depends on the contents of an input file.
- `intersections` (3_1.py:83-92) is an unfinished stub that prints segments and returns an empty list. No intersection finder or nearest-distance reducer exists in the code, so none is modelled.
- Intcode opcodes 3 and 4 and parameter modes exist only in the comment at the top of 5.py.
- The `test` helpers (5.py:130-134, 3_1.py:94-98) only compare lists and print.
- Intcode.Step: a negative address is an `IndexFault`. Python would instead index from the end of the list for addresses from -len to -1.
- Move tokens are already parsed into a letter and an integer. The model leaves out the string slicing and `int()` parsing of `make_line`, including the error for an empty token.
- Password.Digits: only natural numbers are modelled. The source's `str()` of a negative number would start with a minus sign, and `int()` of it fails.
- Intcode.Program.RunFrom: the source recurses through `run_recursive`, `add` and `multiply`. Python does not eliminate tail calls, so a run of roughly 500 arithmetic instructions or more raises RuntimeError (maximum recursion depth exceeded) under Python 2's default recursion limit of 1000. The loop runs any number of instructions, so the model does not capture that failure.
- Python's `assert` statements that re-check the dispatched opcode (5.py:109, 114, 119) become preconditions of `Add`, `Multiply` and `Halt`. The dispatch loop always meets them.
