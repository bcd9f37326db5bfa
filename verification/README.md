# AMD64 GNU/Linux system call numbering, in Dafny

This project models the system-call tables in `binutils/gdb/amd64-linux-tdep.h`.
GDB's process record/replay uses these tables on AMD64 GNU/Linux. A traced
process reports a raw number at every system call. Record/replay must turn that
number back into a name, and the header gives one numbering per ABI:

- `enum amd64_syscall` is the native 64-bit ABI, with numbers 0 to 318 and some gaps;
- `enum amd64_x32_syscall` is the x32 ABI, which has 64-bit registers and 32-bit pointers.
  Every x32 system-call value is `amd64_x32_syscall_bit` (0x40000000) plus an offset.
  The base is itself an enumerator of this enum, so it shares its value with `read`;
  the model keeps it as the constant `X32SyscallBit` and not as a name.
  Offsets 0 to 277 reuse the native number of a shared kernel entry point.
  Offsets 512 to 542 hold the entry points that x32 implements differently.

The model has seven modules:

- `Wrappers` holds the `Option` type that every partial lookup returns.
- `Syscalls` has one name per enumerator (275 across both enums). The names are
  grouped by kernel subsystem so that proofs about every name can be split.
- `Enumerations` reads a C enum declaration as written: a list of enumerators in
  source order, each a name with an integer value. Finding the name for a value
  means scanning that list (`Lookup`).
- `NativeTable` and `X32Table` each hold:
  - an encoder (`NativeNum`, `X32Num`), which is the enum as written;
  - a decoder (`DecodeNative`, `DecodeX32`), which gives the name for a raw number or
    `None` when no enumerator takes that number;
  - the enum's declaration as an enumerator list (`NativeDeclaration`,
    `X32Declaration`), and lemmas that it is in increasing order of value and
    that the decoder answers exactly what a scan of it answers;
  - lemmas that the encoder and decoder are exact inverses, plus the structure of each
    numbering: gaps, blocks, and which names each ABI leaves out.
- `SyscallAbi` puts the two numberings behind one ABI tag:
  - `Translate(raw, abi)` is the lookup that record/replay performs;
  - `Encode(s, abi)` is its inverse.
- `LinuxRegisters` models:
  - the extra `orig_rax` register that GNU/Linux appends to the register file;
  - how its value is read: a non-negative value is a system call for the kernel to restart;
  - the tags of the target descriptions that the header declares.

Two facts about the x32 enum shape the model:

- The x32 enum leaves out only nfsservctl, pipe2 and getrandom. It does list the other `timer_*` and `mq_*` calls:
  - timer_settime, timer_gettime, timer_getoverrun and timer_delete are at their native offsets 223-226 (lines 525-528);
  - mq_open, mq_unlink, mq_timedsend and mq_timedreceive are at 240-243 (lines 541-544), and mq_getsetattr is at 245 (line 545);
  - timer_create and mq_notify moved to 526 and 527 (lines 588-589).
  `X32Table.X32OffsetRoundTrip` states this coverage.
- No x32 system call keeps its native number without the base: every x32 system-call enumerator is `amd64_x32_syscall_bit` plus an offset (lines 333-604).

## Model

| member | source | states |
|---|---|---|
| NativeTable.NativeRoundTrip | binutils/gdb/amd64-linux-tdep.h:56-325 | Every native enumerator's value decodes back to that name; the only names with no native value are the seven x32-only calls |
| NativeTable.NativeDecodeSound | binutils/gdb/amd64-linux-tdep.h:56-325 | Whenever the native decoder names a call, that call's enumerator has exactly the decoded number |
| NativeTable.NativeDecodeIff | binutils/gdb/amd64-linux-tdep.h:56-325 | A number decodes to a name if and only if that name's native enumerator has that value |
| NativeTable.NativeInjective | binutils/gdb/amd64-linux-tdep.h:56-325 | No two native enumerators share a value |
| NativeTable.NativeUnmappedIff | binutils/gdb/amd64-linux-tdep.h:56-325 | A native number has no name exactly when it is above 318 or is one of the gaps (134, 174, 177-178, 181-185, 205, 211, 214-215, 236, 280-292, 294-317) |
| NativeTable.NativeNumInRange | binutils/gdb/amd64-linux-tdep.h:57-324 | Every native value lies between 0 and 318, the value of getrandom, and is never a gap |
| X32Table.X32OffsetUnmappedIff | binutils/gdb/amd64-linux-tdep.h:333-604 | An x32 offset has no name exactly when it is a hole of the shared block 0-277, lies between 278 and 511, or lies above 542 |
| X32Table.X32UnmappedIff | binutils/gdb/amd64-linux-tdep.h:331-605 | A raw number has no x32 name exactly when it is below 0x40000000 or its offset is unused |
| X32Table.X32OffsetRoundTrip | binutils/gdb/amd64-linux-tdep.h:333-604 | Every x32 enumerator's offset decodes back to that name; the only names with no x32 enumerator are nfsservctl, pipe2 and getrandom |
| X32Table.X32OffsetDecodeSound | binutils/gdb/amd64-linux-tdep.h:333-604 | Whenever the offset decoder names a call, that is the call's offset; in the shared block, the native decoder gives the same call for the same number |
| X32Table.X32RoundTrip | binutils/gdb/amd64-linux-tdep.h:331-605 | Every x32 enumerator's value, base included, decodes back to that name; the native-only calls are the only names left out |
| X32Table.X32DecodeSound | binutils/gdb/amd64-linux-tdep.h:331-605 | A decoded x32 number is the call's enumerator value; in the shared block the offset is also the call's native number |
| X32Table.X32DecodeIff | binutils/gdb/amd64-linux-tdep.h:331-605 | A raw number decodes to a name if and only if that name's x32 enumerator has that value |
| X32Table.X32Injective | binutils/gdb/amd64-linux-tdep.h:333-604 | No two of the 272 x32 system-call enumerators share a value |
| X32Table.X32NumInBlocks | binutils/gdb/amd64-linux-tdep.h:332-604 | Every x32 value is at least 0x40000000, with its offset in 0-277 or in 512-542 |
| X32Table.X32SharedEntryPoint | binutils/gdb/amd64-linux-tdep.h:333-573 | A call numbered in the shared block has x32 value 0x40000000 plus its native number |
| X32Table.X32SpecificBlockIsDense | binutils/gdb/amd64-linux-tdep.h:574-604 | Every offset from 512 to 542 is taken by exactly one x32 call |
| X32Table.X32MovedCallLeavesHole | binutils/gdb/amd64-linux-tdep.h:574-604 | A native call moved to the x32-specific block (rt_sigaction, ioctl, readv, ...) leaves its native number unused as an x32 offset |
| Enumerations.Lookup | binutils/gdb/amd64-linux-tdep.h:56-325 | Reading an enum declaration: a value found by the scan belongs to an enumerator with that name, and the scan finds nothing exactly when no enumerator has that value |
| Enumerations.IncreasingIsTransitive | binutils/gdb/amd64-linux-tdep.h:56-325 | In a declaration whose values rise from each enumerator to the next, every earlier enumerator has a smaller value than every later one |
| Enumerations.LookupFinds | binutils/gdb/amd64-linux-tdep.h:56-325 | In an increasing declaration, scanning for an enumerator's value gives that enumerator's own name |
| Enumerations.LookupIff | binutils/gdb/amd64-linux-tdep.h:56-325 | In an increasing declaration, the scan gives a name for a value exactly when some enumerator has that name and value |
| NativeTable.NativeDeclarationIncreasing | binutils/gdb/amd64-linux-tdep.h:57-324 | The 268 enumerators of enum amd64_syscall are declared in strictly increasing order of value |
| NativeTable.NativeDeclarationListsDecoded | binutils/gdb/amd64-linux-tdep.h:57-324 | Every number the native decoder names is found by a scan of the declaration, under the same name |
| NativeTable.NativeDeclarationOnlyDecoded | binutils/gdb/amd64-linux-tdep.h:57-324 | Every number a scan of the native declaration finds is named the same way by the decoder |
| NativeTable.NativeDecodeIsLookup | binutils/gdb/amd64-linux-tdep.h:56-325 | The native decoder and a scan of enum amd64_syscall agree on every number, mapped or not |
| X32Table.X32DeclarationIncreasing | binutils/gdb/amd64-linux-tdep.h:333-604 | The 272 system-call enumerators of enum amd64_x32_syscall (every one but the base) are declared in strictly increasing order of value |
| X32Table.X32EntryDecodes | binutils/gdb/amd64-linux-tdep.h:333-604 | The value of every declared x32 enumerator decodes to that enumerator's name |
| X32Table.X32DeclarationListsDecoded | binutils/gdb/amd64-linux-tdep.h:333-604 | Every number the x32 decoder names is found by a scan of the 272 system-call enumerators, under the same name |
| X32Table.X32DeclarationOnlyDecoded | binutils/gdb/amd64-linux-tdep.h:333-604 | Every number a scan of the 272 x32 system-call enumerators finds is named the same way by the decoder |
| X32Table.X32DecodeIsLookup | binutils/gdb/amd64-linux-tdep.h:333-604 | The x32 decoder and a scan of the 272 system-call enumerators of enum amd64_x32_syscall agree on every number, mapped or not |
| SyscallAbi.TranslateIsLookup | binutils/gdb/amd64-linux-tdep.h:56-605 | Under either ABI, lookup is the scan of that ABI's enum declaration, and the declaration is increasing, so the name found is the only enumerator with that value |
| SyscallAbi.Translate | binutils/gdb/amd64-linux-tdep.h:56-605 | The raw-number lookup under either ABI answers only names whose enumerator under that ABI has exactly that number |
| SyscallAbi.TranslateIff | binutils/gdb/amd64-linux-tdep.h:56-605 | Under either ABI, lookup and enumerator value are inverse to each other, in both directions |
| SyscallAbi.AbiNumberSpacesDisjoint | binutils/gdb/amd64-linux-tdep.h:56-605 | No raw number names a call under both ABIs: native numbers are at most 318, and x32 numbers are at least 0x40000000 |
| SyscallAbi.EveryNameHasANumber | binutils/gdb/amd64-linux-tdep.h:56-605 | Every name has a number under at least one ABI; the x32-only and native-only lists are disjoint and are exactly the names each ABI lacks |
| SyscallAbi.SharedOrMoved | binutils/gdb/amd64-linux-tdep.h:333-604 | A call numbered under both ABIs either has x32 value equal to the base plus its native number, or sits in 512-542 and leaves its native offset unused |
| SyscallAbi.NativeTranslateExamples | binutils/gdb/amd64-linux-tdep.h:66-191 | Natively, 9 is mmap, 13 is rt_sigaction and back, and 134 (between mknod at 133 and personality at 135) is unused |
| SyscallAbi.X32TranslateExamples | binutils/gdb/amd64-linux-tdep.h:332-574 | On x32, the base itself is read, base+9 is mmap, base+512 is rt_sigaction, and base+13 is unused |
| LinuxRegisters.OrigRaxIsLastRegister | binutils/gdb/amd64-linux-tdep.h:26-32 | The GNU/Linux register numbers are the architectural ones up to gsbase, plus orig_rax right after gsbase, which is the last register |
| LinuxRegisters.AsSigned64 | binutils/gdb/amd64-linux-tdep.h:26-28 | A 64-bit register content read as signed lies in the signed 64-bit range and is congruent to the raw bits modulo 2^64 |
| LinuxRegisters.PendingRestart | binutils/gdb/amd64-linux-tdep.h:26-28 | orig_rax names a system call to restart exactly when its signed value is non-negative, and that value is the call number |
| LinuxRegisters.MinusOneMeansNoRestart | binutils/gdb/amd64-linux-tdep.h:26-28 | All-ones orig_rax reads as -1 and so requests no restart |

## Left out

- `amd64_linux_read_description` (lines 46-50) is declared in the header, but its body is elsewhere. It chooses a target description from the XCR0 feature bits and the x32 flag. That choice is not part of this model.
- The target descriptions (lines 35-44) are mutable global pointers to register lists defined in other files. They appear only as the tags of `LinuxRegisters.LinuxTargetDescription`, with no behaviour.
- `AMD64_GSBASE_REGNUM` is defined outside this header, so it is a parameter of `OrigRaxRegnum` and `NumRegs`.
- linux-record.c maps these numbers to GDB's architecture-neutral system call ids. linux-record.c is not part of this model, so `Translate` stops at the names of this header.
- Reading and writing registers and memory through ptrace, recording system-call arguments, and process control are I/O that this header does not contain.
- The subsystem grouping of the `Syscall` names (`Io`, `Net`, `Sig`, ...) exists only in this model. The header has two flat enums. The grouping is used only to split proofs and does not affect any number.
- X32Table.X32Declaration: the base enumerator `amd64_x32_syscall_bit` (line 332) is the constant `X32SyscallBit` and is not one of the declaration's entries or a `Syscall` name. It has the same value as `amd64_x32_sys_read` (line 333), so the enum as written is neither injective nor strictly increasing. The injectivity, order and lookup lemmas are about the 272 system-call enumerators at lines 333-604. A raw number equal to the base decodes to `read`, which `SyscallAbi.X32TranslateExamples` states.
