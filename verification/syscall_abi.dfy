/** The two numberings side by side: a tracee runs either the native amd64
    ABI or the x32 ABI, and the raw number it reports at a system call is
    meaningful only together with that ABI. */
module SyscallAbi {
  import opened Wrappers
  import opened Syscalls
  import opened NativeTable
  import opened X32Table
  import opened Enumerations

  /** The ABI a tracee runs under. */
  datatype Abi = Amd64 | X32

  /** The raw number of `s` under `abi`, or `None` when that ABI's enum has no
      enumerator for it. */
  function Encode(s: Syscall, abi: Abi): Option<nat>
  {
    match abi
    case Amd64 => NativeNum(s)
    case X32 => X32Num(s)
  }

  /** The name a tracee running `abi` means by the raw number `raw`, or
      `None` for a number that no enumerator of that ABI takes. An unmapped
      number is never replaced by a neighbouring one. */
  function Translate(raw: nat, abi: Abi): (r: Option<Syscall>)
    ensures r.Some? ==> Encode(r.value, abi) == Some(raw)
  {
    match abi
    case Amd64 => NativeDecodeSound(raw); DecodeNative(raw)
    case X32 => X32DecodeSound(raw); DecodeX32(raw)
  }

  /** The enum declaration that numbers the system calls of `abi`. */
  function Declaration(abi: Abi): seq<Enumerator>
  {
    match abi
    case Amd64 => NativeDeclaration()
    case X32 => X32Declaration()
  }

  /** Translating a raw number gives the first enumerator with that value in
      the ABI's enum declaration, and the declaration is in increasing order
      of value, so that enumerator is the only one. */
  lemma TranslateIsLookup(raw: nat, abi: Abi)
    ensures Translate(raw, abi) == Lookup(Declaration(abi), raw)
    ensures Increasing(Declaration(abi))
  {
    match abi
    case Amd64 =>
      NativeDecodeIsLookup(raw);
      NativeDeclarationIncreasing();
    case X32 =>
      X32DecodeIsLookup(raw);
      X32DeclarationIncreasing();
  }

  /** `Translate` and `Encode` are inverse to each other under either ABI. */
  lemma TranslateIff(raw: nat, abi: Abi, s: Syscall)
    ensures Translate(raw, abi) == Some(s) <==> Encode(s, abi) == Some(raw)
  {
    match abi
    case Amd64 => NativeDecodeIff(raw, s);
    case X32 => X32DecodeIff(raw, s);
  }

  /** The two number spaces do not overlap: no raw number means something
      under both ABIs, so the number alone tells the ABI apart. */
  lemma AbiNumberSpacesDisjoint(raw: nat)
    ensures Translate(raw, Amd64).Some? ==> Translate(raw, X32).None?
    ensures Translate(raw, X32).Some? ==> raw >= X32SyscallBit
    ensures Translate(raw, Amd64).Some? ==> raw <= MaxNativeNum
  {
    NativeUnmappedIff(raw);
    X32UnmappedIff(raw);
  }

  /** Every name has a number under at least one ABI; the names missing from
      one ABI are exactly that ABI's gap list, and the two lists are
      disjoint. */
  lemma EveryNameHasANumber(s: Syscall)
    ensures Encode(s, Amd64).Some? || Encode(s, X32).Some?
    ensures Encode(s, Amd64).None? <==> s in X32OnlyNames
    ensures Encode(s, X32).None? <==> s in NativeOnlyNames
    ensures X32OnlyNames !! NativeOnlyNames
  {
    NativeRoundTrip(s);
    X32RoundTrip(s);
  }

  /** A name numbered under both ABIs either keeps its native number as its
      x32 offset, or was moved to the x32-specific block and left a hole at
      its native number. */
  lemma SharedOrMoved(s: Syscall)
    requires Encode(s, Amd64).Some? && Encode(s, X32).Some?
    ensures || Encode(s, X32).value == X32SyscallBit + Encode(s, Amd64).value
            || (&& FirstX32Offset <= Encode(s, X32).value - X32SyscallBit <= LastX32Offset
                && Translate(X32SyscallBit + Encode(s, Amd64).value, X32).None?)
  {
    X32NumInBlocks(s);
    if Encode(s, X32).value - X32SyscallBit <= LastSharedOffset {
      X32SharedEntryPoint(s);
    } else {
      X32MovedCallLeavesHole(s);
    }
  }

  /** Sample native translations: `mmap` is 9, `rt_sigaction` is 13, and 134
      is a gap between `mknod` and `personality`. */
  lemma NativeTranslateExamples()
    ensures Translate(9, Amd64) == Some(Mem(Mmap))
    ensures Translate(13, Amd64) == Some(Sig(RtSigaction))
    ensures Encode(Sig(RtSigaction), Amd64) == Some(13)
    ensures Translate(134, Amd64) == None
  {
  }

  /** Sample x32 translations: `mmap` keeps its native number above the base,
      `rt_sigaction` moved to the x32-specific block and left offset 13 unused,
      and the base itself is the value of `read`. */
  lemma X32TranslateExamples()
    ensures Translate(X32SyscallBit, X32) == Some(Io(Read))
    ensures Translate(X32SyscallBit + 9, X32) == Some(Mem(Mmap))
    ensures Translate(X32SyscallBit + 512, X32) == Some(Sig(RtSigaction))
    ensures Translate(X32SyscallBit + 13, X32) == None
  {
  }
}
