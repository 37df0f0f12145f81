/**
 The 16-byte encoding of a transaction result in src/store.rs: a tag, three bytes of
 discriminants and indices, a 32-bit payload and a 64-bit slot.
 */
module ResultCodec {
  import opened Options
  import opened Bytes
  import opened Wire

  type U8 = Byte

  datatype InstructionError =
    | GenericError | InvalidArgument | InvalidInstructionData | InvalidAccountData | AccountDataTooSmall
    | InsufficientFunds | IncorrectProgramId | MissingRequiredSignature | AccountAlreadyInitialized
    | UninitializedAccount | UnbalancedInstruction | ModifiedProgramId | ExternalAccountLamportSpend
    | ExternalAccountDataModified | ReadonlyLamportChange | ReadonlyDataModified | DuplicateAccountIndex
    | ExecutableModified | RentEpochModified | NotEnoughAccountKeys | AccountDataSizeChanged
    | AccountNotExecutable | AccountBorrowFailed | AccountBorrowOutstanding | DuplicateAccountOutOfSync
    | Custom(code: U32) | InvalidError | ExecutableDataModified | ExecutableLamportChange
    | ExecutableAccountNotRentExempt | UnsupportedProgramId | CallDepth | MissingAccount | ReentrancyNotAllowed
    | MaxSeedLengthExceeded | InvalidSeeds | InvalidRealloc | ComputationalBudgetExceeded | PrivilegeEscalation
    | ProgramEnvironmentSetupFailure | ProgramFailedToComplete | ProgramFailedToCompile | Immutable
    | IncorrectAuthority | BorshIoError | AccountNotRentExempt | InvalidAccountOwner | ArithmeticOverflow
    | UnsupportedSysvar | IllegalOwner | MaxAccountsDataAllocationsExceeded | MaxAccountsExceeded
    | MaxInstructionTraceLengthExceeded | BuiltinProgramsMustConsumeComputeUnits

  /** `Unlisted` stands for the variants the encoder has no case for. */
  datatype TransactionError =
    | AccountInUse | AccountLoadedTwice | AccountNotFound | ProgramAccountNotFound | InsufficientFundsForFee
    | InvalidAccountForFee | AlreadyProcessed | BlockhashNotFound
    | InstructionFailed(index: U8, cause: InstructionError) | CallChainTooDeep | MissingSignatureForFee
    | InvalidAccountIndex | SignatureFailure | InvalidProgramForExecution | SanitizeFailure
    | ClusterMaintenance | AccountBorrowOutstanding | WouldExceedMaxBlockCostLimit | UnsupportedVersion
    | InvalidWritableAccount | WouldExceedMaxAccountCostLimit | WouldExceedAccountDataBlockLimit
    | TooManyAccountLocks | AddressLookupTableNotFound | InvalidAddressLookupTableOwner
    | InvalidAddressLookupTableData | InvalidAddressLookupTableIndex | InvalidRentPayingAccount
    | WouldExceedMaxVoteCostLimit | WouldExceedAccountDataTotalLimit | DuplicateInstruction(index: U8)
    | InsufficientFundsForRent(account: U8) | MaxLoadedAccountsDataSizeExceeded
    | InvalidLoadedAccountsDataSizeLimit | ResanitizationNeeded
    | ProgramExecutionTemporarilyRestricted(account: U8) | UnbalancedTransaction | ProgramCacheHitMaxLimit
    | CommitCancelled | Unlisted

  // ---- encoding -------------------------------------------------------------------------

  /** The variant's number, and the payload of `Custom`. */
  function EncodeInstructionError(e: InstructionError): (U8, U32) {
    match e
    case GenericError => (0, 0)
    case InvalidArgument => (1, 0)
    case InvalidInstructionData => (2, 0)
    case InvalidAccountData => (3, 0)
    case AccountDataTooSmall => (4, 0)
    case InsufficientFunds => (5, 0)
    case IncorrectProgramId => (6, 0)
    case MissingRequiredSignature => (7, 0)
    case AccountAlreadyInitialized => (8, 0)
    case UninitializedAccount => (9, 0)
    case UnbalancedInstruction => (10, 0)
    case ModifiedProgramId => (11, 0)
    case ExternalAccountLamportSpend => (12, 0)
    case ExternalAccountDataModified => (13, 0)
    case ReadonlyLamportChange => (14, 0)
    case ReadonlyDataModified => (15, 0)
    case DuplicateAccountIndex => (16, 0)
    case ExecutableModified => (17, 0)
    case RentEpochModified => (18, 0)
    case NotEnoughAccountKeys => (19, 0)
    case AccountDataSizeChanged => (20, 0)
    case AccountNotExecutable => (21, 0)
    case AccountBorrowFailed => (22, 0)
    case AccountBorrowOutstanding => (23, 0)
    case DuplicateAccountOutOfSync => (24, 0)
    case Custom(code) => (25, code)
    case InvalidError => (26, 0)
    case ExecutableDataModified => (27, 0)
    case ExecutableLamportChange => (28, 0)
    case ExecutableAccountNotRentExempt => (29, 0)
    case UnsupportedProgramId => (30, 0)
    case CallDepth => (31, 0)
    case MissingAccount => (32, 0)
    case ReentrancyNotAllowed => (33, 0)
    case MaxSeedLengthExceeded => (34, 0)
    case InvalidSeeds => (35, 0)
    case InvalidRealloc => (36, 0)
    case ComputationalBudgetExceeded => (37, 0)
    case PrivilegeEscalation => (38, 0)
    case ProgramEnvironmentSetupFailure => (39, 0)
    case ProgramFailedToComplete => (40, 0)
    case ProgramFailedToCompile => (41, 0)
    case Immutable => (42, 0)
    case IncorrectAuthority => (43, 0)
    case BorshIoError => (44, 0)
    case AccountNotRentExempt => (45, 0)
    case InvalidAccountOwner => (46, 0)
    case ArithmeticOverflow => (47, 0)
    case UnsupportedSysvar => (48, 0)
    case IllegalOwner => (49, 0)
    case MaxAccountsDataAllocationsExceeded => (50, 0)
    case MaxAccountsExceeded => (51, 0)
    case MaxInstructionTraceLengthExceeded => (52, 0)
    case BuiltinProgramsMustConsumeComputeUnits => (53, 0)
  }

  /** Variant number, index byte, instruction error number, payload. */
  function EncodeError(e: TransactionError): (U8, U8, U8, U32) {
    match e
    case AccountInUse => (0, 0, 0, 0)
    case AccountLoadedTwice => (1, 0, 0, 0)
    case AccountNotFound => (2, 0, 0, 0)
    case ProgramAccountNotFound => (3, 0, 0, 0)
    case InsufficientFundsForFee => (4, 0, 0, 0)
    case InvalidAccountForFee => (5, 0, 0, 0)
    case AlreadyProcessed => (6, 0, 0, 0)
    case BlockhashNotFound => (7, 0, 0, 0)
    case InstructionFailed(index, cause) =>
      var (disc, custom) := EncodeInstructionError(cause);
      (8, index, disc, custom)
    case CallChainTooDeep => (9, 0, 0, 0)
    case MissingSignatureForFee => (10, 0, 0, 0)
    case InvalidAccountIndex => (11, 0, 0, 0)
    case SignatureFailure => (12, 0, 0, 0)
    case InvalidProgramForExecution => (13, 0, 0, 0)
    case SanitizeFailure => (14, 0, 0, 0)
    case ClusterMaintenance => (15, 0, 0, 0)
    case AccountBorrowOutstanding => (16, 0, 0, 0)
    case WouldExceedMaxBlockCostLimit => (17, 0, 0, 0)
    case UnsupportedVersion => (18, 0, 0, 0)
    case InvalidWritableAccount => (19, 0, 0, 0)
    case WouldExceedMaxAccountCostLimit => (20, 0, 0, 0)
    case WouldExceedAccountDataBlockLimit => (21, 0, 0, 0)
    case TooManyAccountLocks => (22, 0, 0, 0)
    case AddressLookupTableNotFound => (23, 0, 0, 0)
    case InvalidAddressLookupTableOwner => (24, 0, 0, 0)
    case InvalidAddressLookupTableData => (25, 0, 0, 0)
    case InvalidAddressLookupTableIndex => (26, 0, 0, 0)
    case InvalidRentPayingAccount => (27, 0, 0, 0)
    case WouldExceedMaxVoteCostLimit => (28, 0, 0, 0)
    case WouldExceedAccountDataTotalLimit => (29, 0, 0, 0)
    case DuplicateInstruction(index) => (30, index, 0, 0)
    case InsufficientFundsForRent(account) => (31, account, 0, 0)
    case MaxLoadedAccountsDataSizeExceeded => (32, 0, 0, 0)
    case InvalidLoadedAccountsDataSizeLimit => (33, 0, 0, 0)
    case ResanitizationNeeded => (34, 0, 0, 0)
    case ProgramExecutionTemporarilyRestricted(account) => (35, account, 0, 0)
    case UnbalancedTransaction => (36, 0, 0, 0)
    case ProgramCacheHitMaxLimit => (37, 0, 0, 0)
    case CommitCancelled => (38, 0, 0, 0)
    case Unlisted => (255, 0, 0, 0)
  }

  function ToBytes(r: Result<U64, TransactionError>): (bs: seq<Byte>)
    ensures |bs| == 16
  {
    match r
    case Ok(slot) => [0, 0, 0, 0] + [0, 0, 0, 0] + Write64(slot)
    case Err(e) =>
      var (disc, aux, inner, custom) := EncodeError(e);
      [1, disc, inner, aux] + Write32(custom) + [0, 0, 0, 0, 0, 0, 0, 0]
  }

  // ---- decoding -------------------------------------------------------------------------

  function DecodeInstructionError(disc: U8, custom: U32): Result<InstructionError, Error> {
    match disc
    case 0 => Ok(GenericError)
    case 1 => Ok(InvalidArgument)
    case 2 => Ok(InvalidInstructionData)
    case 3 => Ok(InvalidAccountData)
    case 4 => Ok(AccountDataTooSmall)
    case 5 => Ok(InsufficientFunds)
    case 6 => Ok(IncorrectProgramId)
    case 7 => Ok(MissingRequiredSignature)
    case 8 => Ok(AccountAlreadyInitialized)
    case 9 => Ok(UninitializedAccount)
    case 10 => Ok(UnbalancedInstruction)
    case 11 => Ok(ModifiedProgramId)
    case 12 => Ok(ExternalAccountLamportSpend)
    case 13 => Ok(ExternalAccountDataModified)
    case 14 => Ok(ReadonlyLamportChange)
    case 15 => Ok(ReadonlyDataModified)
    case 16 => Ok(DuplicateAccountIndex)
    case 17 => Ok(ExecutableModified)
    case 18 => Ok(RentEpochModified)
    case 19 => Ok(NotEnoughAccountKeys)
    case 20 => Ok(AccountDataSizeChanged)
    case 21 => Ok(AccountNotExecutable)
    case 22 => Ok(AccountBorrowFailed)
    case 23 => Ok(InstructionError.AccountBorrowOutstanding)
    case 24 => Ok(DuplicateAccountOutOfSync)
    case 25 => Ok(Custom(custom))
    case 26 => Ok(InvalidError)
    case 27 => Ok(ExecutableDataModified)
    case 28 => Ok(ExecutableLamportChange)
    case 29 => Ok(ExecutableAccountNotRentExempt)
    case 30 => Ok(UnsupportedProgramId)
    case 31 => Ok(CallDepth)
    case 32 => Ok(MissingAccount)
    case 33 => Ok(ReentrancyNotAllowed)
    case 34 => Ok(MaxSeedLengthExceeded)
    case 35 => Ok(InvalidSeeds)
    case 36 => Ok(InvalidRealloc)
    case 37 => Ok(ComputationalBudgetExceeded)
    case 38 => Ok(PrivilegeEscalation)
    case 39 => Ok(ProgramEnvironmentSetupFailure)
    case 40 => Ok(ProgramFailedToComplete)
    case 41 => Ok(ProgramFailedToCompile)
    case 42 => Ok(Immutable)
    case 43 => Ok(IncorrectAuthority)
    case 44 => Ok(BorshIoError)
    case 45 => Ok(AccountNotRentExempt)
    case 46 => Ok(InvalidAccountOwner)
    case 47 => Ok(ArithmeticOverflow)
    case 48 => Ok(UnsupportedSysvar)
    case 49 => Ok(IllegalOwner)
    case 50 => Ok(MaxAccountsDataAllocationsExceeded)
    case 51 => Ok(MaxAccountsExceeded)
    case 52 => Ok(MaxInstructionTraceLengthExceeded)
    case 53 => Ok(BuiltinProgramsMustConsumeComputeUnits)
    case _ => Err(OutOfRange)
  }

  function DecodeError(disc: U8, aux: U8, inner: U8, custom: U32): Result<TransactionError, Error> {
    match disc
    case 0 => Ok(AccountInUse)
    case 1 => Ok(AccountLoadedTwice)
    case 2 => Ok(AccountNotFound)
    case 3 => Ok(ProgramAccountNotFound)
    case 4 => Ok(InsufficientFundsForFee)
    case 5 => Ok(InvalidAccountForFee)
    case 6 => Ok(AlreadyProcessed)
    case 7 => Ok(BlockhashNotFound)
    case 8 =>
      var cause :- DecodeInstructionError(inner, custom);
      Ok(InstructionFailed(aux, cause))
    case 9 => Ok(CallChainTooDeep)
    case 10 => Ok(MissingSignatureForFee)
    case 11 => Ok(InvalidAccountIndex)
    case 12 => Ok(SignatureFailure)
    case 13 => Ok(InvalidProgramForExecution)
    case 14 => Ok(SanitizeFailure)
    case 15 => Ok(ClusterMaintenance)
    case 16 => Ok(TransactionError.AccountBorrowOutstanding)
    case 17 => Ok(WouldExceedMaxBlockCostLimit)
    case 18 => Ok(UnsupportedVersion)
    case 19 => Ok(InvalidWritableAccount)
    case 20 => Ok(WouldExceedMaxAccountCostLimit)
    case 21 => Ok(WouldExceedAccountDataBlockLimit)
    case 22 => Ok(TooManyAccountLocks)
    case 23 => Ok(AddressLookupTableNotFound)
    case 24 => Ok(InvalidAddressLookupTableOwner)
    case 25 => Ok(InvalidAddressLookupTableData)
    case 26 => Ok(InvalidAddressLookupTableIndex)
    case 27 => Ok(InvalidRentPayingAccount)
    case 28 => Ok(WouldExceedMaxVoteCostLimit)
    case 29 => Ok(WouldExceedAccountDataTotalLimit)
    case 30 => Ok(DuplicateInstruction(aux))
    case 31 => Ok(InsufficientFundsForRent(aux))
    case 32 => Ok(MaxLoadedAccountsDataSizeExceeded)
    case 33 => Ok(InvalidLoadedAccountsDataSizeLimit)
    case 34 => Ok(ResanitizationNeeded)
    case 35 => Ok(ProgramExecutionTemporarilyRestricted(aux))
    case 36 => Ok(UnbalancedTransaction)
    case 37 => Ok(ProgramCacheHitMaxLimit)
    case 38 => Ok(CommitCancelled)
    case _ => Err(OutOfRange)
  }

  function FromBytes(bs: seq<Byte>): Result<Result<U64, TransactionError>, Error>
    requires |bs| == 16
  {
    match bs[0]
    case 0 => Ok(Ok(Read64(bs[8..16])))
    case 1 =>
      var e :- DecodeError(bs[1], bs[3], bs[2], Read32(bs[4..8]));
      Ok(Err(e))
    case _ => Err(OutOfRange)
  }

  // ---- there and back -------------------------------------------------------------------

  predicate Encodable(r: Result<U64, TransactionError>) { r != Err(Unlisted) }

  lemma InstructionErrorRoundTrip(e: InstructionError)
    ensures var (disc, custom) := EncodeInstructionError(e);
            DecodeInstructionError(disc, custom) == Ok(e)
  {
  }

  lemma ErrorRoundTrip(e: TransactionError)
    ensures var (disc, aux, inner, custom) := EncodeError(e);
            DecodeError(disc, aux, inner, custom) == if e == Unlisted then Err(OutOfRange) else Ok(e)
  {
    if e.InstructionFailed? {
      InstructionErrorRoundTrip(e.cause);
    }
  }

  /** Decoding inverts encoding for every slot and every error but the unlisted ones, whose
      catch-all code is always rejected. */
  lemma RoundTrip(r: Result<U64, TransactionError>)
    ensures FromBytes(ToBytes(r)) == if Encodable(r) then Ok(r) else Err(OutOfRange)
  {
    var bs := ToBytes(r);
    match r
    case Ok(slot) =>
      There64(slot);
      assert bs[8..16] == Write64(slot);
    case Err(e) =>
      var (disc, aux, inner, custom) := EncodeError(e);
      ErrorRoundTrip(e);
      There32(custom);
      assert bs[4..8] == Write32(custom);
  }

  lemma Injective(r: Result<U64, TransactionError>, r': Result<U64, TransactionError>)
    requires ToBytes(r) == ToBytes(r') && Encodable(r)
    ensures r == r'
  {
    RoundTrip(r);
    RoundTrip(r');
  }

  /** Which 16-byte strings are accepted: those with a known tag and known discriminants. */
  lemma AcceptedIff(bs: seq<Byte>)
    requires |bs| == 16
    ensures FromBytes(bs).Ok? <==> bs[0] == 0 || (bs[0] == 1 && bs[1] <= 38 && (bs[1] == 8 ==> bs[2] <= 53))
  {
  }

  /** An accepted string need not be canonical, but what it decodes to survives another
      encoding and decoding. */
  lemma Canonical(bs: seq<Byte>)
    requires |bs| == 16 && FromBytes(bs).Ok?
    ensures Encodable(FromBytes(bs).value)
    ensures FromBytes(ToBytes(FromBytes(bs).value)) == FromBytes(bs)
  {
    RoundTrip(FromBytes(bs).value);
  }

  // ---- the numbers on the wire ----------------------------------------------------------

  /** The instruction errors in the order of their declaration, before `Custom` and after. */
  ghost function EarlyErrors(): (es: seq<InstructionError>)
    ensures |es| == 25
  {
    [GenericError, InvalidArgument, InvalidInstructionData, InvalidAccountData, AccountDataTooSmall,
     InsufficientFunds, IncorrectProgramId, MissingRequiredSignature, AccountAlreadyInitialized,
     UninitializedAccount, UnbalancedInstruction, ModifiedProgramId, ExternalAccountLamportSpend,
     ExternalAccountDataModified, ReadonlyLamportChange, ReadonlyDataModified,
     DuplicateAccountIndex, ExecutableModified, RentEpochModified, NotEnoughAccountKeys,
     AccountDataSizeChanged, AccountNotExecutable, AccountBorrowFailed,
     InstructionError.AccountBorrowOutstanding, DuplicateAccountOutOfSync]
  }

  ghost function LateErrors(): (es: seq<InstructionError>)
    ensures |es| == 28
  {
    [InvalidError, ExecutableDataModified, ExecutableLamportChange, ExecutableAccountNotRentExempt,
     UnsupportedProgramId, CallDepth, MissingAccount, ReentrancyNotAllowed, MaxSeedLengthExceeded,
     InvalidSeeds, InvalidRealloc, ComputationalBudgetExceeded, PrivilegeEscalation,
     ProgramEnvironmentSetupFailure, ProgramFailedToComplete, ProgramFailedToCompile, Immutable,
     IncorrectAuthority, BorshIoError, AccountNotRentExempt, InvalidAccountOwner,
     ArithmeticOverflow, UnsupportedSysvar, IllegalOwner, MaxAccountsDataAllocationsExceeded,
     MaxAccountsExceeded, MaxInstructionTraceLengthExceeded, BuiltinProgramsMustConsumeComputeUnits]
  }

  /** All of them, `Custom` carrying `code`. */
  ghost function InstructionErrors(code: U32): (es: seq<InstructionError>)
    ensures |es| == 54
  {
    EarlyErrors() + [Custom(code)] + LateErrors()
  }

  /** The transaction errors in the order of their declaration, with this payload. */
  ghost function TransactionErrors(index: U8, cause: InstructionError): (es: seq<TransactionError>)
    ensures |es| == 39
  {
    [AccountInUse, AccountLoadedTwice, AccountNotFound, ProgramAccountNotFound,
     InsufficientFundsForFee, InvalidAccountForFee, AlreadyProcessed, BlockhashNotFound,
     InstructionFailed(index, cause), CallChainTooDeep, MissingSignatureForFee, InvalidAccountIndex,
     SignatureFailure, InvalidProgramForExecution, SanitizeFailure, ClusterMaintenance,
     TransactionError.AccountBorrowOutstanding, WouldExceedMaxBlockCostLimit, UnsupportedVersion,
     InvalidWritableAccount, WouldExceedMaxAccountCostLimit, WouldExceedAccountDataBlockLimit,
     TooManyAccountLocks, AddressLookupTableNotFound, InvalidAddressLookupTableOwner,
     InvalidAddressLookupTableData, InvalidAddressLookupTableIndex, InvalidRentPayingAccount,
     WouldExceedMaxVoteCostLimit, WouldExceedAccountDataTotalLimit, DuplicateInstruction(index),
     InsufficientFundsForRent(index), MaxLoadedAccountsDataSizeExceeded,
     InvalidLoadedAccountsDataSizeLimit, ResanitizationNeeded,
     ProgramExecutionTemporarilyRestricted(index), UnbalancedTransaction, ProgramCacheHitMaxLimit,
     CommitCancelled]
  }

  lemma InstructionErrorNumber(e: InstructionError)
    ensures var (k, code) := EncodeInstructionError(e);
            && k < 54 && InstructionErrors(code)[k] == e
            && code == if e.Custom? then e.code else 0
  {
    var (k, code) := EncodeInstructionError(e);
    InstructionErrorRoundTrip(e);
    InstructionErrorDecodes(k, code);
  }

  lemma ErrorNumber(e: TransactionError, cause: InstructionError)
    requires e != Unlisted && (e.InstructionFailed? ==> e.cause == cause)
    ensures var (k, index, inner, code) := EncodeError(e);
            && k < 39 && TransactionErrors(index, cause)[k] == e
            && (!e.InstructionFailed? ==> inner == 0 && code == 0)
            && (k != 8 && k != 30 && k != 31 && k != 35 ==> index == 0)
            && (e.InstructionFailed? ==> (inner, code) == EncodeInstructionError(cause))
  {
    var (k, index, inner, code) := EncodeError(e);
    ErrorRoundTrip(e);
    if e.InstructionFailed? {
      InstructionErrorRoundTrip(cause);
    }
    ErrorDecodes(k, index, inner, code, cause);
  }

  /** The encoding of an error, byte by byte: the tag; the error's place in the declaration
      order; the place of its cause; the index it carries; the custom code; eight zeros. */
  lemma ErrorBytes(e: TransactionError, cause: InstructionError)
    requires e != Unlisted && (e.InstructionFailed? ==> e.cause == cause)
    ensures var bs := ToBytes(Err(e));
            && bs[0] == 1
            && bs[1] < 39 && TransactionErrors(bs[3], cause)[bs[1]] == e
            && (e.InstructionFailed? ==> bs[2] < 54 && InstructionErrors(LengthAt(bs, 4))[bs[2]] == cause)
            && (!e.InstructionFailed? ==> bs[2] == 0)
            && IntAt(bs, 4, if e.InstructionFailed? && cause.Custom? then cause.code else 0, 4)
            && bs[8..16] == [0, 0, 0, 0, 0, 0, 0, 0]
  {
    var bs := ToBytes(Err(e));
    var (k, index, inner, code) := EncodeError(e);
    ErrorNumber(e, cause);
    InstructionErrorNumber(cause);
    There32(code);
    assert bs[4..8] == Write32(code);
    LengthRead(bs, 4);
    DigitsAt(bs, 4, code, 4);
  }

  /** Errors without a number of their own are all written as 255, which no reader accepts. */
  lemma CatchAll()
    ensures ToBytes(Err(Unlisted))[..2] == [1, 255]
    ensures forall bs: seq<Byte> :: |bs| == 16 && bs[0] == 1 && bs[1] == 255 ==> FromBytes(bs) == Err(OutOfRange)
  {
  }

  /** The encoding of a slot: eight zeros and the slot, least significant byte first. */
  lemma SlotBytes(slot: U64)
    ensures ToBytes(Ok(slot))[..8] == [0, 0, 0, 0, 0, 0, 0, 0]
    ensures IntAt(ToBytes(Ok(slot)), 8, slot, 8)
  {
    var bs := ToBytes(Ok(slot));
    assert bs[8..16] == Write64(slot);
    DigitsAt(bs, 8, slot, 8);
  }

  lemma InstructionErrorDecodes(k: U8, code: U32)
    ensures DecodeInstructionError(k, code) == if k < 54 then Ok(InstructionErrors(code)[k]) else Err(OutOfRange)
  {
  }

  lemma ErrorDecodes(k: U8, index: U8, inner: U8, code: U32, cause: InstructionError)
    requires k == 8 ==> DecodeInstructionError(inner, code) == Ok(cause)
    ensures DecodeError(k, index, inner, code) == if k < 39 then Ok(TransactionErrors(index, cause)[k]) else Err(OutOfRange)
  {
  }

  /** What a 16-byte string means, canonical or not: tag 0 is the slot in its last eight
      bytes; tag 1 the error at the place it names, with the index and cause it names;
      everything else is out of range. */
  lemma Meaning(bs: seq<Byte>)
    requires |bs| == 16
    ensures bs[0] == 0 ==> FromBytes(bs).Ok? && FromBytes(bs).value.Ok? && IntAt(bs, 8, FromBytes(bs).value.value, 8)
    ensures bs[0] == 1 && bs[1] != 8 ==>
              FromBytes(bs) == if bs[1] < 39 then Ok(Err(TransactionErrors(bs[3], GenericError)[bs[1]]))
                               else Err(OutOfRange)
    ensures bs[0] == 1 && bs[1] == 8 ==>
              FromBytes(bs) == if bs[2] < 54 then Ok(Err(InstructionFailed(bs[3], InstructionErrors(LengthAt(bs, 4))[bs[2]])))
                               else Err(OutOfRange)
    ensures bs[0] > 1 ==> FromBytes(bs) == Err(OutOfRange)
  {
    LengthRead(bs, 4);
    if bs[0] == 0 {
      Back64(bs[8..16]);
      DigitsAt(bs, 8, Read64(bs[8..16]), 8);
    } else if bs[0] == 1 {
      var code := Read32(bs[4..8]);
      InstructionErrorDecodes(bs[2], code);
      if bs[1] != 8 {
        ErrorDecodes(bs[1], bs[3], bs[2], code, GenericError);
      } else if bs[2] < 54 {
        ErrorDecodes(bs[1], bs[3], bs[2], code, InstructionErrors(code)[bs[2]]);
      }
    }
  }
}
