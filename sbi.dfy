/** Machine words and the SBI return value that every extension handler produces.
    The error encoding is the one of section 3 (Binary Encoding) of the RISC-V
    Supervisor Binary Interface specification. Words are 64 bits wide (RV64). */
module Sbi {

  /** An unsigned machine word (`usize` on a 64-bit hart). */
  type Usize = x: int | 0 <= x < 0x1_0000_0000_0000_0000

  /** A `u64`: the initial value handed to a counter on start. */
  type U64 = x: int | 0 <= x < 0x1_0000_0000_0000_0000

  /** A signed machine word. */
  type Isize = x: int | -0x8000_0000_0000_0000 <= x < 0x8000_0000_0000_0000

  datatype Option<T> = None | Some(value: T)

  // Standard SBI error codes.
  const SBI_SUCCESS: Isize := 0
  const SBI_ERR_FAILED: Isize := -1
  const SBI_ERR_NOT_SUPPORTED: Isize := -2
  const SBI_ERR_INVALID_PARAM: Isize := -3
  const SBI_ERR_DENIED: Isize := -4
  const SBI_ERR_INVALID_ADDRESS: Isize := -5
  const SBI_ERR_ALREADY_AVAILABLE: Isize := -6
  const SBI_ERR_ALREADY_STARTED: Isize := -7
  const SBI_ERR_ALREADY_STOPPED: Isize := -8

  /** The two return registers of an SBI call: an error code and a value.
      Built fresh for every call and returned by value. */
  datatype SbiRet = SbiRet(error: Isize, value: Isize)
  {
    /** `SbiRet::not_supported()`: the answer for a missing provider or an unknown function. */
    static function NotSupported(): SbiRet
    {
      SbiRet(SBI_ERR_NOT_SUPPORTED, 0)
    }

    /** A successful call that carries `value`. */
    static function Ok(value: Isize): SbiRet
    {
      SbiRet(SBI_SUCCESS, value)
    }
  }

  /** The error taxonomy, one constructor per standard code. */
  datatype SbiError =
    | Success
    | ErrFailed
    | ErrNotSupported
    | ErrInvalidParam
    | ErrDenied
    | ErrInvalidAddress
    | ErrAlreadyAvailable
    | ErrAlreadyStarted
    | ErrAlreadyStopped

  /** The wire value of an error: never positive, and zero exactly for success. */
  function Code(e: SbiError): (c: Isize)
    ensures -8 <= c <= 0
    ensures c == SBI_SUCCESS <==> e == Success
  {
    match e
    case Success => SBI_SUCCESS
    case ErrFailed => SBI_ERR_FAILED
    case ErrNotSupported => SBI_ERR_NOT_SUPPORTED
    case ErrInvalidParam => SBI_ERR_INVALID_PARAM
    case ErrDenied => SBI_ERR_DENIED
    case ErrInvalidAddress => SBI_ERR_INVALID_ADDRESS
    case ErrAlreadyAvailable => SBI_ERR_ALREADY_AVAILABLE
    case ErrAlreadyStarted => SBI_ERR_ALREADY_STARTED
    case ErrAlreadyStopped => SBI_ERR_ALREADY_STOPPED
  }

  /** Decodes an error register; `None` for a value outside the standard taxonomy. */
  function ErrorOf(c: Isize): (r: Option<SbiError>)
    ensures r.Some? <==> -8 <= c <= 0
    ensures r.Some? ==> Code(r.value) == c
  {
    if c == SBI_SUCCESS then Some(Success)
    else if c == SBI_ERR_FAILED then Some(ErrFailed)
    else if c == SBI_ERR_NOT_SUPPORTED then Some(ErrNotSupported)
    else if c == SBI_ERR_INVALID_PARAM then Some(ErrInvalidParam)
    else if c == SBI_ERR_DENIED then Some(ErrDenied)
    else if c == SBI_ERR_INVALID_ADDRESS then Some(ErrInvalidAddress)
    else if c == SBI_ERR_ALREADY_AVAILABLE then Some(ErrAlreadyAvailable)
    else if c == SBI_ERR_ALREADY_STARTED then Some(ErrAlreadyStarted)
    else if c == SBI_ERR_ALREADY_STOPPED then Some(ErrAlreadyStopped)
    else None
  }

  /** Decoding undoes encoding, so no two errors share a code. */
  lemma ErrorOfCode(e: SbiError)
    ensures ErrorOf(Code(e)) == Some(e)
  {
  }

  /** An `SbiRet` whose error register holds one of the standard codes. */
  predicate WellFormed(r: SbiRet)
  {
    ErrorOf(r.error).Some?
  }

  /** `not_supported()` is a standard answer and reports the `ErrNotSupported` error. */
  lemma NotSupportedIsStandard()
    ensures WellFormed(SbiRet.NotSupported())
    ensures ErrorOf(SbiRet.NotSupported().error) == Some(ErrNotSupported)
    ensures SbiRet.NotSupported().value == 0
  {
  }
}
