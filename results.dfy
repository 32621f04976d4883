/** Failure results that stand for the scripts' `sys.exit` error paths. */
module Results {

  /** Why a font file could not be processed. */
  datatype Error =
    /** The extension is neither `.ttf` nor `.otf`; `shown` is the name the message quotes. */
    | NotFontFile(shown: string)
    /** `split_fontname[1]` raised IndexError: the name holds no space. */
    | IndexOutOfRange

  datatype Result<+T> = Ok(value: T) | Err(error: Error) {
    predicate IsFailure() { Err? }

    function PropagateFailure<U>(): Result<U>
      requires Err?
    {
      Err(error)
    }

    function Extract(): T
      requires Ok?
    {
      value
    }
  }
}
