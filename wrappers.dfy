/** Option and Result values, and the Python exceptions the converter can raise. */
module Wrappers {

  datatype Option<+T> = None | Some(value: T)

  /** An exception raised by the conversion; every one aborts the whole run. */
  datatype Exception =
    | IndexError                 // a pipeline stage or rank that is not there
    | ZeroDivisionError          // hidden_size // num_attention_heads with no heads
    | KeyError(key: string)      // dict.pop of a tensor name that is absent
    | ReshapeError(key: string)  // the named fused tensor cannot take the QKV shape
    | MatmulError                // codebook.mm(proj.T) on shapes that do not multiply
    | ValueError(name: string)   // a shard file name that does not parse

  /** Either a value or the exception that aborted the computation. */
  datatype Result<+T> = Ok(value: T) | Err(error: Exception) {

    predicate IsFailure() {
      Err?
    }

    function PropagateFailure<U>(): Result<U>
      requires Err?
    {
      Err(error)
    }

    function Extract(): T
      requires Ok?
    {
      value
    }
  }
}
