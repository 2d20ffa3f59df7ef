/** Option and Result types, and the Python exceptions the modelled code can raise. */
module Wrappers {

  datatype Option<+T> = None | Some(value: T)

  /** The exceptions that escape the modelled functions, named after the Python ones. */
  datatype Fault =
    | RecursionLimit     // RecursionError: is_in_check and is_legal_chess_move re-entering each other
    | AttributeError     // `.full_name` / `.chessman` read on None
    | TypeError          // an int used as a coordinate
    | KeyError           // a dictionary lookup with a missing key
    | IndexError         // a list index out of range
    | ValueError         // "Bad coordinates."
    | UncommittedMoves   // Exception('Log has uncommitted moves.')
    | NoLegalUniverse    // Exception('Move is not legal in any universe.')
    | NoValidMoves       // Exception('No valid moves from source square.')

  /** The value a Python call returns, or the exception it raises. */
  datatype Result<+T> = Ok(value: T) | Err(fault: Fault)
}
