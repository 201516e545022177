/** The Python values, exceptions and outcomes the main wrapper handles. */
module PyValues {

  datatype Option<+T> = None | Some(value: T)

  /** Exception classes, each standing for itself and its subclasses. */
  datatype ExcKind =
    | OSError            // also IOError, FileNotFoundError, IsADirectoryError, PermissionError, ...
    | ImportError        // also ModuleNotFoundError
    | ArgumentTypeError  // argparse.ArgumentTypeError
    | KeyError
    | AttributeError
    | IndexError
    | OtherError(name: string)  // SyntaxError, ValueError, UnicodeDecodeError, ... caught nowhere in the core

  /** An exception instance. For a KeyError the message is the missing key, for an
      AttributeError the missing attribute's name, otherwise the text of `str(e)`. */
  datatype Exc = Exc(kind: ExcKind, message: string)

  /** An `importlib` module spec, reduced to what `exec_main` copies into `__main__`. */
  datatype ModuleSpec = ModuleSpec(name: string, parent: string, loader: nat)

  /** The values that can be bound in a namespace. Objects the core only passes
      around (a loader, the builtins module, anything the payload binds) are `Object`s. */
  datatype Value =
    | NoneValue
    | Str(s: string)
    | Spec(spec: ModuleSpec)
    | Object(id: nat)

  /** What `main_type` hands to `exec_main` as `code`. */
  datatype Payload =
    | CodeObject(filename: string, source: string)  // a code object: its `co_filename` and the text it was compiled from
    | Function(filename: string, name: string)      // a Python function: `__code__.co_filename` and its name
    | OtherObject(id: nat)                          // anything else an entry point may resolve to (a class, a builtin)

  /** How running a payload ended: it returned, raised, or raised `SystemExit(code)`. */
  datatype Outcome = Return(value: Value) | Raise(error: Exc) | Exit(code: Value)

  /** A value or the exception raised instead of it. */
  datatype Result<+T> = Ok(value: T) | Err(error: Exc)
}
