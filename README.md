# python-main-wrapper, modelled in Dafny

`mainwrapper` runs a Python target as if it were the program's `__main__` module,
optionally after first running a "wrapper" target that sets up the process (a
debugger, a profiler, an environment shim). A target is a string naming a script
file, a setuptools entry point (`module:attrs`, or `name = module:attrs`) or a
`-m` style module or package.

The model covers the three pieces of `src/mainwrapper/__init__.py` that do this:

- **`main_type`** (module `Resolver`, file `resolver.dfy`): the ordered decision
  procedure that turns a target string into a loadable unit — a readable file first,
  then an entry point when the string has a `:`, then a module or package through
  runpy — or raises the "Could not resolve ..." error. It is a pure function
  `MainType(arg, p)` over a `Platform` record. The record stands for the foreign
  calls: reading a file, compiling it, resolving an entry point and runpy's module
  lookup. Each one is reduced to what it returns or raises for a given string.
- **`exec_main`** (module `Executor`, file `executor.dfy`): class `MainContext` holds
  the `__main__` namespace (a `map<string, Value>`), `sys.argv` (a `seq<string>`) and
  the rest of the process state. Method `ExecMain` does what the source does: it takes
  a snapshot, fails before the `try` on a missing `__builtins__` or a payload without
  a `co_filename`, clears and refills `__main__`, rewrites `sys.argv`, runs the payload
  and restores both in the `finally` part. The payload is an arbitrary function `Run`
  from the context it starts in to everything it may change and how it ends
  (`Return`, `Raise` or `Exit` for `SystemExit`). The method is proved against the
  specification function `RunAsMain`.
- **`main`**: method `MainContext.RunWrapped` runs the wrapper with no arguments and
  tolerates only its `SystemExit`. It then runs the script with the remaining
  arguments. It is proved against the function `Drive`.

Supporting modules model the platform behaviour that the core's observable results
depend on:

- `PyRepr` (`pyrepr.dfy`): Python 3's `repr` of a `str`, which the error message uses,
  with a reader that proves nothing is lost.
- `PurePath` (`purepath.dfy`): POSIX `pathlib` normalisation. It gives `str(path)`,
  which becomes the code object's file name and `__file__`, and `path.name`, which
  becomes `sys.argv[0]`.
- `PyValues` (`pyvalues.dfy`): values, exceptions, payloads and outcomes.

Behaviour of `main_type` and `exec_main` that the model keeps, including the edge cases:

- Only an `OSError`/`IOError` from reading the file makes `main_type` try the next
  interpretation. Any other read error propagates, for example a `UnicodeDecodeError`
  or the `ValueError` for an embedded NUL. So does a compile error.
- `main_type` tries a file first, then an entry point, then a module.
- A resolved entry-point value that is neither a function nor a code object has no
  `co_filename`: `exec_main` raises `AttributeError` before changing anything.
- `sys.argv[0] = ...` on an empty `sys.argv` raises `IndexError` inside the `try`.
  `__main__` has already been replaced at that point, and it is restored.
- `exec` of a code object returns `None`. So `exec_main` hands back `None` for a
  script or module, and the callee's own return value only for a function.

## Model

| member | source | states |
|---|---|---|
| `Resolver.MainType` | src/mainwrapper/__init__.py:36-85 | `main_type`: a resolved readable file is always the script compiled from it, without a spec; a module spec is only ever produced for a target without `:` |
| `Resolver.FileWins` | src/mainwrapper/__init__.py:42-57 | a readable file resolves as the script compiled from its text under its normalised path, with no module spec, whatever else the string could name; a compile error propagates |
| `Resolver.ReadErrorPropagates` | src/mainwrapper/__init__.py:44-53 | only an `OSError` from reading is a silent failed guess; any other read exception is the result |
| `Resolver.EntryPointSource` | src/mainwrapper/__init__.py:60-63 | the declaration parsed always contains `=` and ends with the target; it is the target itself exactly when the target has `=`, otherwise the target behind `_=` |
| `Resolver.EntryPointBranch` | src/mainwrapper/__init__.py:59-65 | after an `OSError`, a target with `:` resolves to the entry point of its rewritten declaration with no module spec, a resolution failure propagates unchanged, and the module lookup is never consulted |
| `Resolver.ModuleBranch` | src/mainwrapper/__init__.py:67-78 | a result with a module spec comes exactly when the read failed with `OSError`, there is no `:` and runpy found code, and it is runpy's spec and code |
| `Resolver.ModuleErrors` | src/mainwrapper/__init__.py:67-76 | the module lookup's `ImportError` falls through to the final error; any other lookup failure propagates |
| `Resolver.UnresolvedTarget` | src/mainwrapper/__init__.py:67-85 | the final `ArgumentTypeError` is raised when every interpretation failed, and only then unless a foreign call raised that same exception |
| `Resolver.MessageNamesTarget` | src/mainwrapper/__init__.py:80-85 | the message is the fixed opening, a Python literal that reads back as exactly the target, and the fixed closing words |
| `Resolver.MessageQuotesPlainTarget` | src/mainwrapper/__init__.py:80-85 | for a target of characters `repr` copies unchanged (no `'`, no `\`, none of U+0000–U+001F, U+007F–U+00A0, U+00AD) the message starts with `Could not resolve '<target>'` |
| `Resolver.NonExistentWrapperMessage` | src/mainwrapper/tests/test_mainwrapper.py:71-82 | the message for `__non_existent_wrapper__` contains `Could not resolve '__non_existent_wrapper__'` |
| `PyRepr.ReprRoundTrip` | src/mainwrapper/__init__.py:80-85 | the `{!r}` rendering loses nothing: reading the literal back gives the original string |
| `PyRepr.ReprOfPlain` | src/mainwrapper/__init__.py:80-85 | a string of plain characters is rendered as itself between single quotes |
| `PurePath.PathStrIdempotent` | src/mainwrapper/__init__.py:123-132 | normalising a path twice is normalising it once, so `__file__` of a compiled script is its normalised path |
| `PurePath.NameOfPathStr` | src/mainwrapper/__init__.py:146 | the final component is the same before and after normalisation |
| `PurePath.NameIsComponent` | src/mainwrapper/__init__.py:146 | `argv[0]` is a single component (no `/`, not `.`) or empty |
| `PurePath.NameOfChild` | src/mainwrapper/__init__.py:146 | the name of `dir/n` is `n` |
| `Executor.MainNamespace` | src/mainwrapper/__init__.py:126-144 | while the payload runs, `__main__`'s keys are exactly the four entry keys, plus `__package__`, `__loader__`, `__spec__` when there is a spec, bound to `"__main__"`, the normalised code path, `None`, the original builtins, and the spec's parent, loader and the spec |
| `Executor.Substitution` | src/mainwrapper/__init__.py:116-147 | the payload's context exists exactly when `__builtins__` is bound, the code has a file name and `sys.argv` is non-empty; otherwise `KeyError`, `AttributeError` or `IndexError` in that order; argv is the code path's final component followed by the arguments |
| `Executor.ClearAndUpdate` | src/mainwrapper/__init__.py:128-144 | clearing `__main__` and updating it with the entry bindings, then the module bindings, gives that namespace |
| `Executor.MainContext.ExecMain` | src/mainwrapper/__init__.py:111-158 | on every path (return, raise, `SystemExit`, failure before the `try`) `__main__` and `sys.argv` end equal to their values on entry, including removal of keys the payload added; outcome and process state are `RunAsMain`'s |
| `Executor.MainContext.Substitute` | src/mainwrapper/__init__.py:127-152 | the payload runs on exactly the substituted namespace and argv, which it may leave changed; an empty argv raises `IndexError` without running it, after `__main__` was replaced and with argv still empty |
| `Executor.OutcomePassedOn` | src/mainwrapper/__init__.py:149-158 | the payload's exception or `SystemExit` comes out unchanged, a function's return value is returned unchanged, a code object's completion gives `None` |
| `Executor.FailureBeforeRun` | src/mainwrapper/__init__.py:116-125 | a failure before the payload starts raises without running it and leaves the process state untouched |
| `Executor.ScriptContext` | src/mainwrapper/__init__.py:122-147 | a script resolved from path `P` runs with `__file__` the normalised `P` and `sys.argv == [basename(P)] + args` |
| `Executor.MainContext.RunWrapped` | src/mainwrapper/__init__.py:191-203 | `main` leaves `__main__` and `sys.argv` as they were; its outcome and process state are `Drive`'s |
| `Executor.ScriptRunsAfterWrapper` | src/mainwrapper/__init__.py:194-203 | a wrapper that returns or raises `SystemExit` is tolerated; the script then runs on the restored namespace and argv |
| `Executor.WrapperErrorStops` | src/mainwrapper/__init__.py:194-200 | any other wrapper exception is `main`'s result, whatever the script is; the script never runs |
| `Executor.WrapperStatePersists` | src/mainwrapper/__init__.py:194-203 | process state the wrapper's payload changed outside `__main__` is what the script's payload starts from |

## Left out

- Command-line parsing (`src/mainwrapper/__init__.py:88-108`) and the `wrap_main`
  decorator (`src/mainwrapper/__init__.py:161-188`) are argparse glue. `RunWrapped` takes the
  two resolved units and the remaining arguments. It does not model argparse calling
  `main_type`, or how argparse turns a resolution error into a usage message and exit
  status 2.
- The foreign calls are oracles in `Resolver.Platform` and nothing is said about
  their behaviour: `Path.read_text`, `compile` (only whether it raises),
  `pkg_resources.EntryPoint.parse`/`resolve` and `runpy._get_module_details`.
  Running the payload (`six.exec_` or calling the function) is the arbitrary `Run`
  function. The payload cannot call `exec_main` re-entrantly.
- Executor.MainContext.ExecMain: restoration is stated on values. The source's
  snapshot is a shallow copy. Changes a payload makes inside mutable objects bound in
  `__main__` are not undone there. The model's values are immutable, so it cannot
  express those changes. List identity of `sys.argv` is not modelled either. The
  payload is assumed to leave `sys.argv` bound to a list: a payload that deletes it or
  rebinds it to a non-list makes `sys.argv[:] = orig_argv` raise in the source, so
  `__main__` is then not restored and that error replaces the payload's outcome; the
  model's `Run` cannot express this.
- Executor.MainContext.RunWrapped: inherits the same assumption. A wrapper or script
  payload that leaves `sys.argv` unbound or not a list breaks the restoration there too.
- Exception classes are flattened to their base (`FileNotFoundError` is an
  `OSError`, `ModuleNotFoundError` an `ImportError`). A `KeyError` or
  `AttributeError` carries the key or attribute name, not the full `str(e)` text.
- A payload that is neither a function nor a code object but still has a
  `co_filename` attribute is not modelled (the source would fail in `exec` with a
  `TypeError`). Every other payload stands for an object without one.
- `PyRepr.Repr`: characters above U+00FF are treated as printable. Python consults
  the Unicode database there and writes non-printable ones as `\u`/`\U` escapes. The
  Python 2 `u'...'` form is not modelled.
- `PurePath`: POSIX paths only. Windows drive letters and separators are not modelled.
- Logging, the Python 2 import shims and version handling
  (`src/mainwrapper/__init__.py:17-33`) have no behaviour to state.
- `src/mainwrapper/__main__.py` (`sys.exit(main())`) and `setup.py` are not part of
  this model.
