/** `exec_main` and `main`: running a loadable unit as if it were the program's `__main__`
    module, with `sys.argv` rewritten for it, and putting both back however it ends. */
module Executor {
  import opened PyValues
  import PurePath
  import opened Resolver

  /** A module namespace, such as `vars(__main__)`. */
  type Namespace = map<string, Value>

  /** Process-wide state outside `__main__` and `sys.argv` (imported modules, the
      environment, ...): the payload may change it and nothing restores it. */
  type Process = map<string, Value>

  /** Everything a payload may change while it runs, and how it ends. */
  datatype Effect = Effect(namespace: Namespace, argv: seq<string>, process: Process, outcome: Outcome)

  /** Running a payload: from the namespace, argv and process state it starts in, to its
      effect. For a code object, `Return` only means that it ran to its end. */
  type Run = (Namespace, seq<string>, Process) -> Effect

  /** The context the payload starts in. */
  datatype Context = Context(namespace: Namespace, argv: seq<string>)

  const EntryKeys: set<string> := {"__name__", "__file__", "__cached__", "__builtins__"}
  const SpecKeys: set<string> := {"__package__", "__loader__", "__spec__"}

  const MissingBuiltins := Exc(KeyError, "__builtins__")
  const NoFilename := Exc(AttributeError, "co_filename")
  const EmptyArgv := Exc(IndexError, "list assignment index out of range")

  /** The context `exec_main` sets up for `unit` and `args`, starting from the namespace
      `ns` and the argv `argv`, or the exception it raises first. */
  function Substitution(unit: Unit, args: seq<string>, ns: Namespace, argv: seq<string>): (r: Result<Context>)
    ensures r.Ok? <==> "__builtins__" in ns && !unit.code.OtherObject? && argv != []
    ensures "__builtins__" !in ns ==> r == Err(MissingBuiltins)
    ensures "__builtins__" in ns && unit.code.OtherObject? ==> r == Err(NoFilename)
    ensures "__builtins__" in ns && !unit.code.OtherObject? && argv == [] ==> r == Err(EmptyArgv)
    ensures r.Ok? ==> r.value.namespace == MainNamespace(unit.spec, unit.code.filename, ns["__builtins__"])
    ensures r.Ok? ==>
      var name := PurePath.Name(unit.code.filename);
      |r.value.argv| == |args| + 1 && r.value.argv[0] == name && r.value.argv[1..] == args &&
      '/' !in name
  {
    if "__builtins__" !in ns then Err(MissingBuiltins)
    else if unit.code.OtherObject? then Err(NoFilename)
    else if argv == [] then Err(EmptyArgv)
    else
      var file := unit.code.filename;
      PurePath.NameIsComponent(file);
      Ok(Context(MainNamespace(unit.spec, file, ns["__builtins__"]), [PurePath.Name(file)] + args))
  }

  /** The bindings `__main__` holds while the payload runs. */
  function MainNamespace(spec: Option<ModuleSpec>, file: string, builtins: Value): (main: Namespace)
    ensures main.Keys == (if spec.Some? then EntryKeys + SpecKeys else EntryKeys)
    ensures main["__name__"] == Str("__main__")
    ensures main["__file__"] == Str(PurePath.PathStr(file))
    ensures main["__cached__"] == NoneValue
    ensures main["__builtins__"] == builtins
    ensures spec.Some? ==>
      main["__package__"] == Str(spec.value.parent) &&
      main["__loader__"] == Object(spec.value.loader) &&
      main["__spec__"] == Spec(spec.value)
  {
    var base := map["__name__" := Str("__main__"), "__file__" := Str(PurePath.PathStr(file)),
                    "__cached__" := NoneValue, "__builtins__" := builtins];
    match spec
    case None => base
    case Some(s) => base["__package__" := Str(s.parent)]["__loader__" := Object(s.loader)]["__spec__" := Spec(s)]
  }

  /** What `exec_main` returns or raises for the payload's outcome: running a code
      object with `exec` gives None, a function's own return value is passed on. */
  function Delivered(code: Payload, o: Outcome): Outcome {
    if code.CodeObject? && o.Return? then Return(NoneValue) else o
  }

  /** `exec_main(unit, *args)` on the namespace `ns`, argv `argv` and process state
      `process`: its outcome and the process state it leaves behind. */
  function RunAsMain(unit: Unit, args: seq<string>, run: Run, ns: Namespace, argv: seq<string>, process: Process): (Outcome, Process) {
    match Substitution(unit, args, ns, argv)
    case Err(e) => (Raise(e), process)
    case Ok(ctx) =>
      var effect := run(ctx.namespace, ctx.argv, process);
      (Delivered(unit.code, effect.outcome), effect.process)
  }

  /** `main`: run the wrapper with no arguments, tolerate its `SystemExit`, then run the
      script with the remaining arguments. */
  function Drive(wrapper: Unit, wrapperRun: Run, script: Unit, scriptRun: Run, remaining: seq<string>,
                 ns: Namespace, argv: seq<string>, process: Process): (Outcome, Process) {
    var (w, afterWrapper) := RunAsMain(wrapper, [], wrapperRun, ns, argv, process);
    if w.Raise? then (w, afterWrapper)
    else RunAsMain(script, remaining, scriptRun, ns, argv, afterWrapper)
  }

  /** The interpreter state `exec_main` works on. */
  class MainContext {
    var namespace: Namespace   // vars(__main__)
    var argv: seq<string>      // sys.argv
    var process: Process       // everything else in the process

    constructor (namespace: Namespace, argv: seq<string>, process: Process)
      ensures this.namespace == namespace && this.argv == argv && this.process == process
    {
      this.namespace, this.argv, this.process := namespace, argv, process;
    }

    /** `exec_main(module_spec, code, *args)`: whatever the payload does and however it
        ends, `__main__` and `sys.argv` are afterwards exactly what they were. */
    method ExecMain(unit: Unit, args: seq<string>, run: Run) returns (outcome: Outcome)
      modifies this
      ensures namespace == old(namespace) && argv == old(argv)
      ensures (outcome, process) == RunAsMain(unit, args, run, old(namespace), old(argv), old(process))
    {
      var origMain := namespace;
      if "__builtins__" !in namespace {
        return Raise(MissingBuiltins);
      }
      var builtins := namespace["__builtins__"];
      var origArgv := argv;
      var codePath: string;
      match unit.code {
        case CodeObject(filename, _) => codePath := filename;
        case Function(filename, _) => codePath := filename;
        case OtherObject(_) => return Raise(NoFilename);
      }

      // try:
      outcome := Substitute(unit, args, run, codePath, builtins);
      assert Substitution(unit, args, origMain, origArgv) ==
             if origArgv == [] then Err(EmptyArgv)
             else Ok(Context(MainNamespace(unit.spec, codePath, builtins), [PurePath.Name(codePath)] + args));

      // finally:
      argv := origArgv;
      namespace := map[];
      namespace := namespace + origMain;
    }

    /** The body of `exec_main`'s `try`: clear `__main__` and fill it for the unit,
        point `sys.argv` at the code and the arguments, and run the payload there.
        With an empty `sys.argv` the assignment to its first item raises. */
    method Substitute(unit: Unit, args: seq<string>, run: Run, codePath: string, builtins: Value)
      returns (outcome: Outcome)
      modifies this
      ensures old(argv) == [] ==>
                outcome == Raise(EmptyArgv) && process == old(process) && argv == [] &&
                namespace == MainNamespace(unit.spec, codePath, builtins)
      ensures old(argv) != [] ==>
                var effect := run(MainNamespace(unit.spec, codePath, builtins), [PurePath.Name(codePath)] + args, old(process));
                outcome == Delivered(unit.code, effect.outcome) && process == effect.process &&
                namespace == effect.namespace && argv == effect.argv
    {
      var bindings := map["__name__" := Str("__main__"), "__file__" := Str(PurePath.PathStr(codePath)),
                          "__cached__" := NoneValue, "__builtins__" := builtins];
      if unit.spec.Some? {
        var spec := unit.spec.value;
        bindings := bindings + map["__package__" := Str(spec.parent), "__loader__" := Object(spec.loader),
                                   "__spec__" := Spec(spec)];
      }
      namespace := map[] + bindings;  // globals_.clear(); globals_.update(...)
      ClearAndUpdate(unit.spec, codePath, builtins);
      if argv == [] {
        return Raise(EmptyArgv);
      }
      argv := argv[0 := PurePath.Name(codePath)];
      argv := argv[..1] + args;
      assert argv == [PurePath.Name(codePath)] + args;
      var effect := run(namespace, argv, process);
      namespace, argv, process := effect.namespace, effect.argv, effect.process;
      outcome := if unit.code.CodeObject? && effect.outcome.Return? then Return(NoneValue) else effect.outcome;
    }

    /** `main`: the wrapper, then the script, both through `exec_main`. */
    method RunWrapped(wrapper: Unit, wrapperRun: Run, script: Unit, scriptRun: Run, remaining: seq<string>)
      returns (outcome: Outcome)
      modifies this
      ensures namespace == old(namespace) && argv == old(argv)
      ensures (outcome, process) == Drive(wrapper, wrapperRun, script, scriptRun, remaining,
                                          old(namespace), old(argv), old(process))
    {
      var w := ExecMain(wrapper, [], wrapperRun);
      if w.Raise? {
        // Only SystemExit is caught.
        return w;
      }
      outcome := ExecMain(script, remaining, scriptRun);
    }
  }

  // ----- exec_main -----

  /** Clearing `__main__` and updating it with the entry bindings, and with the module
      bindings when there is a spec, gives the namespace the payload runs in. */
  lemma ClearAndUpdate(spec: Option<ModuleSpec>, file: string, builtins: Value)
    ensures var entries := map["__name__" := Str("__main__"), "__file__" := Str(PurePath.PathStr(file)),
                               "__cached__" := NoneValue, "__builtins__" := builtins];
            MainNamespace(spec, file, builtins) ==
              map[] + if spec.None? then entries
                      else entries + map["__package__" := Str(spec.value.parent), "__loader__" := Object(spec.value.loader),
                                         "__spec__" := Spec(spec.value)]
  {
  }

  /** The payload's outcome comes back unchanged (a code object's completion as None),
      after the payload ran in exactly the substituted context. */
  lemma OutcomePassedOn(unit: Unit, args: seq<string>, run: Run, ns: Namespace, argv: seq<string>, process: Process)
    requires Substitution(unit, args, ns, argv).Ok?
    ensures var ctx := Substitution(unit, args, ns, argv).value;
            var effect := run(ctx.namespace, ctx.argv, process);
            var (o, after) := RunAsMain(unit, args, run, ns, argv, process);
            after == effect.process &&
            (effect.outcome.Raise? ==> o == effect.outcome) &&
            (effect.outcome.Exit? ==> o == effect.outcome) &&
            (effect.outcome.Return? ==> o == if unit.code.Function? then effect.outcome else Return(NoneValue))
  {
  }

  /** A failure before the payload starts raises without running it: the outcome does
      not depend on the payload, and the process state is untouched. */
  lemma FailureBeforeRun(unit: Unit, args: seq<string>, run: Run, other: Run, ns: Namespace, argv: seq<string>, process: Process)
    requires Substitution(unit, args, ns, argv).Err?
    ensures RunAsMain(unit, args, run, ns, argv, process) == RunAsMain(unit, args, other, ns, argv, process)
    ensures RunAsMain(unit, args, run, ns, argv, process) == (Raise(Substitution(unit, args, ns, argv).error), process)
  {
  }

  /** A script resolved from a file path runs with `__file__` the normalised path and
      `sys.argv` the path's final component followed by the arguments. */
  lemma ScriptContext(arg: string, p: Platform, args: seq<string>, ns: Namespace, argv: seq<string>)
    requires p.readText(PurePath.PathStr(arg)).Text?
    requires MainType(arg, p).Ok?
    requires "__builtins__" in ns && argv != []
    ensures var r := Substitution(MainType(arg, p).value, args, ns, argv);
            r.Ok? &&
            r.value.namespace["__file__"] == Str(PurePath.PathStr(arg)) &&
            r.value.argv == [PurePath.Name(arg)] + args
  {
    var path := PurePath.PathStr(arg);
    assert MainType(arg, p).value.code == CodeObject(path, p.readText(path).text);
    PurePath.PathStrIdempotent(arg);
    PurePath.NameOfPathStr(arg);
    var r := Substitution(MainType(arg, p).value, args, ns, argv);
    assert r.value.argv == [r.value.argv[0]] + r.value.argv[1..];
  }

  // ----- main -----

  /** A wrapper that exits or returns does not stop the script, which then runs on the
      restored namespace and argv and on the process state the wrapper left. */
  lemma ScriptRunsAfterWrapper(wrapper: Unit, wrapperRun: Run, script: Unit, scriptRun: Run, remaining: seq<string>,
                               ns: Namespace, argv: seq<string>, process: Process)
    requires !RunAsMain(wrapper, [], wrapperRun, ns, argv, process).0.Raise?
    ensures var afterWrapper := RunAsMain(wrapper, [], wrapperRun, ns, argv, process).1;
            Drive(wrapper, wrapperRun, script, scriptRun, remaining, ns, argv, process) ==
            RunAsMain(script, remaining, scriptRun, ns, argv, afterWrapper)
  {
  }

  /** A wrapper that raises anything but `SystemExit` stops `main`: its exception comes
      out and the script's payload never runs. */
  lemma WrapperErrorStops(wrapper: Unit, wrapperRun: Run, script: Unit, scriptRun: Run, remaining: seq<string>,
                          otherScript: Unit, otherRun: Run, otherRemaining: seq<string>,
                          ns: Namespace, argv: seq<string>, process: Process)
    requires RunAsMain(wrapper, [], wrapperRun, ns, argv, process).0.Raise?
    ensures Drive(wrapper, wrapperRun, script, scriptRun, remaining, ns, argv, process) ==
            RunAsMain(wrapper, [], wrapperRun, ns, argv, process)
    ensures Drive(wrapper, wrapperRun, script, scriptRun, remaining, ns, argv, process) ==
            Drive(wrapper, wrapperRun, otherScript, otherRun, otherRemaining, ns, argv, process)
  {
  }

  /** What the wrapper leaves in the process outside `__main__` reaches the script: a
      wrapper whose payload ran and did not raise hands its process state to the script's
      payload, which starts in the same context it would have had without the wrapper. */
  lemma WrapperStatePersists(wrapper: Unit, wrapperRun: Run, script: Unit, scriptRun: Run, remaining: seq<string>,
                             ns: Namespace, argv: seq<string>, process: Process)
    requires Substitution(wrapper, [], ns, argv).Ok?
    requires Substitution(script, remaining, ns, argv).Ok?
    requires var w := Substitution(wrapper, [], ns, argv).value;
             !wrapperRun(w.namespace, w.argv, process).outcome.Raise?
    ensures var w := Substitution(wrapper, [], ns, argv).value;
            var s := Substitution(script, remaining, ns, argv).value;
            var afterWrapper := wrapperRun(w.namespace, w.argv, process).process;
            Drive(wrapper, wrapperRun, script, scriptRun, remaining, ns, argv, process).1 ==
            scriptRun(s.namespace, s.argv, afterWrapper).process
  {
  }
}
