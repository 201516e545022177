/** `main_type`: turning a target string into a loadable unit, trying a script path,
    then a setuptools entry point, then a `-m` style module or package. */
module Resolver {
  import opened PyValues
  import PyRepr
  import PurePath

  /** What reading a path as text gave. */
  datatype ReadResult = Text(text: string) | ReadFailed(error: Exc)

  /** What `runpy._get_module_details` returns: the module spec and the code to run. */
  datatype ModuleDetails = ModuleDetails(spec: ModuleSpec, code: Option<Payload>)

  /** The foreign calls `main_type` makes, each reduced to what it returns or raises. */
  datatype Platform = Platform(
    readText: string -> ReadResult,                    // pathlib.Path(...).read_text(), given str(path)
    compileError: (string, string) -> Option<Exc>,     // what compile(source, filename, "exec") raises, if anything
    resolveEntryPoint: string -> Result<Payload>,      // pkg_resources.EntryPoint.parse(src).resolve()
    moduleDetails: string -> Result<ModuleDetails>)    // runpy._get_module_details(name)

  /** A loadable unit: the module spec (present only for a module or package) and the code. */
  datatype Unit = Unit(spec: Option<ModuleSpec>, code: Payload)

  /** The entry-point declaration parsed for a target containing ':'. A target without
      '=' gets a throwaway name so that it parses as `name = module:attrs`. */
  function EntryPointSource(arg: string): (src: string)
    ensures '=' in src
    ensures |src| >= |arg| && src[|src| - |arg|..] == arg
    ensures src == arg <==> '=' in arg
    ensures src != arg ==> |src| == |arg| + 2 && src[..2] == "_="
  {
    if '=' in arg then arg else "_=" + arg
  }

  const ResolutionPrefix := "Could not resolve "
  const ResolutionSuffix := " as either a script, module/package or entry point."

  /** The text of the error raised when no interpretation of the target applies. */
  function ResolutionMessage(arg: string): string {
    ResolutionPrefix + PyRepr.Repr(arg) + ResolutionSuffix
  }

  function Unresolvable(arg: string): Exc {
    Exc(ArgumentTypeError, ResolutionMessage(arg))
  }

  /** `main_type(arg)`: the first interpretation that applies, or the exception raised. */
  function MainType(arg: string, p: Platform): (r: Result<Unit>)
    ensures r.Ok? && p.readText(PurePath.PathStr(arg)).Text? ==>
              r.value.spec.None? && r.value.code == CodeObject(PurePath.PathStr(arg), p.readText(PurePath.PathStr(arg)).text)
    ensures r.Ok? && r.value.spec.Some? ==> ':' !in arg
  {
    var path := PurePath.PathStr(arg);
    match p.readText(path)
    case Text(source) =>
      // A readable file is a script, compiled under its normalised path; a compile error propagates.
      (match p.compileError(source, path)
       case Some(e) => Err(e)
       case None => Ok(Unit(None, CodeObject(path, source))))
    case ReadFailed(e) =>
      if e.kind != OSError then Err(e)
      else if ':' in arg then
        // An entry point: a failure to parse or resolve it propagates.
        (match p.resolveEntryPoint(EntryPointSource(arg))
         case Err(e') => Err(e')
         case Ok(v) => Ok(Unit(None, v)))
      else
        match p.moduleDetails(arg)
        case Err(e') => if e'.kind == ImportError then Err(Unresolvable(arg)) else Err(e')
        case Ok(d) =>
          if d.code.Some? then Ok(Unit(Some(d.spec), d.code.value)) else Err(Unresolvable(arg))
  }

  // ----- Resolution order -----

  /** A readable file wins: whatever else the target could name, it resolves as the
      script compiled from its text under its normalised path, with no module spec. */
  lemma FileWins(arg: string, p: Platform)
    requires p.readText(PurePath.PathStr(arg)).Text?
    ensures var source := p.readText(PurePath.PathStr(arg)).text;
            var e := p.compileError(source, PurePath.PathStr(arg));
            MainType(arg, p) == if e.Some? then Err(e.value)
                                else Ok(Unit(None, CodeObject(PurePath.PathStr(arg), source)))
  {
  }

  /** A read failure that is not an `OSError` is not a failed guess: it propagates. */
  lemma ReadErrorPropagates(arg: string, p: Platform)
    requires p.readText(PurePath.PathStr(arg)).ReadFailed?
    requires p.readText(PurePath.PathStr(arg)).error.kind != OSError
    ensures MainType(arg, p) == Err(p.readText(PurePath.PathStr(arg)).error)
  {
  }

  /** After an `OSError`, a target with ':' is an entry point, looked up under its
      rewritten declaration; the module lookup is never consulted, a resolution failure
      propagates unchanged and a resolved value comes without a module spec. */
  lemma EntryPointBranch(arg: string, p: Platform, lookup: string -> Result<ModuleDetails>)
    requires p.readText(PurePath.PathStr(arg)).ReadFailed?
    requires p.readText(PurePath.PathStr(arg)).error.kind == OSError
    requires ':' in arg
    ensures MainType(arg, p) == match p.resolveEntryPoint(EntryPointSource(arg))
                                case Err(e) => Err(e)
                                case Ok(v) => Ok(Unit(None, v))
    ensures MainType(arg, p.(moduleDetails := lookup)) == MainType(arg, p)
  {
  }

  /** Only the module branch yields a module spec, and it is reached exactly when the
      read failed with an `OSError`, the target has no ':' and runpy found code. */
  lemma ModuleBranch(arg: string, p: Platform)
    ensures (MainType(arg, p).Ok? && MainType(arg, p).value.spec.Some?) <==>
            (p.readText(PurePath.PathStr(arg)).ReadFailed? &&
             p.readText(PurePath.PathStr(arg)).error.kind == OSError &&
             ':' !in arg &&
             p.moduleDetails(arg).Ok? && p.moduleDetails(arg).value.code.Some?)
    ensures MainType(arg, p).Ok? && MainType(arg, p).value.spec.Some? ==>
            var d := p.moduleDetails(arg).value;
            MainType(arg, p).value == Unit(Some(d.spec), d.code.value)
  {
  }

  /** The module lookup's `ImportError` falls through to the final error; any other
      failure of the lookup propagates. */
  lemma ModuleErrors(arg: string, p: Platform)
    requires p.readText(PurePath.PathStr(arg)).ReadFailed?
    requires p.readText(PurePath.PathStr(arg)).error.kind == OSError
    requires ':' !in arg
    requires p.moduleDetails(arg).Err?
    ensures p.moduleDetails(arg).error.kind == ImportError ==> MainType(arg, p) == Err(Unresolvable(arg))
    ensures p.moduleDetails(arg).error.kind != ImportError ==> MainType(arg, p) == Err(p.moduleDetails(arg).error)
  {
  }

  /** The final error is raised when the read failed with an `OSError`, the target has
      no ':' and the module lookup found nothing; and it is raised only then, unless a
      foreign call raised that very exception itself. */
  lemma UnresolvedTarget(arg: string, p: Platform)
    ensures (p.readText(PurePath.PathStr(arg)).ReadFailed? &&
             p.readText(PurePath.PathStr(arg)).error.kind == OSError &&
             ':' !in arg &&
             (match p.moduleDetails(arg)
              case Err(e) => e.kind == ImportError
              case Ok(d) => d.code.None?))
            ==> MainType(arg, p) == Err(Unresolvable(arg))
    ensures MainType(arg, p) == Err(Unresolvable(arg)) ==>
            (p.readText(PurePath.PathStr(arg)).ReadFailed? &&
             p.readText(PurePath.PathStr(arg)).error.kind == OSError &&
             ':' !in arg &&
             (match p.moduleDetails(arg)
              case Err(e) => e.kind == ImportError || e == Unresolvable(arg)
              case Ok(d) => d.code.None?))
            || p.readText(PurePath.PathStr(arg)) == ReadFailed(Unresolvable(arg))
            || (p.readText(PurePath.PathStr(arg)).Text? &&
                p.compileError(p.readText(PurePath.PathStr(arg)).text, PurePath.PathStr(arg)) == Some(Unresolvable(arg)))
            || (':' in arg && p.resolveEntryPoint(EntryPointSource(arg)) == Err(Unresolvable(arg)))
  {
  }

  // ----- The final error's message -----

  /** The message names the target: between its fixed opening and closing words stands
      a Python literal that reads back as exactly the target string. */
  lemma MessageNamesTarget(arg: string)
    ensures var m := ResolutionMessage(arg);
            |m| >= |ResolutionPrefix| + |ResolutionSuffix| &&
            m[..|ResolutionPrefix|] == ResolutionPrefix &&
            m[|m| - |ResolutionSuffix|..] == ResolutionSuffix &&
            PyRepr.Unrepr(m[|ResolutionPrefix|..|m| - |ResolutionSuffix|]) == Some(arg)
  {
    var m := ResolutionMessage(arg);
    var r := PyRepr.Repr(arg);
    assert m[|ResolutionPrefix|..|m| - |ResolutionSuffix|] == r;
    PyRepr.ReprRoundTrip(arg);
  }

  /** A target made of plain characters appears in the message between single quotes,
      right after the opening words. */
  lemma MessageQuotesPlainTarget(arg: string)
    requires forall i :: 0 <= i < |arg| ==> PyRepr.Plain(arg[i])
    ensures var head := ResolutionPrefix + "'" + arg + "'";
            |ResolutionMessage(arg)| > |head| && ResolutionMessage(arg)[..|head|] == head
  {
    PyRepr.ReprOfPlain(arg);
    var head := ResolutionPrefix + "'" + arg + "'";
    assert ResolutionMessage(arg) == head + ResolutionSuffix;
  }

  /** The message for the unknown wrapper target `__non_existent_wrapper__` begins
      with `Could not resolve '__non_existent_wrapper__'`. */
  lemma NonExistentWrapperMessage()
    ensures var head := ResolutionPrefix + "'" + "__non_existent_wrapper__" + "'";
            ResolutionMessage("__non_existent_wrapper__")[..|head|] == head
  {
    var target := "__non_existent_wrapper__";
    assert forall i :: 0 <= i < |target| ==> 'a' <= target[i] <= 'z' || target[i] == '_';
    MessageQuotesPlainTarget(target);
  }
}
