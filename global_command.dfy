// The global command: the options every run starts from, the options.xml
// file that overrides their hard-coded defaults, the peek at the global
// options that decides where that file and the credentials are, and the
// phases of Run that build the subcommands and dispatch to one.
//
// Options are resolved in three passes: the defaults each Initialize
// writes, then options.xml, then the command line.

module Global {
  import opened Wrappers
  import opened Strings
  import opened Flags
  import opened XmlUsers
  import opened Environment
  import opened Credentials
  import AuthInfoXml
  import opened Command
  import ProjectCommand
  import ProjectsCreateRandom
  import ProjectDelete
  import ProjectsList

  /** Where ProjectOptions lives in the one store of Options. */
  const ProjectOpts := "ProjectOpts"

  /** The fields of GlobalOptions. */
  const AuthFileNameField := "GlobalOpts.AuthFileName"
  const BaseURLField := "GlobalOpts.BaseURL"
  const HelpField := "GlobalOpts.Help"
  const OptionsFileNameField := "GlobalOpts.OptionsFileName"
  const ShowOptionsField := "GlobalOpts.ShowOptions"
  const VersionField := "GlobalOpts.Version"

  /** A flag set after GlobalOptions.Initialize registers its flags, in its order. */
  function WithBindings(formal: map<string, Flag>): map<string, Flag>
  {
    formal["auth" := Flag(AuthFileNameField, StringKind)]
          ["base-url" := Flag(BaseURLField, StringKind)]
          ["h" := Flag(HelpField, BoolKind)]
          ["help" := Flag(HelpField, BoolKind)]
          ["options" := Flag(OptionsFileNameField, StringKind)]
          ["show-options" := Flag(ShowOptionsField, BoolKind)]
          ["v" := Flag(VersionField, BoolKind)]
          ["version" := Flag(VersionField, BoolKind)]
  }

  /** The global flags; -h and --help, -v and --version share a field. */
  function Bindings(): (b: map<string, Flag>)
    ensures forall n :: n in b ==> b[n].field in GlobalFields() && b[n].kind != ListKind
  {
    WithBindings(map[])
  }

  /**
   * The fields after GlobalOptions.Initialize: AuthFileName, BaseURL and
   * OptionsFileName set to their defaults, the three booleans as they were
   * (false where the field held no boolean), nothing else touched.
   */
  function Initialized(fields: Fields): Fields
  {
    fields[AuthFileNameField := Str("auth.xml")]
          [BaseURLField := Str("https://gitlab.com/")]
          [OptionsFileNameField := Str("options.xml")]
          [HelpField := Current(fields, HelpField, BoolKind)]
          [ShowOptionsField := Current(fields, ShowOptionsField, BoolKind)]
          [VersionField := Current(fields, VersionField, BoolKind)]
  }

  /** The eight flag registrations of Initialize, in its order, each with the field's current value as default. */
  function Registered(f: Fields): Fields
  {
    KeepCurrent(KeepCurrent(KeepCurrent(KeepCurrent(KeepCurrent(KeepCurrent(KeepCurrent(KeepCurrent(f,
      AuthFileNameField, StringKind), BaseURLField, StringKind), HelpField, BoolKind), HelpField, BoolKind),
      OptionsFileNameField, StringKind), ShowOptionsField, BoolKind), VersionField, BoolKind), VersionField, BoolKind)
  }

  /**
   * Registering the flags after the three defaults are set keeps those
   * defaults: the step by step Initialize ends in Initialized.
   */
  lemma RegisteredKeepsDefaults(fields: Fields)
    ensures Registered(fields[AuthFileNameField := Str("auth.xml")][BaseURLField := Str("https://gitlab.com/")]
                             [OptionsFileNameField := Str("options.xml")])
            == Initialized(fields)
  {
    var f0 := fields[AuthFileNameField := Str("auth.xml")][BaseURLField := Str("https://gitlab.com/")]
                    [OptionsFileNameField := Str("options.xml")];
    KeepCurrentHolding(f0, AuthFileNameField, StringKind);
    KeepCurrentHolding(f0, BaseURLField, StringKind);
    var f3 := KeepCurrent(f0, HelpField, BoolKind);
    KeepCurrentHolding(f3, HelpField, BoolKind);
    KeepCurrentHolding(f3, OptionsFileNameField, StringKind);
    var f5 := KeepCurrent(f3, ShowOptionsField, BoolKind);
    var f6 := KeepCurrent(f5, VersionField, BoolKind);
    KeepCurrentHolding(f6, VersionField, BoolKind);
    assert BoolAt(f0, HelpField) == BoolAt(fields, HelpField);
    assert BoolAt(f3, ShowOptionsField) == BoolAt(fields, ShowOptionsField);
    assert BoolAt(f5, VersionField) == BoolAt(fields, VersionField);
  }

  /**
   * Initialize sets AuthFileName "auth.xml", BaseURL "https://gitlab.com/"
   * and OptionsFileName "options.xml", keeps the three booleans and touches
   * no field outside GlobalOptions.
   */
  lemma InitializedDefaults(fields: Fields)
    ensures var f := Initialized(fields);
            StrAt(f, AuthFileNameField) == "auth.xml"
            && StrAt(f, BaseURLField) == "https://gitlab.com/"
            && StrAt(f, OptionsFileNameField) == "options.xml"
            && BoolAt(f, HelpField) == BoolAt(fields, HelpField)
            && BoolAt(f, ShowOptionsField) == BoolAt(fields, ShowOptionsField)
            && BoolAt(f, VersionField) == BoolAt(fields, VersionField)
            && forall k :: k !in GlobalFields() ==> SameAt(fields, f, k)
  {
  }

  function GlobalFields(): set<string>
  {
    {AuthFileNameField, BaseURLField, HelpField, OptionsFileNameField, ShowOptionsField, VersionField}
  }

  /** GlobalOptions.Initialize. */
  method Initialize(o: Store, flags: FlagSet)
    requires flags.formal.Keys !! Bindings().Keys
    modifies o, flags
    ensures flags.formal == WithBindings(old(flags.formal))
    ensures o.fields == Initialized(old(o.fields))
    ensures flags.actual == old(flags.actual) && flags.args == old(flags.args) && flags.parsed == old(flags.parsed)
  {
    assert "auth" in Bindings() && "base-url" in Bindings() && "h" in Bindings() && "help" in Bindings();
    assert "options" in Bindings() && "show-options" in Bindings() && "v" in Bindings() && "version" in Bindings();
    o.fields := o.fields[AuthFileNameField := Str("auth.xml")];
    o.fields := o.fields[BaseURLField := Str("https://gitlab.com/")];
    o.fields := o.fields[OptionsFileNameField := Str("options.xml")];
    flags.Define(o, "auth", AuthFileNameField, Current(o.fields, AuthFileNameField, StringKind));
    flags.Define(o, "base-url", BaseURLField, Current(o.fields, BaseURLField, StringKind));
    flags.Define(o, "h", HelpField, Current(o.fields, HelpField, BoolKind));
    flags.Define(o, "help", HelpField, Current(o.fields, HelpField, BoolKind));
    flags.Define(o, "options", OptionsFileNameField, Current(o.fields, OptionsFileNameField, StringKind));
    flags.Define(o, "show-options", ShowOptionsField, Current(o.fields, ShowOptionsField, BoolKind));
    flags.Define(o, "v", VersionField, Current(o.fields, VersionField, BoolKind));
    flags.Define(o, "version", VersionField, Current(o.fields, VersionField, BoolKind));
    RegisteredKeepsDefaults(old(o.fields));
  }

  // ------------------------------------------------------------------
  // options.xml
  // ------------------------------------------------------------------

  /** An element of options.xml holding text: the names of the elements around it below the root, and the text. */
  datatype Element = Element(path: seq<string>, text: string)

  /** What opening and decoding options.xml meets. */
  datatype OptionsFile =
    | Unopenable(error: string)
    | Undecodable(error: string)
    | OptionsXml(root: string, elements: seq<Element>)

  /**
   * The field an element path of Options decodes into, from the xml tags
   * of Options, GlobalOptions, ProjectOptions and its three members (the
   * create-random options have no tags, so their elements carry the Go field
   * names). OptionsFileName and ShowOptions are tagged "-" and have no path.
   */
  function TagOf(path: seq<string>): (r: Option<Flag>)
    ensures r.Some? ==> r.value.kind != ListKind
    ensures r.Some? ==> r.value.field != OptionsFileNameField && r.value.field != ShowOptionsField
  {
    var createRandom := ProjectCommand.CreateRandomOpts(ProjectOpts);
    var delete := ProjectCommand.DeleteOpts(ProjectOpts);
    var list := ProjectCommand.ListOpts(ProjectOpts);
    if path == ["global-options", "auth-file-name"] then Some(Flag(AuthFileNameField, StringKind))
    else if path == ["global-options", "base-url"] then Some(Flag(BaseURLField, StringKind))
    else if path == ["global-options", "help"] then Some(Flag(HelpField, BoolKind))
    else if path == ["global-options", "version"] then Some(Flag(VersionField, BoolKind))
    else if path == ["project-options", "create-random-options", "DryRun"] then
      Some(Flag(ProjectsCreateRandom.DryRunField(createRandom), BoolKind))
    else if path == ["project-options", "create-random-options", "ParentGroup"] then
      Some(Flag(ProjectsCreateRandom.ParentGroupField(createRandom), StringKind))
    else if path == ["project-options", "create-random-options", "ProjectBaseName"] then
      Some(Flag(ProjectsCreateRandom.ProjectBaseNameField(createRandom), StringKind))
    else if path == ["project-options", "create-random-options", "ProjectCount"] then
      Some(Flag(ProjectsCreateRandom.ProjectCountField(createRandom), Uint64Kind))
    else if path == ["project-options", "delete-options", "dry-run"] then
      Some(Flag(ProjectDelete.DryRunField(delete), BoolKind))
    else if path == ["project-options", "delete-options", "expr"] then
      Some(Flag(ProjectDelete.ExprField(delete), StringKind))
    else if path == ["project-options", "delete-options", "group"] then
      Some(Flag(ProjectDelete.GroupField(delete), StringKind))
    else if path == ["project-options", "delete-options", "recursive"] then
      Some(Flag(ProjectDelete.RecursiveField(delete), BoolKind))
    else if path == ["project-options", "list-options", "expr"] then
      Some(Flag(ProjectsList.ExprField(list), StringKind))
    else if path == ["project-options", "list-options", "group"] then
      Some(Flag(ProjectsList.GroupField(list), StringKind))
    else if path == ["project-options", "list-options", "recursive"] then
      Some(Flag(ProjectsList.RecursiveField(list), BoolKind))
    else None
  }

  /**
   * encoding/xml's copyValue: a string takes the text as it is; an empty
   * text gives false or 0; otherwise the trimmed text goes through
   * strconv.ParseBool or strconv.ParseUint in base 10, whose error stops
   * the decoding.
   */
  function DecodeText(kind: Kind, text: string): (r: (Value, Option<string>))
    requires kind != ListKind
    ensures r.1.None? ==> KindOf(r.0) == kind
    ensures kind == StringKind ==> r == (Str(text), None)
    ensures text == "" ==> r.1.None?
  {
    var t := TrimSpace(text);
    match kind
    case StringKind => (Str(text), None)
    case BoolKind =>
      if text == "" then (Bool(false), None)
      else if ParseBool(t).Some? then (Bool(ParseBool(t).value), None)
      else (Bool(false), Some("strconv.ParseBool: parsing " + Quote(t) + ": invalid syntax"))
    case Uint64Kind =>
      if text == "" then (Uint(0), None)
      else
        var (n, e) := if t == "" then (0, Some("parse error")) else Accumulate(t, 10, 0);
        if e.None? then (Uint(n), None)
        else if e == Some("value out of range") then
          (Uint(0), Some("strconv.ParseUint: parsing " + Quote(t) + ": value out of range"))
        else (Uint(0), Some("strconv.ParseUint: parsing " + Quote(t) + ": invalid syntax"))
  }

  /**
   * Decoding the elements in document order into the options: an element
   * with no field is skipped, and the first text that does not decode ends
   * the decoding with the fields set so far.
   */
  function Overlay(fields: Fields, elements: seq<Element>): (Fields, Option<string>)
    decreases |elements|
  {
    if elements == [] then (fields, None)
    else
      var before := Overlay(fields, elements[..|elements| - 1]);
      var el := elements[|elements| - 1];
      if before.1.Some? || TagOf(el.path).None? then before
      else
        var tag := TagOf(el.path).value;
        var d := DecodeText(tag.kind, el.text);
        if d.1.Some? then (before.0, d.1) else (before.0[tag.field := d.0], None)
  }

  /** Options.LoadFromXMLFile(fname) on what the file holds. */
  function Loaded(fields: Fields, fname: string, file: OptionsFile): (Fields, Option<string>)
  {
    match file
    case Unopenable(e) => (fields, Some("LoadFromXMLFile: " + e))
    case Undecodable(e) => (fields, Some("LoadFromXMLFile: " + fname + ": " + e))
    case OptionsXml(root, elements) =>
      if root != "options" then
        (fields, Some("LoadFromXMLFile: " + fname + ": expected element type <options> but have <" + root + ">"))
      else
        var (f, e) := Overlay(fields, elements);
        (f, if e.Some? then Some("LoadFromXMLFile: " + fname + ": " + e.value) else None)
  }

  /** LoadFromXMLFile. */
  method LoadFromXMLFile(o: Store, fname: string, file: OptionsFile) returns (err: Option<string>)
    modifies o
    ensures o.fields == Loaded(old(o.fields), fname, file).0
    ensures err == Loaded(old(o.fields), fname, file).1
  {
    var loaded := Loaded(o.fields, fname, file);
    o.fields := loaded.0;
    err := loaded.1;
  }

  /** The last element of the document that decodes into field k. */
  function LastSetting(elements: seq<Element>, k: string): (r: Option<Element>)
    ensures r.Some? ==> r.value in elements && TagOf(r.value.path).Some? && TagOf(r.value.path).value.field == k
    decreases |elements|
  {
    if elements == [] then None
    else
      var el := elements[|elements| - 1];
      if TagOf(el.path).Some? && TagOf(el.path).value.field == k then Some(el)
      else LastSetting(elements[..|elements| - 1], k)
  }

  /**
   * A decoded options file decides field k by its last element for k: that
   * element's decoded text, or, with no element for k, the value k had.
   */
  lemma {:induction false} OverlayLastWins(fields: Fields, elements: seq<Element>, k: string)
    requires Overlay(fields, elements).1.None?
    ensures var f := Overlay(fields, elements).0;
            match LastSetting(elements, k)
            case None => SameAt(fields, f, k)
            case Some(el) => k in f && f[k] == DecodeText(TagOf(el.path).value.kind, el.text).0
    decreases |elements|
  {
    if elements != [] {
      var prefix := elements[..|elements| - 1];
      OverlayLastWins(fields, prefix, k);
    }
  }

  /** A field no element path decodes into keeps its value through any options file. */
  lemma {:induction false} OverlayKeepsUntagged(fields: Fields, elements: seq<Element>, k: string)
    requires forall path :: TagOf(path).Some? ==> TagOf(path).value.field != k
    ensures SameAt(fields, Overlay(fields, elements).0, k)
    decreases |elements|
  {
    if elements != [] {
      OverlayKeepsUntagged(fields, elements[..|elements| - 1], k);
    }
  }

  /** options.xml can never change OptionsFileName or ShowOptions, whatever it holds and however it fails. */
  lemma LoadKeepsExcluded(fields: Fields, fname: string, file: OptionsFile)
    ensures SameAt(fields, Loaded(fields, fname, file).0, OptionsFileNameField)
    ensures SameAt(fields, Loaded(fields, fname, file).0, ShowOptionsField)
  {
    if file.OptionsXml? {
      OverlayKeepsUntagged(fields, file.elements, OptionsFileNameField);
      OverlayKeepsUntagged(fields, file.elements, ShowOptionsField);
    }
  }

  // ------------------------------------------------------------------
  // Peeking at the global options
  // ------------------------------------------------------------------

  /** The command-line pass over a fresh Options with only GlobalOptions initialized. */
  function CommandLinePass(fields: Fields, args: seq<string>): Parsed
  {
    ParseArgs(Bindings(), fields, args, {})
  }

  /** GetOptionsXMLFileName: --options from a fresh Options and flag set, or the parse error. */
  function OptionsXmlFileName(args: seq<string>): (r: (string, Option<string>))
  {
    var p := CommandLinePass(Initialized(map[]), args);
    if p.err.Some? then ("", p.err) else (StrAt(p.fields, OptionsFileNameField), None)
  }

  /** Without --options (or -options) on the command line, options.xml is "options.xml". */
  lemma OptionsFileNameDefault(args: seq<string>)
    requires OptionsXmlFileName(args).1.None?
    requires "options" !in CommandLinePass(Initialized(map[]), args).actual
    ensures OptionsXmlFileName(args).0 == "options.xml"
  {
    InitializedDefaults(map[]);
    OptionsNotGiven(Initialized(map[]), args);
  }

  /** Without --options the command-line pass keeps OptionsFileName as it was. */
  lemma OptionsNotGiven(defaults: Fields, args: seq<string>)
    requires CommandLinePass(defaults, args).err.None?
    requires "options" !in CommandLinePass(defaults, args).actual
    ensures SameAt(CommandLinePass(defaults, args).fields, defaults, OptionsFileNameField)
  {
    var p := CommandLinePass(defaults, args);
    assert OptionsFileNameField !in FieldsOf(Bindings(), p.actual);
    ParseKeepsUnsupplied(Bindings(), defaults, args, {}, OptionsFileNameField);
  }

  /** GetOptionsXMLFileName. */
  method GetOptionsXMLFileName(args: seq<string>) returns (fname: string, err: Option<string>)
    ensures (fname, err) == OptionsXmlFileName(args)
  {
    var opts := new Store(map[]);
    var flags := new FlagSet("local");
    Initialize(opts, flags);
    err := flags.Parse(opts, args);
    if err.Some? {
      return "", err;
    }
    fname := StrAt(opts.fields, OptionsFileNameField);
  }

  /** The options file pass: the defaults, overlaid with options.xml when it is named. */
  function FilePass(defaults: Fields, fname: string, files: string -> OptionsFile): (Fields, Option<string>)
  {
    if fname != "" then Loaded(defaults, fname, files(fname)) else (defaults, None)
  }

  /** PeakAtGlobalOptions: defaults, then options.xml, then the command line, over a local Options. */
  function Peeked(args: seq<string>, files: string -> OptionsFile): Result<Fields>
  {
    var (fname, e) := OptionsXmlFileName(args);
    if e.Some? then Err(e.value)
    else
      var (f, le) := FilePass(Initialized(map[]), fname, files);
      if le.Some? then Err(le.value)
      else
        var p := CommandLinePass(f, args);
        if p.err.Some? then Err(p.err.value) else Ok(p.fields)
  }

  /**
   * PeakAtGlobalOptions works on an Options and a flag set of its own and
   * changes nothing of the caller's: it has no modifies clause.
   */
  method PeakAtGlobalOptions(args: seq<string>, files: string -> OptionsFile) returns (r: Result<Fields>)
    ensures r == Peeked(args, files)
  {
    var opts := new Store(map[]);
    var flags := new FlagSet("local");
    Initialize(opts, flags);
    var fname, err := GetOptionsXMLFileName(args);
    if err.Some? {
      return Err(err.value);
    }
    if fname != "" {
      err := LoadFromXMLFile(opts, fname, files(fname));
      if err.Some? {
        return Err(err.value);
      }
    }
    err := flags.Parse(opts, args);
    if err.Some? {
      return Err(err.value);
    }
    r := Ok(opts.fields);
  }

  /**
   * The precedence of the peek: a global option given on the command line
   * has its command-line value whatever options.xml says; one not given has
   * the value the file pass left (options.xml's, else the default).
   */
  lemma PeekPrecedence(args: seq<string>, files: string -> OptionsFile, k: string)
    requires Peeked(args, files).Ok?
    ensures var cli := CommandLinePass(Initialized(map[]), args);
            var file := FilePass(Initialized(map[]), OptionsXmlFileName(args).0, files).0;
            (k in FieldsOf(Bindings(), cli.actual) ==> SameAt(Peeked(args, files).value, cli.fields, k))
            && (k !in FieldsOf(Bindings(), cli.actual) ==> SameAt(Peeked(args, files).value, file, k))
  {
    var cli := CommandLinePass(Initialized(map[]), args);
    var file := FilePass(Initialized(map[]), OptionsXmlFileName(args).0, files).0;
    var p := CommandLinePass(file, args);
    ParseOverrides(Bindings(), file, Initialized(map[]), args, {}, {});
    assert FieldsOf(Bindings(), p.actual) <= Overwritten(Bindings(), p.actual - {});
    if k !in FieldsOf(Bindings(), cli.actual) {
      ParseKeepsUnsupplied(Bindings(), file, args, {}, k);
    }
  }

  /** The command-line pass of the global flags never changes an option outside GlobalOptions. */
  lemma CommandLineKeepsOthers(fields: Fields, args: seq<string>, actual: set<string>, k: string)
    requires k !in GlobalFields()
    ensures SameAt(fields, ParseArgs(Bindings(), fields, args, actual).fields, k)
  {
    ParseKeepsUnbound(Bindings(), fields, args, actual, k);
  }

  /** Two stores that agree on some fields still agree on them after the same options file, and fail alike. */
  lemma {:induction false} OverlayAlike(f1: Fields, f2: Fields, elements: seq<Element>, agreed: set<string>)
    requires forall k :: k in agreed ==> SameAt(f1, f2, k)
    ensures Overlay(f1, elements).1 == Overlay(f2, elements).1
    ensures forall k :: k in agreed ==> SameAt(Overlay(f1, elements).0, Overlay(f2, elements).0, k)
    decreases |elements|
  {
    if elements != [] {
      OverlayAlike(f1, f2, elements[..|elements| - 1], agreed);
    }
  }

  /** The options file pass fails alike from any defaults, and keeps agreements between them. */
  lemma FilePassAlike(f1: Fields, f2: Fields, fname: string, files: string -> OptionsFile, agreed: set<string>)
    requires forall k :: k in agreed ==> SameAt(f1, f2, k)
    ensures FilePass(f1, fname, files).1 == FilePass(f2, fname, files).1
    ensures forall k :: k in agreed ==> SameAt(FilePass(f1, fname, files).0, FilePass(f2, fname, files).0, k)
  {
    if fname != "" && files(fname).OptionsXml? && files(fname).root == "options" {
      OverlayAlike(f1, f2, files(fname).elements, agreed);
    }
  }

  /** From any defaults, the options file pass changes neither how the command line parses nor OptionsFileName after it. */
  lemma FilePassKeepsOptionsFileName(defaults: Fields, fname: string, files: string -> OptionsFile, args: seq<string>)
    ensures var cli := CommandLinePass(defaults, args);
            var p := CommandLinePass(FilePass(defaults, fname, files).0, args);
            p.err == cli.err && SameAt(p.fields, cli.fields, OptionsFileNameField)
  {
    var file := FilePass(defaults, fname, files).0;
    if fname != "" {
      LoadKeepsExcluded(defaults, fname, files(fname));
    }
    ParseOverrides(Bindings(), file, defaults, args, {}, {OptionsFileNameField});
  }

  /** The peeked OptionsFileName is the file the peek loaded: options.xml cannot rename itself. */
  lemma PeekedOptionsFileName(args: seq<string>, files: string -> OptionsFile)
    requires Peeked(args, files).Ok?
    ensures OptionsXmlFileName(args).1.None?
    ensures StrAt(Peeked(args, files).value, OptionsFileNameField) == OptionsXmlFileName(args).0
  {
    FilePassKeepsOptionsFileName(Initialized(map[]), OptionsXmlFileName(args).0, files, args);
  }

  /** Only --show-options writes ShowOptions. */
  lemma ShowOptionsFlag()
    ensures forall n :: n in Bindings() && Bindings()[n].field == ShowOptionsField ==> n == "show-options"
  {
  }

  /** --show-options is the only way to show the options: they start false and options.xml cannot set them. */
  lemma ShowOptionsOnlyFromCommandLine(args: seq<string>, files: string -> OptionsFile)
    requires Peeked(args, files).Ok? && BoolAt(Peeked(args, files).value, ShowOptionsField)
    ensures "show-options" in CommandLinePass(Initialized(map[]), args).actual
  {
    var defaults := Initialized(map[]);
    var cli := CommandLinePass(defaults, args);
    var fname := OptionsXmlFileName(args).0;
    var file := FilePass(defaults, fname, files).0;
    var p := CommandLinePass(file, args);
    assert Peeked(args, files) == Ok(p.fields);
    ParseOverrides(Bindings(), file, defaults, args, {}, {});
    assert p.actual == cli.actual;
    if "show-options" !in p.actual {
      InitializedDefaults(map[]);
      if fname != "" {
        LoadKeepsExcluded(defaults, fname, files(fname));
      }
      ShowOptionsFlag();
      assert ShowOptionsField !in FieldsOf(Bindings(), p.actual);
      ParseKeepsUnsupplied(Bindings(), file, args, {}, ShowOptionsField);
    }
  }

  // ------------------------------------------------------------------
  // The global command
  // ------------------------------------------------------------------

  /** The generators addSubcmdGenerators installs: only "project". */
  datatype Generator = ProjectGenerator

  /**
   * The files and services the global command reaches: what opening and
   * decoding each options file yields, what each credentials file holds,
   * and what creating a client from credentials and a base URL yields.
   */
  datatype GlobalEnv = GlobalEnv(
    optionsFiles: string -> OptionsFile,
    authFiles: string -> Result<Document>,
    connect: (AuthInfo, string) -> Result<Client>)

  /** Every client the environment creates moves forward through its pages. */
  ghost predicate Connects(genv: GlobalEnv)
  {
    forall auth, url :: genv.connect(auth, url).Ok? ==> Serves(genv.connect(auth, url).value)
  }

  /** How the global command ends: Run returns an error or nil, or Usage calls os.Exit with a code. */
  datatype GlobalOutcome =
    | Returned(err: Option<string>, effects: seq<Effect>, disk: Disk)
    | Exited(code: int, effects: seq<Effect>, disk: Disk)

  /** What Usage prints: the error on the chosen stream, then the usage with the subcommand names. */
  function UsageEffects(toStderr: bool, err: Option<string>, names: seq<string>): seq<Effect>
  {
    (if err.None? then [] else if toStderr then [Warning(err.value)] else [Output(err.value)]) + [Usage(names)]
  }

  /** The options after the subcommands are generated: the global defaults, then the project options registered. */
  function GeneratedDefaults(): Fields
  {
    ProjectCommand.Registered(Initialized(map[]), ProjectOpts)
  }

  /** Registering the project options leaves the global options as they were. */
  lemma RegisteredKeepsGlobals(base: Fields)
    ensures forall k :: k in GlobalFields() ==> SameAt(base, ProjectCommand.Registered(base, ProjectOpts), k)
  {
    forall k | k in GlobalFields()
      ensures SameAt(base, ProjectCommand.Registered(base, ProjectOpts), k)
    {
      assert k[0] == 'G';
      RegisteredKeepsOthers(base, k);
    }
  }

  /** Registering the project options touches only fields whose path starts with ProjectOpts. */
  lemma RegisteredKeepsOthers(base: Fields, k: string)
    requires k != [] && k[0] != 'P'
    ensures SameAt(base, ProjectCommand.Registered(base, ProjectOpts), k)
  {
    var cr := ProjectCommand.CreateRandomOpts(ProjectOpts);
    var d := ProjectCommand.DeleteOpts(ProjectOpts);
    var l := ProjectCommand.ListOpts(ProjectOpts);
    assert cr[0] == 'P' && d[0] == 'P' && l[0] == 'P';
    var f1 := ProjectCreateRandom.ResetRegistered(base, cr);
    var f2 := KeepCurrent(f1, ProjectDelete.DryRunField(d), BoolKind);
    var f3 := ProjectsList.Registered(f2, d);
    assert ProjectCommand.Registered(base, ProjectOpts) == ProjectsList.Registered(f3, l);
    assert ProjectsCreateRandom.DryRunField(cr)[0] == 'P' && ProjectsCreateRandom.ParentGroupField(cr)[0] == 'P';
    assert ProjectsCreateRandom.ProjectBaseNameField(cr)[0] == 'P' && ProjectsCreateRandom.ProjectCountField(cr)[0] == 'P';
    ProjectCreateRandom.ResetRegisteredDiscards(base, cr);
    assert SameAt(base, f1, k);
    assert ProjectDelete.DryRunField(d)[0] == 'P';
    KeepCurrentKeepsValues(f1, ProjectDelete.DryRunField(d), BoolKind);
    assert SameAt(f1, f2, k);
    assert ProjectsList.ExprField(d)[0] == 'P' && ProjectsList.GroupField(d)[0] == 'P' && ProjectsList.RecursiveField(d)[0] == 'P';
    ProjectsList.RegisteredKeepsValues(f2, d);
    assert SameAt(f2, f3, k);
    assert ProjectsList.ExprField(l)[0] == 'P' && ProjectsList.GroupField(l)[0] == 'P' && ProjectsList.RecursiveField(l)[0] == 'P';
    ProjectsList.RegisteredKeepsValues(f3, l);
  }

  /** The options after the subcommands are generated agree with the fresh ones on every global option. */
  lemma GeneratedKeepsGlobals()
    ensures forall k :: k in GlobalFields() ==> SameAt(GeneratedDefaults(), Initialized(map[]), k)
  {
    RegisteredKeepsGlobals(Initialized(map[]));
  }

  /** The options file pass of the main run, on the file the peek named. */
  function MainFile(defaults: Fields, g: Fields, files: string -> OptionsFile): (Fields, Option<string>)
  {
    FilePass(defaults, StrAt(g, OptionsFileNameField), files)
  }

  /** DispatchSubcommand over the generated subcommands: "project" runs on the arguments after it. */
  function DispatchOutcome(fields: Fields, rest: seq<string>, client: Client, env: Env, disk: Disk): GlobalOutcome
    requires Serves(client)
  {
    match Route({"project"}, rest)
    case Err(e) => Returned(Some(e), [], disk)
    case Ok(_) =>
      var o := ProjectCommand.FreshOutcome(fields, ProjectOpts, client, env, disk, rest[1..]);
      Returned(o.err, o.effects, o.disk)
  }

  /** Run once the client exists: options.xml, the command line, then --show-options or the dispatch. */
  function WithClient(defaults: Fields, g: Fields, client: Client, env: Env, files: string -> OptionsFile, disk: Disk, args: seq<string>): GlobalOutcome
    requires Serves(client)
  {
    var (f, le) := MainFile(defaults, g, files);
    if le.Some? then Exited(1, UsageEffects(true, le, ["project"]), disk)
    else
      var p := ParseArgs(Bindings(), f, args, {});
      if p.err.Some? then Returned(p.err, [], disk)
      else if BoolAt(p.fields, ShowOptionsField) then Returned(None, [ShowOptions(p.fields)], disk)
      else DispatchOutcome(p.fields, p.rest, client, env, disk)
  }

  /** The error Run returns when the credentials do not load. */
  function AuthError(fname: string, e: string): string
  {
    "LoadAuthInfo: Unable to load authentication information from file " + fname + ": " + e + "\n"
  }

  /** Run once the peek has neither --help nor --version: the credentials, the client, then the rest. */
  function Authenticated(g: Fields, env: Env, genv: GlobalEnv, disk: Disk, args: seq<string>): GlobalOutcome
    requires Connects(genv)
  {
    var authFile := StrAt(g, AuthFileNameField);
    match AuthInfoXml.LoadXml(genv.authFiles(authFile))
    case Err(e) => Returned(Some(AuthError(authFile, e)), [], disk)
    case Ok(auth) =>
      match genv.connect(auth, StrAt(g, BaseURLField))
      case Err(e) => Returned(Some("CreateGitlabClient: " + e + "\n"), [], disk)
      case Ok(client) => WithClient(GeneratedDefaults(), g, client, env, genv.optionsFiles, disk, args)
  }

  /** What GlobalCommand.Run yields from a freshly made command. */
  function GlobalRun(name: string, version: string, env: Env, genv: GlobalEnv, disk: Disk, args: seq<string>): GlobalOutcome
    requires Connects(genv)
  {
    match Peeked(args, genv.optionsFiles)
    case Err(e) => Returned(Some(e), [], disk)
    case Ok(g) =>
      if BoolAt(g, HelpField) then Exited(0, UsageEffects(false, None, ["project"]), disk)
      else if BoolAt(g, VersionField) then Returned(None, [Output(name + " v" + version)], disk)
      else Authenticated(g, env, genv, disk, args)
  }

  /**
   * The peek resolves the circular dependencies: from any defaults that
   * agree with the fresh global options, the main run loads the options
   * file the peek loaded, cannot fail where the peek succeeded, ends with
   * the global options the peek saw and leaves the same arguments.
   */
  lemma MainPassAsPeeked(defaults: Fields, args: seq<string>, files: string -> OptionsFile, g: Fields)
    requires Peeked(args, files) == Ok(g)
    requires forall k :: k in GlobalFields() ==> SameAt(defaults, Initialized(map[]), k)
    ensures MainFile(defaults, g, files).1.None?
    ensures var p := ParseArgs(Bindings(), MainFile(defaults, g, files).0, args, {});
            p.err.None?
            && p.rest == CommandLinePass(Initialized(map[]), args).rest
            && (forall k :: k in GlobalFields() ==> SameAt(p.fields, g, k))
  {
    var fname := OptionsXmlFileName(args).0;
    PeekedOptionsFileName(args, files);
    FilePassAlike(defaults, Initialized(map[]), fname, files, GlobalFields());
    var peekFile := FilePass(Initialized(map[]), fname, files).0;
    var mainFile := MainFile(defaults, g, files).0;
    ParseOverrides(Bindings(), mainFile, peekFile, args, {}, GlobalFields());
    ParseOverrides(Bindings(), peekFile, Initialized(map[]), args, {}, {});
  }

  /**
   * So, once the client exists, the options are shown exactly when the
   * peek saw --show-options, and otherwise the subcommand is dispatched.
   */
  lemma MainRunAsPeeked(defaults: Fields, args: seq<string>, files: string -> OptionsFile, g: Fields,
                        client: Client, env: Env, disk: Disk)
    requires Peeked(args, files) == Ok(g) && Serves(client)
    requires forall k :: k in GlobalFields() ==> SameAt(defaults, Initialized(map[]), k)
    ensures var p := ParseArgs(Bindings(), MainFile(defaults, g, files).0, args, {});
            WithClient(defaults, g, client, env, files, disk, args)
            == if BoolAt(g, ShowOptionsField) then Returned(None, [ShowOptions(p.fields)], disk)
               else DispatchOutcome(p.fields, p.rest, client, env, disk)
  {
    MainPassAsPeeked(defaults, args, files, g);
    var p := ParseArgs(Bindings(), MainFile(defaults, g, files).0, args, {});
    assert SameAt(p.fields, g, ShowOptionsField);
  }

  /**
   * Of the exits this model represents, only the one --help asks for
   * remains, with code 0: a failing options file is reported by the peek
   * before Usage could exit with 1. A malformed flag, on which the Go flag
   * sets (ExitOnError) exit with code 2, is modelled as a returned error.
   */
  lemma OnlyHelpExits(name: string, version: string, env: Env, genv: GlobalEnv, disk: Disk, args: seq<string>)
    requires Connects(genv)
    ensures var r := GlobalRun(name, version, env, genv, disk, args);
            r.Exited? <==> Peeked(args, genv.optionsFiles).Ok? && BoolAt(Peeked(args, genv.optionsFiles).value, HelpField)
    ensures GlobalRun(name, version, env, genv, disk, args).Exited?
            ==> GlobalRun(name, version, env, genv, disk, args) == Exited(0, [Usage(["project"])], disk)
  {
    var peek := Peeked(args, genv.optionsFiles);
    if peek.Ok? && BoolAt(peek.value, HelpField) {
      HelpExits(name, version, env, genv, disk, args);
    } else {
      OthersReturn(name, version, env, genv, disk, args);
    }
  }

  /** --help exits with code 0 after printing the usage. */
  lemma HelpExits(name: string, version: string, env: Env, genv: GlobalEnv, disk: Disk, args: seq<string>)
    requires Connects(genv)
    requires Peeked(args, genv.optionsFiles).Ok? && BoolAt(Peeked(args, genv.optionsFiles).value, HelpField)
    ensures GlobalRun(name, version, env, genv, disk, args) == Exited(0, [Usage(["project"])], disk)
  {
    assert UsageEffects(false, None, ["project"]) == [Usage(["project"])];
  }

  /** Without --help, Run returns: a failing peek, --version and the authenticated run all return. */
  lemma OthersReturn(name: string, version: string, env: Env, genv: GlobalEnv, disk: Disk, args: seq<string>)
    requires Connects(genv)
    requires !(Peeked(args, genv.optionsFiles).Ok? && BoolAt(Peeked(args, genv.optionsFiles).value, HelpField))
    ensures GlobalRun(name, version, env, genv, disk, args).Returned?
  {
    var peek := Peeked(args, genv.optionsFiles);
    if peek.Ok? && !BoolAt(peek.value, VersionField) {
      AuthenticatedReturns(peek.value, env, genv, disk, args);
    }
  }

  /** Past the peek, Run returns: the credentials, the client and the rest never exit. */
  lemma AuthenticatedReturns(g: Fields, env: Env, genv: GlobalEnv, disk: Disk, args: seq<string>)
    requires Connects(genv) && Peeked(args, genv.optionsFiles) == Ok(g)
    ensures Authenticated(g, env, genv, disk, args).Returned?
  {
    var auth := AuthInfoXml.LoadXml(genv.authFiles(StrAt(g, AuthFileNameField)));
    if auth.Ok? {
      var c := genv.connect(auth.value, StrAt(g, BaseURLField));
      if c.Ok? {
        GeneratedKeepsGlobals();
        MainRunAsPeeked(GeneratedDefaults(), args, genv.optionsFiles, g, c.value, env, disk);
      }
    }
  }

  /** --version prints the name and version before any credentials are read or any client is made. */
  lemma VersionNeedsNoCredentials(name: string, version: string, env: Env, genv1: GlobalEnv, genv2: GlobalEnv,
                                  disk: Disk, args: seq<string>)
    requires Connects(genv1) && Connects(genv2) && genv1.optionsFiles == genv2.optionsFiles
    requires Peeked(args, genv1.optionsFiles).Ok?
    requires BoolAt(Peeked(args, genv1.optionsFiles).value, VersionField)
    requires !BoolAt(Peeked(args, genv1.optionsFiles).value, HelpField)
    ensures GlobalRun(name, version, env, genv1, disk, args) == GlobalRun(name, version, env, genv2, disk, args)
              == Returned(None, [Output(name + " v" + version)], disk)
  {
  }

  /** The order of a map range over the one generator. */
  lemma SoleGenerator(order: Enumeration)
    requires Enumerates(order)
    ensures order({"project"}) == ["project"]
    ensures SortStrings(order({"project"})) == ["project"]
  {
    var l := order({"project"});
    DistinctCard(l, {"project"});
    assert l[0] in {"project"};
    assert l == ["project"];
  }

  /** Every name mapped to a nil Runner. */
  function NilRunners(names: set<string>): map<string, Option<ParentCommand>>
  {
    map n | n in names :: None
  }

  class GlobalCommand {
    const name: string
    const version: string
    /** The Options every pass writes into. */
    const allOpts: Store
    const flags: FlagSet
    /** The package-level flag set, flag.CommandLine. */
    const commandLine: FlagSet
    /** The subcommands; None is a nil Runner. */
    var subcmds: map<string, Option<ParentCommand>>
    var generators: map<string, Generator>

    ghost predicate Valid()
      reads this
    {
      generators == map["project" := ProjectGenerator] && flags != commandLine
    }

    /** No subcommand generated and no command-line flag parsed yet. */
    ghost predicate Ready()
      reads this, flags, commandLine
    {
      Valid() && subcmds == map[] && flags.formal == Bindings() && flags.actual == {}
      && commandLine.formal.Keys !! ProjectDelete.CommandLineBindings(ProjectCommand.DeleteOpts(ProjectOpts)).Keys
    }

    /** A command as NewGlobalCommand returns it, before Run. */
    ghost predicate Unrun()
      reads this, allOpts, flags, commandLine
    {
      Ready() && allOpts.fields == Initialized(map[])
    }

    /** NewGlobalCommand: a fresh Options, the global flags initialized, the generators added. */
    constructor (name: string, version: string, commandLine: FlagSet)
      requires commandLine.formal.Keys !! ProjectDelete.CommandLineBindings(ProjectCommand.DeleteOpts(ProjectOpts)).Keys
      ensures this.name == name && this.version == version && this.commandLine == commandLine
      ensures fresh(allOpts) && fresh(flags) && flags.name == name
      ensures Unrun()
    {
      this.name := name;
      this.version := version;
      this.commandLine := commandLine;
      allOpts := new Store(map[]);
      flags := new FlagSet(name);
      subcmds := map[];
      generators := map[];
      new;
      Initialize(allOpts, flags);
      AddSubcmdGenerators();
    }

    /** addSubcmdGenerators. */
    method AddSubcmdGenerators()
      modifies this`generators
      ensures generators == old(generators)["project" := ProjectGenerator]
    {
      generators := generators["project" := ProjectGenerator];
    }

    /**
     * Usage: the error, the usage and the sorted subcommand names, naming
     * the generators when no subcommand exists yet; then the exit code, 1
     * on standard error and 0 on standard output.
     */
    method Usage(toStderr: bool, err: Option<string>, order: Enumeration) returns (code: int, effects: seq<Effect>)
      requires Enumerates(order)
      modifies this`subcmds
      ensures subcmds == if old(subcmds) == map[] then NilRunners(generators.Keys) else old(subcmds)
      ensures effects == UsageEffects(toStderr, err, SortStrings(order(subcmds.Keys)))
      ensures code == if toStderr then 1 else 0
    {
      if |subcmds| == 0 {
        var keys := order(generators.Keys);
        for i := 0 to |keys|
          invariant subcmds == NilRunners(set j | 0 <= j < i :: keys[j])
        {
          assert (set j | 0 <= j < i + 1 :: keys[j]) == (set j | 0 <= j < i :: keys[j]) + {keys[i]};
          subcmds := subcmds[keys[i] := None];
        }
        assert (set j | 0 <= j < |keys| :: keys[j]) == generators.Keys;
      }
      var names := SortedCommandNames(subcmds.Keys, order);
      effects := UsageEffects(toStderr, err, names);
      code := if toStderr then 1 else 0;
    }

    /** Usage where only "project" is or can be generated: it names that one subcommand. */
    method ExitWithUsage(toStderr: bool, err: Option<string>, order: Enumeration) returns (code: int, effects: seq<Effect>)
      requires Valid() && Enumerates(order)
      requires subcmds == map[] || subcmds.Keys == {"project"}
      modifies this`subcmds
      ensures subcmds.Keys == {"project"}
      ensures effects == UsageEffects(toStderr, err, ["project"])
      ensures code == if toStderr then 1 else 0
    {
      code, effects := Usage(toStderr, err, order);
      SoleGenerator(order);
    }

    /** generateSubcmds: each generator's subcommand, made with the client. */
    method GenerateSubcmds(client: Client, order: Enumeration)
      requires Valid() && Serves(client) && Enumerates(order)
      requires commandLine.formal.Keys !! ProjectDelete.CommandLineBindings(ProjectCommand.DeleteOpts(ProjectOpts)).Keys
      modifies this`subcmds, allOpts, commandLine
      ensures "project" in subcmds && subcmds == old(subcmds)["project" := subcmds["project"]]
      ensures subcmds["project"].Some?
      ensures var c := subcmds["project"].value;
              fresh(c) && fresh(c.flags) && fresh(c.Repr)
              && c.name == "project" && c.store == allOpts && ProjectCommand.Built(c, ProjectOpts, client)
      ensures allOpts.fields == ProjectCommand.Registered(old(allOpts.fields), ProjectOpts)
    {
      assert generators.Keys == {"project"};
      var keys := order(generators.Keys);
      SoleGenerator(order);
      for i := 0 to |keys|
        invariant i == 0 ==> subcmds == old(subcmds) && allOpts.fields == old(allOpts.fields)
                             && commandLine.formal == old(commandLine.formal)
        invariant i == 1 ==> "project" in subcmds && subcmds == old(subcmds)["project" := subcmds["project"]]
                             && subcmds["project"].Some?
                             && var c := subcmds["project"].value;
                                fresh(c) && fresh(c.flags) && fresh(c.Repr)
                                && c.name == "project" && c.store == allOpts && ProjectCommand.Built(c, ProjectOpts, client)
                                && allOpts.fields == ProjectCommand.Registered(old(allOpts.fields), ProjectOpts)
      {
        match generators[keys[i]]
        case ProjectGenerator =>
          GenerateProject(client);
      }
    }

    /** One turn of generateSubcmds' loop: subcmds["project"] = NewProjectCommand("project", &opts.ProjectOpts, client). */
    method GenerateProject(client: Client)
      requires Serves(client)
      requires commandLine.formal.Keys !! ProjectDelete.CommandLineBindings(ProjectCommand.DeleteOpts(ProjectOpts)).Keys
      modifies this`subcmds, allOpts, commandLine
      ensures "project" in subcmds && subcmds == old(subcmds)["project" := subcmds["project"]]
      ensures subcmds["project"].Some?
      ensures var c := subcmds["project"].value;
              fresh(c) && fresh(c.flags) && fresh(c.Repr)
              && c.name == "project" && c.store == allOpts && ProjectCommand.Built(c, ProjectOpts, client)
      ensures allOpts.fields == ProjectCommand.Registered(old(allOpts.fields), ProjectOpts)
    {
      var c := ProjectCommand.NewProjectCommand("project", allOpts, ProjectOpts, client, commandLine);
      subcmds := subcmds["project" := Some(c)];
    }

    /**
     * Run: the peek, then --help or --version, the credentials and the
     * client, the subcommands, options.xml, the command line, and last
     * --show-options or the dispatch to a subcommand.
     */
    method Run(env: Env, genv: GlobalEnv, fs: FileSystem, args: seq<string>) returns (outcome: GlobalOutcome)
      requires Unrun() && Enumerates(env.order) && Connects(genv)
      modifies this`subcmds, allOpts, flags, commandLine, fs
      ensures outcome == GlobalRun(name, version, env, genv, old(fs.Contents()), args)
      ensures fs.Contents() == outcome.disk
    {
      var peeked := PeakAtGlobalOptions(args, genv.optionsFiles);
      if peeked.Err? {
        return Returned(Some(peeked.error), [], fs.Contents());
      }
      var g := peeked.value;
      if BoolAt(g, HelpField) {
        var code, effects := ExitWithUsage(false, None, env.order);
        return Exited(code, effects, fs.Contents());
      }
      if BoolAt(g, VersionField) {
        return Returned(None, [Output(name + " v" + version)], fs.Contents());
      }
      outcome := RunAuthenticated(g, env, genv, fs, args);
    }

    /** The part of Run after --help and --version: the credentials, the client, the subcommands. */
    method RunAuthenticated(g: Fields, env: Env, genv: GlobalEnv, fs: FileSystem, args: seq<string>) returns (outcome: GlobalOutcome)
      requires Unrun() && Enumerates(env.order) && Connects(genv)
      modifies this`subcmds, allOpts, flags, commandLine, fs
      ensures outcome == Authenticated(g, env, genv, old(fs.Contents()), args)
      ensures fs.Contents() == outcome.disk
    {
      var authFile := StrAt(g, AuthFileNameField);
      var auth := AuthInfoXml.LoadXml(genv.authFiles(authFile));
      if auth.Err? {
        return Returned(Some(AuthError(authFile, auth.error)), [], fs.Contents());
      }
      var connected := genv.connect(auth.value, StrAt(g, BaseURLField));
      if connected.Err? {
        return Returned(Some("CreateGitlabClient: " + connected.error + "\n"), [], fs.Contents());
      }
      outcome := RunConnected(g, connected.value, env, genv.optionsFiles, fs, args);
    }

    /** generateSubcmds with the new client, then the rest of Run. */
    method RunConnected(g: Fields, client: Client, env: Env, files: string -> OptionsFile, fs: FileSystem, args: seq<string>)
      returns (outcome: GlobalOutcome)
      requires Ready() && Enumerates(env.order) && Serves(client)
      modifies this`subcmds, allOpts, flags, commandLine, fs
      ensures outcome == WithClient(ProjectCommand.Registered(old(allOpts.fields), ProjectOpts), g, client, env, files, old(fs.Contents()), args)
      ensures fs.Contents() == outcome.disk
    {
      GenerateSubcmds(client, env.order);
      var project := subcmds["project"].value;
      assert subcmds == map["project" := Some(project)];
      forall n | n in project.subcmds
        ensures flags !in RunnerFlags(project.subcmds[n])
      {
        assert RunnerFlags(project.subcmds[n]) <= project.Repr;
      }
      outcome := RunGenerated(g, project, client, env, files, fs, args);
    }

    /** Run's loading of options.xml, when the peek named one. */
    method LoadOptionsFile(fname: string, files: string -> OptionsFile) returns (err: Option<string>)
      modifies allOpts
      ensures allOpts.fields == FilePass(old(allOpts.fields), fname, files).0
      ensures err == FilePass(old(allOpts.fields), fname, files).1
    {
      err := None;
      if fname != "" {
        err := LoadFromXMLFile(allOpts, fname, files(fname));
      }
    }

    /** The part of Run after the subcommands are generated: options.xml, the command line, the dispatch. */
    method RunGenerated(g: Fields, project: ParentCommand, client: Client, env: Env, files: string -> OptionsFile,
                        fs: FileSystem, args: seq<string>)
      returns (outcome: GlobalOutcome)
      requires Valid() && Enumerates(env.order) && Serves(client)
      requires flags.formal == Bindings() && flags.actual == {}
      requires subcmds == map["project" := Some(project)]
      requires project.store == allOpts && ProjectCommand.Built(project, ProjectOpts, client)
      requires flags != project.flags && flags !in project.Repr && allOpts !in project.Repr
      requires forall n :: n in project.subcmds ==> flags !in RunnerFlags(project.subcmds[n])
      modifies this`subcmds, allOpts, flags, project.flags, project.Repr, fs
      ensures outcome == WithClient(old(allOpts.fields), g, client, env, files, old(fs.Contents()), args)
      ensures fs.Contents() == outcome.disk
    {
      var loadErr := LoadOptionsFile(StrAt(g, OptionsFileNameField), files);
      if loadErr.Some? {
        var code, effects := ExitWithUsage(true, loadErr, env.order);
        return Exited(code, effects, fs.Contents());
      }
      var err := flags.Parse(allOpts, args);
      if err.Some? {
        return Returned(err, [], fs.Contents());
      }
      if BoolAt(allOpts.fields, ShowOptionsField) {
        return Returned(None, [ShowOptions(allOpts.fields)], fs.Contents());
      }
      assert subcmds == map["project" := Some(project)];
      assert project.store == allOpts;
      assert ProjectCommand.Built(project, ProjectOpts, client);
      outcome := DispatchSubcommand(project, client, env, fs, flags.args);
    }

    /** DispatchSubcommand, over the subcommands generateSubcmds made. */
    method DispatchSubcommand(project: ParentCommand, client: Client, env: Env, fs: FileSystem, args: seq<string>)
      returns (outcome: GlobalOutcome)
      requires Serves(client) && subcmds == map["project" := Some(project)]
      requires project.store == allOpts && ProjectCommand.Built(project, ProjectOpts, client)
      modifies allOpts, project.flags, project.Repr, fs
      ensures outcome == DispatchOutcome(old(allOpts.fields), args, client, env, old(fs.Contents()))
      ensures fs.Contents() == outcome.disk
    {
      assert subcmds.Keys == {"project"};
      var route := Route(subcmds.Keys, args);
      if route.Err? {
        return Returned(Some(route.error), [], fs.Contents());
      }
      ProjectCommand.BuiltRuns(project, ProjectOpts, client, allOpts.fields, env, fs.Contents(), fs.failures, args[1..]);
      var e, effects := project.Run(env, fs, args[1..]);
      outcome := Returned(e, effects, fs.Contents());
    }
  }
}
