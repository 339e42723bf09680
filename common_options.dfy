// CommonOptions: the authentication file, base URL and options file that
// most commands need. Initialize fills in the defaults of the empty fields
// and registers --auth, --base-url and --options on the program's
// package-level flag set, each with the already-defaulted value.

module CommonOptions {
  import opened Flags

  const DefaultAuthFileName := "auth.xml"
  const DefaultBaseURL := "https://gitlab.com/"
  const DefaultOptionsFileName := "options.xml"

  /** The defaulting rule: an empty value takes the default, any other stays. */
  function Defaulted(v: string, default: string): (r: string)
    requires default != ""
    ensures r != ""
    ensures v != "" ==> r == v
  {
    if v == "" then default else v
  }

  /** The three field paths of a CommonOptions value stored under `prefix`. */
  function AuthField(prefix: string): string { prefix + ".AuthFileName" }
  function BaseURLField(prefix: string): string { prefix + ".BaseURL" }
  function OptionsField(prefix: string): string { prefix + ".OptionsFileName" }

  /** The fields after the defaulting step. */
  function WithDefaults(fields: Fields, prefix: string): Fields
  {
    fields[AuthField(prefix) := Str(Defaulted(StrAt(fields, AuthField(prefix)), DefaultAuthFileName))]
          [BaseURLField(prefix) := Str(Defaulted(StrAt(fields, BaseURLField(prefix)), DefaultBaseURL))]
          [OptionsField(prefix) := Str(Defaulted(StrAt(fields, OptionsField(prefix)), DefaultOptionsFileName))]
  }

  /**
   * After the defaulting step all three fields are non-empty, a field that
   * was non-empty keeps its value, an empty one has its default, and no
   * other field changes.
   */
  lemma WithDefaultsFills(fields: Fields, prefix: string)
    ensures var d := WithDefaults(fields, prefix);
            StrAt(d, AuthField(prefix)) != "" && StrAt(d, BaseURLField(prefix)) != ""
            && StrAt(d, OptionsField(prefix)) != ""
            && (StrAt(fields, AuthField(prefix)) != "" ==> StrAt(d, AuthField(prefix)) == StrAt(fields, AuthField(prefix)))
            && (StrAt(fields, AuthField(prefix)) == "" ==> StrAt(d, AuthField(prefix)) == DefaultAuthFileName)
            && (StrAt(fields, BaseURLField(prefix)) != "" ==> StrAt(d, BaseURLField(prefix)) == StrAt(fields, BaseURLField(prefix)))
            && (StrAt(fields, BaseURLField(prefix)) == "" ==> StrAt(d, BaseURLField(prefix)) == DefaultBaseURL)
            && (StrAt(fields, OptionsField(prefix)) != "" ==> StrAt(d, OptionsField(prefix)) == StrAt(fields, OptionsField(prefix)))
            && (StrAt(fields, OptionsField(prefix)) == "" ==> StrAt(d, OptionsField(prefix)) == DefaultOptionsFileName)
            && forall k :: k !in {AuthField(prefix), BaseURLField(prefix), OptionsField(prefix)} ==>
                 (k in d <==> k in fields) && (k in fields ==> d[k] == fields[k])
  {
    DistinctFields(prefix);
  }

  /** The defaulting step is idempotent. */
  lemma WithDefaultsIdempotent(fields: Fields, prefix: string)
    ensures WithDefaults(WithDefaults(fields, prefix), prefix) == WithDefaults(fields, prefix)
  {
    DistinctFields(prefix);
    var d := WithDefaults(fields, prefix);
    assert StrAt(d, AuthField(prefix)) == Defaulted(StrAt(fields, AuthField(prefix)), DefaultAuthFileName);
    assert StrAt(d, BaseURLField(prefix)) == Defaulted(StrAt(fields, BaseURLField(prefix)), DefaultBaseURL);
    assert StrAt(d, OptionsField(prefix)) == Defaulted(StrAt(fields, OptionsField(prefix)), DefaultOptionsFileName);
  }

  lemma DistinctFields(prefix: string)
    ensures AuthField(prefix) != BaseURLField(prefix)
    ensures AuthField(prefix) != OptionsField(prefix)
    ensures BaseURLField(prefix) != OptionsField(prefix)
  {
    var n := |prefix| + 1;
    assert AuthField(prefix)[n] == 'A' && BaseURLField(prefix)[n] == 'B' && OptionsField(prefix)[n] == 'O';
  }

  /**
   * CommonOptions.Initialize on the value stored under `prefix`: defaults,
   * then --auth, --base-url and --options on the package-level flag set
   * with the defaulted values, which rewrites them unchanged.
   */
  method Initialize(o: Store, prefix: string, commandLine: FlagSet)
    requires "auth" !in commandLine.formal && "base-url" !in commandLine.formal
    requires "options" !in commandLine.formal
    modifies o, commandLine
    ensures o.fields == WithDefaults(old(o.fields), prefix)
    ensures commandLine.formal == old(commandLine.formal)
              ["auth" := Flag(AuthField(prefix), StringKind)]
              ["base-url" := Flag(BaseURLField(prefix), StringKind)]
              ["options" := Flag(OptionsField(prefix), StringKind)]
    ensures commandLine.actual == old(commandLine.actual) && commandLine.args == old(commandLine.args)
  {
    DistinctFields(prefix);
    var auth := Defaulted(StrAt(o.fields, AuthField(prefix)), DefaultAuthFileName);
    var baseURL := Defaulted(StrAt(o.fields, BaseURLField(prefix)), DefaultBaseURL);
    var options := Defaulted(StrAt(o.fields, OptionsField(prefix)), DefaultOptionsFileName);
    commandLine.Define(o, "auth", AuthField(prefix), Str(auth));
    commandLine.Define(o, "base-url", BaseURLField(prefix), Str(baseURL));
    commandLine.Define(o, "options", OptionsField(prefix), Str(options));
  }
}
