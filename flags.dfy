// Go's flag package as the commands use it. A flag set binds flag names to
// option fields; registration with StringVar/BoolVar/Uint64Var writes the
// default into the field, flags.Var (the StringSlice option) writes nothing,
// and Parse overwrites exactly the fields of the flags it meets, stopping at
// the first argument that is not a flag and keeping the rest for Args().
//
// The option structures that flags point into are one Store: a map from a
// field's path ("GlobalOpts.AuthFileName") to its value, which stands for
// the address the Go code passes to the flag package.

module Flags {
  import opened Wrappers
  import opened Strings
  import StringSlice

  datatype Value = Str(s: string) | Bool(b: bool) | Uint(n: nat) | List(items: seq<string>)

  datatype Kind = StringKind | BoolKind | Uint64Kind | ListKind

  function KindOf(v: Value): Kind
  {
    match v
    case Str(_) => StringKind
    case Bool(_) => BoolKind
    case Uint(_) => Uint64Kind
    case List(_) => ListKind
  }

  /** A registered flag: the field it writes and how it reads its text. */
  datatype Flag = Flag(field: string, kind: Kind)

  type Fields = map<string, Value>

  /** The option structures, field by field. */
  class Store {
    var fields: Fields

    constructor (fields: Fields)
      ensures this.fields == fields
    {
      this.fields := fields;
    }
  }

  const MaxUint64: nat := 0xFFFF_FFFF_FFFF_FFFF

  /** The error Parse reports for -h or -help when neither is defined. */
  const ErrHelp := "flag: help requested"

  /** strconv.ParseBool. */
  function ParseBool(s: string): (r: Option<bool>)
    ensures r == Some(true) <==> s in {"1", "t", "T", "TRUE", "true", "True"}
    ensures r == Some(false) <==> s in {"0", "f", "F", "FALSE", "false", "False"}
  {
    if s in {"1", "t", "T", "TRUE", "true", "True"} then Some(true)
    else if s in {"0", "f", "F", "FALSE", "false", "False"} then Some(false)
    else None
  }

  /** A digit in any base up to 36; 36 for a character that is not one. */
  function DigitValue(c: char): (d: nat)
    ensures d <= 36
  {
    if '0' <= c <= '9' then c as nat - '0' as nat
    else if 'a' <= c <= 'z' then c as nat - 'a' as nat + 10
    else if 'A' <= c <= 'Z' then c as nat - 'A' as nat + 10
    else 36
  }

  /**
   * The flag package's uint64 Set: strconv.ParseUint(s, 0, 64), whose base
   * comes from a 0b, 0o, 0x or bare 0 prefix, and whose error the flag
   * package renames. A syntax error stores 0, an overflow stores the maximum.
   */
  function ParseUint(s: string): (r: (nat, Option<string>))
    ensures r.0 <= MaxUint64
    ensures r.1 == None ==> s != ""
  {
    if s == "" then (0, Some("parse error"))
    else if s[0] == '0' && |s| >= 3 && (s[1] == 'b' || s[1] == 'B') then Accumulate(s[2..], 2, 0)
    else if s[0] == '0' && |s| >= 3 && (s[1] == 'o' || s[1] == 'O') then Accumulate(s[2..], 8, 0)
    else if s[0] == '0' && |s| >= 3 && (s[1] == 'x' || s[1] == 'X') then Accumulate(s[2..], 16, 0)
    else if s[0] == '0' then Accumulate(s[1..], 8, 0)
    else Accumulate(s, 10, 0)
  }

  /** The exact value of n followed by the digits, in base `base`. */
  function DigitsValue(digits: string, base: nat, n: nat): nat
    decreases |digits|
  {
    if digits == [] then n else DigitsValue(digits[1..], base, n * base + DigitValue(digits[0]))
  }

  predicate AllDigits(digits: string, base: nat)
  {
    forall i :: 0 <= i < |digits| ==> DigitValue(digits[i]) < base
  }

  /**
   * Digits read left to right into n. The result is the exact value when
   * every character is a digit of the base and the value fits in 64 bits,
   * and an error otherwise.
   */
  function Accumulate(digits: string, base: nat, n: nat): (r: (nat, Option<string>))
    requires 2 <= base <= 16 && n <= MaxUint64
    ensures r.0 <= MaxUint64
    ensures r.1 == None <==> AllDigits(digits, base) && DigitsValue(digits, base, n) <= MaxUint64
    ensures r.1 == None ==> r.0 == DigitsValue(digits, base, n)
    decreases |digits|
  {
    if digits == [] then (n, None)
    else
      var d := DigitValue(digits[0]);
      if d >= base then (0, Some("parse error"))
      else if n * base + d > MaxUint64 then
        DigitsGrow(digits[1..], base, n * base + d);
        (MaxUint64, Some("value out of range"))
      else
        var r := Accumulate(digits[1..], base, n * base + d);
        assert AllDigits(digits, base) <==> AllDigits(digits[1..], base) by {
          assert forall i :: 0 < i < |digits| ==> digits[i] == digits[1..][i - 1];
        }
        r
  }

  /** Reading more digits never makes the value smaller. */
  lemma {:induction false} DigitsGrow(digits: string, base: nat, n: nat)
    requires base >= 2
    ensures DigitsValue(digits, base, n) >= n
    decreases |digits|
  {
    if digits != [] {
      DigitsGrow(digits[1..], base, n * base + DigitValue(digits[0]));
      assert n * base >= n;
    }
  }

  /** The position of the first '=' after position 0, if any. */
  function EqualsAt(name: string, from: nat): (r: Option<nat>)
    requires 1 <= from
    ensures r.Some? ==> from <= r.value < |name| && name[r.value] == '='
    ensures r.Some? ==> forall j :: from <= j < r.value ==> name[j] != '='
    ensures r.None? ==> forall j :: from <= j < |name| ==> name[j] != '='
    decreases |name| - from
  {
    if from >= |name| then None
    else if name[from] == '=' then Some(from)
    else EqualsAt(name, from + 1)
  }

  /** The current items of a list field; empty when the field holds no list. */
  function ListAt(fields: Fields, field: string): seq<string>
  {
    if field in fields && fields[field].List? then fields[field].items else []
  }

  /** A string field's value; Go's zero value "" when it holds none. */
  function StrAt(fields: Fields, field: string): string
  {
    if field in fields && fields[field].Str? then fields[field].s else ""
  }

  /** A boolean field's value; false when it holds none. */
  function BoolAt(fields: Fields, field: string): bool
  {
    field in fields && fields[field].Bool? && fields[field].b
  }

  /** An unsigned field's value; 0 when it holds none. */
  function UintAt(fields: Fields, field: string): nat
  {
    if field in fields && fields[field].Uint? then fields[field].n else 0
  }

  /** The value a field of the given kind currently holds. */
  function Current(fields: Fields, field: string, kind: Kind): (v: Value)
    ensures KindOf(v) == kind
  {
    match kind
    case StringKind => Str(StrAt(fields, field))
    case BoolKind => Bool(BoolAt(fields, field))
    case Uint64Kind => Uint(UintAt(fields, field))
    case ListKind => List(ListAt(fields, field))
  }

  /**
   * The fields after registering a flag whose default is the field's own
   * value (flags.StringVar(&opts.X, name, opts.X, ...)).
   */
  function KeepCurrent(fields: Fields, field: string, kind: Kind): Fields
  {
    fields[field := Current(fields, field, kind)]
  }

  /**
   * Registering a flag with the field's current value changes no value the
   * options can read: a string, boolean, integer or list read back from the
   * field is what it was, and every other field is untouched.
   */
  lemma KeepCurrentKeepsValues(fields: Fields, field: string, kind: Kind)
    ensures var f := KeepCurrent(fields, field, kind);
            StrAt(f, field) == (if kind == StringKind then StrAt(fields, field) else "")
            && BoolAt(f, field) == (kind == BoolKind && BoolAt(fields, field))
            && UintAt(f, field) == (if kind == Uint64Kind then UintAt(fields, field) else 0)
            && forall k :: k != field ==> SameAt(fields, f, k)
  {
  }

  /** Registering a field that already holds a value of the flag's kind leaves the fields as they are. */
  lemma KeepCurrentHolding(fields: Fields, field: string, kind: Kind)
    requires field in fields && KindOf(fields[field]) == kind
    ensures KeepCurrent(fields, field, kind) == fields
  {
    assert Current(fields, field, kind) == fields[field];
  }

  /** A flag name or a non-flag argument. */
  predicate NotFlag(arg: string)
  {
    |arg| < 2 || arg[0] != '-'
  }

  /** r is what is left of a after dropping some leading arguments. */
  predicate IsSuffix(r: seq<string>, a: seq<string>)
  {
    |r| <= |a| && r == a[|a| - |r|..]
  }

  /** What the next argument asks for, decided from the arguments alone. */
  datatype Plan =
    | NoFlag(rest: seq<string>)
    | SetFlag(name: string, text: Option<string>, rest: seq<string>)
    | BadFlag(error: string, rest: seq<string>)

  /**
   * The decisions of the flag package's parseOne. No argument, a lone "-" or
   * a non-flag ends the flags; "--" ends them and is consumed; "-name" and
   * "--name" are the same flag; its text follows "=" or, for a flag that is
   * not boolean, is the next argument; -h and -help that are not defined ask
   * for help.
   */
  function PlanOne(formal: map<string, Flag>, args: seq<string>): (plan: Plan)
    ensures IsSuffix(plan.rest, args)
    ensures plan.NoFlag? ==> (plan.rest == args && (args == [] || NotFlag(args[0])))
                             || (args != [] && args[0] == "--" && plan.rest == args[1..])
    ensures plan.SetFlag? ==> plan.name in formal && |plan.rest| < |args|
                              && (formal[plan.name].kind != BoolKind ==> plan.text.Some?)
  {
    if args == [] then NoFlag([])
    else
      var s := args[0];
      if NotFlag(s) then NoFlag(args)
      else if s == "--" then NoFlag(args[1..])
      else
        var name0 := if s[1] == '-' then s[2..] else s[1..];
        if name0 == [] || name0[0] == '-' || name0[0] == '=' then
          BadFlag("bad flag syntax: " + s, args)
        else
          var eq := EqualsAt(name0, 1);
          var name := if eq.Some? then name0[..eq.value] else name0;
          var text := if eq.Some? then Some(name0[eq.value + 1..]) else None;
          var rest := args[1..];
          if name !in formal then
            if name == "help" || name == "h" then BadFlag(ErrHelp, rest)
            else BadFlag("flag provided but not defined: -" + name, rest)
          else if formal[name].kind == BoolKind || text.Some? then
            SetFlag(name, text, rest)
          else if rest == [] then
            BadFlag("flag needs an argument: -" + name, rest)
          else
            SetFlag(name, Some(rest[0]), rest[1..])
  }

  /**
   * The value a flag's Set stores and the error it reports. A boolean flag
   * without text is set to true, and a bad boolean stores false. A list flag
   * appends to its current items; no other kind reads the old value.
   */
  function SetOutcome(flag: Flag, current: seq<string>, text: Option<string>): (r: (Value, Option<string>))
    requires flag.kind != BoolKind ==> text.Some?
    ensures KindOf(r.0) == flag.kind
    ensures r.1.Some? ==> text.Some? && (flag.kind == BoolKind || flag.kind == Uint64Kind)
  {
    match flag.kind
    case BoolKind =>
      if text.None? then (Bool(true), None)
      else if ParseBool(text.value).Some? then (Bool(ParseBool(text.value).value), None)
      else (Bool(false), Some("parse error"))
    case StringKind => (Str(text.value), None)
    case ListKind => (List(current + StringSlice.Parts(text.value)), None)
    case Uint64Kind => (Uint(ParseUint(text.value).0), ParseUint(text.value).1)
  }

  /** after differs from before at most in `field`, which it holds. */
  predicate WritesOnly(before: Fields, after: Fields, field: string)
  {
    field in after && after == before[field := after[field]]
  }

  /** One step of Parse: what the next argument does. */
  datatype Step =
    | Done(rest: seq<string>)
    | Seen(name: string, fields: Fields, rest: seq<string>)
    | Fail(error: string, fields: Fields, rest: seq<string>)

  /** The flag package's parseOne: a Plan carried out on the fields. */
  function ParseOne(formal: map<string, Flag>, fields: Fields, args: seq<string>): (step: Step)
    ensures var plan := PlanOne(formal, args);
            step.rest == plan.rest
            && (step.Done? <==> plan.NoFlag?)
            && (plan.BadFlag? ==> step == Fail(plan.error, fields, plan.rest))
            && (step.Seen? ==> plan.SetFlag? && step.name == plan.name)
            && (plan.SetFlag? ==> WritesOnly(fields, step.fields, formal[plan.name].field))
  {
    match PlanOne(formal, args)
    case NoFlag(rest) => Done(rest)
    case BadFlag(e, rest) => Fail(e, fields, rest)
    case SetFlag(name, text, rest) =>
      var flag := formal[name];
      var (v, err) := SetOutcome(flag, ListAt(fields, flag.field), text);
      var f := fields[flag.field := v];
      if err.None? then Seen(name, f, rest)
      else if flag.kind == BoolKind then
        Fail("invalid boolean value " + Quote(text.value) + " for -" + name + ": " + err.value, f, rest)
      else
        Fail("invalid value " + Quote(text.value) + " for flag -" + name + ": " + err.value, f, rest)
  }

  /** The outcome of Parse: the fields, the flags seen, Args() and the error. */
  datatype Parsed = Parsed(fields: Fields, actual: set<string>, rest: seq<string>, err: Option<string>)

  /** Parse: parseOne until it reports no flag; the first error ends it. */
  function ParseArgs(formal: map<string, Flag>, fields: Fields, args: seq<string>, actual: set<string>): Parsed
    decreases |args|
  {
    match ParseOne(formal, fields, args)
    case Done(rest) => Parsed(fields, actual, rest, None)
    case Fail(e, f, rest) => Parsed(f, actual, rest, Some(e))
    case Seen(name, f, rest) => ParseArgs(formal, f, rest, actual + {name})
  }

  /** The fields that the named flags write. */
  function FieldsOf(formal: map<string, Flag>, names: set<string>): set<string>
  {
    set n | n in names && n in formal :: formal[n].field
  }

  /** Two stores agree on field k. */
  predicate SameAt(f1: Fields, f2: Fields, k: string)
  {
    (k in f1 <==> k in f2) && (k in f1 ==> f1[k] == f2[k])
  }

  class FlagSet {
    const name: string
    var formal: map<string, Flag>
    var actual: set<string>
    var args: seq<string>
    var parsed: bool

    /** flag.NewFlagSet: no flags, nothing parsed. */
    constructor (name: string)
      ensures this.name == name && formal == map[] && actual == {} && args == [] && !parsed
    {
      this.name := name;
      formal := map[];
      actual := {};
      args := [];
      parsed := false;
    }

    /**
     * StringVar, BoolVar, Uint64Var: binds the flag to the field and writes the
     * default into it. Defining a name twice makes Go panic.
     */
    method Define(o: Store, flagName: string, field: string, default: Value)
      requires flagName !in formal
      modifies this, o
      ensures formal == old(formal)[flagName := Flag(field, KindOf(default))]
      ensures o.fields == old(o.fields)[field := default]
      ensures actual == old(actual) && args == old(args) && parsed == old(parsed)
    {
      formal := formal[flagName := Flag(field, KindOf(default))];
      o.fields := o.fields[field := default];
    }

    /** flags.Var with a StringSlice: binds the flag and leaves the field alone. */
    method DefineList(flagName: string, field: string)
      requires flagName !in formal
      modifies this
      ensures formal == old(formal)[flagName := Flag(field, ListKind)]
      ensures actual == old(actual) && args == old(args) && parsed == old(parsed)
    {
      formal := formal[flagName := Flag(field, ListKind)];
    }

    /**
     * Parse. With ExitOnError, which every flag set of the program uses, Go
     * exits where this returns an error (status 0 for ErrHelp, 2 otherwise).
     */
    method Parse(o: Store, arguments: seq<string>) returns (err: Option<string>)
      modifies this, o
      ensures var p := ParseArgs(old(formal), old(o.fields), arguments, old(actual));
              o.fields == p.fields && actual == p.actual && args == p.rest && err == p.err
      ensures formal == old(formal) && parsed
    {
      parsed := true;
      args := arguments;
      ghost var whole := ParseArgs(formal, o.fields, arguments, actual);
      while true
        invariant formal == old(formal) && parsed
        invariant ParseArgs(formal, o.fields, args, actual) == whole
        decreases |args|
      {
        var step := ParseOne(formal, o.fields, args);
        match step
        case Done(rest) =>
          args := rest;
          return None;
        case Fail(e, f, rest) =>
          o.fields := f;
          args := rest;
          return Some(e);
        case Seen(n, f, rest) =>
          o.fields := f;
          args := rest;
          actual := actual + {n};
      }
    }
  }

  /** Parse leaves Args() as a suffix of its arguments and sees only defined flags. */
  lemma {:induction false} ParseRestIsSuffix(formal: map<string, Flag>, fields: Fields, args: seq<string>, actual: set<string>)
    ensures var p := ParseArgs(formal, fields, args, actual);
            IsSuffix(p.rest, args) && actual <= p.actual && p.actual - actual <= formal.Keys
    decreases |args|
  {
    match ParseOne(formal, fields, args)
    case Done(rest) =>
    case Fail(e, f, rest) =>
    case Seen(name, f, rest) =>
      ParseRestIsSuffix(formal, f, rest, actual + {name});
  }

  /**
   * Parse stops at the first argument that is not a flag: without an error,
   * Args() is empty, starts with a non-flag, or follows a "--".
   */
  lemma {:induction false} ParseStopsAtNonFlag(formal: map<string, Flag>, fields: Fields, args: seq<string>, actual: set<string>)
    ensures var p := ParseArgs(formal, fields, args, actual);
            p.err == None && p.rest != [] ==>
              NotFlag(p.rest[0]) || (|p.rest| < |args| && args[|args| - |p.rest| - 1] == "--")
    decreases |args|
  {
    match ParseOne(formal, fields, args)
    case Done(rest) =>
    case Fail(e, f, rest) =>
    case Seen(name, f, rest) =>
      ParseStopsAtNonFlag(formal, f, rest, actual + {name});
      ParseRestIsSuffix(formal, f, rest, actual + {name});
      var p := ParseArgs(formal, f, rest, actual + {name});
      if p.err == None && p.rest != [] && !NotFlag(p.rest[0]) {
        assert rest == args[|args| - |rest|..];
        assert args[|args| - |p.rest| - 1] == rest[|rest| - |p.rest| - 1];
      }
  }

  /** A non-flag first argument stops Parse before it changes anything. */
  lemma ParseLeavesNonFlag(formal: map<string, Flag>, fields: Fields, args: seq<string>, actual: set<string>)
    requires args != [] && NotFlag(args[0])
    ensures ParseArgs(formal, fields, args, actual) == Parsed(fields, actual, args, None)
  {
    assert PlanOne(formal, args) == NoFlag(args);
  }

  /**
   * Without an error, Parse changes only the fields of the flags it was
   * given: an option whose flags do not appear keeps its value.
   */
  lemma {:induction false} ParseKeepsUnsupplied(formal: map<string, Flag>, fields: Fields, args: seq<string>, actual: set<string>, k: string)
    requires var p := ParseArgs(formal, fields, args, actual);
             p.err == None && k !in FieldsOf(formal, p.actual)
    ensures SameAt(fields, ParseArgs(formal, fields, args, actual).fields, k)
    decreases |args|
  {
    match ParseOne(formal, fields, args)
    case Done(rest) =>
    case Fail(e, f, rest) =>
    case Seen(name, f, rest) =>
      var p := ParseArgs(formal, f, rest, actual + {name});
      ParseRestIsSuffix(formal, f, rest, actual + {name});
      assert formal[name].field in FieldsOf(formal, p.actual);
      ParseKeepsUnsupplied(formal, f, rest, actual + {name}, k);
  }

  /** Whatever happens, Parse never touches a field no flag of the set writes. */
  lemma {:induction false} ParseKeepsUnbound(formal: map<string, Flag>, fields: Fields, args: seq<string>, actual: set<string>, k: string)
    requires forall n :: n in formal ==> formal[n].field != k
    ensures SameAt(fields, ParseArgs(formal, fields, args, actual).fields, k)
    decreases |args|
  {
    match ParseOne(formal, fields, args)
    case Done(rest) =>
    case Fail(e, f, rest) =>
    case Seen(name, f, rest) =>
      ParseKeepsUnbound(formal, f, rest, actual + {name}, k);
  }

  /** The fields that supplied non-list flags overwrite. */
  function Overwritten(formal: map<string, Flag>, names: set<string>): set<string>
  {
    set n | n in names && n in formal && formal[n].kind != ListKind :: formal[n].field
  }

  /**
   * The command line beats whatever the fields held before: two runs of
   * Parse on the same arguments see the same flags, leave the same Args()
   * and error, and end with the same value in every field a supplied
   * string, boolean or integer flag writes, whatever the starting values.
   * Fields on which the starting stores already agreed stay in agreement.
   */
  lemma {:induction false} ParseOverrides(formal: map<string, Flag>, f1: Fields, f2: Fields, args: seq<string>, actual: set<string>, agreed: set<string>)
    requires forall k :: k in agreed ==> SameAt(f1, f2, k)
    ensures var p1 := ParseArgs(formal, f1, args, actual);
            var p2 := ParseArgs(formal, f2, args, actual);
            p1.actual == p2.actual && p1.rest == p2.rest && p1.err == p2.err
            && forall k :: k in agreed + Overwritten(formal, p1.actual - actual) ==> SameAt(p1.fields, p2.fields, k)
    decreases |args|
  {
    var s1 := ParseOne(formal, f1, args);
    var s2 := ParseOne(formal, f2, args);
    StepAlike(formal, f1, f2, args, agreed);
    match s1
    case Done(rest) =>
    case Fail(e, f, rest) =>
    case Seen(name, f, rest) =>
      var more := if formal[name].kind != ListKind then {formal[name].field} else {};
      ParseOverrides(formal, s1.fields, s2.fields, rest, actual + {name}, agreed + more);
      var p1 := ParseArgs(formal, s1.fields, rest, actual + {name});
      assert Overwritten(formal, p1.actual - actual)
          <= more + Overwritten(formal, p1.actual - (actual + {name}));
  }

  /** One step of Parse follows the same path from any two starting stores. */
  lemma StepAlike(formal: map<string, Flag>, f1: Fields, f2: Fields, args: seq<string>, agreed: set<string>)
    requires forall k :: k in agreed ==> SameAt(f1, f2, k)
    ensures var s1 := ParseOne(formal, f1, args);
            var s2 := ParseOne(formal, f2, args);
            s1.Done? == s2.Done? && s1.Seen? == s2.Seen? && s1.rest == s2.rest
            && (s1.Fail? ==> s2.Fail? && s1.error == s2.error)
            && (s1.Seen? ==> s1.name == s2.name)
            && (s1.Seen? && formal[s1.name].kind != ListKind ==> SameAt(s1.fields, s2.fields, formal[s1.name].field))
            && (!s1.Done? ==> forall k :: k in agreed ==> SameAt(s1.fields, s2.fields, k))
  {
    var plan := PlanOne(formal, args);
    if plan.SetFlag? {
      var flag := formal[plan.name];
      if flag.kind == ListKind && flag.field in agreed {
        assert ListAt(f1, flag.field) == ListAt(f2, flag.field);
      }
    }
  }
}
