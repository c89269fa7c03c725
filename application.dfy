/** The application shell: command-line options become properties, and
    the result of the program's main procedure is kept in the context. */
module App {
  import opened Wrappers
  import opened CString
  import opened Props
  import CArith

  /** The value of an option given without one. */
  const DefaultValue: string := "1"

  /** What one argument contributes: `--name` and `--name=` give
      `name -> "1"`, `--name=value` splits at the first `=`, and an
      argument that does not start with `--` gives nothing. */
  function ParseOption(arg: string): (r: Option<Item>)
    ensures r.Some? <==> |arg| >= 2 && arg[0] == '-' && arg[1] == '-'
    ensures r.Some? ==> '=' !in r.value.name && r.value.value != []
  {
    if |arg| >= 2 && arg[0] == '-' && arg[1] == '-' then
      var pn := arg[2..];
      match FirstIndexOf(pn, '=')
      case None => Some(Item(pn, DefaultValue))
      case Some(k) => Some(Item(pn[..k], if k + 1 == |pn| then DefaultValue else pn[k + 1..]))
    else None
  }

  lemma FlagGivesDefault(name: string)
    requires '=' !in name
    ensures ParseOption("--" + name) == Some(Item(name, DefaultValue))
  {
    assert ("--" + name)[2..] == name;
  }

  lemma EmptyValueGivesDefault(name: string)
    requires '=' !in name
    ensures ParseOption("--" + name + "=") == Some(Item(name, DefaultValue))
  {
    var pn := ("--" + name + "=")[2..];
    assert pn == name + "=";
    assert pn[|name|] == '=' && pn[..|name|] == name;
  }

  /** `--name=value` is read back as the pair it was written from; the
      value may itself contain `=`. */
  lemma {:induction false} OptionRoundTrip(name: string, value: string)
    requires '=' !in name && value != []
    ensures ParseOption("--" + name + "=" + value) == Some(Item(name, value))
  {
    var pn := ("--" + name + "=" + value)[2..];
    assert pn == name + "=" + value;
    assert pn[|name|] == '=' && pn[..|name|] == name;
    assert pn[|name| + 1..] == value;
  }

  /** An argument that does not start with `--` is ignored. */
  lemma NonOptionIgnored(arg: string)
    requires arg == [] || arg[0] != '-' || (|arg| >= 2 && arg[1] != '-') || arg == "-"
    ensures ParseOption(arg).None?
  {
  }

  /** The argument's contribution to the properties parsed so far. */
  function AddOption(items: seq<Item>, arg: string): seq<Item> {
    match ParseOption(arg)
    case None => items
    case Some(it) => Insert(items, it).0
  }

  /** The properties the arguments give, in order. */
  function Options(args: seq<string>): seq<Item> {
    if args == [] then [] else AddOption(Options(args[..|args| - 1]), args[|args| - 1])
  }

  lemma {:induction false} OptionsSorted(args: seq<string>)
    ensures SortedByName(Options(args))
  {
    if args != [] {
      OptionsSorted(args[..|args| - 1]);
      var it := ParseOption(args[|args| - 1]);
      if it.Some? {
        InsertSorted(Options(args[..|args| - 1]), it.value);
      }
    }
  }

  /** The first argument that sets `name`, read from the front. */
  function FirstOption(args: seq<string>, name: string): Option<Item> {
    if args == [] then None
    else if ParseOption(args[0]).Some? && ParseOption(args[0]).value.name == name then ParseOption(args[0])
    else FirstOption(args[1..], name)
  }

  lemma {:induction false} FirstOptionAppend(args: seq<string>, arg: string, name: string)
    ensures FirstOption(args + [arg], name) ==
      if FirstOption(args, name).Some? then FirstOption(args, name)
      else if ParseOption(arg).Some? && ParseOption(arg).value.name == name then ParseOption(arg)
      else None
  {
    if args == [] {
      assert [arg][1..] == [];
    } else {
      assert (args + [arg])[1..] == args[1..] + [arg];
      FirstOptionAppend(args[1..], arg, name);
    }
  }

  /** First wins: the property stored under a name is the one the earliest
      argument naming it gave; a repeated option does not override it. */
  lemma {:induction false} OptionsFirstWins(args: seq<string>, name: string)
    ensures Find(Options(args), name) == FirstOption(args, name)
  {
    if args != [] {
      var init, last := args[..|args| - 1], args[|args| - 1];
      assert args == init + [last];
      OptionsFirstWins(init, name);
      OptionsSorted(init);
      FirstOptionAppend(init, last, name);
      var it := ParseOption(last);
      if it.Some? {
        FindAfterInsert(Options(init), it.value, name);
      }
    }
  }

  lemma OptionsStep(args: seq<string>, i: nat)
    requires 1 <= i < |args|
    ensures Options(args[1..i + 1]) == AddOption(Options(args[1..i]), args[i])
  {
    var next := args[1..i + 1];
    assert next[..|next| - 1] == args[1..i];
  }

  /** One pass of the constructor's loop: the name and value are located
      by pointer and length, as the source does, and added by length. */
  method AddArgument(props: Properties, arg: string)
    requires props.Valid()
    modifies props
    ensures props.Valid() && props.items == AddOption(old(props.items), arg)
  {
    if |arg| >= 2 && arg[0] == '-' && arg[1] == '-' {
      var pn := arg[2..];
      var pnLen, pv, pvLen;
      var eq := FirstIndexOf(pn, '=');
      if eq.None? {
        pv := DefaultValue;
        pnLen := |pn|;
        pvLen := 1;
        assert pn[..pnLen] == pn;
      } else {
        pnLen := eq.value;
        pv := pn[eq.value + 1..];
        if pv == [] {
          pv := DefaultValue;
          pvLen := 1;
        } else {
          pvLen := |pv|;
        }
      }
      assert pn[..pnLen] == ParseOption(arg).value.name && pv[..pvLen] == ParseOption(arg).value.value;
      var _ := props.AddWithLengths(pn, pnLen, pv, pvLen);
    }
  }

  class ApplicationContext {
    /** `m_result`: left indeterminate until `run` stores a result. */
    var result: CArith.int32
    /** `m_props`. */
    const props: Properties

    constructor ()
      ensures fresh(props) && props.Valid() && props.items == []
    {
      props := new Properties();
    }
  }

  class Application {
    /** `m_ctx`. */
    const ctx: ApplicationContext

    /** `Application(argc, argv)`: `argv[0]` is skipped; every later
        argument starting with `--` is added, by length, as a property. */
    constructor (argv: seq<string>)
      ensures fresh(ctx) && fresh(ctx.props) && ctx.props.Valid()
      ensures ctx.props.items == Options(if argv == [] then [] else argv[1..])
    {
      var c := new ApplicationContext();
      var props := c.props;
      var i := 1;
      while i < |argv|
        invariant 1 <= i && (argv != [] ==> i <= |argv|)
        invariant props.Valid()
        invariant props.items == Options(if argv == [] then [] else argv[1..i])
      {
        AddArgument(props, argv[i]);
        OptionsStep(argv, i);
        i := i + 1;
      }
      if argv != [] {
        assert argv[1..i] == argv[1..];
      }
      ctx := c;
    }

    /** `run(proc)`: the procedure's return value (the parameter) becomes
        the context's result. */
    method Run(ret: CArith.int32)
      modifies ctx`result
      ensures ctx.result == ret
      ensures Result() == ret
    {
      ctx.result := ret;
    }

    /** `result()`: the context's result. */
    function Result(): (r: CArith.int32)
      reads ctx
      ensures r == ctx.result
    {
      ctx.result
    }
  }
}
