/** The command line `execute_cli_command` of scripts/run_cli_from_csv.py
    assembles from one CSV row. Running it in a shell and the process pool
    around it are left out. An argument set is the row's (field, value)
    pairs in column order. */
module RunCli {
  import opened Common

  /** `--<field, stripped> "<value>"`; the value is not escaped. */
  function Argument(field: string, value: string): (r: string)
    ensures |r| == |Strip(field)| + |value| + 5
    ensures StartsWith(r, "--") && r[2..2 + |Strip(field)|] == Strip(field)
    ensures r[2 + |Strip(field)|..|r| - |value| - 1] == " \""
    ensures r[|r| - |value| - 1..|r| - 1] == value && r[|r| - 1] == '"'
  {
    var name := Strip(field);
    var head := "--" + name + " \"";
    var r := head + value + "\"";
    assert r[..|head|] == head && head[..2] == "--";
    assert head[2..2 + |name|] == name && head[2 + |name|..] == " \"";
    assert r[|head|..|head| + |value|] == value;
    r
  }

  function Arguments(argSet: seq<(string, string)>): (r: seq<string>)
    ensures |r| == |argSet|
    ensures forall i :: 0 <= i < |r| ==> r[i] == Argument(argSet[i].0, argSet[i].1)
  {
    if |argSet| == 0 then [] else [Argument(argSet[0].0, argSet[0].1)] + Arguments(argSet[1..])
  }

  /** The command: the CLI, one space, then the arguments joined by single
      spaces. */
  function Command(cli: string, argSet: seq<(string, string)>): (r: string)
    ensures StartsWith(r, cli + " ")
    ensures r[|cli| + 1..] == Join(Arguments(argSet), " ")
  {
    cli + " " + Join(Arguments(argSet), " ")
  }

  /** No arguments leaves the CLI followed by one space. */
  lemma EmptyArgSet(cli: string)
    ensures Command(cli, []) == cli + " "
  {
    assert Command(cli, [])[|cli| + 1..] == "";
  }

  /** Each further pair adds one space and its argument at the end. */
  lemma CommandAppend(cli: string, argSet: seq<(string, string)>, field: string, value: string)
    requires |argSet| > 0
    ensures Command(cli, argSet + [(field, value)]) == Command(cli, argSet) + " " + Argument(field, value)
  {
    var a := Arguments(argSet);
    var x := Argument(field, value);
    var j := Join(a, " ");
    assert Join(Arguments(argSet + [(field, value)]), " ") == j + " " + x by {
      ArgumentsAppend(argSet, field, value);
      JoinAppend(a, x, " ");
    }
    assert Command(cli, argSet + [(field, value)]) == cli + " " + (j + " " + x);
    assert Command(cli, argSet) == cli + " " + j;
    ConcatAssoc4(cli, " ", j, x);
  }

  lemma ConcatAssoc4(c: string, s: string, j: string, x: string)
    ensures c + s + (j + s + x) == (c + s + j) + s + x
  {
  }

  lemma {:induction false} ArgumentsAppend(argSet: seq<(string, string)>, field: string, value: string)
    ensures Arguments(argSet + [(field, value)]) == Arguments(argSet) + [Argument(field, value)]
  {
    if |argSet| > 0 {
      assert (argSet + [(field, value)])[1..] == argSet[1..] + [(field, value)];
      ArgumentsAppend(argSet[1..], field, value);
    } else {
      assert argSet + [(field, value)] == [(field, value)];
    }
  }

  /** Whitespace around a field name does not reach the command. */
  lemma FieldPaddingIgnored(field: string, value: string)
    ensures Argument(" " + field + " ", value) == Argument(field, value)
  {
    assert (" " + field)[1..] == field;
    assert StripLeft(" " + field) == StripLeft(field);
    assert " " + field + " " == (" " + field) + " ";
    StripLeftConcat(" " + field, " ");
    StripLeftConcat(field, " ");
    var l := StripLeft(field);
    if l != "" {
      assert (l + " ")[..|l|] == l;
    }
  }
}
