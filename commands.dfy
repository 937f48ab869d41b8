/** The table of `:` commands and the prefix matcher used for completion. */
module Commands {
  import opened Text

  datatype CommandDef = CommandDef(name: string, aliases: seq<string>, description: string)

  const CommandTable: seq<CommandDef> := [
    CommandDef("workflows", ["wf"], "Switch to workflows view"),
    CommandDef("schedules", ["sch"], "Switch to schedules view"),
    CommandDef("namespace", ["ns"], "Switch namespace (e.g. :ns production)"),
    CommandDef("signal", ["sig"], "Signal workflow (e.g. :signal my-signal {\"key\":\"val\"})"),
    CommandDef("quit", ["q"], "Quit t9s"),
    CommandDef("help", ["h"], "Show help")
  ]

  /** `str::starts_with` */
  predicate StartsWith(s: string, prefix: string) {
    prefix <= s
  }

  /** A command is offered for an already lower-cased input when its name or
      one of its aliases starts with it. */
  predicate Offers(cmd: CommandDef, lower: string) {
    StartsWith(cmd.name, lower) || AnyStartsWith(cmd.aliases, lower)
  }

  /** `aliases.iter().any(|a| a.starts_with(lower))` */
  predicate AnyStartsWith(names: seq<string>, lower: string)
    ensures AnyStartsWith(names, lower) <==> exists a :: a in names && StartsWith(a, lower)
  {
    if names == [] then false
    else StartsWith(names[0], lower) || AnyStartsWith(names[1..], lower)
  }

  /** `a` is `b` with some elements left out, the rest in order. */
  predicate IsSubsequence<T(==)>(a: seq<T>, b: seq<T>)
    decreases |b|
  {
    if a == [] then true
    else if b == [] then false
    else (a[0] == b[0] && IsSubsequence(a[1..], b[1..])) || IsSubsequence(a, b[1..])
  }

  predicate NoDuplicates<T(==)>(s: seq<T>) {
    forall i, j :: 0 <= i < j < |s| ==> s[i] != s[j]
  }

  /** `iter().filter(...)`: the commands of `cmds` offered for `lower`. */
  function Filter(cmds: seq<CommandDef>, lower: string): seq<CommandDef> {
    if cmds == [] then []
    else if Offers(cmds[0], lower) then [cmds[0]] + Filter(cmds[1..], lower)
    else Filter(cmds[1..], lower)
  }

  /** The filter keeps exactly the offered commands, in order, each once if
      the table has each once. */
  lemma {:induction false} FilterSpec(cmds: seq<CommandDef>, lower: string)
    ensures forall c :: c in Filter(cmds, lower) <==> c in cmds && Offers(c, lower)
    ensures IsSubsequence(Filter(cmds, lower), cmds)
    ensures NoDuplicates(cmds) ==> NoDuplicates(Filter(cmds, lower))
    decreases |cmds|
  {
    if cmds != [] {
      FilterSpec(cmds[1..], lower);
      var rest := Filter(cmds[1..], lower);
      assert forall c :: c in cmds <==> c == cmds[0] || c in cmds[1..];
      if Offers(cmds[0], lower) {
        var r := [cmds[0]] + rest;
        assert r[1..] == rest;
        if NoDuplicates(cmds) {
          assert cmds[0] !in cmds[1..];
          assert forall j :: 0 < j < |r| ==> r[j] == rest[j - 1];
        }
      }
    }
  }

  /** The filter's first command is the table's first offered one. */
  lemma {:induction false} FilterHead(cmds: seq<CommandDef>, lower: string)
    requires Filter(cmds, lower) != []
    ensures exists i :: 0 <= i < |cmds| && Offers(cmds[i], lower) && Filter(cmds, lower)[0] == cmds[i] &&
                        forall j :: 0 <= j < i ==> !Offers(cmds[j], lower)
  {
    if Offers(cmds[0], lower) {
      assert Filter(cmds, lower)[0] == cmds[0];
    } else {
      FilterHead(cmds[1..], lower);
      var i :| 0 <= i < |cmds[1..]| && Offers(cmds[1..][i], lower) && Filter(cmds[1..], lower)[0] == cmds[1..][i] &&
               forall j :: 0 <= j < i ==> !Offers(cmds[1..][j], lower);
      assert Offers(cmds[i + 1], lower) && Filter(cmds, lower)[0] == cmds[i + 1];
      forall j | 0 <= j < i + 1
        ensures !Offers(cmds[j], lower)
      {
        if j > 0 { assert cmds[j] == cmds[1..][j - 1]; }
      }
    }
  }

  /** `matching_commands`: exactly the table's commands whose name or an
      alias starts with the lower-cased input, in table order, each once. */
  function MatchingCommands(input: string): (r: seq<CommandDef>)
    ensures forall c :: c in r <==> c in CommandTable && Offers(c, ToLower(input))
    ensures IsSubsequence(r, CommandTable)
    ensures NoDuplicates(r)
  {
    FilterSpec(CommandTable, ToLower(input));
    Filter(CommandTable, ToLower(input))
  }

  lemma {:induction false} FilterKeepsAll(cmds: seq<CommandDef>, lower: string)
    requires forall c :: c in cmds ==> Offers(c, lower)
    ensures Filter(cmds, lower) == cmds
    decreases |cmds|
  {
    if cmds != [] {
      assert cmds[0] in cmds;
      assert forall c :: c in cmds[1..] ==> c in cmds;
      FilterKeepsAll(cmds[1..], lower);
    }
  }

  /** Empty input offers every command. */
  lemma EmptyInputMatchesAll()
    ensures MatchingCommands("") == CommandTable
  {
    FilterKeepsAll(CommandTable, "");
  }

  /** Matching ignores ASCII case. */
  lemma MatchingIgnoresCase(input: string)
    ensures MatchingCommands(input) == MatchingCommands(ToLower(input))
  {
    ToLowerIdempotent(input);
  }

  // ---------------------------------------------------------------- the cases of the unit tests in commands.rs

  function Pick(c: CommandDef, lower: string): seq<CommandDef> {
    if Offers(c, lower) then [c] else []
  }

  lemma FilterFrom(cmds: seq<CommandDef>, i: nat, lower: string)
    requires i < |cmds|
    ensures Filter(cmds[i..], lower) == Pick(cmds[i], lower) + Filter(cmds[i + 1..], lower)
  {
    assert cmds[i..][1..] == cmds[i + 1..];
  }

  lemma FilterSix(cmds: seq<CommandDef>, lower: string)
    requires |cmds| == 6
    ensures Filter(cmds, lower)
         == Pick(cmds[0], lower) + (Pick(cmds[1], lower) + (Pick(cmds[2], lower)
          + (Pick(cmds[3], lower) + (Pick(cmds[4], lower) + Pick(cmds[5], lower)))))
  {
    var p0, p1, p2, p3, p4, p5 := Pick(cmds[0], lower), Pick(cmds[1], lower), Pick(cmds[2], lower),
                                  Pick(cmds[3], lower), Pick(cmds[4], lower), Pick(cmds[5], lower);
    assert cmds[6..] == [];
    FilterFrom(cmds, 5, lower);
    assert Filter(cmds[5..], lower) == p5;
    FilterFrom(cmds, 4, lower);
    assert Filter(cmds[4..], lower) == p4 + p5;
    FilterFrom(cmds, 3, lower);
    assert Filter(cmds[3..], lower) == p3 + (p4 + p5);
    FilterFrom(cmds, 2, lower);
    assert Filter(cmds[2..], lower) == p2 + (p3 + (p4 + p5));
    FilterFrom(cmds, 1, lower);
    assert Filter(cmds[1..], lower) == p1 + (p2 + (p3 + (p4 + p5)));
    FilterFrom(cmds, 0, lower);
    assert cmds[0..] == cmds;
  }

  lemma LowerUnchanged(s: string)
    requires forall i :: 0 <= i < |s| ==> !IsAsciiUpper(s[i])
    ensures ToLower(s) == s
  {
  }

  /** Neither the name nor the one alias of a command starts with `p`,
      because their first letters differ from `p`'s. */
  lemma NotOffered(c: CommandDef, p: string)
    requires p != [] && c.name != [] && p[0] != c.name[0]
    requires |c.aliases| == 1 && c.aliases[0] != [] && p[0] != c.aliases[0][0]
    ensures !Offers(c, p)
  {
    assert c.aliases[1..] == [];
  }

  lemma NotOfferedLonger(c: CommandDef, p: string, k: nat)
    requires k < |p| && |c.aliases| == 1
    requires k >= |c.name| || c.name[k] != p[k]
    requires k >= |c.aliases[0]| || c.aliases[0][k] != p[k]
    ensures !Offers(c, p)
  {
    assert c.aliases[1..] == [];
  }

  lemma PicksW()
    ensures var t := CommandTable;
      Pick(t[0], "w") == [t[0]] && Pick(t[1], "w") == [] && Pick(t[2], "w") == []
      && Pick(t[3], "w") == [] && Pick(t[4], "w") == [] && Pick(t[5], "w") == []
  {
    var t := CommandTable;
    assert StartsWith(t[0].name, "w");
    NotOffered(t[1], "w");
    NotOffered(t[2], "w");
    NotOffered(t[3], "w");
    NotOffered(t[4], "w");
    NotOffered(t[5], "w");
  }

  lemma MatchW()
    ensures MatchingCommands("w") == [CommandTable[0]]
  {
    LowerUnchanged("w");
    FilterSix(CommandTable, "w");
    PicksW();
  }

  lemma PicksWf()
    ensures var t := CommandTable;
      Pick(t[0], "wf") == [t[0]] && Pick(t[1], "wf") == [] && Pick(t[2], "wf") == []
      && Pick(t[3], "wf") == [] && Pick(t[4], "wf") == [] && Pick(t[5], "wf") == []
  {
    var t := CommandTable;
    assert t[0].aliases[0] == "wf";
    NotOffered(t[1], "wf");
    NotOffered(t[2], "wf");
    NotOffered(t[3], "wf");
    NotOffered(t[4], "wf");
    NotOffered(t[5], "wf");
  }

  lemma MatchWf()
    ensures MatchingCommands("wf") == [CommandTable[0]]
  {
    LowerUnchanged("wf");
    FilterSix(CommandTable, "wf");
    PicksWf();
  }

  lemma PicksS()
    ensures var t := CommandTable;
      Pick(t[0], "s") == [] && Pick(t[1], "s") == [t[1]] && Pick(t[2], "s") == []
      && Pick(t[3], "s") == [t[3]] && Pick(t[4], "s") == [] && Pick(t[5], "s") == []
  {
    var t := CommandTable;
    NotOffered(t[0], "s");
    assert StartsWith(t[1].name, "s");
    NotOffered(t[2], "s");
    assert StartsWith(t[3].name, "s");
    NotOffered(t[4], "s");
    NotOffered(t[5], "s");
  }

  lemma MatchS()
    ensures MatchingCommands("s") == [CommandTable[1], CommandTable[3]]
  {
    LowerUnchanged("s");
    FilterSix(CommandTable, "s");
    PicksS();
  }

  lemma PicksSch()
    ensures var t := CommandTable;
      Pick(t[0], "sch") == [] && Pick(t[1], "sch") == [t[1]] && Pick(t[2], "sch") == []
      && Pick(t[3], "sch") == [] && Pick(t[4], "sch") == [] && Pick(t[5], "sch") == []
  {
    var t := CommandTable;
    NotOffered(t[0], "sch");
    assert t[1].aliases[0] == "sch";
    NotOffered(t[2], "sch");
    NotOfferedLonger(t[3], "sch", 1);
    NotOffered(t[4], "sch");
    NotOffered(t[5], "sch");
  }

  lemma MatchSch()
    ensures MatchingCommands("sch") == [CommandTable[1]]
  {
    LowerUnchanged("sch");
    FilterSix(CommandTable, "sch");
    PicksSch();
  }

  lemma PicksSig()
    ensures var t := CommandTable;
      Pick(t[0], "sig") == [] && Pick(t[1], "sig") == [] && Pick(t[2], "sig") == []
      && Pick(t[3], "sig") == [t[3]] && Pick(t[4], "sig") == [] && Pick(t[5], "sig") == []
  {
    var t := CommandTable;
    NotOffered(t[0], "sig");
    NotOfferedLonger(t[1], "sig", 1);
    NotOffered(t[2], "sig");
    assert t[3].aliases[0] == "sig";
    NotOffered(t[4], "sig");
    NotOffered(t[5], "sig");
  }

  lemma MatchSig()
    ensures MatchingCommands("sig") == [CommandTable[3]]
  {
    LowerUnchanged("sig");
    FilterSix(CommandTable, "sig");
    PicksSig();
  }

  lemma PicksQ()
    ensures var t := CommandTable;
      Pick(t[0], "q") == [] && Pick(t[1], "q") == [] && Pick(t[2], "q") == []
      && Pick(t[3], "q") == [] && Pick(t[4], "q") == [t[4]] && Pick(t[5], "q") == []
  {
    var t := CommandTable;
    NotOffered(t[0], "q");
    NotOffered(t[1], "q");
    NotOffered(t[2], "q");
    NotOffered(t[3], "q");
    assert t[4].aliases[0] == "q";
    NotOffered(t[5], "q");
  }

  lemma MatchQ()
    ensures MatchingCommands("q") == [CommandTable[4]]
  {
    LowerUnchanged("q");
    FilterSix(CommandTable, "q");
    PicksQ();
  }

  lemma PicksXyz()
    ensures var t := CommandTable;
      Pick(t[0], "xyz") == [] && Pick(t[1], "xyz") == [] && Pick(t[2], "xyz") == []
      && Pick(t[3], "xyz") == [] && Pick(t[4], "xyz") == [] && Pick(t[5], "xyz") == []
  {
    var t := CommandTable;
    NotOffered(t[0], "xyz");
    NotOffered(t[1], "xyz");
    NotOffered(t[2], "xyz");
    NotOffered(t[3], "xyz");
    NotOffered(t[4], "xyz");
    NotOffered(t[5], "xyz");
  }

  lemma MatchXyz()
    ensures MatchingCommands("xyz") == []
  {
    LowerUnchanged("xyz");
    FilterSix(CommandTable, "xyz");
    PicksXyz();
  }
}
