/**
 scripts/compdb.py: compile commands are rewritten for clang token by token. Flags that might be
 unknown to clang are probed once for every target triple, and one table of verdicts serves all
 commands. The script splits nothing itself here: a command is its list of tokens, a line of a
 .cmd file is what the two regular expressions make of it, and the probe is any function.
 */
module CompDb {
  import opened Wrappers

  const WITH_VALUE: set<string> := {"-include", "-isystem", "-o", "-MF", "-x", "-idirafter", "-imacros"}

  predicate StartsWith(s: string, prefix: string) { prefix <= s }

  predicate EndsWith(s: string, suffix: string) {
    |suffix| <= |s| && s[|s| - |suffix|..] == suffix
  }

  predicate NoProbe(a: string) {
    StartsWith(a, "-I") || StartsWith(a, "-D") || StartsWith(a, "-U") || StartsWith(a, "-Wp,")
  }

  // ---------- parse

  datatype Line = Saved(cmd: string) | Source(src: string) | Other

  /** Python's truth of an optional string. */
  predicate Truthy(s: Option<string>) { s.Some? && s.value != "" }

  /** cmd is the command of the last savedcmd line among the first n, if there is one. */
  ghost predicate LastCommand(lines: seq<Line>, n: nat, cmd: Option<string>)
    requires n <= |lines|
  {
    match cmd
    case None => forall k | 0 <= k < n :: !lines[k].Saved?
    case Some(c) => exists k :: 0 <= k < n && lines[k] == Saved(c) && forall m | k < m < n :: !lines[m].Saved?
  }

  /** src is the file of the last source line among the first n, if there is one. */
  ghost predicate LastSource(lines: seq<Line>, n: nat, src: Option<string>)
    requires n <= |lines|
  {
    match src
    case None => forall k | 0 <= k < n :: !lines[k].Source?
    case Some(c) => exists k :: 0 <= k < n && lines[k] == Source(c) && forall m | k < m < n :: !lines[m].Source?
  }

  lemma LastCommandIsUnique(lines: seq<Line>, n: nat, a: Option<string>, b: Option<string>)
    requires n <= |lines| && LastCommand(lines, n, a) && LastCommand(lines, n, b)
    ensures a == b
  {
    if a.Some? && b.Some? {
      var j :| 0 <= j < n && lines[j] == Saved(a.value) && forall m | j < m < n :: !lines[m].Saved?;
      var k :| 0 <= k < n && lines[k] == Saved(b.value) && forall m | k < m < n :: !lines[m].Saved?;
      assert j == k;
    }
  }

  lemma LastSourceIsUnique(lines: seq<Line>, n: nat, a: Option<string>, b: Option<string>)
    requires n <= |lines| && LastSource(lines, n, a) && LastSource(lines, n, b)
    ensures a == b
  {
    if a.Some? && b.Some? {
      var j :| 0 <= j < n && lines[j] == Source(a.value) && forall m | j < m < n :: !lines[m].Source?;
      var k :| 0 <= k < n && lines[k] == Source(b.value) && forall m | k < m < n :: !lines[m].Source?;
      assert j == k;
    }
  }

  /** The last command and the last source of the first n lines are both there and not empty. */
  ghost predicate Complete(lines: seq<Line>, n: nat)
    requires n <= |lines|
  {
    && (exists c :: LastCommand(lines, n, Some(c)) && c != "")
    && (exists c :: LastSource(lines, n, Some(c)) && c != "")
  }

  lemma CompleteMeans(lines: seq<Line>, n: nat, cmd: Option<string>, src: Option<string>)
    requires n <= |lines| && LastCommand(lines, n, cmd) && LastSource(lines, n, src)
    ensures Complete(lines, n) <==> cmd.Some? && cmd.value != "" && src.Some? && src.value != ""
  {
    if Complete(lines, n) {
      var c :| LastCommand(lines, n, Some(c)) && c != "";
      var d :| LastSource(lines, n, Some(d)) && d != "";
      LastCommandIsUnique(lines, n, Some(c), cmd);
      LastSourceIsUnique(lines, n, Some(d), src);
    }
  }

  /** cmd and src are what the first n lines hold, and no shorter prefix would have done. */
  ghost predicate ParsedUpTo(lines: seq<Line>, n: nat, cmd: Option<string>, src: Option<string>)
    requires n <= |lines|
  {
    && LastCommand(lines, n, cmd) && LastSource(lines, n, src)
    && (n < |lines| ==> Complete(lines, n))
    && forall m | 0 <= m < n :: !Complete(lines, m)
  }

  lemma NextLine(lines: seq<Line>, n: nat, cmd: Option<string>, src: Option<string>)
    requires n < |lines| && LastCommand(lines, n, cmd) && LastSource(lines, n, src)
    ensures LastCommand(lines, n + 1, if lines[n].Saved? then Some(lines[n].cmd) else cmd)
    ensures LastSource(lines, n + 1, if lines[n].Source? then Some(lines[n].src) else src)
  {
  }

  /** parse: the last command and the last source of the shortest prefix of the file that has
      a nonempty one of each, or of the whole file when no prefix does. */
  method Parse(lines: seq<Line>) returns (cmd: Option<string>, src: Option<string>)
    ensures exists n :: 0 <= n <= |lines| && ParsedUpTo(lines, n, cmd, src)
    ensures Truthy(cmd) && Truthy(src) <==> exists m :: 0 <= m <= |lines| && Complete(lines, m)
  {
    cmd, src := None, None;
    var i := 0;
    CompleteMeans(lines, 0, cmd, src);
    while i < |lines|
      invariant 0 <= i <= |lines|
      invariant LastCommand(lines, i, cmd) && LastSource(lines, i, src)
      invariant forall m | 0 <= m <= i :: !Complete(lines, m)
      invariant !(Truthy(cmd) && Truthy(src))
    {
      NextLine(lines, i, cmd, src);
      match lines[i] {
        case Saved(c) => cmd := Some(c);
        case Source(s) => src := Some(s);
        case Other =>
      }
      i := i + 1;
      CompleteMeans(lines, i, cmd, src);
      if Truthy(cmd) && Truthy(src) {
        assert ParsedUpTo(lines, i, cmd, src);
        return;
      }
    }
    assert ParsedUpTo(lines, i, cmd, src);
  }

  /** A later command takes the place of an earlier one, and reading stops with the first line
      that completes the pair. */
  lemma ParsedSample(a: string, b: string, c: string, file: string,
                     n: nat, cmd: Option<string>, src: Option<string>)
    requires b != "" && file != "" && n <= 4
    requires ParsedUpTo([Saved(a), Saved(b), Source(file), Saved(c)], n, cmd, src)
    ensures n == 3 && cmd == Some(b) && src == Some(file)
  {
    var lines := [Saved(a), Saved(b), Source(file), Saved(c)];
    assert LastCommand(lines, 3, Some(b)) by { assert lines[1] == Saved(b); }
    assert LastSource(lines, 3, Some(file)) by { assert lines[2] == Source(file); }
    assert Complete(lines, 3);
    assert n < 3 ==> LastSource(lines, n, None);
    CompleteMeans(lines, n, cmd, src);
    if n < 3 {
      LastSourceIsUnique(lines, n, src, None);
      assert false;
    }
    LastCommandIsUnique(lines, 3, cmd, Some(b));
    LastSourceIsUnique(lines, 3, src, Some(file));
  }

  // ---------- split, after tokenising

  predicate Dependency(t: string) {
    StartsWith(t, "-Wp,-MMD") || StartsWith(t, "-Wp,-MD")
  }

  /** Tokens up to the first ";", without the options that write dependency files. */
  function Split(tokens: seq<string>): seq<string> {
    if tokens == [] || tokens[0] == ";" then []
    else (if Dependency(tokens[0]) then [] else [tokens[0]]) + Split(tokens[1..])
  }

  /** What follows a ";" is never looked at. */
  lemma {:induction false} SplitAtSemicolon(a: seq<string>, b: seq<string>)
    requires ";" !in a
    ensures Split(a + [";"] + b) == Split(a)
  {
    if a == [] {
      assert ([] + [";"] + b)[0] == ";";
    } else {
      assert (a + [";"] + b)[1..] == a[1..] + [";"] + b;
      SplitAtSemicolon(a[1..], b);
    }
  }

  /** Before that, splitting goes piece by piece, so that the order is kept ... */
  lemma {:induction false} SplitAppend(a: seq<string>, b: seq<string>)
    requires ";" !in a
    ensures Split(a + b) == Split(a) + Split(b)
  {
    if a == [] {
      assert a + b == b;
    } else {
      assert (a + b)[1..] == a[1..] + b && a[0] in a;
      SplitAppend(a[1..], b);
      Associative(if Dependency(a[0]) then [] else [a[0]], Split(a[1..]), Split(b));
    }
  }

  /** ... no option that writes a dependency file is left ... */
  lemma {:induction false} SplitDropsDependencies(tokens: seq<string>, t: string)
    requires "-Wp,-MMD" <= t || "-Wp,-MD" <= t
    ensures t !in Split(tokens)
  {
    if tokens != [] && tokens[0] != ";" {
      SplitDropsDependencies(tokens[1..], t);
    }
  }

  /** ... and nothing else is lost. */
  lemma {:induction false} SplitKeepsTheRest(tokens: seq<string>, t: string)
    requires ";" !in tokens && !("-Wp,-MMD" <= t) && !("-Wp,-MD" <= t)
    ensures multiset(Split(tokens))[t] == multiset(tokens)[t]
  {
    if tokens != [] {
      var head, rest := tokens[0], tokens[1..];
      SplitKeepsTheRest(rest, t);
      assert tokens == [head] + rest;
      assert Dependency(head) ==> head != t;
      assert Split(tokens) == (if Dependency(head) then [] else [head]) + Split(rest);
    }
  }

  lemma {:induction false} SplitTwice(tokens: seq<string>)
    ensures Split(Split(tokens)) == Split(tokens)
  {
    if tokens != [] && tokens[0] != ";" {
      SplitTwice(tokens[1..]);
      if Dependency(tokens[0]) {
        assert Split(tokens) == Split(tokens[1..]);
      } else {
        assert Split(tokens)[1..] == Split(tokens[1..]);
      }
    }
  }

  // ---------- triple_of

  function Basename(path: string): string {
    if path == "" || path[|path| - 1] == '/' then ""
    else Basename(path[..|path| - 1]) + [path[|path| - 1]]
  }

  function TripleOf(driver: string): Option<string> {
    var name := Basename(driver);
    if EndsWith(name, "-gcc") then Some(name[..|name| - 4]) else None
  }

  lemma {:induction false} BasenameIsLastPart(path: string)
    ensures '/' !in Basename(path) && EndsWith(path, Basename(path))
    ensures var n := |path| - |Basename(path)|; n == 0 || path[n - 1] == '/'
  {
    if path != "" && path[|path| - 1] != '/' {
      BasenameIsLastPart(path[..|path| - 1]);
      assert path == path[..|path| - 1] + [path[|path| - 1]];
    }
  }

  lemma {:induction false} BasenameUnique(dir: string, name: string)
    requires '/' !in name && (dir == "" || dir[|dir| - 1] == '/')
    ensures Basename(dir + name) == name
  {
    var path := dir + name;
    if name == "" {
      assert path == dir;
    } else {
      var init, last := name[..|name| - 1], name[|name| - 1];
      assert last in name && last != '/';
      assert path[|path| - 1] == last;
      assert '/' !in init by { assert forall i | 0 <= i < |init| :: init[i] == name[i]; }
      BasenameUnique(dir, init);
      assert path[..|path| - 1] == dir + init && name == init + [last];
    }
  }

  /** `driver` is a file called <triple>-gcc, in whatever directory. */
  predicate CrossCompiler(driver: string, triple: string) {
    && '/' !in triple && EndsWith(driver, triple + "-gcc")
    && (var n := |driver| - |triple| - 4; n == 0 || driver[n - 1] == '/')
  }

  lemma TripleNamesDriver(driver: string, triple: string)
    requires TripleOf(driver) == Some(triple)
    ensures CrossCompiler(driver, triple)
  {
    var name := Basename(driver);
    BasenameIsLastPart(driver);
    assert name == triple + "-gcc";
    assert forall i | 0 <= i < |triple| :: triple[i] == name[i];
  }

  lemma DriverHasTriple(driver: string, triple: string)
    requires CrossCompiler(driver, triple)
    ensures TripleOf(driver) == Some(triple)
  {
    var n, name := |driver| - |triple| - 4, triple + "-gcc";
    assert driver == driver[..n] + name;
    BasenameUnique(driver[..n], name);
    assert name[..|triple|] == triple && name[|triple|..] == "-gcc";
  }

  /** triple_of finds a triple exactly when the driver is a cross compiler, and then its own. */
  lemma TripleIsTheName(driver: string, triple: string)
    ensures TripleOf(driver) == Some(triple) <==> CrossCompiler(driver, triple)
  {
    if TripleOf(driver) == Some(triple) { TripleNamesDriver(driver, triple); }
    if CrossCompiler(driver, triple) { DriverHasTriple(driver, triple); }
  }

  /** Whatever the directory and the triple, <dir>/<triple>-gcc has that triple. */
  lemma TripleOfPath(dir: string, triple: string)
    requires '/' !in triple
    ensures TripleOf(dir + "/" + triple + "-gcc") == Some(triple)
  {
    var path := dir + "/" + triple + "-gcc";
    assert path == (dir + "/") + (triple + "-gcc");
    assert path[|path| - |triple| - 4..] == triple + "-gcc";
    DriverHasTriple(path, triple);
  }

  // ---------- how a compiler reads its arguments

  /** How a compiler reads its arguments: a flag that takes a value takes the next token. */
  datatype Item = Single(token: string) | Pair(flag: string, value: string) {
    function Tokens(): seq<string> {
      match this
      case Single(a) => [a]
      case Pair(f, v) => [f, v]
    }
  }

  function Read(tokens: seq<string>): seq<Item> {
    if tokens == [] then []
    else if tokens[0] in WITH_VALUE && |tokens| >= 2 then [Pair(tokens[0], tokens[1])] + Read(tokens[2..])
    else [Single(tokens[0])] + Read(tokens[1..])
  }

  // ---------- candidates

  predicate Probeable(a: string) {
    StartsWith(a, "-") && a !in WITH_VALUE && !NoProbe(a) && a != "-c" && a != "-nostdinc"
  }

  /** The two tables of the script, spelled out. */
  lemma FlagTables(a: string)
    ensures a in WITH_VALUE <==>
      || a == "-include" || a == "-isystem" || a == "-o" || a == "-MF" || a == "-x"
      || a == "-idirafter" || a == "-imacros"
    ensures Probeable(a) <==>
      && "-" <= a && a !in WITH_VALUE && a != "-c" && a != "-nostdinc"
      && !("-I" <= a) && !("-D" <= a) && !("-U" <= a) && !("-Wp," <= a)
  {
  }

  /** The flags to probe among `tokens`; `skip` when the first is the value of a flag. */
  function FlagsIn(tokens: seq<string>, skip: bool): seq<string> {
    if tokens == [] then []
    else if skip then FlagsIn(tokens[1..], false)
    else if tokens[0] in WITH_VALUE then FlagsIn(tokens[1..], true)
    else (if Probeable(tokens[0]) then [tokens[0]] else []) + FlagsIn(tokens[1..], false)
  }

  function Candidates(args: seq<string>): seq<string>
    requires args != []
  {
    FlagsIn(args[1..], false)
  }

  /** The probeable tokens among those that are neither a flag with a value nor its value. */
  function ProbeableSingles(items: seq<Item>): seq<string> {
    if items == [] then []
    else (if items[0].Single? && Probeable(items[0].token) then [items[0].token] else [])
         + ProbeableSingles(items[1..])
  }

  lemma {:induction false} FlagsAreSingles(tokens: seq<string>)
    ensures FlagsIn(tokens, false) == ProbeableSingles(Read(tokens))
    decreases |tokens|
  {
    if tokens != [] {
      if tokens[0] in WITH_VALUE && |tokens| >= 2 {
        assert tokens[1..][1..] == tokens[2..];
        assert Read(tokens)[1..] == Read(tokens[2..]);
        FlagsAreSingles(tokens[2..]);
      } else {
        assert Read(tokens)[1..] == Read(tokens[1..]);
        FlagsAreSingles(tokens[1..]);
        if tokens[0] in WITH_VALUE { assert tokens[1..] == []; }
      }
    }
  }

  /** candidates reads its command as the compiler does: it yields exactly the probeable single
      tokens of the reading after the driver, in order. */
  lemma CandidatesAreSingles(args: seq<string>)
    requires args != []
    ensures Candidates(args) == ProbeableSingles(Read(args[1..]))
  {
    FlagsAreSingles(args[1..]);
  }

  lemma {:induction false} SinglesMembers(items: seq<Item>, f: string)
    ensures f in ProbeableSingles(items) <==> Single(f) in items && Probeable(f)
  {
    if items != [] {
      SinglesMembers(items[1..], f);
      assert items == [items[0]] + items[1..];
    }
  }

  method ComputeCandidates(args: seq<string>) returns (flags: seq<string>)
    requires args != []
    ensures flags == Candidates(args) == ProbeableSingles(Read(args[1..]))
  {
    flags := [];
    var skip := false;
    var i := 1;
    while i < |args|
      invariant 1 <= i <= |args|
      invariant Candidates(args) == flags + FlagsIn(args[i..], skip)
    {
      var a := args[i];
      assert args[i..][1..] == args[i + 1..];
      if skip {
        skip := false;
      } else if a in WITH_VALUE {
        skip := true;
      } else if StartsWith(a, "-") && !NoProbe(a) && a != "-c" && a != "-nostdinc" {
        flags := flags + [a];
      }
      i := i + 1;
    }
    assert flags == Candidates(args);
    CandidatesAreSingles(args);
  }

  lemma {:induction false} CandidatesAreProbeable(tokens: seq<string>, skip: bool)
    ensures forall f | f in FlagsIn(tokens, skip) :: Probeable(f)
  {
    if tokens != [] {
      CandidatesAreProbeable(tokens[1..], false);
      CandidatesAreProbeable(tokens[1..], true);
    }
  }

  // ---------- the table of verdicts

  /** What main keeps of one command; `src` as the .cmd file names it, `realPath` its real path. */
  datatype Entry = Entry(src: string, realPath: string, args: seq<string>, triple: Option<string>)

  type Key = (string, Option<string>)
  type Table = map<Key, bool>

  predicate Usable(raw: seq<Entry>) {
    forall i | 0 <= i < |raw| :: raw[i].args != []
  }

  /** The pair is asked for by some command. */
  ghost predicate Wanted(raw: seq<Entry>, k: Key)
    requires Usable(raw)
  {
    exists i :: 0 <= i < |raw| && raw[i].triple == k.1 && k.0 in Candidates(raw[i].args)
  }

  /** In terms of the reading: some command for that triple has the flag as a single token. */
  ghost predicate Asked(raw: seq<Entry>, f: string, triple: Option<string>)
    requires Usable(raw)
  {
    Probeable(f) && exists i :: 0 <= i < |raw| && raw[i].triple == triple && Single(f) in Read(raw[i].args[1..])
  }

  lemma WantedIsAsked(raw: seq<Entry>, f: string, triple: Option<string>)
    requires Usable(raw)
    ensures Wanted(raw, (f, triple)) <==> Asked(raw, f, triple)
  {
    forall i | 0 <= i < |raw|
      ensures f in Candidates(raw[i].args) <==> Single(f) in Read(raw[i].args[1..]) && Probeable(f)
    {
      CandidatesAreSingles(raw[i].args);
      SinglesMembers(Read(raw[i].args[1..]), f);
    }
  }

  /** The table has exactly the pairs that are wanted, each with what the probe says. */
  ghost predicate IsTableOf(table: Table, raw: seq<Entry>, probe: (string, Option<string>) -> bool)
    requires Usable(raw)
  {
    && (forall k :: k in table <==> Wanted(raw, k))
    && (forall k | k in table :: table[k] == probe(k.0, k.1))
  }

  method CollectWanted(raw: seq<Entry>) returns (wanted: set<Key>)
    requires Usable(raw)
    ensures forall k :: k in wanted <==> Wanted(raw, k)
  {
    wanted := {};
    var i := 0;
    while i < |raw|
      invariant 0 <= i <= |raw|
      invariant forall k :: k in wanted <==> Wanted(raw[..i], k)
    {
      var flags := ComputeCandidates(raw[i].args);
      ghost var before := wanted;
      wanted := wanted + set f | f in flags :: (f, raw[i].triple);
      forall k
        ensures k in wanted <==> Wanted(raw[..i + 1], k)
      {
        WantedNext(raw, i, k);
      }
      i := i + 1;
    }
    assert raw[..i] == raw;
  }

  lemma WantedNext(raw: seq<Entry>, i: nat, k: Key)
    requires Usable(raw) && i < |raw|
    ensures Wanted(raw[..i + 1], k)
            <==> Wanted(raw[..i], k) || (raw[i].triple == k.1 && k.0 in Candidates(raw[i].args))
  {
    var now, next := raw[..i], raw[..i + 1];
    if Wanted(now, k) {
      var j :| 0 <= j < |now| && now[j].triple == k.1 && k.0 in Candidates(now[j].args);
      assert next[j] == now[j];
    }
    if Wanted(next, k) {
      var j :| 0 <= j < |next| && next[j].triple == k.1 && k.0 in Candidates(next[j].args);
      if j < i { assert now[j] == next[j]; }
    }
    if raw[i].triple == k.1 && k.0 in Candidates(raw[i].args) {
      assert next[i] == raw[i];
    }
  }

  /** The pool of probes: one verdict for each wanted pair, in whatever order. */
  method ProbeAll(raw: seq<Entry>, probe: (string, Option<string>) -> bool) returns (table: Table)
    requires Usable(raw)
    ensures IsTableOf(table, raw, probe)
  {
    var wanted := CollectWanted(raw);
    table := map[];
    var todo := wanted;
    while todo != {}
      invariant table.Keys == wanted - todo && todo <= wanted
      invariant forall k | k in table :: table[k] == probe(k.0, k.1)
      decreases |todo|
    {
      var k :| k in todo;
      table := table[k := probe(k.0, k.1)];
      todo := todo - {k};
    }
  }

  function Rejected(table: Table): set<string> {
    set k | k in table && !table[k] :: k.0
  }

  /** The flags reported as dropped are those with a failed probe for some command's triple. */
  lemma RejectedFailedAProbe(table: Table, raw: seq<Entry>, probe: (string, Option<string>) -> bool, f: string)
    requires Usable(raw) && IsTableOf(table, raw, probe)
    ensures f in Rejected(table) <==> exists t :: Asked(raw, f, t) && !probe(f, t)
  {
    if f in Rejected(table) {
      var k :| k in table && !table[k] && k.0 == f;
      assert k == (f, k.1);
      WantedIsAsked(raw, f, k.1);
    }
    if t :| Asked(raw, f, t) && !probe(f, t) {
      WantedIsAsked(raw, f, t);
      assert (f, t) in table;
    }
  }

  // ---------- rewriting

  predicate Verdict(table: Table, a: string, triple: Option<string>) {
    (a, triple) in table ==> table[(a, triple)]
  }

  /** What becomes of one token. */
  function RewriteToken(a: string, e: Entry, table: Table): seq<string> {
    if a == e.src then [e.realPath] else if Verdict(table, a, e.triple) then [a] else []
  }

  function Rewrite(tokens: seq<string>, e: Entry, table: Table): seq<string> {
    if tokens == [] then [] else RewriteToken(tokens[0], e, table) + Rewrite(tokens[1..], e, table)
  }

  function TargetFlag(triple: string): string { "--target=" + triple }

  /** What is inserted after the driver. */
  function Prefix(triple: Option<string>): seq<string> {
    if Truthy(triple) then ["-Qunused-arguments", TargetFlag(triple.value)]
    else ["-Qunused-arguments"]
  }

  /** The whole rewritten command. */
  function Rewritten(e: Entry, table: Table): seq<string>
    requires e.args != []
  {
    [e.args[0]] + (Prefix(e.triple) + Rewrite(e.args[1..], e, table))
  }

  /** What main keeps of a command whose tokens are not all cut off. */
  function EntryOf(src: string, realPath: string, tokens: seq<string>): Entry
    requires Split(tokens) != []
  {
    Entry(src, realPath, Split(tokens), TripleOf(Split(tokens)[0]))
  }

  lemma RewrittenWithTarget(e: Entry, table: Table, triple: string)
    requires e.args != [] && e.triple == Some(triple) && triple != ""
    ensures Rewritten(e, table)
            == [e.args[0]] + (["-Qunused-arguments", "--target=" + triple] + Rewrite(e.args[1..], e, table))
  {
  }

  lemma RewrittenPlain(e: Entry, table: Table)
    requires e.args != [] && !Truthy(e.triple)
    ensures Rewritten(e, table)
            == [e.args[0]] + (["-Qunused-arguments"] + Rewrite(e.args[1..], e, table))
  {
  }

  /** The command of a cross compiler is written with its target ... */
  lemma CrossCommandHasTarget(src: string, realPath: string, tokens: seq<string>, table: Table, triple: string)
    requires Split(tokens) != [] && CrossCompiler(Split(tokens)[0], triple) && triple != ""
    ensures var e := EntryOf(src, realPath, tokens);
      Rewritten(e, table) == [Split(tokens)[0]]
        + (["-Qunused-arguments", "--target=" + triple] + Rewrite(Split(tokens)[1..], e, table))
  {
    TripleIsTheName(Split(tokens)[0], triple);
    RewrittenWithTarget(EntryOf(src, realPath, tokens), table, triple);
  }

  /** ... and any other without one. */
  lemma PlainCommandHasNone(src: string, realPath: string, tokens: seq<string>, table: Table)
    requires Split(tokens) != [] && forall t :: CrossCompiler(Split(tokens)[0], t) ==> t == ""
    ensures var e := EntryOf(src, realPath, tokens);
      Rewritten(e, table) == [Split(tokens)[0]]
        + (["-Qunused-arguments"] + Rewrite(Split(tokens)[1..], e, table))
  {
    var e := EntryOf(src, realPath, tokens);
    if e.triple.Some? { TripleIsTheName(Split(tokens)[0], e.triple.value); }
    RewrittenPlain(e, table);
  }

  lemma Associative<T>(a: seq<T>, b: seq<T>, c: seq<T>)
    ensures a + (b + c) == (a + b) + c
  {
  }

  /** The rewriting loop of main for one command. */
  method RewriteTokens(e: Entry, table: Table) returns (kept: seq<string>)
    requires e.args != []
    ensures kept == [e.args[0]] + Rewrite(e.args[1..], e, table)
  {
    var done: seq<string> := [];
    var i := 1;
    while i < |e.args|
      invariant 1 <= i <= |e.args|
      invariant Rewrite(e.args[1..], e, table) == done + Rewrite(e.args[i..], e, table)
    {
      var a := e.args[i];
      assert e.args[i..][1..] == e.args[i + 1..];
      Associative(done, RewriteToken(a, e, table), Rewrite(e.args[i + 1..], e, table));
      if a == e.src {
        done := done + [e.realPath];
      } else if Verdict(table, a, e.triple) {
        done := done + [a];
      } else {
        assert done + RewriteToken(a, e, table) == done;
      }
      i := i + 1;
    }
    assert done + Rewrite(e.args[i..], e, table) == done;
    kept := [e.args[0]] + done;
  }

  /** list.insert(1, token) */
  method Insert(tokens: seq<string>, token: string) returns (r: seq<string>)
    requires tokens != []
    ensures r == [tokens[0]] + ([token] + tokens[1..])
  {
    r := tokens[..1] + [token] + tokens[1..];
  }

  /** The rewritten tokens, with the prefix inserted after the driver: the last insertion
      comes first. */
  method RewriteCommand(e: Entry, table: Table) returns (kept: seq<string>)
    requires e.args != []
    ensures kept == Rewritten(e, table)
  {
    kept := RewriteTokens(e, table);
    ghost var rest := Rewrite(e.args[1..], e, table);
    assert kept[1..] == rest;
    if Truthy(e.triple) {
      var flag := TargetFlag(e.triple.value);
      kept := Insert(kept, flag);
      assert kept[1..] == [flag] + rest;
      kept := Insert(kept, "-Qunused-arguments");
      assert ["-Qunused-arguments"] + ([flag] + rest) == ["-Qunused-arguments", flag] + rest;
    } else {
      kept := Insert(kept, "-Qunused-arguments");
    }
  }

  /** main from the collected commands on: the rewritten commands and the rejected flags. */
  method RewriteAll(raw: seq<Entry>, probe: (string, Option<string>) -> bool)
    returns (commands: seq<seq<string>>, rejected: set<string>, ghost table: Table)
    requires Usable(raw)
    ensures IsTableOf(table, raw, probe) && rejected == Rejected(table)
    ensures |commands| == |raw|
    ensures forall i | 0 <= i < |raw| :: commands[i] == Rewritten(raw[i], table)
  {
    var verdicts := ProbeAll(raw, probe);
    table := verdicts;
    rejected := Rejected(verdicts);
    commands := [];
    var i := 0;
    while i < |raw|
      invariant 0 <= i <= |raw| && |commands| == i
      invariant forall m | 0 <= m < i :: commands[m] == Rewritten(raw[m], table)
    {
      var kept := RewriteCommand(raw[i], verdicts);
      commands := commands + [kept];
      i := i + 1;
    }
  }

  /** The shared table agrees with probing directly: a token other than the source is dropped
      exactly when some command for the same triple has it as a candidate and the probe rejects
      it; every other token is kept as it is. */
  lemma DroppedIffRejected(raw: seq<Entry>, probe: (string, Option<string>) -> bool, table: Table, e: Entry, a: string)
    requires Usable(raw) && IsTableOf(table, raw, probe) && a != e.src
    ensures RewriteToken(a, e, table)
            == if Asked(raw, a, e.triple) && !probe(a, e.triple) then [] else [a]
  {
    WantedIsAsked(raw, a, e.triple);
  }

  /** No key of the table is a flag that takes a value, a protected flag or no flag at all. */
  ghost predicate Sound(table: Table) {
    forall k | k in table :: Probeable(k.0)
  }

  lemma TableIsSound(table: Table, raw: seq<Entry>, probe: (string, Option<string>) -> bool)
    requires Usable(raw) && IsTableOf(table, raw, probe)
    ensures Sound(table)
  {
    forall k | k in table
      ensures Probeable(k.0)
    {
      var i :| 0 <= i < |raw| && raw[i].triple == k.1 && k.0 in Candidates(raw[i].args);
      CandidatesAreProbeable(raw[i].args[1..], false);
    }
  }

  /** Whatever follows -I, -D, -U or -Wp, such a token survives. */
  lemma ProtectedSurvive(table: Table, e: Entry, x: string, p: string)
    requires Sound(table) && (p == "-I" || p == "-D" || p == "-U" || p == "-Wp,") && p + x != e.src
    ensures RewriteToken(p + x, e, table) == [p + x]
  {
    var a := p + x;
    assert p <= a;
    FlagTables(a);
    AlwaysKept(table, e, a);
  }

  /** Flags that take a value, -I, -D, -U, -Wp, flags, -c, -nostdinc and all non-flags survive. */
  lemma AlwaysKept(table: Table, e: Entry, a: string)
    requires Sound(table) && a != e.src && !Probeable(a)
    ensures RewriteToken(a, e, table) == [a]
  {
  }

  // ---------- the structure of options

  function Write(items: seq<Item>): seq<string> {
    if items == [] then []
    else items[0].Tokens() + Write(items[1..])
  }

  lemma {:induction false} WriteRead(tokens: seq<string>)
    ensures Write(Read(tokens)) == tokens
  {
    if tokens != [] {
      if tokens[0] in WITH_VALUE && |tokens| >= 2 {
        WriteRead(tokens[2..]);
        assert tokens == [tokens[0], tokens[1]] + tokens[2..];
      } else {
        WriteRead(tokens[1..]);
        assert tokens == [tokens[0]] + tokens[1..];
      }
    }
  }

  /** The intended effect on what the compiler reads: the source replaced wherever it stands,
      rejected single flags removed, everything else as it was. */
  function IntendedItem(item: Item, e: Entry, table: Table): seq<Item> {
    match item
    case Single(a) =>
      if a == e.src then [Single(e.realPath)]
      else if Verdict(table, a, e.triple) then [Single(a)] else []
    case Pair(f, v) => [Pair(f, if v == e.src then e.realPath else v)]
  }

  function Intended(items: seq<Item>, e: Entry, table: Table): seq<Item> {
    if items == [] then [] else IntendedItem(items[0], e, table) + Intended(items[1..], e, table)
  }

  /** No value of a value-taking flag has been rejected as a flag of some other command. */
  predicate ValuesKept(items: seq<Item>, e: Entry, table: Table) {
    forall i | 0 <= i < |items| && items[i].Pair? ::
      items[i].value == e.src || Verdict(table, items[i].value, e.triple)
  }

  /** A source ends in ".c", a real path starts with "/": neither is a flag that takes a value. */
  predicate Paths(e: Entry) {
    EndsWith(e.src, ".c") && StartsWith(e.realPath, "/")
  }

  lemma FlagsLookLikeFlags(a: string)
    requires a in WITH_VALUE
    ensures |a| >= 2 && a[0] == '-' && a[|a| - 1] != 'c'
  {
  }

  lemma PathsTakeNoValue(e: Entry)
    requires Paths(e)
    ensures e.src !in WITH_VALUE && e.realPath !in WITH_VALUE
  {
    assert e.src[|e.src| - 2..][1] == 'c';
    if e.src in WITH_VALUE { FlagsLookLikeFlags(e.src); }
    if e.realPath in WITH_VALUE { FlagsLookLikeFlags(e.realPath); }
  }

  lemma ValueFlagIsKept(table: Table, e: Entry, flag: string)
    requires Sound(table) && Paths(e) && flag in WITH_VALUE
    ensures RewriteToken(flag, e, table) == [flag]
  {
    PathsTakeNoValue(e);
    AlwaysKept(table, e, flag);
  }

  lemma {:induction false} StructureIfValuesKept(tokens: seq<string>, e: Entry, table: Table)
    requires Sound(table) && Paths(e) && ValuesKept(Read(tokens), e, table)
    ensures Read(Rewrite(tokens, e, table)) == Intended(Read(tokens), e, table)
    decreases |tokens|
  {
    var items := Read(tokens);
    if tokens != [] {
      var rest := if tokens[0] in WITH_VALUE && |tokens| >= 2 then tokens[2..] else tokens[1..];
      assert items[1..] == Read(rest);
      assert forall i | 0 <= i < |items| - 1 :: items[1..][i] == items[i + 1];
      StructureIfValuesKept(rest, e, table);
      if tokens[0] in WITH_VALUE && |tokens| >= 2 {
        assert items[0] == Pair(tokens[0], tokens[1]);
        StructureOfPair(tokens, e, table);
      } else {
        StructureOfSingle(tokens, e, table);
      }
    }
  }

  lemma StructureOfPair(tokens: seq<string>, e: Entry, table: Table)
    requires Sound(table) && Paths(e) && |tokens| >= 2 && tokens[0] in WITH_VALUE
    requires tokens[1] == e.src || Verdict(table, tokens[1], e.triple)
    ensures Read(Rewrite(tokens, e, table))
            == IntendedItem(Pair(tokens[0], tokens[1]), e, table) + Read(Rewrite(tokens[2..], e, table))
  {
    var f, v := tokens[0], if tokens[1] == e.src then e.realPath else tokens[1];
    ValueFlagIsKept(table, e, f);
    RewriteTwo(tokens, e, table);
    assert RewriteToken(tokens[1], e, table) == [v];
    var rest := Rewrite(tokens[2..], e, table);
    assert [f] + ([v] + rest) == [f, v] + rest;
    ReadPair(f, v, rest);
  }

  lemma StructureOfSingle(tokens: seq<string>, e: Entry, table: Table)
    requires Sound(table) && Paths(e) && tokens != [] && (tokens[0] !in WITH_VALUE || |tokens| == 1)
    ensures Read(Rewrite(tokens, e, table))
            == IntendedItem(Single(tokens[0]), e, table) + Read(Rewrite(tokens[1..], e, table))
  {
    var a, rest := tokens[0], Rewrite(tokens[1..], e, table);
    PathsTakeNoValue(e);
    if a == e.src {
      assert Rewrite(tokens, e, table) == [e.realPath] + rest;
      ReadSingle(e.realPath, rest);
    } else if !Verdict(table, a, e.triple) {
      assert Rewrite(tokens, e, table) == rest;
      assert IntendedItem(Single(a), e, table) + Read(rest) == Read(rest);
    } else {
      assert Rewrite(tokens, e, table) == [a] + rest;
      if a in WITH_VALUE {
        assert rest == [];
        ReadLast(a);
      } else {
        ReadSingle(a, rest);
      }
    }
  }

  lemma ReadLast(a: string)
    ensures Read([a] + []) == [Single(a)] + Read([])
  {
    assert [a] + [] == [a];
  }

  lemma RewriteTwo(tokens: seq<string>, e: Entry, table: Table)
    requires |tokens| >= 2
    ensures Rewrite(tokens, e, table)
            == RewriteToken(tokens[0], e, table) + (RewriteToken(tokens[1], e, table) + Rewrite(tokens[2..], e, table))
  {
    assert tokens[1..][1..] == tokens[2..];
  }

  lemma ReadPair(f: string, v: string, rest: seq<string>)
    requires f in WITH_VALUE
    ensures Read([f, v] + rest) == [Pair(f, v)] + Read(rest)
  {
    assert ([f, v] + rest)[2..] == rest;
  }

  lemma ReadSingle(a: string, rest: seq<string>)
    requires a !in WITH_VALUE
    ensures Read([a] + rest) == [Single(a)] + Read(rest)
  {
    assert ([a] + rest)[1..] == rest;
  }

  function LostValues(items: seq<Item>, e: Entry, table: Table): nat {
    if items == [] then 0
    else (if items[0].Pair? && items[0].value != e.src && !Verdict(table, items[0].value, e.triple)
          then 1 else 0) + LostValues(items[1..], e, table)
  }

  lemma {:induction false} NothingLost(items: seq<Item>, e: Entry, table: Table)
    ensures LostValues(items, e, table) == 0 <==> ValuesKept(items, e, table)
  {
    if items != [] {
      NothingLost(items[1..], e, table);
      assert items == [items[0]] + items[1..];
    }
  }

  /** Each lost value makes the output one token shorter than intended. */
  lemma {:induction false} LostTokens(tokens: seq<string>, e: Entry, table: Table)
    requires Sound(table) && Paths(e)
    ensures |Rewrite(tokens, e, table)| + LostValues(Read(tokens), e, table)
            == |Write(Intended(Read(tokens), e, table))|
    decreases |tokens|
  {
    if tokens != [] {
      IntendedStep(Read(tokens), e, table);
      if tokens[0] in WITH_VALUE && |tokens| >= 2 {
        assert Read(tokens)[1..] == Read(tokens[2..]) && Read(tokens)[0] == Pair(tokens[0], tokens[1]);
        PairLength(tokens, e, table);
        LostTokens(tokens[2..], e, table);
      } else {
        assert Read(tokens)[1..] == Read(tokens[1..]) && Read(tokens)[0] == Single(tokens[0]);
        LostTokens(tokens[1..], e, table);
      }
    }
  }

  lemma PairLength(tokens: seq<string>, e: Entry, table: Table)
    requires Sound(table) && Paths(e) && |tokens| >= 2 && tokens[0] in WITH_VALUE
    ensures |Rewrite(tokens, e, table)|
            == 1 + |RewriteToken(tokens[1], e, table)| + |Rewrite(tokens[2..], e, table)|
  {
    ValueFlagIsKept(table, e, tokens[0]);
    RewriteTwo(tokens, e, table);
  }

  lemma IntendedStep(items: seq<Item>, e: Entry, table: Table)
    requires items != []
    ensures |Write(Intended(items, e, table))|
            == IntendedLength(items[0], e, table) + |Write(Intended(items[1..], e, table))|
  {
    var first, rest := IntendedItem(items[0], e, table), Intended(items[1..], e, table);
    if first != [] {
      assert |first| == 1 && (first + rest)[1..] == rest && (first + rest)[0] == first[0];
    } else {
      assert first + rest == rest;
    }
  }

  function IntendedLength(item: Item, e: Entry, table: Table): nat {
    match item
    case Single(a) => if a == e.src || Verdict(table, a, e.triple) then 1 else 0
    case Pair(f, v) => 2
  }

  /** Rewriting has the intended effect on what the compiler reads exactly when no value of a
      value-taking flag has been rejected. */
  lemma StructurePreserved(tokens: seq<string>, e: Entry, table: Table)
    requires Sound(table) && Paths(e)
    ensures Read(Rewrite(tokens, e, table)) == Intended(Read(tokens), e, table)
            <==> ValuesKept(Read(tokens), e, table)
  {
    if ValuesKept(Read(tokens), e, table) {
      StructureIfValuesKept(tokens, e, table);
    } else {
      LostTokens(tokens, e, table);
      NothingLost(Read(tokens), e, table);
      WriteRead(Rewrite(tokens, e, table));
    }
  }

  /** In particular when no such value starts with "-". */
  lemma StructurePreservedForPlainValues(tokens: seq<string>, e: Entry, table: Table)
    requires Sound(table) && Paths(e)
    requires forall i | 0 <= i < |Read(tokens)| && Read(tokens)[i].Pair? ::
               !StartsWith(Read(tokens)[i].value, "-")
    ensures Read(Rewrite(tokens, e, table)) == Intended(Read(tokens), e, table)
  {
    StructurePreserved(tokens, e, table);
  }

  /** The same of a whole command and the table of all commands: driver and prefix first, then
      tokens that read as intended exactly when no value is the rejected flag of some command
      for the same triple. */
  lemma CommandKeepsStructure(raw: seq<Entry>, probe: (string, Option<string>) -> bool, table: Table, e: Entry)
    requires Usable(raw) && IsTableOf(table, raw, probe) && e.args != [] && Paths(e)
    ensures var n := 1 + |Prefix(e.triple)|; var out := Rewritten(e, table);
      && n <= |out| && out[..n] == [e.args[0]] + Prefix(e.triple)
      && (Read(out[n..]) == Intended(Read(e.args[1..]), e, table)
          <==> forall item | item in Read(e.args[1..]) && item.Pair? && item.value != e.src ::
                 !(Asked(raw, item.value, e.triple) && !probe(item.value, e.triple)))
  {
    var n, out, items := 1 + |Prefix(e.triple)|, Rewritten(e, table), Read(e.args[1..]);
    assert out[n..] == Rewrite(e.args[1..], e, table);
    TableIsSound(table, raw, probe);
    StructurePreserved(e.args[1..], e, table);
    assert ValuesKept(items, e, table)
           <==> forall item | item in items && item.Pair? && item.value != e.src ::
                  Verdict(table, item.value, e.triple);
    forall item | item in items && item.Pair?
      ensures Wanted(raw, (item.value, e.triple)) <==> Asked(raw, item.value, e.triple)
    {
      WantedIsAsked(raw, item.value, e.triple);
    }
  }

  /** A value that another command has as a rejected flag is lost ... */
  lemma LostValueIsDropped(table: Table, e: Entry, flag: string)
    requires Sound(table) && Paths(e) && (flag, e.triple) in table && !table[(flag, e.triple)]
    requires flag != e.src
    ensures Rewrite(["-o", flag, e.src], e, table) == ["-o", e.realPath]
  {
    var tokens := ["-o", flag, e.src];
    ValueFlagIsKept(table, e, "-o");
    RewriteTwo(tokens, e, table);
    assert tokens[2..] == [e.src];
    assert Rewrite([e.src], e, table) == [e.realPath];
  }

  lemma ReadOutput(value: string, rest: seq<string>)
    ensures Read(["-o", value] + rest) == [Pair("-o", value)] + Read(rest)
  {
    ReadPair("-o", value, rest);
  }

  /** ... and the flag before it takes the next token instead. */
  lemma LostValueShiftsReading(table: Table, e: Entry, flag: string)
    requires Sound(table) && Paths(e) && (flag, e.triple) in table && !table[(flag, e.triple)]
    requires flag != e.src
    ensures Read(["-o", flag, e.src]) == [Pair("-o", flag), Single(e.src)]
    ensures Read(Rewrite(["-o", flag, e.src], e, table)) == [Pair("-o", e.realPath)]
    ensures Intended(Read(["-o", flag, e.src]), e, table) == [Pair("-o", flag), Single(e.realPath)]
  {
    PathsTakeNoValue(e);
    LostValueIsDropped(table, e, flag);
    ReadOutput(e.realPath, []);
    assert ["-o", e.realPath] + [] == ["-o", e.realPath];
    ReadOutput(flag, [e.src]);
    ReadSingle(e.src, []);
    assert [e.src] + [] == [e.src] && ["-o", flag] + [e.src] == ["-o", flag, e.src];
    var items := [Pair("-o", flag), Single(e.src)];
    assert items[1..] == [Single(e.src)];
    assert Intended(items[1..], e, table) == [Single(e.realPath)] + Intended([], e, table);
  }

  lemma LostValueInCommand(table: Table, e: Entry, driver: string, flag: string)
    requires Sound(table) && Paths(e) && (flag, e.triple) in table && !table[(flag, e.triple)]
    requires flag != e.src && e.triple.None? && e.args == [driver] + ["-o", flag, e.src]
    ensures Read(e.args[1..]) == [Pair("-o", flag), Single(e.src)]
    ensures Rewritten(e, table) == [driver, "-Qunused-arguments", "-o", e.realPath]
    ensures Read(Rewritten(e, table)[2..]) == [Pair("-o", e.realPath)]
  {
    assert e.args[1..] == ["-o", flag, e.src];
    LostValueIsDropped(table, e, flag);
    LostValueShiftsReading(table, e, flag);
    assert Rewritten(e, table)[2..] == Rewrite(e.args[1..], e, table);
  }

  /** Two commands of which the first has "-fx" as a flag and the second as the value of -o. */
  function LossyCommands(): (raw: seq<Entry>)
    ensures Usable(raw)
  {
    [Entry("a.c", "/a.c", ["gcc", "-fx"], None),
     Entry("b.c", "/b.c", ["gcc", "-o", "-fx", "b.c"], None)]
  }

  lemma FlagsWithF(a: string)
    requires |a| >= 3 && a[0] == '-' && a[1] == 'f'
    ensures Probeable(a)
  {
    assert forall f | f in WITH_VALUE :: f[1] != 'f';
  }

  lemma LossyCommandsWantFx()
    ensures Wanted(LossyCommands(), ("-fx", None))
  {
    var e := LossyCommands()[0];
    var flags := e.args[1..];
    assert flags == ["-fx"];
    FlagsWithF(flags[0]);
    assert FlagsIn(flags, false) == ["-fx"] + FlagsIn(flags[1..], false);
    assert e.triple == None && "-fx" in Candidates(e.args);
  }

  /** If the probe rejects "-fx", the second command is written without it, and -o takes the
      source path for its value. */
  lemma LossyCommandsLoseAValue(table: Table, probe: (string, Option<string>) -> bool)
    requires IsTableOf(table, LossyCommands(), probe) && !probe("-fx", None)
    ensures var e := LossyCommands()[1];
      && Read(e.args[1..]) == [Pair("-o", "-fx"), Single("b.c")]
      && Rewritten(e, table) == ["gcc", "-Qunused-arguments", "-o", "/b.c"]
      && Read(Rewritten(e, table)[2..]) == [Pair("-o", "/b.c")]
  {
    LossyCommandsWantFx();
    TableIsSound(table, LossyCommands(), probe);
    LostValueInCommand(table, LossyCommands()[1], "gcc", "-fx");
  }
}
