/** cli.go: the interactive shell. It registers the command table, then reads
    standard input one line at a time: a blank line is skipped, "exit" or "quit"
    ends the shell, anything else is split into a command and dispatched, and a
    handler error is reported without ending the loop. Standard input is the
    text the shell will read; what each handler returns is the parameter `call`. */
module Cli {
  import opened Wrappers
  import opened Text
  import opened Commands

  /** `runCli`'s registrations, in order, applied to the map `m`. */
  function Registered(m: map<string, HandlerId>): map<string, HandlerId>
  {
    m["help" := Help]["login" := Login]["register" := Register]["reset" := Reset]
     ["users" := Users]["testing" := Testing]
     ["fx:fetch_all" := FxFetchAll]["fx:fetch:range" := FxFetchRange]
     ["stock:fetch:price" := StockFetchPrice]["stock:fetch:price_all" := StockFetchPriceAll]
     ["stock:fetch:profile" := StockFetchProfile]["stock:fetch:profile_all" := StockFetchProfileAll]
  }

  /** The registration table of `runCli`: its registrations on a fresh, empty map. */
  function Table(): map<string, HandlerId>
  {
    Registered(map[])
  }

  /** "exit" and "quit" are handled by the loop itself and are not commands. */
  lemma ExitIsNotACommand()
    ensures "exit" !in Table() && "quit" !in Table()
  {
  }

  method RegisterAll(reg: Registry)
    modifies reg
    ensures reg.handlers == Registered(old(reg.handlers))
  {
    reg.Register("help", Help);
    reg.Register("login", Login);
    reg.Register("register", Register);
    reg.Register("reset", Reset);
    reg.Register("users", Users);
    reg.Register("testing", Testing);
    reg.Register("fx:fetch_all", FxFetchAll);
    reg.Register("fx:fetch:range", FxFetchRange);
    reg.Register("stock:fetch:price", StockFetchPrice);
    reg.Register("stock:fetch:price_all", StockFetchPriceAll);
    reg.Register("stock:fetch:profile", StockFetchProfile);
    reg.Register("stock:fetch:profile_all", StockFetchProfileAll);
  }

  /** The result of a registered handler: help and the stubs (login, register,
      reset, users, testing) always return nil; the ingestion handlers return
      whatever `call` says. */
  function HandlerResult(call: (HandlerId, Command) -> Option<Error>, h: HandlerId, cmd: Command)
    : Option<Error>
  {
    match h
    case Help | Login | Register | Reset | Users | Testing => None
    case _ => call(h, cmd)
  }

  // ---------------------------------------------------------------------------
  // Reading standard input

  /** Length of the first line of `s` including its newline, or 0 when `s`
      holds no newline. */
  function LineLength(s: string): (n: nat)
    ensures n <= |s|
    ensures n > 0 ==> s[n - 1] == '\n'
    ensures forall k :: 0 <= k < (if n > 0 then n - 1 else |s|) ==> s[k] != '\n'
  {
    if s == [] then 0
    else if s[0] == '\n' then 1
    else
      var k := LineLength(s[1..]);
      if k == 0 then 0 else k + 1
  }

  /** The lines `ReadString('\n')` returns without an error: each one up to and
      including its newline. Text after the last newline comes back together
      with io.EOF, and the loop returns without looking at it. */
  function CompleteLines(input: string): seq<string>
    decreases |input|
  {
    var n := LineLength(input);
    if n == 0 then [] else [input[..n]] + CompleteLines(input[n..])
  }

  /** A line as `ReadString('\n')` returns it: ends with its newline and holds
      no other. */
  predicate IsLine(l: string)
  {
    l != [] && l[|l| - 1] == '\n' && forall k :: 0 <= k < |l| - 1 ==> l[k] != '\n'
  }

  /** Each complete line ends with its newline and holds no other. */
  lemma {:induction false} CompleteLinesShape(input: string)
    ensures forall j :: 0 <= j < |CompleteLines(input)| ==> IsLine(CompleteLines(input)[j])
    decreases |input|
  {
    var n := LineLength(input);
    if n > 0 {
      var line, rest := input[..n], input[n..];
      CompleteLinesShape(rest);
      assert IsLine(line) by {
        assert forall k :: 0 <= k < n ==> line[k] == input[k];
      }
      ConsIndex(line, CompleteLines(rest));
    }
  }

  /** The unterminated text at the end of the input, which is never dispatched. */
  function Unread(input: string): (rest: string)
    ensures forall k :: 0 <= k < |rest| ==> rest[k] != '\n'
    decreases |input|
  {
    var n := LineLength(input);
    if n == 0 then input else Unread(input[n..])
  }

  /** The complete lines and the unread tail are the whole input, in order. */
  lemma {:induction false} LinesCoverInput(input: string)
    ensures Concat(CompleteLines(input)) + Unread(input) == input
    decreases |input|
  {
    var n := LineLength(input);
    if n > 0 {
      var line, rest := input[..n], input[n..];
      LinesCoverInput(rest);
      ConcatCons(line, CompleteLines(rest));
      AppendAssoc(line, Concat(CompleteLines(rest)), Unread(rest));
      CutAndGlue(input, n);
      calc {
        Concat(CompleteLines(input)) + Unread(input);
        (line + Concat(CompleteLines(rest))) + Unread(rest);
        line + (Concat(CompleteLines(rest)) + Unread(rest));
        line + rest;
        input;
      }
    }
  }

  // ---------------------------------------------------------------------------
  // One line

  datatype LineKind = Blank | Quit | Dispatch(cmd: Command)

  /** A command the shell can build: a non-empty name and arguments, none of
      them containing white space. */
  predicate WellFormed(cmd: Command)
  {
    cmd.name != [] && NoSpace(cmd.name) &&
    forall j :: 0 <= j < |cmd.args| ==> cmd.args[j] != [] && NoSpace(cmd.args[j])
  }

  /** What the loop does with one line: trim it; skip it if empty; stop on
      "exit" or "quit"; otherwise split it into fields. */
  function Classify(line: string): LineKind
  {
    var clean := TrimSpace(line);
    if clean == "" then Blank
    else if clean == "exit" || clean == "quit" then Quit
    else
      var parts := Fields(clean);
      Dispatch(Command(parts[0], parts[1..]))
  }

  /** A line is skipped exactly when it is all white space, ends the loop
      exactly when it trims to "exit" or "quit", and otherwise gives a well-formed
      command whose name is the first field and whose arguments are the other
      fields, in order. */
  lemma ClassifyLine(line: string)
    ensures Classify(line) == Blank <==> AllSpace(line)
    ensures Classify(line) == Quit <==> TrimSpace(line) == "exit" || TrimSpace(line) == "quit"
    ensures Classify(line).Dispatch? ==>
      WellFormed(Classify(line).cmd) && [Classify(line).cmd.name] + Classify(line).cmd.args == Fields(TrimSpace(line))
  {
    var clean := TrimSpace(line);
    TrimSpaceEmpty(line);
    if clean != "" && clean != "exit" && clean != "quit" {
      var parts := Fields(clean);
      assert forall j :: 0 <= j < |parts| - 1 ==> parts[1..][j] == parts[j + 1];
      assert parts == [parts[0]] + parts[1..];
    }
  }

  // ---------------------------------------------------------------------------
  // The whole session

  datatype Stop = EndOfInput | ExitRequested

  /** What a session did: the commands dispatched, in order; the errors
      reported, in order; and why the loop ended. */
  datatype Session = Session(dispatched: seq<Command>, reported: seq<Error>, stop: Stop)

  /** What dispatching one command yields through a registry holding `table`. */
  function Outcome(table: map<string, HandlerId>, call: (HandlerId, Command) -> Option<Error>, cmd: Command)
    : Option<Error>
  {
    if cmd.name in table then HandlerResult(call, table[cmd.name], cmd) else Some(CommandNotFound)
  }

  function Reports(e: Option<Error>): seq<Error>
  {
    if e.Some? then [e.value] else []
  }

  /** The kind of each line, in order. */
  function Kinds(lines: seq<string>): (kinds: seq<LineKind>)
    ensures |kinds| == |lines|
    ensures forall k :: 0 <= k < |lines| ==> kinds[k] == Classify(lines[k])
  {
    if lines == [] then [] else [Classify(lines[0])] + Kinds(lines[1..])
  }

  /** The session over lines of the given kinds, one line at a time, with the
      registry holding `table`. */
  function Run(table: map<string, HandlerId>, kinds: seq<LineKind>, call: (HandlerId, Command) -> Option<Error>)
    : Session
  {
    if kinds == [] then Session([], [], EndOfInput)
    else Continue(table, kinds[0], call, Run(table, kinds[1..], call))
  }

  /** The session over a sequence of lines. */
  function Interact(table: map<string, HandlerId>, lines: seq<string>, call: (HandlerId, Command) -> Option<Error>)
    : Session
  {
    Run(table, Kinds(lines), call)
  }

  /** A session whose next line is of kind `kind`, and which goes on as `rest`
      if that line does not end it. */
  function Continue(table: map<string, HandlerId>, kind: LineKind, call: (HandlerId, Command) -> Option<Error>, rest: Session)
    : Session
  {
    match kind
    case Blank => rest
    case Quit => Session([], [], ExitRequested)
    case Dispatch(cmd) => After([cmd], Reports(Outcome(table, call, cmd)), rest)
  }

  /** A session that first dispatched `dispatched` and reported `reported`,
      then went on as `rest`. */
  function After(dispatched: seq<Command>, reported: seq<Error>, rest: Session): Session
  {
    Session(dispatched + rest.dispatched, reported + rest.reported, rest.stop)
  }

  lemma AfterAfter(d: seq<Command>, r: seq<Error>, d2: seq<Command>, r2: seq<Error>, rest: Session)
    ensures After(d, r, After(d2, r2, rest)) == After(d + d2, r + r2, rest)
  {
    assert d + (d2 + rest.dispatched) == (d + d2) + rest.dispatched;
    assert r + (r2 + rest.reported) == (r + r2) + rest.reported;
  }

  lemma RunFrom(table: map<string, HandlerId>, kinds: seq<LineKind>, i: nat, call: (HandlerId, Command) -> Option<Error>)
    requires i < |kinds|
    ensures Run(table, kinds[i..], call) == Continue(table, kinds[i], call, Run(table, kinds[i + 1..], call))
  {
    assert kinds[i..][0] == kinds[i] && kinds[i..][1..] == kinds[i + 1..];
  }

  /** One pass of the loop body on `line`: classify it and, if it is a
      command, run it through the registry. */
  method HandleLine(reg: Registry, line: string, call: (HandlerId, Command) -> Option<Error>)
    returns (kind: LineKind, err: Option<Error>)
    ensures kind == Classify(line)
    ensures kind.Dispatch? ==> err == Outcome(reg.handlers, call, kind.cmd)
    ensures !kind.Dispatch? ==> err == None
  {
    kind := Classify(line);
    err := None;
    if kind.Dispatch? {
      var invoked;
      err, invoked := reg.Run(kind.cmd, (h, c) => HandlerResult(call, h, c));
    }
  }

  /** `runCli`: register the command table, then run the input loop over the
      complete lines of standard input. */
  method RunCli(input: string, call: (HandlerId, Command) -> Option<Error>) returns (s: Session)
    ensures s == Interact(Table(), CompleteLines(input), call)
  {
    var reg := new Registry();
    RegisterAll(reg);
    s := ReadLoop(reg, CompleteLines(input), call);
  }

  /** The input loop of `runCli`, over the lines `ReadString` returns. */
  method ReadLoop(reg: Registry, lines: seq<string>, call: (HandlerId, Command) -> Option<Error>) returns (s: Session)
    ensures s == Interact(reg.handlers, lines, call)
  {
    ghost var kinds := Kinds(lines);
    var dispatched, reported := [], [];
    var i := 0;
    assert kinds[0..] == kinds;
    while i < |lines|
      invariant 0 <= i <= |lines|
      invariant Run(reg.handlers, kinds, call) == After(dispatched, reported, Run(reg.handlers, kinds[i..], call))
    {
      var kind, err := HandleLine(reg, lines[i], call);
      RunFrom(reg.handlers, kinds, i, call);
      if kind.Quit? {
        return Session(dispatched, reported, ExitRequested);
      }
      if kind.Dispatch? {
        AfterAfter(dispatched, reported, [kind.cmd], Reports(err), Run(reg.handlers, kinds[i + 1..], call));
        dispatched := dispatched + [kind.cmd];
        reported := reported + Reports(err);
      }
      i := i + 1;
    }
    s := Session(dispatched, reported, EndOfInput);
  }

  // ---------------------------------------------------------------------------
  // Properties of a session

  /** Index of the first "exit"/"quit" line, or the number of lines. */
  function StopIndex(kinds: seq<LineKind>): (k: nat)
    ensures k <= |kinds|
    ensures k < |kinds| ==> kinds[k] == Quit
    ensures forall j :: 0 <= j < k ==> kinds[j] != Quit
  {
    if kinds == [] then 0
    else if kinds[0] == Quit then 0
    else 1 + StopIndex(kinds[1..])
  }

  /** The commands of the lines that are neither blank nor exit/quit. */
  function CommandsOf(kinds: seq<LineKind>): seq<Command>
  {
    if kinds == [] then []
    else (if kinds[0].Dispatch? then [kinds[0].cmd] else []) + CommandsOf(kinds[1..])
  }

  /** The errors reported for the commands `cmds`, in order: the outcome of
      each command through the registry, when that outcome is an error. */
  function ErrorsOf(table: map<string, HandlerId>, call: (HandlerId, Command) -> Option<Error>, cmds: seq<Command>)
    : seq<Error>
  {
    if cmds == [] then [] else Reports(Outcome(table, call, cmds[0])) + ErrorsOf(table, call, cmds[1..])
  }

  /** Every error a dispatched command returns is reported, in dispatch order,
      and nothing else is reported. */
  lemma {:induction false} RunReportsOutcomes(table: map<string, HandlerId>, kinds: seq<LineKind>, call: (HandlerId, Command) -> Option<Error>)
    ensures Run(table, kinds, call).reported == ErrorsOf(table, call, Run(table, kinds, call).dispatched)
    decreases |kinds|
  {
    if kinds != [] {
      RunReportsOutcomes(table, kinds[1..], call);
      if kinds[0].Dispatch? {
        var cmds := [kinds[0].cmd] + Run(table, kinds[1..], call).dispatched;
        assert cmds[0] == kinds[0].cmd && cmds[1..] == Run(table, kinds[1..], call).dispatched;
      }
    }
  }

  /** The loop ends because of an exit/quit line exactly when there is one. */
  lemma {:induction false} RunStops(table: map<string, HandlerId>, kinds: seq<LineKind>, call: (HandlerId, Command) -> Option<Error>)
    ensures Run(table, kinds, call).stop == ExitRequested <==> exists k :: 0 <= k < |kinds| && kinds[k] == Quit
    decreases |kinds|
  {
    if kinds != [] {
      RunStops(table, kinds[1..], call);
      assert forall k :: 1 <= k < |kinds| ==> kinds[k] == kinds[1..][k - 1];
      if kinds[0] != Quit && exists k :: 0 <= k < |kinds| && kinds[k] == Quit {
        var k :| 0 <= k < |kinds| && kinds[k] == Quit;
        assert kinds[1..][k - 1] == Quit;
      }
    }
  }

  /** Exactly the commands before the first exit/quit line are dispatched, in
      order, whatever earlier handlers returned. */
  lemma {:induction false} RunDispatches(table: map<string, HandlerId>, kinds: seq<LineKind>, call: (HandlerId, Command) -> Option<Error>)
    ensures Run(table, kinds, call).dispatched == CommandsOf(kinds[..StopIndex(kinds)])
    decreases |kinds|
  {
    if kinds != [] && kinds[0] != Quit {
      RunDispatches(table, kinds[1..], call);
      var k := StopIndex(kinds);
      assert kinds[..k][0] == kinds[0];
      assert kinds[..k][1..] == kinds[1..][..k - 1];
    }
  }

  /** Each dispatched command is reported at most once. */
  lemma {:induction false} RunReportsAtMostOnce(table: map<string, HandlerId>, kinds: seq<LineKind>, call: (HandlerId, Command) -> Option<Error>)
    ensures |Run(table, kinds, call).reported| <= |Run(table, kinds, call).dispatched|
    decreases |kinds|
  {
    if kinds != [] {
      RunReportsAtMostOnce(table, kinds[1..], call);
    }
  }

  /** The session over the input lines stops on request exactly when some line
      trims to "exit" or "quit". */
  lemma StopsOnExit(table: map<string, HandlerId>, lines: seq<string>, call: (HandlerId, Command) -> Option<Error>)
    ensures Interact(table, lines, call).stop == ExitRequested <==>
      exists k :: 0 <= k < |lines| && (TrimSpace(lines[k]) == "exit" || TrimSpace(lines[k]) == "quit")
  {
    var kinds := Kinds(lines);
    RunStops(table, kinds, call);
    if exists k :: 0 <= k < |kinds| && kinds[k] == Quit {
      var k :| 0 <= k < |kinds| && kinds[k] == Quit;
      ClassifyLine(lines[k]);
    }
    if exists k :: 0 <= k < |lines| && (TrimSpace(lines[k]) == "exit" || TrimSpace(lines[k]) == "quit") {
      var k :| 0 <= k < |lines| && (TrimSpace(lines[k]) == "exit" || TrimSpace(lines[k]) == "quit");
      ClassifyLine(lines[k]);
      assert kinds[k] == Quit;
    }
  }

  /** Only commands the shell could build are dispatched, and the errors
      reported are those the dispatched commands returned, in order, so a
      command is reported at most once. */
  lemma DispatchedAndReported(table: map<string, HandlerId>, lines: seq<string>, call: (HandlerId, Command) -> Option<Error>)
    ensures Interact(table, lines, call).reported == ErrorsOf(table, call, Interact(table, lines, call).dispatched)
    ensures |Interact(table, lines, call).reported| <= |Interact(table, lines, call).dispatched|
    ensures forall j :: 0 <= j < |Interact(table, lines, call).dispatched| ==>
      WellFormed(Interact(table, lines, call).dispatched[j])
  {
    var kinds := Kinds(lines);
    RunReportsAtMostOnce(table, kinds, call);
    RunReportsOutcomes(table, kinds, call);
    RunDispatches(table, kinds, call);
    forall k | 0 <= k < |lines| {
      ClassifyLine(lines[k]);
    }
    CommandsWellFormed(kinds[..StopIndex(kinds)]);
  }

  lemma {:induction false} CommandsWellFormed(kinds: seq<LineKind>)
    requires forall k :: 0 <= k < |kinds| && kinds[k].Dispatch? ==> WellFormed(kinds[k].cmd)
    ensures forall j :: 0 <= j < |CommandsOf(kinds)| ==> WellFormed(CommandsOf(kinds)[j])
    decreases |kinds|
  {
    if kinds != [] {
      assert forall k :: 0 <= k < |kinds| - 1 ==> kinds[1..][k] == kinds[k + 1];
      CommandsWellFormed(kinds[1..]);
      if kinds[0].Dispatch? {
        ConsIndex(kinds[0].cmd, CommandsOf(kinds[1..]));
      }
    }
  }

  /** A command whose name is not registered is reported as "command not found"
      and the session goes on with the next line. */
  lemma UnknownCommandReported(table: map<string, HandlerId>, line: string, rest: seq<string>, call: (HandlerId, Command) -> Option<Error>)
    requires Classify(line).Dispatch? && Classify(line).cmd.name !in table
    ensures Interact(table, [line] + rest, call).reported == [CommandNotFound] + Interact(table, rest, call).reported
    ensures Interact(table, [line] + rest, call).stop == Interact(table, rest, call).stop
  {
    assert ([line] + rest)[1..] == rest;
    assert Kinds([line] + rest) == [Classify(line)] + Kinds(rest);
  }
}
