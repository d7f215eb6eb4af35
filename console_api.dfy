/**
 * The console core API: the registry of named console commands, the
 * parser that turns a typed line such as "loglevel(debug)" into a command
 * name and parameters, command execution, and the bit mask of enabled log
 * channels.
 *
 * What the console prints is kept as a transcript of lines, and what a
 * command invocation does is kept as a transcript of invocations: the
 * slot call on the command's target object and the Invoked signal that
 * script handlers listen to.
 */
module Console {
  import opened Wrappers
  import opened QtText

  /** The console's u32 channel masks. */
  type u32 = bv32

  /**
   * One bit per log channel. The numeric values live in ConsoleAPI.h,
   * which is not part of this model; one bit each, in this order, is assumed.
   */
  const LogChannelError: u32 := 1
  const LogChannelWarning: u32 := 2
  const LogChannelInfo: u32 := 4
  const LogChannelDebug: u32 := 8

  /** The levels are cumulative: each enables its own channel and every more severe one. */
  const LogLevelErrorsOnly: u32 := LogChannelError
  const LogLevelErrorWarning: u32 := LogChannelError | LogChannelWarning
  const LogLevelErrorWarnInfo: u32 := LogChannelError | LogChannelWarning | LogChannelInfo
  const LogLevelErrorWarnInfoDebug: u32 := LogChannelError | LogChannelWarning | LogChannelInfo | LogChannelDebug

  /** The identity of a QObject that receives slot calls. */
  type ObjectId = nat

  /** A registered command: a slot to call on the target, if there is a target. */
  datatype ConsoleCommand = ConsoleCommand(name: string, description: string, target: Option<ObjectId>, functionName: string)

  /** What invoking a command does, in order. */
  datatype Invocation =
    | SlotCall(receiver: ObjectId, functionName: string, params: seq<string>)
    | InvokedSignal(command: string, params: seq<string>)

  /** ConsoleCommand::Invoke: the slot on the target if there is one, then the Invoked signal. */
  function Invoke(c: ConsoleCommand, params: seq<string>): seq<Invocation> {
    match c.target
    case Some(receiver) => [SlotCall(receiver, c.functionName, params), InvokedSignal(c.name, params)]
    case None => [InvokedSignal(c.name, params)]
  }

  /** A parse result: the command name and the parameter list. */
  datatype Parsed = Parsed(name: string, params: seq<string>)

  /** The ")" that ParseCommand strips: only one that is the last character. */
  function ClosingParen(c: string): string {
    if c != [] && c[|c| - 1] == ')' then ")" else ""
  }

  /**
   * The parameter list after the "(" at split: a ")" ending the line is
   * removed and the rest is split on ",". Only that ")" is lost.
   */
  function ParamsAfter(c: string, split: nat): (ps: seq<string>)
    requires split < |c| && c[split] == '('
    ensures Join(ps, ',') + ClosingParen(c) == c[split + 1..]
    ensures |ps| >= 1 && forall k :: 0 <= k < |ps| ==> ',' !in ps[k]
  {
    var stripped := if ClosingParen(c) != [] then c[..|c| - 1] else c;
    assert c == stripped + ClosingParen(c);
    assert c[split + 1..] == stripped[split + 1..] + ClosingParen(c);
    JoinSplit(stripped[split + 1..], ',');
    Split(stripped[split + 1..], ',')
  }

  /**
   * ParseCommand(command, commandName, parameterList): name and params are
   * the values of the two out-parameters on entry, which the parser leaves
   * as they are when it has nothing to put there.
   *
   * The test lastIndexOf(")") == length() - 1 is the same as "the last
   * character is ')'", which is how it is written here.
   */
  function ParseCommand(command: string, name: string, params: seq<string>): (r: Parsed)
    ensures Trimmed(command) == [] ==> r == Parsed(name, params)
    ensures Trimmed(command) != [] && '(' !in Trimmed(command) ==> r == Parsed(Trimmed(command), params)
    ensures IndexOf(Trimmed(command), '(').Some? ==>
              var c := Trimmed(command);
              var split := IndexOf(c, '(').value;
              && '(' !in c[..split]
              && r.name == Trimmed(c[..split])
              && Join(r.params, ',') + ClosingParen(c) == c[split + 1..]
              && |r.params| >= 1
              && forall k :: 0 <= k < |r.params| ==> ',' !in r.params[k]
  {
    var c := Trimmed(command);
    if c == [] then Parsed(name, params)
    else
      match IndexOf(c, '(')
      case None => Parsed(c, params)
      case Some(split) => Parsed(Trimmed(c[..split]), ParamsAfter(c, split))
  }

  /** What the console has: its commands, its channel mask, and the transcripts. */
  datatype ConsoleState = ConsoleState(
    commands: map<string, ConsoleCommand>,
    enabledLogChannels: u32,
    output: seq<string>,
    invocations: seq<Invocation>)

  /** The lines LogWarning and LogError print. */
  function WarningLine(message: string): string {
    "Warning: " + message
  }

  function ErrorLine(message: string): string {
    "Error: " + message
  }

  function AlreadyRegistered(name: string): string {
    WarningLine("ConsoleAPI: Command " + name + " is already registered.")
  }

  function CannotFind(name: string): string {
    ErrorLine("Cannot find a console command \"" + name + "\"!")
  }

  function UnknownLevel(level: string): string {
    ErrorLine("Unknown parameter \"" + level + "\" specified to ConsoleAPI::SetLogLevel!")
  }

  /** RegisterCommand: a new name is added; a taken one keeps its command and a warning is printed. */
  function Registered(s: ConsoleState, cmd: ConsoleCommand): ConsoleState {
    if cmd.name in s.commands then s.(output := s.output + [AlreadyRegistered(cmd.name)])
    else s.(commands := s.commands[cmd.name := cmd])
  }

  /** The first registration of a name wins over every later one. */
  lemma RegisterFirstWins(s: ConsoleState, first: ConsoleCommand, later: ConsoleCommand)
    requires first.name !in s.commands && later.name == first.name
    ensures Registered(s, first).commands[first.name] == first
    ensures Registered(Registered(s, first), later).commands == Registered(s, first).commands
    ensures Registered(Registered(s, first), later).output == s.output + [AlreadyRegistered(first.name)]
  {
  }

  /** Registration only ever adds the one name, and never changes a command already there. */
  lemma RegisterKeepsExisting(s: ConsoleState, cmd: ConsoleCommand)
    ensures Registered(s, cmd).commands.Keys == s.commands.Keys + {cmd.name}
    ensures forall n :: n in s.commands ==> Registered(s, cmd).commands[n] == s.commands[n]
    ensures Registered(s, cmd).enabledLogChannels == s.enabledLogChannels
    ensures Registered(s, cmd).invocations == s.invocations
  {
  }

  /** The slot of the built-in loglevel command, as registered (without Qt's slot code). */
  const SetLogLevelSlot: string := "SetLogLevel(const QString &)"

  const HelpDescription: string := "Lists all registered commands."
  const ClearDescription: string := "Clears the console log."
  const LogLevelDescription: string :=
    "Sets the current log level. Call with one of the parameters \"error\", \"warning\", \"info\", or \"debug\"."
  const MultipleLogLevels: string := "Ignoring multiple --loglevel command line parameters!"

  /** The commands the console registers on itself. */
  function BuiltinCommands(self: ObjectId): map<string, ConsoleCommand> {
    map["help" := ConsoleCommand("help", HelpDescription, Some(self), "ListCommands()"),
        "clear" := ConsoleCommand("clear", ClearDescription, Some(self), "ClearLog()"),
        "loglevel" := ConsoleCommand("loglevel", LogLevelDescription, Some(self), SetLogLevelSlot)]
  }

  /**
   * Whether invoking c with these parameters runs the console's own
   * SetLogLevel slot: the loglevel command registered on the console, given
   * the one parameter the slot takes.
   */
  predicate RunsOwnLogLevel(c: ConsoleCommand, self: ObjectId, params: seq<string>) {
    c.target == Some(self) && c.functionName == SetLogLevelSlot && |params| == 1
  }

  /**
   * ExecuteCommand: parse, then report an unknown name or invoke the command
   * found. The console's own loglevel command then runs SetLogLevel on the
   * parameter.
   */
  function Executed(s: ConsoleState, self: ObjectId, command: string): ConsoleState {
    Dispatched(s, self, ParseCommand(command, "", []))
  }

  /** What ExecuteCommand does once the line is parsed. */
  function Dispatched(s: ConsoleState, self: ObjectId, p: Parsed): ConsoleState {
    if p.name == [] then s
    else if p.name !in s.commands then s.(output := s.output + [CannotFind(p.name)])
    else
      var c := s.commands[p.name];
      var invoked := s.(invocations := s.invocations + Invoke(c, p.params));
      if RunsOwnLogLevel(c, self, p.params) then LogLevelSet(invoked, p.params[0]) else invoked
  }

  /** An empty name, however it arises, does nothing at all. */
  lemma ExecuteEmptyNameDoesNothing(s: ConsoleState, self: ObjectId, command: string)
    requires ParseCommand(command, "", []).name == []
    ensures Executed(s, self, command) == s
  {
  }

  /** An unknown name is reported and nothing is invoked. */
  lemma ExecuteUnknownInvokesNothing(s: ConsoleState, self: ObjectId, command: string)
    requires ParseCommand(command, "", []).name != []
    requires ParseCommand(command, "", []).name !in s.commands
    ensures Executed(s, self, command).invocations == s.invocations
    ensures Executed(s, self, command).output == s.output + [CannotFind(ParseCommand(command, "", []).name)]
  {
  }

  /**
   * A known name invokes exactly that command, with the parameters parsed from
   * the line, and the Invoked signal always comes last. Only the console's own
   * loglevel command can print (the unknown-level error).
   */
  lemma ExecuteKnownInvokesIt(s: ConsoleState, self: ObjectId, command: string)
    requires ParseCommand(command, "", []).name != []
    requires ParseCommand(command, "", []).name in s.commands
    ensures var p := ParseCommand(command, "", []);
            var added := Executed(s, self, command).invocations[|s.invocations|..];
            && Executed(s, self, command).invocations[..|s.invocations|] == s.invocations
            && added == Invoke(s.commands[p.name], p.params)
            && added[|added| - 1] == InvokedSignal(s.commands[p.name].name, p.params)
            && (s.commands[p.name].target.Some? <==> |added| == 2)
    ensures var p := ParseCommand(command, "", []);
            !RunsOwnLogLevel(s.commands[p.name], self, p.params) ==> Executed(s, self, command).output == s.output
  {
    var p := ParseCommand(command, "", []);
    var t := Executed(s, self, command).invocations;
    assert t == s.invocations + Invoke(s.commands[p.name], p.params);
    assert t[|s.invocations|..] == Invoke(s.commands[p.name], p.params);
  }

  /**
   * The console's own loglevel command, run from the command line, records
   * its invocation and then sets the level exactly as SetLogLevel does.
   */
  lemma ExecuteOwnLogLevelSetsIt(s: ConsoleState, self: ObjectId, command: string)
    requires ParseCommand(command, "", []).name != []
    requires ParseCommand(command, "", []).name in s.commands
    requires RunsOwnLogLevel(s.commands[ParseCommand(command, "", []).name], self, ParseCommand(command, "", []).params)
    ensures var p := ParseCommand(command, "", []);
            Executed(s, self, command) ==
              LogLevelSet(s.(invocations := s.invocations + Invoke(s.commands[p.name], p.params)), p.params[0])
  {
  }

  /** The line "loglevel(debug)" has no surrounding blanks, and its first "(" follows the name loglevel. */
  lemma LogLevelDebugName()
    ensures Trimmed("loglevel(debug)") == "loglevel(debug)"
    ensures IndexOf("loglevel(debug)", '(') == Some(8)
    ensures Trimmed("loglevel(debug)"[..8]) == "loglevel"
  {
    var line := "loglevel(debug)";
    TrimmedKeepsUnpadded(line);
    assert line[..8] == "loglevel";
    IndexOfFirstOccurrence(line, '(', 8);
    TrimmedKeepsUnpadded("loglevel");
  }

  /** Its parameter list is the one parameter debug. */
  lemma LogLevelDebugParams()
    ensures ParamsAfter("loglevel(debug)", 8) == ["debug"]
  {
    var line := "loglevel(debug)";
    var ps := ParamsAfter(line, 8);
    assert ClosingParen(line) == ")";
    var joined := Join(ps, ',');
    assert joined + ")" == "debug" + ")" by {
      assert line[9..] == "debug" + ")";
    }
    assert |joined| == 5;
    assert joined == (joined + ")")[..5];
    SplitJoin(ps, ',');
    assert Split("debug", ',') == ["debug"];
  }

  /** The line "loglevel(debug)" parses to the name loglevel and the one parameter debug. */
  lemma ParseLogLevelDebug()
    ensures ParseCommand("loglevel(debug)", "", []) == Parsed("loglevel", ["debug"])
  {
    LogLevelDebugName();
    LogLevelDebugParams();
  }

  /** Typing "loglevel(debug)" on a console with its built-in commands enables every channel. */
  lemma LogLevelDebugFromCommandLine(s: ConsoleState, self: ObjectId)
    requires "loglevel" in s.commands && s.commands["loglevel"] == BuiltinCommands(self)["loglevel"]
    ensures Executed(s, self, "loglevel(debug)").enabledLogChannels == LogLevelErrorWarnInfoDebug
  {
    ParseLogLevelDebug();
    var invoked := s.(invocations := s.invocations + Invoke(s.commands["loglevel"], ["debug"]));
    assert Executed(s, self, "loglevel(debug)") == LogLevelSet(invoked, "debug");
    LevelsAreCumulative(invoked, 3, 0);
  }

  /**
   * Executing a command never changes the registry, and only the console's
   * own loglevel command changes the channel mask.
   */
  lemma ExecuteKeepsRegistryAndChannels(s: ConsoleState, self: ObjectId, command: string)
    ensures Executed(s, self, command).commands == s.commands
    ensures var p := ParseCommand(command, "", []);
            !(p.name in s.commands && RunsOwnLogLevel(s.commands[p.name], self, p.params)) ==>
              Executed(s, self, command).enabledLogChannels == s.enabledLogChannels
  {
  }

  /** The mask SetLogLevel selects for a level name, compared without case. */
  function LevelMask(level: string): Option<u32> {
    if EqualsIgnoreCase(level, "error") then Some(LogLevelErrorsOnly)
    else if EqualsIgnoreCase(level, "warning") then Some(LogLevelErrorWarning)
    else if EqualsIgnoreCase(level, "info") then Some(LogLevelErrorWarnInfo)
    else if EqualsIgnoreCase(level, "debug") then Some(LogLevelErrorWarnInfoDebug)
    else None
  }

  /** SetLogLevel: a known level replaces the mask, anything else is reported and changes nothing. */
  function LogLevelSet(s: ConsoleState, level: string): (r: ConsoleState)
    ensures r.commands == s.commands && r.invocations == s.invocations
  {
    match LevelMask(level)
    case Some(mask) => s.(enabledLogChannels := mask)
    case None => s.(output := s.output + [UnknownLevel(level)])
  }

  /** Level names are matched without regard to case. */
  lemma LevelMaskIgnoresCase(a: string, b: string)
    requires EqualsIgnoreCase(a, b)
    ensures LevelMask(a) == LevelMask(b)
  {
    forall w | w in ["error", "warning", "info", "debug"]
      ensures EqualsIgnoreCase(a, w) <==> EqualsIgnoreCase(b, w)
    {
      EqualsIgnoreCaseEquivalence(a, b, w);
      EqualsIgnoreCaseEquivalence(b, a, w);
    }
  }

  /** An unknown level leaves the mask and the commands as they were and prints one error line. */
  lemma LogLevelUnknownKeepsChannels(s: ConsoleState, level: string)
    requires LevelMask(level).None?
    ensures LogLevelSet(s, level).enabledLogChannels == s.enabledLogChannels
    ensures LogLevelSet(s, level).output == s.output + [UnknownLevel(level)]
  {
  }

  /** IsLogChannelEnabled on a mask. */
  predicate ChannelEnabled(enabled: u32, logChannel: u32) {
    (enabled & logChannel) != 0
  }

  /** Asking about several channels at once asks whether any one of them is enabled. */
  lemma ChannelEnabledUnion(enabled: u32, a: u32, b: u32)
    ensures ChannelEnabled(enabled, a | b) <==> ChannelEnabled(enabled, a) || ChannelEnabled(enabled, b)
  {
    AndDistributes(enabled, a, b);
    OrIsZero(enabled & a, enabled & b);
  }

  lemma AndDistributes(e: u32, a: u32, b: u32)
    ensures e & (a | b) == (e & a) | (e & b)
  {
  }

  lemma OrIsZero(x: u32, y: u32)
    ensures x | y == 0 <==> x == 0 && y == 0
  {
  }

  function ChannelOfRank(k: nat): u32
    requires k < 4
  {
    [LogChannelError, LogChannelWarning, LogChannelInfo, LogChannelDebug][k]
  }

  function LevelOfRank(k: nat): string
    requires k < 4
  {
    ["error", "warning", "info", "debug"][k]
  }

  /**
   * The levels are cumulative: after setting level k (error, warning, info,
   * debug) the channel of rank j is enabled exactly when j <= k.
   */
  lemma {:induction false} LevelsAreCumulative(s: ConsoleState, k: nat, j: nat)
    requires k < 4 && j < 4
    ensures LevelMask(LevelOfRank(k)).Some?
    ensures ChannelEnabled(LogLevelSet(s, LevelOfRank(k)).enabledLogChannels, ChannelOfRank(j)) <==> j <= k
  {
    var w := LevelOfRank(k);
    assert EqualsIgnoreCase(w, w);
    if k == 0 {
      assert LevelMask(w) == Some(LogLevelErrorsOnly);
    } else if k == 1 {
      assert !EqualsIgnoreCase(w, "error");
      assert LevelMask(w) == Some(LogLevelErrorWarning);
    } else if k == 2 {
      assert !EqualsIgnoreCase(w, "error") && !EqualsIgnoreCase(w, "warning");
      assert LevelMask(w) == Some(LogLevelErrorWarnInfo);
    } else {
      assert w[0] == 'd' && AsciiLower('d') != AsciiLower('e');
      assert !EqualsIgnoreCase(w, "error") && !EqualsIgnoreCase(w, "warning") && !EqualsIgnoreCase(w, "info");
      assert LevelMask(w) == Some(LogLevelErrorWarnInfoDebug);
    }
  }

  /** Log: one line for an enabled channel, nothing otherwise. */
  function Logged(s: ConsoleState, logChannel: u32, message: string): ConsoleState {
    if ChannelEnabled(s.enabledLogChannels, logChannel) then s.(output := s.output + [message]) else s
  }

  /** A message is printed exactly when its channel is enabled, and logging changes nothing else. */
  lemma LogPrintsOnlyEnabled(s: ConsoleState, logChannel: u32, message: string)
    ensures |Logged(s, logChannel, message).output| == |s.output| + 1 <==> ChannelEnabled(s.enabledLogChannels, logChannel)
    ensures Logged(s, logChannel, message).output[..|s.output|] == s.output
    ensures Logged(s, logChannel, message).(output := s.output) == s
  {
  }

  /** The constructor's --loglevel handling: the last parameter sets the level; more than one is warned about. */
  function LevelParametersApplied(s: ConsoleState, logLevelParameters: seq<string>): ConsoleState {
    var leveled := if |logLevelParameters| >= 1 then LogLevelSet(s, logLevelParameters[|logLevelParameters| - 1]) else s;
    if |logLevelParameters| > 1 then leveled.(output := leveled.output + [WarningLine(MultipleLogLevels)]) else leveled
  }

  /** The console as constructed: its built-in commands, the default ErrorWarnInfo, then the --loglevel parameters. */
  function InitialState(self: ObjectId, logLevelParameters: seq<string>): ConsoleState {
    LevelParametersApplied(ConsoleState(BuiltinCommands(self), LogLevelErrorWarnInfo, [], []), logLevelParameters)
  }

  /**
   * After construction the last --loglevel parameter decides the mask; with
   * none, or an unknown one, ErrorWarnInfo stays. An unknown level prints
   * its error, and a second parameter adds the warning, in that order.
   */
  lemma InitialLevelFromLastParameter(self: ObjectId, logLevelParameters: seq<string>)
    ensures var s := InitialState(self, logLevelParameters);
            s.commands == BuiltinCommands(self) && s.invocations == []
    ensures var s := InitialState(self, logLevelParameters);
            var last := if logLevelParameters == [] then None else Some(logLevelParameters[|logLevelParameters| - 1]);
            && (last.None? || LevelMask(last.value).None? ==> s.enabledLogChannels == LogLevelErrorWarnInfo)
            && (last.Some? && LevelMask(last.value).Some? ==> s.enabledLogChannels == LevelMask(last.value).value)
            && s.output == (if last.Some? && LevelMask(last.value).None? then [UnknownLevel(last.value)] else [])
                           + (if |logLevelParameters| > 1 then [WarningLine(MultipleLogLevels)] else [])
  {
  }

  /** The console: its command registry, its enabled channels, and what it has printed and invoked. */
  class ConsoleAPI {
    var commands: map<string, ConsoleCommand>
    var enabledLogChannels: u32
    /** The lines Print has written. */
    var output: seq<string>
    /** The slot calls and signals command invocations have made. */
    var invocations: seq<Invocation>
    /** The console object itself, the target of its built-in commands. */
    const self: ObjectId

    ghost function State(): ConsoleState
      reads this
    {
      ConsoleState(commands, enabledLogChannels, output, invocations)
    }

    /**
     * The constructor: channels start at ErrorWarnInfo; help, clear and
     * loglevel are registered on the console itself; the last --loglevel
     * parameter, if any, sets the level, and more than one is warned about.
     */
    constructor (self: ObjectId, logLevelParameters: seq<string>)
      ensures this.self == self
      ensures State() == InitialState(self, logLevelParameters)
      ensures commands["help"] == ConsoleCommand("help", HelpDescription, Some(self), "ListCommands()")
      ensures commands["clear"] == ConsoleCommand("clear", ClearDescription, Some(self), "ClearLog()")
      ensures commands["loglevel"] == ConsoleCommand("loglevel", LogLevelDescription, Some(self), SetLogLevelSlot)
    {
      this.self := self;
      commands := map[];
      enabledLogChannels := LogLevelErrorWarnInfo;
      output := [];
      invocations := [];
      new;
      RegisterSlotCommand("help", HelpDescription, Some(self), "1ListCommands()");
      RegisterSlotCommand("clear", ClearDescription, Some(self), "1ClearLog()");
      RegisterSlotCommand("loglevel", LogLevelDescription, Some(self), "1" + SetLogLevelSlot);
      assert commands == BuiltinCommands(self);
      ApplyLogLevelParameters(logLevelParameters);
    }

    /** The --loglevel handling of the constructor. */
    method ApplyLogLevelParameters(logLevelParameters: seq<string>)
      modifies this`enabledLogChannels, this`output
      ensures State() == LevelParametersApplied(old(State()), logLevelParameters)
    {
      if |logLevelParameters| >= 1 {
        SetLogLevel(logLevelParameters[|logLevelParameters| - 1]);
      }
      if |logLevelParameters| > 1 {
        LogWarning(MultipleLogLevels);
      }
    }

    /** Print: one line of output. */
    method Print(message: string)
      modifies this`output
      ensures output == old(output) + [message]
    {
      output := output + [message];
    }

    method LogWarning(message: string)
      modifies this`output
      ensures output == old(output) + [WarningLine(message)]
    {
      Print(WarningLine(message));
    }

    method LogError(message: string)
      modifies this`output
      ensures output == old(output) + [ErrorLine(message)]
    {
      Print(ErrorLine(message));
    }

    /** RegisterCommand(name, desc): a command with no target, or the one already registered under the name. */
    method RegisterCommand(name: string, desc: string) returns (c: ConsoleCommand)
      modifies this`commands, this`output
      ensures State() == Registered(old(State()), ConsoleCommand(name, desc, None, ""))
      ensures name in commands && c == commands[name]
    {
      if name in commands {
        LogWarning("ConsoleAPI: Command " + name + " is already registered.");
        return commands[name];
      }
      c := ConsoleCommand(name, desc, None, "");
      commands := commands[name := c];
    }

    /**
     * RegisterCommand(name, desc, receiver, memberSlot): memberSlot is a
     * SLOT() signature, whose first character is Qt's slot code and is dropped.
     */
    method RegisterSlotCommand(name: string, desc: string, receiver: Option<ObjectId>, memberSlot: string)
      requires memberSlot != []
      modifies this`commands, this`output
      ensures State() == Registered(old(State()), ConsoleCommand(name, desc, receiver, memberSlot[1..]))
    {
      if name in commands {
        LogWarning("ConsoleAPI: Command " + name + " is already registered.");
        return;
      }
      commands := commands[name := ConsoleCommand(name, desc, receiver, memberSlot[1..])];
    }

    method ExecuteCommand(command: string)
      modifies this`enabledLogChannels, this`output, this`invocations
      ensures State() == Executed(old(State()), self, command)
    {
      var parsed := ParseCommand(command, "", []);
      if parsed.name == [] {
        return;
      }
      if parsed.name !in commands {
        LogError("Cannot find a console command \"" + parsed.name + "\"!");
        return;
      }
      var c := commands[parsed.name];
      invocations := invocations + Invoke(c, parsed.params);
      if RunsOwnLogLevel(c, self, parsed.params) {
        SetLogLevel(parsed.params[0]);
      }
    }

    method SetLogLevel(level: string)
      modifies this`enabledLogChannels, this`output
      ensures State() == LogLevelSet(old(State()), level)
    {
      if EqualsIgnoreCase(level, "error") {
        SetEnabledLogChannels(LogLevelErrorsOnly);
      } else if EqualsIgnoreCase(level, "warning") {
        SetEnabledLogChannels(LogLevelErrorWarning);
      } else if EqualsIgnoreCase(level, "info") {
        SetEnabledLogChannels(LogLevelErrorWarnInfo);
      } else if EqualsIgnoreCase(level, "debug") {
        SetEnabledLogChannels(LogLevelErrorWarnInfoDebug);
      } else {
        LogError("Unknown parameter \"" + level + "\" specified to ConsoleAPI::SetLogLevel!");
      }
    }

    method Log(logChannel: u32, message: string)
      modifies this`output
      ensures State() == Logged(old(State()), logChannel, message)
    {
      if !IsLogChannelEnabled(logChannel) {
        return;
      }
      Print(message);
    }

    /** Setting the mask and reading it back is a round trip. */
    method SetEnabledLogChannels(newChannels: u32)
      modifies this`enabledLogChannels
      ensures EnabledLogChannels() == newChannels
    {
      enabledLogChannels := newChannels;
    }

    function IsLogChannelEnabled(logChannel: u32): (r: bool)
      reads this
      ensures r <==> ChannelEnabled(EnabledLogChannels(), logChannel)
    {
      (enabledLogChannels & logChannel) != 0
    }

    /** The mask that every log-level specification of the console state computes. */
    function EnabledLogChannels(): (r: u32)
      reads this
      ensures r == State().enabledLogChannels
    {
      enabledLogChannels
    }
  }
}
