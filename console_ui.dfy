/** The host console: a line typed into the input field is trimmed, echoed
    to the log, split on spaces and dispatched on its lower-cased first
    token to the float or int setter of the console variables, or answered
    with an error line. */
module Console {
  import opened Common
  import opened Text
  import opened ConVars

  /** The seven names routed to the float setter. */
  const FloatCommands: set<string> := {"sv_accelerate", "sv_airaccelerate", "sv_friction",
    "sv_surf_friction", "sv_gravity", "sv_maxspeed", "sv_aircap"}

  /** The one name routed to the int setter. */
  const IntCommand := "sv_autobhop"

  datatype SetterCall = FloatCall(key: string, fvalue: real) | IntCall(key: string, ivalue: int)

  /** What a command does after its echo: one error line, or one setter call. */
  datatype Outcome = Error(message: string) | Call(call: SetterCall)

  /** `TryF`/`TryI`: the value token parsed by `parse`, or the error line for
      a missing token (`missing`) or an unparseable one (`bad`). Only the
      second token is looked at. */
  datatype Parsed<T> = Parsed(value: T) | Failed(message: string)

  function TryValue<T>(parts: seq<string>, parse: string -> Option<T>, bad: string): (r: Parsed<T>)
    ensures |parts| < 2 ==> r == Failed("Value missing.")
    ensures |parts| >= 2 ==> (r.Parsed? <==> parse(parts[1]).Some?)
    ensures |parts| >= 2 && r.Parsed? ==> r.value == parse(parts[1]).value
    ensures |parts| >= 2 && r.Failed? ==> r.message == bad
  {
    if |parts| < 2 then Failed("Value missing.")
    else match parse(parts[1])
      case Some(v) => Parsed(v)
      case None => Failed(bad)
  }

  /** `int.TryParse`, widened to the setter's `int`. */
  function ParseIntValue(s: string): (r: Option<int>)
    ensures r.Some? <==> ParseInt32(s).Some?
    ensures r.Some? ==> r.value == ParseInt32(s).value as int
  {
    match ParseInt32(s)
    case Some(i) => Some(i as int)
    case None => None
  }

  /** The command switch of `Execute`. `parseFloat` stands for
      `float.TryParse` in the invariant culture. A known name with a value
      token that parses becomes a call; with one that does not, the command
      answers "Bad number." or "Bad int.". */
  function Dispatch(cmd: string, parseFloat: string -> Option<real>): (o: Outcome)
    ensures o.Call? ==> o.call.key == ToLower(Split(cmd, ' ')[0])
    ensures o.Call? ==> (o.call.IntCall? <==> o.call.key == IntCommand)
    ensures o.Call? ==> o.call.key in FloatCommands || o.call.key == IntCommand
    ensures ToLower(Split(cmd, ' ')[0]) !in FloatCommands && ToLower(Split(cmd, ' ')[0]) != IntCommand
      ==> o == Error("Unknown command.")
    ensures |Split(cmd, ' ')| < 2 ==> o.Error?
    ensures ToLower(Split(cmd, ' ')[0]) in FloatCommands && |Split(cmd, ' ')| >= 2 ==>
      (o.Call? <==> parseFloat(Split(cmd, ' ')[1]).Some?)
      && (o.Call? ==> o.call == FloatCall(ToLower(Split(cmd, ' ')[0]), parseFloat(Split(cmd, ' ')[1]).value))
      && (o.Error? ==> o.message == "Bad number.")
    ensures ToLower(Split(cmd, ' ')[0]) == IntCommand && |Split(cmd, ' ')| >= 2 ==>
      (o.Call? <==> ParseInt32(Split(cmd, ' ')[1]).Some?)
      && (o.Call? ==> o.call == IntCall(IntCommand, ParseInt32(Split(cmd, ' ')[1]).value as int))
      && (o.Error? ==> o.message == "Bad int.")
  {
    var parts := Split(cmd, ' ');
    var c := ToLower(parts[0]);
    if c in FloatCommands then
      match TryValue(parts, parseFloat, "Bad number.")
      case Parsed(v) => Call(FloatCall(c, v))
      case Failed(m) => Error(m)
    else if c == IntCommand then
      match TryValue(parts, ParseIntValue, "Bad int.")
      case Parsed(v) => Call(IntCall(c, v))
      case Failed(m) => Error(m)
    else Error("Unknown command.")
  }

  /** A known name followed by a parseable value sets that variable under
      the lower-cased name. */
  lemma DispatchSetsFloat(name: string, value: string, parseFloat: string -> Option<real>)
    requires ' ' !in name && ' ' !in value
    requires ToLower(name) in FloatCommands && parseFloat(value).Some?
    ensures Dispatch(name + " " + value, parseFloat) == Call(FloatCall(ToLower(name), parseFloat(value).value))
  {
    SplitAfter(name, ' ', value);
    SplitNoSeparator(value, ' ');
  }

  /** `sv_autobhop` takes a decimal int. */
  lemma DispatchSetsInt(name: string, v: I32, parseFloat: string -> Option<real>)
    requires ' ' !in name && ToLower(name) == IntCommand
    ensures Dispatch(name + " " + IntToDecimal(v), parseFloat) == Call(IntCall(IntCommand, v))
  {
    var value := IntToDecimal(v);
    Int32RoundTrip(v);
    assert ' ' !in value by {
      if v < 0 {
        assert value == "-" + NatToDecimal(-(v as int));
      }
    }
    SplitAfter(name, ' ', value);
    SplitNoSeparator(value, ' ');
  }

  /** Dispatch is case-insensitive in the name. */
  lemma DispatchCaseInsensitive(name1: string, name2: string, rest: string, parseFloat: string -> Option<real>)
    requires ' ' !in name1 && ' ' !in name2 && ToLower(name1) == ToLower(name2)
    ensures Dispatch(name1 + " " + rest, parseFloat) == Dispatch(name2 + " " + rest, parseFloat)
  {
    SplitAfter(name1, ' ', rest);
    SplitAfter(name2, ' ', rest);
  }

  /** Tokens after the value are ignored. */
  lemma DispatchIgnoresLaterTokens(name: string, value: string, rest: string, parseFloat: string -> Option<real>)
    requires ' ' !in name && ' ' !in value
    ensures Dispatch(name + " " + value + " " + rest, parseFloat) == Dispatch(name + " " + value, parseFloat)
  {
    SplitAfter(name, ' ', value + " " + rest);
    SplitAfter(value, ' ', rest);
    SplitAfter(name, ' ', value);
    SplitNoSeparator(value, ' ');
    assert name + " " + value + " " + rest == name + [' '] + (value + [' '] + rest);
  }

  /** A known name alone is answered "Value missing." and sets nothing. */
  lemma DispatchValueMissing(name: string, parseFloat: string -> Option<real>)
    requires ' ' !in name && (ToLower(name) in FloatCommands || ToLower(name) == IntCommand)
    ensures Dispatch(name, parseFloat) == Error("Value missing.")
  {
    SplitNoSeparator(name, ' ');
  }

  /** A double space makes the value token empty, which does not parse. */
  lemma DispatchDoubleSpace(name: string, rest: string, parseFloat: string -> Option<real>)
    requires ' ' !in name && parseFloat("") == None
    requires ToLower(name) in FloatCommands || ToLower(name) == IntCommand
    ensures Dispatch(name + "  " + rest, parseFloat).Error?
  {
    assert name + "  " + rest == name + [' '] + ([] + [' '] + rest);
    SplitAfter(name, ' ', [] + [' '] + rest);
    SplitAfter([], ' ', rest);
  }

  /** The console variables after a dispatched command. */
  function FloatsAfter(floats: map<string, real>, o: Outcome): map<string, real>
  {
    if o.Call? && o.call.FloatCall? then floats[o.call.key := o.call.fvalue] else floats
  }

  function IntsAfter(ints: map<string, int>, o: Outcome): map<string, int>
  {
    if o.Call? && o.call.IntCall? then ints[o.call.key := o.call.ivalue] else ints
  }

  /** What a dispatched command adds to the log after its echo: its error
      line, if any. */
  function ErrorLine(o: Outcome): string
  {
    if o.Error? then "\n" + o.message else ""
  }

  datatype KeyCode = Return | OtherKey

  class ConsoleUI {
    const convars: ConsoleVarManager
    var input: string
    var logText: string

    constructor (convars: ConsoleVarManager)
      ensures this.convars == convars && input == "" && logText == "Console (host only)"
    {
      this.convars := convars;
      input := "";
      logText := "Console (host only)";
    }

    /** Append one line; the log only ever grows. */
    method Log(line: string)
      modifies this`logText
      ensures logText == old(logText) + "\n" + line
    {
      logText := logText + "\n" + line;
    }

    /** Only Return runs the input, and only if it is not blank once trimmed;
        a blank input is left in the field, any other is cleared first. */
    method OnKeyDown(key: KeyCode, parseFloat: string -> Option<real>)
      modifies this`input, this`logText, convars
      ensures old(logText) <= logText
      ensures key != Return || Trim(old(input)) == [] ==>
        input == old(input) && logText == old(logText)
        && convars.floats == old(convars.floats) && convars.ints == old(convars.ints)
      ensures key == Return && Trim(old(input)) != [] ==> input == ""
      ensures key == Return && Trim(old(input)) != [] ==>
        logText == old(logText) + "\n" + ("> " + Trim(old(input))) + ErrorLine(Dispatch(Trim(old(input)), parseFloat))
      ensures key == Return && Trim(old(input)) != [] ==>
        convars.floats == FloatsAfter(old(convars.floats), Dispatch(Trim(old(input)), parseFloat))
        && convars.ints == IntsAfter(old(convars.ints), Dispatch(Trim(old(input)), parseFloat))
    {
      if key != Return {
        return;
      }
      var cmd := Trim(input);
      if cmd == [] {
        return;
      }
      input := "";
      Execute(cmd, parseFloat);
    }

    /** Echo the command, then either set a variable or log why not. */
    method Execute(cmd: string, parseFloat: string -> Option<real>)
      modifies this`logText, convars
      ensures logText == old(logText) + "\n" + ("> " + cmd) + ErrorLine(Dispatch(cmd, parseFloat))
      ensures convars.floats == FloatsAfter(old(convars.floats), Dispatch(cmd, parseFloat))
      ensures convars.ints == IntsAfter(old(convars.ints), Dispatch(cmd, parseFloat))
    {
      Log("> " + cmd);
      Apply(Dispatch(cmd, parseFloat));
    }

    /** Carry out a dispatched command: its error line, or its setter call. */
    method Apply(o: Outcome)
      modifies this`logText, convars
      ensures logText == old(logText) + ErrorLine(o)
      ensures convars.floats == FloatsAfter(old(convars.floats), o)
      ensures convars.ints == IntsAfter(old(convars.ints), o)
    {
      match o
      case Error(m) =>
        Log(m);
      case Call(FloatCall(k, v)) =>
        convars.SetFloatServerRpc(k, v);
      case Call(IntCall(k, v)) =>
        convars.SetIntServerRpc(k, v);
    }
  }
}
