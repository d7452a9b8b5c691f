/** What `main` decides: the serving mode chosen at startup, and how the
    process ends once the first of the two awaited events has arrived. */
module Lifecycle {
  import opened Wrappers
  import opened Slog
  import opened Output

  /** The hello server's body when TEXT is unset or empty. */
  const DefaultText := "hello"

  /** The hello server's body: TEXT when it is non-empty, "hello" otherwise.
      The body is never empty. */
  function ResponseText(textVar: string): (text: string)
    ensures text != ""
    ensures textVar != "" ==> text == textVar
    ensures textVar == "" ==> text == DefaultText
  {
    if textVar == "" then DefaultText else textVar
  }

  /** The three responders: a fixed text, the host name, or a file server
      rooted at an absolute directory. */
  datatype Mode = HelloServer(text: string) | HostnameServer(name: string) | FileServer(root: string)

  /** The command-line flags after parsing (-hello, -hostname, -addr, -dir). */
  datatype Flags = Flags(hello: bool, hostname: bool, addr: string, dir: string)

  /** What the operating system answers: the TEXT variable, os.Hostname(), and
      filepath.Abs of the -dir flag. An Err carries the error's text. */
  datatype Host = Host(textVar: string, hostname: Result<string, string>, absPath: Result<string, string>)

  /** The outcome of the startup switch: the mode and the line announcing it,
      or the error line after which the process exits with status 1. */
  datatype Startup = Serving(mode: Mode, line: Line) | Failed(line: Line)

  function ErrorAttr(err: string): Attr {
    Attr("error", AnyValue(err))
  }

  /** The startup switch: -hello wins over -hostname, and with neither the
      file server is chosen. Only the chosen branch consults the OS, and its
      failure is the only way startup fails. */
  function SelectMode(flags: Flags, host: Host): (s: Startup)
    ensures flags.hello ==> s.Serving? && s.mode == HelloServer(ResponseText(host.textVar))
    ensures !flags.hello && flags.hostname ==>
      (s.Serving? <==> host.hostname.Ok?) && (s.Serving? ==> s.mode == HostnameServer(host.hostname.value))
    ensures !flags.hello && !flags.hostname ==>
      (s.Serving? <==> host.absPath.Ok?) && (s.Serving? ==> s.mode == FileServer(host.absPath.value))
    ensures s.Serving? <==> s.line.level == LevelInfo
  {
    if flags.hello then
      var mode := HelloServer(ResponseText(host.textVar));
      Serving(mode, ModeLine(mode))
    else if flags.hostname then
      match host.hostname
      case Err(e) => Failed(Emit(LevelError, "failed to get hostname", [ErrorAttr(e)]))
      case Ok(name) => Serving(HostnameServer(name), ModeLine(HostnameServer(name)))
    else
      match host.absPath
      case Err(e) => Failed(Emit(LevelError, "failed to get absolute path", [ErrorAttr(e)]))
      case Ok(abspath) => Serving(FileServer(abspath), ModeLine(FileServer(abspath)))
  }

  /** The line announcing the chosen mode. */
  function ModeLine(mode: Mode): Line {
    match mode
    case HelloServer(text) => Emit(LevelInfo, "run as hello server", [Attr("text", StringValue(text))])
    case HostnameServer(name) => Emit(LevelInfo, "run as hostname server", [Attr("hostname", StringValue(name))])
    case FileServer(root) => Emit(LevelInfo, "run as file server", [Attr("root_dir", StringValue(root))])
  }

  /** The server's lifecycle once the listener has been started. */
  datatype State = Running | ShuttingDown | Stopped(exitCode: int)

  /** What can happen to a running server: the listener returns its error, a
      SIGINT or SIGTERM arrives, or the graceful shutdown returns. */
  datatype Event = ListenFailed(err: string) | SignalCaught(sig: string) | ShutdownReturned(result: Option<string>)

  datatype Transition = Transition(next: State, logged: seq<Line>)

  const ByeLine := Emit(LevelInfo, "bye", [])

  /** One step of the lifecycle. A listener error while running is fatal; a
      signal starts the shutdown; the shutdown's result decides the exit
      status. Anything else is not received, and changes nothing. */
  function Step(s: State, e: Event): (t: Transition)
    ensures s.Stopped? ==> t == Transition(s, [])
    ensures !s.Stopped? ==> (t.next == Stopped(0) <==> s == ShuttingDown && e == ShutdownReturned(None))
    ensures t.next.Stopped? && !s.Stopped? ==> t.next.exitCode in {0, 1} && |t.logged| == 1
    ensures ByeLine in t.logged <==> t.next == Stopped(0) && !s.Stopped?
  {
    match (s, e)
    case (Running, ListenFailed(err)) =>
      Transition(Stopped(1), [Emit(LevelError, "failed to listen", [ErrorAttr(err)])])
    case (Running, SignalCaught(sig)) =>
      Transition(ShuttingDown, [Emit(LevelInfo, "catch signal", [Attr("signal", AnyValue(sig))])])
    case (ShuttingDown, ShutdownReturned(Some(err))) =>
      Transition(Stopped(1), [Emit(LevelError, "failed to shutdown", [ErrorAttr(err)])])
    case (ShuttingDown, ShutdownReturned(None)) =>
      Transition(Stopped(0), [ByeLine])
    case _ =>
      Transition(s, [])
  }

  /** The lifecycle driven by a sequence of events, with every line logged. */
  function Run(s: State, events: seq<Event>): Transition
    decreases |events|
  {
    if events == [] then Transition(s, [])
    else
      var t := Step(s, events[0]);
      var rest := Run(t.next, events[1..]);
      Transition(rest.next, t.logged + rest.logged)
  }

  /** A stopped process stays stopped and logs nothing more. */
  lemma {:induction false} RunFromStopped(code: int, events: seq<Event>)
    ensures Run(Stopped(code), events) == Transition(Stopped(code), [])
  {
    if events != [] {
      RunFromStopped(code, events[1..]);
    }
  }

  /** From a live state, the process ends with status 0 exactly when "bye"
      is logged; any other stop is with status 1. */
  lemma {:induction false} CleanExitIffBye(s: State, events: seq<Event>)
    requires !s.Stopped?
    decreases |events|
    ensures var t := Run(s, events);
      && (t.next == Stopped(0) <==> ByeLine in t.logged)
      && (t.next.Stopped? ==> t.next.exitCode in {0, 1})
  {
    if events != [] {
      var t := Step(s, events[0]);
      if t.next.Stopped? {
        RunFromStopped(t.next.exitCode, events[1..]);
        assert Run(s, events) == Transition(t.next, t.logged + []);
      } else {
        CleanExitIffBye(t.next, events[1..]);
        assert ByeLine !in t.logged;
      }
    }
  }

  /** A listener error while running ends the process with status 1 after
      "failed to listen", whatever happens afterwards; "bye" is never logged. */
  lemma ListenErrorIsFatal(err: string, later: seq<Event>)
    ensures Run(Running, [ListenFailed(err)] + later)
      == Transition(Stopped(1), [Emit(LevelError, "failed to listen", [ErrorAttr(err)])])
  {
    RunFromStopped(1, later);
    assert ([ListenFailed(err)] + later)[1..] == later;
  }

  /** The event `select` receives first, and for a signal what
      server.Shutdown then returns. */
  datatype Selected = ListenError(err: string) | Interrupted(sig: string, shutdownErr: Option<string>)

  /** The events the lifecycle sees after the select. */
  function Events(sel: Selected): seq<Event> {
    match sel
    case ListenError(err) => [ListenFailed(err)]
    case Interrupted(sig, shutdownErr) => [SignalCaught(sig), ShutdownReturned(shutdownErr)]
  }

  /** A caught signal is logged, then the shutdown decides: with an error,
      "failed to shutdown" and status 1; without, "bye" and status 0. */
  lemma SignalOutcome(sig: string, result: Option<string>)
    ensures Run(Running, [SignalCaught(sig), ShutdownReturned(result)]) == Transition(
      if result.None? then Stopped(0) else Stopped(1),
      [ Emit(LevelInfo, "catch signal", [Attr("signal", AnyValue(sig))]),
        if result.None? then ByeLine else Emit(LevelError, "failed to shutdown", [ErrorAttr(result.value)]) ])
  {
    var evs := [SignalCaught(sig), ShutdownReturned(result)];
    assert evs[1..] == [ShutdownReturned(result)];
    var last := Step(ShuttingDown, ShutdownReturned(result));
    assert Run(ShuttingDown, evs[1..]) == Transition(last.next, last.logged + []);
  }

  /** Whichever event is selected, the process stops. */
  lemma SelectedStops(sel: Selected)
    ensures Run(Running, Events(sel)).next.Stopped?
  {
    match sel
    case ListenError(err) =>
      ListenErrorIsFatal(err, []);
      assert [ListenFailed(err)] + [] == Events(sel);
    case Interrupted(sig, result) =>
      SignalOutcome(sig, result);
  }

  /** The line logged once the listener has been launched. */
  function StartLine(addr: string): Line {
    Emit(LevelInfo, "start", [Attr("addr", StringValue(addr))])
  }

  /** How the process ends: its exit status and the lines it logged. */
  datatype Exit = Exit(code: int, logged: seq<Line>)

  /** main from the flags on: the startup switch, the "start" line, then the
      lifecycle driven by the selected event. */
  function MainOutcome(flags: Flags, host: Host, sel: Selected): Exit {
    var startup := SelectMode(flags, host);
    if startup.Failed? then Exit(1, [startup.line])
    else
      SelectedStops(sel);
      var t := Run(Running, Events(sel));
      Exit(t.next.exitCode, [startup.line, StartLine(flags.addr)] + t.logged)
  }

  /** MainOutcome split into its two parts, for the method that implements it. */
  lemma MainOutcomeParts(flags: Flags, host: Host, sel: Selected)
    ensures var s := SelectMode(flags, host);
      s.Failed? ==> MainOutcome(flags, host, sel) == Exit(1, [s.line])
    ensures var s := SelectMode(flags, host);
      var t := Run(Running, Events(sel));
      s.Serving? ==> (t.next.Stopped? &&
        MainOutcome(flags, host, sel) == Exit(t.next.exitCode, [s.line, StartLine(flags.addr)] + t.logged))
  {
    SelectedStops(sel);
  }

  /** The process exits with status 0 exactly when startup succeeded, a
      signal was caught and the shutdown returned no error; exactly then is
      "bye" logged; every other ending has status 1. */
  lemma CleanExitIff(flags: Flags, host: Host, sel: Selected)
    ensures var o := MainOutcome(flags, host, sel);
      && (o.code == 0 <==> SelectMode(flags, host).Serving? && sel.Interrupted? && sel.shutdownErr == None)
      && (o.code == 0 <==> ByeLine in o.logged)
      && o.code in {0, 1}
  {
    var s := SelectMode(flags, host);
    if s.Serving? {
      SelectedStops(sel);
      CleanExitIffBye(Running, Events(sel));
      assert ByeLine != s.line;
      if sel.Interrupted? {
        SignalOutcome(sel.sig, sel.shutdownErr);
      } else {
        ListenErrorIsFatal(sel.err, []);
        assert [ListenFailed(sel.err)] + [] == Events(sel);
      }
    } else {
      assert ByeLine != s.line;
    }
  }

  /** The switch at the top of main: logs the chosen mode and yields the
      handler, or logs the OS error and yields none (main then exits 1). */
  method SelectHandler(log: Logger, flags: Flags, host: Host) returns (handler: Option<Mode>)
    modifies log, log.trace
    ensures var s := SelectMode(flags, host);
      && (handler.Some? <==> s.Serving?)
      && (s.Serving? ==> handler.value == s.mode)
      && log.lines == old(log.lines) + [s.line]
    ensures log.trace.events == old(log.trace.events) + LineEvents(|old(log.lines)|, 1)
  {
    LineEventsSnoc(|log.lines|, 0);
    if flags.hello {
      var text := host.textVar;
      if text == "" {
        text := "hello";
      }
      handler := Some(HelloServer(text));
      log.Info("run as hello server", [Attr("text", StringValue(text))]);
    } else if flags.hostname {
      if host.hostname.Err? {
        log.Error("failed to get hostname", [ErrorAttr(host.hostname.error)]);
        return None;
      }
      var name := host.hostname.value;
      handler := Some(HostnameServer(name));
      log.Info("run as hostname server", [Attr("hostname", StringValue(name))]);
    } else {
      if host.absPath.Err? {
        log.Error("failed to get absolute path", [ErrorAttr(host.absPath.error)]);
        return None;
      }
      var abspath := host.absPath.value;
      handler := Some(FileServer(abspath));
      log.Info("run as file server", [Attr("root_dir", StringValue(abspath))]);
    }
  }

  /** The rest of main once a handler exists: "start" is logged, then the
      selected event decides the remaining lines and the exit status. */
  method ServeUntilStopped(log: Logger, addr: string, sel: Selected) returns (exitCode: int)
    modifies log, log.trace
    ensures var t := Run(Running, Events(sel));
      && t.next == Stopped(exitCode)
      && log.lines == old(log.lines) + [StartLine(addr)] + t.logged
    ensures log.trace.events == old(log.trace.events) + LineEvents(|old(log.lines)|, |log.lines| - |old(log.lines)|)
  {
    ghost var from := |log.lines|;
    LineEventsSnoc(from, 0);
    log.Info("start", [Attr("addr", StringValue(addr))]);

    match sel {
      case ListenError(err) =>
        ListenErrorIsFatal(err, []);
        assert [ListenFailed(err)] + [] == Events(sel);
        LineEventsSnoc(from, 1);
        log.Error("failed to listen", [ErrorAttr(err)]);
        return 1;
      case Interrupted(sig, shutdownErr) =>
        SignalOutcome(sig, shutdownErr);
        LineEventsSnoc(from, 1);
        log.Info("catch signal", [Attr("signal", AnyValue(sig))]);
        LineEventsSnoc(from, 2);
        if shutdownErr.Some? {
          log.Error("failed to shutdown", [ErrorAttr(shutdownErr.value)]);
          return 1;
        }
    }
    log.Info("bye", []);
    return 0;
  }

  /** main, from the parsed flags on. Returning stands for os.Exit with the
      returned status, and 0 for returning from main. */
  method RunMain(log: Logger, flags: Flags, host: Host, sel: Selected) returns (exitCode: int)
    modifies log, log.trace
    ensures exitCode == MainOutcome(flags, host, sel).code
    ensures log.lines == old(log.lines) + MainOutcome(flags, host, sel).logged
    ensures log.trace.events == old(log.trace.events) + LineEvents(|old(log.lines)|, |log.lines| - |old(log.lines)|)
  {
    MainOutcomeParts(flags, host, sel);
    ghost var from := |log.lines|;
    var handler := SelectHandler(log, flags, host);
    if handler.None? {
      return 1;
    }
    exitCode := ServeUntilStopped(log, flags.addr, sel);
    LineEventsAppend(from, 1, |log.lines| - from - 1);
  }
}
