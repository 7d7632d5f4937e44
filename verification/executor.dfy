/** The in-browser executor (frontend/src/utils/executor.ts): the memoised
    Pyodide load, the JavaScript worker, the Python driver with its base64
    transport, result normalisation and the dispatch on language.

    The worker, the interpreter, the script loader and the clock are
    oracles: a run of user code is given as the calls it makes to
    `console.log` and how it ends; a run of the Python driver is a function
    from the text it executes to the streams it captured; durations are
    given already rounded. */
module Executor {
  import opened Common
  import opened TextCodec

  // ------------------------------------------------------ the Pyodide load

  /** How the `loadPyodide` call inside the script's onload settles. */
  datatype LoaderOutcome = NoLoader | LoaderResolved | LoaderRejected(error: string)

  /** What happens to the injected script tag. */
  datatype ScriptEvent = ScriptLoaded(loader: LoaderOutcome) | ScriptFailed | InjectThrew(error: string)

  /** A settled `pyodidePromise`. */
  datatype Loaded = Ready | Failed(error: string)

  const NoLoaderError: string := "Error: Pyodide loader is not available"
  const ScriptLoadError: string := "Error: Failed to load Pyodide"

  /** The settlement of the promise built in `ensurePyodide`: it resolves only
      when the script loads and the loader resolves. */
  function Settle(ev: ScriptEvent): (l: Loaded)
    ensures l.Ready? <==> ev == ScriptLoaded(LoaderResolved)
    ensures ev == ScriptLoaded(NoLoader) ==> l == Failed(NoLoaderError)
    ensures ev.ScriptLoaded? && ev.loader.LoaderRejected? ==> l == Failed(ev.loader.error)
    ensures ev.ScriptFailed? ==> l == Failed(ScriptLoadError)
    ensures ev.InjectThrew? ==> l == Failed(ev.error)
  {
    match ev
    case ScriptLoaded(NoLoader) => Failed(NoLoaderError)
    case ScriptLoaded(LoaderResolved) => Ready
    case ScriptLoaded(LoaderRejected(e)) => Failed(e)
    case ScriptFailed => Failed(ScriptLoadError)
    case InjectThrew(e) => Failed(e)
  }

  /** The module-level memo `pyodidePromise`, with a count of the loads it
      has started. */
  class PyodideLoader {
    var promise: Option<Loaded>
    var loadsStarted: nat

    /** At most one load is ever started, and one has been started exactly
        when the memo is set. */
    predicate Valid()
      reads this
    {
      loadsStarted == (if promise.Some? then 1 else 0)
    }

    constructor ()
      ensures Valid() && promise == None && loadsStarted == 0
    {
      promise := None;
      loadsStarted := 0;
    }

    /** `ensurePyodide`: builds the promise only while the memo is empty and
        afterwards hands back the same settled promise, a failed one included;
        `ev` is consulted only by the call that starts the load. */
    method Ensure(ev: ScriptEvent) returns (l: Loaded)
      requires Valid()
      modifies this
      ensures Valid()
      ensures old(promise).Some? ==> l == old(promise).value && promise == old(promise) && loadsStarted == old(loadsStarted)
      ensures old(promise).None? ==> l == Settle(ev) && promise == Some(l) && loadsStarted == 1
    {
      if promise.None? {
        promise := Some(Settle(ev));
        loadsStarted := loadsStarted + 1;
      }
      l := promise.value;
    }
  }

  /** Two calls on a fresh memo start one load, and the second call gets the
      outcome of the first whatever the script would do the second time. */
  method LoadsAtMostOnce(first: ScriptEvent, second: ScriptEvent) returns (l1: Loaded, l2: Loaded, loads: nat)
    ensures l1 == Settle(first) && l2 == l1
    ensures loads == 1
  {
    var loader := new PyodideLoader();
    l1 := loader.Ensure(first);
    l2 := loader.Ensure(second);
    loads := loader.loadsStarted;
  }

  // ------------------------------------------------ the worker script text

  /** The worker script, split into its string literals and the code between
      them. A literal records its quote and its body as it stands in the
      script text. */
  datatype Piece = Code(text: string) | Literal(quote: char, body: string)

  /** A literal body is well formed when every character is neither the
      closing quote, a backslash nor a line feed or carriage return, except
      that a backslash escapes the character after it (ECMAScript 2024,
      section 12.9.4, string literals). */
  predicate BodyOk(q: char, body: string)
    decreases |body|
  {
    |body| == 0 ||
    (body[0] == '\\' && |body| >= 2 && BodyOk(q, body[2..])) ||
    (body[0] != q && body[0] != '\\' && body[0] != '\n' && body[0] != '\r' && BodyOk(q, body[1..]))
  }

  /** The script compiles when each of its string literals is well formed. */
  predicate Parses(source: seq<Piece>) {
    forall i :: 0 <= i < |source| && source[i].Literal? ==> BodyOk(source[i].quote, source[i].body)
  }

  /** The value a well-formed literal body denotes: the escapes `\n`, `\r`
      and `\t` stand for their control characters, any other escaped
      character for itself. */
  function LiteralValue(body: string): (v: string)
    ensures |v| <= |body|
    decreases |body|
  {
    if |body| == 0 then ""
    else if body[0] == '\\' && |body| >= 2 then
      var c := body[1];
      [if c == 'n' then '\n' else if c == 'r' then '\r' else if c == 't' then '\t' else c] + LiteralValue(body[2..])
    else [body[0]] + LiteralValue(body[1..])
  }

  const WorkerHead: string := "self.onmessage = (e) => {\n  const start = performance.now();\n  let output = "
  const WorkerLogger: string := ";\n  const origLog = console.log;\n  console.log = (...args) => { output += args.join("
  const WorkerPlus: string := ") + "
  const WorkerBody: string := "; };\n  try {\n    const fn = new Function(e.data);\n    const res = fn();\n    if (res !== undefined) { output += String(res); }\n    const dur = performance.now() - start;\n    postMessage({ output, error: null, executionTime: Math.round(dur) });\n  } catch (err) {\n    const dur = performance.now() - start;\n    postMessage({ output: "
  const WorkerTail: string := ", error: String(err), executionTime: Math.round(dur) });\n  } finally { console.log = origLog; }\n};"

  /** The worker script with `newline` as the body of the double-quoted
      literal that ends each logged line. */
  function WorkerSource(newline: string): (source: seq<Piece>)
    ensures |source| == 9 && source[5] == Literal('"', newline)
  {
    [Code(WorkerHead), Literal('\'', ""), Code(WorkerLogger), Literal('\'', " "), Code(WorkerPlus),
     Literal('"', newline), Code(WorkerBody), Literal('\'', ""), Code(WorkerTail)]
  }

  /** In the TypeScript template that builds the script, `\n` is itself an
      escape, so the script receives a raw line feed inside the quotes. */
  const WrittenNewline: string := "\n"
  /** The body meant: the two characters backslash and n. */
  const IntendedNewline: string := "\\n"

  // --------------------------------------------------- the worker's reply

  /** How the user's function ends: returning a value (None for undefined,
      otherwise its `String(...)`), throwing (the `String(err)` text), or
      never returning at all (an endless loop), in which case the handler
      never reaches `postMessage`. */
  datatype JsOutcome = Returned(value: Option<string>) | Threw(error: string) | Hangs

  /** A run of the user's code: the arguments (already as strings) of each
      `console.log` call, in order, and how the code ends. */
  datatype JsRun = JsRun(logs: seq<seq<string>>, outcome: JsOutcome)

  /** `args.join(sep)`. */
  function Join(args: seq<string>, sep: string): (r: string)
    ensures |args| == 0 ==> r == ""
    ensures |args| == 1 ==> r == args[0]
    decreases |args|
  {
    if |args| == 0 then ""
    else if |args| == 1 then args[0]
    else args[0] + sep + Join(args[1..], sep)
  }

  /** The text one `console.log` call adds: its arguments joined by a space,
      then a line feed. */
  function LogLine(args: seq<string>): string {
    Join(args, " ") + "\n"
  }

  /** The text a sequence of `console.log` calls accumulates. */
  function LogText(logs: seq<seq<string>>): string
    decreases |logs|
  {
    if |logs| == 0 then "" else LogLine(logs[0]) + LogText(logs[1..])
  }

  /** Logging is additive: the text of two runs of calls is the text of the
      first followed by the text of the second. */
  lemma {:induction false} LogTextAppend(a: seq<seq<string>>, b: seq<seq<string>>)
    ensures LogText(a + b) == LogText(a) + LogText(b)
    decreases |a|
  {
    if |a| == 0 {
      assert a + b == b;
    } else {
      assert (a + b)[0] == a[0] && (a + b)[1..] == a[1..] + b;
      LogTextAppend(a[1..], b);
    }
  }

  /** The message the worker posts, if any: on a return, everything logged
      followed by the string of the result when it is not undefined, with no
      error; on a throw, the logged output is dropped and the error is the
      thrown value's string; a run that never returns posts nothing. */
  function WorkerReply(run: JsRun, dur: nat): (r: Option<ExecResult>)
    ensures r.None? <==> run.outcome.Hangs?
    ensures r.Some? ==> r.value.executionTime == dur && (r.value.error.None? <==> run.outcome.Returned?)
    ensures run.outcome.Threw? ==> r.Some? && r.value.output == "" && r.value.error == Some(run.outcome.error)
    ensures run.outcome == Returned(None) ==> r.Some? && r.value.output == LogText(run.logs)
    ensures run.outcome.Returned? && run.outcome.value.Some? ==>
      r.Some? && r.value.output == LogText(run.logs) + run.outcome.value.value
  {
    match run.outcome
    case Returned(None) => Some(ExecResult(LogText(run.logs), None, dur))
    case Returned(Some(v)) => Some(ExecResult(LogText(run.logs) + v, None, dur))
    case Threw(e) => Some(ExecResult("", Some(e), dur))
    case Hangs => None
  }

  /** The worker's `onmessage` handler: `output` grows by one line per
      `console.log` call, then the handler posts its message. */
  method WorkerOnMessage(run: JsRun, dur: nat) returns (msg: Option<ExecResult>)
    ensures msg == WorkerReply(run, dur)
  {
    var output := "";
    var i := 0;
    while i < |run.logs|
      invariant 0 <= i <= |run.logs|
      invariant output == LogText(run.logs[..i])
    {
      LogTextAppend(run.logs[..i], [run.logs[i]]);
      assert run.logs[..i + 1] == run.logs[..i] + [run.logs[i]];
      output := output + Join(run.logs[i], " ") + "\n";
      i := i + 1;
    }
    assert run.logs[..i] == run.logs;
    match run.outcome
    case Returned(v) =>
      if v.Some? {
        output := output + v.value;
      }
      msg := Some(ExecResult(output, None, dur));
    case Threw(e) =>
      msg := Some(ExecResult("", Some(e), dur));
    case Hangs =>
      msg := None;
  }

  // ------------------------------------------------------ runJavaScript

  /** Whether `new Blob(...)`/`new Worker(url)` succeed or throw. */
  datatype WorkerEnv = WorkerStarts | WorkerThrows(error: string)

  /** A promise that resolved with a result, or one that never settles. */
  datatype Settlement = Resolved(result: ExecResult) | Pending

  /** `runJavaScript` with a given worker script. A construction failure is
      caught with output "" and the error's string. A script that does not
      compile makes the worker report an error event that no handler
      listens to, so no message is ever posted and the promise stays
      pending; so does a run that never returns, since there is no timeout;
      otherwise it resolves with the worker's message. */
  function RunJavaScript(source: seq<Piece>, env: WorkerEnv, run: JsRun, dur: nat): (s: Settlement)
    ensures s.Pending? <==> env.WorkerStarts? && (!Parses(source) || run.outcome.Hangs?)
    ensures env.WorkerThrows? ==> s == Resolved(ExecResult("", Some(env.error), dur))
    ensures env.WorkerStarts? && Parses(source) && !run.outcome.Hangs? ==>
      WorkerReply(run, dur).Some? && s == Resolved(WorkerReply(run, dur).value)
  {
    match env
    case WorkerThrows(e) => Resolved(ExecResult("", Some(e), dur))
    case WorkerStarts =>
      if !Parses(source) then Pending
      else match WorkerReply(run, dur)
        case None => Pending
        case Some(m) => Resolved(m)
  }

  /** As written, the double-quoted literal holds a raw line feed, so the
      script never compiles and a started worker never answers. */
  lemma WrittenWorkerNeverResolves(run: JsRun, dur: nat)
    ensures !Parses(WorkerSource(WrittenNewline))
    ensures RunJavaScript(WorkerSource(WrittenNewline), WorkerStarts, run, dur) == Pending
  {
    var source := WorkerSource(WrittenNewline);
    assert source[5] == Literal('"', "\n");
  }

  /** With the escape kept, every literal of the script is well formed, the
      literal denotes a line feed, and a started worker answers with its
      message whenever the user's code returns or throws; code that never
      returns still leaves the promise pending, as nothing times it out. */
  lemma IntendedWorkerResolves(run: JsRun, dur: nat)
    ensures Parses(WorkerSource(IntendedNewline))
    ensures LiteralValue(IntendedNewline) == "\n"
    ensures !run.outcome.Hangs? ==>
      RunJavaScript(WorkerSource(IntendedNewline), WorkerStarts, run, dur) == Resolved(WorkerReply(run, dur).value)
    ensures run.outcome.Hangs? ==> RunJavaScript(WorkerSource(IntendedNewline), WorkerStarts, run, dur) == Pending
  {
    assert BodyOk('"', IntendedNewline) by {
      assert IntendedNewline[2..] == [];
    }
    assert BodyOk('\'', " ") by {
      assert " "[1..] == [];
    }
    assert LiteralValue(IntendedNewline) == ['\n'] + LiteralValue(IntendedNewline[2..]);
    assert IntendedNewline[2..] == [];
  }

  // ---------------------------------------------------------- runPython

  /** What the generated driver's `runPythonAsync` call does with the text
      it executes: it finishes with the captured streams (an `Exception`
      from the user code ends up as a traceback on stderr), or an exception
      outside `Exception` (such as SystemExit) escapes and the call rejects
      with that error's string. */
  datatype Streams = Streams(stdout: string, stderr: string)
  datatype DriverOutcome = Finished(streams: Streams) | Raised(error: string)

  /** The value `runPythonAsync` resolves with, after `toJs` when it has one:
      a string that `JSON.parse` reads as an object with the given members
      (a missing or empty member reads as ""), a string that `JSON.parse`
      rejects, or something else, given as its `String(...)`. */
  datatype PyValue = JsonText(stdout: string, stderr: string) | PlainString(text: string) | NotAString(text: string)

  /** The normalisation after the driver returns: the output is the stdout
      member, the error is the stderr member when it is non-empty and null
      otherwise; a value that is not such JSON becomes the output with a
      null error. */
  function Normalise(v: PyValue, dur: nat): (r: ExecResult)
    ensures r.executionTime == dur
    ensures v.JsonText? ==> r.output == v.stdout && (r.error.None? <==> v.stderr == "")
    ensures v.JsonText? && v.stderr != "" ==> r.error == Some(v.stderr)
    ensures !v.JsonText? ==> r == ExecResult(v.text, None, dur)
  {
    match v
    case JsonText(out, err) => ExecResult(out, if err == "" then None else Some(err), dur)
    case PlainString(t) => ExecResult(t, None, dur)
    case NotAString(t) => ExecResult(t, None, dur)
  }

  /** `runPython` once the loader has settled: a failed load, the URIError
      of a string with a lone surrogate and a rejected driver all give
      output "" and the error's string; otherwise the driver runs on the
      text decoded from the base64 it was sent, and its streams are
      normalised. */
  function PythonResult(loaded: Loaded, code: seq<CodeUnit>, driver: seq<Scalar> -> DriverOutcome, dur: nat): (r: ExecResult)
    ensures loaded.Failed? ==> r == ExecResult("", Some(loaded.error), dur)
    ensures loaded.Ready? && Utf16Decode(code).None? ==> r == ExecResult("", Some(UriErrorText), dur)
    ensures loaded.Ready? && Utf16Decode(code).Some? ==>
      match driver(Utf16Decode(code).value)
      case Raised(e) => r == ExecResult("", Some(e), dur)
      case Finished(st) => r == Normalise(JsonText(st.stdout, st.stderr), dur)
  {
    match loaded
    case Failed(e) => ExecResult("", Some(e), dur)
    case Ready =>
      EncodeForTransportIs(code);
      match EncodeForTransport(code)
      case Threw(e) => ExecResult("", Some(e), dur)
      case Sent(b64) =>
        TransportRoundTrip(code);
        match DecodeInDriver(b64)
        case None => assert false; ExecResult("", None, dur)
        case Some(text) =>
          match driver(text)
          case Raised(e) => ExecResult("", Some(e), dur)
          case Finished(st) => Normalise(JsonText(st.stdout, st.stderr), dur)
  }

  /** When the load succeeds and the code is a proper string, what the
      driver executes is exactly the user's text, its stdout is the output
      and an empty stderr means no error. */
  lemma PythonRunsOriginalText(code: seq<CodeUnit>, driver: seq<Scalar> -> DriverOutcome, dur: nat, st: Streams)
    requires Utf16Decode(code).Some? && driver(Utf16Decode(code).value) == Finished(st)
    ensures PythonResult(Ready, code, driver, dur).output == st.stdout
    ensures PythonResult(Ready, code, driver, dur).error.None? <==> st.stderr == ""
  {
  }

  /** `runPython`: wait for the memoised load, then run the driver. */
  method RunPython(loader: PyodideLoader, ev: ScriptEvent, code: seq<CodeUnit>,
                   driver: seq<Scalar> -> DriverOutcome, dur: nat) returns (r: ExecResult)
    requires loader.Valid()
    modifies loader
    ensures loader.Valid()
    ensures loader.promise.Some?
    ensures loader.promise == (if old(loader.promise).Some? then old(loader.promise) else Some(Settle(ev)))
    ensures r == PythonResult(loader.promise.value, code, driver, dur)
  {
    var l := loader.Ensure(ev);
    r := PythonResult(l, code, driver, dur);
  }

  /** `runCodeInBrowser`: "python" runs through the memoised Pyodide load;
      every other language runs in a worker, on the script as written, and
      leaves the memo alone. Because that script does not compile, a worker
      that starts never answers. */
  method RunCodeInBrowser(loader: PyodideLoader, code: seq<CodeUnit>, language: string,
                          ev: ScriptEvent, driver: seq<Scalar> -> DriverOutcome,
                          env: WorkerEnv, run: JsRun, dur: nat) returns (s: Settlement)
    requires loader.Valid()
    modifies loader
    ensures loader.Valid()
    ensures language == Python ==>
      loader.promise == (if old(loader.promise).Some? then old(loader.promise) else Some(Settle(ev))) &&
      s == Resolved(PythonResult(loader.promise.value, code, driver, dur))
    ensures language != Python ==>
      loader.promise == old(loader.promise) && loader.loadsStarted == old(loader.loadsStarted) &&
      s == RunJavaScript(WorkerSource(WrittenNewline), env, run, dur)
    ensures language != Python && env.WorkerStarts? ==> s == Pending
    ensures language != Python && env.WorkerThrows? ==> s == Resolved(ExecResult("", Some(env.error), dur))
  {
    if language == Python {
      var r := RunPython(loader, ev, code, driver, dur);
      s := Resolved(r);
    } else {
      WrittenWorkerNeverResolves(run, dur);
      s := RunJavaScript(WorkerSource(WrittenNewline), env, run, dur);
    }
  }
}
