/** Capturing the output of a command: runCommand, pipeCommand and readPipe of internal/docker/docker.go as a protocol of a
    main loop and two readers over unbuffered channels. */
module Capture {

  datatype Source = Out | Err

  /** How reading a pipe ends once its text is used up. */
  datatype PipeEnd = Eof | Broken(error: string)

  /** What a run is about to meet: verbose or log mode, the text of the two pipes, whether the pipes can be had at all. */
  datatype Setting = Setting(stopsOnStdout: bool, launchError: string,
                             outText: string, outEnd: PipeEnd, errText: string, errEnd: PipeEnd)
  {
    function Text(source: Source): string {
      if source.Out? then outText else errText
    }

    function End(source: Source): PipeEnd {
      if source.Out? then outEnd else errEnd
    }
  }

  /** Where a reader is in its loop; a closed one has closed its channel and is gone. */
  datatype ReaderAt = Idle | Reading | Sending(line: string) | SendingError(error: string) | Closing | Closed

  datatype Reader = Reader(at: ReaderAt, rest: string)

  datatype LauncherAt = Launching | LaunchFailed(error: string) | Launched

  datatype MainAt = Looping | LeftBecause(source: Source) | ReturnedError(error: string)

  /** received is what the main loop took from the channels, in order; the output buffer is its text. */
  datatype State = State(main: MainAt, launcher: LauncherAt, out: Reader, err: Reader, received: seq<(Source, string)>)

  function ReaderOf(s: State, source: Source): Reader {
    if source.Out? then s.out else s.err
  }

  function WithReader(s: State, source: Source, r: Reader): State {
    if source.Out? then s.(out := r) else s.(err := r)
  }

  function Init(g: Setting): State
  {
    State(Looping, Launching, Reader(Idle, g.Text(Out)), Reader(Idle, g.Text(Err)), [])
  }

  // ---------------------------------------------------------------- reading lines

  /** The position after the first newline, or 0 if there is none. */
  function LineEnd(s: string): (k: nat)
    ensures k <= |s|
    ensures k == 0 <==> '\n' !in s
    ensures k > 0 ==> s[k - 1] == '\n' && '\n' !in s[..k - 1]
  {
    if s == "" then 0
    else if s[0] == '\n' then 1
    else
      var k := LineEnd(s[1..]);
      assert s[1..] == [] || s == [s[0]] + s[1..];
      if k == 0 then 0
      else
        assert s[..k] == [s[0]] + s[1..][..k - 1];
        k + 1
  }

  // ---------------------------------------------------------------- steps

  datatype Step =
    | Launch
    | ReadPipe(source: Source)
    | CloseChannel(source: Source)
    | ReceiveLine(source: Source)
    | ReceiveClosed(source: Source)
    | ReceiveError(source: Source)
    | ReceiveLaunchError

  /** A receive takes a select case of the main loop together with the send that it meets. */
  predicate Enabled(g: Setting, s: State, step: Step) {
    match step
    case Launch => s.launcher.Launching?
    case ReadPipe(source) => ReaderOf(s, source).at.Reading?
    case CloseChannel(source) => ReaderOf(s, source).at.Closing?
    case ReceiveLine(source) => s.main.Looping? && ReaderOf(s, source).at.Sending?
    case ReceiveClosed(source) => s.main.Looping? && ReaderOf(s, source).at.Closed?
    case ReceiveError(source) => s.main.Looping? && ReaderOf(s, source).at.SendingError?
    case ReceiveLaunchError => s.main.Looping? && s.launcher.LaunchFailed?
  }

  /** One turn of readPipe up to the point where it sends or closes. A last line without a newline comes together with
      the error and is dropped. */
  function AfterRead(g: Setting, source: Source, r: Reader): Reader
  {
    var k := LineEnd(r.rest);
    if k > 0 then Reader(Sending(r.rest[..k]), r.rest[k..])
    else if g.End(source).Eof? then r.(at := Closed)
    else r.(at := SendingError(g.End(source).error))
  }

  function Perform(g: Setting, s: State, step: Step): State
    requires Enabled(g, s, step)
  {
    match step
    case Launch =>
      if g.launchError != "" then s.(launcher := LaunchFailed(g.launchError))
      else s.(launcher := Launched, out := s.out.(at := Reading), err := s.err.(at := Reading))
    case ReadPipe(source) => WithReader(s, source, AfterRead(g, source, ReaderOf(s, source)))
    case CloseChannel(source) => WithReader(s, source, ReaderOf(s, source).(at := Closed))
    case ReceiveLine(source) =>
      var r := ReaderOf(s, source);
      WithReader(s, source, r.(at := Reading)).(received := s.received + [(source, r.at.line)])
    case ReceiveClosed(source) =>
      if source.Err? || g.stopsOnStdout then s.(main := LeftBecause(source)) else s
    case ReceiveError(source) =>
      var r := ReaderOf(s, source);
      WithReader(s, source, r.(at := Closing)).(main := ReturnedError(r.at.error))
    case ReceiveLaunchError => s.(main := ReturnedError(s.launcher.error), launcher := Launched)
  }

  /** The state after some steps, if each was possible when its turn came. */
  predicate Possible(g: Setting, s: State, steps: seq<Step>)
    decreases |steps|
  {
    steps == [] || (Enabled(g, s, steps[0]) && Possible(g, Perform(g, s, steps[0]), steps[1..]))
  }

  function After(g: Setting, s: State, steps: seq<Step>): State
    requires Possible(g, s, steps)
    decreases |steps|
  {
    if steps == [] then s else After(g, Perform(g, s, steps[0]), steps[1..])
  }

  // ---------------------------------------------------------------- what was received

  function TextOf(received: seq<(Source, string)>, source: Source): string {
    if received == [] then ""
    else
      var (from, line) := received[|received| - 1];
      TextOf(received[..|received| - 1], source) + if from == source then line else ""
  }

  function Pending(r: Reader): string {
    if r.at.Sending? then r.at.line else ""
  }

  predicate IsLine(line: string) {
    line != "" && line[|line| - 1] == '\n' && '\n' !in line[..|line| - 1]
  }

  /** What was received from a pipe, what its reader holds and what it has not read make up the text of the pipe. */
  predicate Accounted(g: Setting, s: State, source: Source)
  {
    var r := ReaderOf(s, source);
    && TextOf(s.received, source) + Pending(r) + r.rest == g.Text(source)
    && (r.at.Sending? ==> IsLine(r.at.line))
    && (r.at.SendingError? || r.at.Closing? || r.at.Closed? ==> '\n' !in r.rest)
  }

  /** The main loop can be left through this pipe: the command starts, the pipe ends well, and the mode looks at it. */
  predicate CanLeaveThrough(g: Setting, source: Source) {
    g.launchError == "" && g.End(source).Eof? && (source.Err? || g.stopsOnStdout)
  }

  /** How far the parts of the protocol can be from one another. */
  predicate Coupled(g: Setting, s: State)
  {
    && (s.launcher.Launching? || s.launcher.LaunchFailed? ==> s.out.at.Idle? && s.err.at.Idle?)
    && (g.launchError != "" ==> s.out.at.Idle? && s.err.at.Idle?)
    && (s.launcher.Launched? && s.main.Looping? ==> !s.out.at.Idle? && !s.err.at.Idle?)
    && (s.main.Looping? ==>
          (!s.out.at.Closing? && (s.out.at.Closed? ==> g.End(Out).Eof?))
          && (!s.err.at.Closing? && (s.err.at.Closed? ==> g.End(Err).Eof?)))
    && (s.main.LeftBecause? ==> ReaderOf(s, s.main.source).at.Closed? && CanLeaveThrough(g, s.main.source))
  }

  predicate AllLines(received: seq<(Source, string)>) {
    forall k :: 0 <= k < |received| ==> IsLine(received[k].1)
  }

  predicate Invariant(g: Setting, s: State)
  {
    Accounted(g, s, Out) && Accounted(g, s, Err) && Coupled(g, s) && AllLines(s.received)
  }

  lemma TextOfOneMore(received: seq<(Source, string)>, from: Source, line: string, source: Source)
    ensures TextOf(received + [(from, line)], source) == TextOf(received, source) + if from == source then line else ""
  {
    assert (received + [(from, line)])[..|received|] == received;
  }

  lemma SplitRest(t: string, rest: string, k: nat)
    requires k <= |rest|
    ensures t + rest[..k] + rest[k..] == t + "" + rest
  {
  }

  lemma MoveLine(t: string, line: string, rest: string)
    ensures (t + line) + "" + rest == t + line + rest
  {
  }

  lemma FirstLineIsLine(rest: string)
    requires LineEnd(rest) > 0
    ensures IsLine(rest[..LineEnd(rest)])
  {
    var k := LineEnd(rest);
    assert rest[..k][..k - 1] == rest[..k - 1];
  }

  lemma ReadKeepsAccounts(g: Setting, s: State, source: Source)
    requires Accounted(g, s, source) && ReaderOf(s, source).at.Reading?
    ensures Accounted(g, WithReader(s, source, AfterRead(g, source, ReaderOf(s, source))), source)
  {
    var rest, t := ReaderOf(s, source).rest, TextOf(s.received, source);
    var k := LineEnd(rest);
    if k > 0 {
      FirstLineIsLine(rest);
      SplitRest(t, rest, k);
    }
  }

  lemma ReceiveKeepsAccounts(g: Setting, s: State, from: Source, source: Source)
    requires Accounted(g, s, from) && Accounted(g, s, source) && Enabled(g, s, ReceiveLine(from))
    ensures Accounted(g, Perform(g, s, ReceiveLine(from)), source)
  {
    var line, t := ReaderOf(s, from).at.line, TextOf(s.received, source);
    TextOfOneMore(s.received, from, line, source);
    if from == source {
      MoveLine(t, line, ReaderOf(s, source).rest);
    } else {
      assert t + "" == t;
    }
  }

  lemma StepKeepsAccounts(g: Setting, s: State, step: Step, source: Source)
    requires Invariant(g, s) && Enabled(g, s, step)
    ensures Accounted(g, Perform(g, s, step), source)
  {
    match step
    case ReadPipe(from) => if from == source { ReadKeepsAccounts(g, s, source); }
    case ReceiveLine(from) => ReceiveKeepsAccounts(g, s, from, source);
    case _ =>
  }

  lemma StepKeepsCoupled(g: Setting, s: State, step: Step)
    requires Coupled(g, s) && Enabled(g, s, step)
    ensures Coupled(g, Perform(g, s, step))
  {
    match step
    case Launch =>
    case ReadPipe(source) => if source.Out? {} else {}
    case CloseChannel(source) => if source.Out? {} else {}
    case ReceiveLine(source) => if source.Out? {} else {}
    case ReceiveClosed(source) =>
    case ReceiveError(source) => if source.Out? {} else {}
    case ReceiveLaunchError =>
  }

  lemma StepKeepsLines(g: Setting, s: State, step: Step)
    requires Accounted(g, s, Out) && Accounted(g, s, Err) && AllLines(s.received) && Enabled(g, s, step)
    ensures AllLines(Perform(g, s, step).received)
  {
  }

  lemma StepKeepsInvariant(g: Setting, s: State, step: Step)
    requires Invariant(g, s) && Enabled(g, s, step)
    ensures Invariant(g, Perform(g, s, step))
  {
    assert Accounted(g, Perform(g, s, step), Out) by { StepKeepsAccounts(g, s, step, Out); }
    assert Accounted(g, Perform(g, s, step), Err) by { StepKeepsAccounts(g, s, step, Err); }
    assert Coupled(g, Perform(g, s, step)) by { StepKeepsCoupled(g, s, step); }
    assert AllLines(Perform(g, s, step).received) by { StepKeepsLines(g, s, step); }
  }

  lemma InitInvariant(g: Setting)
    ensures Invariant(g, Init(g))
  {
    assert "" + "" + g.Text(Out) == g.Text(Out);
    assert "" + "" + g.Text(Err) == g.Text(Err);
  }

  lemma {:induction false} AlwaysInvariant(g: Setting, s: State, steps: seq<Step>)
    requires Invariant(g, s) && Possible(g, s, steps)
    ensures Invariant(g, After(g, s, steps))
    decreases |steps|
  {
    if steps != [] {
      StepKeepsInvariant(g, s, steps[0]);
      AlwaysInvariant(g, Perform(g, s, steps[0]), steps[1..]);
    }
  }

  // ---------------------------------------------------------------- safety

  /** Everything up to and including the last newline. */
  predicate IsLinesOf(lines: string, text: string) {
    lines <= text && '\n' !in text[|lines|..] && (lines == "" || lines[|lines| - 1] == '\n')
  }

  /** Some of the lines of a text, from the front, none of them cut. */
  predicate IsPrefixOfLines(lines: string, text: string) {
    lines <= text && (lines == "" || lines[|lines| - 1] == '\n')
  }

  lemma {:induction false} TextEndsInNewline(received: seq<(Source, string)>, source: Source)
    requires AllLines(received)
    ensures var t := TextOf(received, source); t == "" || t[|t| - 1] == '\n'
  {
    if received != [] { TextEndsInNewline(received[..|received| - 1], source); }
  }

  /** At any time the buffer interleaves whole lines of the two pipes, each from the front and in order. When the loop
      was left because a pipe closed, every line of that pipe is in the buffer, and nothing after its last newline is;
      the loop is left for stderr, in verbose or log mode also for stdout, if the command was started. */
  lemma CaptureSafe(g: Setting, steps: seq<Step>)
    requires Possible(g, Init(g), steps)
    ensures var s := After(g, Init(g), steps);
            && AllLines(s.received)
            && IsPrefixOfLines(TextOf(s.received, Out), g.Text(Out))
            && IsPrefixOfLines(TextOf(s.received, Err), g.Text(Err))
            && (s.main.LeftBecause? ==>
                  IsLinesOf(TextOf(s.received, s.main.source), g.Text(s.main.source)) && CanLeaveThrough(g, s.main.source))
  {
    InitInvariant(g);
    AlwaysInvariant(g, Init(g), steps);
    var s := After(g, Init(g), steps);
    LinesInvariant(g, s, Out);
    LinesInvariant(g, s, Err);
  }

  lemma LinesInvariant(g: Setting, s: State, source: Source)
    requires Invariant(g, s)
    ensures IsPrefixOfLines(TextOf(s.received, source), g.Text(source))
    ensures ReaderOf(s, source).at.Closed? ==> IsLinesOf(TextOf(s.received, source), g.Text(source))
  {
    var t, r := TextOf(s.received, source), ReaderOf(s, source);
    assert t == "" || t[|t| - 1] == '\n' by { TextEndsInNewline(s.received, source); }
    assert t + Pending(r) + r.rest == g.Text(source) && (r.at.Closed? ==> '\n' !in r.rest) by {
      assert Accounted(g, s, source);
    }
    AccountedPrefix(t, Pending(r), r.rest, g.Text(source));
  }

  lemma AccountedPrefix(t: string, pending: string, rest: string, text: string)
    requires t + pending + rest == text && (t == "" || t[|t| - 1] == '\n')
    ensures IsPrefixOfLines(t, text)
    ensures pending == "" && '\n' !in rest ==> IsLinesOf(t, text)
  {
    assert text == t + (pending + rest);
    assert text[|t|..] == pending + rest;
  }

  /** The errors that are around are those of the setting: of the launch, or of a pipe that broke. */
  predicate TrueErrors(g: Setting, s: State) {
    && (s.launcher.LaunchFailed? ==> s.launcher.error == g.launchError != "")
    && (s.out.at.SendingError? ==> g.End(Out) == Broken(s.out.at.error))
    && (s.err.at.SendingError? ==> g.End(Err) == Broken(s.err.at.error))
    && (s.main.ReturnedError? ==>
          || (g.launchError != "" && s.main.error == g.launchError)
          || (g.launchError == "" && (g.End(Out) == Broken(s.main.error) || g.End(Err) == Broken(s.main.error))))
  }

  lemma {:induction false} ErrorsFrom(g: Setting, s: State, steps: seq<Step>)
    requires Invariant(g, s) && TrueErrors(g, s) && Possible(g, s, steps)
    ensures TrueErrors(g, After(g, s, steps))
    decreases |steps|
  {
    if steps != [] {
      StepKeepsInvariant(g, s, steps[0]);
      StepKeepsErrors(g, s, steps[0]);
      ErrorsFrom(g, Perform(g, s, steps[0]), steps[1..]);
    }
  }

  lemma StepKeepsErrors(g: Setting, s: State, step: Step)
    requires Invariant(g, s) && TrueErrors(g, s) && Enabled(g, s, step)
    ensures TrueErrors(g, Perform(g, s, step))
  {
  }

  /** An error that is returned is the launch's, or that of a pipe that broke; a command that starts and whose pipes
      end well returns none. */
  lemma ReturnedErrors(g: Setting, steps: seq<Step>)
    requires Possible(g, Init(g), steps)
    ensures var main := After(g, Init(g), steps).main;
            main.ReturnedError? ==>
              || (g.launchError != "" && main.error == g.launchError)
              || (g.launchError == "" && (g.End(Out) == Broken(main.error) || g.End(Err) == Broken(main.error)))
  {
    InitInvariant(g);
    ErrorsFrom(g, Init(g), steps);
  }

  lemma ClosedIsFinal(g: Setting, s: State, step: Step, source: Source)
    requires Invariant(g, s) && Enabled(g, s, step) && ReaderOf(s, source).at.Closed?
    ensures ReaderOf(Perform(g, s, step), source) == ReaderOf(s, source) && !Closes(g, s, step, source)
  {
  }

  /** Steps that call close on the channel of a pipe: a read that meets the end of the text, and the last step after an error. */
  predicate Closes(g: Setting, s: State, step: Step, source: Source)
    requires Enabled(g, s, step)
  {
    || step == CloseChannel(source)
    || (step == ReadPipe(source) && LineEnd(ReaderOf(s, source).rest) == 0 && g.End(source).Eof?)
  }

  function Closings(g: Setting, s: State, steps: seq<Step>, source: Source): nat
    requires Possible(g, s, steps)
    decreases |steps|
  {
    if steps == [] then 0
    else (if Closes(g, s, steps[0], source) then 1 else 0) + Closings(g, Perform(g, s, steps[0]), steps[1..], source)
  }

  lemma {:induction false} ClosingsFrom(g: Setting, s: State, steps: seq<Step>, source: Source)
    requires Invariant(g, s) && Possible(g, s, steps)
    ensures Closings(g, s, steps, source) + (if ReaderOf(s, source).at.Closed? then 1 else 0) ==
              if ReaderOf(After(g, s, steps), source).at.Closed? then 1 else 0
    decreases |steps|
  {
    if steps != [] {
      StepKeepsInvariant(g, s, steps[0]);
      ClosingsFrom(g, Perform(g, s, steps[0]), steps[1..], source);
      if ReaderOf(s, source).at.Closed? { ClosedIsFinal(g, s, steps[0], source); }
    }
  }

  /** Each channel is closed at most once in any run, and exactly once if its reader is done. */
  lemma ClosedOnce(g: Setting, steps: seq<Step>, source: Source)
    requires Possible(g, Init(g), steps)
    ensures Closings(g, Init(g), steps, source) == if ReaderOf(After(g, Init(g), steps), source).at.Closed? then 1 else 0
  {
    InitInvariant(g);
    ClosingsFrom(g, Init(g), steps, source);
  }

  // ---------------------------------------------------------------- progress

  /** The busy wait of quiet mode on a closed stdout. */
  predicate Spins(g: Setting, s: State, step: Step) {
    step == ReceiveClosed(Out) && !g.stopsOnStdout
  }

  function ReaderWeight(r: Reader): nat {
    2 * |r.rest| + match r.at
                   case Idle => 4
                   case Reading => 3
                   case Sending(_) => 4
                   case SendingError(_) => 2
                   case Closing => 1
                   case Closed => 0
  }

  function Weight(s: State): nat {
    ReaderWeight(s.out) + ReaderWeight(s.err)
    + (match s.launcher case Launching => 2 case LaunchFailed(_) => 1 case Launched => 0)
    + if s.main.Looping? then 1 else 0
  }

  /** While the main loop runs, something other than the busy wait can happen. */
  lemma NeverBlocked(g: Setting, s: State) returns (step: Step)
    requires Invariant(g, s) && s.main.Looping?
    ensures Enabled(g, s, step) && !Spins(g, s, step)
  {
    if s.launcher.Launching? {
      step := Launch;
    } else if s.launcher.LaunchFailed? {
      step := ReceiveLaunchError;
    } else {
      match s.err.at
      case Reading => step := ReadPipe(Err);
      case Sending(_) => step := ReceiveLine(Err);
      case SendingError(_) => step := ReceiveError(Err);
      case Closed => step := ReceiveClosed(Err);
    }
  }

  /** Every other step brings the end nearer; the busy wait changes nothing at all. */
  lemma StepLowersWeight(g: Setting, s: State, step: Step)
    requires Invariant(g, s) && Enabled(g, s, step)
    ensures Spins(g, s, step) ==> Perform(g, s, step) == s
    ensures !Spins(g, s, step) ==> Weight(Perform(g, s, step)) < Weight(s)
  {
  }

  function NonSpinning(g: Setting, s: State, steps: seq<Step>): nat
    requires Possible(g, s, steps)
    decreases |steps|
  {
    if steps == [] then 0
    else (if Spins(g, s, steps[0]) then 0 else 1) + NonSpinning(g, Perform(g, s, steps[0]), steps[1..])
  }

  /** So there is a bound, known from the text of the pipes alone, on the steps that are not busy waiting; a run that
      can do nothing else any more has left the main loop. */
  lemma {:induction false} BoundedSteps(g: Setting, s: State, steps: seq<Step>)
    requires Invariant(g, s) && Possible(g, s, steps)
    ensures NonSpinning(g, s, steps) + Weight(After(g, s, steps)) <= Weight(s)
    decreases |steps|
  {
    if steps != [] {
      StepLowersWeight(g, s, steps[0]);
      StepKeepsInvariant(g, s, steps[0]);
      BoundedSteps(g, Perform(g, s, steps[0]), steps[1..]);
    }
  }

  lemma CaptureEnds(g: Setting, steps: seq<Step>)
    requires Possible(g, Init(g), steps)
    ensures NonSpinning(g, Init(g), steps) <= 2 * (|g.Text(Out)| + |g.Text(Err)|) + 11
    ensures var s := After(g, Init(g), steps);
            (forall step :: Enabled(g, s, step) ==> Spins(g, s, step)) ==> !s.main.Looping?
  {
    InitInvariant(g);
    BoundedSteps(g, Init(g), steps);
    AlwaysInvariant(g, Init(g), steps);
    var s := After(g, Init(g), steps);
    if s.main.Looping? {
      var step := NeverBlocked(g, s);
      assert Enabled(g, s, step) && !Spins(g, s, step);
    }
  }

  // ---------------------------------------------------------------- what is lost

  function Other(source: Source): Source {
    if source.Out? then Err else Out
  }

  function LineCount(text: string): nat
    decreases |text|
  {
    if LineEnd(text) == 0 then 0 else 1 + LineCount(text[LineEnd(text)..])
  }

  /** The first k lines of a text. */
  function FirstLines(text: string, k: nat): string {
    if k == 0 then "" else text[..LineEnd(text)] + FirstLines(text[LineEnd(text)..], k - 1)
  }

  function WithoutLines(text: string, k: nat): string {
    if k == 0 then text else WithoutLines(text[LineEnd(text)..], k - 1)
  }

  /** Reading and receiving k lines of a pipe. */
  function Lines(source: Source, k: nat): seq<Step> {
    if k == 0 then [] else [ReadPipe(source), ReceiveLine(source)] + Lines(source, k - 1)
  }

  function OneLineLater(s: State, source: Source): State {
    var text := ReaderOf(s, source).rest;
    var e := LineEnd(text);
    WithReader(s, source, Reader(Reading, text[e..])).(received := s.received + [(source, text[..e])])
  }

  function AfterLines(s: State, source: Source, k: nat): State
    decreases k
  {
    if k == 0 then s else AfterLines(OneLineLater(s, source), source, k - 1)
  }

  lemma {:induction false} PossibleTogether(g: Setting, s: State, first: seq<Step>, second: seq<Step>)
    requires Possible(g, s, first) && Possible(g, After(g, s, first), second)
    ensures Possible(g, s, first + second) && After(g, s, first + second) == After(g, After(g, s, first), second)
    decreases |first|
  {
    if first == [] {
      assert first + second == second;
    } else {
      assert (first + second)[0] == first[0] && (first + second)[1..] == first[1..] + second;
      PossibleTogether(g, Perform(g, s, first[0]), first[1..], second);
    }
  }

  lemma OneLine(g: Setting, s: State, source: Source)
    requires s.main.Looping? && ReaderOf(s, source).at.Reading? && LineEnd(ReaderOf(s, source).rest) > 0
    ensures Possible(g, s, [ReadPipe(source), ReceiveLine(source)])
    ensures After(g, s, [ReadPipe(source), ReceiveLine(source)]) == OneLineLater(s, source)
  {
    TwoSteps(g, s, ReadPipe(source), ReceiveLine(source));
  }

  lemma TwoSteps(g: Setting, s: State, first: Step, second: Step)
    requires Enabled(g, s, first) && Enabled(g, Perform(g, s, first), second)
    ensures Possible(g, s, [first, second])
    ensures After(g, s, [first, second]) == Perform(g, Perform(g, s, first), second)
  {
    var s1 := Perform(g, s, first);
    assert [first, second][1..] == [second] && [second][1..] == [];
    assert Possible(g, s1, [second]) && After(g, s1, [second]) == Perform(g, s1, second);
  }

  lemma {:induction false} LinesPossible(g: Setting, s: State, source: Source, k: nat)
    requires s.main.Looping? && ReaderOf(s, source).at.Reading? && k <= LineCount(ReaderOf(s, source).rest)
    ensures Possible(g, s, Lines(source, k)) && After(g, s, Lines(source, k)) == AfterLines(s, source, k)
    decreases k
  {
    if k > 0 {
      var s1 := OneLineLater(s, source);
      OneLineCounted(s, source, k);
      assert Possible(g, s1, Lines(source, k - 1)) && After(g, s1, Lines(source, k - 1)) == AfterLines(s1, source, k - 1) by {
        LinesPossible(g, s1, source, k - 1);
      }
      LinesOneMore(g, s, source, k);
    }
  }

  lemma OneLineCounted(s: State, source: Source, k: nat)
    requires 0 < k <= LineCount(ReaderOf(s, source).rest)
    ensures LineEnd(ReaderOf(s, source).rest) > 0
    ensures var s1 := OneLineLater(s, source);
            s1.main == s.main && ReaderOf(s1, source).at.Reading? && k - 1 <= LineCount(ReaderOf(s1, source).rest)
  {
  }

  lemma LinesOneMore(g: Setting, s: State, source: Source, k: nat)
    requires s.main.Looping? && ReaderOf(s, source).at.Reading? && LineEnd(ReaderOf(s, source).rest) > 0
    requires k > 0 && Possible(g, OneLineLater(s, source), Lines(source, k - 1))
    ensures Possible(g, s, Lines(source, k))
    ensures After(g, s, Lines(source, k)) == After(g, OneLineLater(s, source), Lines(source, k - 1))
  {
    var first, more := [ReadPipe(source), ReceiveLine(source)], Lines(source, k - 1);
    OneLine(g, s, source);
    PossibleTogether(g, s, first, more);
    assert Lines(source, k) == first + more;
  }

  lemma {:induction false} LinesReceived(s: State, source: Source, k: nat)
    requires ReaderOf(s, source).at.Reading?
    ensures var s', r := AfterLines(s, source, k), ReaderOf(s, source);
            && s'.main == s.main && s'.launcher == s.launcher && ReaderOf(s', Other(source)) == ReaderOf(s, Other(source))
            && ReaderOf(s', source) == Reader(Reading, WithoutLines(r.rest, k))
            && TextOf(s'.received, source) == TextOf(s.received, source) + FirstLines(r.rest, k)
            && TextOf(s'.received, Other(source)) == TextOf(s.received, Other(source))
    decreases k
  {
    if k > 0 {
      var text := ReaderOf(s, source).rest;
      var line, rest := text[..LineEnd(text)], text[LineEnd(text)..];
      LinesReceived(OneLineLater(s, source), source, k - 1);
      TextOfOneMore(s.received, source, line, source);
      TextOfOneMore(s.received, source, line, Other(source));
      MoveFirst(TextOf(s.received, source), line, FirstLines(rest, k - 1));
    }
  }

  lemma MoveFirst(t: string, line: string, more: string)
    ensures (t + line) + more == t + (line + more)
  {
  }

  lemma {:induction false} NoLineLeft(text: string)
    ensures LineEnd(WithoutLines(text, LineCount(text))) == 0
    decreases |text|
  {
    if LineEnd(text) > 0 { NoLineLeft(text[LineEnd(text)..]); }
  }

  /** All of the pipe is read while only k lines of the other one are; then the pipe is seen to be closed. */
  function CutSteps(g: Setting, source: Source, k: nat): seq<Step> {
    [Launch] + (Lines(Other(source), k) + (Lines(source, LineCount(g.Text(source))) + [ReadPipe(source), ReceiveClosed(source)]))
  }

  lemma ClosesAndLeaves(g: Setting, s: State, source: Source)
    requires CanLeaveThrough(g, source) && s.main.Looping? && ReaderOf(s, source).at.Reading?
    requires LineEnd(ReaderOf(s, source).rest) == 0
    ensures var last := [ReadPipe(source), ReceiveClosed(source)];
            Possible(g, s, last) && After(g, s, last).main == LeftBecause(source) && After(g, s, last).received == s.received
  {
    TwoSteps(g, s, ReadPipe(source), ReceiveClosed(source));
  }

  /** From a started command on: k lines of the other pipe, all lines of this one, and out. */
  lemma CutFromLaunched(g: Setting, s: State, source: Source, k: nat)
    requires CanLeaveThrough(g, source) && s.main.Looping? && s.out.at.Reading? && s.err.at.Reading?
    requires k <= LineCount(ReaderOf(s, Other(source)).rest)
    ensures var n := LineCount(ReaderOf(s, source).rest);
            var last := [ReadPipe(source), ReceiveClosed(source)];
            var steps := Lines(Other(source), k) + (Lines(source, n) + last);
            && Possible(g, s, steps) && After(g, s, steps).main == LeftBecause(source)
            && TextOf(After(g, s, steps).received, Other(source)) ==
                 TextOf(s.received, Other(source)) + FirstLines(ReaderOf(s, Other(source)).rest, k)
  {
    var s1 := AfterLines(s, Other(source), k);
    var n := LineCount(ReaderOf(s, source).rest);
    var rest := Lines(source, n) + [ReadPipe(source), ReceiveClosed(source)];
    assert Possible(g, s, Lines(Other(source), k)) && After(g, s, Lines(Other(source), k)) == s1 by {
      LinesPossible(g, s, Other(source), k);
    }
    assert Other(Other(source)) == source;
    LinesReceived(s, Other(source), k);
    ReadOut(g, s1, source);
    PossibleTogether(g, s, Lines(Other(source), k), rest);
  }

  lemma ReadOut(g: Setting, s: State, source: Source)
    requires CanLeaveThrough(g, source) && s.main.Looping? && ReaderOf(s, source).at.Reading?
    ensures var steps := Lines(source, LineCount(ReaderOf(s, source).rest)) + [ReadPipe(source), ReceiveClosed(source)];
            && Possible(g, s, steps) && After(g, s, steps).main == LeftBecause(source)
            && TextOf(After(g, s, steps).received, Other(source)) == TextOf(s.received, Other(source))
  {
    var n := LineCount(ReaderOf(s, source).rest);
    var s1, last := AfterLines(s, source, n), [ReadPipe(source), ReceiveClosed(source)];
    assert Possible(g, s, Lines(source, n)) && After(g, s, Lines(source, n)) == s1 by { LinesPossible(g, s, source, n); }
    LinesReceived(s, source, n);
    NoLineLeft(ReaderOf(s, source).rest);
    ClosesAndLeaves(g, s1, source);
    PossibleTogether(g, s, Lines(source, n), last);
  }

  /** Whatever the mode, the output can be cut: when the loop is left through one pipe, any number of lines of the other
      may have been received. */
  lemma AnyCutPossible(g: Setting, source: Source, k: nat)
    requires CanLeaveThrough(g, source) && k <= LineCount(g.Text(Other(source)))
    ensures Possible(g, Init(g), CutSteps(g, source, k))
    ensures var s := After(g, Init(g), CutSteps(g, source, k));
            s.main == LeftBecause(source) && TextOf(s.received, Other(source)) == FirstLines(g.Text(Other(source)), k)
  {
    var s := Perform(g, Init(g), Launch);
    CutFromLaunched(g, s, source, k);
    var n := LineCount(g.Text(source));
    assert CutSteps(g, source, k)[1..] == Lines(Other(source), k) + (Lines(source, n) + [ReadPipe(source), ReceiveClosed(source)]);
    assert TextOf(s.received, Other(source)) == "";
  }

  /** Every run that leaves the loop through this pipe has received all lines of the other one as well. */
  ghost predicate OtherComplete(g: Setting, source: Source) {
    forall steps :: Possible(g, Init(g), steps) && After(g, Init(g), steps).main == LeftBecause(source) ==>
      IsLinesOf(TextOf(After(g, Init(g), steps).received, Other(source)), g.Text(Other(source)))
  }

  /** That is so exactly if there are no lines to lose, or no run leaves the loop that way. */
  lemma OtherCompleteExactly(g: Setting, source: Source)
    ensures OtherComplete(g, source) <==> LineCount(g.Text(Other(source))) == 0 || !CanLeaveThrough(g, source)
  {
    if LineCount(g.Text(Other(source))) == 0 || !CanLeaveThrough(g, source) {
      forall steps | Possible(g, Init(g), steps) && After(g, Init(g), steps).main == LeftBecause(source)
        ensures IsLinesOf(TextOf(After(g, Init(g), steps).received, Other(source)), g.Text(Other(source)))
      {
        CaptureSafe(g, steps);
        NothingToLose(TextOf(After(g, Init(g), steps).received, Other(source)), g.Text(Other(source)));
      }
    } else {
      var steps := CutSteps(g, source, 0);
      AnyCutPossible(g, source, 0);
      assert !IsLinesOf(TextOf(After(g, Init(g), steps).received, Other(source)), g.Text(Other(source)));
    }
  }

  lemma LinesNeedNewlines(lines: string, text: string)
    requires IsPrefixOfLines(lines, text)
    ensures lines != "" ==> '\n' in text
  {
    if lines != "" { assert text[|lines| - 1] == lines[|lines| - 1]; }
  }

  lemma NothingToLose(lines: string, text: string)
    requires IsPrefixOfLines(lines, text) && LineCount(text) == 0
    ensures IsLinesOf(lines, text)
  {
    LinesNeedNewlines(lines, text);
  }
}
