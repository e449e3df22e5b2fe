/** Which logged events took effect: invocations nest, and an event counts only if its own frame and
    every frame around it ended in success. */
module Invocations {
  datatype Line =
    | Invoke(program: string, depth: nat)
    | Complete(program: string, success: bool)
    | Data(payload: string)
    | Other(text: string)

  datatype Result<+T> = Committed(value: T) | Rejected

  // ------------------------------------------------------------- what a log means

  /** A well-bracketed log: lines, events, and calls with their own log inside. */
  datatype Forest =
    | End
    | Noise(text: string, rest: Forest)
    | Emit(payload: string, rest: Forest)
    | Call(program: string, body: Forest, success: bool, rest: Forest)

  /** The log a forest is written as, inside the given number of frames. */
  function Written(f: Forest, depth: nat): seq<Line> {
    match f
    case End => []
    case Noise(text, rest) => [Other(text)] + Written(rest, depth)
    case Emit(payload, rest) => [Data(payload)] + Written(rest, depth)
    case Call(program, body, success, rest) =>
      [Invoke(program, depth + 1)] + Written(body, depth + 1) + [Complete(program, success)] + Written(rest, depth)
  }

  /** The events that took effect, in log order: emitted by the program itself, under successes only. */
  function Effective(f: Forest, own: bool, program: string): seq<string> {
    match f
    case End => []
    case Noise(_, rest) => Effective(rest, own, program)
    case Emit(payload, rest) => (if own then [payload] else []) + Effective(rest, own, program)
    case Call(p, body, success, rest) =>
      (if success then Effective(body, p == program, program) else []) + Effective(rest, own, program)
  }

  /** How often the program was invoked at the top. */
  function Roots(f: Forest, program: string): nat {
    match f
    case End => 0
    case Noise(_, rest) => Roots(rest, program)
    case Emit(_, rest) => Roots(rest, program)
    case Call(p, _, _, rest) => (if p == program then 1 else 0) + Roots(rest, program)
  }

  // ------------------------------------------------------------ the stack machine

  datatype Frame = Frame(program: string, events: seq<string>)

  /** Open frames, innermost last, events committed at the top, and own top-level invocations. */
  datatype State = State(stack: seq<Frame>, committed: seq<string>, roots: nat)

  /** Adds events to the innermost open frame, or commits them if none is open. */
  function Staged(s: State, events: seq<string>): State {
    if s.stack == [] then s.(committed := s.committed + events) else
    var top := s.stack[|s.stack| - 1];
    s.(stack := s.stack[|s.stack| - 1 := top.(events := top.events + events)])
  }

  function Step(s: State, line: Line, program: string): Result<State> {
    var n := |s.stack|;
    match line
    case Invoke(p, depth) =>
      if depth != n + 1 then Rejected
      else Committed(s.(stack := s.stack + [Frame(p, [])],
                        roots := s.roots + (if n == 0 && p == program then 1 else 0)))
    case Complete(p, success) =>
      if n == 0 || s.stack[n - 1].program != p then Rejected else
      var outer := s.(stack := s.stack[..n - 1]);
      Committed(if success then Staged(outer, s.stack[n - 1].events) else outer)
    case Data(payload) =>
      Committed(if n > 0 && s.stack[n - 1].program == program then Staged(s, [payload]) else s)
    case Other(_) => Committed(s)
  }

  function Steps(s: State, lines: seq<Line>, program: string): Result<State>
    decreases |lines|
  {
    if lines == [] then Committed(s) else
    match Step(s, lines[0], program)
    case Rejected => Rejected
    case Committed(t) => Steps(t, lines[1..], program)
  }

  const START := State([], [], 0)

  lemma {:induction false} StepsAppend(s: State, a: seq<Line>, b: seq<Line>, program: string)
    ensures Steps(s, a + b, program)
         == match Steps(s, a, program) case Rejected => Rejected case Committed(t) => Steps(t, b, program)
    decreases |a|
  {
    hide Step;
    if a == [] {
      assert a + b == b;
    } else {
      assert (a + b)[1..] == a[1..] + b;
      match Step(s, a[0], program)
      case Rejected =>
      case Committed(t) => StepsAppend(t, a[1..], b, program);
    }
  }

  /** Reads the log line by line; a frame's events move outward as it succeeds, and are dropped as it fails. */
  method Decode(lines: seq<Line>, program: string, ownInstructions: nat) returns (r: Result<seq<string>>)
    ensures r == match Steps(START, lines, program)
                 case Rejected => Rejected
                 case Committed(t) => if t.stack != [] || t.roots < ownInstructions then Rejected
                   else Committed(t.committed)
  {
    hide Step, Staged;
    var stack: seq<Frame>, committed: seq<string>, roots: nat := [], [], 0;
    for i := 0 to |lines|
      invariant Steps(START, lines, program) == Steps(State(stack, committed, roots), lines[i..], program)
    {
      var line := lines[i];
      assert lines[i..][0] == line && lines[i..][1..] == lines[i + 1..];
      StepIs(State(stack, committed, roots), line, program);
      match line {
        case Invoke(p, depth) =>
          if depth != |stack| + 1 { return Rejected; }
          if stack == [] && p == program { roots := roots + 1; }
          stack := stack + [Frame(p, [])];
        case Complete(p, success) =>
          if stack == [] || stack[|stack| - 1].program != p { return Rejected; }
          var frame := stack[|stack| - 1];
          stack := stack[..|stack| - 1];
          if success {
            if stack == [] {
              committed := committed + frame.events;
            } else {
              var outer := stack[|stack| - 1];
              stack := stack[|stack| - 1 := outer.(events := outer.events + frame.events)];
            }
          }
        case Data(payload) =>
          if stack != [] && stack[|stack| - 1].program == program {
            var top := stack[|stack| - 1];
            stack := stack[|stack| - 1 := top.(events := top.events + [payload])];
          }
        case Other(_) =>
      }
    }
    if stack != [] || roots < ownInstructions { return Rejected; }
    r := Committed(committed);
  }

  /** The machine's step on its parts. */
  lemma StepIs(s: State, line: Line, program: string)
    ensures match line
            case Invoke(p, depth) =>
              Step(s, line, program)
              == if depth != |s.stack| + 1 then Rejected
                 else Committed(State(s.stack + [Frame(p, [])], s.committed, if s.stack == [] && p == program then
                   s.roots + 1 else s.roots))
            case Complete(p, success) =>
              if s.stack == [] || s.stack[|s.stack| - 1].program != p then Step(s, line, program) == Rejected else
              var frame, rest := s.stack[|s.stack| - 1], s.stack[..|s.stack| - 1];
              Step(s, line, program)
              == Committed(if !success then State(rest, s.committed, s.roots)
                           else if rest == [] then State(rest, s.committed + frame.events, s.roots)
                           else State(rest[|rest| - 1 :=
                             rest[|rest| - 1].(events := rest[|rest| - 1].events + frame.events)],
                                      s.committed, s.roots))
            case Data(payload) =>
              if s.stack != [] && s.stack[|s.stack| - 1].program == program then
                var top := s.stack[|s.stack| - 1];
                Step(s, line, program)
                == Committed(State(s.stack[|s.stack| - 1 := top.(events := top.events + [payload])], s.committed,
                                   s.roots))
              else Step(s, line, program) == Committed(s)
            case Other(_) => Step(s, line, program) == Committed(s)
  {
  }

  // -------------------------------------------------------------- what it commits

  predicate OwnTop(s: State, program: string) {
    s.stack != [] && s.stack[|s.stack| - 1].program == program
  }

  lemma StagedTwice(s: State, a: seq<string>, b: seq<string>)
    ensures Staged(Staged(s, a), b) == Staged(s, a + b)
    ensures |Staged(s, a).stack| == |s.stack| && Staged(s, a).roots == s.roots
    ensures forall program :: OwnTop(Staged(s, a), program) == OwnTop(s, program)
  {
    if s.stack == [] {
      assert s.committed + a + b == s.committed + (a + b);
    } else {
      var top := s.stack[|s.stack| - 1];
      assert top.events + a + b == top.events + (a + b);
    }
  }

  lemma StagedNothing(s: State)
    ensures Staged(s, []) == s
  {
    assert s.committed + [] == s.committed;
    if s.stack != [] {
      var top := s.stack[|s.stack| - 1];
      assert top.events + [] == top.events;
    }
  }

  function Rooted(s: State, roots: nat): State {
    if s.stack == [] then s.(roots := s.roots + roots) else s
  }

  /** A well-bracketed log adds its effective events, and its top-level calls, to whatever was open. */
  lemma {:induction false} WrittenRuns(f: Forest, s: State, program: string)
    ensures Steps(s, Written(f, |s.stack|), program)
         == Committed(Rooted(Staged(s, Effective(f, OwnTop(s, program), program)), Roots(f, program)))
    decreases f, 0
  {
    hide Step, Staged;
    var d, own := |s.stack|, OwnTop(s, program);
    match f
    case End => StagedNothing(s);
    case Noise(text, rest) =>
      StepIs(s, Other(text), program);
      assert Written(f, d)[1..] == Written(rest, d);
      WrittenRuns(rest, s, program);
    case Emit(payload, rest) =>
      EmitRuns(s, payload, program);
      assert Written(f, d)[1..] == Written(rest, d);
      var next := Step(s, Data(payload), program).value;
      var event := if own then [payload] else [];
      StagedTwice(s, event, Effective(rest, own, program));
      WrittenRuns(rest, next, program);
    case Call(p, body, success, rest) =>
      CallRuns(s, p, body, success, program);
      WrittenCall(p, body, success, rest, d);
      var call := [Invoke(p, d + 1)] + Written(body, d + 1) + [Complete(p, success)];
      var events := if success then Effective(body, p == program, program) else [];
      var next := Rooted(Staged(s, events), if p == program then 1 else 0);
      StepsAppend(s, call, Written(rest, d), program);
      StagedTwice(s, events, Effective(rest, own, program));
      RootedStaged(s, events, Effective(rest, own, program), if p == program then 1
        else 0, Roots(rest, program), program);
      WrittenRuns(rest, next, program);
  }

  lemma WrittenCall(p: string, body: Forest, success: bool, rest: Forest, d: nat)
    ensures Written(Call(p, body, success, rest), d)
         == ([Invoke(p, d + 1)] + Written(body, d + 1) + [Complete(p, success)]) + Written(rest, d)
  {
  }

  lemma RootedStaged(s: State, a: seq<string>, b: seq<string>, m: nat, n: nat, program: string)
    ensures Rooted(Staged(Rooted(Staged(s, a), m), b), n) == Rooted(Staged(s, a + b), m + n)
    ensures |Rooted(Staged(s, a), m).stack| == |s.stack|
            && OwnTop(Rooted(Staged(s, a), m), program) == OwnTop(s, program)
  {
    StagedTwice(s, a, b);
  }

  lemma EmitRuns(s: State, payload: string, program: string)
    ensures var event := if OwnTop(s, program) then [payload] else [];
            Step(s, Data(payload), program) == Committed(Staged(s, event))
    ensures |Step(s, Data(payload), program).value.stack| == |s.stack|
    ensures OwnTop(Step(s, Data(payload), program).value, program) == OwnTop(s, program)
  {
    StagedNothing(s);
  }

  /** One call: its body runs in a frame of its own, which is dropped or handed outward whole. */
  lemma {:induction false} CallRuns(s: State, p: string, body: Forest, success: bool, program: string)
    ensures var call := [Invoke(p, |s.stack| + 1)] + Written(body, |s.stack| + 1) + [Complete(p, success)];
            var events := if success then Effective(body, p == program, program) else [];
            Steps(s, call, program) == Committed(Rooted(Staged(s, events), if p == program then 1 else 0))
    decreases body, 1
  {
    hide Step, Staged;
    var d := |s.stack|;
    var inside := Written(body, d + 1);
    var end := [Complete(p, success)];
    StepIs(s, Invoke(p, d + 1), program);
    var entered := Step(s, Invoke(p, d + 1), program).value;
    assert ([Invoke(p, d + 1)] + inside + end)[1..] == inside + end;
    StepsAppend(entered, inside, end, program);
    WrittenRuns(body, entered, program);
    var filled := Staged(entered, Effective(body, p == program, program));
    FrameFills(s, p, Effective(body, p == program, program), program);
    assert Steps(filled, end, program) == Step(filled, end[0], program) by { OneStep(filled, end[0], program); }
    FrameEnds(s, p, Effective(body, p == program, program), success, program);
  }

  lemma OneStep(s: State, line: Line, program: string)
    ensures Steps(s, [line], program) == Step(s, line, program)
  {
    hide Step;
    assert [line][1..] == [];
  }

  function Entered(s: State, p: string, program: string): State {
    State(s.stack + [Frame(p, [])], s.committed, if s.stack == [] && p == program then s.roots + 1 else s.roots)
  }

  lemma FrameFills(s: State, p: string, events: seq<string>, program: string)
    ensures var entered := Entered(s, p, program);
            && OwnTop(entered, program) == (p == program) && |entered.stack| == |s.stack| + 1
            && Staged(entered, events) == entered.(stack := s.stack + [Frame(p, events)])
            && forall n :: Rooted(Staged(entered, events), n) == Staged(entered, events)
  {
    var entered := Entered(s, p, program);
    assert [] + events == events;
    assert entered.stack[|s.stack| := Frame(p, events)] == s.stack + [Frame(p, events)];
  }

  lemma FrameEnds(s: State, p: string, events: seq<string>, success: bool, program: string)
    ensures var filled := Entered(s, p, program).(stack := s.stack + [Frame(p, events)]);
            Step(filled, Complete(p, success), program)
            == Committed(Rooted(Staged(s, if success then events else []), if p == program then 1 else 0))
  {
    var filled := Entered(s, p, program).(stack := s.stack + [Frame(p, events)]);
    assert filled.stack[..|s.stack|] == s.stack;
    StagedNothing(s);
  }

  // -------------------------------------------------------------- what it accepts

  /** Reads a forest off the lines, up to a completion it does not contain. */
  function Read(lines: seq<Line>): (r: (Forest, seq<Line>))
    ensures |r.1| <= |lines|
    decreases |lines|
  {
    if lines == [] then (End, []) else
    match lines[0]
    case Complete(_, _) => (End, lines)
    case Other(text) => var (f, rest) := Read(lines[1..]); (Noise(text, f), rest)
    case Data(payload) => var (f, rest) := Read(lines[1..]); (Emit(payload, f), rest)
    case Invoke(p, _) =>
      var (body, after) := Read(lines[1..]);
      if after == [] || !after[0].Complete? then (End, lines) else
      var (f, rest) := Read(after[1..]);
      (Call(p, body, after[0].success, f), rest)
  }

  /** Lines the machine does not reject and after which nothing stays open are a well-bracketed log
      up to the completion of an open frame. */
  lemma {:induction false} AcceptedIsWritten(lines: seq<Line>, s: State, program: string)
    requires Steps(s, lines, program).Committed? && Steps(s, lines, program).value.stack == []
    ensures var (f, rest) := Read(lines);
            && lines == Written(f, |s.stack|) + rest && (rest != [] ==> rest[0].Complete?)
            && (rest == [] ==> s.stack == [])
    decreases |lines|
  {
    hide Step, Staged, Written;
    if lines != [] {
      StepIs(s, lines[0], program);
      match lines[0]
      case Complete(_, _) => WrittenEnd(|s.stack|, lines);
      case Other(text) =>
        AcceptedIsWritten(lines[1..], s, program);
        var (f, rest) := Read(lines[1..]);
        WrittenNoise(text, f, |s.stack|, rest);
        assert lines == [lines[0]] + lines[1..];
      case Data(payload) =>
        EmitRuns(s, payload, program);
        AcceptedIsWritten(lines[1..], Step(s, lines[0], program).value, program);
        var (f, rest) := Read(lines[1..]);
        WrittenEmit(payload, f, |s.stack|, rest);
        assert lines == [lines[0]] + lines[1..];
      case Invoke(p, depth) => AcceptedCall(lines, s, program);
    } else {
      WrittenEnd(|s.stack|, lines);
    }
  }

  lemma WrittenEnd(d: nat, lines: seq<Line>)
    ensures lines == Written(End, d) + lines
  {
  }

  lemma WrittenNoise(text: string, f: Forest, d: nat, rest: seq<Line>)
    ensures [Other(text)] + (Written(f, d) + rest) == Written(Noise(text, f), d) + rest
  {
  }

  lemma WrittenEmit(payload: string, f: Forest, d: nat, rest: seq<Line>)
    ensures [Data(payload)] + (Written(f, d) + rest) == Written(Emit(payload, f), d) + rest
  {
  }

  /** After the body of a call comes its own completion, and the machine goes on as before the call. */
  lemma BodyEnds(body: Forest, after: seq<Line>, s: State, p: string, program: string)
    requires Steps(Entered(s, p, program), Written(body, |s.stack| + 1) + after, program).Committed?
    requires after != [] && after[0].Complete?
    ensures after[0].program == p
    ensures var events := if after[0].success then Effective(body, p == program, program) else [];
            Steps(Entered(s, p, program), Written(body, |s.stack| + 1) + after, program)
            == Steps(Rooted(Staged(s, events), if p == program then 1 else 0), after[1..], program)
  {
    hide Step, Staged, Written;
    var entered := Entered(s, p, program);
    StepsAppend(entered, Written(body, |s.stack| + 1), after, program);
    WrittenRuns(body, entered, program);
    var events := Effective(body, p == program, program);
    FrameFills(s, p, events, program);
    StepIs(Staged(entered, events), after[0], program);
    FrameEnds(s, p, events, after[0].success, program);
  }

  lemma {:induction false} AcceptedCall(lines: seq<Line>, s: State, program: string)
    requires lines != [] && lines[0].Invoke?
    requires Steps(s, lines, program).Committed? && Steps(s, lines, program).value.stack == []
    ensures var (f, rest) := Read(lines);
            && lines == Written(f, |s.stack|) + rest && (rest != [] ==> rest[0].Complete?)
            && (rest == [] ==> s.stack == [])
    decreases |lines|, 0
  {
    hide Step, Staged, Written, Rooted;
    var p, d := lines[0].program, |s.stack|;
    StepIs(s, lines[0], program);
    AcceptedIsWritten(lines[1..], Entered(s, p, program), program);
    var (body, after) := Read(lines[1..]);
    BodyEnds(body, after, s, p, program);
    var events := if after[0].success then Effective(body, p == program, program) else [];
    var left := Rooted(Staged(s, events), if p == program then 1 else 0);
    RootedStaged(s, events, [], if p == program then 1 else 0, 0, program);
    AcceptedIsWritten(after[1..], left, program);
    var (f, rest) := Read(after[1..]);
    WrittenCall(p, body, after[0].success, f, d);
    CallRead(lines, body, after, f, rest, d);
  }

  lemma CallRead(lines: seq<Line>, body: Forest, after: seq<Line>, f: Forest, rest: seq<Line>, d: nat)
    requires lines != [] && lines[0].Invoke? && lines[0] == Invoke(lines[0].program, d + 1)
             && lines[1..] == Written(body, d + 1) + after
    requires after != [] && after[0].Complete? && after[0] == Complete(lines[0].program, after[0].success)
             && after[1..] == Written(f, d) + rest
    ensures lines == Written(Call(lines[0].program, body, after[0].success, f), d) + rest
  {
    hide Written;
    WrittenCall(lines[0].program, body, after[0].success, f, d);
    assert lines == [lines[0]] + lines[1..] && after == [after[0]] + after[1..];
  }

  /** The log of a transaction is accepted exactly when it is well bracketed, depths and program names
      matching, with an own call at the top for each of its instructions; then what is committed is
      exactly what took effect. */
  lemma CommitsWhatTookEffect(f: Forest, program: string)
    ensures Steps(START, Written(f, 0), program)
            == Committed(State([], Effective(f, false, program), Roots(f, program)))
  {
    hide Step;
    WrittenRuns(f, START, program);
    assert [] + Effective(f, false, program) == Effective(f, false, program);
  }

  lemma AcceptsOnlyBracketed(lines: seq<Line>, program: string) returns (f: Forest)
    requires Steps(START, lines, program).Committed? && Steps(START, lines, program).value.stack == []
    ensures lines == Written(f, 0)
  {
    hide Step, Staged;
    AcceptedIsWritten(lines, START, program);
    var (g, rest) := Read(lines);
    f := g;
    StepsAppend(START, Written(g, 0), rest, program);
    WrittenRuns(g, START, program);
    var end := Rooted(Staged(START, Effective(g, false, program)), Roots(g, program));
    StagedTwice(START, Effective(g, false, program), []);
    assert end.stack == [];
    CannotComplete(end, rest, program);
    assert Written(g, 0) + [] == Written(g, 0);
  }

  lemma CannotComplete(s: State, rest: seq<Line>, program: string)
    requires s.stack == [] && Steps(s, rest, program).Committed? && (rest != [] ==> rest[0].Complete?)
    ensures rest == []
  {
  }
}
