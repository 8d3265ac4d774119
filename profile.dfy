/**
 * The profiler of profile.go: a buffer of timing lines that is written out
 * once, when the hundredth commit has been logged, and ignores every call
 * after that.  The clock reading is a parameter and the file write is
 * returned as a value.
 */
module Profile {
  import opened Wrappers
  import opened GoStrings

  const TestCount: int := 100

  /** The one file write the profiler makes: a path and the text written there. */
  datatype FileWrite = FileWrite(path: string, content: string)

  datatype ProfileState = ProfileState(filePath: string, logs: seq<string>, count: int, beforeTime: int)

  /** The logs one after another, as WriteFile builds its content. */
  function Concat(logs: seq<string>): string
  {
    if logs == [] then "" else Concat(logs[..|logs| - 1]) + logs[|logs| - 1]
  }

  lemma {:induction false} ConcatAppend(a: seq<string>, b: seq<string>)
    ensures Concat(a + b) == Concat(a) + Concat(b)
    decreases |b|
  {
    if b == [] {
      assert a + b == a;
    } else {
      assert (a + b)[..|a + b| - 1] == a + b[..|b| - 1];
      ConcatAppend(a, b[..|b| - 1]);
    }
  }

  /** The command word: CheckTx when simulating, DeliveTx (sic) otherwise. */
  function Command(simulate: bool): string {
    if simulate then "CheckTx" else "DeliveTx"
  }

  /** One space-separated log line ending in a newline. */
  function LogLine(prefix: string, command: string, tag: string, value: int, postfix: string): (line: string)
    ensures line == prefix + " " + command + " " + tag + " " + FormatInt(value) + " " + postfix + "\n"
  {
    var n := FormatInt(value);
    JoinCons(prefix, [command, tag, n, postfix], " ");
    JoinCons(command, [tag, n, postfix], " ");
    JoinCons(tag, [n, postfix], " ");
    JoinCons(n, [postfix], " ");
    assert [prefix] + [command, tag, n, postfix] == [prefix, command, tag, n, postfix];
    assert [command] + [tag, n, postfix] == [command, tag, n, postfix];
    assert [tag] + [n, postfix] == [tag, n, postfix];
    assert [n] + [postfix] == [n, postfix];
    Join([prefix, command, tag, n, postfix], " ") + "\n"
  }

  datatype Step = Step(state: ProfileState, written: Option<FileWrite>)

  /**
   * AddLogs(prefix, postfix, simulate) at the given reading of the clock in
   * nanoseconds (the timestamp is in milliseconds, truncated as Go does).
   */
  function AddLogsSpec(s: ProfileState, prefix: string, postfix: string, simulate: bool, nowNanos: int): Step
  {
    if s.count == TestCount then
      Step(s.(count := s.count + 1), Some(FileWrite(s.filePath, Concat(s.logs))))
    else if s.count > TestCount then
      Step(s, None)
    else
      var command := Command(simulate);
      var ts := TruncDiv(nowNanos, 1000000);
      var logs := s.logs + [LogLine(prefix, command, "TimeStamp", ts, postfix)];
      if Contains(prefix, "Before") then
        Step(s.(logs := logs, beforeTime := ts), None)
      else
        var logs2 := logs + [LogLine(prefix, command, "Gap", ts - s.beforeTime, postfix)];
        Step(s.(logs := logs2, count := if Contains(prefix, "After Commit") then s.count + 1 else s.count), None)
  }

  class ProfileObject {
    var filePath: string
    var logs: seq<string>
    var count: int
    var beforeTime: int

    function State(): ProfileState
      reads this
    {
      ProfileState(filePath, logs, count, beforeTime)
    }

    /** NewProfileObject(fileName). */
    constructor (fileName: string)
      ensures State() == ProfileState("/tmp/" + fileName, [], 0, 0)
    {
      filePath := "/tmp/" + fileName;
      logs := [];
      count := 0;
      beforeTime := 0;
    }

    /** The write WriteFile makes: every log in order, at the object's path. */
    method WriteFile() returns (w: FileWrite)
      ensures w == FileWrite(filePath, Concat(logs))
    {
      var content := "";
      var i := 0;
      while i < |logs|
        invariant 0 <= i <= |logs|
        invariant content == Concat(logs[..i])
      {
        content := content + logs[i];
        assert logs[..i + 1][..i] == logs[..i];
        i := i + 1;
      }
      assert logs[..|logs|] == logs;
      w := FileWrite(filePath, content);
    }

    method AddLogs(prefix: string, postfix: string, simulate: bool, nowNanos: int) returns (written: Option<FileWrite>)
      modifies this
      ensures Step(State(), written) == AddLogsSpec(old(State()), prefix, postfix, simulate, nowNanos)
    {
      var testCount := TestCount;
      written := None;
      if count == testCount {
        var w := WriteFile();
        written := Some(w);
        count := count + 1;
        return;
      } else if count > testCount {
        return;
      }

      var command := "";
      if simulate {
        command := command + "CheckTx";
      } else {
        command := command + "DeliveTx";
      }
      assert command == Command(simulate);

      var timeStamp := TruncDiv(nowNanos, 1000000);
      var log := LogLine(prefix, command, "TimeStamp", timeStamp, postfix);
      logs := logs + [log];
      if Contains(prefix, "Before") {
        beforeTime := timeStamp;
        return;
      }
      var gap := timeStamp - beforeTime;
      log := LogLine(prefix, command, "Gap", gap, postfix);
      logs := logs + [log];
      if Contains(prefix, "After Commit") {
        count := count + 1;
      }
    }
  }

  // ----------------------------------------------------------- properties

  /** At the hundredth commit the buffer is written out whole, once, and nothing is appended. */
  lemma FlushAtLimit(s: ProfileState, prefix: string, postfix: string, simulate: bool, nowNanos: int)
    requires s.count == TestCount
    ensures var r := AddLogsSpec(s, prefix, postfix, simulate, nowNanos);
            && r.written == Some(FileWrite(s.filePath, Concat(s.logs)))
            && r.state == s.(count := 101)
  {
  }

  /** Past the limit every call is ignored. */
  lemma IgnoredAfterFlush(s: ProfileState, prefix: string, postfix: string, simulate: bool, nowNanos: int)
    requires s.count > TestCount
    ensures AddLogsSpec(s, prefix, postfix, simulate, nowNanos) == Step(s, None)
  {
  }

  /**
   * A "Before" prefix appends its timestamp line only, tagged CheckTx when
   * simulating and DeliveTx otherwise, and remembers the timestamp.
   */
  lemma BeforeRecordsTime(s: ProfileState, prefix: string, postfix: string, simulate: bool, nowNanos: int)
    requires s.count < TestCount && Contains(prefix, "Before")
    ensures var r := AddLogsSpec(s, prefix, postfix, simulate, nowNanos);
            var ts := TruncDiv(nowNanos, 1000000);
            var word := if simulate then "CheckTx" else "DeliveTx";
            && r.written.None?
            && r.state == s.(logs := s.logs + [LogLine(prefix, word, "TimeStamp", ts, postfix)], beforeTime := ts)
  {
  }

  /**
   * Any other prefix appends the timestamp line and the gap since the last
   * "Before" line; the count moves by one exactly when the prefix names
   * "After Commit".
   */
  lemma OtherAppendsGap(s: ProfileState, prefix: string, postfix: string, simulate: bool, nowNanos: int)
    requires s.count < TestCount && !Contains(prefix, "Before")
    ensures var r := AddLogsSpec(s, prefix, postfix, simulate, nowNanos);
            var ts := TruncDiv(nowNanos, 1000000);
            var word := if simulate then "CheckTx" else "DeliveTx";
            && r.written.None?
            && r.state.logs == s.logs + [LogLine(prefix, word, "TimeStamp", ts, postfix),
                                         LogLine(prefix, word, "Gap", ts - s.beforeTime, postfix)]
            && r.state.beforeTime == s.beforeTime && r.state.filePath == s.filePath
            && (r.state.count == s.count + 1 <==> Contains(prefix, "After Commit"))
            && (r.state.count == s.count <==> !Contains(prefix, "After Commit"))
  {
  }

  /** One call: the count never falls, never passes 101, and logs are only appended to. */
  lemma AddLogsMonotone(s: ProfileState, prefix: string, postfix: string, simulate: bool, nowNanos: int)
    requires 0 <= s.count <= TestCount + 1
    ensures var r := AddLogsSpec(s, prefix, postfix, simulate, nowNanos).state;
            && s.count <= r.count <= TestCount + 1
            && |s.logs| <= |r.logs| && r.logs[..|s.logs|] == s.logs
            && r.filePath == s.filePath
  {
  }

  // ------------------------------------------------------- runs of calls

  datatype Call = Call(prefix: string, postfix: string, simulate: bool, nowNanos: int)

  datatype Run = Run(state: ProfileState, writes: seq<FileWrite>)

  /** A sequence of AddLogs calls and every file write they make. */
  function RunCalls(s: ProfileState, calls: seq<Call>): Run
    decreases |calls|
  {
    if calls == [] then Run(s, [])
    else
      var c := calls[0];
      var step := AddLogsSpec(s, c.prefix, c.postfix, c.simulate, c.nowNanos);
      var rest := RunCalls(step.state, calls[1..]);
      Run(rest.state, (if step.written.Some? then [step.written.value] else []) + rest.writes)
  }

  /**
   * However many calls are made, the file is written at most once; once
   * written, never again; and the count stays within 0..101.
   */
  lemma {:induction false} WrittenAtMostOnce(s: ProfileState, calls: seq<Call>)
    requires 0 <= s.count <= TestCount + 1
    ensures var r := RunCalls(s, calls);
            && |r.writes| <= 1
            && (s.count == TestCount + 1 ==> r.writes == [])
            && s.count <= r.state.count <= TestCount + 1
            && r.state.filePath == s.filePath
    decreases |calls|
  {
    if calls != [] {
      var c := calls[0];
      AddLogsMonotone(s, c.prefix, c.postfix, c.simulate, c.nowNanos);
      var step := AddLogsSpec(s, c.prefix, c.postfix, c.simulate, c.nowNanos);
      WrittenAtMostOnce(step.state, calls[1..]);
      if step.written.Some? {
        assert step.state.count == TestCount + 1;
      }
    }
  }

  /** The text base is the start of the text content. */
  predicate Extends(content: string, base: string) {
    |base| <= |content| && content[..|base|] == base
  }

  /** Appending logs extends the concatenation. */
  lemma ConcatExtends(a: seq<string>, b: seq<string>)
    requires |a| <= |b| && b[..|a|] == a
    ensures Extends(Concat(b), Concat(a))
  {
    assert b == a + b[|a|..];
    ConcatAppend(a, b[|a|..]);
  }

  /**
   * The single write carries every line logged from the start up to the
   * hundredth commit: the logs the run started with come first.
   */
  lemma {:induction false} WriteHoldsEarlierLogs(s: ProfileState, calls: seq<Call>)
    requires 0 <= s.count <= TestCount + 1
    ensures forall w :: w in RunCalls(s, calls).writes ==> w.path == s.filePath && Extends(w.content, Concat(s.logs))
    decreases |calls|
  {
    if calls != [] {
      var c := calls[0];
      AddLogsMonotone(s, c.prefix, c.postfix, c.simulate, c.nowNanos);
      var step := AddLogsSpec(s, c.prefix, c.postfix, c.simulate, c.nowNanos);
      var t := step.state;
      WriteHoldsEarlierLogs(t, calls[1..]);
      ConcatExtends(s.logs, t.logs);
      var a, b := Concat(s.logs), Concat(t.logs);
      forall w | w in RunCalls(t, calls[1..]).writes
        ensures w.path == s.filePath && Extends(w.content, a)
      {
        assert Extends(w.content, b);
        assert w.content[..|a|] == w.content[..|b|][..|a|];
      }
    }
  }
}
