/** `FileSftpProgressMonitor` of LinuxConnetionHelper.java (lines 531-669):
    the byte counter JSch calls while a file is transferred, and the timer
    task that reports progress once a second. A run of the timer is an
    explicit call to `Tick`; what the monitor logs is a sequence of abstract
    progress lines. */
module ProgressMonitor {
  import opened JavaLang

  /** The lines a tick logs: `"已上传: " + t + " bytes "` (line 562), then
      either the percentage `"已上传: " + d + "%"` (line 609) or
      `"Sending progress message: " + t` (line 611). */
  datatype Progress =
    | Bytes(transfered: int)
    | Percent(transfered: int, fileSize: int)
    | Sending(transfered: int)

  /** `Timer.schedule` on a task that was scheduled before. */
  const TaskReused: string := "Task already scheduled or cancelled"

  /** The monitor's fields: the file size, whether a log was given, the bytes
      counted, `isEnd`, `isScheduled`, whether `timer` is set, whether the task
      was ever handed to a timer (a `TimerTask` can be scheduled once), and
      the lines logged so far. */
  datatype Meter = Meter(fileSize: int, hasLog: bool, transfered: int, isEnd: bool, isScheduled: bool,
                         hasTimer: bool, taskUsed: bool, output: seq<Progress>)

  /** Lines 548-555: nothing counted, not ended, no timer. */
  function NewMeter(fileSize: int, hasLog: bool): Meter {
    Meter(fileSize, hasLog, 0, false, false, false, false, [])
  }

  /** A scheduled monitor has a timer, and its task was handed to it. */
  predicate Valid(m: Meter) {
    m.isScheduled ==> m.hasTimer && m.taskUsed
  }

  /** `stop()` (lines 577-586): cancel and drop the timer, if there is one. */
  function Stopped(m: Meter): (r: Meter)
    ensures !r.hasTimer && (m.hasTimer ==> !r.isScheduled) && (!m.hasTimer ==> r == m)
    ensures r.transfered == m.transfered && r.isEnd == m.isEnd && r.taskUsed == m.taskUsed && r.output == m.output
  {
    if m.hasTimer then m.(hasTimer := false, isScheduled := false) else m
  }

  /** `start()` (lines 591-599): make a timer when there is none, then
      schedule the task on it, which throws when the task was scheduled
      before. */
  function Started(m: Meter): (r: (Option<JavaException>, Meter))
    ensures r.1.hasTimer && r.1.taskUsed
    ensures r.0.Some? <==> m.taskUsed
    ensures r.0.Some? ==> r.0.value == IllegalState(TaskReused) && r.1.isScheduled == m.isScheduled
    ensures r.0.None? ==> r.1.isScheduled
    ensures r.1.transfered == m.transfered && r.1.isEnd == m.isEnd && r.1.output == m.output
  {
    var m1 := m.(hasTimer := true);
    if m.taskUsed then (Some(IllegalState(TaskReused)), m1)
    else (None, m1.(taskUsed := true, isScheduled := true))
  }

  /** `count(l)` (lines 620-630). */
  function Counted(m: Meter, l: int): (r: (Result<bool>, Meter))
    ensures r.0 == Ok(false) <==> m.isEnd
    ensures r.0 == Ok(true) ==> r.1.transfered == m.transfered + l && r.1.isScheduled
    ensures r.0.Fail? ==> r.0.error == IllegalState(TaskReused) && r.1.transfered == m.transfered
    ensures r.1.output == m.output && r.1.isEnd == m.isEnd
  {
    if m.isEnd then (Ok(false), m)
    else if !m.isScheduled then
      var (e, m1) := Started(m);
      if e.Some? then (Fail(e.value), m1) else (Ok(true), m1.(transfered := m1.transfered + l))
    else (Ok(true), m.(transfered := m.transfered + l))
  }

  /** `run()` (lines 557-572), one firing of the timer. Without a log the
      first line throws NullPointerException. */
  function Ticked(m: Meter): (r: (Option<JavaException>, Meter))
    ensures r.1.transfered == m.transfered
    ensures r.1.isEnd <==> m.isEnd || m.transfered == m.fileSize
    ensures r.0.Some? <==> !m.isEnd && m.transfered != m.fileSize && !m.hasLog
    ensures r.0.Some? ==> r.0.value == NullPointer && r.1 == m
    ensures r.1.output == m.output
            || (|r.1.output| == |m.output| + 2 && r.1.output[..|m.output|] == m.output
                && r.1.output[|m.output|] == Bytes(m.transfered))
  {
    if m.isEnd then (None, Stopped(m))
    else if m.transfered == m.fileSize then (None, m.(isEnd := true))
    else if !m.hasLog then (Some(NullPointer), m)
    else
      var line := if m.fileSize != 0 then Percent(m.transfered, m.fileSize) else Sending(m.transfered);
      (None, m.(output := m.output + [Bytes(m.transfered), line]))
  }

  /** `end()` (lines 632-636) as written: it clears `isEnd`. */
  function Ended(m: Meter): (r: Meter)
    ensures !r.isEnd && r.transfered == m.transfered && r.isScheduled == m.isScheduled && r.output == m.output
  {
    m.(isEnd := false)
  }

  /** What `end()` is evidently meant to do: mark the transfer as ended. */
  function EndedIntended(m: Meter): Meter {
    m.(isEnd := true)
  }

  /** Every step keeps a scheduled monitor's timer. */
  lemma StepsKeepValid(m: Meter, l: int)
    requires Valid(m)
    ensures Valid(Stopped(m)) && Valid(Started(m).1) && Valid(Counted(m, l).1) && Valid(Ticked(m).1)
    ensures Valid(Ended(m)) && Valid(EndedIntended(m))
  {
  }

  /** An ended monitor refuses the bytes and changes nothing. */
  lemma CountAfterEnd(m: Meter, l: int)
    requires m.isEnd
    ensures Counted(m, l) == (Ok(false), m)
  {
  }

  /** A running monitor that is scheduled, or whose task was never scheduled,
      accepts the bytes, adds them and is scheduled afterwards; nothing is
      logged. */
  lemma CountWhileRunning(m: Meter, l: int)
    requires Valid(m) && !m.isEnd && (m.isScheduled || !m.taskUsed)
    ensures var (r, m1) := Counted(m, l);
            r == Ok(true) && m1.transfered == m.transfered + l && m1.isScheduled && m1.hasTimer
            && m1.output == m.output && !m1.isEnd && m1.fileSize == m.fileSize
  {
  }

  /** A running monitor that was stopped cannot be started again: its task
      was scheduled before, so `count` throws IllegalStateException and adds
      nothing. */
  lemma CountAfterStopThrows(m: Meter, l: int)
    requires !m.isEnd && !m.isScheduled && m.taskUsed
    ensures var (r, m1) := Counted(m, l);
            r == Fail(IllegalState(TaskReused)) && m1.transfered == m.transfered && m1.hasTimer
  {
  }

  /** A tick before the end with bytes still missing logs exactly the byte
      count and one progress line: the percentage when the size is known, the
      raw count otherwise. */
  lemma TickReports(m: Meter)
    requires !m.isEnd && m.transfered != m.fileSize && m.hasLog
    ensures var (e, m1) := Ticked(m);
            e.None? && m1 == m.(output := m1.output)
            && m1.output == m.output + [Bytes(m.transfered),
                                        if m.fileSize != 0 then Percent(m.transfered, m.fileSize)
                                        else Sending(m.transfered)]
  {
  }

  /** A tick that finds every byte counted marks the end and logs nothing;
      the tick after that stops the timer. */
  lemma TickFinishesThenStops(m: Meter)
    requires Valid(m) && !m.isEnd && m.transfered == m.fileSize
    ensures var m1 := Ticked(m).1;
            m1 == m.(isEnd := true) && Ticked(m1) == (None, Stopped(m1))
            && !Stopped(m1).isScheduled && !Stopped(m1).hasTimer && Stopped(m1).output == m.output
  {
  }

  /** `stop()` without a timer, e.g. before anything was counted, does
      nothing; stopping twice is stopping once. */
  lemma StopIsSafe(m: Meter)
    ensures !m.hasTimer ==> Stopped(m) == m
    ensures Stopped(Stopped(m)) == Stopped(m)
  {
  }

  /** As written, `end()` reopens a finished monitor: after the transfer of
      10 bytes was counted and a tick marked the end, `end()` clears `isEnd`,
      so 5 more bytes are accepted and the count passes the file size. */
  lemma EndReopensCount()
    ensures var m0 := NewMeter(10, true);
            var m1 := Counted(m0, 10).1;
            var m2 := Ticked(m1).1;
            var m3 := Ended(m2);
            var (r, m4) := Counted(m3, 5);
            Counted(m0, 10).0 == Ok(true) && m2.isEnd && r == Ok(true) && m4.transfered == 15
  {
    var m0 := NewMeter(10, true);
    CountWhileRunning(m0, 10);
    var m1 := Counted(m0, 10).1;
    TickFinishesThenStops(m1);
  }

  /** With `end()` marking the end, no bytes are accepted after it. */
  lemma EndIntendedStopsCount(m: Meter, l: int)
    ensures Counted(EndedIntended(m), l) == (Ok(false), EndedIntended(m))
  {
    CountAfterEnd(EndedIntended(m), l);
  }

  class FileSftpProgressMonitor {
    const fileSize: int
    /** `log != null`: only the two-argument constructor sets it. */
    const hasLog: bool
    var transfered: int
    var isEnd: bool
    var isScheduled: bool
    /** `timer != null`. */
    var hasTimer: bool
    /** The task's state is no longer VIRGIN. */
    var taskUsed: bool
    var output: seq<Progress>

    function State(): Meter
      reads this
    {
      Meter(fileSize, hasLog, transfered, isEnd, isScheduled, hasTimer, taskUsed, output)
    }

    constructor (fileSize: int, hasLog: bool)
      ensures State() == NewMeter(fileSize, hasLog)
    {
      this.fileSize := fileSize;
      this.hasLog := hasLog;
      transfered, isEnd, isScheduled, hasTimer, taskUsed, output := 0, false, false, false, false, [];
    }

    method Stop()
      modifies this
      ensures State() == Stopped(old(State()))
    {
      if hasTimer {
        hasTimer := false;
        isScheduled := false;
      }
    }

    method Start() returns (thrown: Option<JavaException>)
      modifies this
      ensures (thrown, State()) == Started(old(State()))
    {
      if !hasTimer {
        hasTimer := true;
      }
      if taskUsed {
        return Some(IllegalState(TaskReused));
      }
      taskUsed := true;
      isScheduled := true;
      thrown := None;
    }

    method Count(l: int) returns (r: Result<bool>)
      modifies this
      ensures (r, State()) == Counted(old(State()), l)
    {
      if isEnd {
        return Ok(false);
      }
      if !isScheduled {
        var thrown := Start();
        if thrown.Some? {
          return Fail(thrown.value);
        }
      }
      transfered := transfered + l;
      r := Ok(true);
    }

    /** `run()`. */
    method Tick() returns (thrown: Option<JavaException>)
      modifies this
      ensures (thrown, State()) == Ticked(old(State()))
    {
      thrown := None;
      if !isEnd {
        var t := transfered;
        if t != fileSize {
          if !hasLog {
            return Some(NullPointer);
          }
          ghost var before := output;
          output := output + [Bytes(t)];
          if fileSize != 0 {
            output := output + [Percent(t, fileSize)];
          } else {
            output := output + [Sending(t)];
          }
          assert output == before + [Bytes(t), output[|output| - 1]];
        } else {
          isEnd := true;
        }
      } else {
        Stop();
      }
    }

    method End()
      modifies this
      ensures State() == Ended(old(State()))
    {
      isEnd := false;
    }
  }
}
