/**
 * The step-synchronised output loop `MC_Task` of MCWorker.py.
 *
 * The board is seen through the UniversalLibrary calls the loop makes. The
 * free-running hardware counter is a finite trace of the values successive
 * `cbCIn32` reads return; every call the loop makes (and its sleep and its
 * skip report) is recorded in an event log. `Poll` and `Task` are the
 * specification of the loop as functions of the counter trace; `McTask` is
 * the loop itself, proved to produce exactly the log `Task` describes.
 */
module Scheduler {
  import opened Wrappers

  /** The raw samples one `cbAOutScan` sends over channels LowChan..HighChan. */
  type AnalogBlock = seq<int>

  /** The value one `cbDOut` writes to the digital port. */
  type DigitalWord = int

  datatype Event =
    | ConfigDigitalOut                            // cbDConfigPort(AUXPORT, DIGITALOUT)
    | ClearCounter                                // cbCLoad32(LOADREG1, 0)
    | ArmAnalog(step: nat, block: AnalogBlock)    // cbAOutScan of ao_data[step]
    | ReadCounter(count: nat)                     // cbCIn32, returning count
    | WriteDigital(step: nat, word: DigitalWord)  // cbDOut of do_data[step]
    | Sleep                                       // time.sleep(0.01)
    | Skipped(first: nat, last: nat)              // "Steps first through last were skipped"

  /**
   * How the loop stands when the counter trace is used up: it has left the
   * loop after the last step, it is still polling, or indexing `ao_data` or
   * `do_data` past its end raised IndexError.
   */
  datatype Outcome = Completed | StillPolling | IndexOutOfRange

  /** The calls a run made, how it stands, and how many counter values it consumed. */
  datatype Run = Run(log: seq<Event>, outcome: Outcome, consumed: nat)

  /**
   * One pass through the body of the `while True` loop: the calls it makes,
   * the ordinal it leaves in `step`, and the outcome if it leaves the loop.
   */
  datatype Iteration = Iteration(events: seq<Event>, next: nat, exit: Option<Outcome>)

  /** The pass that reads `count` while waiting for ordinal `step`, with `n == len(time_data)`. */
  function Iterate(aoData: seq<AnalogBlock>, doData: seq<DigitalWord>, n: nat, step: nat, count: nat): (it: Iteration)
    ensures it.events != [] && it.events[0] == ReadCounter(count)
    ensures it.next == step || (count == step && it.next == step + 1)
    ensures it.exit == Some(Completed) ==> it.next == n
  {
    if count < step then Iteration([ReadCounter(count), Sleep], step, None)
    else if count == step then
      if step >= |doData| then Iteration([ReadCounter(count)], step, Some(IndexOutOfRange))
      else if step + 1 == n then Iteration([ReadCounter(count), WriteDigital(step, doData[step])], step + 1, Some(Completed))
      else if step + 1 >= |aoData| then
        Iteration([ReadCounter(count), WriteDigital(step, doData[step])], step + 1, Some(IndexOutOfRange))
      else Iteration([ReadCounter(count), WriteDigital(step, doData[step]), ArmAnalog(step + 1, aoData[step + 1])], step + 1, None)
    else Iteration([ReadCounter(count), Skipped(step, count - 1)], step, None)
  }

  /**
   * The polling loop from ordinal `step` on, with `n == len(time_data)`,
   * when the remaining counter reads return `counts` in order.
   */
  function Poll(aoData: seq<AnalogBlock>, doData: seq<DigitalWord>, n: nat, step: nat, counts: seq<nat>): (r: Run)
    decreases |counts|
  {
    if counts == [] then Run([], StillPolling, 0)
    else
      var it := Iterate(aoData, doData, n, step, counts[0]);
      if it.exit.Some? then Run(it.events, it.exit.value, 1)
      else
        var rest := Poll(aoData, doData, n, it.next, counts[1..]);
        Run(it.events + rest.log, rest.outcome, rest.consumed + 1)
  }

  /** All of `MC_Task(ao_data, do_data, time_data)`, when the counter reads return `counts`. */
  function Task(aoData: seq<AnalogBlock>, doData: seq<DigitalWord>, timeData: seq<real>, counts: seq<nat>): (r: Run)
    ensures |r.log| >= 2 && r.log[0] == ConfigDigitalOut && r.log[1] == ClearCounter
  {
    if |aoData| == 0 then Run([ConfigDigitalOut, ClearCounter], IndexOutOfRange, 0)
    else
      var p := Poll(aoData, doData, |timeData|, 0, counts);
      Run([ConfigDigitalOut, ClearCounter, ArmAnalog(0, aoData[0])] + p.log, p.outcome, p.consumed)
  }

  // ------------------------------------------------------------ projections

  predicate IsOutput(e: Event) {
    e.ArmAnalog? || e.WriteDigital?
  }

  /** The data the loop sends to the outputs, in order: analog arms and digital commits. */
  function Outputs(log: seq<Event>): seq<Event>
  {
    if log == [] then [] else (if IsOutput(log[0]) then [log[0]] else []) + Outputs(log[1..])
  }

  /** The counter values the loop read, in order. */
  function Reads(log: seq<Event>): seq<nat>
  {
    if log == [] then [] else (if log[0].ReadCounter? then [log[0].count] else []) + Reads(log[1..])
  }

  /** Projecting a log that starts with `e`. */
  lemma ProjectCons(e: Event, rest: seq<Event>)
    ensures Outputs([e] + rest) == (if IsOutput(e) then [e] else []) + Outputs(rest)
    ensures Reads([e] + rest) == (if e.ReadCounter? then [e.count] else []) + Reads(rest)
  {
    assert ([e] + rest)[0] == e;
    assert ([e] + rest)[1..] == rest;
  }

  /** Projections distribute over concatenation of logs. */
  lemma {:induction false} ProjectAppend(a: seq<Event>, b: seq<Event>)
    ensures Outputs(a + b) == Outputs(a) + Outputs(b)
    ensures Reads(a + b) == Reads(a) + Reads(b)
    decreases |a|
  {
    if a == [] {
      assert a + b == b;
    } else {
      assert a + b == [a[0]] + (a[1..] + b);
      assert a == [a[0]] + a[1..];
      ProjectCons(a[0], a[1..] + b);
      ProjectCons(a[0], a[1..]);
      ProjectAppend(a[1..], b);
    }
  }

  /** Projecting a log of two calls. */
  lemma Project2(x: Event, y: Event)
    ensures Outputs([x, y]) == (if IsOutput(x) then [x] else []) + (if IsOutput(y) then [y] else [])
    ensures Reads([x, y]) == (if x.ReadCounter? then [x.count] else []) + (if y.ReadCounter? then [y.count] else [])
  {
    assert [x, y] == [x] + ([y] + []);
    ProjectCons(x, [y] + []);
    ProjectCons(y, []);
  }

  /**
   * What one pass reads, outputs and leaves in `step`: it reads the counter
   * once, as its first call; it outputs only when the read equals `step`,
   * and then the commit of `step` and, unless it leaves the loop, the arm of
   * `step + 1`.
   */
  lemma IterateFacts(aoData: seq<AnalogBlock>, doData: seq<DigitalWord>, n: nat, step: nat, count: nat)
    ensures var it := Iterate(aoData, doData, n, step, count);
      && |it.events| >= 1 && it.events[0] == ReadCounter(count)
      && Reads(it.events) == [count]
      && it.next == (if count == step && step < |doData| then step + 1 else step)
      && (count != step ==> it.exit.None? && Outputs(it.events) == [])
      && (count == step && step >= |doData| ==> it.exit == Some(IndexOutOfRange) && Outputs(it.events) == [])
      && (count == step && step < |doData| ==>
            (if step + 1 == n then it.exit == Some(Completed)
             else if step + 1 >= |aoData| then it.exit == Some(IndexOutOfRange)
             else it.exit.None?)
            && Outputs(it.events) == [WriteDigital(step, doData[step])]
                 + (if it.exit.None? then [ArmAnalog(step + 1, aoData[step + 1])] else []))
  {
    var it := Iterate(aoData, doData, n, step, count);
    if count != step {
      Project2(ReadCounter(count), it.events[1]);
      assert it.events == [ReadCounter(count), it.events[1]];
    } else if step >= |doData| {
      ProjectCons(ReadCounter(count), []);
      assert it.events == [ReadCounter(count)] + [];
    } else if it.exit.Some? {
      Project2(ReadCounter(count), WriteDigital(step, doData[step]));
    } else {
      var a := ArmAnalog(step + 1, aoData[step + 1]);
      Project2(ReadCounter(count), WriteDigital(step, doData[step]));
      ProjectAppend([ReadCounter(count), WriteDigital(step, doData[step])], [a]);
      ProjectCons(a, []);
      assert it.events == [ReadCounter(count), WriteDigital(step, doData[step])] + [a];
      assert [a] + [] == [a];
    }
  }

  /** Proof helper, unfolding `Poll` once. The run after the first read: the pass that read it, then (if it stayed in the loop) the rest of the run. */
  lemma PollUnfold(aoData: seq<AnalogBlock>, doData: seq<DigitalWord>, n: nat, step: nat, counts: seq<nat>)
    requires counts != []
    ensures var it, r := Iterate(aoData, doData, n, step, counts[0]), Poll(aoData, doData, n, step, counts);
      var rest := Poll(aoData, doData, n, it.next, counts[1..]);
      && (it.exit.Some? ==> r.log == it.events && r.outcome == it.exit.value)
      && (it.exit.None? ==> r.log == it.events + rest.log && r.outcome == rest.outcome)
  {
  }

  /**
   * The intended output schedule from ordinal `k` to `n - 1`: the analog arm
   * of each step, then its digital commit.
   */
  function Schedule(aoData: seq<AnalogBlock>, doData: seq<DigitalWord>, n: nat, k: nat): seq<Event>
    requires n <= |aoData| && n <= |doData|
    decreases n - k
  {
    if k >= n then [] else [ArmAnalog(k, aoData[k]), WriteDigital(k, doData[k])] + Schedule(aoData, doData, n, k + 1)
  }

  /** The schedule from `k` lists, for each step j in k..n-1, arm j at position 2(j-k) and commit j right after it. */
  lemma {:induction false} ScheduleAt(aoData: seq<AnalogBlock>, doData: seq<DigitalWord>, n: nat, k: nat)
    requires k <= n <= |aoData| && n <= |doData|
    ensures var s := Schedule(aoData, doData, n, k);
      && |s| == 2 * (n - k)
      && forall j :: k <= j < n ==>
           s[2 * (j - k)] == ArmAnalog(j, aoData[j]) && s[2 * (j - k) + 1] == WriteDigital(j, doData[j])
    decreases n - k
  {
    if k < n {
      ScheduleAt(aoData, doData, n, k + 1);
      var s, t := Schedule(aoData, doData, n, k), Schedule(aoData, doData, n, k + 1);
      assert s == [ArmAnalog(k, aoData[k]), WriteDigital(k, doData[k])] + t;
      forall j | k < j < n
        ensures s[2 * (j - k)] == ArmAnalog(j, aoData[j]) && s[2 * (j - k) + 1] == WriteDigital(j, doData[j])
      {
        assert s[2 * (j - k)] == t[2 * (j - (k + 1))];
        assert s[2 * (j - k) + 1] == t[2 * (j - (k + 1)) + 1];
      }
    }
  }

  // --------------------------------------------------------------- lemmas

  /**
   * From a step that is due, with `ao_data` and `do_data` covering every
   * ordinal below `n`: no index is out of range, the outputs are a prefix
   * of the schedule that starts with the commit of `step`, and the loop has
   * completed exactly when the whole schedule has been written.
   */
  lemma {:induction false} PollFollowsSchedule(aoData: seq<AnalogBlock>, doData: seq<DigitalWord>, n: nat, step: nat, counts: seq<nat>)
    requires step < n <= |aoData| && n <= |doData|
    ensures var r := Poll(aoData, doData, n, step, counts);
      && r.outcome != IndexOutOfRange
      && Outputs(r.log) <= Schedule(aoData, doData, n, step)[1..]
      && (r.outcome == Completed <==> Outputs(r.log) == Schedule(aoData, doData, n, step)[1..])
    decreases |counts|
  {
    var r := Poll(aoData, doData, n, step, counts);
    var sched := Schedule(aoData, doData, n, step);
    var later := Schedule(aoData, doData, n, step + 1);
    assert sched[1..] == [WriteDigital(step, doData[step])] + later by {
      assert sched == [ArmAnalog(step, aoData[step]), WriteDigital(step, doData[step])] + later;
    }
    if counts != [] {
      var it := Iterate(aoData, doData, n, step, counts[0]);
      var rest := Poll(aoData, doData, n, it.next, counts[1..]);
      IterateFacts(aoData, doData, n, step, counts[0]);
      PollUnfold(aoData, doData, n, step, counts);
      if it.exit.None? {
        PollFollowsSchedule(aoData, doData, n, it.next, counts[1..]);
        ProjectAppend(it.events, rest.log);
        var next := Schedule(aoData, doData, n, it.next)[1..];
        if counts[0] == step {
          assert later == [ArmAnalog(step + 1, aoData[step + 1])] + next by {
            var t := Schedule(aoData, doData, n, step + 1);
            assert t == [ArmAnalog(step + 1, aoData[step + 1]), WriteDigital(step + 1, doData[step + 1])] + Schedule(aoData, doData, n, step + 2);
          }
          var head := [WriteDigital(step, doData[step]), ArmAnalog(step + 1, aoData[step + 1])];
          AppendAssociates([WriteDigital(step, doData[step])], [ArmAnalog(step + 1, aoData[step + 1])], next);
          PrefixUnderHead(head, Outputs(rest.log), next);
        } else {
          assert Outputs(r.log) == Outputs(rest.log) by {
            assert Outputs(it.events) + Outputs(rest.log) == [] + Outputs(rest.log);
          }
        }
      } else {
        assert later == [];
      }
    }
  }

  /** Putting the same head before two sequences keeps the prefix order and equality between them. */
  lemma PrefixUnderHead<T>(head: seq<T>, x: seq<T>, y: seq<T>)
    ensures x <= y <==> head + x <= head + y
    ensures x == y <==> head + x == head + y
  {
    if head + x == head + y {
      assert x == (head + x)[|head|..] && y == (head + y)[|head|..];
    }
    if head + x <= head + y {
      assert |x| <= |y|;
      assert forall i :: 0 <= i < |x| ==> x[i] == (head + x)[|head| + i] == (head + y)[|head| + i] == y[i];
    }
  }

  /**
   * With `len(time_data) >= 1` and `ao_data`, `do_data` at least that long:
   * no IndexError, the outputs follow the schedule arm 0, commit 0, arm 1,
   * commit 1, ..., and the task has completed exactly when all of it has been
   * written.
   */
  lemma TaskFollowsSchedule(aoData: seq<AnalogBlock>, doData: seq<DigitalWord>, timeData: seq<real>, counts: seq<nat>)
    requires 1 <= |timeData| <= |aoData| && |timeData| <= |doData|
    ensures var r := Task(aoData, doData, timeData, counts);
      && r.outcome != IndexOutOfRange
      && Outputs(r.log) <= Schedule(aoData, doData, |timeData|, 0)
      && (r.outcome == Completed <==> Outputs(r.log) == Schedule(aoData, doData, |timeData|, 0))
  {
    var n := |timeData|;
    var p := Poll(aoData, doData, n, 0, counts);
    PollFollowsSchedule(aoData, doData, n, 0, counts);
    var pre := [ConfigDigitalOut, ClearCounter, ArmAnalog(0, aoData[0])];
    ProjectAppend(pre, p.log);
    ProjectAppend([ConfigDigitalOut, ClearCounter], [ArmAnalog(0, aoData[0])]);
    Project2(ConfigDigitalOut, ClearCounter);
    ProjectCons(ArmAnalog(0, aoData[0]), []);
    assert pre == [ConfigDigitalOut, ClearCounter] + ([ArmAnalog(0, aoData[0])] + []);
    var s := Schedule(aoData, doData, n, 0);
    assert s == [s[0]] + s[1..];
  }

  /**
   * On completion exactly `n` analog arms and `n` digital commits have been
   * made, alternating: arm k is output number 2k and carries `ao_data[k]`,
   * commit k is output number 2k+1 and carries `do_data[k]`.
   */
  lemma CompletedRunShape(aoData: seq<AnalogBlock>, doData: seq<DigitalWord>, timeData: seq<real>, counts: seq<nat>)
    requires 1 <= |timeData| <= |aoData| && |timeData| <= |doData|
    requires Task(aoData, doData, timeData, counts).outcome == Completed
    ensures var out := Outputs(Task(aoData, doData, timeData, counts).log);
      && |out| == 2 * |timeData|
      && forall k :: 0 <= k < |timeData| ==>
           out[2 * k] == ArmAnalog(k, aoData[k]) && out[2 * k + 1] == WriteDigital(k, doData[k])
  {
    TaskFollowsSchedule(aoData, doData, timeData, counts);
    ScheduleAt(aoData, doData, |timeData|, 0);
  }

  /** Within one pass, a commit that is not the last is followed at once by the arm of the next step. */
  lemma IterateCommitThenArm(aoData: seq<AnalogBlock>, doData: seq<DigitalWord>, n: nat, step: nat, count: nat)
    requires n <= |aoData|
    ensures var ev := Iterate(aoData, doData, n, step, count).events;
      forall i :: 0 <= i < |ev| && ev[i].WriteDigital? && ev[i].step + 1 < n ==>
        i + 1 < |ev| && ev[i + 1] == ArmAnalog(ev[i].step + 1, aoData[ev[i].step + 1])
  {
  }

  /**
   * A commit that is not the last is followed at once by the arm of the next
   * step: no counter read, sleep or report comes between them.
   */
  lemma {:induction false} CommitThenArm(aoData: seq<AnalogBlock>, doData: seq<DigitalWord>, n: nat, step: nat, counts: seq<nat>)
    requires n <= |aoData|
    ensures var log := Poll(aoData, doData, n, step, counts).log;
      forall i :: 0 <= i < |log| && log[i].WriteDigital? && log[i].step + 1 < n ==>
        i + 1 < |log| && log[i + 1] == ArmAnalog(log[i].step + 1, aoData[log[i].step + 1])
    decreases |counts|
  {
    if counts != [] {
      var it := Iterate(aoData, doData, n, step, counts[0]);
      var ev := it.events;
      var log := Poll(aoData, doData, n, step, counts).log;
      var rest := Poll(aoData, doData, n, it.next, counts[1..]).log;
      PollUnfold(aoData, doData, n, step, counts);
      IterateCommitThenArm(aoData, doData, n, step, counts[0]);
      if it.exit.None? {
        CommitThenArm(aoData, doData, n, it.next, counts[1..]);
        assert log == ev + rest;
        forall i | 0 <= i < |log| && log[i].WriteDigital? && log[i].step + 1 < n
          ensures i + 1 < |log| && log[i + 1] == ArmAnalog(log[i].step + 1, aoData[log[i].step + 1])
        {
          if i < |ev| {
            assert log[i] == ev[i] && log[i + 1] == ev[i + 1];
          } else {
            assert log[i] == rest[i - |ev|] && log[i + 1] == rest[i + 1 - |ev|];
          }
        }
      }
    }
  }

  /** Every analog block the loop arms belongs to a later step than the one it starts from. */
  lemma {:induction false} PollArmsLaterSteps(aoData: seq<AnalogBlock>, doData: seq<DigitalWord>, n: nat, step: nat, counts: seq<nat>)
    ensures var log := Poll(aoData, doData, n, step, counts).log;
      forall i :: 0 <= i < |log| && log[i].ArmAnalog? ==> log[i].step > step
    decreases |counts|
  {
    if counts != [] {
      var it := Iterate(aoData, doData, n, step, counts[0]);
      var log := Poll(aoData, doData, n, step, counts).log;
      var rest := Poll(aoData, doData, n, it.next, counts[1..]).log;
      PollUnfold(aoData, doData, n, step, counts);
      IterateFacts(aoData, doData, n, step, counts[0]);
      PollArmsLaterSteps(aoData, doData, n, it.next, counts[1..]);
      var k := |it.events|;
      if it.exit.None? {
        forall i | k <= i < |log| && log[i].ArmAnalog? ensures log[i].step > step {
          assert log[i] == rest[i - k];
        }
      }
    }
  }

  /**
   * Analog block 0 is armed exactly once, as the third call of the task, and
   * before the first counter read.
   */
  lemma PreArmOnceBeforeFirstRead(aoData: seq<AnalogBlock>, doData: seq<DigitalWord>, timeData: seq<real>, counts: seq<nat>)
    requires |aoData| > 0
    ensures var log := Task(aoData, doData, timeData, counts).log;
      && |log| >= 3
      && log[..3] == [ConfigDigitalOut, ClearCounter, ArmAnalog(0, aoData[0])]
      && (forall i :: 0 <= i < |log| && log[i].ArmAnalog? && log[i].step == 0 ==> i == 2)
      && (forall i :: 0 <= i < |log| && log[i].ReadCounter? ==> i > 2)
  {
    var log := Task(aoData, doData, timeData, counts).log;
    var p := Poll(aoData, doData, |timeData|, 0, counts).log;
    var pre := [ConfigDigitalOut, ClearCounter, ArmAnalog(0, aoData[0])];
    PollArmsLaterSteps(aoData, doData, |timeData|, 0, counts);
    assert var q := Poll(aoData, doData, |timeData|, 0, counts).log;
      forall i :: 0 <= i < |q| && q[i].ArmAnalog? ==> q[i].step > 0;
    assert log == pre + p;
    assert log[..3] == pre;
    forall i | 0 <= i < |log| && (log[i].ArmAnalog? || log[i].ReadCounter?)
      ensures log[i].ArmAnalog? && log[i].step == 0 ==> i == 2
      ensures log[i].ReadCounter? ==> i > 2
    {
      if i < 3 {
        assert log[i] == pre[i];
      } else {
        assert log[i] == p[i - 3];
      }
    }
  }

  /** What a pass that does not commit adds after its read: a sleep below `step`, a skip report above it. */
  function Stall(step: nat, count: nat): Event
    requires count != step
  {
    if count < step then Sleep else Skipped(step, count - 1)
  }

  /** The calls made by a run of reads none of which equals `step`. */
  function StallLog(step: nat, stalls: seq<nat>): seq<Event>
    requires forall i :: 0 <= i < |stalls| ==> stalls[i] != step
  {
    if stalls == [] then [] else [ReadCounter(stalls[0]), Stall(step, stalls[0])] + StallLog(step, stalls[1..])
  }

  /** Stalls write nothing: the calls are one read per stall, each followed by one other call. */
  lemma {:induction false} StallLogProjections(step: nat, stalls: seq<nat>)
    requires forall i :: 0 <= i < |stalls| ==> stalls[i] != step
    ensures var log := StallLog(step, stalls);
      |log| == 2 * |stalls| && Outputs(log) == [] && Reads(log) == stalls
    decreases |stalls|
  {
    if stalls != [] {
      var pair := [ReadCounter(stalls[0]), Stall(step, stalls[0])];
      StallLogProjections(step, stalls[1..]);
      Project2(ReadCounter(stalls[0]), Stall(step, stalls[0]));
      ProjectAppend(pair, StallLog(step, stalls[1..]));
      assert stalls == [stalls[0]] + stalls[1..];
    }
  }

  /** Stall number i is the read at position 2i and, right after it, a sleep or a skip report of ordinals `step` to the value read minus one. */
  lemma {:induction false} StallLogAt(step: nat, stalls: seq<nat>)
    requires forall i :: 0 <= i < |stalls| ==> stalls[i] != step
    ensures var log := StallLog(step, stalls);
      && |log| == 2 * |stalls|
      && forall i :: 0 <= i < |stalls| ==>
           log[2 * i] == ReadCounter(stalls[i])
           && log[2 * i + 1] == (if stalls[i] < step then Sleep else Skipped(step, stalls[i] - 1))
    decreases |stalls|
  {
    if stalls != [] {
      var log, tail := StallLog(step, stalls), StallLog(step, stalls[1..]);
      StallLogAt(step, stalls[1..]);
      forall i | 1 <= i < |stalls|
        ensures log[2 * i] == tail[2 * (i - 1)] && log[2 * i + 1] == tail[2 * (i - 1) + 1]
        ensures stalls[i] == stalls[1..][i - 1]
      {
      }
    }
  }

  /** Proof helper, unfolding `Poll` at a stall. A single read that is not `step`: a read, a stall event, and then the loop goes on from the same `step`. */
  lemma StallUnfold(aoData: seq<AnalogBlock>, doData: seq<DigitalWord>, n: nat, step: nat, count: nat, counts: seq<nat>)
    requires count != step
    ensures var r, after := Poll(aoData, doData, n, step, [count] + counts), Poll(aoData, doData, n, step, counts);
      r.outcome == after.outcome && r.log == [ReadCounter(count), Stall(step, count)] + after.log
  {
    assert ([count] + counts)[0] == count;
    assert ([count] + counts)[1..] == counts;
    PollUnfold(aoData, doData, n, step, [count] + counts);
  }

  /**
   * Reads that do not equal `step` (the idle branch, counter below `step`,
   * and the skip branch, counter above it) write nothing and leave `step`
   * as it was: after them the loop goes on exactly as it would have from
   * `step` without them.
   */
  lemma {:induction false} StallsLeaveStepUnchanged(aoData: seq<AnalogBlock>, doData: seq<DigitalWord>, n: nat, step: nat, stalls: seq<nat>, counts: seq<nat>)
    requires forall i :: 0 <= i < |stalls| ==> stalls[i] != step
    ensures var r, after := Poll(aoData, doData, n, step, stalls + counts), Poll(aoData, doData, n, step, counts);
      && r.outcome == after.outcome
      && r.log == StallLog(step, stalls) + after.log
    decreases |stalls|
  {
    if stalls == [] {
      assert stalls + counts == counts;
    } else {
      var first, rest := stalls[0], stalls[1..];
      var pair := [ReadCounter(first), Stall(step, first)];
      var r := Poll(aoData, doData, n, step, stalls + counts);
      var mid, after := Poll(aoData, doData, n, step, rest + counts), Poll(aoData, doData, n, step, counts);
      assert r == Poll(aoData, doData, n, step, [first] + (rest + counts)) by {
        assert stalls + counts == [first] + (rest + counts);
      }
      StallUnfold(aoData, doData, n, step, first, rest + counts);
      StallsLeaveStepUnchanged(aoData, doData, n, step, rest, counts);
      assert StallLog(step, stalls) == pair + StallLog(step, rest);
      AppendAssociates(pair, StallLog(step, rest), after.log);
    }
  }

  /**
   * Once the counter has run past `step`, a counter that never decreases
   * keeps it there: every read reports a skip from `step` to the value read
   * minus one, the loop writes nothing more and never completes.
   */
  lemma MonotoneCounterAfterSkipStalls(aoData: seq<AnalogBlock>, doData: seq<DigitalWord>, n: nat, step: nat, counts: seq<nat>)
    requires |counts| > 0 && counts[0] > step
    requires forall i, j :: 0 <= i <= j < |counts| ==> counts[i] <= counts[j]
    ensures var r := Poll(aoData, doData, n, step, counts);
      && r.outcome == StillPolling
      && Outputs(r.log) == []
      && |r.log| == 2 * |counts|
      && forall i :: 0 <= i < |counts| ==>
           r.log[2 * i] == ReadCounter(counts[i]) && r.log[2 * i + 1] == Skipped(step, counts[i] - 1)
  {
    assert forall i :: 0 <= i < |counts| ==> counts[0] <= counts[i];
    StallsLeaveStepUnchanged(aoData, doData, n, step, counts, []);
    StallLogProjections(step, counts);
    StallLogAt(step, counts);
    ProjectAppend(StallLog(step, counts), []);
    assert counts + [] == counts;
    assert StallLog(step, counts) + [] == StallLog(step, counts);
  }

  /**
   * A counter that shows every ordinal from `step` to `n - 1` once, in
   * order, makes the loop complete.
   */
  lemma {:induction false} SteadyCounterCompletes(aoData: seq<AnalogBlock>, doData: seq<DigitalWord>, n: nat, step: nat)
    requires step < n <= |aoData| && n <= |doData|
    ensures Poll(aoData, doData, n, step, seq(n - step, i => step + i)).outcome == Completed
    decreases n - step
  {
    var counts := seq(n - step, i => step + i);
    if step + 1 < n {
      assert counts[1..] == seq(n - (step + 1), i => step + 1 + i);
      SteadyCounterCompletes(aoData, doData, n, step + 1);
    }
  }

  /**
   * The converse of safe indexing: when `ao_data` or `do_data` is shorter
   * than `len(time_data)`, a counter that shows every ordinal in turn drives
   * the loop into IndexError before it can complete.
   */
  lemma {:induction false} ShortDataRaises(aoData: seq<AnalogBlock>, doData: seq<DigitalWord>, n: nat, step: nat)
    requires step < n && step < |aoData|
    requires |aoData| < n || |doData| < n
    ensures Poll(aoData, doData, n, step, seq(n - step, i => step + i)).outcome == IndexOutOfRange
    decreases n - step
  {
    var counts := seq(n - step, i => step + i);
    if step < |doData| && step + 1 < |aoData| {
      assert counts[1..] == seq(n - (step + 1), i => step + 1 + i);
      ShortDataRaises(aoData, doData, n, step + 1);
    }
  }

  /**
   * Safe indexing needs both `len(ao_data) >= len(time_data)` and
   * `len(do_data) >= len(time_data)`: with either one shorter, the steady
   * counter 0, 1, ..., n-1 ends the task in IndexError.
   */
  lemma TaskShortDataRaises(aoData: seq<AnalogBlock>, doData: seq<DigitalWord>, timeData: seq<real>)
    requires |timeData| >= 1
    requires |aoData| < |timeData| || |doData| < |timeData|
    ensures Task(aoData, doData, timeData, seq(|timeData|, i => i)).outcome == IndexOutOfRange
  {
    if |aoData| > 0 {
      assert seq(|timeData|, i => i) == seq(|timeData| - 0, i => 0 + i);
      ShortDataRaises(aoData, doData, |timeData|, 0);
    }
  }

  /** Termination is tied to `len(time_data)` alone: once `step` has passed it, the loop never ends. */
  lemma {:induction false} PollPastEndNeverCompletes(aoData: seq<AnalogBlock>, doData: seq<DigitalWord>, n: nat, step: nat, counts: seq<nat>)
    requires n <= step
    ensures Poll(aoData, doData, n, step, counts).outcome != Completed
    decreases |counts|
  {
    if counts != [] {
      PollPastEndNeverCompletes(aoData, doData, n, step, counts[1..]);
      PollPastEndNeverCompletes(aoData, doData, n, step + 1, counts[1..]);
    }
  }

  /** With an empty `time_data` the task never completes, whatever the counter does. */
  lemma EmptyTimeDataNeverCompletes(aoData: seq<AnalogBlock>, doData: seq<DigitalWord>, counts: seq<nat>)
    ensures Task(aoData, doData, [], counts).outcome != Completed
  {
    PollPastEndNeverCompletes(aoData, doData, 0, 0, counts);
  }

  /**
   * The loop takes counter values only from the front of the trace, one per
   * pass: the values it read are a prefix of the trace, and all of it when it
   * is still polling.
   */
  lemma {:induction false} PollReadsPrefix(aoData: seq<AnalogBlock>, doData: seq<DigitalWord>, n: nat, step: nat, counts: seq<nat>)
    ensures var r := Poll(aoData, doData, n, step, counts);
      && r.consumed <= |counts|
      && Reads(r.log) == counts[..r.consumed]
      && (r.outcome == StillPolling ==> r.consumed == |counts|)
    decreases |counts|
  {
    if counts != [] {
      var it := Iterate(aoData, doData, n, step, counts[0]);
      var rest := Poll(aoData, doData, n, it.next, counts[1..]);
      PollUnfold(aoData, doData, n, step, counts);
      IterateFacts(aoData, doData, n, step, counts[0]);
      PollReadsPrefix(aoData, doData, n, it.next, counts[1..]);
      ProjectAppend(it.events, rest.log);
      assert counts[..1] == [counts[0]];
      assert counts[..rest.consumed + 1] == [counts[0]] + counts[1..][..rest.consumed];
    }
  }

  lemma AppendAssociates<T>(a: seq<T>, b: seq<T>, c: seq<T>)
    ensures (a + b) + c == a + (b + c)
  {
  }

  lemma DropOneMore<T>(s: seq<T>, k: nat)
    requires k < |s|
    ensures s[k..][1..] == s[k + 1..]
  {
  }

  /**
   * Proof helper for `PollLoop`'s invariant.
   * One pass of the loop, seen from the run it belongs to: if `done` followed
   * by the run from `step` is the whole task, then after the pass either the
   * task has ended with the pass, or `done` and the pass, followed by the run
   * from the pass's new `step`, are the whole task. Either way the pass
   * consumes one counter value.
   */
  lemma PassAdvances(aoData: seq<AnalogBlock>, doData: seq<DigitalWord>, n: nat, step: nat, before: seq<nat>, done: seq<Event>, taken: nat, target: Run)
    requires before != []
    requires var left := Poll(aoData, doData, n, step, before);
      target == Run(done + left.log, left.outcome, taken + left.consumed)
    ensures var it := Iterate(aoData, doData, n, step, before[0]);
      var rest := Poll(aoData, doData, n, it.next, before[1..]);
      && (it.exit.Some? ==> target == Run(done + it.events, it.exit.value, taken + 1))
      && (it.exit.None? ==> target == Run((done + it.events) + rest.log, rest.outcome, (taken + 1) + rest.consumed))
  {
    PollUnfold(aoData, doData, n, step, before);
  }


  /**
   * The second half of the worked run below: waiting for ordinal 1 of three,
   * the reads 1, 1, 2 commit step 1, arm block 2, sleep, and commit step 2.
   */
  lemma ThreeStepExampleFromOne(ao: seq<AnalogBlock>, dd: seq<DigitalWord>)
    requires |ao| == 3 && |dd| == 3
    ensures Poll(ao, dd, 3, 1, [1, 1, 2, 2]) ==
      Run([ReadCounter(1), WriteDigital(1, dd[1]), ArmAnalog(2, ao[2]),
           ReadCounter(1), Sleep,
           ReadCounter(2), WriteDigital(2, dd[2])], Completed, 3)
  {
    var c2, c3, c4: seq<nat> := [1, 1, 2, 2], [1, 2, 2], [2, 2];
    assert c2[1..] == c3 && c3[1..] == c4;
    var tail4 := [ReadCounter(2), WriteDigital(2, dd[2])];
    var tail3 := [ReadCounter(1), Sleep] + tail4;
    assert Poll(ao, dd, 3, 2, c4) == Run(tail4, Completed, 1);
    assert Poll(ao, dd, 3, 2, c3) == Run(tail3, Completed, 2);
    assert Poll(ao, dd, 3, 1, c2) == Run([ReadCounter(1), WriteDigital(1, dd[1]), ArmAnalog(2, ao[2])] + tail3, Completed, 3);
  }

  /** The polling part of the worked run, from step 0 with the counter showing 0, 0, 1, 1, 2. */
  lemma ThreeStepExampleFromZero(ao: seq<AnalogBlock>, dd: seq<DigitalWord>)
    requires |ao| == 3 && |dd| == 3
    ensures Poll(ao, dd, 3, 0, [0, 0, 1, 1, 2, 2]) ==
      Run([ReadCounter(0), WriteDigital(0, dd[0]), ArmAnalog(1, ao[1]),
           ReadCounter(0), Sleep,
           ReadCounter(1), WriteDigital(1, dd[1]), ArmAnalog(2, ao[2]),
           ReadCounter(1), Sleep,
           ReadCounter(2), WriteDigital(2, dd[2])], Completed, 5)
  {
    var counts: seq<nat> := [0, 0, 1, 1, 2, 2];
    var c1, c2: seq<nat> := [0, 1, 1, 2, 2], [1, 1, 2, 2];
    var tail2 := [ReadCounter(1), WriteDigital(1, dd[1]), ArmAnalog(2, ao[2]), ReadCounter(1), Sleep, ReadCounter(2), WriteDigital(2, dd[2])];
    var tail1 := [ReadCounter(0), Sleep] + tail2;
    assert Poll(ao, dd, 3, 1, c1) == Run(tail1, Completed, 4) by {
      ThreeStepExampleFromOne(ao, dd);
      assert c1[1..] == c2;
    }
    assert counts[1..] == c1;
  }

  /**
   * A worked run over three steps: the counter shows 0, 0, 1, 1, 2. The
   * task commits each step on the first read that shows it, sleeps on the
   * repeated reads, and completes after five reads.
   */
  lemma ThreeStepExample(a0: AnalogBlock, a1: AnalogBlock, a2: AnalogBlock, d0: DigitalWord, d1: DigitalWord, d2: DigitalWord)
    ensures var r := Task([a0, a1, a2], [d0, d1, d2], [0.0, 1.0, 2.0], [0, 0, 1, 1, 2, 2]);
      && r.outcome == Completed
      && r.consumed == 5
      && r.log == [ConfigDigitalOut, ClearCounter, ArmAnalog(0, a0)] +
                  [ReadCounter(0), WriteDigital(0, d0), ArmAnalog(1, a1),
                   ReadCounter(0), Sleep,
                   ReadCounter(1), WriteDigital(1, d1), ArmAnalog(2, a2),
                   ReadCounter(1), Sleep,
                   ReadCounter(2), WriteDigital(2, d2)]
  {
    var ao, dd := [a0, a1, a2], [d0, d1, d2];
    ThreeStepExampleFromZero(ao, dd);
  }


  // ----------------------------------------------------------- the board

  /**
   * The board behind UniversalLibrary as the loop sees it: `pending` holds
   * the values the counter will return on the next reads, and `log` every
   * call made so far.
   */
  class Board {
    var log: seq<Event>
    var pending: seq<nat>

    constructor (trace: seq<nat>)
      ensures log == [] && pending == trace
    {
      log := [];
      pending := trace;
    }

    method DConfigPort()
      modifies this
      ensures log == old(log) + [ConfigDigitalOut] && pending == old(pending)
    {
      log := log + [ConfigDigitalOut];
    }

    method CLoad32()
      modifies this
      ensures log == old(log) + [ClearCounter] && pending == old(pending)
    {
      log := log + [ClearCounter];
    }

    method AOutScan(step: nat, block: AnalogBlock)
      modifies this
      ensures log == old(log) + [ArmAnalog(step, block)] && pending == old(pending)
    {
      log := log + [ArmAnalog(step, block)];
    }

    method CIn32() returns (count: nat)
      requires pending != []
      modifies this
      ensures count == old(pending)[0] && pending == old(pending)[1..]
      ensures log == old(log) + [ReadCounter(count)]
    {
      count := pending[0];
      pending := pending[1..];
      log := log + [ReadCounter(count)];
    }

    method DOut(step: nat, word: DigitalWord)
      modifies this
      ensures log == old(log) + [WriteDigital(step, word)] && pending == old(pending)
    {
      log := log + [WriteDigital(step, word)];
    }

    method Sleep()
      modifies this
      ensures log == old(log) + [Event.Sleep] && pending == old(pending)
    {
      log := log + [Event.Sleep];
    }

    method ReportSkipped(first: nat, last: nat)
      modifies this
      ensures log == old(log) + [Skipped(first, last)] && pending == old(pending)
    {
      log := log + [Skipped(first, last)];
    }
  }

  /**
   * One pass through the body of the `while True` loop of `MC_Task`: read
   * the counter, then sleep, commit (and arm the next step), or report the
   * skipped ordinals. `exit` is the outcome when the pass leaves the loop.
   */
  method PollOnce(board: Board, aoData: seq<AnalogBlock>, doData: seq<DigitalWord>, n: nat, step: nat)
    returns (next: nat, exit: Option<Outcome>)
    requires board.pending != []
    modifies board
    ensures var it := Iterate(aoData, doData, n, step, old(board.pending)[0]);
      && board.log == old(board.log) + it.events
      && board.pending == old(board.pending)[1..]
      && next == it.next && exit == it.exit
  {
    var count := board.CIn32();
    if count < step {
      board.Sleep();
      return step, None;
    }
    if count == step {
      if step >= |doData| {
        return step, Some(IndexOutOfRange);
      }
      board.DOut(step, doData[step]);
      next := step + 1;
      if next == n {
        return next, Some(Completed);
      }
      if next >= |aoData| {
        return next, Some(IndexOutOfRange);
      }
      board.AOutScan(next, aoData[next]);
      return next, None;
    }
    board.ReportSkipped(step, count - 1);
    return step, None;
  }

  /**
   * The `while True` loop of `MC_Task` from ordinal `step`, run until the
   * counter trace is used up or the loop exits: the calls it makes and the
   * counter values it consumes are exactly those `Poll` describes.
   */
  method PollLoop(board: Board, aoData: seq<AnalogBlock>, doData: seq<DigitalWord>, n: nat, step: nat)
    returns (outcome: Outcome)
    modifies board
    ensures var r := Poll(aoData, doData, n, step, old(board.pending));
      && board.log == old(board.log) + r.log
      && outcome == r.outcome
      && r.consumed <= |old(board.pending)| && board.pending == old(board.pending)[r.consumed..]
  {
    ghost var log0, pending0 := board.log, board.pending;
    ghost var target := Poll(aoData, doData, n, step, board.pending);
    ghost var done: seq<Event> := [];
    ghost var taken := 0;
    ghost var left := target;
    var current := step;
    assert target == Run(done + left.log, left.outcome, taken + left.consumed);
    while board.pending != []
      invariant board.log == log0 + done
      invariant taken <= |pending0| && board.pending == pending0[taken..]
      invariant left == Poll(aoData, doData, n, current, board.pending)
      invariant target == Run(done + left.log, left.outcome, taken + left.consumed)
      decreases |board.pending|
    {
      ghost var before := board.pending;
      ghost var it := Iterate(aoData, doData, n, current, before[0]);
      ghost var rest := Poll(aoData, doData, n, it.next, before[1..]);
      PassAdvances(aoData, doData, n, current, before, done, taken, target);
      var next, exit := PollOnce(board, aoData, doData, n, current);
      AppendAssociates(log0, done, it.events);
      DropOneMore(pending0, taken);
      done := done + it.events;
      taken := taken + 1;
      if exit.Some? {
        assert target == Run(done, exit.value, taken);
        return exit.value;
      }
      current := next;
      left := rest;
    }
    assert target.log == done + [] == done;
    return StillPolling;
  }

  /**
   * `MC_Task(ao_data, do_data, time_data)`, run until the counter trace is
   * used up (or the loop exits): the calls it makes and the counter values
   * it consumes are exactly those `Task` describes.
   */
  method McTask(board: Board, aoData: seq<AnalogBlock>, doData: seq<DigitalWord>, timeData: seq<real>)
    returns (outcome: Outcome)
    modifies board
    ensures var r := Task(aoData, doData, timeData, old(board.pending));
      && board.log == old(board.log) + r.log
      && outcome == r.outcome
      && r.consumed <= |old(board.pending)| && board.pending == old(board.pending)[r.consumed..]
  {
    board.DConfigPort();
    board.CLoad32();
    if |aoData| == 0 {
      return IndexOutOfRange;
    }
    board.AOutScan(0, aoData[0]);
    outcome := PollLoop(board, aoData, doData, |timeData|, 0);
  }
}
