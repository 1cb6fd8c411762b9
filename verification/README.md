# MC USB-3114 step-synchronised output, in Dafny

This project models the core of a labscript device driver for the
Measurement Computing USB-3114 analog/digital output board, and proves
properties of that model.

- **`MC_Task` (MCWorker.py), in `scheduler.dfy`.** This is the output loop.
  - It configures the digital port and clears the hardware counter.
  - It pre-arms analog block 0.
  - It then polls the counter. A read below `step` sleeps. A read equal to `step` writes `do_data[step]`, advances `step` and either stops or pre-arms the next analog block. A read above `step` reports the skipped ordinals.
  - Modelling choices:
    - The counter is a finite trace of the values successive reads return.
    - Every UniversalLibrary call, the sleep and the skip report are events in a log.
    - `Poll`/`Task` are the loop as functions of the trace.
    - `McTask` is the loop itself: a method driving a `Board` object that holds the log and the remaining trace. It is proved to produce exactly the log `Task` describes.
- **The BLACS worker and tab of MC_USB_3114.py, in `names.dfy`, `shaping.dfy` and `worker.dfy`.**
  - The `do_sort`/`ao_sort` widget keys.
  - The data shaping of `transition_to_buffered`: bit expansion of the digital words, trimming the last analog row, `channel_list` and `final_values`.
  - The manual-mode state of the worker (`ao_data`, `do_data`, `initial_values`).
  - The static writes, front-panel programming, the transition back to manual mode and the two abort entry points. Each hardware write is an event in the worker's log, and replaying the log gives what every output holds.
- **Python semantics the core relies on, in `text.dfy` and `wrappers.dfy`.**
  - `str.split`, `str.replace`, `'%d'`, `'%02d'`, `int()` on digit strings and string comparison.
  - The worker's IndexError, KeyError and AttributeError are `Result` failures. `int()`'s ValueError is `None`. `MC_Task`'s IndexError is the outcome `IndexOutOfRange`.

The model follows the code in these places:
- **A skip report leaves `step` unchanged.** With a counter that never decreases, the loop then reports, on every read, a skip from `step` to the value read minus one, and never commits again (`Scheduler.MonotoneCounterAfterSkipStalls`). It does not resume committing at the counter's value.
- **The loop has no fault outcome and no cancellation.** Its only exit is the `break` after the commit of ordinal `len(time_data) - 1`. The Python IndexError raised by a short `ao_data`/`do_data` is modelled as the outcome `IndexOutOfRange`.
- **`final_values` never holds digital values.** The code that would add them is inside a string literal.

## Model

| member | source | states |
|---|---|---|
| Text.Split | MC_USB_3114.py:222 | `s.split(sep)` gives at least one part; joining the parts with `sep` gives `s` back; no part contains `sep` |
| Text.Replace | MC_USB_3114.py:87 | `s.replace(target, replacement)`: `s` split at every occurrence of `target`, rejoined with `replacement` (with `''`, every occurrence removed) |
| Text.SplitFromNoMatch | MC_USB_3114.py:87 | splitting text in which the separator's first character never occurs yields that text alone |
| Text.ReplaceLeadingPrefix | MC_USB_3114.py:87 | `(prefix + s).replace(prefix, '')` is `s` when the prefix's first character is not in `s` |
| Text.NatToString | MC_USB_3114.py:64 | `'%d' % n` is a non-empty digit string that parses back to `n`, with no leading zero unless `n == 0` |
| Text.Format02 | MC_USB_3114.py:89 | `'%02d' % n` has at least two digits, parses back to `n`, and starts with a zero only when `n` is below 10 |
| Text.ParseInt | MC_USB_3114.py:88 | `int(s)` succeeds exactly on non-empty digit strings |
| Text.LexLess | MC_USB_3114.py:98 | `a < b` on strings, the order in which the widgets are placed by key: first differing character decides, a proper prefix comes first |
| Text.Format02TwoDigits | MC_USB_3114.py:89 | below 100, `'%02d' % n` is the tens digit followed by the units digit |
| Text.Format02OrderMatches | MC_USB_3114.py:86-94 | below 100, string order of `'%02d'` keys is numeric order, in both directions |
| Text.Format02OrderBreaksAt100 | MC_USB_3114.py:86-94 | from 100 on, the keys stop sorting numerically: `'100' < '99'` |
| Names.AoName | MC_USB_3114.py:64 | `'ao%d' % i`: `ao` followed by the decimal numeral of i |
| Names.LineName | MC_USB_3114.py:73 | `'port0/line%d' % i`: `port0/line` followed by the decimal numeral of i |
| Names.DoSort | MC_USB_3114.py:86-89 | `do_sort`: the shared key with `port0/line` removed; None where `int` raises ValueError |
| Names.AoSort | MC_USB_3114.py:91-94 | `ao_sort`: the shared key with `ao` removed; None where `int` raises ValueError |
| Names.SortKey | MC_USB_3114.py:86-94 | the key `do_sort` and `ao_sort` share (`port0/line` or `ao` removed), when `int` does not raise, is a string of at least two digits |
| Names.DoSortLineName | MC_USB_3114.py:86-89 | the key of `'port0/line%d' % i` is `'%02d' % i` |
| Names.AoSortAoName | MC_USB_3114.py:91-94 | the key of `'ao%d' % i` is `'%02d' % i` |
| Names.DoSortOrder | MC_USB_3114.py:86-89 | for lines below 100, the key of line i sorts before the key of line j exactly when i < j |
| Names.AoSortOrder | MC_USB_3114.py:91-94 | for channels below 100, the key of channel i sorts before the key of channel j exactly when i < j |
| Names.AoNameInjective | MC_USB_3114.py:64 | distinct analog channels have distinct `'ao%d'` names |
| Scheduler.Iterate | MCWorker.py:37-52 | one pass of the `while True` body for the counter value read: its first call is that read, and it leaves `step` unchanged or, only on a read equal to `step`, advances it by one; a `break` leaves `step` at `len(time_data)` |
| Scheduler.Poll | MCWorker.py:36-52 | the loop from a given `step`: passes over the successive counter values until one leaves the loop (completion or IndexError) or the trace is used up, with the calls of all passes in order |
| Scheduler.Task | MCWorker.py:12-54 | all of `MC_Task`: its log starts with the port configuration and the counter clear; with empty `ao_data` it raises IndexError before any read, otherwise it arms block 0 and runs the loop from step 0 |
| Scheduler.IterateFacts | MCWorker.py:36-52 | one pass reads the counter once, first. A read other than `step` writes nothing and keeps `step`. A read equal to `step` writes `do_data[step]`, sets `step` to `step + 1` and then stops (at `len(time_data)`), raises (short `ao_data`) or arms `ao_data[step + 1]`. A missing `do_data[step]` raises before any write |
| Scheduler.ScheduleAt | MCWorker.py:33-50 | the intended schedule has arm j at position 2j and commit j right after it, for each ordinal j |
| Scheduler.PollFollowsSchedule | MCWorker.py:36-50 | with data covering every ordinal, the loop never raises; its outputs are a prefix of the schedule; it has completed exactly when all of the schedule was written |
| Scheduler.TaskFollowsSchedule | MCWorker.py:32-50 | the same for the whole task from arm 0: outputs follow arm 0, commit 0, arm 1, commit 1, ..., and completion means all were written |
| Scheduler.CompletedRunShape | MCWorker.py:33-48 | on completion exactly `n` arms and `n` commits were output, alternating: arm k carries `ao_data[k]`, commit k carries `do_data[k]` |
| Scheduler.IterateCommitThenArm | MCWorker.py:41-50 | within one pass, a commit that is not the last is followed at once by the arm of the next step |
| Scheduler.CommitThenArm | MCWorker.py:41-50 | in any run, a commit of step k < n-1 is followed at once by the arm of k+1, with no counter read between them |
| Scheduler.PollArmsLaterSteps | MCWorker.py:44-48 | every block the loop arms belongs to a later step than the one it started from |
| Scheduler.PreArmOnceBeforeFirstRead | MCWorker.py:31-37 | block 0 is armed exactly once, as the third call, before the first counter read |
| Scheduler.StallLogProjections | MCWorker.py:37-52 | reads that are not `step` output nothing; the calls are one read per stall followed by one other call |
| Scheduler.StallLogAt | MCWorker.py:37-52 | stall i is the read at position 2i followed by a sleep (read below `step`) or a skip report of `step`..`count-1` (read above) |
| Scheduler.StallsLeaveStepUnchanged | MCWorker.py:37-52 | after any reads other than `step`, the loop continues exactly as it would from `step` without them |
| Scheduler.MonotoneCounterAfterSkipStalls | MCWorker.py:51-52 | once the counter is past `step` and never decreases, every read reports a skip from `step` to the value read minus one; the loop outputs nothing and never completes |
| Scheduler.SteadyCounterCompletes | MCWorker.py:41-46 | a counter showing each ordinal from `step` to `n-1` once, in order, makes the loop complete |
| Scheduler.ShortDataRaises | MCWorker.py:42-48 | with `ao_data` or `do_data` shorter than `len(time_data)`, the steady counter drives the loop into IndexError |
| Scheduler.TaskShortDataRaises | MCWorker.py:33-48 | safe indexing needs both `len(ao_data)` and `len(do_data)` to be at least `len(time_data)`: with either shorter, the task raises under the steady counter |
| Scheduler.PollPastEndNeverCompletes | MCWorker.py:44-46 | once `step` has passed `len(time_data)`, the loop never completes |
| Scheduler.EmptyTimeDataNeverCompletes | MCWorker.py:44-46 | with an empty `time_data` the task never completes |
| Scheduler.PollReadsPrefix | MCWorker.py:36-37 | the values read are a prefix of the counter trace, one per pass, and the whole trace when still polling |
| Scheduler.ThreeStepExample | MCWorker.py:12-54 | a three-step run with counter reads 0, 0, 1, 1, 2 completes after five reads, committing each step on the first read that shows it |
| Scheduler.ThreeStepExampleFromZero | MCWorker.py:36-52 | the polling part of that run: from step 0 with reads 0, 0, 1, 1, 2 the loop commits, sleeps, commits, sleeps and commits, completing after five reads |
| Scheduler.ThreeStepExampleFromOne | MCWorker.py:36-52 | from step 1 with reads 1, 1, 2, 2, the loop commits step 1, sleeps on the stale read of 1, commits step 2 and completes after three reads, leaving the last value unread |
| Scheduler.Board.constructor | MCWorker.py:37 | a board starts with an empty log and the given counter trace pending |
| Scheduler.Board.DConfigPort | MCWorker.py:23 | logs the port configuration |
| Scheduler.Board.CLoad32 | MCWorker.py:26 | logs the counter clear |
| Scheduler.Board.AOutScan | MCWorker.py:33 | logs the arm of an analog block |
| Scheduler.Board.CIn32 | MCWorker.py:37 | returns the next pending counter value, consumes it and logs the read |
| Scheduler.Board.DOut | MCWorker.py:42 | logs the digital commit |
| Scheduler.Board.Sleep | MCWorker.py:39 | logs the sleep |
| Scheduler.Board.ReportSkipped | MCWorker.py:52 | logs the skip report |
| Scheduler.PollOnce | MCWorker.py:37-52 | one pass appends exactly the calls of `Iterate`, consumes one counter value and returns the new `step` and exit |
| Scheduler.PollLoop | MCWorker.py:36-52 | the loop appends exactly the log of `Poll` over the pending trace, returns its outcome and consumes exactly the values `Poll` reads |
| Scheduler.McTask | MCWorker.py:12-54 | `MC_Task` appends exactly the log of `Task` over the pending trace, returns its outcome and consumes exactly the values it reads |
| Shaping.Bit | MC_USB_3114.py:190 | `(w & (1 << i)) >> i`: bit i of w, always 0 or 1 |
| Shaping.BitShift | MC_USB_3114.py:190 | bit i+1 of a word is bit i of half the word |
| Shaping.BitsReconstruct | MC_USB_3114.py:188-190 | the bits 0..m-1, read back as a binary number, give the word modulo 2^m |
| Shaping.ExpandBits | MC_USB_3114.py:188-190 | the table has one row per word and `num_DO` columns; entry [r][i] is bit i of word r (so 0 or 1); each row read back as binary is the word modulo 2^`num_DO` |
| Shaping.DropLastRow | MC_USB_3114.py:170 | `[:-1,:]`: every row but the last; nothing of an empty buffer |
| Shaping.DropLastRowShape | MC_USB_3114.py:170 | the trimmed buffer has n-1 rows (none of an empty buffer), equal to the first n-1 input rows |
| Shaping.DropLastRowAppend | MC_USB_3114.py:170 | trimming undoes appending one final row |
| Shaping.SecondSegment | MC_USB_3114.py:222 | `name.split('/')[1]`: raises only IndexError, and a second segment never contains '/' |
| Shaping.SecondSegmentSpec | MC_USB_3114.py:222 | `name.split('/')[1]` raises IndexError exactly when the name has no '/', and is otherwise the text between the first '/' and the next one or the end |
| Shaping.SegmentLayout | MC_USB_3114.py:222 | a name made of a first segment, '/', a segment without '/' and an optional '/'-led rest has that segment as its second segment |
| Shaping.SecondSegments | MC_USB_3114.py:222 | the comprehension gives one entry per name, each that name's second segment, and raises exactly when some name has no '/' |
| Shaping.ChannelList | MC_USB_3114.py:222 | `channel_list`: the second segment of each `', '`-separated name; the only exception it raises is IndexError |
| Shaping.ChannelListSpec | MC_USB_3114.py:222 | `channel_list` has one entry per `', '`-separated name; each is that name's second '/'-separated segment and holds no '/'; it raises exactly when some name lacks '/' |
| Shaping.ZipToMap | MC_USB_3114.py:223 | the dict's keys are the keys of the pairs `zip` produces, up to the shorter list |
| Shaping.ZipToMapLastWins | MC_USB_3114.py:223 | a key maps to the value paired with its last occurrence |
| Shaping.BufferedFinalValues | MC_USB_3114.py:182-228 | `final_values`: `{}` without analog data, otherwise `channel_list` zipped with the last trimmed row; the only exception is IndexError (a name without '/', or no row left after trimming) |
| Shaping.FinalValuesHaveNoDigitalKeys | MC_USB_3114.py:182-223 | no key of `final_values` contains '/', so it holds no `port0/lineN` entry |
| Shaping.FinalValuesAreLastRetainedRow | MC_USB_3114.py:170-223 | each listed channel maps to its column of the last retained row (the second-to-last input row) |
| Shaping.FinalValuesWithoutAnalog | MC_USB_3114.py:182 | without analog data `final_values` is empty |
| Worker.AnalogWrites | MC_USB_3114.py:140-141 | one `cbAOut` per channel in channel order, channel i receiving `outrange(ao_data[i])` (also the second loop of `program_manual`, lines 148-149) |
| Worker.StaticWrites | MC_USB_3114.py:138-143 | `setup_static_channels`: the analog writes, then one `cbDOut` of `do_data` |
| Worker.ApplyPanel | MC_USB_3114.py:146-147 | `ao_data` after the copy loop has run up to channel `upto`: the panel value of `ao%d` below it, the old value from it on |
| Worker.LevelsAfterAppend | MC_USB_3114.py:138-150 | a later write to an output hides every earlier one; without one the earlier state shows |
| Worker.AnalogWritesSetChannels | MC_USB_3114.py:140-141 | after writing every channel in order, channel i holds `outrange(value i)`; the port is untouched |
| Worker.StaticWritesSetOutputs | MC_USB_3114.py:138-143 | whatever came before, after `setup_static_channels` channel i holds `outrange(ao_data[i])` and the port holds `do_data` |
| Worker.AnalogWritesOverride | MC_USB_3114.py:140-141 | whatever came before, writing every channel in order leaves channel i at `outrange(value i)` and the port word as it was |
| Worker.PanelWritesRestore | MC_USB_3114.py:146-150 | after copying every channel from a panel and writing them, channel i holds `outrange` of the panel value for `'ao%d' % i` and the port word is unchanged |
| Worker.InitialWordAlternates | MC_USB_3114.py:130 | the initial port word 170 sets the odd lines high and the even lines low |
| Worker.MissingFrom | MC_USB_3114.py:146-147 | the first channel at or after i whose `'ao%d'` key is missing, or 16 when none is |
| Worker.MissingFromFirst | MC_USB_3114.py:146-147 | the first missing key is k whenever every key below k is present and `ao<k>` (for k < 16) is not |
| Worker.McUsb3114Worker.Init | MC_USB_3114.py:114-136 | sets the default manual values, logs the port configuration and then the static writes; afterwards every output holds its default |
| Worker.McUsb3114Worker.WriteAnalog | MC_USB_3114.py:140-141 | writes every channel once, in channel order, with `outrange` of its `ao_data` value |
| Worker.McUsb3114Worker.SetupStaticChannels | MC_USB_3114.py:138-143 | writes every analog channel 0..15 in order, then the digital port once; nothing else changes |
| Worker.McUsb3114Worker.CopyPanel | MC_USB_3114.py:146-147 | copies panel values into `ao_data` channel by channel up to the first missing key, which it returns |
| Worker.McUsb3114Worker.ProgramManual | MC_USB_3114.py:145-150 | with all keys, `ao_data[i]` is the panel value of `'ao%d' % i` and each channel is then written once, in order. A missing key raises KeyError for the first such channel, after the earlier channels were copied and before any write |
| Worker.McUsb3114Worker.TransitionToBuffered | MC_USB_3114.py:152-228 | saves the initial values, sets the buffered flags, writes nothing and returns `final_values` |
| Worker.McUsb3114Worker.TransitionToManual | MC_USB_3114.py:234-241 | always does the static writes first. Only on abort does it reprogram the saved initial values: AttributeError if never saved, KeyError if one is missing. It returns True. `do_data`, `initial_values` and the buffered flags are left as they were. On success every channel holds `outrange` of its manual value (the initial value after abort) and the port holds `do_data` |
| Worker.McUsb3114Worker.AbortTransitionToBuffered | MC_USB_3114.py:243-245 | has the contract of `transition_to_manual(True)` |
| Worker.McUsb3114Worker.AbortBuffered | MC_USB_3114.py:247-249 | has the contract of `transition_to_manual(True)` |

## Left out

- The UniversalLibrary calls are events in a log, not hardware effects. `cbFromEngUnits` (inside `outrange`) is an uninterpreted function from volts to an integer code.
- The hardware counter is a finite trace of read values. `McTask` therefore stops when the trace is used up, with the outcome `StillPolling`. The real loop would keep polling.
- The counter's 32-bit width is not modelled: reads are unbounded naturals, because the loop only compares them with `step`.
- Analog blocks are integer sequences and digital words are integers. Their numpy dtypes and sizes (`NumPoints`, the channel range) are arguments of calls the model only logs.
- `time.sleep` is the `Sleep` event. The skip `print` is the `Skipped` event. The other prints are left out: they only log text.
- Reading the shot file with h5py and `labscript_utils.properties` is not modelled. The datasets and the channel string are inputs. `clock_terminal` and `do_channels` are never used afterwards and are left out.
- The `uint32` conversion of the digital words is not modelled: words are naturals.
- The digital expansion table is computed but, as in the code, used only for printing.
- The triple-quoted DAQmx blocks are string literals, not code, and are not modelled.
- The `exec`/global imports of `init` are not modelled.
- The GUI side of the tab is not modelled: widget creation, `create_worker`, `auto_place_widgets` and the connection-table lookup. Only the sort keys are modelled.
- `MC_USB_3114.generate_code`, `RunviewerClass` and the `__main__` demo of MCWorker.py are not part of this model.
- Names.SortKey: MC_USB_3114.py is Python 2 code (the `exec ... in globals()` statement at line 119). Its `int()` on a `str` also accepts surrounding whitespace and a leading sign, which is not modelled: such strings give `None` here. It rejects underscores and non-ASCII digits, as the model does.
- The analog rows are modelled as sequences of reals, so a one-dimensional `ANALOG_OUTS` dataset (where `[:-1,:]` itself would raise) is not represented.
- `transition_to_buffered` never reads its `fresh` argument, so the model has none. Its `device_name` argument only selects the file contents, which are inputs here.
