/**
 * The BLACS worker of the USB-3114 (`MCUSB3114Worker` in MC_USB_3114.py):
 * its manual-mode state (`ao_data`, `do_data`, `initial_values`), the
 * static writes that put that state on the outputs, programming from the
 * front panel, the transition to buffered mode (which only shapes data)
 * and the transition back to manual mode, with and without abort.
 *
 * Every Universal Library call is a `Write` appended to the worker's log;
 * the voltage-to-code conversion `outrange` is a function the worker is
 * given. Replaying the log says what every output holds.
 */
module Worker {
  import opened Wrappers
  import opened Names
  import opened Shaping

  /** The tab's `num_AO` and `num_DO`, passed to the worker. */
  const NumAO := 16
  const NumDO := 8

  /** `do_data` of `init`: binary 10101010. */
  const InitialDoData := 170

  /** `ao_data` of `init`. */
  function InitialAoData(): seq<real>
  {
    [0.0, 1.0, 2.0, 3.0, 4.0, 5.0, 6.0, 7.0, 8.0, 9.0, 0.0, 1.0, 2.0, 3.0, 4.0, 5.0]
  }

  /** A hardware call of the worker. */
  datatype Write =
    | ConfigDigitalOut          // cbDConfigPort(AUXPORT, DIGITALOUT)
    | AOut(channel: nat, raw: int)  // cbAOut(channel, raw)
    | DOut(word: int)           // cbDOut(AUXPORT, word)

  // ------------------------------------------------------------ the writes

  /** One `cbAOut` per value, channel i receiving `outrange(values[i])`, in channel order. */
  function AnalogWrites(values: seq<real>, outrange: real -> int): seq<Write>
  {
    seq(|values|, i requires 0 <= i < |values| => AOut(i, outrange(values[i])))
  }

  /** `setup_static_channels`: every analog value, then the digital word. */
  function StaticWrites(values: seq<real>, word: int, outrange: real -> int): seq<Write>
  {
    AnalogWrites(values, outrange) + [DOut(word)]
  }

  /** The code analog channel `ch` holds after `log`: the one its last write set. */
  function AnalogLevel(log: seq<Write>, ch: nat): Option<int>
  {
    if log == [] then None
    else
      var w := log[|log| - 1];
      if w.AOut? && w.channel == ch then Some(w.raw) else AnalogLevel(log[..|log| - 1], ch)
  }

  /** The word the digital port holds after `log`: the one its last write set. */
  function DigitalWord(log: seq<Write>): Option<int>
  {
    if log == [] then None
    else
      var w := log[|log| - 1];
      if w.DOut? then Some(w.word) else DigitalWord(log[..|log| - 1])
  }

  /** A later write to a channel hides every earlier one; without one the earlier state shows through. */
  lemma {:induction false} LevelsAfterAppend(a: seq<Write>, b: seq<Write>, ch: nat)
    ensures AnalogLevel(a + b, ch) == if AnalogLevel(b, ch).Some? then AnalogLevel(b, ch) else AnalogLevel(a, ch)
    ensures DigitalWord(a + b) == if DigitalWord(b).Some? then DigitalWord(b) else DigitalWord(a)
    decreases |b|
  {
    if b == [] {
      assert a + b == a;
    } else {
      assert (a + b)[..|a + b| - 1] == a + b[..|b| - 1];
      LevelsAfterAppend(a, b[..|b| - 1], ch);
    }
  }

  /** After the analog writes, channel i holds `outrange(values[i])`, other channels and the port are untouched. */
  lemma {:induction false} AnalogWritesSetChannels(values: seq<real>, outrange: real -> int, ch: nat)
    ensures AnalogLevel(AnalogWrites(values, outrange), ch) == if ch < |values| then Some(outrange(values[ch])) else None
    ensures DigitalWord(AnalogWrites(values, outrange)) == None
    decreases |values|
  {
    var ws := AnalogWrites(values, outrange);
    if values != [] {
      var n := |values|;
      assert ws[..n - 1] == AnalogWrites(values[..n - 1], outrange);
      AnalogWritesSetChannels(values[..n - 1], outrange, ch);
    }
  }

  /**
   * Whatever was written before, writing every analog value in channel order
   * leaves channel i holding `outrange(values[i])` and the port as it was.
   */
  lemma AnalogWritesOverride(before: seq<Write>, values: seq<real>, outrange: real -> int)
    ensures forall ch :: 0 <= ch < |values| ==>
      AnalogLevel(before + AnalogWrites(values, outrange), ch) == Some(outrange(values[ch]))
    ensures DigitalWord(before + AnalogWrites(values, outrange)) == DigitalWord(before)
  {
    var ws := AnalogWrites(values, outrange);
    forall ch | 0 <= ch < |values|
      ensures AnalogLevel(before + ws, ch) == Some(outrange(values[ch]))
    {
      AnalogWritesSetChannels(values, outrange, ch);
      LevelsAfterAppend(before, ws, ch);
    }
    AnalogWritesSetChannels(values, outrange, 0);
    LevelsAfterAppend(before, ws, 0);
  }

  /**
   * Whatever was written before, `setup_static_channels` leaves analog
   * channel i holding `outrange(ao_data[i])` and the port holding `do_data`.
   */
  lemma StaticWritesSetOutputs(before: seq<Write>, values: seq<real>, word: int, outrange: real -> int)
    ensures forall ch :: 0 <= ch < |values| ==>
      AnalogLevel(before + StaticWrites(values, word, outrange), ch) == Some(outrange(values[ch]))
    ensures DigitalWord(before + StaticWrites(values, word, outrange)) == Some(word)
  {
    var ws := AnalogWrites(values, outrange);
    AnalogWritesOverride(before, values, outrange);
    assert before + StaticWrites(values, word, outrange) == (before + ws) + [DOut(word)];
    forall ch | 0 <= ch < |values|
      ensures AnalogLevel(before + StaticWrites(values, word, outrange), ch) == Some(outrange(values[ch]))
    {
      LevelsAfterAppend(before + ws, [DOut(word)], ch);
    }
    LevelsAfterAppend(before + ws, [DOut(word)], 0);
  }

  /**
   * Writing values copied from a front panel sets every analog channel to
   * `outrange` of the panel's value for it and leaves the port as it was.
   */
  lemma PanelWritesRestore(before: seq<Write>, values: array<real>, panel: map<string, real>, outrange: real -> int)
    requires values.Length == NumAO
    requires forall ch :: 0 <= ch < NumAO ==> AoName(ch) in panel && values[ch] == panel[AoName(ch)]
    ensures forall ch :: 0 <= ch < NumAO ==>
      AoName(ch) in panel && AnalogLevel(before + AnalogWrites(values[..], outrange), ch) == Some(outrange(panel[AoName(ch)]))
    ensures DigitalWord(before + AnalogWrites(values[..], outrange)) == DigitalWord(before)
  {
    AnalogWritesOverride(before, values[..], outrange);
  }

  /** The port word of `init`, bit by bit: the odd lines high, the even lines low. */
  lemma InitialWordAlternates(line: nat)
    requires line < NumDO
    ensures Bit(InitialDoData, line) == line % 2
  {
    assert Pow2(1) == 2 && Pow2(2) == 4 && Pow2(3) == 8 && Pow2(4) == 16;
    assert Pow2(5) == 32 && Pow2(6) == 64 && Pow2(7) == 128;
  }

  // ---------------------------------------------------------- front panel

  /**
   * The first `ao%d` key missing from the front-panel values at or after
   * channel i, or `NumAO` when none is.
   */
  function MissingFrom(panel: map<string, real>, i: nat): (k: nat)
    requires i <= NumAO
    ensures i <= k <= NumAO
    ensures forall j :: i <= j < k ==> AoName(j) in panel
    ensures k < NumAO ==> AoName(k) !in panel
    decreases NumAO - i
  {
    if i == NumAO then NumAO
    else if AoName(i) !in panel then i
    else MissingFrom(panel, i + 1)
  }

  /** A channel below which every key is present, and whose own key is missing (or which is 16), is the first missing one. */
  lemma MissingFromFirst(panel: map<string, real>, k: nat)
    requires k <= NumAO
    requires forall j :: 0 <= j < k ==> AoName(j) in panel
    requires k < NumAO ==> AoName(k) !in panel
    ensures MissingFrom(panel, 0) == k
  {
  }

  /** `ao_data` with its first `upto` entries taken from the front panel. */
  function ApplyPanel(values: seq<real>, panel: map<string, real>, upto: nat): seq<real>
    requires upto <= |values|
    requires forall i :: 0 <= i < upto ==> AoName(i) in panel
  {
    seq(|values|, i requires 0 <= i < |values| => if i < upto then panel[AoName(i)] else values[i])
  }

  // ------------------------------------------------------------ the worker

  class McUsb3114Worker {
    /** `outrange`: volts to the board's output code (`cbFromEngUnits` truncated by `int`). */
    const outrange: real -> int
    /** `ao_data`: the manual-mode analog values, updated in place. */
    const aoData: array<real>
    /** `do_data`: the manual-mode port word. */
    var doData: int
    /** `initial_values`, absent until the first transition to buffered mode. */
    var initialValues: Option<map<string, real>>
    var bufferedUsingAnalog: bool
    var bufferedUsingDigital: bool
    /** The hardware calls made so far. */
    var log: seq<Write>

    /**
     * `init`: the default manual values, the port configured as output, then
     * the static writes; afterwards every output holds its default.
     */
    constructor Init(outrange: real -> int)
      ensures this.outrange == outrange
      ensures aoData.Length == NumAO && aoData[..] == InitialAoData() && doData == InitialDoData
      ensures initialValues.None?
      ensures log == [ConfigDigitalOut] + StaticWrites(InitialAoData(), InitialDoData, outrange)
      ensures forall ch :: 0 <= ch < NumAO ==> AnalogLevel(log, ch) == Some(outrange(InitialAoData()[ch]))
      ensures DigitalWord(log) == Some(InitialDoData)
    {
      this.outrange := outrange;
      var values := InitialAoData();
      aoData := new real[NumAO](i requires 0 <= i < NumAO => values[i]);
      doData := InitialDoData;
      initialValues := None;
      bufferedUsingAnalog, bufferedUsingDigital := false, false;
      new;
      log := [ConfigDigitalOut];
      assert aoData[..] == values;
      SetupStaticChannels();
      StaticWritesSetOutputs([ConfigDigitalOut], values, doData, outrange);
    }

    /** The `cbAOut` loop shared by `setup_static_channels` and `program_manual`: write all of `ao_data`. */
    method WriteAnalog()
      requires aoData.Length == NumAO
      modifies this
      ensures log == old(log) + AnalogWrites(aoData[..], outrange)
      ensures doData == old(doData) && initialValues == old(initialValues)
      ensures bufferedUsingAnalog == old(bufferedUsingAnalog) && bufferedUsingDigital == old(bufferedUsingDigital)
    {
      for ch := 0 to NumAO
        invariant log == old(log) + AnalogWrites(aoData[..ch], outrange)
        invariant doData == old(doData) && initialValues == old(initialValues)
        invariant bufferedUsingAnalog == old(bufferedUsingAnalog) && bufferedUsingDigital == old(bufferedUsingDigital)
      {
        assert AnalogWrites(aoData[..ch + 1], outrange) == AnalogWrites(aoData[..ch], outrange) + [AOut(ch, outrange(aoData[ch]))];
        log := log + [AOut(ch, outrange(aoData[ch]))];
      }
      assert aoData[..NumAO] == aoData[..];
    }

    /** `setup_static_channels`: write every `ao_data` entry, then `do_data`. */
    method SetupStaticChannels()
      requires aoData.Length == NumAO
      modifies this
      ensures log == old(log) + StaticWrites(aoData[..], doData, outrange)
      ensures doData == old(doData) && initialValues == old(initialValues)
      ensures bufferedUsingAnalog == old(bufferedUsingAnalog) && bufferedUsingDigital == old(bufferedUsingDigital)
    {
      WriteAnalog();
      log := log + [DOut(doData)];
    }

    /**
     * The copying loop of `program_manual`: `ao_data[i] = panel['ao%d' % i]`
     * channel by channel, stopping at the first missing key, which it returns.
     */
    method CopyPanel(panel: map<string, real>) returns (missing: Option<nat>)
      requires aoData.Length == NumAO
      modifies aoData
      ensures var k := MissingFrom(panel, 0);
        && (missing.Some? <==> k < NumAO)
        && (missing.Some? ==> missing.value == k)
        && aoData[..] == ApplyPanel(old(aoData[..]), panel, k)
    {
      for i := 0 to NumAO
        invariant forall j :: 0 <= j < i ==> AoName(j) in panel
        invariant forall j :: 0 <= j < NumAO ==> aoData[j] == if j < i then panel[AoName(j)] else old(aoData[j])
      {
        var key := AoName(i);
        if key !in panel {
          MissingFromFirst(panel, i);
          assert aoData[..] == ApplyPanel(old(aoData[..]), panel, i);
          return Some(i);
        }
        aoData[i] := panel[key];
      }
      MissingFromFirst(panel, NumAO);
      assert aoData[..] == ApplyPanel(old(aoData[..]), panel, NumAO);
      return None;
    }

    /**
     * `program_manual`: copy `ao%d` of the front panel into `ao_data`
     * channel by channel, then write all of `ao_data`. A missing key raises
     * KeyError after the channels before it were copied and before any write.
     */
    method ProgramManual(panel: map<string, real>) returns (r: Result<(), PyError>)
      requires aoData.Length == NumAO
      modifies this, aoData
      ensures doData == old(doData) && initialValues == old(initialValues)
      ensures bufferedUsingAnalog == old(bufferedUsingAnalog) && bufferedUsingDigital == old(bufferedUsingDigital)
      ensures var k := MissingFrom(panel, 0);
        if k < NumAO then
          r == Failure(KeyError(AoName(k))) && log == old(log) && aoData[..] == ApplyPanel(old(aoData[..]), panel, k)
        else
          r == Success(()) && log == old(log) + AnalogWrites(aoData[..], outrange)
          && forall ch :: 0 <= ch < NumAO ==> AoName(ch) in panel && aoData[ch] == panel[AoName(ch)]
    {
      var missing := CopyPanel(panel);
      if missing.Some? {
        return Failure(KeyError(AoName(missing.value)));
      }
      WriteAnalog();
      return Success(());
    }

    /**
     * `transition_to_buffered`: remember the initial values, note which
     * kinds of buffered data the shot holds, expand the digital words and
     * compute `final_values`. No hardware call is made.
     */
    method TransitionToBuffered(initial: map<string, real>, analog: Option<AnalogOuts>, digital: Option<seq<nat>>)
      returns (r: Result<map<string, real>, PyError>)
      modifies this
      ensures initialValues == Some(initial)
      ensures bufferedUsingAnalog == analog.Some? && bufferedUsingDigital == digital.Some?
      ensures log == old(log) && doData == old(doData)
      ensures r == BufferedFinalValues(analog)
    {
      initialValues := Some(initial);
      bufferedUsingAnalog := analog.Some?;
      bufferedUsingDigital := digital.Some?;
      var finalValues: map<string, real> := map[];
      if digital.Some? {
        var lines := ExpandBits(digital.value, NumDO);
      }
      if analog.Some? {
        var rows := DropLastRow(analog.value.samples);
        var channels := ChannelList(analog.value.channels);
        if channels.Failure? {
          return Failure(channels.error);
        }
        if |rows| == 0 {
          return Failure(IndexError);
        }
        finalValues := ZipToMap(channels.value, rows[|rows| - 1]);
      }
      return Success(finalValues);
    }

    /**
     * What `transition_to_manual(abort)` does: the static writes, and on
     * abort the initial values reprogrammed. Reading `initial_values` before
     * any transition to buffered mode raises AttributeError.
     */
    twostate predicate ManualTransition(abort: bool, new r: Result<bool, PyError>)
      reads this, aoData
      requires aoData.Length == NumAO
    {
      var afterStatic := old(log) + StaticWrites(old(aoData[..]), doData, outrange);
      && doData == old(doData) && initialValues == old(initialValues)
      && bufferedUsingAnalog == old(bufferedUsingAnalog) && bufferedUsingDigital == old(bufferedUsingDigital)
      && (if !abort then
            r == Success(true) && log == afterStatic && aoData[..] == old(aoData[..])
          else if initialValues.None? then
            r == Failure(AttributeError("initial_values")) && log == afterStatic && aoData[..] == old(aoData[..])
          else
            var panel := initialValues.value;
            var k := MissingFrom(panel, 0);
            if k < NumAO then
              r == Failure(KeyError(AoName(k))) && log == afterStatic && aoData[..] == ApplyPanel(old(aoData[..]), panel, k)
            else
              r == Success(true) && log == afterStatic + AnalogWrites(aoData[..], outrange)
              && forall ch :: 0 <= ch < NumAO ==> aoData[ch] == panel[AoName(ch)])
    }

    /**
     * On success every analog channel holds `outrange` of its manual value,
     * which after an abort is its initial value, and the port holds `do_data`.
     */
    predicate OutputsRestored(abort: bool)
      reads this, aoData
      requires aoData.Length == NumAO
      requires abort ==> initialValues.Some? && forall ch :: 0 <= ch < NumAO ==> AoName(ch) in initialValues.value
    {
      && (forall ch :: 0 <= ch < NumAO ==>
            AnalogLevel(log, ch) == Some(outrange(if abort then initialValues.value[AoName(ch)] else aoData[ch])))
      && DigitalWord(log) == Some(doData)
    }

    /** `transition_to_manual(abort)`. */
    method TransitionToManual(abort: bool) returns (r: Result<bool, PyError>)
      requires aoData.Length == NumAO
      modifies this, aoData
      ensures ManualTransition(abort, r)
      ensures r.Success? ==> (abort ==> initialValues.Some? && forall ch :: 0 <= ch < NumAO ==> AoName(ch) in initialValues.value)
      ensures r.Success? ==> OutputsRestored(abort)
    {
      SetupStaticChannels();
      ghost var afterStatic := log;
      StaticWritesSetOutputs(old(log), aoData[..], doData, outrange);
      if abort {
        if initialValues.None? {
          return Failure(AttributeError("initial_values"));
        }
        var res := ProgramManual(initialValues.value);
        if res.Failure? {
          return Failure(res.error);
        }
        PanelWritesRestore(afterStatic, aoData, initialValues.value, outrange);
      } else {
        forall ch | 0 <= ch < NumAO
          ensures AnalogLevel(log, ch) == Some(outrange(aoData[ch]))
        {
          assert aoData[..][ch] == aoData[ch];
        }
      }
      return Success(true);
    }

    /** `abort_transition_to_buffered`: `transition_to_manual(True)`. */
    method AbortTransitionToBuffered() returns (r: Result<bool, PyError>)
      requires aoData.Length == NumAO
      modifies this, aoData
      ensures ManualTransition(true, r)
      ensures r.Success? ==> initialValues.Some? && forall ch :: 0 <= ch < NumAO ==> AoName(ch) in initialValues.value
      ensures r.Success? ==> OutputsRestored(true)
    {
      r := TransitionToManual(true);
    }

    /** `abort_buffered`: `transition_to_manual(True)`. */
    method AbortBuffered() returns (r: Result<bool, PyError>)
      requires aoData.Length == NumAO
      modifies this, aoData
      ensures ManualTransition(true, r)
      ensures r.Success? ==> initialValues.Some? && forall ch :: 0 <= ch < NumAO ==> AoName(ch) in initialValues.value
      ensures r.Success? ==> OutputsRestored(true)
    {
      r := TransitionToManual(true);
    }
  }
}
