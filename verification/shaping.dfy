/**
 * The data shaping `transition_to_buffered` of MC_USB_3114.py does on the
 * arrays it has read from the shot file: expanding each digital word into
 * its lines, dropping the last analog sample row, parsing the analog
 * channel names and building `final_values`.
 */
module Shaping {
  import opened Wrappers
  import opened Text

  /** The Python exceptions the worker's code can raise on its inputs. */
  datatype PyError = IndexError | KeyError(key: string) | AttributeError(name: string)

  // ------------------------------------------------------------ bit expansion

  function Pow2(i: nat): (p: nat)
    ensures p >= 1
  {
    if i == 0 then 1 else 2 * Pow2(i - 1)
  }

  /** `(w & (1 << i)) >> i` for a word `w >= 0`: bit `i` of `w`. */
  function Bit(w: nat, i: nat): (b: nat)
    ensures b < 2
  {
    (w / Pow2(i)) % 2
  }

  /** The number a little-endian list of bits denotes: the sum of `bits[i] * 2^i`. */
  function Weighted(bits: seq<nat>): nat
  {
    if bits == [] then 0 else bits[0] + 2 * Weighted(bits[1..])
  }

  /** Bits 0 .. m-1 of `w`, lowest first. */
  function BitsOf(w: nat, m: nat): seq<nat>
  {
    seq(m, i requires 0 <= i < m => Bit(w, i))
  }

  /** Euclidean division is unique: a quotient and remainder that rebuild `w` are `w / d` and `w % d`. */
  lemma DivModUnique(w: nat, d: nat, q: nat, r: nat)
    requires d > 0 && r < d && w == d * q + r
    ensures w / d == q && w % d == r
  {
    var q' := w / d;
    if q' < q {
      MulMonotone(d, q' + 1, q);
    } else if q' > q {
      MulMonotone(d, q + 1, q');
    }
  }

  lemma MulMonotone(d: nat, a: nat, b: nat)
    requires a <= b
    ensures d * a <= d * b
  {
  }

  /** Dividing by `2 * p` is halving and then dividing by `p`. */
  lemma HalveThenDivide(w: nat, p: nat)
    requires p > 0
    ensures w / (2 * p) == (w / 2) / p
    ensures w % (2 * p) == 2 * ((w / 2) % p) + w % 2
  {
    var h := w / 2;
    var q, r := h / p, h % p;
    assert w == 2 * h + w % 2;
    assert h == p * q + r;
    assert w == (2 * p) * q + (2 * r + w % 2);
    DivModUnique(w, 2 * p, q, 2 * r + w % 2);
  }

  /** Bit i + 1 of `w` is bit i of `w / 2`. */
  lemma BitShift(w: nat, i: nat)
    ensures Bit(w, i + 1) == Bit(w / 2, i)
  {
    HalveThenDivide(w, Pow2(i));
  }

  /**
   * Reading the expanded bits back as a binary number gives the word modulo
   * `2^m`: bits above `num_DO` are dropped, the rest are kept exactly.
   */
  lemma {:induction false} BitsReconstruct(w: nat, m: nat)
    ensures Weighted(BitsOf(w, m)) == w % Pow2(m)
    decreases m
  {
    if m > 0 {
      var bits := BitsOf(w, m);
      BitsReconstruct(w / 2, m - 1);
      assert bits[1..] == BitsOf(w / 2, m - 1) by {
        forall i | 0 <= i < m - 1 ensures bits[1..][i] == Bit(w / 2, i) {
          BitShift(w, i);
        }
      }
      HalveThenDivide(w, Pow2(m - 1));
    }
  }

  /** Row `r` of a table, as a sequence. */
  function TableRow(table: array2<nat>, r: nat): seq<nat>
    requires r < table.Length0
    reads table
  {
    seq(table.Length1, i requires 0 <= i < table.Length1 reads table => table[r, i])
  }

  /**
   * `do_write_data` of `transition_to_buffered`: a zero-initialised table
   * with one row per word of `do_bitfield` and `num_DO` columns, filled
   * column by column with bit i of every word. Read back as binary numbers,
   * the rows are the words modulo `2^num_DO`.
   */
  method ExpandBits(bitfield: seq<nat>, numDO: nat) returns (table: array2<nat>)
    ensures fresh(table)
    ensures table.Length0 == |bitfield| && table.Length1 == numDO
    ensures forall r, i :: 0 <= r < |bitfield| && 0 <= i < numDO ==> table[r, i] == Bit(bitfield[r], i)
    ensures forall r :: 0 <= r < |bitfield| ==> Weighted(TableRow(table, r)) == bitfield[r] % Pow2(numDO)
  {
    table := new nat[|bitfield|, numDO]((r, i) => 0);
    for i := 0 to numDO
      invariant forall r, c :: 0 <= r < |bitfield| && 0 <= c < numDO ==>
        table[r, c] == if c < i then Bit(bitfield[r], c) else 0
    {
      for r := 0 to |bitfield|
        invariant forall r', c :: 0 <= r' < |bitfield| && 0 <= c < numDO ==>
          table[r', c] == if c < i || (c == i && r' < r) then Bit(bitfield[r'], c) else 0
      {
        table[r, i] := Bit(bitfield[r], i);
      }
    }
    forall r | 0 <= r < |bitfield|
      ensures Weighted(TableRow(table, r)) == bitfield[r] % Pow2(numDO)
    {
      assert TableRow(table, r) == BitsOf(bitfield[r], numDO);
      BitsReconstruct(bitfield[r], numDO);
    }
  }

  // ------------------------------------------------------------- row trimming

  /** `ao_data[:-1, :]`: all sample rows but the last; nothing of an empty buffer. */
  function DropLastRow<T>(rows: seq<T>): (kept: seq<T>)
  {
    if |rows| == 0 then [] else rows[..|rows| - 1]
  }

  /** The trimmed buffer has one row fewer (none fewer than zero), and its rows are the first ones of the input. */
  lemma DropLastRowShape<T>(rows: seq<T>)
    ensures var kept := DropLastRow(rows);
      && |kept| == (if |rows| == 0 then 0 else |rows| - 1)
      && forall k :: 0 <= k < |kept| ==> kept[k] == rows[k]
  {
  }

  /** Trimming undoes appending one final row. */
  lemma DropLastRowAppend<T>(rows: seq<T>, last: T)
    ensures DropLastRow(rows + [last]) == rows
  {
    assert (rows + [last])[..|rows|] == rows;
  }

  // ------------------------------------------------------------ channel names

  /** A text contains the one-character separator exactly when it contains that character. */
  lemma ContainsChar(t: string, c: char)
    ensures Contains(t, [c]) <==> c in t
  {
    if c in t {
      var j :| 0 <= j < |t| && t[j] == c;
      assert t[j..j + 1] == [c];
      assert OccursAt(t, [c], j);
    }
    if Contains(t, [c]) {
      var j: nat :| OccursAt(t, [c], j);
      assert t[j] == t[j..j + 1][0];
    }
  }

  /** `name.split('/')[1]`, which raises IndexError when the name has no '/'. */
  function SecondSegment(name: string): (r: Result<string, PyError>)
    ensures r.Failure? ==> r.error == IndexError
    ensures r.Success? ==> '/' !in r.value
  {
    var parts := Split(name, "/");
    if |parts| < 2 then Failure(IndexError)
    else
      ContainsChar(parts[1], '/');
      Success(parts[1])
  }

  /** `seg` is what lies between the first '/' of `name` and the next '/' or the end. */
  ghost predicate IsSecondSegment(name: string, seg: string)
  {
    exists i :: 0 <= i < |name| && name[i] == '/' && '/' !in name[..i]
      && i + 1 + |seg| <= |name| && name[i + 1..i + 1 + |seg|] == seg && '/' !in seg
      && (i + 1 + |seg| == |name| || name[i + 1 + |seg|] == '/')
  }

  /** Joining two or more parts: the first, the separator, the second, then the rest. */
  lemma JoinFirstTwo(parts: seq<string>, sep: string)
    requires |parts| >= 2
    ensures Join(parts, sep) == parts[0] + sep + parts[1] + (if |parts| == 2 then "" else sep + Join(parts[2..], sep))
  {
    assert parts[1..][0] == parts[1];
    if |parts| > 2 {
      assert parts[1..][1..] == parts[2..];
    }
  }

  /** A name laid out as first segment, '/', second segment, then nothing or a '/'. */
  lemma SegmentLayout(name: string, first: string, seg: string, rest: string)
    requires name == first + "/" + seg + rest
    requires '/' !in first && '/' !in seg
    requires rest == [] || rest[0] == '/'
    ensures '/' in name && IsSecondSegment(name, seg)
  {
    var i := |first|;
    assert name[i] == '/' && name[..i] == first;
    assert name[i + 1..i + 1 + |seg|] == seg;
    if rest != [] {
      assert name[i + 1 + |seg|] == rest[0];
    }
  }

  /**
   * `name.split('/')[1]` raises exactly when the name has no '/', and
   * otherwise is the text between the first '/' and the next one.
   */
  lemma SecondSegmentSpec(name: string)
    ensures SecondSegment(name).Failure? <==> '/' !in name
    ensures SecondSegment(name).Success? ==> IsSecondSegment(name, SecondSegment(name).value)
  {
    var parts := Split(name, "/");
    forall k | 0 <= k < |parts| ensures '/' !in parts[k] {
      ContainsChar(parts[k], '/');
    }
    if |parts| < 2 {
      assert Join(parts, "/") == parts[0];
    } else {
      JoinFirstTwo(parts, "/");
      var rest := if |parts| == 2 then "" else "/" + Join(parts[2..], "/");
      SegmentLayout(name, parts[0], parts[1], rest);
    }
  }

  /** `[channel.split('/')[1] for channel in names]`; the first name without '/' raises. */
  function SecondSegments(names: seq<string>): (r: Result<seq<string>, PyError>)
    ensures r.Success? ==> (|r.value| == |names|
      && forall k :: 0 <= k < |names| ==> SecondSegment(names[k]) == Success(r.value[k]))
    ensures r.Failure? <==> exists k :: 0 <= k < |names| && SecondSegment(names[k]).Failure?
    ensures r.Failure? ==> r.error == IndexError
  {
    if names == [] then Success([])
    else
      match SecondSegment(names[0])
      case Failure(e) => Failure(e)
      case Success(seg) =>
        match SecondSegments(names[1..])
        case Failure(e) =>
          var k :| 0 <= k < |names[1..]| && SecondSegment(names[1..][k]).Failure?;
          assert SecondSegment(names[k + 1]).Failure?;
          Failure(e)
        case Success(rest) =>
          assert forall k :: 1 <= k < |names| ==> names[k] == names[1..][k - 1];
          Success([seg] + rest)
  }

  /** `channel_list` of `transition_to_buffered`, from the `', '`-separated `analog_out_channels`. */
  function ChannelList(aoChannels: string): (r: Result<seq<string>, PyError>)
    ensures r.Failure? ==> r.error == IndexError
  {
    SecondSegments(Split(aoChannels, ", "))
  }

  /**
   * `channel_list` has one entry per `', '`-separated name, and each entry
   * is that name's second '/'-separated segment; it raises IndexError exactly
   * when some name has no '/'.
   */
  lemma ChannelListSpec(aoChannels: string)
    ensures var names, r := Split(aoChannels, ", "), ChannelList(aoChannels);
      && (r.Failure? <==> exists k :: 0 <= k < |names| && '/' !in names[k])
      && (r.Success? ==> (|r.value| == |names|
            && forall k :: 0 <= k < |names| ==> IsSecondSegment(names[k], r.value[k]) && '/' !in r.value[k]))
  {
    var names := Split(aoChannels, ", ");
    forall k | 0 <= k < |names| ensures SecondSegment(names[k]).Failure? <==> '/' !in names[k] {
      SecondSegmentSpec(names[k]);
    }
    if ChannelList(aoChannels).Success? {
      var list := ChannelList(aoChannels).value;
      forall k | 0 <= k < |names| ensures IsSecondSegment(names[k], list[k]) && '/' !in list[k] {
        SecondSegmentSpec(names[k]);
        var parts := Split(names[k], "/");
        ContainsChar(parts[1], '/');
      }
    }
  }

  // ------------------------------------------------------------- final values

  function Min(a: nat, b: nat): nat
  {
    if a < b then a else b
  }

  /**
   * `{k: v for k, v in zip(keys, vals)}`: the pairs up to the shorter of the
   * two lists, a later pair overwriting an earlier one with the same key.
   */
  function ZipToMap<K, V>(keys: seq<K>, vals: seq<V>): (m: map<K, V>)
    ensures m.Keys == set k | 0 <= k < Min(|keys|, |vals|) :: keys[k]
    decreases |keys|
  {
    var n := Min(|keys|, |vals|);
    if n == 0 then map[]
    else
      var m := ZipToMap(keys[..n - 1], vals[..n - 1]);
      assert forall k :: 0 <= k < n - 1 ==> keys[..n - 1][k] == keys[k];
      m[keys[n - 1] := vals[n - 1]]
  }

  /** Each key maps to the value paired with its last occurrence among the zipped pairs. */
  lemma {:induction false} ZipToMapLastWins<K, V>(keys: seq<K>, vals: seq<V>, k: nat)
    requires k < Min(|keys|, |vals|)
    requires forall j :: k < j < Min(|keys|, |vals|) ==> keys[j] != keys[k]
    ensures keys[k] in ZipToMap(keys, vals) && ZipToMap(keys, vals)[keys[k]] == vals[k]
    decreases |keys|
  {
    var n := Min(|keys|, |vals|);
    if k < n - 1 {
      var ks, vs := keys[..n - 1], vals[..n - 1];
      assert Min(|ks|, |vs|) == n - 1;
      ZipToMapLastWins(ks, vs, k);
    }
  }

  /** The analog part of a shot file: `analog_out_channels` and the `ANALOG_OUTS` rows. */
  datatype AnalogOuts = AnalogOuts(channels: string, samples: seq<seq<real>>)

  /**
   * The `final_values` that `transition_to_buffered` returns: empty without
   * analog data (the digital values are never added), otherwise the last
   * retained analog row keyed by `channel_list`. Indexing the last row of an
   * empty trimmed buffer raises IndexError.
   */
  function BufferedFinalValues(analog: Option<AnalogOuts>): (r: Result<map<string, real>, PyError>)
    ensures r.Failure? ==> r.error == IndexError
  {
    match analog
    case None => Success(map[])
    case Some(a) =>
      var rows := DropLastRow(a.samples);
      match ChannelList(a.channels)
      case Failure(e) => Failure(e)
      case Success(names) =>
        if |rows| == 0 then Failure(IndexError)
        else Success(ZipToMap(names, rows[|rows| - 1]))
  }

  /**
   * `final_values` never holds a digital line: every key is a second path
   * segment, so none contains '/' and none is a `port0/lineN` name.
   */
  lemma FinalValuesHaveNoDigitalKeys(analog: Option<AnalogOuts>)
    ensures var r := BufferedFinalValues(analog);
      r.Success? ==> forall key :: key in r.value ==> '/' !in key
  {
    if analog.Some? && ChannelList(analog.value.channels).Success? {
      ChannelListSpec(analog.value.channels);
    }
  }

  /**
   * With analog data of at least two rows and channel names that parse and
   * are distinct, each channel's final value is its column of the
   * second-to-last input row (the last retained one).
   */
  lemma FinalValuesAreLastRetainedRow(analog: AnalogOuts, k: nat)
    requires ChannelList(analog.channels).Success?
    requires var names := ChannelList(analog.channels).value;
      && k < |names| && (forall j :: k < j < |names| ==> names[j] != names[k])
    requires |analog.samples| >= 2 && k < |analog.samples[|analog.samples| - 2]|
    ensures var names := ChannelList(analog.channels).value;
      && BufferedFinalValues(Some(analog)).Success?
      && names[k] in BufferedFinalValues(Some(analog)).value
      && BufferedFinalValues(Some(analog)).value[names[k]] == analog.samples[|analog.samples| - 2][k]
  {
    var rows := DropLastRow(analog.samples);
    assert rows[|rows| - 1] == analog.samples[|analog.samples| - 2];
    ZipToMapLastWins(ChannelList(analog.channels).value, rows[|rows| - 1], k);
  }

  /** Without analog data `final_values` is empty. */
  lemma FinalValuesWithoutAnalog()
    ensures BufferedFinalValues(None) == Success(map[])
  {
  }
}
