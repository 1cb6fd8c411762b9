/**
 * Channel names of the USB-3114 and the sort keys the BLACS tab uses to
 * place their widgets: analog outputs are named `ao0` .. `ao15`, digital
 * lines `port0/line0` .. `port0/line7`, and both key functions strip the
 * prefix, parse the number and format it as `'%02d'`.
 */
module Names {
  import opened Wrappers
  import opened Text

  /** `'ao%d' % i`, the name of analog output `i`. */
  function AoName(i: nat): string
  {
    "ao" + NatToString(i)
  }

  /** `'port0/line%d' % i`, the name of digital line `i`. */
  function LineName(i: nat): string
  {
    "port0/line" + NatToString(i)
  }

  /**
   * The key both sort functions compute: remove every occurrence of the
   * channel prefix, parse what is left as a decimal integer, format it with
   * two digits at least. None stands for the ValueError `int` raises on a
   * string that is not a numeral.
   */
  function SortKey(channel: string, prefix: string): (key: Option<string>)
    requires |prefix| > 0
    ensures key.Some? ==> |key.value| >= 2 && AllDigits(key.value)
  {
    match ParseInt(Replace(channel, prefix, ""))
    case None => None
    case Some(n) => Some(Format02(n))
  }

  /** `do_sort(channel)`: the key with the prefix `port0/line`. */
  function DoSort(channel: string): (key: Option<string>)
  {
    SortKey(channel, "port0/line")
  }

  /** `ao_sort(channel)`: the key with the prefix `ao`. */
  function AoSort(channel: string): (key: Option<string>)
  {
    SortKey(channel, "ao")
  }

  /** The key of digital line N is N in two digits at least. */
  lemma DoSortLineName(i: nat)
    ensures DoSort(LineName(i)) == Some(Format02(i))
  {
    var digits := NatToString(i);
    assert Replace(LineName(i), "port0/line", "") == digits by {
      assert 'p' !in digits;
      ReplaceLeadingPrefix("port0/line", digits);
    }
    assert ParseInt(digits) == Some(i);
  }

  /** The key of analog output N is N in two digits at least. */
  lemma AoSortAoName(i: nat)
    ensures AoSort(AoName(i)) == Some(Format02(i))
  {
    var digits := NatToString(i);
    assert Replace(AoName(i), "ao", "") == digits by {
      assert 'a' !in digits;
      ReplaceLeadingPrefix("ao", digits);
    }
    assert ParseInt(digits) == Some(i);
  }

  /**
   * Below one hundred, sorting the digital widgets by key sorts them by line
   * number: the key of line i precedes the key of line j exactly when i < j.
   */
  lemma DoSortOrder(i: nat, j: nat)
    requires i < 100 && j < 100
    ensures DoSort(LineName(i)).Some? && DoSort(LineName(j)).Some?
    ensures LexLess(DoSort(LineName(i)).value, DoSort(LineName(j)).value) <==> i < j
  {
    DoSortLineName(i);
    DoSortLineName(j);
    Format02OrderMatches(i, j);
  }

  /** Below one hundred, sorting the analog widgets by key sorts them by channel number. */
  lemma AoSortOrder(i: nat, j: nat)
    requires i < 100 && j < 100
    ensures AoSort(AoName(i)).Some? && AoSort(AoName(j)).Some?
    ensures LexLess(AoSort(AoName(i)).value, AoSort(AoName(j)).value) <==> i < j
  {
    AoSortAoName(i);
    AoSortAoName(j);
    Format02OrderMatches(i, j);
  }

  /** Distinct channels have distinct names: `'ao%d'` is one-to-one. */
  lemma AoNameInjective(i: nat, j: nat)
    requires AoName(i) == AoName(j)
    ensures i == j
  {
    assert NatToString(i) == AoName(i)[2..];
    assert NatToString(j) == AoName(j)[2..];
  }
}
