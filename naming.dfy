/** Object keys written by the ingester: the run prefix ("tub") computed once at
    process start, and the three keys placed under it. */
module Naming {
  import opened Decimal

  /** The wall-clock reading taken at process start, as the numbers `time.Time`
      reports (year, month 1-12, day 1-31, hour 0-23, minute 0-59). */
  datatype Timestamp = Timestamp(year: nat, month: nat, day: nat, hour: nat, minute: nat)

  predicate ValidClock(t: Timestamp) {
    1 <= t.month <= 12 && 1 <= t.day <= 31 && t.hour < 24 && t.minute < 60
  }

  predicate Excludes(s: string, c: char) {
    forall i :: 0 <= i < |s| ==> s[i] != c
  }

  /** A single path segment: no `/` in it. */
  predicate NoSlash(s: string) {
    Excludes(s, '/')
  }

  lemma DigitsExclude(s: string, c: char)
    requires AllDigits(s) && !IsDigit(c)
    ensures Excludes(s, c)
  {
  }

  /** `tub_{Y}-{M}-{D}_{h}{m}`, every number unpadded. */
  function RunPrefix(t: Timestamp): string {
    var y, mo, d := NatToDecimal(t.year), NatToDecimal(t.month), NatToDecimal(t.day);
    var h, mi := NatToDecimal(t.hour), NatToDecimal(t.minute);
    "tub_" + y + "-" + mo + "-" + d + "_" + h + mi
  }

  /** The prefix written with each separator between the part before it and
      the rest. */
  lemma RunPrefixParts(t: Timestamp)
    ensures var y, mo, d := NatToDecimal(t.year), NatToDecimal(t.month), NatToDecimal(t.day);
      RunPrefix(t) == "tub_" + (y + ['-'] + (mo + ['-'] + (d + ['_'] + (NatToDecimal(t.hour) + NatToDecimal(t.minute)))))
  {
    var y, mo, d := NatToDecimal(t.year), NatToDecimal(t.month), NatToDecimal(t.day);
    var h, mi := NatToDecimal(t.hour), NatToDecimal(t.minute);
    Reassociate("tub_", y, "-", mo, "-", d, "_", h, mi);
  }

  lemma Reassociate(a: string, b: string, c: string, d: string, e: string, f: string, g: string, h: string, i: string)
    ensures a + b + c + d + e + f + g + h + i == a + (b + c + (d + e + (f + g + (h + i))))
  {
  }

  lemma NoSlashAppend(a: string, b: string)
    ensures NoSlash(a + b) <==> NoSlash(a) && NoSlash(b)
  {
    if NoSlash(a) && NoSlash(b) {
      forall i | 0 <= i < |a + b|
        ensures (a + b)[i] != '/'
      {
        if i >= |a| {
          assert (a + b)[i] == b[i - |a|];
        }
      }
    }
    if NoSlash(a + b) {
      forall i | 0 <= i < |a|
        ensures a[i] != '/'
      {
        assert a[i] == (a + b)[i];
      }
      forall i | 0 <= i < |b|
        ensures b[i] != '/'
      {
        assert b[i] == (a + b)[|a| + i];
      }
    }
  }

  /** A run prefix starts with `tub_` and holds no `/`, so it is a single
      path segment of every key under it. */
  lemma RunPrefixShape(t: Timestamp)
    ensures NoSlash(RunPrefix(t))
    ensures |RunPrefix(t)| > 4 && RunPrefix(t)[..4] == "tub_"
  {
    var y, mo, d := NatToDecimal(t.year), NatToDecimal(t.month), NatToDecimal(t.day);
    var hm := NatToDecimal(t.hour) + NatToDecimal(t.minute);
    RunPrefixParts(t);
    DigitsExclude(y, '/');
    DigitsExclude(mo, '/');
    DigitsExclude(d, '/');
    DigitsExclude(NatToDecimal(t.hour), '/');
    DigitsExclude(NatToDecimal(t.minute), '/');
    NoSlashAppend(NatToDecimal(t.hour), NatToDecimal(t.minute));
    NoSlashAppend(d + ['_'], hm);
    NoSlashAppend(d, ['_']);
    NoSlashAppend(mo + ['-'], d + ['_'] + hm);
    NoSlashAppend(mo, ['-']);
    NoSlashAppend(y + ['-'], mo + ['-'] + (d + ['_'] + hm));
    NoSlashAppend(y, ['-']);
    NoSlashAppend("tub_", y + ['-'] + (mo + ['-'] + (d + ['_'] + hm)));
    PrefixSlice("tub_", y + ['-'] + (mo + ['-'] + (d + ['_'] + hm)));
  }

  lemma PrefixSlice(p: string, x: string)
    ensures (p + x)[..|p|] == p && (p + x)[|p|..] == x
  {
  }

  /** Key of an image object: `{tub}/{cam/image_array}`. */
  function ImageKey(tub: string, imageArray: string): (key: string)
    ensures UnderRun(key, tub) && key[|tub| + 1..] == imageArray
  {
    PrefixSlice(tub + "/", imageArray);
    tub + "/" + imageArray
  }

  /** Key of a JSON record object: `{tub}/record_{current_ix}.json`. */
  function RecordKey(tub: string, currentIX: int): (key: string)
    ensures UnderRun(key, tub) && key[|tub| + 1..] == RecordName(currentIX)
  {
    PrefixSlice(tub + "/", RecordName(currentIX));
    tub + "/" + RecordName(currentIX)
  }

  function RecordName(currentIX: int): string {
    "record_" + IntToDecimal(currentIX) + ".json"
  }

  /** A record's name is `record_`, the index in decimal, and `.json`: the
      index can be read back from the name. */
  lemma RecordNameReadsBack(i: int)
    ensures var name := RecordName(i);
      && |name| > 12 && name[..7] == "record_" && name[|name| - 5..] == ".json"
      && IsSignedDecimal(name[7..|name| - 5]) && SignedValue(name[7..|name| - 5]) == i
  {
    var digits := IntToDecimal(i);
    var name := RecordName(i);
    assert name[7..|name| - 5] == digits;
    IntDecimalRoundTrip(i);
  }

  /** Key of the manifest: `{tub}/meta.json`. */
  function MetaKey(tub: string): (key: string)
    ensures UnderRun(key, tub) && key[|tub| + 1..] == "meta.json"
  {
    PrefixSlice(tub + "/", "meta.json");
    tub + "/" + "meta.json"
  }

  /** Position of the first `c` in `s`, or `|s|` when there is none. */
  function FirstIndexOf(s: string, c: char): (k: nat)
    ensures k <= |s|
  {
    if s == [] || s[0] == c then 0 else 1 + FirstIndexOf(s[1..], c)
  }

  lemma {:induction false} FirstIndexOfSeparator(a: string, b: string, sep: char)
    requires Excludes(a, sep)
    ensures FirstIndexOf(a + [sep] + b, sep) == |a|
    decreases |a|
  {
    if a != [] {
      assert (a + [sep] + b)[1..] == a[1..] + [sep] + b;
      FirstIndexOfSeparator(a[1..], b, sep);
    }
  }

  /** Splitting at the first occurrence of a separator that the head cannot
      contain recovers both parts. */
  lemma SplitAtSeparator(a: string, b: string, c: string, d: string, sep: char)
    requires Excludes(a, sep) && Excludes(c, sep)
    ensures a + [sep] + b == c + [sep] + d <==> a == c && b == d
  {
    if a + [sep] + b == c + [sep] + d {
      var x := a + [sep] + b;
      FirstIndexOfSeparator(a, b, sep);
      FirstIndexOfSeparator(c, d, sep);
      assert a == x[..|a|] == c;
      assert b == x[|a| + 1..] == d;
    }
  }

  /** Two runs share a prefix exactly when they share the date and the
      concatenated hour-and-minute digits: the date part is recovered, the
      time part is not. */
  lemma RunPrefixEquality(s: Timestamp, t: Timestamp)
    ensures RunPrefix(s) == RunPrefix(t) <==>
      && s.year == t.year && s.month == t.month && s.day == t.day
      && NatToDecimal(s.hour) + NatToDecimal(s.minute) == NatToDecimal(t.hour) + NatToDecimal(t.minute)
  {
    var y1, m1, d1, hm1 := NatToDecimal(s.year), NatToDecimal(s.month), NatToDecimal(s.day),
      NatToDecimal(s.hour) + NatToDecimal(s.minute);
    var y2, m2, d2, hm2 := NatToDecimal(t.year), NatToDecimal(t.month), NatToDecimal(t.day),
      NatToDecimal(t.hour) + NatToDecimal(t.minute);
    RunPrefixParts(s);
    RunPrefixParts(t);
    var tail1 := m1 + ['-'] + (d1 + ['_'] + hm1);
    var tail2 := m2 + ['-'] + (d2 + ['_'] + hm2);
    if RunPrefix(s) == RunPrefix(t) {
      PrefixSlice("tub_", y1 + ['-'] + tail1);
      PrefixSlice("tub_", y2 + ['-'] + tail2);
      DigitsExclude(y1, '-');
      DigitsExclude(y2, '-');
      SplitAtSeparator(y1, tail1, y2, tail2, '-');
      DigitsExclude(m1, '-');
      DigitsExclude(m2, '-');
      SplitAtSeparator(m1, d1 + ['_'] + hm1, m2, d2 + ['_'] + hm2, '-');
      DigitsExclude(d1, '_');
      DigitsExclude(d2, '_');
      SplitAtSeparator(d1, hm1, d2, hm2, '_');
      NatToDecimalInjective(s.year, t.year);
      NatToDecimalInjective(s.month, t.month);
      NatToDecimalInjective(s.day, t.day);
    }
  }

  /** The prefix is not injective on valid clock readings: 01:15 and 11:05 on
      the same day both give `..._115`. */
  lemma RunPrefixCollision(y: nat, m: nat, d: nat)
    requires 1 <= m <= 12 && 1 <= d <= 31
    ensures ValidClock(Timestamp(y, m, d, 1, 15)) && ValidClock(Timestamp(y, m, d, 11, 5))
    ensures Timestamp(y, m, d, 1, 15) != Timestamp(y, m, d, 11, 5)
    ensures RunPrefix(Timestamp(y, m, d, 1, 15)) == RunPrefix(Timestamp(y, m, d, 11, 5))
  {
    assert NatToDecimal(15) == "15" && NatToDecimal(11) == "11";
    assert NatToDecimal(1) + NatToDecimal(15) == "115" == NatToDecimal(11) + NatToDecimal(5);
    RunPrefixEquality(Timestamp(y, m, d, 1, 15), Timestamp(y, m, d, 11, 5));
  }

  /** Under one run, equal indices give the same record key (a later record
      overwrites an earlier one) and distinct indices give distinct keys. */
  lemma RecordKeyInjective(tub: string, i: int, j: int)
    ensures RecordKey(tub, i) == RecordKey(tub, j) <==> i == j
  {
    if RecordKey(tub, i) == RecordKey(tub, j) {
      CancelPrefix(tub + "/", RecordName(i), RecordName(j));
      CancelSuffix("record_" + IntToDecimal(i), "record_" + IntToDecimal(j), ".json");
      CancelPrefix("record_", IntToDecimal(i), IntToDecimal(j));
      IntToDecimalInjective(i, j);
    }
  }

  lemma CancelPrefix(p: string, x: string, y: string)
    ensures p + x == p + y <==> x == y
  {
    if p + x == p + y {
      PrefixSlice(p, x);
      PrefixSlice(p, y);
    }
  }

  lemma CancelSuffix(x: string, y: string, q: string)
    ensures x + q == y + q <==> x == y
  {
    if x + q == y + q {
      assert x == (x + q)[..|x|];
      assert y == (y + q)[..|y|];
    }
  }

  /** The key of an object determines the run it belongs to and its name
      within the run, since run prefixes never contain `/`. */
  lemma KeySplitsAtRun(tub1: string, name1: string, tub2: string, name2: string)
    requires NoSlash(tub1) && NoSlash(tub2)
    ensures tub1 + "/" + name1 == tub2 + "/" + name2 <==> tub1 == tub2 && name1 == name2
  {
    SplitAtSeparator(tub1, name1, tub2, name2, '/');
  }

  /** A JSON record never lands on the manifest's key, in this run or any
      other. */
  lemma RecordKeyIsNotMetaKey(tub1: string, tub2: string, i: int)
    requires NoSlash(tub1) && NoSlash(tub2)
    ensures RecordKey(tub1, i) != MetaKey(tub2)
  {
    KeySplitsAtRun(tub1, RecordName(i), tub2, "meta.json");
    assert RecordName(i)[0] == 'r';
  }

  /** Within a run, a JSON record's key is never the manifest's. */
  lemma RecordKeyIsNotMeta(tub: string, i: int)
    ensures RecordKey(tub, i) != MetaKey(tub)
  {
    CancelPrefix(tub + "/", RecordName(i), "meta.json");
    assert RecordName(i)[0] == 'r';
  }

  /** An image lands on the manifest's key, or on a JSON record's key, exactly
      when its `cam/image_array` value is that object's name. */
  lemma ImageKeyCollisions(tub: string, imageArray: string, i: int)
    ensures ImageKey(tub, imageArray) == MetaKey(tub) <==> imageArray == "meta.json"
    ensures ImageKey(tub, imageArray) == RecordKey(tub, i) <==> imageArray == RecordName(i)
  {
    var p := tub + "/";
    assert ImageKey(tub, imageArray)[|p|..] == imageArray;
    assert MetaKey(tub)[|p|..] == "meta.json";
    assert RecordKey(tub, i)[|p|..] == RecordName(i);
  }

  /** `key` is an object of the run `tub`. */
  predicate UnderRun(key: string, tub: string) {
    tub + "/" <= key
  }

  /** A key belongs to at most one run: runs with different prefixes never
      write to each other's keys. */
  lemma RunOfKey(key: string, tub1: string, tub2: string)
    requires NoSlash(tub1) && NoSlash(tub2)
    requires UnderRun(key, tub1) && UnderRun(key, tub2)
    ensures tub1 == tub2
  {
    assert key[|tub1|] == '/' && key[|tub2|] == '/';
    if |tub1| != |tub2| {
      assert false;   // the shorter prefix would put a '/' inside the longer
    }
    assert tub1 == key[..|tub1|] == tub2;
  }
}
