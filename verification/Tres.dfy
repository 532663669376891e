/**
 Trackable resources: printing a resource list as text and parsing such text back into CPU,
 memory and GPU counts. Memory products are 64-bit and wrap.
 */
module Tres {
  import opened Strings
  import opened Decimal
  import opened Strconv
  import Hostlist

  datatype Resources = Resources(cpus: int, memoryBytes: int, gpus: int)

  const NONE := Resources(0, 0, 0)

  /** Two's complement reduction to 64 bits. */
  function Int64(x: int): (r: int)
    ensures -INT64_LIMIT <= r < INT64_LIMIT
    ensures r == x <==> -INT64_LIMIT <= x < INT64_LIMIT
  {
    (x + INT64_LIMIT) % (2 * INT64_LIMIT) - INT64_LIMIT
  }

  function Multiplier(c: char): Option<int> {
    if c in "kK" then Some(0x400)
    else if c in "mM" then Some(0x10_0000)
    else if c in "gG" then Some(0x4000_0000)
    else if c in "tT" then Some(0x100_0000_0000)
    else if c in "pP" then Some(0x4_0000_0000_0000)
    else None
  }

  /** A number of bytes, or a number with a binary unit suffix. */
  function MemoryValue(value: string): Option<int> {
    if value == "" then None
    else
      var last := value[|value| - 1];
      var unit := if IsDigit(last) then Some(1) else Multiplier(last);
      var digits := if IsDigit(last) then value else value[..|value| - 1];
      if unit.None? || ParseInt(digits, INT64_LIMIT).None? then None
      else Some(Int64(ParseInt(digits, INT64_LIMIT).value * unit.value))
  }

  /** The resources after reading one key=value pair; pairs without '=' and other keys are ignored. */
  function Read(r: Resources, pair: string): Option<Resources> {
    var eq := Hostlist.Find(pair, '=', 0);
    if eq == -1 then Some(r) else Assign(r, Trim(pair[..eq], GoSpace), Trim(pair[eq + 1..], GoSpace))
  }

  function Assign(r: Resources, key: string, value: string): Option<Resources> {
    if key == "cpu" then
      var n := ParseInt(value, INT64_LIMIT);
      if n.None? then None else Some(r.(cpus := n.value))
    else if key == "mem" then
      var n := MemoryValue(value);
      if n.None? then None else Some(r.(memoryBytes := n.value))
    else if key == "gres/gpu" then
      var n := ParseInt(value, INT64_LIMIT);
      if n.None? then None else Some(r.(gpus := n.value))
    else Some(r)
  }

  function ReadAll(pairs: seq<string>): Option<Resources> {
    if pairs == [] then Some(NONE)
    else
      var front := ReadAll(pairs[..|pairs| - 1]);
      if front.None? then None else Read(front.value, pairs[|pairs| - 1])
  }

  function Parsed(input: string): Option<Resources> {
    ReadAll(Pieces(input, Plain))
  }

  method ParseTrackableResources(input: string) returns (r: Option<Resources>)
    ensures r == Parsed(input)
  {
    var spec := NONE;
    var pairs := Pieces(input, Plain);
    for i := 0 to |pairs|
      invariant ReadAll(pairs[..i]) == Some(spec)
    {
      assert pairs[..i + 1][..i] == pairs[..i];
      var next := Read(spec, pairs[i]);
      if next.None? {
        ReadFails(pairs, i + 1);
        return None;
      }
      spec := next.value;
    }
    assert pairs[..|pairs|] == pairs;
    return Some(spec);
  }

  lemma {:induction false} ReadFails(pairs: seq<string>, n: nat)
    requires n <= |pairs| && ReadAll(pairs[..n]).None?
    ensures ReadAll(pairs).None?
    decreases |pairs|
  {
    if n < |pairs| {
      assert pairs[..|pairs| - 1][..n] == pairs[..n];
      ReadFails(pairs[..|pairs| - 1], n);
    } else {
      assert pairs[..n] == pairs;
    }
  }

  // ---------------------------------------------------------------------------
  // Printing
  // ---------------------------------------------------------------------------

  /** One entry of a resource list; an absent count prints nothing. */
  datatype Entry = Entry(kind: string, name: string, count: Option<int>)

  function KeyOf(e: Entry): string {
    if e.name == "" then e.kind else e.kind + "/" + e.name
  }

  function SignedNumeral(n: int): string {
    if n < 0 then "-" + Numeral(-n) else Numeral(n)
  }

  /** Memory counts are in megabytes and get the unit appended. */
  function ValueText(e: Entry): string
    requires e.count.Some?
  {
    if e.kind == "mem" then SignedNumeral(e.count.value) + "M" else SignedNumeral(e.count.value)
  }

  function PairText(e: Entry): string
    requires e.count.Some?
  {
    KeyOf(e) + "=" + ValueText(e)
  }

  function PairTexts(list: seq<Entry>): seq<string> {
    if list == [] then []
    else
      var front, last := PairTexts(list[..|list| - 1]), list[|list| - 1];
      if last.count.None? then front else front + [PairText(last)]
  }

  method TresListToString(list: seq<Entry>) returns (text: string)
    ensures text == Join(PairTexts(list))
  {
    var parts: seq<string> := [];
    for i := 0 to |list|
      invariant parts == PairTexts(list[..i])
    {
      assert list[..i + 1][..i] == list[..i];
      var tres := list[i];
      if tres.count.None? {
        continue;
      }
      var pair := PrintPair(tres);
      parts := parts + [pair];
    }
    assert list[..|list|] == list;
    return Join(parts);
  }

  method PrintPair(tres: Entry) returns (pair: string)
    requires tres.count.Some?
    ensures pair == PairText(tres)
  {
    var key := tres.kind;
    if tres.name != "" {
      key := key + "/" + tres.name;
    }
    var value := SignedNumeral(tres.count.value);
    if tres.kind == "mem" {
      value := value + "M";
    }
    return key + "=" + value;
  }

  // ---------------------------------------------------------------------------
  // Round trip
  // ---------------------------------------------------------------------------

  /** Text free of the pair syntax. */
  predicate Clean(s: string) {
    forall c :: c in s ==> c != ',' && c != '=' && !GoSpace(c)
  }

  predicate ValidEntry(e: Entry) {
    Clean(e.kind) && Clean(e.name) && (e.count.Some? ==> -INT64_LIMIT <= e.count.value < INT64_LIMIT)
  }

  /** The last count listed under each of the three keys. */
  function Listed(list: seq<Entry>): Resources {
    if list == [] then NONE else Recorded(Listed(list[..|list| - 1]), list[|list| - 1])
  }

  lemma {:induction false} SignedNumeralParses(n: int)
    requires -INT64_LIMIT <= n < INT64_LIMIT
    ensures ParseInt(SignedNumeral(n), INT64_LIMIT) == Some(n)
  {
    if n < 0 {
      ValueOfNumeral(-n);
      assert SignedNumeral(n)[1..] == Numeral(-n);
    } else {
      ValueOfNumeral(n);
    }
  }

  lemma {:induction false} CleanTrims(s: string)
    requires Clean(s)
    ensures Trim(s, GoSpace) == s
  {
    if s != "" {
      assert s[0] in s && s[|s| - 1] in s;
      assert !GoSpace(s[0]) && !GoSpace(s[|s| - 1]);
    }
    TrimOfTrimmed(s, GoSpace);
  }

  lemma {:induction false} KeyIsClean(e: Entry)
    requires ValidEntry(e)
    ensures Clean(KeyOf(e))
    ensures KeyOf(e) == "mem" ==> e.kind == "mem"
    ensures KeyOf(e) == "cpu" || KeyOf(e) == "gres/gpu" ==> e.kind != "mem"
  {
    if e.name != "" {
      var k := KeyOf(e);
      assert k[|e.kind|] == '/';
      assert e.kind == "mem" ==> k[0] == 'm';
      assert '/' in k;
      assert '/' !in "mem" && '/' !in "cpu";
    }
  }

  lemma {:induction false} ValueReads(e: Entry)
    requires ValidEntry(e) && e.count.Some?
    ensures Clean(ValueText(e))
    ensures e.kind != "mem" ==> ParseInt(ValueText(e), INT64_LIMIT) == Some(e.count.value)
    ensures e.kind == "mem" ==> MemoryValue(ValueText(e)) == Some(Int64(e.count.value * 0x10_0000))
  {
    var number := SignedNumeral(e.count.value);
    SignedNumeralParses(e.count.value);
    assert Clean(number);
    if e.kind == "mem" {
      var value := number + "M";
      assert value[..|value| - 1] == number && value[|value| - 1] == 'M';
    }
  }

  lemma {:induction false} ReadPair(r: Resources, key: string, value: string)
    requires Clean(key) && Clean(value)
    ensures Read(r, key + "=" + value) == Assign(r, key, value)
  {
    CutAtEquals(key, value);
    CleanTrims(key);
    CleanTrims(value);
  }

  /** What one entry contributes. */
  function Recorded(r: Resources, e: Entry): Resources {
    if e.count.None? then r
    else if KeyOf(e) == "cpu" then r.(cpus := e.count.value)
    else if KeyOf(e) == "mem" then r.(memoryBytes := Int64(e.count.value * 0x10_0000))
    else if KeyOf(e) == "gres/gpu" then r.(gpus := e.count.value)
    else r
  }

  /** Reading one printed pair records its count. */
  lemma {:induction false} PairReads(r: Resources, e: Entry)
    requires ValidEntry(e) && e.count.Some?
    ensures Read(r, PairText(e)) == Some(Recorded(r, e))
    ensures ',' !in PairText(e)
  {
    KeyIsClean(e);
    ValueReads(e);
    ReadPair(r, KeyOf(e), ValueText(e));
    AssignRecords(r, e, KeyOf(e), ValueText(e));
  }

  lemma {:induction false} AssignRecords(r: Resources, e: Entry, key: string, value: string)
    requires e.count.Some? && key == KeyOf(e)
    requires key == "mem" ==> MemoryValue(value) == Some(Int64(e.count.value * 0x10_0000))
    requires key == "cpu" || key == "gres/gpu" ==> ParseInt(value, INT64_LIMIT) == Some(e.count.value)
    ensures Assign(r, key, value) == Some(Recorded(r, e))
  {
  }

  lemma {:induction false} CutAtEquals(key: string, value: string)
    requires '=' !in key
    ensures
      var pair := key + "=" + value;
      Hostlist.Find(pair, '=', 0) == |key| && pair[..|key|] == key && pair[|key| + 1..] == value
  {
    var pair := key + "=" + value;
    assert forall j :: 0 <= j < |key| ==> pair[j] == key[j] && key[j] in key;
    Hostlist.FindIs(pair, '=', 0, |key|);
  }

  lemma {:induction false} PairsRead(list: seq<Entry>)
    requires forall i :: 0 <= i < |list| ==> ValidEntry(list[i])
    ensures ReadAll(PairTexts(list)) == Some(Listed(list))
    ensures forall i :: 0 <= i < |PairTexts(list)| ==> ',' !in PairTexts(list)[i]
  {
    if list != [] {
      var front, e := list[..|list| - 1], list[|list| - 1];
      PairsRead(front);
      if e.count.Some? {
        PairReads(Listed(front), e);
        assert PairTexts(list)[..|PairTexts(front)|] == PairTexts(front);
      }
    }
  }

  /** The last count listed under a key, or 0. */
  function LastCount(list: seq<Entry>, key: string): int {
    if list == [] then 0
    else
      var e := list[|list| - 1];
      if e.count.Some? && KeyOf(e) == key then e.count.value else LastCount(list[..|list| - 1], key)
  }

  function LastCounts(list: seq<Entry>): Resources {
    Resources(LastCount(list, "cpu"), Int64(LastCount(list, "mem") * 0x10_0000), LastCount(list, "gres/gpu"))
  }

  lemma {:induction false} ListedIsLast(list: seq<Entry>)
    ensures Listed(list) == LastCounts(list)
  {
    if list != [] {
      ListedIsLast(list[..|list| - 1]);
    }
  }

  /**
   Round trip: parsing the printed list gives the last count of each key, memory in bytes and
   reduced to 64 bits.
   */
  lemma {:induction false} TresRoundTrip(list: seq<Entry>)
    requires forall i :: 0 <= i < |list| ==> ValidEntry(list[i])
    ensures Parsed(Join(PairTexts(list))) == Some(LastCounts(list))
  {
    var parts := PairTexts(list);
    PairsRead(list);
    ListedIsLast(list);
    if parts == [] {
      assert Pieces("", Plain) == [""];
      assert ReadAll([""][..0]) == Some(NONE);
    } else {
      forall i | 0 <= i < |parts| ensures Closed(parts[i], Plain) { PlainTextIsClosed(parts[i], Plain); }
      PiecesOfJoin(parts, Plain);
    }
  }

  /** The exact condition: memory survives the round trip if and only if its bytes fit in 63 bits and a sign. */
  lemma {:induction false} MemoryExact(list: seq<Entry>)
    requires forall i :: 0 <= i < |list| ==> ValidEntry(list[i])
    ensures
      var r, bytes := Parsed(Join(PairTexts(list))), LastCount(list, "mem") * 0x10_0000;
      r.Some? && r.value.memoryBytes == Int64(bytes) &&
        (r.value.memoryBytes == bytes <==> -INT64_LIMIT <= bytes < INT64_LIMIT)
  {
    TresRoundTrip(list);
  }

  const HUGE_MEMORY := Entry("mem", "", Some(0x800_0000_0000))

  lemma {:induction false} HugeMemory(list: seq<Entry>)
    requires list == [HUGE_MEMORY]
    ensures LastCount(list, "mem") == 0x800_0000_0000 && ValidEntry(list[0])
  {
  }

  lemma {:induction false} WrapsAtLimit(bytes: int)
    requires bytes == INT64_LIMIT
    ensures Int64(bytes) == -INT64_LIMIT
  {
  }

  lemma {:induction false} MemoryIs(list: seq<Entry>, bytes: int)
    requires |list| == 1 && ValidEntry(list[0]) && LastCount(list, "mem") == 0x800_0000_0000 && bytes == -INT64_LIMIT
    ensures Parsed(Join(PairTexts(list))).Some? && Parsed(Join(PairTexts(list))).value.memoryBytes == bytes
  {
    MemoryExact(list);
    WrapsAtLimit(LastCount(list, "mem") * 0x10_0000);
  }

  /** 2^43 megabytes come back as a negative number of bytes. */
  lemma {:induction false} MemoryWraps(list: seq<Entry>)
    requires list == [HUGE_MEMORY]
    ensures Parsed(Join(PairTexts(list))).Some? && Parsed(Join(PairTexts(list))).value.memoryBytes == -INT64_LIMIT
  {
    HugeMemory(list);
    MemoryIs(list, -INT64_LIMIT);
  }

  // ---------------------------------------------------------------------------
  // Units and spaces
  // ---------------------------------------------------------------------------

  function Power(base: int, k: nat): int {
    if k == 0 then 1 else base * Power(base, k - 1)
  }

  /** The suffixes of the powers of 1024, in either case. */
  const UNITS := ["", "k", "m", "g", "t", "p"]
  const CAPITAL_UNITS := ["", "K", "M", "G", "T", "P"]

  lemma {:induction false} Powers()
    ensures Power(1024, 0) == 1 && Power(1024, 1) == 0x400 && Power(1024, 2) == 0x10_0000
    ensures Power(1024, 3) == 0x4000_0000 && Power(1024, 4) == 0x100_0000_0000 && Power(1024, 5) == 0x4_0000_0000_0000
  {
    assert Power(1024, 2) == 1024 * Power(1024, 1);
    assert Power(1024, 3) == 1024 * Power(1024, 2);
    assert Power(1024, 4) == 1024 * Power(1024, 3);
    assert Power(1024, 5) == 1024 * Power(1024, 4);
  }

  lemma {:induction false} UnitIsPower(k: nat, suffix: string)
    requires 1 <= k <= 5 && (suffix == UNITS[k] || suffix == CAPITAL_UNITS[k])
    ensures |suffix| == 1 && !IsDigit(suffix[0]) && Multiplier(suffix[0]) == Some(Power(1024, k))
  {
    Powers();
  }

  lemma {:induction false} SuffixedValue(number: string, c: char, n: int, unit: int)
    requires ParseInt(number, INT64_LIMIT) == Some(n) && !IsDigit(c) && Multiplier(c) == Some(unit)
    ensures MemoryValue(number + [c]) == Some(Int64(n * unit))
  {
    var value := number + [c];
    assert value[..|value| - 1] == number && value[|value| - 1] == c;
  }

  /** A number with the suffix of a power of 1024 is that many bytes, reduced to 64 bits. */
  lemma {:induction false} MemoryUnits(n: int, k: nat, suffix: string)
    requires -INT64_LIMIT <= n < INT64_LIMIT && k <= 5 && (suffix == UNITS[k] || suffix == CAPITAL_UNITS[k])
    ensures MemoryValue(SignedNumeral(n) + suffix) == Some(Int64(n * Power(1024, k)))
  {
    var number := SignedNumeral(n);
    SignedNumeralParses(n);
    if k == 0 {
      assert number + suffix == number && IsDigit(number[|number| - 1]);
    } else {
      UnitIsPower(k, suffix);
      assert suffix == [suffix[0]];
      SuffixedValue(number, suffix[0], n, Power(1024, k));
    }
  }

  /** Any other last character, and no text at all, is an error. */
  lemma {:induction false} NoOtherUnit(value: string)
    requires value == "" || (!IsDigit(value[|value| - 1]) && value[|value| - 1] !in "kKmMgGtTpP")
    ensures MemoryValue(value).None?
  {
  }

  /** Spaces around a key and its value are ignored. */
  lemma {:induction false} ReadIgnoresSpaces(r: Resources, a: string, key: string, b: string, c: string,
      value: string, d: string)
    requires AllSpace(a, GoSpace) && AllSpace(b, GoSpace) && AllSpace(c, GoSpace) && AllSpace(d, GoSpace)
    requires Trimmed(key, GoSpace) && Trimmed(value, GoSpace) && '=' !in key
    ensures Read(r, a + key + b + "=" + (c + value + d)) == Assign(r, key, value)
  {
    var left, right := a + key + b, c + value + d;
    assert '=' !in left;
    CutAtEquals(left, right);
    TrimFinds(a, key, b, GoSpace);
    TrimFinds(c, value, d, GoSpace);
  }

  /** A pair without an equals sign, or with another key, changes nothing. */
  lemma {:induction false} OtherPairsIgnored(r: Resources, pair: string, key: string, value: string)
    ensures '=' !in pair ==> Read(r, pair) == Some(r)
    ensures key != "cpu" && key != "mem" && key != "gres/gpu" ==> Assign(r, key, value) == Some(r)
  {
    assert pair[0..] == pair;
  }
}
