/**
 The power manager's node-list parser: from Slurm text such as `gpu-[0-2,5],cpu-3` to NodeSet
 ordinals, and back.
 */
module PowerList {
  import opened Strings
  import opened Decimal
  import opened Strconv
  import opened Lists
  import opened Hostlist
  import NodeExpansion

  datatype NodeRef = NodeRef(nodeSet: string, ordinal: int)

  /** The largest index in [1, end) satisfying p, or -1: what a greedy leading (.+) selects. */
  function LastIndex(end: int, p: int -> bool): (k: int)
    ensures k == -1 || (1 <= k < end && p(k))
    ensures forall j :: 1 <= j < end && j > k ==> !p(j)
    decreases end
  {
    if end <= 1 then -1 else if p(end - 1) then end - 1 else LastIndex(end - 1, p)
  }

  /** The pattern name-[spec] with the separating dash at k: one-line name, spec without closing bracket. */
  predicate BracketAt(s: string, k: int) {
    && 1 <= k < |s| - 3 && s[k] == '-' && s[k + 1] == '[' && s[|s| - 1] == ']'
    && ']' !in s[k + 2..|s| - 1] && '\n' !in s[..k]
  }

  /** The pattern name-digits with the separating dash at k. */
  predicate DigitsAt(s: string, k: int) {
    1 <= k < |s| - 1 && s[k] == '-' && IsNumeral(s[k + 1..]) && '\n' !in s[..k]
  }

  function Ordinals(start: int, end: int): (os: seq<int>)
    ensures |os| == if start <= end then end - start + 1 else 0
    ensures forall i :: 0 <= i < |os| ==> os[i] == start + i
    decreases end - start
  {
    if end < start then [] else Ordinals(start, end - 1) + [end]
  }

  /** The ordinals of one trimmed item: a number or a start-end range. */
  function ItemOrdinals(part: string): Option<seq<int>> {
    var dash := Find(part, '-', 0);
    var lo := ParseInt(if dash == -1 then part else part[..dash], INT32_LIMIT);
    var hi := ParseInt(if dash == -1 then part else part[dash + 1..], INT32_LIMIT);
    if lo.None? || hi.None? then None else Some(Ordinals(lo.value, hi.value))
  }

  function SpecLists(pieces: seq<string>): seq<Option<seq<int>>> {
    seq(|pieces|, i requires 0 <= i < |pieces| => ItemOrdinals(Trim(pieces[i], GoSpace)))
  }

  function SpecOrdinals(spec: string): Option<seq<int>> {
    Collect(SpecLists(Pieces(spec, Plain)))
  }

  function RefsOf(name: string, ordinals: seq<int>): seq<NodeRef> {
    seq(|ordinals|, i requires 0 <= i < |ordinals| => NodeRef(name, ordinals[i]))
  }

  /** What one part of the list stands for; the bracket form is tried first. */
  function PartRefs(part: string): Option<seq<NodeRef>> {
    var k := LastIndex(|part|, j => BracketAt(part, j));
    if k != -1 then BracketRefs(part, k)
    else
      var d := LastIndex(|part|, j => DigitsAt(part, j));
      if d != -1 then DigitsRefs(part, d) else None
  }

  function BracketRefs(part: string, k: int): Option<seq<NodeRef>>
    requires BracketAt(part, k)
  {
    var ordinals := SpecOrdinals(part[k + 2..|part| - 1]);
    if ordinals.None? then None else Some(RefsOf(part[..k], ordinals.value))
  }

  function DigitsRefs(part: string, k: int): Option<seq<NodeRef>>
    requires DigitsAt(part, k)
  {
    var ordinal := ParseInt(part[k + 1..], INT32_LIMIT);
    if ordinal.None? then None else Some([NodeRef(part[..k], ordinal.value)])
  }

  function PartLists(parts: seq<string>): seq<Option<seq<NodeRef>>> {
    seq(|parts|, i requires 0 <= i < |parts| => PartRefs(parts[i]))
  }

  function ListRefs(text: string): Option<seq<NodeRef>> {
    Collect(PartLists(Kept(Pieces(text, Signed), GoSpace)))
  }

  /** A number is its own ordinal and a range all numbers from its start to its end, none if it descends. */
  lemma {:induction false} ItemReads(lo: string, hi: string)
    requires IsNumeral(lo) && IsNumeral(hi)
    ensures ItemOrdinals(lo) == if Value(lo) < INT32_LIMIT then Some([Value(lo)]) else None
    ensures
      var item := lo + "-" + hi;
      if Value(lo) < INT32_LIMIT && Value(hi) < INT32_LIMIT
      then ItemOrdinals(item).Some? &&
        forall n :: n in ItemOrdinals(item).value <==> Value(lo) <= n <= Value(hi)
      else ItemOrdinals(item).None?
  {
    RangeDash(lo, hi);
    assert Ordinals(Value(lo), Value(lo)) == [Value(lo)];
    InOrdinals(Value(lo), Value(hi));
  }

  lemma {:induction false} InOrdinals(start: int, end: int)
    ensures forall n :: n in Ordinals(start, end) <==> start <= n <= end
  {
    var os := Ordinals(start, end);
    forall n | start <= n <= end
      ensures n in os
    {
      assert os[n - start] == n;
    }
  }

  /** A one-line name, a dash and a number. */
  ghost predicate NumberForm(part: string) {
    exists name, digits :: name != "" && '\n' !in name && IsNumeral(digits) && part == name + "-" + digits
  }

  /** A one-line name, a dash and a bracketed text without closing bracket. */
  ghost predicate BracketForm(part: string) {
    exists name, spec :: name != "" && '\n' !in name && spec != "" && ']' !in spec && part == name + "-[" + spec + "]"
  }

  /** Nothing else is read. */
  lemma {:induction false} PartNeedsForm(part: string)
    requires PartRefs(part).Some?
    ensures NumberForm(part) || BracketForm(part)
  {
    var k := LastIndex(|part|, j => BracketAt(part, j));
    if k != -1 {
      BracketParts(part, k);
    } else {
      DigitsParts(part, LastIndex(|part|, j => DigitsAt(part, j)));
    }
  }

  lemma {:induction false} BracketParts(part: string, k: int)
    requires BracketAt(part, k)
    ensures BracketForm(part)
  {
    var name, spec := part[..k], part[k + 2..|part| - 1];
    assert part == name + "-[" + spec + "]";
  }

  lemma {:induction false} DigitsParts(part: string, k: int)
    requires DigitsAt(part, k)
    ensures NumberForm(part)
  {
    assert part == part[..k] + "-" + part[k + 1..];
  }

  // ---------------------------------------------------------------------------
  // The implementation
  // ---------------------------------------------------------------------------

  method ParseNodeList(text: string) returns (r: Option<seq<NodeRef>>)
    ensures r == ListRefs(text)
  {
    var result: seq<NodeRef> := [];
    var parts := NodeExpansion.SplitNodeString(text);
    ghost var lists := PartLists(parts);
    for i := 0 to |parts|
      invariant Collect(lists[..i]) == Some(result)
    {
      CollectStep(lists, i);
      var refs := ParseNodeRange(parts[i]);
      if refs.None? {
        CollectFails(lists, i);
        return None;
      }
      result := result + refs.value;
    }
    assert lists[..|parts|] == lists;
    return Some(result);
  }

  method ParseNodeRange(part: string) returns (r: Option<seq<NodeRef>>)
    ensures r == PartRefs(part)
  {
    var k := LastIndex(|part|, j => BracketAt(part, j));
    if k != -1 {
      r := ParseBracketForm(part, k);
      return;
    }
    var d := LastIndex(|part|, j => DigitsAt(part, j));
    if d != -1 {
      return DigitsRefs(part, d);
    }
    return None;
  }

  method ParseBracketForm(part: string, k: int) returns (r: Option<seq<NodeRef>>)
    requires BracketAt(part, k)
    ensures r == BracketRefs(part, k)
  {
    var name := part[..k];
    var ordinals := ParseRangeSpec(part[k + 2..|part| - 1]);
    if ordinals.None? {
      return None;
    }
    var refs: seq<NodeRef> := [];
    for i := 0 to |ordinals.value|
      invariant refs == RefsOf(name, ordinals.value[..i])
    {
      refs := refs + [NodeRef(name, ordinals.value[i])];
    }
    assert ordinals.value[..|ordinals.value|] == ordinals.value;
    return Some(refs);
  }

  method ParseRangeSpec(spec: string) returns (r: Option<seq<int>>)
    ensures r == SpecOrdinals(spec)
  {
    var result: seq<int> := [];
    var parts := Pieces(spec, Plain);
    ghost var lists := SpecLists(parts);
    for i := 0 to |parts|
      invariant Collect(lists[..i]) == Some(result)
    {
      CollectStep(lists, i);
      var ordinals := ParseItem(Trim(parts[i], GoSpace));
      if ordinals.None? {
        CollectFails(lists, i);
        return None;
      }
      result := result + ordinals.value;
    }
    assert lists[..|parts|] == lists;
    return Some(result);
  }

  method ParseItem(part: string) returns (r: Option<seq<int>>)
    ensures r == ItemOrdinals(part)
  {
    var dash := Find(part, '-', 0);
    if dash == -1 {
      var num := ParseInt(part, INT32_LIMIT);
      if num.None? {
        return None;
      }
      assert Ordinals(num.value, num.value) == [num.value];
      return Some([num.value]);
    }
    var start := ParseInt(part[..dash], INT32_LIMIT);
    if start.None? {
      return None;
    }
    var end := ParseInt(part[dash + 1..], INT32_LIMIT);
    if end.None? {
      return None;
    }
    var result: seq<int> := [];
    var i := start.value;
    while i <= end.value
      invariant start.value <= i
      invariant i <= end.value + 1 || i == start.value
      invariant result == Ordinals(start.value, i - 1)
      decreases end.value - i
    {
      result := result + [i];
      i := i + 1;
    }
    return Some(result);
  }

  /** The ordinals of one NodeSet among the references, in order. */
  function OrdinalsOf(refs: seq<NodeRef>, name: string): seq<int> {
    if refs == [] then []
    else
      var front, last := OrdinalsOf(refs[..|refs| - 1], name), refs[|refs| - 1];
      if last.nodeSet == name then front + [last.ordinal] else front
  }

  lemma {:induction false} OrdinalsStep(refs: seq<NodeRef>, i: nat)
    requires i < |refs|
    ensures forall name ::
      OrdinalsOf(refs[..i + 1], name) ==
      OrdinalsOf(refs[..i], name) + if refs[i].nodeSet == name then [refs[i].ordinal] else []
  {
    assert refs[..i + 1][..i] == refs[..i];
  }

  function Grouped(groups: map<string, seq<int>>, name: string): seq<int> {
    if name in groups then groups[name] else []
  }

  /** Grouping keeps every reference, in order, under its NodeSet, and adds nothing. */
  method GroupNodesByNodeSet(refs: seq<NodeRef>) returns (groups: map<string, seq<int>>)
    ensures forall name :: Grouped(groups, name) == OrdinalsOf(refs, name)
    ensures forall name :: name in groups ==> groups[name] != []
  {
    groups := map[];
    for i := 0 to |refs|
      invariant forall name :: Grouped(groups, name) == OrdinalsOf(refs[..i], name)
      invariant forall name :: name in groups ==> groups[name] != []
    {
      OrdinalsStep(refs, i);
      ghost var before := groups;
      var name := refs[i].nodeSet;
      groups := groups[name := Grouped(groups, name) + [refs[i].ordinal]];
      forall n ensures Grouped(groups, n) == OrdinalsOf(refs[..i + 1], n) {
        assert Grouped(before, n) == OrdinalsOf(refs[..i], n);
      }
    }
    assert refs[..|refs|] == refs;
  }

  // ---------------------------------------------------------------------------
  // Round trip
  // ---------------------------------------------------------------------------

  /** A range of ordinals as it is written inside brackets. */
  datatype Span = One(n: nat) | Range(lo: nat, hi: nat)

  predicate ValidSpan(s: Span) {
    match s
    case One(n) => n < INT32_LIMIT
    case Range(lo, hi) => lo <= hi < INT32_LIMIT
  }

  function SpanText(s: Span): string {
    match s
    case One(n) => Numeral(n)
    case Range(lo, hi) => Numeral(lo) + "-" + Numeral(hi)
  }

  function SpanOrdinals(s: Span): seq<int> {
    match s
    case One(n) => [n]
    case Range(lo, hi) => Ordinals(lo, hi)
  }

  /** One entry of a node list: a single ordinal, or a bracket group of spans. */
  datatype Entry = Node(name: string, ordinal: nat) | Bracket(name: string, spans: seq<Span>)

  /** A NodeSet name: non-empty, without commas, brackets or whitespace; dashes are allowed. */
  predicate ValidName(s: string) {
    s != "" && forall c :: c in s ==> c != ',' && c != '[' && c != ']' && !GoSpace(c)
  }

  predicate ValidEntry(e: Entry) {
    match e
    case Node(name, ordinal) => ValidName(name) && ordinal < INT32_LIMIT
    case Bracket(name, spans) => ValidName(name) && ValidSpans(spans)
  }

  predicate ValidSpans(spans: seq<Span>) {
    spans != [] && forall i :: 0 <= i < |spans| ==> ValidSpan(spans[i])
  }

  function SpanTexts(spans: seq<Span>): seq<string> {
    seq(|spans|, i requires 0 <= i < |spans| => SpanText(spans[i]))
  }

  function EntryText(e: Entry): string {
    match e
    case Node(name, ordinal) => name + "-" + Numeral(ordinal)
    case Bracket(name, spans) => name + "-[" + Join(SpanTexts(spans)) + "]"
  }

  function SpansOrdinals(spans: seq<Span>): seq<seq<int>> {
    seq(|spans|, i requires 0 <= i < |spans| => SpanOrdinals(spans[i]))
  }

  /** The references an entry stands for, one by one. */
  function EntryRefs(e: Entry): seq<NodeRef> {
    match e
    case Node(name, ordinal) => [NodeRef(name, ordinal)]
    case Bracket(name, spans) => RefsOf(name, Flatten(SpansOrdinals(spans)))
  }

  function EntryTexts(es: seq<Entry>): seq<string> {
    seq(|es|, i requires 0 <= i < |es| => EntryText(es[i]))
  }

  function EntriesRefs(es: seq<Entry>): seq<seq<NodeRef>> {
    seq(|es|, i requires 0 <= i < |es| => EntryRefs(es[i]))
  }

  lemma {:induction false} NumeralParses(n: nat)
    requires n < INT32_LIMIT
    ensures ParseInt(Numeral(n), INT32_LIMIT) == Some(n)
  {
    ValueOfNumeral(n);
  }

  lemma {:induction false} SpanParses(s: Span)
    requires ValidSpan(s)
    ensures ItemOrdinals(SpanText(s)) == Some(SpanOrdinals(s))
    ensures NodeExpansion.ItemText(SpanText(s))
  {
    match s
    case One(n) =>
      NumeralParses(n);
      assert Find(Numeral(n), '-', 0) == -1;
      assert Ordinals(n, n) == [n];
    case Range(lo, hi) =>
      NumeralParses(lo);
      NumeralParses(hi);
      var a, b := Numeral(lo), Numeral(hi);
      var text := a + "-" + b;
      assert forall j :: 0 <= j < |a| ==> text[j] == a[j] && IsDigit(a[j]);
      FindIs(text, '-', 0, |a|);
      assert text[..|a|] == a && text[|a| + 1..] == b;
  }

  lemma {:induction false} SpansParse(spans: seq<Span>)
    requires ValidSpans(spans)
    ensures SpecOrdinals(Join(SpanTexts(spans))) == Some(Flatten(SpansOrdinals(spans)))
  {
    var texts := SpanTexts(spans);
    SpansSplit(spans);
    SpanLists(spans);
    CollectAll(SpecLists(texts), SpansOrdinals(spans));
  }

  lemma {:induction false} SpansSplit(spans: seq<Span>)
    requires ValidSpans(spans)
    ensures Pieces(Join(SpanTexts(spans)), Plain) == SpanTexts(spans)
  {
    var texts := SpanTexts(spans);
    forall i | 0 <= i < |texts| ensures Closed(texts[i], Plain) {
      SpanParses(spans[i]);
      PlainTextIsClosed(texts[i], Plain);
    }
    PiecesOfJoin(texts, Plain);
  }

  lemma {:induction false} ItemTextTrims(s: string)
    requires NodeExpansion.ItemText(s)
    ensures Trim(s, GoSpace) == s
  {
    assert s[0] in s && s[|s| - 1] in s;
    TrimOfTrimmed(s, GoSpace);
  }

  lemma {:induction false} SpanLists(spans: seq<Span>)
    requires ValidSpans(spans)
    ensures
      var lists := SpecLists(SpanTexts(spans));
      forall i :: 0 <= i < |spans| ==> lists[i] == Some(SpansOrdinals(spans)[i])
  {
    var texts := SpanTexts(spans);
    var lists := SpecLists(texts);
    forall i | 0 <= i < |spans| ensures lists[i] == Some(SpansOrdinals(spans)[i]) {
      SpanParses(spans[i]);
      ItemTextTrims(texts[i]);
    }
  }

  lemma {:induction false} SpanTextsAreText(spans: seq<Span>)
    requires ValidSpans(spans)
    ensures Join(SpanTexts(spans)) != "" && '[' !in Join(SpanTexts(spans)) && ']' !in Join(SpanTexts(spans))
  {
    var texts := SpanTexts(spans);
    forall i | 0 <= i < |spans| ensures NodeExpansion.ItemText(texts[i]) { SpanParses(spans[i]); }
    NodeExpansion.JoinText(texts);
  }

  lemma {:induction false} LastIndexIs(end: int, p: int -> bool, k: int)
    requires 1 <= k < end && p(k) && forall j :: k < j < end ==> !p(j)
    ensures LastIndex(end, p) == k
  {
  }

  lemma {:induction false} BracketPosition(name: string, body: string)
    requires ValidName(name) && body != "" && '[' !in body && ']' !in body
    ensures
      var s := name + "-[" + body + "]";
      BracketAt(s, |name|) && LastIndex(|s|, j => BracketAt(s, j)) == |name|
      && s[..|name|] == name && s[|name| + 2..|s| - 1] == body
  {
    var s := name + "-[" + body + "]";
    assert s[..|name|] == name && s[|name| + 2..|s| - 1] == body;
    forall j | |name| < j < |s| ensures !BracketAt(s, j) {
      if j < |s| - 3 {
        assert s[j + 1] == body[j - |name| - 1] && s[j + 1] in body;
      }
    }
    LastIndexIs(|s|, j => BracketAt(s, j), |name|);
  }

  lemma {:induction false} DigitsPosition(name: string, digits: string)
    requires ValidName(name) && IsNumeral(digits)
    ensures
      var s := name + "-" + digits;
      && LastIndex(|s|, j => BracketAt(s, j)) == -1
      && LastIndex(|s|, j => DigitsAt(s, j)) == |name|
      && s[..|name|] == name && s[|name| + 1..] == digits
  {
    var s := name + "-" + digits;
    assert s[..|name|] == name && s[|name| + 1..] == digits;
    assert s[|s| - 1] == digits[|digits| - 1] && IsDigit(s[|s| - 1]);
    forall j | |name| < j < |s| ensures !DigitsAt(s, j) {
      assert s[j] == digits[j - |name| - 1] && IsDigit(s[j]);
    }
    LastIndexIs(|s|, j => DigitsAt(s, j), |name|);
  }

  /** Parsing one written entry gives its references. */
  lemma {:induction false} EntryParses(e: Entry)
    requires ValidEntry(e)
    ensures PartRefs(EntryText(e)) == Some(EntryRefs(e))
  {
    match e
    case Node(name, ordinal) =>
      DigitsPosition(name, Numeral(ordinal));
      NumeralParses(ordinal);
    case Bracket(name, spans) =>
      SpanTextsAreText(spans);
      BracketPosition(name, Join(SpanTexts(spans)));
      SpansParse(spans);
  }

  lemma {:induction false} EntryIsClosed(e: Entry)
    requires ValidEntry(e)
    ensures Closed(EntryText(e), Signed) && EntryText(e) != "" && Trimmed(EntryText(e), GoSpace)
  {
    match e
    case Node(name, ordinal) => NodeTextIsClosed(name, Numeral(ordinal));
    case Bracket(name, spans) =>
      SpanTextsAreText(spans);
      BracketTextIsClosed(name, Join(SpanTexts(spans)));
  }

  lemma {:induction false} NodeTextIsClosed(name: string, digits: string)
    requires ValidName(name) && IsNumeral(digits)
    ensures
      var s := name + "-" + digits;
      Closed(s, Signed) && Trimmed(s, GoSpace)
  {
    var s := name + "-" + digits;
    assert s[|s| - 1] == digits[|digits| - 1];
    assert s[0] == name[0] && IsDigit(s[|s| - 1]);
    NoSpaceAtEnds(s);
    PlainTextIsClosed(s, Signed);
  }

  lemma {:induction false} NoSpaceAtEnds(s: string)
    requires s != "" && !GoSpace(s[0]) && !GoSpace(s[|s| - 1])
    ensures Trimmed(s, GoSpace)
  {
  }

  lemma {:induction false} BracketTextIsClosed(name: string, body: string)
    requires ValidName(name) && '[' !in body && ']' !in body
    ensures
      var s := name + "-[" + body + "]";
      Closed(s, Signed) && Trimmed(s, GoSpace)
  {
    var s := name + "-[" + body + "]";
    NoSpaceAtEnds(s);
    GroupIsClosed(name + "-", body, Signed);
    assert s == (name + "-") + "[" + body + "]";
  }

  /**
   Round trip: writing entries with commas and parsing the text returns exactly their
   references, in order, whether an entry is written as a bracket group or as one node.
   */
  lemma {:induction false} ListRoundTrip(es: seq<Entry>)
    requires forall i :: 0 <= i < |es| ==> ValidEntry(es[i])
    ensures ListRefs(Join(EntryTexts(es))) == Some(Flatten(EntriesRefs(es)))
  {
    var texts := EntryTexts(es);
    if es != [] {
      forall i | 0 <= i < |es|
        ensures Closed(texts[i], Signed) && texts[i] != "" && Trimmed(texts[i], GoSpace)
      {
        EntryIsClosed(es[i]);
      }
      PiecesOfJoin(texts, Signed);
      KeptOfTrimmed(texts, GoSpace);
    } else {
      assert Pieces("", Signed) == [""] && Kept([""], GoSpace) == [];
    }
    var lists := PartLists(texts);
    forall i | 0 <= i < |es| ensures lists[i] == Some(EntriesRefs(es)[i]) { EntryParses(es[i]); }
    CollectAll(lists, EntriesRefs(es));
  }

  /** A reference that has a written form of its own. */
  predicate ValidRef(r: NodeRef) {
    ValidName(r.nodeSet) && 0 <= r.ordinal < INT32_LIMIT
  }

  predicate ValidRefs(refs: seq<NodeRef>) {
    forall i :: 0 <= i < |refs| ==> ValidRef(refs[i])
  }

  /** Every reference as an entry of its own. */
  function AsNodes(refs: seq<NodeRef>): seq<Entry>
    requires ValidRefs(refs)
  {
    seq(|refs|, i requires 0 <= i < |refs| => Node(refs[i].nodeSet, refs[i].ordinal))
  }

  lemma {:induction false} SpansInRange(spans: seq<Span>)
    requires forall i :: 0 <= i < |spans| ==> ValidSpan(spans[i])
    ensures forall i :: 0 <= i < |Flatten(SpansOrdinals(spans))| ==> 0 <= Flatten(SpansOrdinals(spans))[i] < INT32_LIMIT
  {
    if spans != [] {
      var front := spans[..|spans| - 1];
      SpansInRange(front);
      assert SpansOrdinals(spans)[..|spans| - 1] == SpansOrdinals(front);
    }
  }

  lemma {:induction false} EntryRefsAreValid(e: Entry)
    requires ValidEntry(e)
    ensures ValidRefs(EntryRefs(e))
  {
    if e.Bracket? {
      SpansInRange(e.spans);
    }
  }

  lemma {:induction false} RefsAreValid(es: seq<Entry>)
    requires forall i :: 0 <= i < |es| ==> ValidEntry(es[i])
    ensures ValidRefs(Flatten(EntriesRefs(es)))
  {
    if es != [] {
      var front := es[..|es| - 1];
      RefsAreValid(front);
      EntryRefsAreValid(es[|es| - 1]);
      assert EntriesRefs(es)[..|es| - 1] == EntriesRefs(front);
    }
  }

  lemma {:induction false} AsNodesRefs(refs: seq<NodeRef>)
    requires ValidRefs(refs)
    ensures Flatten(EntriesRefs(AsNodes(refs))) == refs
  {
    if refs != [] {
      var front := refs[..|refs| - 1];
      AsNodesRefs(front);
      assert EntriesRefs(AsNodes(refs))[..|refs| - 1] == EntriesRefs(AsNodes(front));
    }
  }

  /** A list with bracket groups parses to the same references as its comma-expanded form. */
  lemma {:induction false} BracketsExpand(es: seq<Entry>)
    requires forall i :: 0 <= i < |es| ==> ValidEntry(es[i])
    ensures ValidRefs(Flatten(EntriesRefs(es)))
    ensures ListRefs(Join(EntryTexts(AsNodes(Flatten(EntriesRefs(es)))))) == ListRefs(Join(EntryTexts(es)))
  {
    var refs := Flatten(EntriesRefs(es));
    RefsAreValid(es);
    ListRoundTrip(es);
    ListRoundTrip(AsNodes(refs));
    AsNodesRefs(refs);
  }
}
