/**
 The power manager against the hostlist language. It reads ordinals as numbers and names hosts
 without padding, so the hosts it acts on are the hosts the text denotes exactly when no number
 in the text is zero-padded.
 */
module PowerAgreement {
  import opened Strings
  import opened Decimal
  import opened Strconv
  import opened Lists
  import opened Hostlist
  import opened PowerList
  import N = NodeExpansion

  /** A list entry as Slurm writes it: one host, or a bracket group of numbers and ranges. */
  datatype Written = Host(name: string, digits: string) | Hosts(name: string, items: seq<string>)

  /** A NodeSet name without list syntax or whitespace of either language. */
  predicate PlainName(s: string) {
    ValidName(s) && forall c :: c in s ==> !PySpace(c)
  }

  /** A numeric item whose values fit the ordinal type. */
  predicate SmallItem(item: string) {
    N.Numeric(item) && Value(BoundsOf(item).hi) < INT32_LIMIT
  }

  predicate SmallItems(items: seq<string>) {
    items != [] && forall i :: 0 <= i < |items| ==> SmallItem(items[i])
  }

  predicate Readable(w: Written) {
    PlainName(w.name) &&
    match w
    case Host(_, digits) => IsNumeral(digits) && Value(digits) < INT32_LIMIT
    case Hosts(_, items) => SmallItems(items)
  }

  predicate UnpaddedItem(item: string)
    requires SmallItem(item)
  {
    !LeadingZero(BoundsOf(item).lo) && !LeadingZero(BoundsOf(item).hi)
  }

  predicate Unpadded(w: Written)
    requires Readable(w)
  {
    match w
    case Host(_, digits) => !LeadingZero(digits)
    case Hosts(_, items) => forall i :: 0 <= i < |items| ==> UnpaddedItem(items[i])
  }

  /** The entry as the list language has it. */
  function AsEntry(w: Written): N.Entry {
    match w
    case Host(name, digits) => N.Single(name + "-" + digits)
    case Hosts(name, items) => N.Ranged(name + "-", items)
  }

  function Entries(ws: seq<Written>): seq<N.Entry> {
    seq(|ws|, i requires 0 <= i < |ws| => AsEntry(ws[i]))
  }

  /** The text of an entry and of a list. */
  function Text(w: Written): string {
    N.Render(AsEntry(w))
  }

  function ListText(ws: seq<Written>): string {
    Join(N.RenderAll(Entries(ws)))
  }

  /** The host of a reference: NodeSet name, dash, ordinal. */
  function HostName(name: string, ordinal: int): string {
    name + "-" + if ordinal >= 0 then Numeral(ordinal) else ""
  }

  ghost predicate Names(refs: seq<NodeRef>, h: string) {
    exists r :: r in refs && r.ordinal >= 0 && h == HostName(r.nodeSet, r.ordinal)
  }

  // ---------------------------------------------------------------------------
  // Items
  // ---------------------------------------------------------------------------

  lemma {:induction false} SmallItemOrdinals(item: string)
    requires SmallItem(item)
    ensures ItemOrdinals(item) == Some(Ordinals(Value(BoundsOf(item).lo), Value(BoundsOf(item).hi)))
  {
    var b := BoundsOf(item);
    assert ParseInt(b.lo, INT32_LIMIT) == Some(Value(b.lo));
    assert ParseInt(b.hi, INT32_LIMIT) == Some(Value(b.hi));
  }

  /** The text is the numeral of one of the ordinals. */
  ghost predicate Spelled(ordinals: seq<int>, w: string) {
    exists o :: o in ordinals && o >= 0 && w == Numeral(o)
  }

  /** An unpadded item: its words are the numerals of its ordinals. */
  lemma {:induction false} UnpaddedWords(item: string, w: string)
    requires SmallItem(item) && UnpaddedItem(item)
    ensures w in Words(item) <==> Spelled(ItemOrdinals(item).value, w)
  {
    var b := BoundsOf(item);
    SmallItemOrdinals(item);
    var ordinals := ItemOrdinals(item).value;
    if w in Words(item) {
      var v: nat :| Value(b.lo) <= v <= Value(b.hi) && w == Padded(v, 0);
      assert ordinals[v - Value(b.lo)] == v;
    }
    if o :| o in ordinals && o >= 0 && w == Numeral(o) {
      assert w == Padded(o, 0);
    }
  }

  lemma {:induction false} ShortNumeral(s: string)
    requires IsNumeral(s) && LeadingZero(s)
    ensures |Numeral(Value(s))| < |s|
  {
    var t := s[1..];
    assert s == Zeros(1) + t;
    ValueIgnoresZeros(1, t);
    PaddedOfValue(t);
  }

  /** A padded item has a word with a leading zero. */
  lemma {:induction false} PaddedWord(item: string) returns (w: string)
    requires SmallItem(item) && !UnpaddedItem(item)
    ensures w in Words(item) && IsNumeral(w) && LeadingZero(w)
  {
    var b := BoundsOf(item);
    var v, width := Value(b.lo), Width(b.lo, b.hi);
    if LeadingZero(b.lo) {
      ShortNumeral(b.lo);
    } else {
      ShortNumeral(b.hi);
      NumeralLengthMonotone(v, Value(b.hi));
    }
    w := Padded(v, width);
    assert w in RangeWords(Value(b.lo), Value(b.hi), width);
    assert w == Zeros(width - |Numeral(v)|) + Numeral(v);
  }

  // ---------------------------------------------------------------------------
  // Entries
  // ---------------------------------------------------------------------------

  lemma {:induction false} ReadableIsLegible(w: Written)
    requires Readable(w)
    ensures N.Legible(AsEntry(w))
  {
    var name := w.name;
    assert name[0] in name;
    match w
    case Host(_, digits) =>
      var s := name + "-" + digits;
      assert s[0] == name[0] && s[|s| - 1] == digits[|digits| - 1];
      assert IsDigit(s[|s| - 1]);
    case Hosts(_, items) =>
      var s := name + "-";
      assert s[0] == name[0] && s[|s| - 1] == '-';
  }

  /** The ordinals of a bracket group. */
  lemma {:induction false} GroupOrdinals(items: seq<string>)
    requires SmallItems(items)
    ensures SpecOrdinals(Join(items)) == Collect(SpecLists(items))
    ensures forall i :: 0 <= i < |items| ==> SpecLists(items)[i].Some? && SpecLists(items)[i] == ItemOrdinals(items[i])
  {
    N.ItemsSplit(items);
    forall i | 0 <= i < |items| ensures SpecLists(items)[i].Some? && SpecLists(items)[i] == ItemOrdinals(items[i]) {
      TrimmedItem(items, i);
    }
  }

  lemma {:induction false} TrimmedItem(items: seq<string>, i: nat)
    requires i < |items| && SmallItem(items[i]) && Trim(items[i], GoSpace) == items[i]
    ensures SpecLists(items)[i].Some? && SpecLists(items)[i] == ItemOrdinals(items[i])
  {
    SmallItemOrdinals(items[i]);
  }

  lemma {:induction false} HostParses(name: string, digits: string)
    requires Readable(Host(name, digits))
    ensures PartRefs(name + "-" + digits) == Some([NodeRef(name, Value(digits))])
  {
    DigitsPosition(name, digits);
    assert ParseInt(digits, INT32_LIMIT) == Some(Value(digits));
  }

  lemma {:induction false} BodyParses(name: string, body: string, ordinals: seq<int>)
    requires ValidName(name) && body != "" && '[' !in body && ']' !in body && SpecOrdinals(body) == Some(ordinals)
    ensures PartRefs(name + "-[" + body + "]") == Some(RefsOf(name, ordinals))
  {
    BracketPosition(name, body);
  }

  lemma {:induction false} HostsText(name: string, items: seq<string>)
    ensures Text(Hosts(name, items)) == name + "-[" + Join(items) + "]"
  {
    assert name + "-" + "[" + Join(items) + "]" == name + "-[" + Join(items) + "]";
  }

  lemma {:induction false} HostsParse(name: string, items: seq<string>)
    requires Readable(Hosts(name, items))
    ensures Collect(SpecLists(items)).Some?
    ensures PartRefs(Text(Hosts(name, items))) == Some(RefsOf(name, Collect(SpecLists(items)).value))
  {
    N.ItemsSplit(items);
    N.NoBrackets(items, Join(items));
    GroupOrdinals(items);
    InCollected(SpecLists(items), 0);
    HostsText(name, items);
    BodyParses(name, Join(items), Collect(SpecLists(items)).value);
  }

  /** The host is the name, a dash, and one of the ordinals. */
  ghost predicate Numbers(ordinals: seq<int>, name: string, h: string) {
    exists o :: o in ordinals && o >= 0 && h == HostName(name, o)
  }

  ghost predicate ItemHost(item: string, name: string, h: string) {
    ItemOrdinals(item).Some? && Numbers(ItemOrdinals(item).value, name, h)
  }

  ghost predicate GroupHost(items: seq<string>, name: string, h: string) {
    exists i :: 0 <= i < |items| && ItemHost(items[i], name, h)
  }

  lemma {:induction false} NamesAreNumbers(name: string, ordinals: seq<int>, h: string)
    ensures Names(RefsOf(name, ordinals), h) <==> Numbers(ordinals, name, h)
  {
    if Names(RefsOf(name, ordinals), h) {
      var r :| r in RefsOf(name, ordinals) && r.ordinal >= 0 && h == HostName(r.nodeSet, r.ordinal);
      assert r.ordinal in ordinals;
    }
    if Numbers(ordinals, name, h) {
      var o :| o in ordinals && o >= 0 && h == HostName(name, o);
      var k :| 0 <= k < |ordinals| && ordinals[k] == o;
      assert RefsOf(name, ordinals)[k] == NodeRef(name, o);
    }
  }

  lemma {:induction false} NumbersByList(lists: seq<Option<seq<int>>>, name: string, h: string)
    requires forall i :: 0 <= i < |lists| ==> lists[i].Some?
    ensures Collect(lists).Some?
    ensures Numbers(Collect(lists).value, name, h) <==> exists i :: 0 <= i < |lists| && Numbers(lists[i].value, name, h)
  {
    InCollected(lists, 0);
    if Numbers(Collect(lists).value, name, h) {
      var o :| o in Collect(lists).value && o >= 0 && h == HostName(name, o);
      InCollected(lists, o);
      var i :| 0 <= i < |lists| && o in lists[i].value;
      assert Numbers(lists[i].value, name, h);
    }
    if i :| 0 <= i < |lists| && Numbers(lists[i].value, name, h) {
      var o :| o in lists[i].value && o >= 0 && h == HostName(name, o);
      InCollected(lists, o);
    }
  }

  /** The names of a group's references are those of its items. */
  lemma {:induction false} GroupNames(name: string, items: seq<string>, lists: seq<Option<seq<int>>>, h: string)
    requires |lists| == |items|
    requires forall i :: 0 <= i < |items| ==> lists[i].Some? && lists[i] == ItemOrdinals(items[i])
    ensures Collect(lists).Some?
    ensures Names(RefsOf(name, Collect(lists).value), h) <==> GroupHost(items, name, h)
  {
    NumbersByList(lists, name, h);
    NamesAreNumbers(name, Collect(lists).value, h);
    assert forall i :: 0 <= i < |items| ==> (ItemHost(items[i], name, h) <==> Numbers(lists[i].value, name, h));
  }

  lemma {:induction false} GroupLanguage(name: string, items: seq<string>, h: string)
    requires Readable(Hosts(name, items))
    ensures h in Language(Text(Hosts(name, items))) <==>
            name + "-" <= h && exists i :: 0 <= i < |items| && h[|name| + 1..] in Words(items[i])
  {
    ReadableIsLegible(Hosts(name, items));
    N.ItemsSplit(items);
    N.RenderedLanguage(name + "-", Join(items), items);
    N.GroupWithoutSuffix(name + "-", items, h);
  }

  /** An unpadded entry: the power manager's hosts are those the text denotes. */
  lemma {:induction false} EntryNames(w: Written, h: string)
    requires Readable(w) && Unpadded(w)
    ensures PartRefs(Text(w)).Some?
    ensures Names(PartRefs(Text(w)).value, h) <==> h in Language(Text(w))
  {
    match w
    case Host(name, digits) =>
      HostParses(name, digits);
      NumeralOfValue(digits);
      ReadableIsLegible(w);
      SingleLanguage(name + "-" + digits);
      var r := NodeRef(name, Value(digits));
      assert r in [r];
    case Hosts(name, items) =>
      HostsParse(name, items);
      GroupOrdinals(items);
      GroupNames(name, items, SpecLists(items), h);
      GroupLanguage(name, items, h);
      GroupMatches(name, items, h);
  }

  lemma {:induction false} SingleLanguage(s: string)
    requires N.CleanName(s)
    ensures Language(s) == iset{s}
  {
    LanguageOfText(s);
  }

  lemma {:induction false} NumbersMatch(ordinals: seq<int>, name: string, h: string)
    ensures Numbers(ordinals, name, h) <==> name + "-" <= h && Spelled(ordinals, h[|name| + 1..])
  {
    if Numbers(ordinals, name, h) {
      var o :| o in ordinals && o >= 0 && h == HostName(name, o);
      assert h[..|name| + 1] == name + "-" && h[|name| + 1..] == Numeral(o);
    }
    if name + "-" <= h {
      assert h == name + "-" + h[|name| + 1..];
      if o :| o in ordinals && o >= 0 && h[|name| + 1..] == Numeral(o) {
        assert h == HostName(name, o);
      }
    }
  }

  lemma {:induction false} ItemMatches(name: string, item: string, h: string)
    requires SmallItem(item) && UnpaddedItem(item)
    ensures ItemHost(item, name, h) <==> name + "-" <= h && h[|name| + 1..] in Words(item)
  {
    SmallItemOrdinals(item);
    NumbersMatch(ItemOrdinals(item).value, name, h);
    if name + "-" <= h {
      UnpaddedWords(item, h[|name| + 1..]);
    }
  }

  lemma {:induction false} GroupMatches(name: string, items: seq<string>, h: string)
    requires Readable(Hosts(name, items)) && Unpadded(Hosts(name, items))
    ensures GroupHost(items, name, h) <==>
            name + "-" <= h && exists i :: 0 <= i < |items| && h[|name| + 1..] in Words(items[i])
  {
    forall i | 0 <= i < |items|
      ensures ItemHost(items[i], name, h) <==> name + "-" <= h && h[|name| + 1..] in Words(items[i])
    {
      ItemMatches(name, items[i], h);
    }
  }

  /** A padded entry denotes a host whose number has a leading zero. */
  lemma {:induction false} PaddedHost(w: Written) returns (number: string)
    requires Readable(w) && !Unpadded(w)
    ensures IsNumeral(number) && LeadingZero(number) && w.name + "-" + number in Language(Text(w))
  {
    match w
    case Host(name, digits) =>
      number := digits;
      ReadableIsLegible(w);
      SingleLanguage(name + "-" + digits);
    case Hosts(name, items) =>
      var i :| 0 <= i < |items| && !UnpaddedItem(items[i]);
      number := PaddedWord(items[i]);
      var h := name + "-" + number;
      assert h[|name| + 1..] == number && h[..|name| + 1] == name + "-";
      GroupLanguage(name, items, h);
  }

  /** No reference is named with a leading zero. */
  lemma {:induction false} NeverPadded(refs: seq<NodeRef>, name: string, number: string)
    requires IsNumeral(number) && LeadingZero(number)
    ensures !Names(refs, name + "-" + number)
  {
    forall r | r in refs && r.ordinal >= 0 ensures name + "-" + number != HostName(r.nodeSet, r.ordinal) {
      NumeralHasNoLeadingZero(r.ordinal);
      if name + "-" + number == r.nodeSet + "-" + Numeral(r.ordinal) {
        SameNumber(name, number, r.nodeSet, Numeral(r.ordinal));
      }
    }
  }

  lemma {:induction false} SameNumber(a: string, x: string, b: string, y: string)
    requires IsNumeral(x) && IsNumeral(y) && a + "-" + x == b + "-" + y
    ensures x == y
  {
    var s := a + "-" + x;
    assert s[|a|] == '-' && s[|b|] == '-';
    assert forall k :: |a| < k < |s| ==> s[k] == x[k - |a| - 1] && IsDigit(s[k]);
    assert forall k :: |b| < k < |s| ==> s[k] == y[k - |b| - 1] && IsDigit(s[k]);
    assert s[|a| + 1..] == x && s[|b| + 1..] == y;
  }

  // ---------------------------------------------------------------------------
  // Lists
  // ---------------------------------------------------------------------------

  ghost predicate AllReadable(ws: seq<Written>) {
    ws != [] && forall i :: 0 <= i < |ws| ==> Readable(ws[i])
  }

  ghost predicate AllUnpadded(ws: seq<Written>)
    requires AllReadable(ws)
  {
    forall i :: 0 <= i < |ws| ==> Unpadded(ws[i])
  }

  lemma {:induction false} ListSplits(ws: seq<Written>)
    requires AllReadable(ws)
    ensures ListRefs(ListText(ws)) == Collect(PartLists(N.RenderAll(Entries(ws))))
    ensures forall h :: h in ListLanguage(ListText(ws)) <==> InSome(N.RenderAll(Entries(ws)), h)
  {
    forall i | 0 <= i < |ws| ensures N.Legible(Entries(ws)[i]) {
      ReadableIsLegible(ws[i]);
    }
    N.SplitRendered(Entries(ws), Signed, GoSpace);
    N.SplitRendered(Entries(ws), Clamped, PySpace);
  }

  lemma {:induction false} EntryReads(w: Written)
    requires Readable(w)
    ensures PartRefs(Text(w)).Some?
  {
    match w
    case Host(name, digits) => HostParses(name, digits);
    case Hosts(name, items) => HostsParse(name, items);
  }

  /** A host is named by a list's references when it is named by those of one entry. */
  lemma {:induction false} NamesByEntry(lists: seq<Option<seq<NodeRef>>>, h: string)
    requires forall i :: 0 <= i < |lists| ==> lists[i].Some?
    ensures Collect(lists).Some?
    ensures Names(Collect(lists).value, h) <==> exists i :: 0 <= i < |lists| && Names(lists[i].value, h)
  {
    InCollected(lists, NodeRef("", 0));
    var all := Collect(lists).value;
    if Names(all, h) {
      var r :| r in all && r.ordinal >= 0 && h == HostName(r.nodeSet, r.ordinal);
      InCollected(lists, r);
    }
    if i :| 0 <= i < |lists| && Names(lists[i].value, h) {
      var r :| r in lists[i].value && r.ordinal >= 0 && h == HostName(r.nodeSet, r.ordinal);
      InCollected(lists, r);
    }
  }

  lemma {:induction false} UnpaddedAgrees(ws: seq<Written>, h: string)
    requires AllReadable(ws) && AllUnpadded(ws)
    ensures ListRefs(ListText(ws)).Some?
    ensures Names(ListRefs(ListText(ws)).value, h) <==> h in ListLanguage(ListText(ws))
  {
    var texts := N.RenderAll(Entries(ws));
    var lists := PartLists(texts);
    ListSplits(ws);
    forall i | 0 <= i < |ws| ensures lists[i].Some? && (Names(lists[i].value, h) <==> h in Language(texts[i])) {
      EntryNames(ws[i], h);
    }
    NamesByEntry(lists, h);
  }

  lemma {:induction false} PaddedDisagrees(ws: seq<Written>) returns (h: string)
    requires AllReadable(ws) && !AllUnpadded(ws)
    ensures ListRefs(ListText(ws)).Some?
    ensures h in ListLanguage(ListText(ws)) && !Names(ListRefs(ListText(ws)).value, h)
  {
    var i :| 0 <= i < |ws| && !Unpadded(ws[i]);
    var number := PaddedHost(ws[i]);
    h := ws[i].name + "-" + number;
    var texts := N.RenderAll(Entries(ws));
    ListSplits(ws);
    assert h in Language(texts[i]);
    var lists := PartLists(texts);
    forall k | 0 <= k < |ws| ensures lists[k].Some? {
      EntryReads(ws[k]);
    }
    NamesByEntry(lists, h);
    NeverPadded(ListRefs(ListText(ws)).value, ws[i].name, number);
  }

  ghost predicate SameHosts(ws: seq<Written>, h: string) {
    ListRefs(ListText(ws)).Some? && (Names(ListRefs(ListText(ws)).value, h) <==> h in ListLanguage(ListText(ws)))
  }

  /**
   The exact condition: the hosts the power manager acts on for a list are those the list denotes
   if and only if no number in the list is zero-padded.
   */
  lemma {:induction false} PowerAgrees(ws: seq<Written>)
    requires AllReadable(ws)
    ensures (forall h :: SameHosts(ws, h)) <==> AllUnpadded(ws)
  {
    if AllUnpadded(ws) {
      forall h ensures SameHosts(ws, h) {
        UnpaddedAgrees(ws, h);
      }
    } else {
      var h := PaddedDisagrees(ws);
      assert !SameHosts(ws, h);
    }
  }

  /** A failing input: for gpu-07 the power manager acts on gpu-7. */
  lemma {:induction false} SevenDisagrees(digits: string)
    requires digits == "07"
    ensures Readable(Host("gpu", digits)) && !AllUnpadded([Host("gpu", digits)])
    ensures exists h :: !SameHosts([Host("gpu", digits)], h)
  {
    assert digits[..1] == "0" && Value("0") == 0;
    assert Value(digits) == 7;
    var ws := [Host("gpu", digits)];
    assert AllReadable(ws) && !Unpadded(ws[0]);
    PowerAgrees(ws);
  }
}
