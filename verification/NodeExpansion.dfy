/**
 The Go node-list expander of the Slurm API client, and its agreement with the hostlist
 language: on which bracket items the two implementations name the same hosts.
 */
module NodeExpansion {
  import opened Strings
  import opened Decimal
  import opened Strconv
  import opened Lists
  import opened Hostlist

  /** The result of expanding one pattern: not a bracket pattern, an error, or the names. */
  datatype Expansion = NoMatch | Invalid | Names(nodes: seq<string>)

  /** The last index below `end` where s holds c, or -1. */
  function FindLast(s: string, c: char, end: nat): (k: int)
    requires end <= |s|
    ensures k == -1 <==> c !in s[..end]
    ensures k != -1 ==> 0 <= k < end && s[k] == c && c !in s[k + 1..end]
  {
    if end == 0 then -1
    else if s[end - 1] == c then end - 1
    else
      var k := FindLast(s, c, end - 1);
      assert s[..end] == s[..end - 1] + [s[end - 1]];
      assert k != -1 ==> s[k + 1..end] == s[k + 1..end - 1] + [s[end - 1]];
      k
  }

  lemma {:induction false} FindLastIs(s: string, c: char, end: nat, k: nat)
    requires k < end <= |s| && s[k] == c && forall j :: k < j < end ==> s[j] != c
    ensures FindLast(s, c, end) == k
  {
    if k < end - 1 {
      FindLastIs(s, c, end - 1, k);
    }
  }

  /**
   The opening bracket chosen by the greedy pattern: text, bracket, text, closing bracket at
   the end, both texts non-empty and free of newlines. -1 when the pattern does not match.
   */
  function OpenBracket(s: string): (k: int)
    ensures k != -1 ==> 1 <= k <= |s| - 3 && s[k] == '['
  {
    if |s| < 4 || s[|s| - 1] != ']' || '\n' in s then -1
    else
      var k := FindLast(s, '[', |s| - 2);
      if k == 0 then -1 else k
  }

  /** The names one trimmed bracket item expands to; the width is that of the written start. */
  function ItemNames(prefix: string, part: string): Option<seq<string>> {
    var dash := Find(part, '-', 0);
    if dash == -1 then RangeNames(prefix, |part|, ParseInt(part, INT64_LIMIT), ParseInt(part, INT64_LIMIT))
    else if '-' in part[dash + 1..] then None
    else
      RangeNames(prefix, dash, ParseInt(part[..dash], INT64_LIMIT), ParseInt(part[dash + 1..], INT64_LIMIT))
  }

  function RangeNames(prefix: string, width: nat, start: Option<int>, end: Option<int>): Option<seq<string>>
    requires start.Some? ==> start.value >= 0
  {
    if start.None? || end.None? || start.value > end.value then None
    else Some(NumberedNames(prefix, width, start.value, end.value))
  }

  function NumberedNames(prefix: string, width: nat, start: nat, end: int): seq<string>
    decreases end - start
  {
    if end < start then [] else NumberedNames(prefix, width, start, end - 1) + [prefix + Padded(end, width)]
  }

  /** The expansion of every bracket item. */
  function ItemLists(prefix: string, items: seq<string>): seq<Option<seq<string>>> {
    seq(|items|, i requires 0 <= i < |items| => ItemNames(prefix, Trim(items[i], GoSpace)))
  }

  function Expand(pattern: string): Expansion {
    var open := OpenBracket(pattern);
    if open == -1 then NoMatch else ExpandAt(pattern, open)
  }

  function ExpandAt(pattern: string, open: nat): Expansion
    requires open <= |pattern| - 2
  {
    var ns := Collect(ItemLists(pattern[..open], Pieces(pattern[open + 1..|pattern| - 1], Plain)));
    if ns.None? then Invalid else Expansion.Names(ns.value)
  }

  /** What one part of a node string stands for: an expanded pattern, or itself as a name. */
  function PartNames(part: string): Option<seq<string>> {
    match Expand(part)
    case NoMatch => Some([part])
    case Invalid => None
    case Names(nodes) => Some(nodes)
  }

  function PartLists(parts: seq<string>): seq<Option<seq<string>>> {
    seq(|parts|, i requires 0 <= i < |parts| => PartNames(parts[i]))
  }

  /** A range is expanded exactly if it does not descend and its end fits; a number exactly if it fits. */
  lemma {:induction false} ItemExpands(prefix: string, lo: string, hi: string)
    requires IsNumeral(lo) && IsNumeral(hi)
    ensures ItemNames(prefix, lo).Some? <==> Value(lo) < INT64_LIMIT
    ensures ItemNames(prefix, lo + "-" + hi).Some? <==> Value(lo) <= Value(hi) < INT64_LIMIT
  {
    RangeDash(lo, hi);
  }

  /** An item with two dashes, or with a character that is no digit, sign or dash, is an error. */
  lemma {:induction false} ItemRefused(prefix: string, part: string, i: nat, j: nat)
    requires i < |part| && j < |part|
    requires (i < j && part[i] == '-' && part[j] == '-') || (!IsDigit(part[i]) && part[i] !in "+-")
    ensures ItemNames(prefix, part).None?
  {
    var dash := Find(part, '-', 0);
    if dash == -1 {
      assert part[0..] == part;
    } else if part[i] == '-' {
      FindNoLater(part, '-', 0, i);
      assert part[dash + 1..][j - dash - 1] == '-';
    } else if i < dash {
      assert part[..dash][i] == part[i];
    } else {
      assert part[dash + 1..][i - dash - 1] == part[i];
    }
  }

  // ---------------------------------------------------------------------------
  // The implementation
  // ---------------------------------------------------------------------------

  /** The comma splitter shared by the API client and the power manager. */
  method SplitNodeString(nodeString: string) returns (parts: seq<string>)
    ensures parts == Kept(Pieces(nodeString, Signed), GoSpace)
  {
    parts := [];
    var current, depth := "", 0;
    ghost var done: seq<string> := [];
    for i := 0 to |nodeString|
      invariant ScanOf(nodeString[..i], Signed) == Scan(depth, done, current)
      invariant parts == Kept(done, GoSpace)
    {
      var c := nodeString[i];
      ScanSnoc(nodeString[..i], c, Signed);
      assert nodeString[..i] + [c] == nodeString[..i + 1];
      if c == '[' {
        depth := depth + 1;
        current := current + [c];
      } else if c == ']' {
        depth := depth - 1;
        current := current + [c];
      } else if c == ',' && depth == 0 {
        KeptSnoc(done, current, GoSpace);
        done := done + [current];
        if Trim(current, GoSpace) != "" {
          parts := parts + [Trim(current, GoSpace)];
        }
        current := "";
      } else {
        current := current + [c];
      }
    }
    assert nodeString[..|nodeString|] == nodeString;
    KeptSnoc(done, current, GoSpace);
    if Trim(current, GoSpace) != "" {
      parts := parts + [Trim(current, GoSpace)];
    }
  }

  method ExpandNodeRange(pattern: string) returns (r: Expansion)
    ensures r == Expand(pattern)
  {
    var open := OpenBracket(pattern);
    if open == -1 {
      return NoMatch;
    }
    r := ExpandMatch(pattern, open);
  }

  method ExpandMatch(pattern: string, open: nat) returns (r: Expansion)
    requires open <= |pattern| - 2
    ensures r == ExpandAt(pattern, open)
  {
    var nodes := ExpandItems(pattern[..open], Pieces(pattern[open + 1..|pattern| - 1], Plain));
    return if nodes.None? then Invalid else Expansion.Names(nodes.value);
  }

  method ExpandItems(prefix: string, items: seq<string>) returns (r: Option<seq<string>>)
    ensures r == Collect(ItemLists(prefix, items))
  {
    ghost var lists := ItemLists(prefix, items);
    var nodes: seq<string> := [];
    for i := 0 to |items|
      invariant Collect(lists[..i]) == Some(nodes)
    {
      CollectStep(lists, i);
      var part := Trim(items[i], GoSpace);
      assert lists[i] == ItemNames(prefix, part);
      var expanded := ExpandItem(prefix, part);
      if expanded.None? {
        CollectFails(lists, i);
        return None;
      }
      nodes := nodes + expanded.value;
    }
    assert lists[..|items|] == lists;
    return Some(nodes);
  }

  method ExpandItem(prefix: string, part: string) returns (r: Option<seq<string>>)
    ensures r == ItemNames(prefix, part)
  {
    var dash := Find(part, '-', 0);
    if dash == -1 {
      var num := ParseInt(part, INT64_LIMIT);
      if num.None? {
        return None;
      }
      var nodes := ExpandRange(prefix, |part|, num.value, num.value);
      return Some(nodes);
    }
    if '-' in part[dash + 1..] {
      return None;
    }
    var start := ParseInt(part[..dash], INT64_LIMIT);
    var end := ParseInt(part[dash + 1..], INT64_LIMIT);
    if start.None? || end.None? || start.value > end.value {
      return None;
    }
    var nodes := ExpandRange(prefix, dash, start.value, end.value);
    return Some(nodes);
  }

  method ExpandRange(prefix: string, width: nat, start: nat, end: int) returns (nodes: seq<string>)
    requires start <= end
    ensures nodes == NumberedNames(prefix, width, start, end)
  {
    nodes := [];
    for i := start to end + 1
      invariant nodes == NumberedNames(prefix, width, start, i - 1)
    {
      nodes := nodes + [prefix + Padded(i, width)];
    }
  }

  method ParseNodeList(nodeString: string) returns (r: Option<seq<string>>)
    ensures r == Collect(PartLists(Kept(Pieces(nodeString, Signed), GoSpace)))
  {
    var nodes: seq<string> := [];
    var parts := SplitNodeString(nodeString);
    ghost var lists := PartLists(parts);
    for i := 0 to |parts|
      invariant Collect(lists[..i]) == Some(nodes)
    {
      CollectStep(lists, i);
      var expanded := ExpandNodeRange(parts[i]);
      if expanded.Invalid? {
        CollectFails(lists, i);
        return None;
      }
      nodes := nodes + if expanded.NoMatch? then [parts[i]] else expanded.nodes;
    }
    assert lists[..|parts|] == lists;
    return Some(nodes);
  }

  // ---------------------------------------------------------------------------
  // Agreement with the hostlist language
  // ---------------------------------------------------------------------------

  /** A numeric item whose range is not empty and whose values fit the Go integer type. */
  predicate Numeric(item: string) {
    var b := BoundsOf(item);
    b.Bounds? && Value(b.lo) <= Value(b.hi) < INT64_LIMIT
  }

  /** The item's written width does not change between the two conventions. */
  predicate SameWidth(item: string)
    requires Numeric(item)
  {
    var b := BoundsOf(item);
    |b.lo| >= |b.hi| || (!LeadingZero(b.lo) && !LeadingZero(b.hi))
  }

  /** The Go names of a numeric item. */
  lemma {:induction false} NumericItemNames(prefix: string, item: string)
    requires Numeric(item)
    ensures
      var b := BoundsOf(item);
      ItemNames(prefix, item) == Some(NumberedNames(prefix, |b.lo|, Value(b.lo), Value(b.hi)))
  {
    var b, dash := BoundsOf(item), Find(item, '-', 0);
    NumeralParses(b.lo);
    NumeralParses(b.hi);
    if dash != -1 {
      assert b.hi == item[dash + 1..];
      NumeralHasNoDash(b.hi);
    }
  }

  lemma {:induction false} NumeralParses(s: string)
    requires IsNumeral(s)
    ensures ParseInt(s, INT64_LIMIT) == if Value(s) < INT64_LIMIT then Some(Value(s)) else None
  {
  }

  lemma {:induction false} NumeralHasNoDash(s: string)
    requires IsNumeral(s)
    ensures '-' !in s
  {
  }

  /** With unchanged width both conventions write every number of the range the same way. */
  lemma {:induction false} SameSpelling(item: string, v: nat)
    requires Numeric(item) && SameWidth(item)
    requires Value(BoundsOf(item).lo) <= v
    ensures Padded(v, |BoundsOf(item).lo|) == Padded(v, Width(BoundsOf(item).lo, BoundsOf(item).hi))
  {
    var b := BoundsOf(item);
    if !LeadingZero(b.lo) && !LeadingZero(b.hi) {
      NumeralOfValue(b.lo);
      NumeralLengthMonotone(Value(b.lo), v);
    }
  }

  /** The Go expansion of the item holds prefix + w exactly when w is a word of the item. */
  ghost predicate Agrees(item: string, prefix: string, w: string) {
    ItemNames(prefix, item).Some? && (prefix + w in ItemNames(prefix, item).value <==> w in Words(item))
  }

  lemma {:induction false} InNumbered(prefix: string, width: nat, start: nat, end: int, w: string)
    ensures prefix + w in NumberedNames(prefix, width, start, end) <==>
            exists v: nat :: start <= v <= end && w == Padded(v, width)
    decreases end - start
  {
    if start <= end {
      InNumbered(prefix, width, start, end - 1, w);
      PrefixCancels(prefix, w, Padded(end, width));
    }
  }

  lemma {:induction false} PrefixCancels(prefix: string, a: string, b: string)
    ensures prefix + a == prefix + b <==> a == b
  {
    assert (prefix + a)[|prefix|..] == a && (prefix + b)[|prefix|..] == b;
  }

  /**
   The exact condition for agreement on one item: the Go expander and the recogniser name
   the same hosts if and only if the start is written at least as wide as the end, or
   neither endpoint is zero-padded.
   */
  lemma {:induction false} ItemAgreement(prefix: string, item: string)
    requires Numeric(item)
    ensures (forall w :: Agrees(item, prefix, w)) <==> SameWidth(item)
  {
    if SameWidth(item) {
      forall w ensures Agrees(item, prefix, w) {
        ItemAgrees(prefix, item, w);
      }
    } else {
      ItemDisagrees(prefix, item);
      assert !Agrees(item, prefix, BoundsOf(item).lo);
    }
  }

  lemma {:induction false} ItemAgrees(prefix: string, item: string, w: string)
    requires Numeric(item) && SameWidth(item)
    ensures Agrees(item, prefix, w)
  {
    var b := BoundsOf(item);
    NumericItemNames(prefix, item);
    InNumbered(prefix, |b.lo|, Value(b.lo), Value(b.hi), w);
    if v: nat :| Value(b.lo) <= v <= Value(b.hi) && w == Padded(v, |b.lo|) {
      SameSpelling(item, v);
    }
    if w in RangeWords(Value(b.lo), Value(b.hi), Width(b.lo, b.hi)) {
      var v: nat :| Value(b.lo) <= v <= Value(b.hi) && w == Padded(v, Width(b.lo, b.hi));
      SameSpelling(item, v);
    }
  }

  /** Otherwise the two differ already on the first number: the start as written is a Go name and no word. */
  lemma {:induction false} ItemDisagrees(prefix: string, item: string)
    requires Numeric(item) && !SameWidth(item)
    ensures
      var names, lo := ItemNames(prefix, item), BoundsOf(item).lo;
      names.Some? && prefix + lo in names.value && lo !in Words(item)
  {
    var b := BoundsOf(item);
    NumericItemNames(prefix, item);
    InNumbered(prefix, |b.lo|, Value(b.lo), Value(b.hi), b.lo);
    PaddedOfValue(b.lo);
    assert b.lo == Padded(Value(b.lo), |b.lo|);
    PaddedWords(b.lo, b.hi, b.lo);
  }

  const SKEWED := "01-100"

  lemma {:induction false} SkewedBounds(item: string)
    requires item == SKEWED
    ensures BoundsOf(item) == Bounds("01", "100")
  {
    FindIs(item, '-', 0, 2);
    assert item[..2] == "01" && item[3..] == "100";
  }

  lemma {:induction false} SkewedValues()
    ensures Value("01") == 1 && Value("100") == 100
  {
    assert "01"[..1] == "0" && "100"[..2] == "10" && "10"[..1] == "1";
    assert Value("0") == 0 && Value("1") == 1;
    assert Value("10") == 10;
  }

  /** A failing input: of 01-100 the Go expander makes a host ending in 01, the recogniser one ending in 001. */
  lemma {:induction false} SkewedDisagrees(prefix: string, item: string)
    requires item == SKEWED
    ensures Numeric(item) && !SameWidth(item)
    ensures ItemNames(prefix, item).Some? && prefix + "01" in ItemNames(prefix, item).value && "01" !in Words(item)
  {
    SkewedBounds(item);
    SkewedValues();
    ItemDisagrees(prefix, item);
  }

  /** A node-list entry: a plain name, or a prefix with one bracket group of numeric items. */
  datatype Entry = Single(name: string) | Ranged(prefix: string, items: seq<string>)

  function Render(e: Entry): string {
    match e
    case Single(name) => name
    case Ranged(prefix, items) => prefix + "[" + Join(items) + "]"
  }

  /** Text free of the list syntax, not starting or ending with a space. */
  predicate CleanName(s: string) {
    && s != "" && Trimmed(s, PySpace)
    && ',' !in s && '[' !in s && ']' !in s && '\n' !in s
  }

  /** An entry both sides can read. */
  predicate Legible(e: Entry) {
    match e
    case Single(name) => CleanName(name)
    case Ranged(prefix, items) => CleanName(prefix) && NumericItems(items)
  }

  /** A legible entry whose items are on the agreeing side of ItemAgreement. */
  predicate WellFormed(e: Entry) {
    Legible(e) && (e.Ranged? ==> AgreeingItems(e.items))
  }

  /** At least one item, all of them numeric. */
  predicate NumericItems(items: seq<string>) {
    items != [] && forall i :: 0 <= i < |items| ==> Numeric(items[i])
  }

  predicate AgreeingItems(items: seq<string>) {
    NumericItems(items) && forall i :: 0 <= i < |items| ==> SameWidth(items[i])
  }

  predicate ItemChar(c: char) {
    IsDigit(c) || c == '-'
  }

  predicate ItemText(s: string) {
    s != "" && forall c :: c in s ==> ItemChar(c)
  }

  lemma {:induction false} NumericIsItemText(item: string)
    requires Numeric(item)
    ensures ItemText(item)
  {
    var dash := Find(item, '-', 0);
    if dash != -1 {
      var b := BoundsOf(item);
      assert item == b.lo + "-" + b.hi;
    }
  }

  lemma {:induction false} JoinText(items: seq<string>)
    requires forall i :: 0 <= i < |items| ==> ItemText(items[i])
    ensures items != [] ==> Join(items) != ""
    ensures forall c :: c in Join(items) ==> ItemChar(c) || c == ','
  {
    if |items| > 1 {
      JoinText(items[..|items| - 1]);
    }
  }

  lemma {:induction false} SplitItems(items: seq<string>, space: char -> bool)
    requires items != [] && forall i :: 0 <= i < |items| ==> ItemText(items[i])
    requires forall c :: ItemChar(c) ==> !space(c)
    ensures Pieces(Join(items), Plain) == items
    ensures Kept(items, space) == items
    ensures forall i :: 0 <= i < |items| ==> Trim(items[i], space) == items[i]
  {
    forall i | 0 <= i < |items|
      ensures Closed(items[i], Plain) && items[i] != "" && Trimmed(items[i], space) && Trim(items[i], space) == items[i]
    {
      PlainTextIsClosed(items[i], Plain);
      assert ItemText(items[i]);
      TrimOfTrimmed(items[i], space);
    }
    PiecesOfJoin(items, Plain);
    KeptOfTrimmed(items, space);
  }

  /** The recogniser reads a rendered entry as one bracket group with exactly these items. */
  lemma {:induction false} RenderedLanguage(prefix: string, body: string, items: seq<string>)
    requires CleanName(prefix) && body != "" && forall c :: c in body ==> ItemChar(c) || c == ','
    requires Pieces(body, Plain) == items && Kept(items, PySpace) == items
    ensures Language(prefix + "[" + body + "]") == Group(prefix, items, iset{""})
  {
    var s := prefix + "[" + body + "]";
    assert Framed(s, |prefix|) by { RenderedIsFramed(prefix, body); }
    FramedLanguage(s, |prefix|);
    assert s[..|prefix|] == prefix && s[|prefix| + 1..|s| - 1] == body;
  }

  lemma {:induction false} FramedLanguage(s: string, open: nat)
    requires Framed(s, open)
    ensures Language(s) == Group(s[..open], Kept(Pieces(s[open + 1..|s| - 1], Plain), PySpace), iset{""})
  {
    ShapeOfFramed(s, open);
    LanguageOfLastGroup(s, ShapeOf(s));
  }

  lemma {:induction false} ShapeOfFramed(s: string, open: nat)
    requires Framed(s, open)
    ensures ShapeOf(s) == Bracketed(s[..open], Kept(Pieces(s[open + 1..|s| - 1], Plain), PySpace), "")
  {
    BracketPositions(s, open);
    ShapeOfGroup(s, open, |s| - 1);
  }

  lemma {:induction false} LanguageOfLastGroup(token: string, shape: Shape)
    requires ShapeOf(token) == shape && shape.Bracketed? && shape.suffix == ""
    ensures Language(token) == Group(shape.prefix, shape.items, iset{""})
  {
    LanguageOfShape(token, shape);
    LanguageOfText("");
  }

  /** The Go expander reads it the same way. */
  lemma {:induction false} RenderedExpansion(prefix: string, body: string, items: seq<string>)
    requires CleanName(prefix) && body != "" && forall c :: c in body ==> ItemChar(c) || c == ','
    requires Pieces(body, Plain) == items
    ensures PartNames(prefix + "[" + body + "]") == Collect(ItemLists(prefix, items))
  {
    var s := prefix + "[" + body + "]";
    assert Framed(s, |prefix|) by { RenderedIsFramed(prefix, body); }
    BracketPositions(s, |prefix|);
    assert s[..|prefix|] == prefix && s[|prefix| + 1..|s| - 1] == body;
  }

  lemma {:induction false} ItemsSplit(items: seq<string>)
    requires NumericItems(items)
    ensures Join(items) != "" && forall c :: c in Join(items) ==> ItemChar(c) || c == ','
    ensures Pieces(Join(items), Plain) == items && Kept(items, PySpace) == items
    ensures forall i :: 0 <= i < |items| ==> Trim(items[i], GoSpace) == items[i]
  {
    forall i | 0 <= i < |items| ensures ItemText(items[i]) { NumericIsItemText(items[i]); }
    JoinText(items);
    SplitItems(items, PySpace);
    SplitItems(items, GoSpace);
  }

  /** Text, an opening bracket, text, and a closing bracket at the end. */
  predicate Framed(s: string, open: nat) {
    && 1 <= open <= |s| - 3 && s[open] == '[' && s[|s| - 1] == ']' && '\n' !in s
    && (forall k :: 0 <= k < |s| && k != open ==> s[k] != '[')
    && (forall k :: 0 <= k < |s| - 1 ==> s[k] != ']')
  }

  lemma {:induction false} RenderedIsFramed(prefix: string, body: string)
    requires CleanName(prefix) && body != "" && forall c :: c in body ==> ItemChar(c) || c == ','
    ensures Framed(prefix + "[" + body + "]", |prefix|)
  {
    var s := prefix + "[" + body + "]";
    forall k | 0 <= k < |s|
      ensures s[k] != '\n' && (k != |prefix| ==> s[k] != '[') && (k < |s| - 1 ==> s[k] != ']')
    {
      if k < |prefix| {
        assert s[k] == prefix[k] && prefix[k] in prefix;
      } else if |prefix| < k < |s| - 1 {
        assert s[k] == body[k - |prefix| - 1] && s[k] in body;
      }
    }
  }

  lemma {:induction false} BracketPositions(s: string, open: nat)
    requires Framed(s, open)
    ensures Find(s, '[', 0) == open && Find(s, ']', open) == |s| - 1 && OpenBracket(s) == open
  {
    FindIs(s, '[', 0, open);
    FindIs(s, ']', open, |s| - 1);
    FindLastIs(s, '[', |s| - 2, open);
  }

  /** On a well-formed entry the Go expansion holds a name exactly when the recogniser's language does. */
  lemma {:induction false} EntryAgreement(e: Entry, h: string)
    requires WellFormed(e)
    ensures PartNames(Render(e)).Some?
    ensures h in PartNames(Render(e)).value <==> h in Language(Render(e))
  {
    match e
    case Single(name) =>
      assert OpenBracket(name) == -1 && ShapeOf(name) == Text;
    case Ranged(prefix, items) =>
      ItemsSplit(items);
      RenderedLanguage(prefix, Join(items), items);
      RenderedExpansion(prefix, Join(items), items);
      GroupAgreement(prefix, items, h);
  }

  lemma {:induction false} GroupAgreement(prefix: string, items: seq<string>, h: string)
    requires AgreeingItems(items)
    ensures
      var ns := Collect(ItemLists(prefix, items));
      ns.Some? && (h in ns.value <==> h in Group(prefix, items, iset{""}))
  {
    ListedByItem(prefix, items, h);
    InCollected(ItemLists(prefix, items), h);
    GroupWithoutSuffix(prefix, items, h);
  }

  lemma {:induction false} ListedByItem(prefix: string, items: seq<string>, h: string)
    requires AgreeingItems(items)
    ensures
      var lists := ItemLists(prefix, items);
      forall i :: 0 <= i < |items| ==>
        lists[i].Some? && (h in lists[i].value <==> prefix <= h && h[|prefix|..] in Words(items[i]))
  {
    ItemsSplit(items);
    var lists := ItemLists(prefix, items);
    forall i | 0 <= i < |items|
      ensures lists[i].Some? && (h in lists[i].value <==> prefix <= h && h[|prefix|..] in Words(items[i]))
    {
      assert lists[i] == ItemNames(prefix, items[i]);
      EntryItem(prefix, items[i], h);
    }
  }

  lemma {:induction false} EntryItem(prefix: string, item: string, h: string)
    requires Numeric(item) && SameWidth(item)
    ensures ItemNames(prefix, item).Some?
    ensures h in ItemNames(prefix, item).value <==> prefix <= h && h[|prefix|..] in Words(item)
  {
    if prefix <= h {
      assert prefix + h[|prefix|..] == h;
      ItemAgrees(prefix, item, h[|prefix|..]);
    } else {
      NumericItemNames(prefix, item);
      StartWithPrefix(prefix, |BoundsOf(item).lo|, Value(BoundsOf(item).lo), Value(BoundsOf(item).hi), h);
    }
  }

  lemma {:induction false} StartWithPrefix(prefix: string, width: nat, start: nat, end: int, h: string)
    requires !(prefix <= h)
    ensures h !in NumberedNames(prefix, width, start, end)
    decreases end - start
  {
    if start <= end {
      StartWithPrefix(prefix, width, start, end - 1, h);
    }
  }

  lemma {:induction false} GroupWithoutSuffix(prefix: string, items: seq<string>, h: string)
    ensures h in Group(prefix, items, iset{""}) <==>
            prefix <= h && exists i :: 0 <= i < |items| && h[|prefix|..] in Words(items[i])
  {
    if prefix <= h {
      forall i | 0 <= i < |items|
        ensures h[|prefix|..] in Cat(Words(items[i]), iset{""}) <==> h[|prefix|..] in Words(items[i])
      {
        CatWithEmpty(Words(items[i]), h[|prefix|..]);
      }
    }
  }

  lemma {:induction false} CatWithEmpty(words: iset<string>, text: string)
    ensures text in Cat(words, iset{""}) <==> text in words
  {
    if text in Cat(words, iset{""}) {
      var k :| Cut(words, iset{""}, text, k);
      assert text[k..] == "" && text[..k] == text;
    }
    if text in words {
      assert text[..|text|] == text && text[|text|..] == "";
      assert Cut(words, iset{""}, text, |text|);
    }
  }

  function RenderAll(es: seq<Entry>): seq<string> {
    seq(|es|, i requires 0 <= i < |es| => Render(es[i]))
  }

  lemma {:induction false} RenderedEntry(e: Entry, m: Brackets)
    requires Legible(e) && m != Plain
    ensures Closed(Render(e), m) && Render(e) != "" && Trimmed(Render(e), PySpace)
  {
    match e
    case Single(name) => PlainTextIsClosed(name, m);
    case Ranged(prefix, items) =>
      RangedEntry(prefix, items, m);
  }

  lemma {:induction false} RangedEntry(prefix: string, items: seq<string>, m: Brackets)
    requires m != Plain && CleanName(prefix) && NumericItems(items)
    ensures
      var s := prefix + "[" + Join(items) + "]";
      Closed(s, m) && s != "" && Trimmed(s, PySpace)
  {
    var body := Join(items);
    NoBrackets(items, body);
    RangedText(prefix, body, m);
  }

  lemma {:induction false} NoBrackets(items: seq<string>, body: string)
    requires NumericItems(items) && body == Join(items)
    ensures '[' !in body && ']' !in body
  {
    forall i | 0 <= i < |items| ensures ItemText(items[i]) { NumericIsItemText(items[i]); }
    JoinText(items);
  }

  lemma {:induction false} RangedText(prefix: string, body: string, m: Brackets)
    requires m != Plain && CleanName(prefix) && '[' !in body && ']' !in body
    ensures
      var s := prefix + "[" + body + "]";
      Closed(s, m) && s != "" && Trimmed(s, PySpace)
  {
    GroupIsClosed(prefix, body, m);
    var s := prefix + "[" + body + "]";
    assert s[0] == prefix[0] && s[|s| - 1] == ']';
  }

  /** Both list splitters recover the rendered entries. */
  lemma {:induction false} SplitRendered(es: seq<Entry>, m: Brackets, space: char -> bool)
    requires es != [] && forall i :: 0 <= i < |es| ==> Legible(es[i])
    requires m != Plain && forall c :: space(c) ==> PySpace(c)
    ensures Kept(Pieces(Join(RenderAll(es)), m), space) == RenderAll(es)
  {
    var parts := RenderAll(es);
    forall i | 0 <= i < |es|
      ensures Closed(parts[i], m) && parts[i] != "" && Trimmed(parts[i], space)
    {
      RenderedEntry(es[i], m);
    }
    PiecesOfJoin(parts, m);
    KeptOfTrimmed(parts, space);
  }

  /**
   Cross-language agreement on whole lists: the Go client's expansion of a node list holds a
   name exactly when the worker's recogniser accepts it.
   */
  lemma {:induction false} ListAgreement(es: seq<Entry>, h: string)
    requires es != [] && forall i :: 0 <= i < |es| ==> WellFormed(es[i])
    ensures
      var text := Join(RenderAll(es));
      var go := Collect(PartLists(Kept(Pieces(text, Signed), GoSpace)));
      go.Some? && (h in go.value <==> h in ListLanguage(text))
  {
    var parts := RenderAll(es);
    SplitRendered(es, Signed, GoSpace);
    SplitRendered(es, Clamped, PySpace);
    var lists := PartLists(parts);
    forall i | 0 <= i < |es|
      ensures lists[i].Some? && (h in lists[i].value <==> h in Language(parts[i]))
    {
      EntryAgreement(es[i], h);
    }
    InCollected(lists, h);
  }
}
