/**
 The Slurm hostlist language: what a hostlist expression denotes, and the backtracking
 recogniser of the worker init script, proved to decide exactly that language.
 */
module Hostlist {
  import opened Strings
  import opened Decimal

  /** The first index of c in s at or after i, or -1. */
  function Find(s: string, c: char, i: nat): (k: int)
    requires i <= |s|
    ensures k == -1 <==> c !in s[i..]
    ensures k != -1 ==> i <= k < |s| && s[k] == c && c !in s[i..k]
    decreases |s| - i
  {
    if i == |s| then -1
    else if s[i] == c then i
    else
      var k := Find(s, c, i + 1);
      assert s[i..] == [s[i]] + s[i + 1..];
      assert k != -1 ==> s[i..k] == [s[i]] + s[i + 1..k];
      k
  }

  lemma {:induction false} FindIs(s: string, c: char, i: nat, k: nat)
    requires i <= k < |s| && s[k] == c && forall j :: i <= j < k ==> s[j] != c
    ensures Find(s, c, i) == k
    decreases k - i
  {
    if i < k {
      FindIs(s, c, i + 1, k);
    }
  }

  /** The search finds nothing later than a place where the character stands. */
  lemma {:induction false} FindNoLater(s: string, c: char, i: nat, k: nat)
    requires i <= k < |s| && s[k] == c
    ensures i <= Find(s, c, i) <= k
    decreases k - i
  {
    if i < k {
      FindNoLater(s, c, i + 1, k);
    }
  }

  /** The dash of a range stands behind its start. */
  lemma {:induction false} RangeDash(lo: string, hi: string)
    requires IsNumeral(lo)
    ensures
      var item := lo + "-" + hi;
      Find(item, '-', 0) == |lo| && item[..|lo|] == lo && item[|lo| + 1..] == hi
    ensures Find(lo, '-', 0) == -1
  {
    var item := lo + "-" + hi;
    forall j | 0 <= j < |lo|
      ensures item[j] != '-'
    {
      assert lo[j] in lo;
    }
    FindIs(item, '-', 0, |lo|);
    assert lo[0..] == lo;
  }

  // ---------------------------------------------------------------------------
  // Meaning
  // ---------------------------------------------------------------------------

  /** A token is either plain text or text, one bracket group, and a rest. */
  datatype Shape = Text | Bracketed(prefix: string, items: seq<string>, suffix: string)

  function ShapeOf(token: string): (p: Shape)
    ensures p.Bracketed? ==> |p.suffix| < |token|
  {
    var open := Find(token, '[', 0);
    if open == -1 then Text
    else
      var close := Find(token, ']', open);
      if close == -1 then Text
      else Bracketed(token[..open], Kept(Pieces(token[open + 1..close], Plain), PySpace), token[close + 1..])
  }

  datatype Bounds = NotNumeric | Bounds(lo: string, hi: string)

  /** The two numeric endpoints of a bracket item; a lone number is its own range. */
  function BoundsOf(item: string): (b: Bounds)
    ensures b.Bounds? ==> IsNumeral(b.lo) && IsNumeral(b.hi)
  {
    var dash := Find(item, '-', 0);
    var lo := if dash == -1 then item else item[..dash];
    var hi := if dash == -1 then item else item[dash + 1..];
    if IsNumeral(lo) && IsNumeral(hi) then Bounds(lo, hi) else NotNumeric
  }

  /** The padded width of a range: the wider endpoint when either one is zero-padded. */
  function Width(lo: string, hi: string): nat {
    if LeadingZero(lo) || LeadingZero(hi) then if |lo| >= |hi| then |lo| else |hi| else 0
  }

  /** The words of a numeric range, written at the given width. */
  ghost function RangeWords(lo: nat, hi: nat, width: nat): iset<string> {
    iset v: nat | lo <= v <= hi :: Padded(v, width)
  }

  /** The words a bracket item stands for. */
  ghost function Words(item: string): iset<string> {
    match BoundsOf(item)
    case NotNumeric => iset{item}
    case Bounds(lo, hi) => RangeWords(Value(lo), Value(hi), Width(lo, hi))
  }

  ghost predicate Cut(a: iset<string>, b: iset<string>, text: string, k: int) {
    0 <= k <= |text| && text[..k] in a && text[k..] in b
  }

  ghost predicate HasCut(a: iset<string>, b: iset<string>, text: string) {
    exists k :: Cut(a, b, text, k)
  }

  /** Concatenation of languages. */
  ghost function Cat(a: iset<string>, b: iset<string>): iset<string> {
    iset text: string | HasCut(a, b, text)
  }

  /** A prefix, then a word of one of the items, then a name of the rest. */
  ghost function Group(prefix: string, items: seq<string>, rest: iset<string>): iset<string> {
    iset h: string | prefix <= h && exists i :: 0 <= i < |items| && h[|prefix|..] in Cat(Words(items[i]), rest)
  }

  /** The set of host names a token denotes. */
  ghost function Language(token: string): iset<string>
    decreases |token|
  {
    match ShapeOf(token)
    case Text => iset{token}
    case Bracketed(prefix, items, suffix) => Group(prefix, items, Language(suffix))
  }

  /** The set of host names a comma-separated list denotes. */
  ghost function ListLanguage(hostlist: string): iset<string> {
    iset h: string | InSome(Kept(Pieces(hostlist, Clamped), PySpace), h)
  }

  ghost predicate InSome(tokens: seq<string>, h: string) {
    exists i :: 0 <= i < |tokens| && h in Language(tokens[i])
  }

  // ---------------------------------------------------------------------------
  // Numeric items
  // ---------------------------------------------------------------------------

  /** Under padding, the words are exactly the digit strings of that width with a value in range. */
  lemma {:induction false} PaddedWords(lo: string, hi: string, w: string)
    requires IsNumeral(lo) && IsNumeral(hi) && Width(lo, hi) > 0
    ensures w in RangeWords(Value(lo), Value(hi), Width(lo, hi)) <==>
            |w| == Width(lo, hi) && IsNumeral(w) && Value(lo) <= Value(w) <= Value(hi)
  {
    var width := Width(lo, hi);
    if w in RangeWords(Value(lo), Value(hi), width) {
      var v: nat :| Value(lo) <= v <= Value(hi) && w == Padded(v, width);
      ValueBound(hi);
      PowMonotone(|hi|, width);
      ValueOfPadded(v, width);
    }
    if |w| == width && IsNumeral(w) && Value(lo) <= Value(w) <= Value(hi) {
      PaddedOfValue(w);
    }
  }

  /** Without padding, the words are exactly the unpadded numerals with a value in range. */
  lemma {:induction false} PlainWords(lo: nat, hi: nat, w: string)
    ensures w in RangeWords(lo, hi, 0) <==> IsNumeral(w) && !LeadingZero(w) && lo <= Value(w) <= hi
  {
    if w in RangeWords(lo, hi, 0) {
      var v: nat :| lo <= v <= hi && w == Padded(v, 0);
      ValueOfNumeral(v);
      NumeralHasNoLeadingZero(v);
    }
    if IsNumeral(w) && !LeadingZero(w) && lo <= Value(w) <= hi {
      NumeralOfValue(w);
      assert w == Padded(Value(w), 0);
    }
  }

  /** Under padding the word can only be the first Width characters of the text. */
  lemma {:induction false} PaddedCut(lo: string, hi: string, rest: iset<string>, text: string)
    requires IsNumeral(lo) && IsNumeral(hi) && Width(lo, hi) > 0
    ensures
      var width := Width(lo, hi);
      text in Cat(RangeWords(Value(lo), Value(hi), width), rest) <==>
      && |text| >= width && IsNumeral(text[..width])
      && Value(lo) <= Value(text[..width]) <= Value(hi)
      && text[width..] in rest
  {
    var width := Width(lo, hi);
    var words := RangeWords(Value(lo), Value(hi), width);
    if text in Cat(words, rest) {
      var k :| Cut(words, rest, text, k);
      PaddedWords(lo, hi, text[..k]);
    }
    if |text| >= width {
      PaddedWords(lo, hi, text[..width]);
      assert text[..width] in words && text[width..] in rest ==> Cut(words, rest, text, width);
    }
  }

  // ---------------------------------------------------------------------------
  // The recogniser
  // ---------------------------------------------------------------------------

  /** Splits on depth-zero commas, trims, drops empty tokens. */
  method SplitHostlist(hostlist: string) returns (tokens: seq<string>)
    ensures tokens == Kept(Pieces(hostlist, Clamped), PySpace)
  {
    tokens := [];
    var start, depth := 0, 0;
    ghost var done: seq<string> := [];
    for index := 0 to |hostlist|
      invariant 0 <= start <= index
      invariant depth >= 0
      invariant ScanOf(hostlist[..index], Clamped) == Scan(depth, done, hostlist[start..index])
      invariant tokens == Kept(done, PySpace)
    {
      var c := hostlist[index];
      ScanSnoc(hostlist[..index], c, Clamped);
      assert hostlist[..index] + [c] == hostlist[..index + 1];
      assert hostlist[start..index] + [c] == hostlist[start..index + 1];
      if c == '[' {
        depth := depth + 1;
      } else if c == ']' && depth > 0 {
        depth := depth - 1;
      } else if c == ',' && depth == 0 {
        KeptSnoc(done, hostlist[start..index], PySpace);
        done := done + [hostlist[start..index]];
        var token := Trim(hostlist[start..index], PySpace);
        if token != "" {
          tokens := tokens + [token];
        }
        start := index + 1;
      }
    }
    assert hostlist[..|hostlist|] == hostlist;
    KeptSnoc(done, hostlist[start..], PySpace);
    var token := Trim(hostlist[start..], PySpace);
    if token != "" {
      tokens := tokens + [token];
    }
  }

  method HostlistContains(hostlist: string, hostname: string) returns (found: bool)
    ensures found <==> hostname in ListLanguage(hostlist)
  {
    var tokens := SplitHostlist(hostlist);
    for i := 0 to |tokens|
      invariant forall j :: 0 <= j < i ==> hostname !in Language(tokens[j])
    {
      var hit := TokenContains(tokens[i], hostname);
      if hit {
        return true;
      }
    }
    return false;
  }

  method TokenContains(token: string, hostname: string) returns (found: bool)
    ensures found <==> hostname in Language(token)
    decreases |token|, 0
  {
    var open := Find(token, '[', 0);
    if open == -1 {
      LanguageOfText(token);
      return token == hostname;
    }
    var close := Find(token, ']', open);
    if close == -1 {
      LanguageOfText(token);
      return token == hostname;
    }
    LanguageOfGroup(token, open, close);
    found := GroupContains(token[..open], Kept(Pieces(token[open + 1..close], Plain), PySpace), token[close + 1..],
      hostname);
  }

  lemma {:induction false} LanguageOfText(token: string)
    requires Find(token, '[', 0) == -1 || Find(token, ']', Find(token, '[', 0)) == -1
    ensures Language(token) == iset{token}
  {
  }

  lemma {:induction false} ShapeOfGroup(token: string, open: nat, close: nat)
    requires Find(token, '[', 0) == open && open < |token| && Find(token, ']', open) == close < |token|
    ensures open < close
    ensures ShapeOf(token) ==
      Bracketed(token[..open], Kept(Pieces(token[open + 1..close], Plain), PySpace), token[close + 1..])
  {
  }

  lemma {:induction false} LanguageOfShape(token: string, shape: Shape)
    requires ShapeOf(token) == shape && shape.Bracketed?
    ensures Language(token) == Group(shape.prefix, shape.items, Language(shape.suffix))
  {
  }

  lemma {:induction false} LanguageOfGroup(token: string, open: nat, close: nat)
    requires Find(token, '[', 0) == open && open < |token| && Find(token, ']', open) == close < |token|
    ensures open < close
    ensures Language(token) ==
      Group(token[..open], Kept(Pieces(token[open + 1..close], Plain), PySpace), Language(token[close + 1..]))
  {
    ShapeOfGroup(token, open, close);
    LanguageOfShape(token, ShapeOf(token));
  }

  /** The search through the items of one bracket group. */
  method GroupContains(prefix: string, parts: seq<string>, suffix: string, hostname: string) returns (found: bool)
    ensures found <==> hostname in Group(prefix, parts, Language(suffix))
    decreases |suffix|, 4
  {
    if !(prefix <= hostname) {
      return false;
    }
    ghost var rest := Language(suffix);
    var remainder := hostname[|prefix|..];
    for i := 0 to |parts|
      invariant forall j :: 0 <= j < i ==> remainder !in Cat(Words(parts[j]), rest)
    {
      var hit := RangeContains(parts[i], suffix, remainder);
      if hit {
        return true;
      }
    }
    return false;
  }

  method RangeContains(part: string, suffix: string, remainder: string) returns (found: bool)
    ensures found <==> remainder in Cat(Words(part), Language(suffix))
    decreases |suffix|, 3
  {
    var dash := Find(part, '-', 0);
    var startValue := if dash != -1 then part[..dash] else part;
    var endValue := if dash != -1 then part[dash + 1..] else part;
    if IsNumeral(startValue) && IsNumeral(endValue) {
      assert BoundsOf(part) == Bounds(startValue, endValue);
      found := NumericRangeContains(startValue, endValue, suffix, remainder);
      return;
    }
    assert BoundsOf(part) == NotNumeric;
    LiteralCut(part, Language(suffix), remainder);
    if !(part <= remainder) {
      return false;
    }
    found := TokenContains(suffix, remainder[|part|..]);
  }

  lemma {:induction false} LiteralCut(word: string, rest: iset<string>, text: string)
    ensures text in Cat(iset{word}, rest) <==> word <= text && text[|word|..] in rest
  {
    if text in Cat(iset{word}, rest) {
      var k :| Cut(iset{word}, rest, text, k);
    }
    if word <= text && text[|word|..] in rest {
      assert text[..|word|] == word;
      assert Cut(iset{word}, rest, text, |word|);
    }
  }

  method NumericRangeContains(startValue: string, endValue: string, suffix: string, remainder: string)
    returns (found: bool)
    requires IsNumeral(startValue) && IsNumeral(endValue)
    ensures found <==>
      remainder in Cat(RangeWords(Value(startValue), Value(endValue), Width(startValue, endValue)), Language(suffix))
    decreases |suffix|, 2
  {
    var start, end := Value(startValue), Value(endValue);
    ghost var words, rest := RangeWords(start, end, Width(startValue, endValue)), Language(suffix);
    if start > end {
      assert forall k :: !Cut(words, rest, remainder, k);
      return false;
    }
    var paddedWidth := 0;
    if LeadingZero(startValue) || LeadingZero(endValue) {
      paddedWidth := if |startValue| >= |endValue| then |startValue| else |endValue|;
    }
    if paddedWidth > 0 {
      PaddedCut(startValue, endValue, rest, remainder);
      if |remainder| < paddedWidth || !IsNumeral(remainder[..paddedWidth]) {
        return false;
      }
      var candidate := Value(remainder[..paddedWidth]);
      if !(start <= candidate <= end) {
        return false;
      }
      found := TokenContains(suffix, remainder[paddedWidth..]);
      return;
    }
    found := PlainRangeContains(start, end, suffix, remainder);
  }

  /** The unpadded case: try every prefix of the leading digits that is an unpadded number. */
  method PlainRangeContains(start: nat, end: nat, suffix: string, remainder: string) returns (found: bool)
    ensures found <==> remainder in Cat(RangeWords(start, end, 0), Language(suffix))
    decreases |suffix|, 1
  {
    ghost var words, rest := RangeWords(start, end, 0), Language(suffix);
    var digits := CountDigits(remainder);
    PlainWords(start, end, "");
    assert remainder[..0] == "";
    for length := 1 to digits + 1
      invariant forall k :: 0 <= k < length ==> !Cut(words, rest, remainder, k)
    {
      var candidate := remainder[..length];
      PlainWords(start, end, candidate);
      if |candidate| > 1 && candidate[0] == '0' {
        continue;
      }
      if start <= Value(candidate) <= end {
        var hit := TokenContains(suffix, remainder[length..]);
        if hit {
          assert Cut(words, rest, remainder, length);
          return true;
        }
      }
    }
    forall k ensures !Cut(words, rest, remainder, k) {
      if digits < k <= |remainder| {
        PlainWords(start, end, remainder[..k]);
      }
    }
    return false;
  }

  /** How many digits the text starts with. */
  method CountDigits(text: string) returns (n: nat)
    ensures n <= |text|
    ensures forall k: nat :: k <= |text| ==> ((forall c :: c in text[..k] ==> IsDigit(c)) <==> k <= n)
  {
    n := 0;
    while n < |text| && IsDigit(text[n])
      invariant n <= |text|
      invariant forall i :: 0 <= i < n ==> IsDigit(text[i])
    {
      n := n + 1;
    }
    forall k: nat | n < k <= |text|
      ensures !(forall c :: c in text[..k] ==> IsDigit(c))
    {
      assert text[..k][n] == text[n];
    }
  }
}
