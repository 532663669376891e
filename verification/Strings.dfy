/**
 Text helpers shared by the hostlist, node-list and resource-string code: trimming,
 joining, and the comma splitters. Text is a sequence of ASCII characters.
 */
module Strings {

  /** The ASCII characters Go's strings.TrimSpace removes. */
  predicate GoSpace(c: char) {
    c == ' ' || '\t' <= c <= '\r'
  }

  /** The ASCII characters Python's str.strip removes. */
  predicate PySpace(c: char) {
    c == ' ' || '\t' <= c <= '\r' || 28 as char <= c <= 31 as char
  }

  function TrimLeft(s: string, space: char -> bool): string {
    if s != "" && space(s[0]) then TrimLeft(s[1..], space) else s
  }

  function TrimRight(s: string, space: char -> bool): string {
    if s != "" && space(s[|s| - 1]) then TrimRight(s[..|s| - 1], space) else s
  }

  function Trim(s: string, space: char -> bool): string {
    TrimRight(TrimLeft(s, space), space)
  }

  /** A string that neither starts nor ends with a space. */
  predicate Trimmed(s: string, space: char -> bool) {
    s != "" ==> !space(s[0]) && !space(s[|s| - 1])
  }

  predicate AllSpace(s: string, space: char -> bool) {
    forall c :: c in s ==> space(c)
  }

  /** Trimming cuts spaces off both ends and leaves none there. */
  lemma {:induction false} TrimCuts(s: string, space: char -> bool)
    ensures Trimmed(Trim(s, space), space)
    ensures exists a, b :: AllSpace(a, space) && AllSpace(b, space) && s == a + Trim(s, space) + b
  {
    var t := TrimLeft(s, space);
    var a := TrimLeftCuts(s, space);
    var b := TrimRightCuts(t, space);
    assert s == a + Trim(s, space) + b;
    assert Trim(s, space) != "" ==> Trim(s, space)[0] == t[0];
  }

  lemma {:induction false} TrimLeftCuts(s: string, space: char -> bool) returns (a: string)
    ensures AllSpace(a, space) && s == a + TrimLeft(s, space)
    ensures TrimLeft(s, space) != "" ==> !space(TrimLeft(s, space)[0])
  {
    a := "";
    if s != "" && space(s[0]) {
      a := TrimLeftCuts(s[1..], space);
      a := [s[0]] + a;
    }
  }

  lemma {:induction false} TrimRightCuts(s: string, space: char -> bool) returns (b: string)
    ensures AllSpace(b, space) && s == TrimRight(s, space) + b
    ensures TrimRight(s, space) != "" ==> !space(TrimRight(s, space)[|TrimRight(s, space)| - 1])
  {
    b := "";
    if s != "" && space(s[|s| - 1]) {
      b := TrimRightCuts(s[..|s| - 1], space);
      b := b + [s[|s| - 1]];
    }
  }

  /** Trimming recovers trimmed text from any spaces around it. */
  lemma {:induction false} TrimFinds(a: string, s: string, b: string, space: char -> bool)
    requires AllSpace(a, space) && AllSpace(b, space) && Trimmed(s, space)
    ensures Trim(a + s + b, space) == s
  {
    if s == "" {
      TrimLeftDrops(a + b, "", space);
      assert a + s + b == a + b + "";
    } else {
      TrimLeftDrops(a, s + b, space);
      assert a + s + b == a + (s + b);
      TrimRightDrops(s, b, space);
    }
  }

  lemma {:induction false} TrimLeftDrops(a: string, rest: string, space: char -> bool)
    requires AllSpace(a, space) && (rest == "" || !space(rest[0]))
    ensures TrimLeft(a + rest, space) == rest
  {
    if a == "" {
      assert a + rest == rest;
    } else {
      TrimLeftDrops(a[1..], rest, space);
      assert (a + rest)[1..] == a[1..] + rest;
    }
  }

  lemma {:induction false} TrimRightDrops(rest: string, b: string, space: char -> bool)
    requires AllSpace(b, space) && (rest == "" || !space(rest[|rest| - 1]))
    ensures TrimRight(rest + b, space) == rest
  {
    if b == "" {
      assert rest + b == rest;
    } else {
      TrimRightDrops(rest, b[..|b| - 1], space);
      assert (rest + b)[..|rest + b| - 1] == rest + b[..|b| - 1];
    }
  }

  /** What counts as space: Go's TrimSpace and Python's strip, on ASCII. */
  lemma {:induction false} SpaceCodes(c: char)
    requires c as int < 128
    ensures GoSpace(c) <==> c as int in {9, 10, 11, 12, 13, 32}
    ensures PySpace(c) <==> c as int in {9, 10, 11, 12, 13, 28, 29, 30, 31, 32}
  {
  }

  lemma TrimOfTrimmed(s: string, space: char -> bool)
    requires Trimmed(s, space)
    ensures Trim(s, space) == s
  {
  }

  // ---------------------------------------------------------------------------
  // Splitting at commas
  // ---------------------------------------------------------------------------

  /**
   How a splitter treats brackets. Plain ignores them (strings.Split, str.split);
   Signed counts them up and down without a floor (the two Go node-list splitters);
   Clamped never goes below zero (the Python hostlist splitter).
   */
  datatype Brackets = Plain | Signed | Clamped

  /** A splitter's position: bracket depth, the segments closed so far, the open one. */
  datatype Scan = Scan(depth: int, done: seq<string>, current: string)

  /** Reading one character. */
  function Step(sc: Scan, c: char, m: Brackets): Scan {
    if c == ',' && sc.depth == 0 then Scan(0, sc.done + [sc.current], "")
    else Scan(NextDepth(sc.depth, c, m), sc.done, sc.current + [c])
  }

  function NextDepth(depth: int, c: char, m: Brackets): int {
    if m == Plain then 0
    else if c == '[' then depth + 1
    else if c == ']' && !(m == Clamped && depth <= 0) then depth - 1
    else depth
  }

  function ScanOf(s: string, m: Brackets): Scan {
    if s == "" then Scan(0, [], "") else Step(ScanOf(s[..|s| - 1], m), s[|s| - 1], m)
  }

  /** The segments of s between its depth-zero commas, untrimmed, empty ones included. */
  function Pieces(s: string, m: Brackets): (ps: seq<string>)
    ensures |ps| >= 1
  {
    ScanOf(s, m).done + [ScanOf(s, m).current]
  }

  function Join(ps: seq<string>): string {
    if |ps| == 0 then ""
    else if |ps| == 1 then ps[0]
    else Join(ps[..|ps| - 1]) + "," + ps[|ps| - 1]
  }

  /** Opening less closing brackets. */
  function Balance(s: string): int {
    if s == "" then 0
    else Balance(s[..|s| - 1]) + if s[|s| - 1] == '[' then 1 else if s[|s| - 1] == ']' then -1 else 0
  }

  /** The signed depth is the balance of what was read; plain splitting sees no depth. */
  lemma {:induction false} SignedDepth(s: string)
    ensures ScanOf(s, Signed).depth == Balance(s) && ScanOf(s, Plain).depth == 0
  {
    if s != "" {
      SignedDepth(s[..|s| - 1]);
    }
  }

  /** The largest balance of any end of the text. */
  ghost predicate LargestEnd(s: string, depth: int) {
    && (forall k :: 0 <= k <= |s| ==> Balance(s) - Balance(s[..k]) <= depth)
    && exists k :: 0 <= k <= |s| && Balance(s) - Balance(s[..k]) == depth
  }

  lemma {:induction false} LargestEndSnoc(front: string, c: char, depth: int, next: int)
    requires LargestEnd(front, depth) && next == NextDepth(depth, c, Clamped)
    ensures LargestEnd(front + [c], next)
  {
    var s, n := front + [c], |front|;
    assert s[..n] == front && s[..n + 1] == s && front[..n] == front;
    assert Balance(front) - Balance(front[..n]) <= depth;
    forall k | 0 <= k <= n + 1
      ensures Balance(s) - Balance(s[..k]) <= next
    {
      if k <= n {
        assert s[..k] == front[..k];
        assert Balance(front) - Balance(front[..k]) <= depth;
      }
    }
    var k :| 0 <= k <= n && Balance(front) - Balance(front[..k]) == depth;
    assert s[..k] == front[..k];
    var at := if c == ']' && depth == 0 then n + 1 else k;
    assert Balance(s) - Balance(s[..at]) == next;
  }

  /** The clamped depth: a closing bracket that closes nothing counts nothing. */
  lemma {:induction false} ClampedDepth(s: string)
    ensures LargestEnd(s, ScanOf(s, Clamped).depth)
  {
    if s == "" {
      assert s[..0] == s;
    } else {
      var front, c := s[..|s| - 1], s[|s| - 1];
      ClampedDepth(front);
      assert front + [c] == s;
      LargestEndSnoc(front, c, ScanOf(front, Clamped).depth, ScanOf(s, Clamped).depth);
    }
  }

  /** A string that a splitter leaves in one piece and that closes its own brackets. */
  predicate Closed(s: string, m: Brackets) {
    ScanOf(s, m) == Scan(0, [], s)
  }

  lemma {:induction false} ScanSnoc(s: string, c: char, m: Brackets)
    ensures ScanOf(s + [c], m) == Step(ScanOf(s, m), c, m)
  {
    assert (s + [c])[..|s|] == s;
  }

  /** A depth-zero comma separates: both sides are scanned independently. */
  lemma {:induction false} ScanAroundComma(a: string, b: string, m: Brackets)
    requires ScanOf(a, m).depth == 0
    ensures ScanOf(a + "," + b, m) ==
            Scan(ScanOf(b, m).depth, Pieces(a, m) + ScanOf(b, m).done, ScanOf(b, m).current)
  {
    if b == "" {
      ScanSnoc(a, ',', m);
      assert a + "," + b == a + [','];
    } else {
      var b', c := b[..|b| - 1], b[|b| - 1];
      ScanAroundComma(a, b', m);
      ScanSnoc(a + "," + b', c, m);
      assert a + "," + b == a + "," + b' + [c];
    }
  }

  lemma {:induction false} JoinSnoc(ps: seq<string>, p: string)
    requires |ps| >= 1
    ensures Join(ps + [p]) == Join(ps) + "," + p
  {
    assert (ps + [p])[..|ps|] == ps;
  }

  lemma {:induction false} JoinGrown(ps: seq<string>, last: string, c: char)
    ensures Join(ps + [last + [c]]) == Join(ps + [last]) + [c]
  {
    if |ps| >= 1 {
      JoinSnoc(ps, last);
      JoinSnoc(ps, last + [c]);
    }
  }

  /** Splitting loses nothing: joining the pieces gives the text back. */
  lemma {:induction false} JoinOfPieces(s: string, m: Brackets)
    ensures Join(Pieces(s, m)) == s
  {
    if s != "" {
      var init, c := s[..|s| - 1], s[|s| - 1];
      var sc := ScanOf(init, m);
      JoinOfPieces(init, m);
      JoinSnoc(Pieces(init, m), "");
      JoinGrown(sc.done, sc.current, c);
      assert init + [c] == s;
      assert c == ',' ==> init + "," + "" == s;
    }
  }

  /** Joining closed strings and splitting again gives the same strings. */
  lemma {:induction false} PiecesOfJoin(ps: seq<string>, m: Brackets)
    requires |ps| >= 1
    requires forall i :: 0 <= i < |ps| ==> Closed(ps[i], m)
    ensures Pieces(Join(ps), m) == ps && ScanOf(Join(ps), m).depth == 0
  {
    var front, last := ps[..|ps| - 1], ps[|ps| - 1];
    assert front + [last] == ps && Closed(last, m);
    if |ps| > 1 {
      PiecesOfJoin(front, m);
      ScanAroundComma(Join(front), last, m);
    }
  }

  /** A string without commas and brackets is closed for every splitter. */
  lemma {:induction false} PlainTextIsClosed(s: string, m: Brackets)
    requires ',' !in s
    requires m == Plain || ('[' !in s && ']' !in s)
    ensures Closed(s, m)
  {
    if s != "" {
      PlainTextIsClosed(s[..|s| - 1], m);
      assert s[..|s| - 1] + [s[|s| - 1]] == s;
    }
  }

  /** Inside brackets, text without brackets is taken over whole, commas included. */
  lemma {:induction false} ScanInside(a: string, body: string, m: Brackets)
    requires m != Plain && ScanOf(a, m).depth > 0 && '[' !in body && ']' !in body
    ensures ScanOf(a + body, m) == ScanOf(a, m).(current := ScanOf(a, m).current + body)
  {
    if body == "" {
      assert a + body == a;
    } else {
      var b', c := body[..|body| - 1], body[|body| - 1];
      ScanInside(a, b', m);
      ScanSnoc(a + b', c, m);
      assert a + body == a + b' + [c];
      assert ScanOf(a, m).current + b' + [c] == ScanOf(a, m).current + body;
    }
  }

  /** Plain text, a bracket group, nothing after it: closed for both bracket-aware splitters. */
  lemma {:induction false} GroupIsClosed(prefix: string, body: string, m: Brackets)
    requires m != Plain && ',' !in prefix && '[' !in prefix && ']' !in prefix && '[' !in body && ']' !in body
    ensures Closed(prefix + "[" + body + "]", m)
  {
    PlainTextIsClosed(prefix, m);
    ScanSnoc(prefix, '[', m);
    assert prefix + "[" == prefix + ['['];
    ScanInside(prefix + "[", body, m);
    ScanSnoc(prefix + "[" + body, ']', m);
  }

  /** The trimmed, non-empty members of a list of pieces. */
  function Kept(ps: seq<string>, space: char -> bool): seq<string> {
    if ps == [] then []
    else
      var rest := Kept(ps[..|ps| - 1], space);
      var t := Trim(ps[|ps| - 1], space);
      if t == "" then rest else rest + [t]
  }

  lemma {:induction false} KeptSnoc(ps: seq<string>, p: string, space: char -> bool)
    ensures Kept(ps + [p], space) == if Trim(p, space) == "" then Kept(ps, space)
      else Kept(ps, space) + [Trim(p, space)]
  {
    assert (ps + [p])[..|ps|] == ps;
  }

  lemma {:induction false} KeptOfTrimmed(ps: seq<string>, space: char -> bool)
    requires forall i :: 0 <= i < |ps| ==> ps[i] != "" && Trimmed(ps[i], space)
    ensures Kept(ps, space) == ps
  {
    if ps != [] {
      KeptOfTrimmed(ps[..|ps| - 1], space);
      TrimOfTrimmed(ps[|ps| - 1], space);
      assert ps[..|ps| - 1] + [ps[|ps| - 1]] == ps;
    }
  }
}
