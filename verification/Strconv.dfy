/** Go's strconv.ParseInt in base 10, and a result type for parsers. */
module Strconv {
  import opened Decimal

  datatype Option<+T> = None | Some(value: T)

  const INT32_LIMIT := 0x8000_0000
  const INT64_LIMIT := 0x8000_0000_0000_0000

  /** An optional sign and digits, with a value in [-limit, limit); None stands for the error. */
  function ParseInt(s: string, limit: int): (r: Option<int>)
    requires limit > 0
    ensures IsNumeral(s) ==> r == if Value(s) < limit then Some(Value(s)) else None
    ensures r.Some? ==> -limit <= r.value < limit
    ensures r.Some? && '-' !in s ==> r.value >= 0
  {
    var negative := s != "" && s[0] == '-';
    var signed := negative || (s != "" && s[0] == '+');
    var body := if signed then s[1..] else s;
    assert IsNumeral(s) ==> IsDigit(s[0]);
    if !IsNumeral(body) then None
    else
      var v: int := Value(body);
      var n := if negative then -v else v;
      if -limit <= n < limit then Some(n) else None
  }

  /** A sign in front of a numeral is read; the lower end of the range is one further out. */
  lemma {:induction false} SignsParse(s: string, limit: int)
    requires limit > 0 && IsNumeral(s)
    ensures ParseInt("+" + s, limit) == if Value(s) < limit then Some(Value(s)) else None
    ensures
      var v: int := Value(s);
      ParseInt("-" + s, limit) == if v <= limit then Some(-v) else None
  {
    assert ("+" + s)[1..] == s && ("-" + s)[1..] == s;
  }

  /** Nothing else is. */
  lemma {:induction false} OnlyNumeralsParse(s: string, limit: int)
    requires limit > 0 && ParseInt(s, limit).Some?
    ensures IsNumeral(s) || (s != "" && (s[0] == '+' || s[0] == '-') && IsNumeral(s[1..]))
  {
  }
}
