/**
 * The query compiler (src/services/query/query.js): turns the query-string
 * parameters of a request into `{filter, sort, limit}`.
 *
 * Parameter values are strings; an absent parameter is `None` (JavaScript's
 * `undefined`). `limit` follows `parseInt(limitParam) || 0`, so the integer
 * parsing of JavaScript's `parseInt` is modelled here as well.
 */
module Query {
  import opened Wrappers

  /** The reserved parameter names. */
  const SORT_BY := "$sortBy"
  const ORDER := "$order"
  const LIMIT := "$limit"

  datatype QuerySpec = QuerySpec(filter: map<string, string>, sort: map<string, int>, limit: int)

  /** `queryParams[key]`: the value, or `undefined` when the key is absent. */
  function Param(params: map<string, string>, key: string): Option<string> {
    if key in params then Some(params[key]) else None
  }

  /** `isBuiltInQueryParam`: one of the three reserved names. */
  predicate IsBuiltInQueryParam(key: string) {
    key in [SORT_BY, ORDER, LIMIT]
  }

  /** The reserved names all start with `$`: a field name that does not is never taken for one. */
  lemma OrdinaryFieldIsNotReserved(key: string)
    requires key == [] || key[0] != '$'
    ensures !IsBuiltInQueryParam(key)
  {
  }

  /** Exactly three distinct names are reserved. */
  lemma ReservedNames()
    ensures IsBuiltInQueryParam(SORT_BY) && IsBuiltInQueryParam(ORDER) && IsBuiltInQueryParam(LIMIT)
    ensures |{SORT_BY, ORDER, LIMIT}| == 3
  {
  }

  /**
   * `buildFilter`: a for-in loop over the parameters that copies every
   * non-reserved key with its value into a new object.
   */
  method BuildFilter(params: map<string, string>) returns (filter: map<string, string>)
    ensures forall key :: key in filter <==> key in params && !IsBuiltInQueryParam(key)
    ensures forall key :: key in filter ==> filter[key] == params[key]
  {
    filter := map[];
    var pending := params.Keys;
    while pending != {}
      invariant pending <= params.Keys
      invariant forall key :: key in filter <==> key in params && key !in pending && !IsBuiltInQueryParam(key)
      invariant forall key :: key in filter ==> filter[key] == params[key]
      decreases pending
    {
      var key :| key in pending;
      if !IsBuiltInQueryParam(key) {
        filter := filter[key := params[key]];
      }
      pending := pending - {key};
    }
  }

  /** `buildQueryOrderValue`: ascending (1) only for the exact value `asc`, descending (-1) otherwise. */
  function BuildQueryOrderValue(order: Option<string>): (v: int)
    ensures v == 1 || v == -1
    ensures v == 1 <==> order == Some("asc")
  {
    if order == Some("asc") then 1 else -1
  }

  /**
   * `buildQuerySort`: no sorting when `$sortBy` is absent or empty (both are
   * falsy), otherwise a single key, the `$sortBy` value, with the order value.
   */
  function BuildQuerySort(sortBy: Option<string>, order: Option<string>): (sort: map<string, int>)
    ensures sort == map[] <==> sortBy.None? || sortBy.value == ""
    ensures sortBy.Some? && sortBy.value != "" ==>
      sort.Keys == {sortBy.value} && sort[sortBy.value] == BuildQueryOrderValue(order)
  {
    if sortBy.Some? && sortBy.value != "" then
      var single := map[sortBy.value := BuildQueryOrderValue(order)];
      assert sortBy.value in single;
      single
    else map[]
  }

  /** The characters `parseInt` skips before the number: white space and line terminators. */
  predicate IsJsWhitespace(c: char) {
    c == '\t' || c == '\n' || c == '\U{B}' || c == '\U{C}' || c == '\r' || c == ' ' ||
    c == '\U{A0}' || c == '\U{1680}' || ('\U{2000}' <= c <= '\U{200A}') ||
    c == '\U{2028}' || c == '\U{2029}' || c == '\U{202F}' || c == '\U{205F}' ||
    c == '\U{3000}' || c == '\U{FEFF}'
  }

  /** `s` without its leading white space. */
  function TrimStart(s: string): (t: string)
    ensures |t| <= |s| && t == s[|s| - |t|..]
    ensures forall i :: 0 <= i < |s| - |t| ==> IsJsWhitespace(s[i])
    ensures t == [] || !IsJsWhitespace(t[0])
    decreases |s|
  {
    if s != [] && IsJsWhitespace(s[0]) then TrimStart(s[1..]) else s
  }

  /** The value of a digit character in radix 36 (`0`-`9`, then `a`-`z` or `A`-`Z`); 36 for any other character. */
  function DigitValue(c: char): (d: nat)
    ensures d <= 36
  {
    if '0' <= c <= '9' then c as int - '0' as int
    else if 'a' <= c <= 'z' then c as int - 'a' as int + 10
    else if 'A' <= c <= 'Z' then c as int - 'A' as int + 10
    else 36
  }

  predicate IsDigit(c: char, radix: nat) { DigitValue(c) < radix }

  /** The length of the longest prefix of `s` made of digits of `radix`. */
  function DigitRun(s: string, radix: nat): (n: nat)
    ensures n <= |s|
    ensures forall i :: 0 <= i < n ==> IsDigit(s[i], radix)
    ensures n < |s| ==> !IsDigit(s[n], radix)
    decreases |s|
  {
    if s == [] || !IsDigit(s[0], radix) then 0 else 1 + DigitRun(s[1..], radix)
  }

  /** The number the digits `s` denote in `radix`, most significant first. */
  function DigitsValue(s: string, radix: nat): nat
    decreases |s|
  {
    if s == [] then 0 else DigitsValue(s[..|s| - 1], radix) * radix + DigitValue(s[|s| - 1])
  }

  /** The longest run of digits of `radix` at the start of `body`, read as a number; `None` when there is none. */
  function ParseDigits(body: string, radix: nat): Option<nat> {
    var n := DigitRun(body, radix);
    if n == 0 then None else Some(DigitsValue(body[..n], radix))
  }

  /** An unsigned number: hexadecimal after a `0x` or `0X` prefix, decimal otherwise. */
  function ParseMagnitude(u: string): Option<nat> {
    if |u| >= 2 && u[0] == '0' && (u[1] == 'x' || u[1] == 'X') then ParseDigits(u[2..], 16)
    else ParseDigits(u, 10)
  }

  /**
   * `parseInt(s)` with no radix: skip leading white space, read an optional
   * sign, then the magnitude; `None` stands for NaN.
   */
  function ParseInt(s: string): (r: Option<int>) {
    ParseSigned(TrimStart(s))
  }

  /** `parseInt` after the white-space skip: an optional sign, then the magnitude. */
  function ParseSigned(t: string): (r: Option<int>) {
    if t != [] && t[0] == '-' then
      match ParseMagnitude(t[1..])
      case None => None
      case Some(m) => Some(-(m as int))
    else if t != [] && t[0] == '+' then ParseMagnitude(t[1..])
    else ParseMagnitude(t)
  }

  /** `buildQueryLimit`: `parseInt(limitParam) || 0`; NaN (and an absent parameter) gives 0. */
  function BuildQueryLimit(limit: Option<string>): (n: int)
    ensures n != 0 ==> limit.Some? && ParseInt(limit.value) == Some(n)
    ensures limit.None? ==> n == 0
    ensures limit.Some? && ParseInt(limit.value).Some? ==> n == ParseInt(limit.value).value
  {
    var parsed := if limit.Some? then ParseInt(limit.value) else None;
    if parsed.Some? && parsed.value != 0 then parsed.value else 0
  }

  /** `build`: the three parts computed from the one input, which stays as it was. */
  method Build(params: map<string, string>) returns (q: QuerySpec)
    ensures forall key :: key in q.filter <==> key in params && !IsBuiltInQueryParam(key)
    ensures forall key :: key in q.filter ==> q.filter[key] == params[key]
    ensures q.sort == BuildQuerySort(Param(params, SORT_BY), Param(params, ORDER))
    ensures q.limit == BuildQueryLimit(Param(params, LIMIT))
  {
    var filter := BuildFilter(params);
    q := QuerySpec(filter, BuildQuerySort(Param(params, SORT_BY), Param(params, ORDER)), BuildQueryLimit(Param(params, LIMIT)));
  }

  /** The canonical decimal spelling of `n`. */
  function DecimalString(n: nat): (s: string)
    ensures s != [] && forall i :: 0 <= i < |s| ==> '0' <= s[i] <= '9'
    ensures |s| > 1 ==> s[0] != '0'
    decreases n
  {
    var last := ['0' + (n % 10) as char];
    if n < 10 then last else DecimalString(n / 10) + last
  }

  /** A string that does not start with white space is not trimmed. */
  lemma NothingToTrim(s: string)
    requires s != [] && !IsJsWhitespace(s[0])
    ensures TrimStart(s) == s
  {
  }

  /** A run of digits is read whole. */
  lemma {:induction false} DigitRunOfDigits(s: string, radix: nat)
    requires forall i :: 0 <= i < |s| ==> IsDigit(s[i], radix)
    ensures DigitRun(s, radix) == |s|
    decreases |s|
  {
    if s != [] {
      DigitRunOfDigits(s[1..], radix);
    }
  }

  /** The decimal digits of `n` denote `n`. */
  lemma {:induction false} DecimalStringValue(n: nat)
    ensures DigitsValue(DecimalString(n), 10) == n
    decreases n
  {
    var s := DecimalString(n);
    if n >= 10 {
      DecimalStringValue(n / 10);
      assert s[..|s| - 1] == DecimalString(n / 10);
    }
  }

  /** A run of decimal digits without a `0x` prefix is read as a decimal number. */
  lemma ParseDecimalDigits(s: string)
    requires s != [] && forall i :: 0 <= i < |s| ==> '0' <= s[i] <= '9'
    ensures ParseMagnitude(s) == Some(DigitsValue(s, 10))
    ensures ParseInt(s) == Some(DigitsValue(s, 10))
  {
    assert !IsJsWhitespace(s[0]) && s[0] != '-' && s[0] != '+';
    if |s| >= 2 {
      assert !(s[1] == 'x' || s[1] == 'X');
    }
    NothingToTrim(s);
    assert forall i :: 0 <= i < |s| ==> IsDigit(s[i], 10);
    DigitRunOfDigits(s, 10);
    assert s[..|s|] == s;
    assert ParseMagnitude(s) == ParseDigits(s, 10);
  }

  /** `parseInt` reads back the decimal spelling of every natural number. */
  lemma ParseDecimalString(n: nat)
    ensures ParseInt(DecimalString(n)) == Some(n)
  {
    ParseDecimalDigits(DecimalString(n));
    DecimalStringValue(n);
  }

  /** A limit given as a decimal number is that number (0 stays 0). */
  lemma LimitOfDecimal(n: nat)
    ensures BuildQueryLimit(Some(DecimalString(n))) == n
  {
    ParseDecimalString(n);
  }

  /** A leading `-` negates whatever magnitude follows it. */
  lemma ParseNegated(u: string)
    ensures ParseInt("-" + u) == match ParseMagnitude(u) case None => None case Some(m) => Some(-(m as int))
  {
    var s := "-" + u;
    NothingToTrim(s);
    assert s[1..] == u;
  }

  /** `parseInt` accepts a leading `+` and reads the rest as an unsigned magnitude. */
  lemma ParsePlus(u: string)
    ensures ParseInt("+" + u) == ParseMagnitude(u)
  {
    var s := "+" + u;
    NothingToTrim(s);
    assert s[1..] == u;
  }

  /** Leading white space is skipped: `parseInt` reads a string the same with or without it. */
  lemma ParseSkipsWhitespace(c: char, s: string)
    requires IsJsWhitespace(c)
    ensures ParseInt([c] + s) == ParseInt(s)
  {
    assert ([c] + s)[1..] == s;
    assert TrimStart([c] + s) == TrimStart(s);
  }

  /** A negative decimal limit is read with its sign: `parseInt` gives a negative number and `|| 0` keeps it. */
  lemma NegativeLimit(n: nat)
    requires n > 0
    ensures BuildQueryLimit(Some("-" + DecimalString(n))) == -(n as int)
  {
    var d := DecimalString(n);
    ParseDecimalDigits(d);
    DecimalStringValue(n);
    ParseNegated(d);
  }

  /** A `0x` prefix switches `parseInt` to hexadecimal: the limit is the hexadecimal digit run after it, or 0. */
  lemma HexLimit(u: string)
    ensures BuildQueryLimit(Some("0x" + u)) ==
      match ParseDigits(u, 16) case Some(m) => m case None => 0
  {
    var s := "0x" + u;
    assert s[0] == '0' && s[1] == 'x';
    NothingToTrim(s);
    assert s[2..] == u;
  }

  /** A limit that starts with neither a decimal digit, a sign nor white space (a letter, say) is 0. */
  lemma LimitWithoutDigits(s: string)
    requires s != [] && !IsDigit(s[0], 10) && !IsJsWhitespace(s[0]) && s[0] != '-' && s[0] != '+'
    ensures BuildQueryLimit(Some(s)) == 0
  {
    NothingToTrim(s);
  }

  /** The limit examples of the query tests: `$limit` 10 gives 10, no `$limit` gives 0. */
  lemma SampleLimits()
    ensures BuildQueryLimit(Some("10")) == 10 && BuildQueryLimit(None) == 0
  {
    assert DecimalString(1) == "1";
    assert DecimalString(10) == "10";
    LimitOfDecimal(10);
  }

  /** The sort examples of the query tests: descending by default and for `desc`, ascending for `asc`, none without `$sortBy`. */
  lemma SampleSorts()
    ensures BuildQuerySort(Some("createdAt"), Some("desc")) == map["createdAt" := -1]
    ensures BuildQuerySort(Some("createdAt"), Some("asc")) == map["createdAt" := 1]
    ensures BuildQuerySort(Some("createdAt"), None) == map["createdAt" := -1]
    ensures BuildQuerySort(None, None) == map[]
  {
  }

  /** The filter example of the query tests: the three reserved parameters are dropped, `username` is kept. */
  method SampleFilter() returns (filter: map<string, string>)
    ensures filter == map["username" := "rafaelcamargo"]
  {
    var params := map["username" := "rafaelcamargo", SORT_BY := "createdAt", ORDER := "desc", LIMIT := "10"];
    filter := BuildFilter(params);
    assert "username" in filter;
  }
}
