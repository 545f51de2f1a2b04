/**
 * Vocabulary shared by the three DefectDojo uploaders: optional values
 * (a key that may be missing from a ZAP record), DefectDojo severities and
 * confidence levels, and the few pieces of Python string behaviour the
 * uploaders rely on (`str.isdigit`, `int(str)`, `str.startswith`,
 * `str.lower`, `os.path.basename`).
 */
module Common {

  /** A value that may be absent, as a key that `dict.get` may not find. */
  datatype Option<+T> = None | Some(value: T) {
    /** `d.get(key, default)`: the value when present, the default otherwise. */
    function GetOr(default: T): T {
      match this
      case Some(v) => v
      case None => default
    }
  }

  /** Python truthiness of an optional string: present and non-empty. */
  predicate Truthy(o: Option<string>) {
    o.Some? && o.value != ""
  }

  /** Python truthiness of an id returned by a lookup: None and 0 are both false. */
  predicate TruthyId(o: Option<int>) {
    o.Some? && o.value != 0
  }

  /** DefectDojo's five severity labels. */
  datatype Severity = Critical | High | Medium | Low | Info

  const AllSeverities: set<Severity> := {Critical, High, Medium, Low, Info}

  /** Every severity is one of the five. */
  lemma SeverityListed(s: Severity)
    ensures s in AllSeverities
  {
    match s
    case Critical =>
    case High =>
    case Medium =>
    case Low =>
    case Info =>
  }

  /** The order of DefectDojo severities, Info lowest. */
  function SeverityRank(s: Severity): nat {
    match s
    case Info => 0
    case Low => 1
    case Medium => 2
    case High => 3
    case Critical => 4
  }

  /** The order of ZAP's four risk names; any other string has no rank. */
  function ZapRiskRank(risk: string): Option<nat> {
    if risk == "Informational" then Some(0)
    else if risk == "Low" then Some(1)
    else if risk == "Medium" then Some(2)
    else if risk == "High" then Some(3)
    else None
  }

  /** Scanner confidence as the uploaders report it. */
  datatype Confidence = ConfidenceHigh | ConfidenceMedium | ConfidenceLow

  // ---------------------------------------------------------------------
  // Digits and Python's int()
  // ---------------------------------------------------------------------

  predicate IsDigit(c: char) {
    '0' <= c <= '9'
  }

  /** `str.isdigit()` restricted to ASCII: non-empty and every character a digit. */
  predicate IsDigits(s: string) {
    |s| > 0 && forall i :: 0 <= i < |s| ==> IsDigit(s[i])
  }

  /** The number a run of decimal digits denotes (most significant first). */
  function DigitsValue(s: string): nat
    requires forall i :: 0 <= i < |s| ==> IsDigit(s[i])
  {
    if s == [] then 0
    else
      assert IsDigit(s[|s| - 1]);
      10 * DigitsValue(s[..|s| - 1]) + (s[|s| - 1] as int - '0' as int)
  }

  /** Decimal rendering of a natural number, the partner of DigitsValue. */
  function DecimalString(n: nat): string {
    if n < 10 then [('0' as int + n) as char]
    else DecimalString(n / 10) + [('0' as int + n % 10) as char]
  }

  /** Rendering a number in decimal and reading the digits back gives the number. */
  lemma {:induction false} DecimalRoundTrip(n: nat)
    ensures IsDigits(DecimalString(n))
    ensures DigitsValue(DecimalString(n)) == n
  {
    if n >= 10 {
      DecimalRoundTrip(n / 10);
      var s := DecimalString(n);
      assert s[..|s| - 1] == DecimalString(n / 10);
    }
  }

  /** The whitespace characters `str.strip()` removes (ASCII only). */
  predicate IsSpace(c: char) {
    c == ' ' || c == '\t' || c == '\n' || c == '\r' || c == '\U{B}' || c == '\U{C}'
  }

  /** `str.strip()` on ASCII whitespace. */
  function Strip(s: string): (r: string)
    ensures |r| <= |s|
    ensures r != [] ==> !IsSpace(r[0]) && !IsSpace(r[|r| - 1])
    ensures (forall i :: 0 <= i < |s| ==> !IsSpace(s[i])) ==> r == s
    ensures forall c :: c in r ==> c in s
    decreases |s|
  {
    if s != [] && IsSpace(s[0]) then Strip(s[1..])
    else if s != [] && IsSpace(s[|s| - 1]) then Strip(s[..|s| - 1])
    else s
  }

  /**
   * Python's `int(s)` on a string: surrounding whitespace is ignored, an
   * optional `+` or `-` sign may lead, and the rest must be decimal digits.
   * None stands for the ValueError Python raises otherwise.
   */
  function ParseInt(s: string): (r: Option<int>)
    ensures IsDigits(s) ==> r == Some(DigitsValue(s))
    ensures (forall i :: 0 <= i < |s| ==> !IsDigit(s[i])) ==> r == None
  {
    var t := Strip(s);
    if t != [] && (t[0] == '+' || t[0] == '-') then
      var body := t[1..];
      if IsDigits(body) then
        assert body[0] == t[1] && t[1] in s;
        Some(if t[0] == '-' then -(DigitsValue(body) as int) else DigitsValue(body))
      else None
    else if IsDigits(t) then
      assert t[0] in s;
      Some(DigitsValue(t))
    else None
  }

  /** int() reads back every decimal rendering, with or without a minus sign. */
  lemma ParseIntOfDecimal(n: nat)
    ensures ParseInt(DecimalString(n)) == Some(n)
    ensures ParseInt("-" + DecimalString(n)) == Some(-(n as int))
  {
    DecimalRoundTrip(n);
    var d := DecimalString(n);
    assert Strip(d) == d;
    var m := "-" + d;
    assert forall i :: 0 <= i < |m| ==> !IsSpace(m[i]);
    assert Strip(m) == m;
    assert m[1..] == d;
  }

  /** `str(n)` for any integer. */
  function IntText(n: int): string {
    if n < 0 then "-" + DecimalString(-n) else DecimalString(n)
  }

  /** int() reads back what str() writes. */
  lemma ParseIntOfIntText(n: int)
    ensures ParseInt(IntText(n)) == Some(n)
  {
    if n < 0 {
      ParseIntOfDecimal(-n);
    } else {
      ParseIntOfDecimal(n);
    }
  }

  // ---------------------------------------------------------------------
  // Other string helpers
  // ---------------------------------------------------------------------

  /** `s.startswith(prefix)`. */
  predicate StartsWith(s: string, prefix: string) {
    |prefix| <= |s| && s[..|prefix|] == prefix
  }

  function LowerChar(c: char): char {
    if 'A' <= c <= 'Z' then (c as int - 'A' as int + 'a' as int) as char else c
  }

  /** `str.lower()` restricted to ASCII letters. */
  function LowerAscii(s: string): (r: string)
    ensures |r| == |s|
    ensures forall i :: 0 <= i < |s| ==> r[i] == LowerChar(s[i])
    ensures forall i :: 0 <= i < |r| ==> !('A' <= r[i] <= 'Z')
  {
    if s == [] then [] else [LowerChar(s[0])] + LowerAscii(s[1..])
  }

  /** `s.replace(' ', '-')`. */
  function SpacesToHyphens(s: string): (r: string)
    ensures |r| == |s|
    ensures forall i :: 0 <= i < |s| ==> r[i] == (if s[i] == ' ' then '-' else s[i])
    ensures ' ' !in r
  {
    if s == [] then [] else [if s[0] == ' ' then '-' else s[0]] + SpacesToHyphens(s[1..])
  }

  /** `os.path.basename` on POSIX paths: everything after the last '/'. */
  function Basename(path: string): (r: string)
    ensures '/' !in r
    ensures |r| <= |path| && path[|path| - |r|..] == r
    ensures '/' !in path ==> r == path
    ensures |r| < |path| ==> path[|path| - |r| - 1] == '/'
  {
    if path == [] then []
    else if path[|path| - 1] == '/' then []
    else Basename(path[..|path| - 1]) + [path[|path| - 1]]
  }

  // ---------------------------------------------------------------------
  // Tallies
  // ---------------------------------------------------------------------

  /** How often x occurs in s. */
  function Count<T(==)>(s: seq<T>, x: T): nat {
    if s == [] then 0
    else Count(s[..|s| - 1], x) + (if s[|s| - 1] == x then 1 else 0)
  }

  /** Extending a prefix by one element adds one to that element's count only. */
  lemma CountStep<T>(s: seq<T>, i: nat, x: T)
    requires i < |s|
    ensures Count(s[..i + 1], x) == Count(s[..i], x) + (if s[i] == x then 1 else 0)
  {
    assert s[..i + 1][..i] == s[..i];
  }

  /** A value occurs in a sequence exactly when its count is positive. */
  lemma {:induction false} CountPositive<T>(s: seq<T>, x: T)
    ensures Count(s, x) > 0 <==> x in s
  {
    if s != [] {
      CountPositive(s[..|s| - 1], x);
      assert s == s[..|s| - 1] + [s[|s| - 1]];
    }
  }

  /** `d[k] = d.get(k, 0) + 1`. */
  function Bump<K>(m: map<K, nat>, k: K): map<K, nat> {
    m[k := (if k in m then m[k] else 0) + 1]
  }

  /**
   * m is the tally of s over a dictionary seeded with the keys `seeded`:
   * its keys are the seeded ones and those occurring in s, and each maps to
   * its number of occurrences.
   */
  ghost predicate TallyOf<K(!new)>(m: map<K, nat>, s: seq<K>, seeded: set<K>) {
    && (forall k :: k in m <==> k in seeded || k in s)
    && (forall k :: k in m ==> m[k] == Count(s, k))
  }

  /** Bumping the counter of the next element keeps the tally exact. */
  lemma BumpKeepsTally<K(!new)>(m: map<K, nat>, s: seq<K>, seeded: set<K>, x: K)
    requires TallyOf(m, s, seeded)
    ensures TallyOf(Bump(m, x), s + [x], seeded)
  {
    var s' := s + [x];
    assert s'[..|s'| - 1] == s;
    forall k ensures Count(s', k) == Count(s, k) + (if x == k then 1 else 0) {
    }
    CountPositive(s, x);
  }

  /** The step of a counting loop over s: bumping s[i] extends the tally of s[..i] to s[..i + 1]. */
  lemma TallyStep<K(!new)>(m: map<K, nat>, s: seq<K>, i: nat, seeded: set<K>)
    requires i < |s| && TallyOf(m, s[..i], seeded)
    ensures TallyOf(Bump(m, s[i]), s[..i + 1], seeded)
  {
    assert s[..i + 1] == s[..i] + [s[i]];
    BumpKeepsTally(m, s[..i], seeded, s[i]);
  }

  /** A dictionary of seeded zeros is the tally of the empty list. */
  lemma ZerosAreTally<K(!new)>(m: map<K, nat>, seeded: set<K>)
    requires m.Keys == seeded && forall k :: k in m ==> m[k] == 0
    ensures TallyOf(m, [], seeded)
  {
  }

  /** The five per-severity tallies of any list of severities add up to its length. */
  lemma {:induction false} SeverityCountsSum(s: seq<Severity>)
    ensures Count(s, Critical) + Count(s, High) + Count(s, Medium) + Count(s, Low) + Count(s, Info) == |s|
  {
    if s != [] {
      var prefix := s[..|s| - 1];
      SeverityCountsSum(prefix);
      match s[|s| - 1]
      case Critical =>
      case High =>
      case Medium =>
      case Low =>
      case Info =>
    }
  }

  /**
   * A tally of severities seeded with all five has exactly the five keys,
   * and its five counters add up to the number of severities counted.
   */
  lemma SeverityTallyTotals(m: map<Severity, nat>, s: seq<Severity>)
    requires TallyOf(m, s, AllSeverities)
    ensures m.Keys == AllSeverities
    ensures m[Critical] + m[High] + m[Medium] + m[Low] + m[Info] == |s|
  {
    forall k | k in m ensures k in AllSeverities {
      SeverityListed(k);
    }
    SeverityCountsSum(s);
  }

  /** `[f(x) for x in xs]`: one projected value per element, in order. */
  function MapSeq<A, B>(xs: seq<A>, f: A -> B): (ys: seq<B>)
    ensures |ys| == |xs|
    ensures forall i :: 0 <= i < |xs| ==> ys[i] == f(xs[i])
  {
    seq(|xs|, i requires 0 <= i < |xs| => f(xs[i]))
  }

  // ---------------------------------------------------------------------
  // Filtering conversions
  // ---------------------------------------------------------------------

  /**
   * The results of a conversion that may drop elements, in input order:
   * the shape of every `for x in xs: r = f(x); if r: out.append(r)` loop.
   */
  function FilterMap<A, B>(xs: seq<A>, f: A -> Option<B>): (ys: seq<B>)
    ensures |ys| <= |xs|
  {
    if xs == [] then []
    else
      var last := f(xs[|xs| - 1]);
      FilterMap(xs[..|xs| - 1], f) + (if last.Some? then [last.value] else [])
  }

  /** One more input element adds its conversion, if any, at the end: the loop's step. */
  lemma FilterMapStep<A, B>(xs: seq<A>, i: nat, f: A -> Option<B>)
    requires i < |xs|
    ensures FilterMap(xs[..i + 1], f) == FilterMap(xs[..i], f) + (if f(xs[i]).Some? then [f(xs[i]).value] else [])
  {
    assert xs[..i + 1][..i] == xs[..i];
  }

  /** Converting a concatenation converts each part in turn: the order of the input is kept. */
  lemma {:induction false} FilterMapAppend<A, B>(a: seq<A>, b: seq<A>, f: A -> Option<B>)
    ensures FilterMap(a + b, f) == FilterMap(a, f) + FilterMap(b, f)
    decreases |b|
  {
    if b == [] {
      assert a + b == a;
    } else {
      var b' := b[..|b| - 1];
      FilterMapAppend(a, b', f);
      assert (a + b)[..|a + b| - 1] == a + b';
      assert (a + b)[|a + b| - 1] == b[|b| - 1];
    }
  }

  /** Every output element is the conversion of some input element. */
  lemma {:induction false} FilterMapSound<A, B>(xs: seq<A>, f: A -> Option<B>, y: B)
    requires y in FilterMap(xs, f)
    ensures exists i :: 0 <= i < |xs| && f(xs[i]) == Some(y)
  {
    var init := xs[..|xs| - 1];
    if y in FilterMap(init, f) {
      FilterMapSound(init, f, y);
      var i :| 0 <= i < |init| && f(init[i]) == Some(y);
      assert xs[i] == init[i];
    } else {
      assert f(xs[|xs| - 1]) == Some(y);
    }
  }

  /** When nothing is dropped the output lines up with the input, element by element. */
  lemma {:induction false} FilterMapComplete<A, B>(xs: seq<A>, f: A -> Option<B>)
    requires forall i :: 0 <= i < |xs| ==> f(xs[i]).Some?
    ensures |FilterMap(xs, f)| == |xs|
    ensures forall i :: 0 <= i < |xs| ==> Some(FilterMap(xs, f)[i]) == f(xs[i])
  {
    if xs != [] {
      FilterMapComplete(xs[..|xs| - 1], f);
    }
  }

  /** The output is empty exactly when every element is dropped. */
  lemma {:induction false} FilterMapEmpty<A, B>(xs: seq<A>, f: A -> Option<B>)
    ensures FilterMap(xs, f) == [] <==> forall i :: 0 <= i < |xs| ==> f(xs[i]).None?
  {
    if xs != [] {
      FilterMapEmpty(xs[..|xs| - 1], f);
    }
  }
}
