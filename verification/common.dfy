/** Vocabulary shared by the scanners: optional values, JSON values as
    json.loads produces them, result records, the reply of the generative
    model service, and the string and number primitives of Python that the
    scripts rely on (str.startswith, str.endswith, str.count, str.rfind,
    min, max, int() and round()). */
module Common {

  datatype Option<T> = None | Some(value: T)

  /** A JSON value. Numbers (ints and floats alike) are exact reals. */
  datatype Json =
    | JNull
    | JBool(b: bool)
    | JNum(n: real)
    | JStr(s: string)
    | JArr(items: seq<Json>)
    | JObj(fields: map<string, Json>)

  /** One result record: a JSON object with string keys. Key order is not modelled. */
  type Record = map<string, Json>

  /** What the model service returns on success: the reply text already parsed
      as a JSON object, and the token usage. */
  datatype ModelReply = ModelReply(parsed: map<string, Json>, inputTokens: int, outputTokens: int)

  /** The two outcomes of one `converse` call: a reply, or the exception text. */
  datatype CallOutcome = Replied(reply: ModelReply) | CallFailed(reason: string)

  predicate StartsWith(s: string, prefix: string)
  {
    |prefix| <= |s| && s[..|prefix|] == prefix
  }

  predicate EndsWith(s: string, suffix: string)
  {
    |suffix| <= |s| && s[|s| - |suffix|..] == suffix
  }

  /** Appending in two steps is appending the two parts at once. */
  lemma AppendAssoc<T>(a: seq<T>, b: seq<T>, c: seq<T>)
    ensures (a + b) + c == a + (b + c)
  {
  }

  /** s.rfind(c): the index of the last occurrence of c in s, or -1. */
  function LastIndexOf(s: string, c: char): (r: int)
    ensures -1 <= r < |s|
    ensures r >= 0 ==> s[r] == c
    ensures forall j :: r < j < |s| ==> s[j] != c
  {
    if |s| == 0 then -1
    else if s[|s| - 1] == c then |s| - 1
    else LastIndexOf(s[..|s| - 1], c)
  }

  /** Appending text that does not hold c leaves the last c where it was;
      appending text that does moves it into the appended part. */
  lemma LastIndexOfAppend(s: string, t: string, c: char)
    ensures c !in t ==> LastIndexOf(s + t, c) == LastIndexOf(s, c)
    ensures c in t ==> LastIndexOf(s + t, c) == |s| + LastIndexOf(t, c)
  {
    if c in t {
      var q := LastIndexOf(t, c);
      assert (s + t)[|s| + q] == c;
    } else {
      var q := LastIndexOf(s, c);
      assert forall j :: 0 <= j < |s| ==> (s + t)[j] == s[j];
      assert forall j :: |s| <= j < |s + t| ==> (s + t)[j] == t[j - |s|];
      if q >= 0 {
        assert (s + t)[q] == c;
      }
    }
  }

  /** s.count(c) for a single character c. */
  function Count(s: string, c: char): (n: nat)
    ensures n <= |s|
    ensures n == 0 <==> c !in s
  {
    if |s| == 0 then 0
    else
      assert s == [s[0]] + s[1..];
      (if s[0] == c then 1 else 0) + Count(s[1..], c)
  }

  /** Python's min(a, b): the first argument unless the second is smaller. */
  function Min(a: int, b: int): (m: int)
    ensures m <= a && m <= b && (m == a || m == b)
  {
    if b < a then b else a
  }

  /** Python's max(a, b): the first argument unless the second is larger. */
  function Max(a: int, b: int): (m: int)
    ensures m >= a && m >= b && (m == a || m == b)
  {
    if b > a then b else a
  }

  /** int(x) on a float: rounds toward zero. */
  function Trunc(x: real): (r: int)
    ensures x >= 0.0 ==> 0 <= r && r as real <= x < r as real + 1.0
    ensures x < 0.0 ==> r <= 0 && r as real - 1.0 < x <= r as real
  {
    if x >= 0.0 then x.Floor else -((-x).Floor)
  }

  /** A count scaled by a rate within [0, 1] stays within [0, count]. */
  lemma ScaledAtMost(n: nat, rate: real)
    requires 0.0 <= rate <= 1.0
    ensures 0.0 <= n as real * rate <= n as real
  {
    assert n as real * rate <= n as real * 1.0;
  }

  /** round(x) on a float: the nearest integer, ties to the even one. */
  function RoundHalfEven(x: real): (r: int)
    ensures r as real - x <= 0.5 && x - r as real <= 0.5
    ensures (r as real - x == 0.5 || x - r as real == 0.5) ==> r % 2 == 0
  {
    var f := x.Floor;
    var frac := x - f as real;
    if frac < 0.5 then f
    else if frac > 0.5 then f + 1
    else if f % 2 == 0 then f
    else f + 1
  }

  /** min(max(1, int(n * sample_rate)), limit): the S3 scanner's sample size
      for a folder of n objects. */
  function ClampedSize(n: nat, rate: real, limit: int): (k: int)
    ensures k <= limit
    ensures limit >= 1 ==> k >= 1
  {
    Min(Max(1, Trunc(n as real * rate)), limit)
  }

  lemma TruncatedAtMost(x: real, n: nat, limit: int)
    requires 0.0 <= x <= n as real && n >= 1
    ensures Min(Max(1, Trunc(x)), limit) <= n
  {
  }

  lemma TruncatedAtMostScaled(x: real, limit: int)
    requires limit >= 1 && x >= 1.0
    ensures Min(Max(1, Trunc(x)), limit) as real <= x
  {
  }

  /** For a rate within [0, 1] the sample size never exceeds the count. */
  lemma ClampedSizeAtMostCount(n: nat, rate: real, limit: int)
    requires 0.0 <= rate <= 1.0 && n >= 1
    ensures ClampedSize(n, rate, limit) <= n
  {
    ScaledAtMost(n, rate);
    TruncatedAtMost(n as real * rate, n, limit);
  }

  /** Once the scaled count reaches 1 the sample size never exceeds it: the
      limit and the floor of 1 are the only adjustments int() needs. */
  lemma ClampedSizeAtMostScaled(n: nat, rate: real, limit: int)
    requires limit >= 1 && n as real * rate >= 1.0
    ensures ClampedSize(n, rate, limit) as real <= n as real * rate
  {
    TruncatedAtMostScaled(n as real * rate, limit);
  }
}
