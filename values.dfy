/**
 * The Python values that flow through keyword-argument dictionaries, their
 * truthiness, the few string operations the modelled code uses, and the
 * shapes of "build a dict / list in a loop that may raise".
 */
module Values {
  import opened Wrappers

  /**
   * A resolved Python value. `NotSet` is the input module's marker for an
   * attribute that was never assigned; like Python's `None` it is falsy.
   * Nested dictionaries may have non-string keys (port numbers, `None`).
   */
  datatype Value =
    | NotSet
    | Null
    | Str(s: string)
    | Int(i: int)
    | Bool(b: bool)
    | List(items: seq<Value>)
    | Tuple(items: seq<Value>)
    | Dict(entries: map<Value, Value>)

  /** Keyword arguments of an engine call: string keys to values. */
  type Kwargs = map<string, Value>

  /** Python truthiness (`bool(v)`). */
  predicate Truthy(v: Value) {
    match v
    case NotSet => false
    case Null => false
    case Str(s) => s != ""
    case Int(i) => i != 0
    case Bool(b) => b
    case List(items) => items != []
    case Tuple(items) => items != []
    case Dict(m) => m != map[]
  }

  /** A list of strings as a list of values, element by element. */
  function StrValues(ss: seq<string>): seq<Value>
  {
    seq(|ss|, i requires 0 <= i < |ss| => Str(ss[i]))
  }

  /** `d.get(k)` on a keyword dictionary, with Python's `None` for a missing key. */
  function Get(d: Kwargs, k: string): (v: Value)
    ensures k !in d ==> v == Null
    ensures k in d ==> v == d[k]
  {
    if k in d then d[k] else Null
  }

  /** A string-keyed dictionary as a `Value` (`dict(**kwargs)`). */
  function KwargsValue(d: Kwargs): (v: Value)
    ensures v.Dict?
    ensures forall k :: k in d ==> Str(k) in v.entries && v.entries[Str(k)] == d[k]
    ensures forall key :: key in v.entries ==> key.Str? && key.s in d
  {
    Dict(map key | key in StrKeys(d) :: d[key.s])
  }

  function StrKeys(d: Kwargs): (ks: set<Value>)
    ensures forall k :: k in d <==> Str(k) in ks
    ensures forall key :: key in ks ==> key.Str?
  {
    set k | k in d :: Str(k)
  }

  // ---------------------------------------------------------------------
  // Strings

  predicate StartsWith(s: string, prefix: string) {
    |prefix| <= |s| && s[..|prefix|] == prefix
  }

  /** Python's `k in s` for two strings: `k` occurs contiguously in `s`. */
  predicate IsSubstring(k: string, s: string)
    decreases |s|
  {
    StartsWith(s, k) || (|s| > 0 && IsSubstring(k, s[1..]))
  }

  lemma {:induction false} SubstringNoLonger(k: string, s: string)
    requires IsSubstring(k, s)
    ensures |k| <= |s|
    decreases |s|
  {
    if !StartsWith(s, k) {
      SubstringNoLonger(k, s[1..]);
    }
  }

  /** The position of the first `c` in `s`. */
  function IndexOf(s: string, c: char): (i: nat)
    requires c in s
    ensures i < |s| && s[i] == c && c !in s[..i]
  {
    if s[0] == c then 0 else 1 + IndexOf(s[1..], c)
  }

  /** Python's `s.partition(sep)` for a one-character separator. */
  function Partition(s: string, sep: char): (r: (string, string, string))
    ensures sep !in s ==> r == (s, "", "")
    ensures sep in s ==> r.1 == [sep] && s == r.0 + [sep] + r.2 && sep !in r.0
  {
    if sep in s then
      var i := IndexOf(s, sep);
      assert s == s[..i] + [sep] + s[i + 1..];
      (s[..i], [sep], s[i + 1..])
    else
      (s, "", "")
  }

  /** `sep.join(parts)`. */
  function Join(parts: seq<string>, sep: string): string {
    if parts == [] then ""
    else if |parts| == 1 then parts[0]
    else parts[0] + sep + Join(parts[1..], sep)
  }

  // ---------------------------------------------------------------------
  // Decimal rendering of integers (`six.text_type(n)`)

  predicate IsDigit(c: char) {
    '0' <= c <= '9'
  }

  function DigitChar(d: nat): (c: char)
    requires d < 10
    ensures IsDigit(c) && c as int - '0' as int == d
  {
    ('0' as int + d) as char
  }

  /** The decimal digits of `n`, without leading zeros. */
  function NatToDecimal(n: nat): (s: string)
    ensures |s| > 0 && (forall c :: c in s ==> IsDigit(c))
    ensures |s| > 1 ==> s[0] != '0'
  {
    if n < 10 then [DigitChar(n)]
    else NatToDecimal(n / 10) + [DigitChar(n % 10)]
  }

  /** Python's `str(i)` for an integer. */
  function IntToDecimal(i: int): string {
    if i < 0 then "-" + NatToDecimal(-i) else NatToDecimal(i)
  }

  /** The number a non-empty string of digits denotes. */
  function ParseDigits(s: string): nat
    requires |s| > 0 && forall c :: c in s ==> IsDigit(c)
  {
    assert s[|s| - 1] in s && IsDigit(s[|s| - 1]);
    var d := s[|s| - 1] as int - '0' as int;
    if |s| == 1 then d
    else 10 * ParseDigits(s[..|s| - 1]) + d
  }

  /** Python's `int(s)` on a string `str` produced. */
  function ParseDecimal(s: string): int
    requires |s| > 0
    requires s[0] == '-' ==> |s| > 1 && forall c :: c in s[1..] ==> IsDigit(c)
    requires s[0] != '-' ==> forall c :: c in s ==> IsDigit(c)
  {
    if s[0] == '-' then 0 - ParseDigits(s[1..]) else ParseDigits(s)
  }

  lemma {:induction false} NatToDecimalRoundTrip(n: nat)
    ensures ParseDigits(NatToDecimal(n)) == n
    decreases n
  {
    if n >= 10 {
      var s := NatToDecimal(n);
      assert s[..|s| - 1] == NatToDecimal(n / 10);
      NatToDecimalRoundTrip(n / 10);
    }
  }

  /** Reading back the decimal rendering of an integer gives the integer. */
  lemma IntToDecimalRoundTrip(i: int)
    ensures ParseDecimal(IntToDecimal(i)) == i
  {
    if i < 0 {
      var s := IntToDecimal(i);
      assert s[1..] == NatToDecimal(-i);
      NatToDecimalRoundTrip(-i);
    } else {
      assert NatToDecimal(i)[0] in NatToDecimal(i);
      NatToDecimalRoundTrip(i);
    }
  }

  /** Two integers with the same rendering are equal. */
  lemma IntToDecimalInjective(i: int, j: int)
    requires IntToDecimal(i) == IntToDecimal(j)
    ensures i == j
  {
    IntToDecimalRoundTrip(i);
    IntToDecimalRoundTrip(j);
  }

  // ---------------------------------------------------------------------
  // A dictionary built by a loop: element i contributes a key and a value,
  // nothing, or raises. Later entries replace earlier ones with the same key;
  // the first exception ends the loop.

  function BuildDict<K(==), V>(es: seq<Result<Option<(K, V)>>>): Result<map<K, V>> {
    if es == [] then Success(map[])
    else
      match BuildDict(es[..|es| - 1])
      case Failure(e) => Failure(e)
      case Success(m) =>
        match es[|es| - 1]
        case Failure(e) => Failure(e)
        case Success(None) => Success(m)
        case Success(Some(kv)) => Success(m[kv.0 := kv.1])
  }

  /** Building from one more entry extends the dictionary built so far by that entry. */
  lemma BuildDictStep<K, V>(es: seq<Result<Option<(K, V)>>>, n: nat)
    requires n < |es| && BuildDict(es[..n]).Success?
    ensures BuildDict(es[..n + 1]) ==
      match es[n]
      case Failure(e) => Failure(e)
      case Success(None) => BuildDict(es[..n])
      case Success(Some(kv)) => Success(BuildDict(es[..n]).value[kv.0 := kv.1])
  {
    assert es[..n + 1][..n] == es[..n];
  }

  lemma TakeAll<T>(s: seq<T>)
    ensures s[..|s|] == s
  {
  }

  predicate AllSucceed<T>(es: seq<Result<T>>) {
    forall i :: 0 <= i < |es| ==> es[i].Success?
  }

  /** Element `i` contributes an entry for key `k`. */
  ghost predicate Provides<K, V>(es: seq<Result<Option<(K, V)>>>, i: int, k: K) {
    0 <= i < |es| && es[i].Success? && es[i].value.Some? && es[i].value.value.0 == k
  }

  /** Element `i` is the last one that contributes an entry for `k`. */
  ghost predicate LastProvider<K, V>(es: seq<Result<Option<(K, V)>>>, i: int, k: K) {
    Provides(es, i, k) && forall j :: i < j < |es| ==> !Provides(es, j, k)
  }

  /** The loop raises exactly when some element raises, and it raises the first such error. */
  lemma {:induction false} BuildDictFailure<K, V>(es: seq<Result<Option<(K, V)>>>)
    ensures BuildDict(es).Success? <==> AllSucceed(es)
    ensures BuildDict(es).Failure? ==>
      exists i :: 0 <= i < |es| && es[i].Failure? && AllSucceed(es[..i]) && BuildDict(es).error == es[i].error
  {
    if es != [] {
      var init := es[..|es| - 1];
      BuildDictFailure(init);
      assert forall i :: 0 <= i < |init| ==> init[i] == es[i];
      if BuildDict(init).Failure? {
        var i :| 0 <= i < |init| && init[i].Failure? && AllSucceed(init[..i]) && BuildDict(init).error == init[i].error;
        assert init[..i] == es[..i];
      } else {
        assert es[..|es| - 1] == init;
      }
    }
  }

  /** On success the keys are exactly those some element contributes. */
  lemma {:induction false} BuildDictKeys<K, V>(es: seq<Result<Option<(K, V)>>>, k: K)
    requires AllSucceed(es)
    ensures BuildDict(es).Success?
    ensures k in BuildDict(es).value <==> exists i :: Provides(es, i, k)
  {
    BuildDictFailure(es);
    if es != [] {
      var init := es[..|es| - 1];
      assert AllSucceed(init) by {
        assert forall i :: 0 <= i < |init| ==> init[i] == es[i];
      }
      BuildDictKeys(init, k);
      BuildDictFailure(init);
      assert es[..|es| - 1] == init;
      assert forall i :: Provides(init, i, k) ==> Provides(es, i, k);
      assert forall i :: Provides(es, i, k) && i < |init| ==> Provides(init, i, k);
      var last := es[|es| - 1];
      assert last.Success?;
      if last.value.Some? && last.value.value.0 == k {
        assert Provides(es, |es| - 1, k);
      }
    }
  }

  /** On success, a key maps to the value of the last element contributing it. */
  lemma {:induction false} BuildDictLastWins<K, V>(es: seq<Result<Option<(K, V)>>>, i: int, k: K)
    requires AllSucceed(es)
    requires LastProvider(es, i, k)
    ensures BuildDict(es).Success?
    ensures k in BuildDict(es).value && BuildDict(es).value[k] == es[i].value.value.1
  {
    BuildDictFailure(es);
    var init := es[..|es| - 1];
    assert es[..|es| - 1] == init;
    if i < |es| - 1 {
      assert AllSucceed(init) by {
        assert forall j :: 0 <= j < |init| ==> init[j] == es[j];
      }
      assert forall j :: 0 <= j < |init| ==> init[j] == es[j];
      assert forall j :: i < j < |init| ==> !Provides(init, j, k) by {
        forall j | i < j < |init| ensures !Provides(init, j, k) {
          assert !Provides(es, j, k);
        }
      }
      assert LastProvider(init, i, k);
      BuildDictLastWins(init, i, k);
      BuildDictFailure(init);
      assert es[..|es| - 1] == init;
      assert !Provides(es, |es| - 1, k);
    }
  }

  // ---------------------------------------------------------------------
  // A list built by a loop whose elements may raise.

  function CollectAll<T>(rs: seq<Result<T>>): Result<seq<T>> {
    if rs == [] then Success([])
    else
      match CollectAll(rs[..|rs| - 1])
      case Failure(e) => Failure(e)
      case Success(xs) =>
        match rs[|rs| - 1]
        case Failure(e) => Failure(e)
        case Success(x) => Success(xs + [x])
  }

  /** The list is built exactly when every element succeeds, and then holds their values in order. */
  lemma {:induction false} CollectAllSuccess<T>(rs: seq<Result<T>>)
    ensures CollectAll(rs).Success? <==> AllSucceed(rs)
    ensures CollectAll(rs).Success? ==>
      |CollectAll(rs).value| == |rs| && forall i :: 0 <= i < |rs| ==> CollectAll(rs).value[i] == rs[i].value
    ensures CollectAll(rs).Failure? ==>
      exists i :: 0 <= i < |rs| && rs[i].Failure? && AllSucceed(rs[..i]) && CollectAll(rs).error == rs[i].error
  {
    if rs != [] {
      var init := rs[..|rs| - 1];
      CollectAllSuccess(init);
      assert forall i :: 0 <= i < |init| ==> init[i] == rs[i];
      if CollectAll(init).Failure? {
        var i :| 0 <= i < |init| && init[i].Failure? && AllSucceed(init[..i]) && CollectAll(init).error == init[i].error;
        assert init[..i] == rs[..i];
      } else {
        assert rs[..|rs| - 1] == init;
      }
    }
  }
}
