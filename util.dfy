/**
 * Value-level helpers shared by every module of the model: optional values and
 * raised exceptions, a decimal codec, the Python string operations the code
 * relies on (`in`, `replace`, `split`, `join`, `rstrip`, `lower`, `startswith`),
 * Python's string ordering and a stable sort.
 */
module Util {

  datatype Option<T> = None | Some(value: T)

  /** The result of a Python call that may raise: its value, or the exception text. */
  datatype Outcome<T> = Success(value: T) | Failure(error: string)
  {
    predicate IsFailure() { Failure? }

    function PropagateFailure<U>(): Outcome<U>
      requires Failure?
    {
      Failure(error)
    }

    function Extract(): T
      requires Success?
    {
      value
    }
  }

  /** A JSON document as `json.load` returns it (object key order is not modelled). */
  datatype Json =
    | JNull
    | JBool(b: bool)
    | JInt(i: int)
    | JReal(r: real)
    | JStr(s: string)
    | JList(items: seq<Json>)
    | JObj(fields: map<string, Json>)

  /**
   * A tab-separated file as `csv.DictWriter` writes it and `csv.DictReader`
   * reads it back: the header, and one map from column name to cell text per row.
   */
  datatype Table = Table(fieldnames: seq<string>, rows: seq<map<string, string>>)

  /** The value of `o`, or `default` when there is none. */
  function OrElse<T>(o: Option<T>, default: T): T
  {
    if o.Some? then o.value else default
  }

  /** `data.get(key)` on a JSON object; None when the key is absent. */
  function Get(data: map<string, Json>, key: string): Option<Json>
  {
    if key in data then Some(data[key]) else None
  }

  /** Python truthiness of a JSON value: null, false, zero and empty strings, lists and objects are false. */
  predicate Truthy(j: Json)
  {
    match j
    case JNull => false
    case JBool(b) => b
    case JInt(i) => i != 0
    case JReal(r) => r != 0.0
    case JStr(s) => s != ""
    case JList(items) => items != []
    case JObj(fields) => fields != map[]
  }

  // ---------------------------------------------------------------- decimal codec

  predicate IsDigit(c: char) { '0' <= c <= '9' }

  predicate AllDigits(s: string) { forall i :: 0 <= i < |s| ==> IsDigit(s[i]) }

  function DigitChar(d: nat): (c: char)
    requires d < 10
    ensures IsDigit(c) && c as int - '0' as int == d
  {
    ('0' as int + d) as char
  }

  function DigitValue(c: char): (d: nat)
    requires IsDigit(c)
    ensures d < 10
  {
    c as int - '0' as int
  }

  /** The number a string of decimal digits denotes (most significant digit first). */
  function DigitsValue(s: string): nat
    requires AllDigits(s)
    decreases |s|
  {
    if s == [] then 0 else 10 * DigitsValue(s[..|s| - 1]) + DigitValue(s[|s| - 1])
  }

  /** Python's `str(n)` for a non-negative int. */
  function NatToString(n: nat): string
    decreases n
  {
    if n < 10 then [DigitChar(n)] else NatToString(n / 10) + [DigitChar(n % 10)]
  }

  /** Python's `str(i)` for an int. */
  function IntToString(i: int): string
  {
    if i < 0 then "-" + NatToString(-i) else NatToString(i)
  }

  /** Python's `int(s)` restricted to an optional minus sign and decimal digits; None where it raises. */
  function ParseInt(s: string): Option<int>
  {
    if |s| > 1 && s[0] == '-' && AllDigits(s[1..]) then Some(-(DigitsValue(s[1..]) as int))
    else if |s| > 0 && AllDigits(s) then Some(DigitsValue(s) as int)
    else None
  }

  lemma {:induction false} NatToStringDigits(n: nat)
    ensures |NatToString(n)| > 0 && AllDigits(NatToString(n))
    ensures DigitsValue(NatToString(n)) == n
    decreases n
  {
    if n >= 10 {
      NatToStringDigits(n / 10);
      var s := NatToString(n);
      assert s[..|s| - 1] == NatToString(n / 10);
    }
  }

  /** `int(str(i)) == i`. */
  lemma IntToStringRoundTrip(i: int)
    ensures ParseInt(IntToString(i)) == Some(i)
  {
    if i < 0 {
      NatToStringDigits(-i);
      assert IntToString(i)[1..] == NatToString(-i);
    } else {
      NatToStringDigits(i);
    }
  }

  /** Zero-padded two-digit field, as `%02d`. */
  function Pad2(n: nat): (s: string)
    requires n < 100
    ensures |s| == 2 && AllDigits(s) && DigitsValue(s) == n
  {
    var s := [DigitChar(n / 10), DigitChar(n % 10)];
    assert s[..1] == [DigitChar(n / 10)] && s[..1][..0] == [];
    assert DigitsValue(s[..1]) == n / 10;
    s
  }

  /** Zero-padded four-digit field, as `%04d`. */
  function Pad4(n: nat): (s: string)
    requires n < 10000
    ensures |s| == 4 && AllDigits(s) && DigitsValue(s) == n
  {
    var s := [DigitChar(n / 1000), DigitChar(n / 100 % 10), DigitChar(n / 10 % 10), DigitChar(n % 10)];
    assert s[..3] == [DigitChar(n / 1000), DigitChar(n / 100 % 10), DigitChar(n / 10 % 10)];
    assert s[..3][..2] == [DigitChar(n / 1000), DigitChar(n / 100 % 10)];
    assert s[..3][..2][..1] == [DigitChar(n / 1000)] && s[..3][..2][..1][..0] == [];
    assert DigitsValue(s[..3][..2][..1]) == n / 1000;
    assert DigitsValue(s[..3][..2]) == n / 100;
    assert DigitsValue(s[..3]) == n / 10;
    s
  }

  // ---------------------------------------------------------------- substrings

  /** Python's `s.find(p)`: the leftmost index where `p` occurs in `s`, if any. */
  function IndexOf(s: string, p: string): (r: Option<nat>)
    decreases |s|
    ensures r.Some? ==> r.value + |p| <= |s| && p <= s[r.value..]
    ensures r.Some? ==> forall j :: 0 <= j < r.value ==> !(p <= s[j..])
    ensures r.None? ==> forall j :: 0 <= j <= |s| ==> !(p <= s[j..])
  {
    if p <= s then Some(0)
    else if s == [] then None
    else
      TailSuffixes(s);
      match IndexOf(s[1..], p)
      case None => None
      case Some(i) => Some(i + 1)
  }

  /** The suffixes of `s[1..]` are the suffixes of `s` after its first one. */
  lemma TailSuffixes(s: string)
    requires |s| > 0
    ensures forall j :: 1 <= j <= |s| ==> s[j..] == s[1..][j - 1..]
  {}

  /** Python's `p in s`. */
  predicate Contains(s: string, p: string) { IndexOf(s, p).Some? }

  lemma ContainsAt(s: string, p: string, j: nat)
    requires j <= |s| && p <= s[j..]
    ensures Contains(s, p)
  {
  }

  lemma ContainsWitness(s: string, p: string) returns (j: nat)
    requires Contains(s, p)
    ensures j + |p| <= |s| && p <= s[j..]
  {
    j := IndexOf(s, p).value;
  }

  /** A one-character string occurs in `s` exactly when that character does. */
  lemma {:induction false} ContainsChar(s: string, c: char)
    ensures Contains(s, [c]) <==> c in s
    decreases |s|
  {
    if s != [] {
      ContainsChar(s[1..], c);
      assert s == [s[0]] + s[1..];
    }
  }

  /** An occurrence inside the first `i` characters is an occurrence that starts before `i`. */
  lemma NoneBefore(s: string, p: string, i: nat)
    requires |p| > 0 && i <= |s|
    ensures Contains(s[..i], p) ==> exists j :: 0 <= j < i && p <= s[j..]
  {
    if Contains(s[..i], p) {
      var j := ContainsWitness(s[..i], p);
      assert s[..i][j..][..|p|] == s[j..][..|p|];
    }
  }

  /** Python's `s.replace(pat, rep)`: every leftmost non-overlapping occurrence replaced. */
  function ReplaceAll(s: string, pat: string, rep: string): string
    requires |pat| > 0
    decreases |s|
  {
    if s == [] then []
    else if pat <= s then rep + ReplaceAll(s[|pat|..], pat, rep)
    else [s[0]] + ReplaceAll(s[1..], pat, rep)
  }

  /** Without an occurrence of `pat`, `s.replace(pat, rep)` is `s` itself. */
  lemma {:induction false} ReplaceAllNoMatch(s: string, pat: string, rep: string)
    requires |pat| > 0 && !Contains(s, pat)
    ensures ReplaceAll(s, pat, rep) == s
    decreases |s|
  {
    if s != [] {
      assert !(pat <= s);
      assert !Contains(s[1..], pat);
      ReplaceAllNoMatch(s[1..], pat, rep);
      assert s == [s[0]] + s[1..];
    }
  }

  /**
   * The conditions under which replacing `pat` by `rep` leaves no `pat` behind:
   * `rep` is non-empty, its first character does not occur in `pat` after
   * position 0, and wherever `pat`'s first character occurs in `rep` the next
   * character of `rep` already differs from `pat`'s second one.
   */
  predicate ReplacementErases(pat: string, rep: string)
  {
    && |pat| > 0 && |rep| > 0
    && (forall j :: 1 <= j < |pat| ==> pat[j] != rep[0])
    && (forall k :: 0 <= k < |rep| && rep[k] == pat[0] ==>
          |pat| > 1 && k + 1 < |rep| && rep[k + 1] != pat[1])
  }

  /** A tail of `pat` can start the replaced text only if it started the original. */
  lemma {:induction false} TailPrefixPreserved(t: string, pat: string, rep: string, j: nat)
    requires ReplacementErases(pat, rep) && 1 <= j <= |pat|
    ensures pat[j..] <= ReplaceAll(t, pat, rep) ==> pat[j..] <= t
    decreases |t|
  {
    if j < |pat| && t != [] && pat <= t {
      var r := ReplaceAll(t, pat, rep);
      assert r == rep + ReplaceAll(t[|pat|..], pat, rep);
      assert r[0] == rep[0] && pat[j..][0] == pat[j];
    } else if j < |pat| && t != [] {
      TailPrefixPreserved(t[1..], pat, rep, j + 1);
      TailPrefixStep(t, pat, rep, j);
    }
  }

  /** The step of `TailPrefixPreserved` past a first character that does not start `pat`. */
  lemma TailPrefixStep(t: string, pat: string, rep: string, j: nat)
    requires 1 <= j < |pat| && t != [] && !(pat <= t)
    requires pat[j + 1..] <= ReplaceAll(t[1..], pat, rep) ==> pat[j + 1..] <= t[1..]
    ensures pat[j..] <= ReplaceAll(t, pat, rep) ==> pat[j..] <= t
  {
    var r1 := ReplaceAll(t[1..], pat, rep);
    assert ReplaceAll(t, pat, rep) == [t[0]] + r1;
    assert pat[j..] == [pat[j]] + pat[j + 1..];
    assert t == [t[0]] + t[1..];
    if pat[j..] <= [t[0]] + r1 {
      assert pat[j + 1..] <= r1;
    }
  }

  /** `pat` cannot start inside a copy of a tail of `rep` followed by text free of `pat`. */
  lemma {:induction false} ReplacementTailFree(pat: string, rep: string, i: nat, b: string)
    requires ReplacementErases(pat, rep) && i <= |rep|
    requires !Contains(b, pat)
    ensures !Contains(rep[i..] + b, pat)
    decreases |rep| - i
  {
    var a := rep[i..] + b;
    if i < |rep| {
      ReplacementTailFree(pat, rep, i + 1, b);
      assert a[1..] == rep[i + 1..] + b;
      assert a[0] == rep[i];
      assert i + 1 < |rep| ==> a[1] == rep[i + 1];
    } else {
      assert a == b;
    }
  }

  /** Under `ReplacementErases`, `s.replace(pat, rep)` contains no `pat`. */
  lemma {:induction false} ReplaceAllErases(s: string, pat: string, rep: string)
    requires ReplacementErases(pat, rep)
    ensures !Contains(ReplaceAll(s, pat, rep), pat)
    decreases |s|
  {
    if s != [] {
      if pat <= s {
        ReplaceAllErases(s[|pat|..], pat, rep);
        assert rep == rep[0..];
        ReplacementTailFree(pat, rep, 0, ReplaceAll(s[|pat|..], pat, rep));
      } else {
        var r1 := ReplaceAll(s[1..], pat, rep);
        var r := [s[0]] + r1;
        ReplaceAllErases(s[1..], pat, rep);
        if pat[1..] <= r1 {
          TailPrefixPreserved(s[1..], pat, rep, 1);
        }
      }
    }
  }

  // ---------------------------------------------------------------- split and join

  /** Python's `s.split(sep)` for a non-empty separator. */
  function Split(s: string, sep: string): (parts: seq<string>)
    requires |sep| > 0
    decreases |s|
    ensures |parts| > 0
  {
    match IndexOf(s, sep)
    case None => [s]
    case Some(i) => [s[..i]] + Split(s[i + |sep|..], sep)
  }

  /** No piece of a split contains the separator. */
  lemma {:induction false} SplitPiecesFree(s: string, sep: string)
    requires |sep| > 0
    ensures forall k :: 0 <= k < |Split(s, sep)| ==> !Contains(Split(s, sep)[k], sep)
    decreases |s|
  {
    match IndexOf(s, sep)
    case None =>
    case Some(i) =>
      var rest := Split(s[i + |sep|..], sep);
      var parts := Split(s, sep);
      assert parts == [s[..i]] + rest;
      SplitPiecesFree(s[i + |sep|..], sep);
      NoneBefore(s, sep, i);
      PiecesFreeCons(s[..i], rest, sep);
  }

  lemma PiecesFreeCons(head: string, rest: seq<string>, sep: string)
    requires !Contains(head, sep) && forall k :: 0 <= k < |rest| ==> !Contains(rest[k], sep)
    ensures forall k :: 0 <= k < |[head] + rest| ==> !Contains(([head] + rest)[k], sep)
  {
    forall k | 0 <= k < |[head] + rest| ensures !Contains(([head] + rest)[k], sep) {
      if k > 0 {
        assert ([head] + rest)[k] == rest[k - 1];
      }
    }
  }

  /** Python's `sep.join(parts)`. */
  function Join(parts: seq<string>, sep: string): string
    decreases |parts|
  {
    if |parts| == 0 then "" else if |parts| == 1 then parts[0] else parts[0] + sep + Join(parts[1..], sep)
  }

  lemma SplitAround(s: string, sep: string, i: nat)
    requires i + |sep| <= |s| && sep <= s[i..]
    ensures s == s[..i] + sep + s[i + |sep|..]
  {
    assert s[i..] == s[i..][..|sep|] + s[i..][|sep|..];
  }

  /** Joining the pieces of a split with the same separator gives back the string. */
  lemma {:induction false} JoinSplit(s: string, sep: string)
    requires |sep| > 0
    ensures Join(Split(s, sep), sep) == s
    decreases |s|
  {
    match IndexOf(s, sep)
    case None =>
    case Some(i) =>
      var rest := s[i + |sep|..];
      var parts := Split(rest, sep);
      JoinSplit(rest, sep);
      var whole := [s[..i]] + parts;
      assert Split(s, sep) == whole;
      assert |whole| > 1 && whole[0] == s[..i] && whole[1..] == parts;
      assert Join(whole, sep) == s[..i] + sep + Join(parts, sep);
      SplitAround(s, sep, i);
  }

  // ---------------------------------------------------------------- whitespace and case

  /** Python's `str.isspace` for one character. */
  predicate IsSpace(c: char)
  {
    c == ' ' || ('\t' <= c <= '\r') || ('\U{1c}' <= c <= '\U{1f}') || c == '\U{85}' || c == '\U{a0}'
    || c == '\U{1680}' || ('\U{2000}' <= c <= '\U{200a}') || c == '\U{2028}' || c == '\U{2029}'
    || c == '\U{202f}' || c == '\U{205f}' || c == '\U{3000}'
  }

  /** Python's `s.rstrip()`: the longest prefix of `s` that does not end in whitespace. */
  function RStrip(s: string): (r: string)
    decreases |s|
    ensures r <= s
    ensures r == [] || !IsSpace(r[|r| - 1])
    ensures forall k :: |r| <= k < |s| ==> IsSpace(s[k])
  {
    if s != [] && IsSpace(s[|s| - 1]) then RStrip(s[..|s| - 1]) else s
  }

  function LowerChar(c: char): char
  {
    if 'A' <= c <= 'Z' then (c as int + 32) as char else c
  }

  /** Python's `s.lower()` on the ASCII letters. */
  function Lower(s: string): string
  {
    seq(|s|, k requires 0 <= k < |s| => LowerChar(s[k]))
  }

  /** Lower-casing twice is lower-casing once. */
  lemma {:induction false} LowerIdempotent(s: string)
    ensures Lower(Lower(s)) == Lower(s)
  {
    forall k | 0 <= k < |s| ensures Lower(Lower(s))[k] == Lower(s)[k] {
      var c := s[k];
      assert Lower(s)[k] == LowerChar(c);
      if 'A' <= c <= 'Z' {
        assert 'a' <= LowerChar(c) <= 'z';
      }
    }
  }

  // ---------------------------------------------------------------- converting every element

  /** `[f(x) for x in xs]` where `f` may raise: the first exception, in order, is the result. */
  function Traverse<A, B>(xs: seq<A>, f: A -> Outcome<B>): (r: Outcome<seq<B>>)
    ensures r.Success? ==> |r.value| == |xs|
    decreases |xs|
  {
    if xs == [] then Success([])
    else
      var init :- Traverse(xs[..|xs| - 1], f);
      var last :- f(xs[|xs| - 1]);
      Success(init + [last])
  }

  /** When every element converts to the matching one of `ys`, the whole conversion gives `ys`. */
  lemma {:induction false} TraverseInverse<A, B>(xs: seq<A>, ys: seq<B>, f: A -> Outcome<B>)
    requires |xs| == |ys|
    requires forall j :: 0 <= j < |xs| ==> f(xs[j]) == Success(ys[j])
    ensures Traverse(xs, f) == Success(ys)
    decreases |xs|
  {
    if xs != [] {
      var n := |xs|;
      TraverseInverse(xs[..n - 1], ys[..n - 1], f);
      assert ys[..n - 1] + [ys[n - 1]] == ys;
    }
  }

  /** A prefix that raises makes the whole conversion raise the same exception. */
  lemma {:induction false} TraverseFailurePropagates<A, B>(xs: seq<A>, n: nat, f: A -> Outcome<B>)
    requires n <= |xs| && Traverse(xs[..n], f).Failure?
    ensures Traverse(xs, f) == Traverse(xs[..n], f)
    decreases |xs| - n
  {
    if n < |xs| {
      assert xs[..n + 1][..n] == xs[..n];
      TraverseFailurePropagates(xs, n + 1, f);
    } else {
      assert xs[..n] == xs;
    }
  }

  // ---------------------------------------------------------------- ordering and sorting

  /** Python's `a <= b` on strings: lexicographic by code point. */
  predicate LexLe(a: string, b: string)
    decreases |a|
  {
    a == [] || (b != [] && (a[0] < b[0] || (a[0] == b[0] && LexLe(a[1..], b[1..]))))
  }

  lemma {:induction false} LexLeTotal(a: string, b: string)
    ensures LexLe(a, b) || LexLe(b, a)
    decreases |a|
  {
    if a != [] && b != [] && a[0] == b[0] { LexLeTotal(a[1..], b[1..]); }
  }

  lemma {:induction false} LexLeTrans(a: string, b: string, c: string)
    requires LexLe(a, b) && LexLe(b, c)
    ensures LexLe(a, c)
    decreases |a|
  {
    if a != [] && b != [] && c != [] && a[0] == b[0] == c[0] { LexLeTrans(a[1..], b[1..], c[1..]); }
  }

  lemma {:induction false} LexLeAntisym(a: string, b: string)
    requires LexLe(a, b) && LexLe(b, a)
    ensures a == b
    decreases |a|
  {
    if a != [] {
      LexLeAntisym(a[1..], b[1..]);
      assert a == [a[0]] + a[1..] && b == [b[0]] + b[1..];
    }
  }

  /** `le` compares every pair one way or the other, as Python's `sort` requires of `<`. */
  ghost predicate Total<T(!new)>(le: (T, T) -> bool)
  {
    forall a, b :: le(a, b) || le(b, a)
  }

  /** Each element is `le` its successor. */
  ghost predicate OrderedBy<T>(s: seq<T>, le: (T, T) -> bool)
  {
    forall i :: 0 < i < |s| ==> le(s[i - 1], s[i])
  }

  /** Put `x` in front of the first element it does not come after. */
  function Insert<T>(x: T, s: seq<T>, le: (T, T) -> bool): seq<T>
    decreases |s|
  {
    if s == [] || le(x, s[0]) then [x] + s else [s[0]] + Insert(x, s[1..], le)
  }

  /** Python's stable `sorted(s, key=...)`, as an insertion sort by `le`. */
  function SortBy<T>(s: seq<T>, le: (T, T) -> bool): seq<T>
    decreases |s|
  {
    if s == [] then [] else Insert(s[0], SortBy(s[1..], le), le)
  }

  lemma {:induction false} InsertOrdered<T(!new)>(x: T, s: seq<T>, le: (T, T) -> bool)
    requires Total(le) && OrderedBy(s, le)
    ensures OrderedBy(Insert(x, s, le), le)
    ensures |Insert(x, s, le)| == |s| + 1
    ensures Insert(x, s, le)[0] == x || Insert(x, s, le)[0] == s[0]
    ensures multiset(Insert(x, s, le)) == multiset(s) + multiset{x}
    decreases |s|
  {
    if s != [] && !le(x, s[0]) {
      InsertOrdered(x, s[1..], le);
      assert s == [s[0]] + s[1..];
      assert le(s[0], x);
    }
  }

  /** The sort orders its input and keeps every element, as often as it occurs. */
  lemma {:induction false} SortByOrdered<T(!new)>(s: seq<T>, le: (T, T) -> bool)
    requires Total(le)
    ensures OrderedBy(SortBy(s, le), le)
    ensures multiset(SortBy(s, le)) == multiset(s)
    decreases |s|
  {
    if s != [] {
      SortByOrdered(s[1..], le);
      InsertOrdered(s[0], SortBy(s[1..], le), le);
      assert s == [s[0]] + s[1..];
    }
  }

  /** Python's `sorted` on strings is a sort by this total order. */
  lemma LexLeIsTotal()
    ensures Total(LexLe)
  {
    forall a: string, b: string
      ensures LexLe(a, b) || LexLe(b, a)
    {
      LexLeTotal(a, b);
    }
  }
}
