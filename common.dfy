/** Option and Result, the shapes every module uses for "no value" and for error paths. */
module Wrappers {
  datatype Option<+T> = None | Some(value: T)

  datatype Result<+T, +E> = Ok(value: T) | Err(error: E)
}

/** Facts about sequences that several modules lean on. */
module Seqs {
  /** Concatenation regroups freely. */
  lemma AppendAssoc<T>(a: seq<T>, b: seq<T>, c: seq<T>)
    ensures (a + b) + c == a + (b + c)
  {
  }
}

/** String helpers with Python's semantics for the operations the source uses. */
module Strings {
  import opened Wrappers

  /** Characters that Python's `str.strip()` removes, restricted to ASCII. */
  predicate IsSpace(c: char) {
    c == ' ' || c == '\t' || c == '\n' || c == '\r' || c == '\U{0B}' || c == '\U{0C}'
    || ('\U{1C}' <= c <= '\U{1F}')
  }

  /** `not s.strip()`: the string is empty or only whitespace. */
  predicate IsBlank(s: string) {
    forall i :: 0 <= i < |s| ==> IsSpace(s[i])
  }

  function StripLeft(s: string): (r: string)
    ensures |r| <= |s| && r == s[|s| - |r|..]
    ensures r != [] ==> !IsSpace(r[0])
    ensures forall i :: 0 <= i < |s| - |r| ==> IsSpace(s[i])
  {
    if s != [] && IsSpace(s[0]) then StripLeft(s[1..]) else s
  }

  function StripRight(s: string): (r: string)
    ensures |r| <= |s| && r == s[..|r|]
    ensures r != [] ==> !IsSpace(r[|r| - 1])
    ensures forall i :: |r| <= i < |s| ==> IsSpace(s[i])
  {
    if s != [] && IsSpace(s[|s| - 1]) then StripRight(s[..|s| - 1]) else s
  }

  /** `s.strip()`. */
  function Strip(s: string): string {
    StripRight(StripLeft(s))
  }

  /**
   * `s.strip()` is empty exactly for a blank string, and otherwise starts and
   * ends with a non-space character.
   */
  lemma StripSpec(s: string)
    ensures Strip(s) == [] <==> IsBlank(s)
    ensures Strip(s) != [] ==> !IsSpace(Strip(s)[0]) && !IsSpace(Strip(s)[|Strip(s)| - 1])
  {
    var l := StripLeft(s);
    if Strip(s) == [] {
      assert forall i :: 0 <= i < |s| - |l| ==> IsSpace(s[i]);
    }
  }

  predicate IsDigit(c: char) { '0' <= c <= '9' }

  /** Value of a string of decimal digits, most significant first. */
  function DigitsValue(s: string): nat
    requires forall i :: 0 <= i < |s| ==> IsDigit(s[i])
  {
    if s == [] then 0
    else
      assert IsDigit(s[|s| - 1]);
      DigitsValue(s[..|s| - 1]) * 10 + (s[|s| - 1] as int - '0' as int)
  }

  /** `int(s)` restricted to plain decimal digits; None where `int` raises. */
  function ParseDecimal(s: string): (r: Option<nat>)
    ensures r.Some? <==> s != [] && forall i :: 0 <= i < |s| ==> IsDigit(s[i])
  {
    if s != [] && forall i :: 0 <= i < |s| ==> IsDigit(s[i]) then Some(DigitsValue(s)) else None
  }

  /** Decimal rendering of a natural number, as `str(n)` and `%u` give it. */
  function Decimal(n: nat): (r: string)
    ensures r != [] && forall i :: 0 <= i < |r| ==> IsDigit(r[i])
    ensures DigitsValue(r) == n
  {
    if n < 10 then [('0' as int + n) as char]
    else
      var r := Decimal(n / 10) + [('0' as int + n % 10) as char];
      assert r[..|r| - 1] == Decimal(n / 10);
      r
  }

  /** `str(i)` for an integer: a '-' before the digits of a negative one. */
  function SignedDecimal(i: int): string {
    if i < 0 then "-" + Decimal(-i) else Decimal(i)
  }

  /**
   * `int(s)` for the forms the model accepts: surrounding whitespace, an
   * optional '+' or '-', then ASCII decimal digits. None where `int` raises.
   */
  function ParseInt(s: string): Option<int> {
    var t := Strip(s);
    if t != [] && (t[0] == '+' || t[0] == '-') then
      match ParseDecimal(t[1..])
      case Some(n) =>
        var v: int := if t[0] == '-' then -(n as int) else n;
        Some(v)
      case None => None
    else
      match ParseDecimal(t)
      case Some(n) => Some(n)
      case None => None
  }

  /** A blank string is not an integer. */
  lemma ParseIntBlank(s: string)
    requires IsBlank(s)
    ensures ParseInt(s) == None
  {
    StripSpec(s);
  }

  /** `int(str(i)) == i`: parsing inverts the decimal rendering. */
  lemma ParseIntRoundTrip(i: int)
    ensures ParseInt(SignedDecimal(i)) == Some(i)
  {
    var n: nat := if i < 0 then -i else i;
    var d := Decimal(n);
    assert IsDigit(d[0]) && IsDigit(d[|d| - 1]);
    var t := SignedDecimal(i);
    assert Strip(t) == t by {
      assert t[0] == '-' || t[0] == d[0];
      assert t[|t| - 1] == d[|d| - 1];
      StripUnpadded(t);
    }
    assert ParseDecimal(d) == Some(n);
    if i < 0 {
      assert t[0] == '-' && t[1..] == d;
    } else {
      assert t == d && t[0] != '+' && t[0] != '-';
    }
  }

  lemma StripUnpadded(s: string)
    requires s != [] && !IsSpace(s[0]) && !IsSpace(s[|s| - 1])
    ensures Strip(s) == s
  {
    assert StripLeft(s) == s;
  }

  /** `int` ignores surrounding whitespace, and text with a non-space character is not blank. */
  lemma PaddedParseInt(pad: string, s: string)
    requires IsBlank(pad) && s != [] && !IsSpace(s[0]) && !IsSpace(s[|s| - 1])
    ensures ParseInt(pad + s + pad) == ParseInt(s) && !IsBlank(pad + s + pad)
  {
    var t := pad + s + pad;
    PaddedParse(pad, s);
    StripUnpadded(s);
    SameStripSameInt(t, s);
    assert t[|pad|] == s[0];
  }

  /** `int` reads only what `strip` keeps. */
  lemma SameStripSameInt(a: string, b: string)
    requires Strip(a) == Strip(b)
    ensures ParseInt(a) == ParseInt(b)
  {
  }

  /** Surrounding whitespace does not change what `int` reads. */
  lemma PaddedParse(pad: string, s: string)
    requires IsBlank(pad) && s != [] && !IsSpace(s[0]) && !IsSpace(s[|s| - 1])
    ensures Strip(pad + s + pad) == s
  {
    var t := pad + s + pad;
    StripLeftPad(pad, s + pad);
    assert t == pad + (s + pad);
    StripRightPad(s, pad);
  }

  lemma {:induction false} StripLeftPad(pad: string, s: string)
    requires IsBlank(pad) && s != [] && !IsSpace(s[0])
    ensures StripLeft(pad + s) == s
  {
    if pad == [] {
      assert pad + s == s;
    } else {
      var t := pad + s;
      assert t[0] == pad[0] && IsSpace(t[0]);
      assert t[1..] == pad[1..] + s;
      assert StripLeft(t) == StripLeft(t[1..]);
      StripLeftPad(pad[1..], s);
    }
  }

  lemma {:induction false} StripRightPad(s: string, pad: string)
    requires IsBlank(pad) && s != [] && !IsSpace(s[|s| - 1])
    ensures StripRight(s + pad) == s
  {
    if pad != [] {
      assert (s + pad)[..|s + pad| - 1] == s + pad[..|pad| - 1];
      StripRightPad(s, pad[..|pad| - 1]);
    }
  }

  predicate StartsWith(s: string, p: string) { |p| <= |s| && s[..|p|] == p }

  predicate EndsWith(s: string, p: string) { |p| <= |s| && s[|s| - |p|..] == p }

  predicate OccursAt(s: string, pat: string, i: nat) {
    i + |pat| <= |s| && s[i..i + |pat|] == pat
  }

  /** `s in t` for strings: pat occurs somewhere in s. */
  predicate Contains(s: string, pat: string) {
    exists i :: 0 <= i <= |s| && OccursAt(s, pat, i)
  }

  /** Index of the first occurrence of pat in s at or after `from`. */
  function FindFrom(s: string, pat: string, from: nat): (r: Option<nat>)
    requires from <= |s|
    decreases |s| - from
    ensures r.Some? ==> from <= r.value && OccursAt(s, pat, r.value)
    ensures r.Some? ==> forall j :: from <= j < r.value ==> !OccursAt(s, pat, j)
    ensures r.None? ==> forall j :: from <= j <= |s| ==> !OccursAt(s, pat, j)
  {
    if OccursAt(s, pat, from) then Some(from)
    else if from == |s| then None
    else FindFrom(s, pat, from + 1)
  }

  /** `s.find(pat)`, as an Option. */
  function Find(s: string, pat: string): (r: Option<nat>)
    ensures r.Some? <==> Contains(s, pat)
    ensures r.Some? ==> OccursAt(s, pat, r.value) && forall j :: 0 <= j < r.value ==> !OccursAt(s, pat, j)
  {
    FindFrom(s, pat, 0)
  }

  /** Python's `s.split(sep)` for a one-character separator: never empty. */
  function Split(s: string, sep: char): (parts: seq<string>)
    ensures |parts| >= 1
    ensures forall k :: 0 <= k < |parts| ==> sep !in parts[k]
  {
    if sep !in s then [s]
    else
      var i := IndexOf(s, sep);
      [s[..i]] + Split(s[i + 1..], sep)
  }

  function IndexOf(s: string, c: char): (i: nat)
    requires c in s
    ensures i < |s| && s[i] == c && c !in s[..i]
  {
    if s[0] == c then 0 else 1 + IndexOf(s[1..], c)
  }

  /** `sep.join(parts)`. */
  function Join(parts: seq<string>, sep: char): string
    requires |parts| >= 1
  {
    if |parts| == 1 then parts[0] else parts[0] + [sep] + Join(parts[1..], sep)
  }

  /** Splitting undoes joining when no part holds the separator. */
  lemma {:induction false} SplitJoin(parts: seq<string>, sep: char)
    requires |parts| >= 1
    requires forall k :: 0 <= k < |parts| ==> sep !in parts[k]
    ensures Split(Join(parts, sep), sep) == parts
  {
    if |parts| == 1 {
    } else {
      var s := Join(parts, sep);
      var rest := Join(parts[1..], sep);
      assert s == parts[0] + [sep] + rest;
      assert s[|parts[0]|] == sep;
      assert sep in s;
      assert IndexOf(s, sep) == |parts[0]| by {
        var i := IndexOf(s, sep);
        assert s[..|parts[0]|] == parts[0];
      }
      assert s[..|parts[0]|] == parts[0];
      assert s[|parts[0]| + 1..] == rest;
      SplitJoin(parts[1..], sep);
    }
  }
}

/**
 * JSON values as the Python side sees them after `json.loads`: objects are
 * dictionaries from string keys to values. Numbers are integers only (every
 * number the system exchanges is an integer millisecond count, score, level
 * or index).
 */
module Json {
  import opened Wrappers
  import opened Strings
  datatype Json =
    | JNull
    | JBool(b: bool)
    | JInt(i: int)
    | JStr(s: string)
    | JArr(items: seq<Json>)
    | JObj(fields: Object)

  type Object = map<string, Json>

  /** Python's `d.get(key) == JStr(text)`: false when the key is missing. */
  predicate HasStr(d: Object, key: string, text: string) {
    key in d && d[key] == JStr(text)
  }

  /**
   * Python's `str()` of a JSON scalar, as an f-string renders it into a topic.
   * Lists and objects render as the empty string here (their `repr` is not
   * modelled).
   */
  function Str(j: Json): (r: string)
    ensures j.JStr? ==> r == j.s
    ensures j.JInt? && j.i >= 0 ==> ParseDecimal(r) == Some(j.i)
  {
    match j
    case JStr(s) => s
    case JInt(i) => SignedDecimal(i)
    case JBool(b) => if b then "True" else "False"
    case JNull => "None"
    case _ => ""
  }
}

/**
 * Python's `list.sort(key=k, reverse=True)`: a stable sort into non-increasing
 * key order (elements with equal keys keep their relative order). Written as
 * insertion of each element, in list order, after every element whose key is
 * not smaller.
 */
module StableSort {
  predicate SortedDesc<T>(s: seq<T>, key: T -> int) {
    forall i, j :: 0 <= i < j < |s| ==> key(s[i]) >= key(s[j])
  }

  /** Put x after the leading run of elements whose key is at least key(x). */
  function Insert<T>(s: seq<T>, x: T, key: T -> int): (r: seq<T>)
    ensures |r| == |s| + 1
  {
    if s == [] then [x]
    else if key(s[0]) >= key(x) then [s[0]] + Insert(s[1..], x, key)
    else [x] + s
  }

  /** `sort(key=k, reverse=True)`, as insertion of each element in turn. */
  function SortDesc<T>(s: seq<T>, key: T -> int): (r: seq<T>)
    ensures |r| == |s|
  {
    if s == [] then []
    else Insert(SortDesc(s[..|s| - 1], key), s[|s| - 1], key)
  }

  /** Inserting adds exactly x. */
  lemma {:induction false} InsertPerm<T>(s: seq<T>, x: T, key: T -> int)
    ensures multiset(Insert(s, x, key)) == multiset(s) + multiset{x}
  {
    if s != [] && key(s[0]) >= key(x) {
      InsertPerm(s[1..], x, key);
      assert s == [s[0]] + s[1..];
    }
  }

  /** The sort result is a permutation of its input. */
  lemma {:induction false} SortDescPerm<T>(s: seq<T>, key: T -> int)
    ensures multiset(SortDesc(s, key)) == multiset(s)
  {
    if s != [] {
      SortDescPerm(s[..|s| - 1], key);
      InsertPerm(SortDesc(s[..|s| - 1], key), s[|s| - 1], key);
      assert s == s[..|s| - 1] + [s[|s| - 1]];
    }
  }

  /** The elements of s whose key is exactly k, in order. */
  function WithKey<T>(s: seq<T>, k: int, key: T -> int): seq<T> {
    if s == [] then []
    else (if key(s[0]) == k then [s[0]] else []) + WithKey(s[1..], k, key)
  }

  /** Number of elements of s whose key is at least k. */
  function CountAtLeast<T>(s: seq<T>, k: int, key: T -> int): nat {
    if s == [] then 0 else (if key(s[0]) >= k then 1 else 0) + CountAtLeast(s[1..], k, key)
  }

  lemma {:induction false} WithKeyAppend<T>(s: seq<T>, t: seq<T>, k: int, key: T -> int)
    ensures WithKey(s + t, k, key) == WithKey(s, k, key) + WithKey(t, k, key)
  {
    if s != [] {
      assert (s + t)[1..] == s[1..] + t;
      WithKeyAppend(s[1..], t, k, key);
    } else {
      assert s + t == t;
    }
  }

  lemma {:induction false} CountAtLeastAppend<T>(s: seq<T>, t: seq<T>, k: int, key: T -> int)
    ensures CountAtLeast(s + t, k, key) == CountAtLeast(s, k, key) + CountAtLeast(t, k, key)
  {
    if s != [] {
      assert (s + t)[1..] == s[1..] + t;
      CountAtLeastAppend(s[1..], t, k, key);
    } else {
      assert s + t == t;
    }
  }

  lemma {:induction false} InsertSorted<T>(s: seq<T>, x: T, key: T -> int)
    requires SortedDesc(s, key)
    ensures SortedDesc(Insert(s, x, key), key)
  {
    if s != [] && key(s[0]) >= key(x) {
      InsertSorted(s[1..], x, key);
      InsertPerm(s[1..], x, key);
      var r := Insert(s, x, key);
      var t := Insert(s[1..], x, key);
      assert r == [s[0]] + t;
      forall j | 0 < j < |r| ensures key(r[0]) >= key(r[j]) {
        assert r[j] == t[j - 1];
        assert r[j] in multiset(t);
        assert r[j] in multiset(s[1..]) || r[j] == x;
        if r[j] != x {
          var m :| 0 <= m < |s[1..]| && s[1..][m] == r[j];
          assert s[m + 1] == r[j];
        }
      }
    }
  }

  /** The sort result is in non-increasing key order. */
  lemma {:induction false} SortDescSorted<T>(s: seq<T>, key: T -> int)
    ensures SortedDesc(SortDesc(s, key), key)
  {
    if s != [] {
      SortDescSorted(s[..|s| - 1], key);
      InsertSorted(SortDesc(s[..|s| - 1], key), s[|s| - 1], key);
    }
  }

  /** In a sorted list, x lands right after the elements whose key is at least key(x). */
  lemma {:induction false} InsertPosition<T>(s: seq<T>, x: T, key: T -> int)
    requires SortedDesc(s, key)
    ensures var p := CountAtLeast(s, key(x), key);
      p <= |s| && Insert(s, x, key) == s[..p] + [x] + s[p..]
  {
    if s == [] {
    } else if key(s[0]) >= key(x) {
      SortedTail(s, key);
      InsertPosition(s[1..], x, key);
      var p := CountAtLeast(s[1..], key(x), key);
      assert CountAtLeast(s, key(x), key) == p + 1;
      var t := s[1..];
      calc {
        Insert(s, x, key);
        [s[0]] + Insert(t, x, key);
        [s[0]] + (t[..p] + [x] + t[p..]);
        { assert [s[0]] + t[..p] == s[..p + 1]; assert t[p..] == s[p + 1..]; }
        s[..p + 1] + [x] + s[p + 1..];
      }
    } else {
      assert CountAtLeast(s, key(x), key) == 0 by { CountNoneAtLeast(s, key(x), key); }
    }
  }

  lemma SortedTail<T>(s: seq<T>, key: T -> int)
    requires SortedDesc(s, key) && s != []
    ensures SortedDesc(s[1..], key)
  {
    forall i, j | 0 <= i < j < |s| - 1
      ensures key(s[1..][i]) >= key(s[1..][j])
    {
      assert s[1..][i] == s[i + 1] && s[1..][j] == s[j + 1];
    }
  }

  lemma {:induction false} CountNoneAtLeast<T>(s: seq<T>, k: int, key: T -> int)
    requires SortedDesc(s, key)
    requires s != [] && key(s[0]) < k
    ensures CountAtLeast(s, k, key) == 0
  {
    if |s| > 1 {
      assert key(s[1..][0]) <= key(s[0]);
      CountNoneAtLeast(s[1..], k, key);
    }
  }

  /** In a sorted list, every element with key k lies before x when key(x) == k. */
  lemma {:induction false} InsertWithKey<T>(s: seq<T>, x: T, k: int, key: T -> int)
    requires SortedDesc(s, key)
    ensures WithKey(Insert(s, x, key), k, key) == WithKey(s, k, key) + (if key(x) == k then [x] else [])
  {
    if s == [] {
      assert WithKey([x], k, key) == (if key(x) == k then [x] else []) + WithKey([], k, key);
    } else if key(s[0]) >= key(x) {
      InsertWithKey(s[1..], x, k, key);
      InsertWithKeyBehind(s, x, k, key);
    } else {
      InsertWithKeyFront(s, x, k, key);
    }
  }

  /** x goes behind s[0]: the rest follows from the insertion into s[1..]. */
  lemma InsertWithKeyBehind<T>(s: seq<T>, x: T, k: int, key: T -> int)
    requires s != [] && key(s[0]) >= key(x)
    requires WithKey(Insert(s[1..], x, key), k, key) == WithKey(s[1..], k, key) + (if key(x) == k then [x] else [])
    ensures WithKey(Insert(s, x, key), k, key) == WithKey(s, k, key) + (if key(x) == k then [x] else [])
  {
    var t := Insert(s[1..], x, key);
    var head := if key(s[0]) == k then [s[0]] else [];
    var tail := if key(x) == k then [x] else [];
    assert ([s[0]] + t)[1..] == t;
    calc {
      WithKey(Insert(s, x, key), k, key);
      head + WithKey(t, k, key);
      head + (WithKey(s[1..], k, key) + tail);
      (head + WithKey(s[1..], k, key)) + tail;
      WithKey(s, k, key) + tail;
    }
  }

  /** x goes first: no element of s has a key as large as key(x). */
  lemma InsertWithKeyFront<T>(s: seq<T>, x: T, k: int, key: T -> int)
    requires SortedDesc(s, key)
    requires s != [] && key(s[0]) < key(x)
    ensures WithKey(Insert(s, x, key), k, key) == WithKey(s, k, key) + (if key(x) == k then [x] else [])
  {
    assert ([x] + s)[1..] == s;
    if key(x) == k {
      WithKeyNone(s, k, key);
    }
  }

  lemma WithKeyLast<T>(s: seq<T>, x: T, k: int, key: T -> int)
    ensures WithKey(s + [x], k, key) == WithKey(s, k, key) + (if key(x) == k then [x] else [])
  {
    WithKeyAppend(s, [x], k, key);
    assert WithKey([x], k, key) == (if key(x) == k then [x] else []) + WithKey([], k, key);
  }

  lemma {:induction false} WithKeyNone<T>(s: seq<T>, k: int, key: T -> int)
    requires SortedDesc(s, key)
    requires s != [] && key(s[0]) < k
    ensures WithKey(s, k, key) == []
  {
    if |s| > 1 {
      assert key(s[1..][0]) <= key(s[0]);
      WithKeyNone(s[1..], k, key);
    }
  }

  /** Stability: the elements sharing one key keep their order. */
  lemma {:induction false} SortDescStable<T>(s: seq<T>, k: int, key: T -> int)
    ensures WithKey(SortDesc(s, key), k, key) == WithKey(s, k, key)
  {
    if s != [] {
      var init, last := s[..|s| - 1], s[|s| - 1];
      var tail := if key(last) == k then [last] else [];
      calc {
        WithKey(SortDesc(s, key), k, key);
        WithKey(Insert(SortDesc(init, key), last, key), k, key);
        { SortDescSorted(init, key); InsertWithKey(SortDesc(init, key), last, k, key); }
        WithKey(SortDesc(init, key), k, key) + tail;
        { SortDescStable(init, k, key); }
        WithKey(init, k, key) + tail;
        { WithKeyLast(init, last, k, key); assert s == init + [last]; }
        WithKey(s, k, key);
      }
    }
  }

  /** Counting elements at or above a key does not depend on their order. */
  lemma {:induction false} CountAtLeastInsert<T>(s: seq<T>, x: T, k: int, key: T -> int)
    ensures CountAtLeast(Insert(s, x, key), k, key) == CountAtLeast(s, k, key) + (if key(x) >= k then 1 else 0)
  {
    if s != [] && key(s[0]) >= key(x) {
      CountAtLeastInsert(s[1..], x, k, key);
      assert ([s[0]] + Insert(s[1..], x, key))[1..] == Insert(s[1..], x, key);
    } else if s != [] {
      assert ([x] + s)[1..] == s;
    }
  }

  lemma {:induction false} CountAtLeastSort<T>(s: seq<T>, k: int, key: T -> int)
    ensures CountAtLeast(SortDesc(s, key), k, key) == CountAtLeast(s, k, key)
  {
    if s != [] {
      var init, last := s[..|s| - 1], s[|s| - 1];
      CountAtLeastSort(init, k, key);
      CountAtLeastInsert(SortDesc(init, key), last, k, key);
      assert s == init + [last];
      CountAtLeastAppend(init, [last], k, key);
      assert CountAtLeast([last], k, key) == (if key(last) >= k then 1 else 0) + CountAtLeast([], k, key);
    }
  }

  /**
   * Sorting a list with one element appended: the new element lands right
   * after every earlier element whose key is at least its own.
   */
  lemma AppendedPosition<T>(s: seq<T>, x: T, key: T -> int)
    ensures var p := CountAtLeast(s, key(x), key);
      p <= |s| && SortDesc(s + [x], key) == SortDesc(s, key)[..p] + [x] + SortDesc(s, key)[p..]
  {
    assert (s + [x])[..|s|] == s;
    SortDescSorted(s, key);
    CountAtLeastSort(s, key(x), key);
    InsertPosition(SortDesc(s, key), x, key);
  }

  lemma {:induction false} CountAllAtLeast<T>(s: seq<T>, k: int, key: T -> int)
    requires forall i :: 0 <= i < |s| ==> key(s[i]) >= k
    ensures CountAtLeast(s, k, key) == |s|
  {
    if s != [] {
      CountAllAtLeast(s[1..], k, key);
    }
  }

  /** Sorting a list already in non-increasing key order leaves it as it is. */
  lemma {:induction false} SortDescSortedId<T>(s: seq<T>, key: T -> int)
    requires SortedDesc(s, key)
    ensures SortDesc(s, key) == s
  {
    if s != [] {
      var init, last := s[..|s| - 1], s[|s| - 1];
      SortDescSortedId(init, key);
      InsertPosition(init, last, key);
      CountAllAtLeast(init, key(last), key);
      assert s == init + [last];
    }
  }
}
