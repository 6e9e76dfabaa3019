/** Shared helpers: optional values, the list operations the JavaScript code
    uses (filter, find, reduce-to-sum), the string operations it relies on
    (trim, lower-casing, includes, split, join, `<` on strings) and the edge
    cases of JavaScript numbers that division by a zero budget produces. */
module Util {

  datatype Option<T> = None | Some(value: T)

  /** `m || fallback` for an optional text: a missing or empty text is falsy. */
  function OrDefault(m: Option<string>, fallback: string): (r: string)
    ensures m.Some? && m.value != "" ==> r == m.value
    ensures m.None? || m.value == "" ==> r == fallback
  {
    if m.Some? && m.value != "" then m.value else fallback
  }

  /** `x` is present and not the empty string: JavaScript truthiness of an optional text. */
  predicate Truthy(x: Option<string>)
  {
    x.Some? && x.value != ""
  }

  // ---------------------------------------------------------------------
  // Lists

  /** `Array.prototype.filter`: the elements satisfying `p`, in their original order. */
  function Filter<T>(p: T -> bool, s: seq<T>): (r: seq<T>)
    ensures |r| <= |s|
    ensures forall i :: 0 <= i < |r| ==> r[i] in s && p(r[i])
    ensures forall i :: 0 <= i < |s| && p(s[i]) ==> s[i] in r
  {
    if s == [] then []
    else
      var rest := Filter(p, s[1..]);
      assert s == [s[0]] + s[1..];
      if p(s[0]) then [s[0]] + rest else rest
  }

  /** Filtering distributes over concatenation: order is kept, nothing is reordered. */
  lemma {:induction false} FilterAppend<T>(p: T -> bool, s: seq<T>, t: seq<T>)
    ensures Filter(p, s + t) == Filter(p, s) + Filter(p, t)
  {
    if s == [] {
      assert s + t == t;
    } else {
      assert (s + t)[1..] == s[1..] + t;
      FilterAppend(p, s[1..], t);
    }
  }

  /** When every element satisfies `p`, filtering changes nothing. */
  lemma {:induction false} FilterAll<T>(p: T -> bool, s: seq<T>)
    requires forall i :: 0 <= i < |s| ==> p(s[i])
    ensures Filter(p, s) == s
  {
    if s != [] {
      FilterAll(p, s[1..]);
    }
  }

  /** Filtering twice by the same condition is filtering once. */
  lemma FilterIdempotent<T>(p: T -> bool, s: seq<T>)
    ensures Filter(p, Filter(p, s)) == Filter(p, s)
  {
    var r := Filter(p, s);
    FilterAll(p, r);
  }

  /** `Array.prototype.findIndex` / a store's "find one": the first position satisfying `p`. */
  function FirstIndex<T>(p: T -> bool, s: seq<T>): (r: Option<nat>)
    ensures r.Some? ==> r.value < |s| && p(s[r.value]) && forall j :: 0 <= j < r.value ==> !p(s[j])
    ensures r.None? ==> forall j :: 0 <= j < |s| ==> !p(s[j])
  {
    if s == [] then None
    else if p(s[0]) then Some(0)
    else match FirstIndex(p, s[1..])
      case None => None
      case Some(k) => Some(k + 1)
  }

  /** `reduce((sum, x) => sum + w(x), 0)`. */
  function Sum<T>(w: T -> real, s: seq<T>): real
  {
    if s == [] then 0.0 else w(s[0]) + Sum(w, s[1..])
  }

  lemma {:induction false} SumAppend<T>(w: T -> real, s: seq<T>, t: seq<T>)
    ensures Sum(w, s + t) == Sum(w, s) + Sum(w, t)
  {
    if s == [] {
      assert s + t == t;
    } else {
      assert (s + t)[1..] == s[1..] + t;
      SumAppend(w, s[1..], t);
    }
  }

  /** Reordering does not change a sum. */
  lemma {:induction false} SumPermutation<T>(w: T -> real, a: seq<T>, b: seq<T>)
    requires multiset(a) == multiset(b)
    ensures Sum(w, a) == Sum(w, b)
    decreases |a|
  {
    if a == [] {
      assert |b| == |multiset(b)| == 0;
    } else {
      assert a[0] in multiset(b);
      assert a[0] in b;
      var k :| 0 <= k < |b| && b[k] == a[0];
      var rest := b[..k] + b[k + 1..];
      RemoveMatching(a, b, k);
      SumPermutation(w, a[1..], rest);
      SumRemove(w, b, k);
    }
  }

  /** Taking the same element out of two permutations of each other leaves two permutations. */
  lemma RemoveMatching<T>(a: seq<T>, b: seq<T>, k: nat)
    requires multiset(a) == multiset(b) && a != [] && k < |b| && b[k] == a[0]
    ensures multiset(a[1..]) == multiset(b[..k] + b[k + 1..])
  {
    assert a == [a[0]] + a[1..];
    assert multiset(a) == multiset{a[0]} + multiset(a[1..]);
    MultisetRemove(b, k);
  }

  lemma MultisetRemove<T>(s: seq<T>, k: nat)
    requires k < |s|
    ensures multiset(s[..k] + s[k + 1..]) == multiset(s) - multiset{s[k]}
  {
    assert s == s[..k] + [s[k]] + s[k + 1..];
    assert multiset(s) == multiset(s[..k]) + multiset{s[k]} + multiset(s[k + 1..]);
  }

  lemma SumRemove<T>(w: T -> real, s: seq<T>, k: nat)
    requires k < |s|
    ensures Sum(w, s) == w(s[k]) + Sum(w, s[..k] + s[k + 1..])
  {
    assert s == s[..k] + ([s[k]] + s[k + 1..]);
    SumAppend(w, s[..k], [s[k]] + s[k + 1..]);
    SumAppend(w, s[..k], s[k + 1..]);
    assert ([s[k]] + s[k + 1..])[1..] == s[k + 1..];
  }

  /** Total weight of the elements whose key is `k` (one group of a group-by-sum). */
  function SumWhere<T>(key: T -> string, w: T -> real, s: seq<T>, k: string): real
  {
    if s == [] then 0.0 else (if key(s[0]) == k then w(s[0]) else 0.0) + SumWhere(key, w, s[1..], k)
  }

  /** Number of elements whose key is `k` (one group of a group-by-count). */
  function CountWhere<T>(key: T -> string, s: seq<T>, k: string): nat
  {
    if s == [] then 0 else (if key(s[0]) == k then 1 else 0) + CountWhere(key, s[1..], k)
  }

  /** Total weight of the elements whose key is one of `ks`. */
  function SumIn<T>(key: T -> string, w: T -> real, s: seq<T>, ks: seq<string>): real
  {
    if s == [] then 0.0 else (if key(s[0]) in ks then w(s[0]) else 0.0) + SumIn(key, w, s[1..], ks)
  }

  /** The group totals for the keys `ks`, added up. */
  function SumKeys<T>(key: T -> string, w: T -> real, s: seq<T>, ks: seq<string>): real
  {
    if ks == [] then 0.0 else SumWhere(key, w, s, ks[0]) + SumKeys(key, w, s, ks[1..])
  }

  /** The group counts for the keys `ks`, added up. */
  function CountKeys<T>(key: T -> string, s: seq<T>, ks: seq<string>): nat
  {
    if ks == [] then 0 else CountWhere(key, s, ks[0]) + CountKeys(key, s, ks[1..])
  }

  /** The distinct keys of `s`, in order of first occurrence. */
  function KeysOf<T>(key: T -> string, s: seq<T>): (ks: seq<string>)
    ensures Distinct(ks)
    ensures forall k :: k in ks <==> exists i :: 0 <= i < |s| && key(s[i]) == k
    decreases |s|
  {
    if s == [] then []
    else
      var ks := KeysOf(key, s[..|s| - 1]);
      var c := key(s[|s| - 1]);
      assert forall i :: 0 <= i < |s| - 1 ==> s[..|s| - 1][i] == s[i];
      if c in ks then ks else ks + [c]
  }

  /** The per-key totals over the keys that occur add up to the total. */
  lemma KeysPartition<T>(key: T -> string, w: T -> real, s: seq<T>)
    ensures SumKeys(key, w, s, KeysOf(key, s)) == Sum(w, s)
  {
    var ks := KeysOf(key, s);
    forall i | 0 <= i < |s| ensures key(s[i]) in ks {
    }
    PartitionSum(key, w, s, ks);
    SumInAll(key, w, s, ks);
  }

  ghost predicate Distinct<T>(s: seq<T>) {
    forall i, j :: 0 <= i < j < |s| ==> s[i] != s[j]
  }

  /** How much `v` contributes when it is credited to every key of `ks` equal to `c`. */
  function Hits(ks: seq<string>, c: string, v: real): real
  {
    if ks == [] then 0.0 else (if ks[0] == c then v else 0.0) + Hits(ks[1..], c, v)
  }

  lemma {:induction false} HitsDistinct(ks: seq<string>, c: string, v: real)
    requires Distinct(ks)
    ensures Hits(ks, c, v) == if c in ks then v else 0.0
  {
    if ks != [] {
      HitsDistinct(ks[1..], c, v);
      assert ks[0] == c ==> c !in ks[1..];
    }
  }

  function CountHits(ks: seq<string>, c: string): nat
  {
    if ks == [] then 0 else (if ks[0] == c then 1 else 0) + CountHits(ks[1..], c)
  }

  lemma {:induction false} CountHitsDistinct(ks: seq<string>, c: string)
    requires Distinct(ks)
    ensures CountHits(ks, c) == if c in ks then 1 else 0
  {
    if ks != [] {
      CountHitsDistinct(ks[1..], c);
      assert ks[0] == c ==> c !in ks[1..];
    }
  }

  lemma {:induction false} SumKeysCons<T>(key: T -> string, w: T -> real, s: seq<T>, ks: seq<string>)
    requires s != []
    ensures SumKeys(key, w, s, ks) == Hits(ks, key(s[0]), w(s[0])) + SumKeys(key, w, s[1..], ks)
  {
    if ks != [] {
      SumKeysCons(key, w, s, ks[1..]);
    }
  }

  lemma {:induction false} CountKeysCons<T>(key: T -> string, s: seq<T>, ks: seq<string>)
    requires s != []
    ensures CountKeys(key, s, ks) == CountHits(ks, key(s[0])) + CountKeys(key, s[1..], ks)
  {
    if ks != [] {
      CountKeysCons(key, s, ks[1..]);
    }
  }

  /** Adding up the groups of distinct keys gives the weight of everything keyed by one of them. */
  lemma {:induction false} PartitionSum<T>(key: T -> string, w: T -> real, s: seq<T>, ks: seq<string>)
    requires Distinct(ks)
    ensures SumKeys(key, w, s, ks) == SumIn(key, w, s, ks)
  {
    if s == [] {
      SumKeysOfEmpty(key, w, ks);
    } else {
      SumKeysCons(key, w, s, ks);
      HitsDistinct(ks, key(s[0]), w(s[0]));
      PartitionSum(key, w, s[1..], ks);
    }
  }

  lemma {:induction false} SumKeysOfEmpty<T>(key: T -> string, w: T -> real, ks: seq<string>)
    ensures SumKeys(key, w, [], ks) == 0.0
  {
    if ks != [] {
      SumKeysOfEmpty(key, w, ks[1..]);
    }
  }

  lemma {:induction false} CountKeysOfEmpty<T>(key: T -> string, ks: seq<string>)
    ensures CountKeys(key, [], ks) == 0
  {
    if ks != [] {
      CountKeysOfEmpty(key, ks[1..]);
    }
  }

  /** When every key is among `ks`, the weight keyed by one of them is the whole sum. */
  lemma {:induction false} SumInAll<T>(key: T -> string, w: T -> real, s: seq<T>, ks: seq<string>)
    requires forall i :: 0 <= i < |s| ==> key(s[i]) in ks
    ensures SumIn(key, w, s, ks) == Sum(w, s)
  {
    if s != [] {
      SumInAll(key, w, s[1..], ks);
    }
  }

  /** Group counts over distinct keys that cover every element add up to the number of elements. */
  lemma {:induction false} PartitionCount<T>(key: T -> string, s: seq<T>, ks: seq<string>)
    requires Distinct(ks)
    requires forall i :: 0 <= i < |s| ==> key(s[i]) in ks
    ensures CountKeys(key, s, ks) == |s|
  {
    if s == [] {
      CountKeysOfEmpty(key, ks);
    } else {
      CountKeysCons(key, s, ks);
      CountHitsDistinct(ks, key(s[0]));
      PartitionCount(key, s[1..], ks);
    }
  }

  /** A key no element carries has an empty group. */
  lemma {:induction false} SumWhereAbsent<T>(key: T -> string, w: T -> real, s: seq<T>, k: string)
    requires forall i :: 0 <= i < |s| ==> key(s[i]) != k
    ensures SumWhere(key, w, s, k) == 0.0 && CountWhere(key, s, k) == 0
  {
    if s != [] {
      SumWhereAbsent(key, w, s[1..], k);
    }
  }

  lemma {:induction false} SumWhereAppend<T>(key: T -> string, w: T -> real, s: seq<T>, x: T, k: string)
    ensures SumWhere(key, w, s + [x], k) == SumWhere(key, w, s, k) + (if key(x) == k then w(x) else 0.0)
  {
    if s == [] {
      assert s + [x] == [x];
    } else {
      assert (s + [x])[1..] == s[1..] + [x];
      SumWhereAppend(key, w, s[1..], x, k);
    }
  }

  // ---------------------------------------------------------------------
  // Strings

  /** The characters JavaScript's `trim` removes and the regular expression class `\s` matches. */
  predicate IsSpace(c: char)
  {
    c == ' ' || c == '\t' || c == '\n' || c == '\r' || c == '\U{000B}' || c == '\U{000C}'
    || c == '\U{00A0}' || c == '\U{1680}' || ('\U{2000}' <= c <= '\U{200A}')
    || c == '\U{2028}' || c == '\U{2029}' || c == '\U{202F}' || c == '\U{205F}'
    || c == '\U{3000}' || c == '\U{FEFF}'
  }

  function TrimStart(s: string): (r: string)
    ensures |r| <= |s| && r == s[|s| - |r|..]
    ensures r == [] || !IsSpace(r[0])
    ensures forall i :: 0 <= i < |s| - |r| ==> IsSpace(s[i])
  {
    if s != [] && IsSpace(s[0]) then TrimStart(s[1..]) else s
  }

  function TrimEnd(s: string): (r: string)
    ensures |r| <= |s| && r == s[..|r|]
    ensures r == [] || !IsSpace(r[|r| - 1])
    ensures forall i :: |r| <= i < |s| ==> IsSpace(s[i])
  {
    if s != [] && IsSpace(s[|s| - 1]) then TrimEnd(s[..|s| - 1]) else s
  }

  /** `String.prototype.trim`. */
  function Trim(s: string): string
  {
    TrimEnd(TrimStart(s))
  }

  /** A string trims to nothing exactly when it is made of whitespace only. */
  lemma TrimEmptyIff(s: string)
    ensures Trim(s) == [] <==> forall i :: 0 <= i < |s| ==> IsSpace(s[i])
  {
    var t := TrimStart(s);
    if Trim(s) == [] {
      assert t == [];
    } else {
      assert t != [] && !IsSpace(t[0]);
      assert s[|s| - |t|] == t[0];
    }
  }

  /** Trimming a trimmed string changes nothing. */
  lemma TrimIdempotent(s: string)
    ensures Trim(Trim(s)) == Trim(s)
  {
    var r := Trim(s);
    assert r == [] || (!IsSpace(r[0]) && !IsSpace(r[|r| - 1])) by {
      var t := TrimStart(s);
      if r != [] {
        assert r[0] == t[0];
      }
    }
    assert TrimStart(r) == r;
  }

  /** A text is left alone by trimming exactly when it has no whitespace at either end. */
  lemma TrimFixedIff(t: string)
    ensures Trim(t) == t <==> t == [] || (!IsSpace(t[0]) && !IsSpace(t[|t| - 1]))
  {
    if t != [] && !IsSpace(t[0]) && !IsSpace(t[|t| - 1]) {
      assert TrimStart(t) == t;
    }
    if Trim(t) == t && t != [] {
      var u := TrimStart(t);
      assert |u| == |t|;
      assert u == t;
    }
  }

  /** `toLowerCase` on the ASCII letters. */
  function LowerChar(c: char): char
  {
    if 'A' <= c <= 'Z' then (c as int + 32) as char else c
  }

  function ToLower(s: string): (r: string)
    ensures |r| == |s|
  {
    seq(|s|, i requires 0 <= i < |s| => LowerChar(s[i]))
  }

  /** Lower-casing twice is lower-casing once. */
  lemma ToLowerIdempotent(s: string)
    ensures ToLower(ToLower(s)) == ToLower(s)
  {
    assert forall i :: 0 <= i < |s| ==> LowerChar(LowerChar(s[i])) == LowerChar(s[i]);
  }

  /** `String.prototype.includes`. */
  predicate Contains(s: string, sub: string)
  {
    exists i :: 0 <= i <= |s| - |sub| && OccursAt(s, sub, i)
  }

  predicate OccursAt(s: string, sub: string, i: int)
  {
    0 <= i <= |s| - |sub| && s[i..i + |sub|] == sub
  }

  /** `String.prototype.startsWith`. */
  predicate StartsWith(s: string, prefix: string)
  {
    |prefix| <= |s| && s[..|prefix|] == prefix
  }

  /** `a < b` on JavaScript strings: lexicographic order of the characters. */
  predicate LexLt(a: string, b: string)
    decreases |a|
  {
    if |a| == 0 then |b| > 0
    else if |b| == 0 then false
    else if a[0] != b[0] then a[0] < b[0]
    else LexLt(a[1..], b[1..])
  }

  /** `a <= b` on JavaScript strings. */
  predicate LexLe(a: string, b: string)
  {
    !LexLt(b, a)
  }

  lemma {:induction false} LexIrreflexive(a: string)
    ensures !LexLt(a, a)
  {
    if |a| > 0 {
      LexIrreflexive(a[1..]);
    }
  }

  lemma {:induction false} LexTransitive(a: string, b: string, c: string)
    requires LexLt(a, b) && LexLt(b, c)
    ensures LexLt(a, c)
    decreases |a|
  {
    if |a| > 0 && |b| > 0 && |c| > 0 && a[0] == b[0] && b[0] == c[0] {
      LexTransitive(a[1..], b[1..], c[1..]);
    }
  }

  lemma {:induction false} LexTotal(a: string, b: string)
    ensures a == b || LexLt(a, b) || LexLt(b, a)
    decreases |a|
  {
    if |a| > 0 && |b| > 0 && a[0] == b[0] {
      LexTotal(a[1..], b[1..]);
      if a[1..] == b[1..] {
        assert a == [a[0]] + a[1..] && b == [b[0]] + b[1..];
      }
    }
  }

  lemma {:induction false} LexAsymmetric(a: string, b: string)
    requires LexLt(a, b)
    ensures !LexLt(b, a)
  {
    if LexLt(b, a) {
      LexTransitive(a, b, a);
      LexIrreflexive(a);
    }
  }

  /** `StrCmp(a, b) <= 0` is `a <= b`. */
  lemma StrCmpLe(a: string, b: string)
    ensures StrCmp(a, b) <= 0 <==> LexLe(a, b)
  {
    if LexLt(a, b) {
      LexAsymmetric(a, b);
    }
  }

  /** A three-way comparison on strings, as a sort comparator returns it. */
  function StrCmp(a: string, b: string): int
  {
    if LexLt(a, b) then -1 else if LexLt(b, a) then 1 else 0
  }

  /** Swapping the arguments of `StrCmp` negates it. */
  lemma StrCmpAntisymmetric()
    ensures forall a, b :: StrCmp(a, b) == -StrCmp(b, a)
  {
    forall a, b ensures StrCmp(a, b) == -StrCmp(b, a) {
      if LexLt(a, b) {
        LexAsymmetric(a, b);
      }
    }
  }

  /** A three-way comparison on numbers. */
  function RealCmp(a: real, b: real): int
  {
    if a < b then -1 else if a > b then 1 else 0
  }

  function IntCmp(a: int, b: int): int
  {
    if a < b then -1 else if a > b then 1 else 0
  }

  /** `StrCmp` orders strings totally: every pair compares one way, and the order is transitive. */
  lemma StrCmpOrder()
    ensures forall a, b :: StrCmp(a, b) <= 0 || StrCmp(b, a) <= 0
    ensures forall a, b, c :: StrCmp(a, b) <= 0 && StrCmp(b, c) <= 0 ==> StrCmp(a, c) <= 0
  {
    forall a, b ensures StrCmp(a, b) <= 0 || StrCmp(b, a) <= 0 {
      if LexLt(b, a) {
        LexAsymmetric(b, a);
      }
    }
    forall a, b, c | StrCmp(a, b) <= 0 && StrCmp(b, c) <= 0 ensures StrCmp(a, c) <= 0 {
      LexTotal(a, b);
      LexTotal(b, c);
      if LexLt(a, b) && LexLt(b, c) {
        LexTransitive(a, b, c);
        LexAsymmetric(a, c);
      } else if LexLt(a, b) {
        assert b == c;
        LexAsymmetric(a, c);
      } else if LexLt(b, c) {
        assert a == b;
        LexAsymmetric(a, c);
      } else {
        assert a == b && b == c;
        LexIrreflexive(a);
      }
    }
  }

  /** `s.split(sep)`. */
  function Split(s: string, sep: char): (r: seq<string>)
    ensures |r| >= 1
  {
    if s == [] then [""]
    else
      var rest := Split(s[1..], sep);
      if s[0] == sep then [""] + rest else [[s[0]] + rest[0]] + rest[1..]
  }

  /** `parts.join(sep)`. */
  function Join(parts: seq<string>, sep: char): string
  {
    if |parts| == 0 then ""
    else if |parts| == 1 then parts[0]
    else parts[0] + [sep] + Join(parts[1..], sep)
  }

  lemma {:induction false} SplitNoSep(a: string, sep: char)
    requires sep !in a
    ensures Split(a, sep) == [a]
  {
    if a != [] {
      SplitNoSep(a[1..], sep);
      assert a == [a[0]] + a[1..];
    }
  }

  lemma {:induction false} SplitAtSep(a: string, sep: char, b: string)
    requires sep !in a
    ensures Split(a + [sep] + b, sep) == [a] + Split(b, sep)
  {
    if a == [] {
      assert a + [sep] + b == [sep] + b;
      assert ([sep] + b)[1..] == b;
    } else {
      assert (a + [sep] + b)[1..] == a[1..] + [sep] + b;
      SplitAtSep(a[1..], sep, b);
      assert a == [a[0]] + a[1..];
    }
  }

  /** Splitting what was joined gives the parts back, provided no part contains the separator. */
  lemma {:induction false} SplitJoin(parts: seq<string>, sep: char)
    requires |parts| >= 1
    requires forall i :: 0 <= i < |parts| ==> sep !in parts[i]
    ensures Split(Join(parts, sep), sep) == parts
  {
    if |parts| == 1 {
      SplitNoSep(parts[0], sep);
    } else {
      SplitJoin(parts[1..], sep);
      SplitAtSep(parts[0], sep, Join(parts[1..], sep));
      assert parts == [parts[0]] + parts[1..];
    }
  }

  /** The separator occurs in a join only where it was put between parts. */
  lemma {:induction false} JoinNoSep(parts: seq<string>, sep: char, c: char)
    requires c != sep
    requires forall i :: 0 <= i < |parts| ==> c !in parts[i]
    ensures c !in Join(parts, sep)
  {
    if |parts| > 1 {
      JoinNoSep(parts[1..], sep, c);
    }
  }

  // ---------------------------------------------------------------------
  // JavaScript numbers

  /** A JavaScript number as far as the modelled arithmetic can produce one. */
  datatype Num = Finite(v: real) | PosInf | NegInf | NaN

  /** `a / b`: division by zero gives an infinity, or NaN for `0 / 0`. */
  function Div(a: real, b: real): (r: Num)
    ensures b != 0.0 ==> r == Finite(a / b)
    ensures b == 0.0 ==> (r == PosInf <==> a > 0.0) && (r == NegInf <==> a < 0.0) && (r == NaN <==> a == 0.0)
  {
    if b != 0.0 then Finite(a / b) else if a > 0.0 then PosInf else if a < 0.0 then NegInf else NaN
  }

  /** `x * k` for a positive constant `k`. */
  function Scale(x: Num, k: real): Num
    requires k > 0.0
  {
    match x
    case Finite(v) => Finite(v * k)
    case _ => x
  }

  /** `(a / b) * 100`. */
  function Percent(a: real, b: real): Num
  {
    Scale(Div(a, b), 100.0)
  }

  /** Multiplying by a positive factor keeps an order, by a negative one reverses it. */
  lemma ScaleOrder(x: real, y: real, a: real)
    ensures a > 0.0 ==> (x >= y <==> x * a >= y * a)
    ensures a < 0.0 ==> (x >= y <==> x * a <= y * a)
  {
    assert (x - y) * a == x * a - y * a;
    if a > 0.0 {
      assert x >= y ==> (x - y) * a >= 0.0;
      assert x < y ==> (x - y) * a < 0.0;
    } else if a < 0.0 {
      assert x >= y ==> (x - y) * a <= 0.0;
      assert x < y ==> (x - y) * a > 0.0;
    }
  }

  /** `spent / amount * 100 >= t`, without the division. */
  lemma PercentAtLeast(spent: real, amount: real, t: real)
    requires amount != 0.0
    ensures amount > 0.0 ==> (spent / amount * 100.0 >= t <==> spent * 100.0 >= t * amount)
    ensures amount < 0.0 ==> (spent / amount * 100.0 >= t <==> spent * 100.0 <= t * amount)
  {
    var q := spent / amount;
    assert q * amount == spent;
    ScaleOrder(q * 100.0, t, amount);
    assert q * 100.0 * amount == spent * 100.0;
  }

  /** `Math.round`: halves go up. */
  function Round(x: Num): (r: Num)
    ensures x.Finite? ==> r.Finite? && r.v - 0.5 <= x.v < r.v + 0.5 && r.v == r.v.Floor as real
    ensures !x.Finite? ==> r == x
  {
    match x
    case Finite(v) => Finite(((v + 0.5).Floor) as real)
    case _ => x
  }

  /** `Math.min(x, y)`: NaN wins over everything. */
  function Min(x: Num, y: real): (r: Num)
    ensures x.Finite? ==> r == Finite(if x.v < y then x.v else y)
    ensures x == PosInf ==> r == Finite(y)
    ensures x == NegInf ==> r == NegInf
    ensures x == NaN ==> r == NaN
  {
    match x
    case Finite(v) => Finite(if v < y then v else y)
    case PosInf => Finite(y)
    case NegInf => NegInf
    case NaN => NaN
  }

  /** `x >= t`; every comparison with NaN is false. */
  predicate AtLeast(x: Num, t: real)
  {
    match x
    case Finite(v) => v >= t
    case PosInf => true
    case NegInf => false
    case NaN => false
  }

  /** `x > t`. */
  predicate GreaterThan(x: Num, t: real)
  {
    match x
    case Finite(v) => v > t
    case PosInf => true
    case NegInf => false
    case NaN => false
  }

  /** `x <= t`. */
  predicate AtMost(x: Num, t: real)
  {
    match x
    case Finite(v) => v <= t
    case PosInf => false
    case NegInf => true
    case NaN => false
  }
}
