/** Values and text primitives shared by every component: the JavaScript
    string operations the chat pipelines are built from (`includes`, `trim`,
    `toLowerCase`, `split` on one character, `join`, `substring`, template
    numbers and `parseInt`), written out over `seq<char>`. */
module Common {

  datatype Option<T> = None | Some(value: T) {
    function GetOr(default: T): T {
      if Some? then value else default
    }
  }

  /** A computation that either yields a value or throws an `Error` with a message. */
  datatype Result<T> = Ok(value: T) | Err(error: string)

  // ------------------------------------------------------------------
  // Characters

  /** The characters JavaScript's `trim()` and the regex class `\s` treat as white space. */
  predicate IsSpace(c: char) {
    || c == ' ' || c == '\t' || c == '\n' || c == '\r' || c == '\U{B}' || c == '\U{C}'
    || c == '\U{A0}' || c == '\U{1680}' || ('\U{2000}' <= c <= '\U{200A}')
    || c == '\U{2028}' || c == '\U{2029}' || c == '\U{202F}' || c == '\U{205F}'
    || c == '\U{3000}' || c == '\U{FEFF}'
  }

  predicate IsDigit(c: char) {
    '0' <= c <= '9'
  }

  function LowerChar(c: char): char {
    if 'A' <= c <= 'Z' then (c as int + 32) as char else c
  }

  /** `toLowerCase()`, on the ASCII letters. */
  function Lower(s: string): string {
    seq(|s|, i requires 0 <= i < |s| => LowerChar(s[i]))
  }

  // ------------------------------------------------------------------
  // Substring search: `s.includes(sub)`

  predicate IsPrefix(p: string, s: string) {
    |p| <= |s| && s[..|p|] == p
  }

  /** `s.endsWith(suffix)` */
  predicate EndsWith(s: string, suffix: string) {
    |suffix| <= |s| && s[|s| - |suffix|..] == suffix
  }

  predicate OccursAt(s: string, sub: string, i: int) {
    0 <= i && i + |sub| <= |s| && s[i..i + |sub|] == sub
  }

  /** `s.includes(sub)`; every string includes the empty string. */
  predicate Contains(s: string, sub: string)
    decreases |s|
  {
    IsPrefix(sub, s) || (|s| > 0 && Contains(s[1..], sub))
  }

  lemma {:induction false} ContainsIffOccurs(s: string, sub: string)
    ensures Contains(s, sub) <==> exists i :: OccursAt(s, sub, i)
    decreases |s|
  {
    if IsPrefix(sub, s) {
      assert OccursAt(s, sub, 0);
    } else if |s| > 0 {
      ContainsIffOccurs(s[1..], sub);
      if Contains(s[1..], sub) {
        var i :| OccursAt(s[1..], sub, i);
        assert s[1..][i..i + |sub|] == s[i + 1..i + 1 + |sub|];
        assert OccursAt(s, sub, i + 1);
      }
      if exists i :: OccursAt(s, sub, i) {
        var i :| OccursAt(s, sub, i);
        assert i != 0;
        assert s[1..][i - 1..i - 1 + |sub|] == s[i..i + |sub|];
        assert OccursAt(s[1..], sub, i - 1);
      }
    }
  }

  lemma OccursContains(s: string, sub: string, i: int)
    requires OccursAt(s, sub, i)
    ensures Contains(s, sub)
  {
    ContainsIffOccurs(s, sub);
  }

  lemma ContainsConcat(a: string, b: string, sub: string)
    requires Contains(a, sub) || Contains(b, sub)
    ensures Contains(a + b, sub)
  {
    ContainsIffOccurs(a, sub);
    ContainsIffOccurs(b, sub);
    if Contains(a, sub) {
      var i :| OccursAt(a, sub, i);
      assert (a + b)[i..i + |sub|] == a[i..i + |sub|];
      OccursContains(a + b, sub, i);
    } else {
      var i :| OccursAt(b, sub, i);
      assert (a + b)[|a| + i..|a| + i + |sub|] == b[i..i + |sub|];
      OccursContains(a + b, sub, |a| + i);
    }
  }

  /** `includes` is transitive: a string that includes `t` includes everything `t` includes. */
  lemma ContainsTransitive(s: string, t: string, u: string)
    requires Contains(s, t) && Contains(t, u)
    ensures Contains(s, u)
  {
    ContainsIffOccurs(s, t);
    ContainsIffOccurs(t, u);
    var i :| OccursAt(s, t, i);
    var j :| OccursAt(t, u, j);
    forall k | 0 <= k < |u| ensures s[i + j + k] == u[k] {
      assert t[j..j + |u|][k] == u[k];
      assert s[i..i + |t|][j + k] == t[j + k];
    }
    assert s[i + j..i + j + |u|] == u;
    OccursContains(s, u, i + j);
  }

  /** A text ends with whatever it was finished with. */
  lemma EndsWithConcat(a: string, b: string, suffix: string)
    requires EndsWith(b, suffix)
    ensures EndsWith(a + b, suffix)
  {
    assert (a + b)[|a + b| - |suffix|..] == b[|b| - |suffix|..];
  }

  lemma ContainsItself(s: string)
    ensures Contains(s, s)
  {
    assert OccursAt(s, s, 0);
    OccursContains(s, s, 0);
  }

  /** `keys.some(k => s.includes(k))` */
  predicate ContainsAny(s: string, keys: seq<string>) {
    exists k {:trigger Contains(s, keys[k])} :: 0 <= k < |keys| && Contains(s, keys[k])
  }

  /** Concatenation regroups freely; the scanners use it to push onto a list
      that already extends `start`. */
  lemma AppendAssoc<T>(start: seq<T>, xs: seq<T>, ys: seq<T>)
    ensures start + xs + ys == start + (xs + ys)
  {
  }

  // ------------------------------------------------------------------
  // Trimming: `trim()`

  function TrimStart(s: string): string {
    if |s| > 0 && IsSpace(s[0]) then TrimStart(s[1..]) else s
  }

  function TrimEnd(s: string): string {
    if |s| > 0 && IsSpace(s[|s| - 1]) then TrimEnd(s[..|s| - 1]) else s
  }

  /** `s.trim()`. Its properties are in `TrimSpec`, to be called where needed. */
  function Trim(s: string): string {
    TrimEnd(TrimStart(s))
  }

  lemma {:induction false} TrimStartSpec(s: string)
    ensures var r := TrimStart(s);
            && |r| <= |s| && r == s[|s| - |r|..]
            && (r == [] || !IsSpace(r[0]))
            && forall i :: 0 <= i < |s| - |r| ==> IsSpace(s[i])
    decreases |s|
  {
    if |s| > 0 && IsSpace(s[0]) {
      TrimStartSpec(s[1..]);
    }
  }

  lemma {:induction false} TrimEndSpec(s: string)
    ensures var r := TrimEnd(s);
            && |r| <= |s| && r == s[..|r|]
            && (r == [] || !IsSpace(r[|r| - 1]))
            && forall i :: |r| <= i < |s| ==> IsSpace(s[i])
    decreases |s|
  {
    if |s| > 0 && IsSpace(s[|s| - 1]) {
      TrimEndSpec(s[..|s| - 1]);
    }
  }

  /** `trim()` removes white space at both ends and nothing else: the result
      starts and ends with a non-space, and it is empty exactly when the
      whole string is white space. */
  lemma TrimSpec(s: string)
    ensures |Trim(s)| <= |s|
    ensures exists a, b :: 0 <= a <= b <= |s| && Trim(s) == s[a..b]
                           && forall i :: 0 <= i < |s| && (i < a || b <= i) ==> IsSpace(s[i])
    ensures Trim(s) == [] || (!IsSpace(Trim(s)[0]) && !IsSpace(Trim(s)[|Trim(s)| - 1]))
    ensures Trim(s) == [] <==> forall i :: 0 <= i < |s| ==> IsSpace(s[i])
  {
    var t := TrimStart(s);
    TrimStartSpec(s);
    TrimEndSpec(t);
    var r := TrimEnd(t);
    assert r != [] ==> r[0] == t[0];
    assert r == [] ==> t == [];
    if r == [] {
      assert |s| - |t| == |s|;
    }
    var a, b := |s| - |t|, |s| - |t| + |r|;
    assert t == s[a..];
    assert r == s[a..b];
    assert forall i :: 0 <= i < |s| && (i < a || b <= i) ==> IsSpace(s[i]) by {
      forall i | 0 <= i < |s| && b <= i
        ensures IsSpace(s[i])
      {
        assert s[i] == t[i - a];
      }
    }
  }

  /** A JavaScript string `s` with `!s.trim()`. */
  predicate IsBlank(s: string) {
    Trim(s) == ""
  }

  // ------------------------------------------------------------------
  // Sequences

  /** `s.substring(0, n)` / `xs.slice(0, n)` */
  function Take<T>(xs: seq<T>, n: nat): (r: seq<T>)
    ensures |r| <= n && |r| <= |xs|
    ensures r == xs[..|r|]
    ensures |xs| <= n ==> r == xs
  {
    if |xs| <= n then xs else xs[..n]
  }

  /** `xs.slice(from, to)` for non-negative bounds: both are clamped to the
      length, and the slice is empty when `to` does not exceed `from`. */
  function Slice<T>(xs: seq<T>, from: nat, to: nat): (r: seq<T>)
    ensures from <= to <= |xs| ==> r == xs[from..to]
    ensures |xs| <= from ==> r == []
    ensures from <= |xs| <= to ==> r == xs[from..]
  {
    var a := if from < |xs| then from else |xs|;
    var b := if to < |xs| then to else |xs|;
    if a <= b then xs[a..b] else []
  }

  /** `xs.map(f)` */
  function MapSeq<A, B>(f: A -> B, xs: seq<A>): (r: seq<B>)
    ensures |r| == |xs|
    ensures forall i :: 0 <= i < |xs| ==> r[i] == f(xs[i])
  {
    seq(|xs|, i requires 0 <= i < |xs| => f(xs[i]))
  }

  lemma MapSeqSnoc<A, B>(f: A -> B, xs: seq<A>, x: A)
    ensures MapSeq(f, xs + [x]) == MapSeq(f, xs) + [f(x)]
  {
  }

  /** `xs.filter(p)`. Its properties are in `FilterSpec`, to be called where needed. */
  function Filter<T>(p: T -> bool, xs: seq<T>): seq<T>
    decreases |xs|
  {
    if xs == [] then []
    else
      var rest := Filter(p, xs[..|xs| - 1]);
      if p(xs[|xs| - 1]) then rest + [xs[|xs| - 1]] else rest
  }

  /** The filter keeps exactly the elements satisfying `p`. */
  lemma {:induction false} FilterSpec<T(!new)>(p: T -> bool, xs: seq<T>)
    ensures |Filter(p, xs)| <= |xs|
    ensures forall x :: x in Filter(p, xs) <==> x in xs && p(x)
    decreases |xs|
  {
    if xs != [] {
      FilterSpec(p, xs[..|xs| - 1]);
      assert forall x :: x in xs <==> x in xs[..|xs| - 1] || x == xs[|xs| - 1];
    }
  }

  /** The positions of the elements `xs.filter(p)` keeps. */
  function FilterPositions<T>(p: T -> bool, xs: seq<T>): seq<nat>
    decreases |xs|
  {
    if xs == [] then []
    else
      var rest := FilterPositions(p, xs[..|xs| - 1]);
      if p(xs[|xs| - 1]) then rest + [|xs| - 1] else rest
  }

  /** The filter keeps the elements satisfying `p` in their order: its
      k-th element stands at the k-th of the strictly increasing positions,
      and these are exactly the positions whose element satisfies `p`. */
  lemma {:induction false} FilterInOrder<T>(p: T -> bool, xs: seq<T>)
    ensures var ix := FilterPositions(p, xs);
            && |Filter(p, xs)| == |ix|
            && (forall k :: 0 <= k < |ix| ==> ix[k] < |xs| && Filter(p, xs)[k] == xs[ix[k]])
            && (forall k, l :: 0 <= k < l < |ix| ==> ix[k] < ix[l])
            && (forall j :: 0 <= j < |xs| ==> (p(xs[j]) <==> j in ix))
    decreases |xs|
  {
    if xs != [] {
      var init := xs[..|xs| - 1];
      FilterInOrder(p, init);
      assert forall j :: 0 <= j < |init| ==> init[j] == xs[j];
    }
  }

  lemma FilterAppend<T(!new)>(p: T -> bool, xs: seq<T>, x: T)
    ensures Filter(p, xs + [x]) == Filter(p, xs) + (if p(x) then [x] else [])
  {
    assert (xs + [x])[..|xs|] == xs;
  }

  /** `xs.filter(p).map(f)` holds the images of exactly the kept elements. */
  lemma {:induction false} MapFilterMembers<A(!new), B>(f: A -> B, p: A -> bool, xs: seq<A>, y: B)
    ensures y in MapSeq(f, Filter(p, xs)) <==> exists k :: 0 <= k < |xs| && p(xs[k]) && f(xs[k]) == y
    decreases |xs|
  {
    if xs != [] {
      var init, last := xs[..|xs| - 1], xs[|xs| - 1];
      assert xs == init + [last];
      MapFilterMembers(f, p, init, y);
      FilterAppend(p, init, last);
      if p(last) {
        MapSeqSnoc(f, Filter(p, init), last);
      }
      if exists k :: 0 <= k < |xs| && p(xs[k]) && f(xs[k]) == y {
        var k :| 0 <= k < |xs| && p(xs[k]) && f(xs[k]) == y;
        if k < |init| {
          assert init[k] == xs[k];
        }
      }
      if exists k :: 0 <= k < |init| && p(init[k]) && f(init[k]) == y {
        var k :| 0 <= k < |init| && p(init[k]) && f(init[k]) == y;
        assert xs[k] == init[k];
      }
    }
  }

  predicate NoDuplicates<T(==)>(xs: seq<T>) {
    forall i, j :: 0 <= i < j < |xs| ==> xs[i] != xs[j]
  }

  lemma {:induction false} FilterNoDuplicates<T(!new)>(p: T -> bool, xs: seq<T>)
    requires NoDuplicates(xs)
    ensures NoDuplicates(Filter(p, xs))
    decreases |xs|
  {
    if xs != [] {
      var init := xs[..|xs| - 1];
      FilterNoDuplicates(p, init);
      FilterSpec(p, init);
      assert xs[|xs| - 1] !in init;
    }
  }

  /** `[...new Set(xs)]`: the elements of `xs`, each once, where it first
      occurs. Its properties are in `DedupSpec`. */
  function Dedup<T(==)>(xs: seq<T>): seq<T>
    decreases |xs|
  {
    if xs == [] then []
    else
      var rest := Dedup(xs[..|xs| - 1]);
      var x := xs[|xs| - 1];
      if x in rest then rest else rest + [x]
  }

  /** The result holds no repeats and the same elements as the input. */
  lemma {:induction false} DedupSpec<T(!new)>(xs: seq<T>)
    ensures NoDuplicates(Dedup(xs))
    ensures forall x :: x in Dedup(xs) <==> x in xs
    decreases |xs|
  {
    if xs != [] {
      DedupSpec(xs[..|xs| - 1]);
      assert forall y :: y in xs <==> y in xs[..|xs| - 1] || y == xs[|xs| - 1];
    }
  }

  /** A list without repeats is its own set. */
  lemma {:induction false} DedupOfDistinct<T(!new)>(xs: seq<T>)
    requires NoDuplicates(xs)
    ensures Dedup(xs) == xs
    decreases |xs|
  {
    if xs != [] {
      var init := xs[..|xs| - 1];
      DedupOfDistinct(init);
      DedupSpec(init);
      assert xs[|xs| - 1] !in init;
    }
  }

  /** Appending elements that were already there changes nothing. */
  lemma {:induction false} DedupAbsorbs<T(!new)>(xs: seq<T>, ys: seq<T>)
    requires forall y :: y in ys ==> y in xs
    ensures Dedup(xs + ys) == Dedup(xs)
    decreases |ys|
  {
    if ys != [] {
      var init := ys[..|ys| - 1];
      var y := ys[|ys| - 1];
      assert (xs + ys)[..|xs + ys| - 1] == xs + init;
      assert (xs + ys)[|xs + ys| - 1] == y;
      DedupAbsorbs(xs, init);
      DedupSpec(xs + init);
      assert y in xs + init;
    } else {
      assert xs + ys == xs;
    }
  }

  /** Later elements never reorder what an earlier prefix kept: the kept
      elements stand in the order of their first occurrences. */
  lemma {:induction false} DedupPrefix<T(!new)>(xs: seq<T>, k: nat)
    requires k <= |xs|
    ensures IsPrefixOf(Dedup(xs[..k]), Dedup(xs))
    decreases |xs|
  {
    if k < |xs| {
      var init := xs[..|xs| - 1];
      assert init[..k] == xs[..k];
      DedupPrefix(init, k);
    } else {
      assert xs[..k] == xs;
    }
  }

  predicate IsPrefixOf<T(==)>(p: seq<T>, xs: seq<T>) {
    |p| <= |xs| && xs[..|p|] == p
  }

  /** The text a loop `xs.forEach((x, index) => s += item(index, x))` appends to `s`. */
  function Enumerate<T>(xs: seq<T>, item: (nat, T) -> string): string
    decreases |xs|
  {
    if xs == [] then "" else Enumerate(xs[..|xs| - 1], item) + item(|xs| - 1, xs[|xs| - 1])
  }

  lemma EnumerateStep<T>(xs: seq<T>, i: nat, item: (nat, T) -> string)
    requires i < |xs|
    ensures Enumerate(xs[..i + 1], item) == Enumerate(xs[..i], item) + item(i, xs[i])
  {
    assert xs[..i + 1][..i] == xs[..i];
  }

  /** Every appended item shows up in the text. */
  lemma {:induction false} EnumerateContains<T>(xs: seq<T>, item: (nat, T) -> string, k: nat)
    requires k < |xs|
    ensures Contains(Enumerate(xs, item), item(k, xs[k]))
    decreases |xs|
  {
    var n := |xs| - 1;
    var prefix := Enumerate(xs[..n], item);
    if k == n {
      ContainsItself(item(k, xs[k]));
      ContainsConcat(prefix, item(n, xs[n]), item(k, xs[k]));
    } else {
      EnumerateContains(xs[..n], item, k);
      assert xs[..n][k] == xs[k];
      ContainsConcat(prefix, item(n, xs[n]), item(k, xs[k]));
    }
  }

  // ------------------------------------------------------------------
  // `xs.join(sep)` and `s.split(c)`

  function Join(xs: seq<string>, sep: string): string
    decreases |xs|
  {
    if |xs| == 0 then ""
    else if |xs| == 1 then xs[0]
    else Join(xs[..|xs| - 1], sep) + sep + xs[|xs| - 1]
  }

  lemma {:induction false} JoinConcat(a: seq<string>, b: seq<string>, sep: string)
    requires |a| > 0 && |b| > 0
    ensures Join(a + b, sep) == Join(a, sep) + sep + Join(b, sep)
    decreases |b|
  {
    if |b| == 1 {
      assert (a + b)[..|a + b| - 1] == a;
    } else {
      var b' := b[..|b| - 1];
      assert (a + b)[..|a + b| - 1] == a + b';
      JoinConcat(a, b', sep);
    }
  }

  /** Every element shows up in the joined text. */
  lemma {:induction false} JoinContains(xs: seq<string>, sep: string, k: nat)
    requires k < |xs|
    ensures Contains(Join(xs, sep), xs[k])
    decreases |xs|
  {
    ContainsItself(xs[k]);
    if |xs| > 1 {
      var n := |xs| - 1;
      var init := Join(xs[..n], sep);
      if k == n {
        ContainsConcat(init + sep, xs[n], xs[k]);
      } else {
        JoinContains(xs[..n], sep, k);
        assert xs[..n][k] == xs[k];
        ContainsConcat(init, sep, xs[k]);
        ContainsConcat(init + sep, xs[n], xs[k]);
      }
    }
  }

  /** `s.split(c)` for a one-character separator: the pieces between the
      occurrences of `c`; an empty string splits into one empty piece. */
  function SplitOn(s: string, c: char): (r: seq<string>)
    ensures |r| >= 1
    ensures forall k :: 0 <= k < |r| ==> c !in r[k]
    decreases |s|
  {
    if s == [] then [""]
    else
      var prev := SplitOn(s[..|s| - 1], c);
      var last := s[|s| - 1];
      if last == c then prev + [""]
      else prev[..|prev| - 1] + [prev[|prev| - 1] + [last]]
  }

  /** Joining the pieces of `s.split(c)` back with `c` gives `s`. */
  lemma {:induction false} SplitJoinRoundTrip(s: string, c: char)
    ensures Join(SplitOn(s, c), [c]) == s
    decreases |s|
  {
    if s != [] {
      var init, last := s[..|s| - 1], s[|s| - 1];
      assert s == init + [last];
      var prev := SplitOn(init, c);
      SplitJoinRoundTrip(init, c);
      var k := |prev| - 1;
      if last == c {
        var r := prev + [""];
        assert r[..|r| - 1] == prev;
        assert Join(r, [c]) == Join(prev, [c]) + [c] + "";
      } else {
        var r := prev[..k] + [prev[k] + [last]];
        assert SplitOn(s, c) == r;
        if k == 0 {
          assert Join(r, [c]) == prev[0] + [last];
        } else {
          assert r[..|r| - 1] == prev[..k];
          assert Join(r, [c]) == Join(prev[..k], [c]) + [c] + (prev[k] + [last]);
          assert Join(prev, [c]) == Join(prev[..k], [c]) + [c] + prev[k];
        }
      }
    }
  }

  /** The longest prefix of `s` whose characters all satisfy `isSep`. */
  function SeparatorRun(s: string, isSep: char -> bool): (n: nat)
    ensures n <= |s|
    ensures forall k :: 0 <= k < n ==> isSep(s[k])
    ensures n < |s| ==> !isSep(s[n])
  {
    if s != [] && isSep(s[0]) then 1 + SeparatorRun(s[1..], isSep) else 0
  }

  /** `s.split(/X{m,}/)` for a character class X (the predicate `isSep`) and
      m = `minRun` >= 1: scanning from the left, every maximal run of class
      characters that starts with at least `minRun` of them separates two
      pieces. `cur` is the piece read so far; call it with `""`. */
  function SplitOnRuns(s: string, isSep: char -> bool, minRun: nat, cur: string): (r: seq<string>)
    requires minRun >= 1
    ensures |r| >= 1
    decreases |s|
  {
    if |s| >= minRun && (forall k :: 0 <= k < minRun ==> isSep(s[k])) then
      [cur] + SplitOnRuns(s[SeparatorRun(s, isSep)..], isSep, minRun, "")
    else if s == [] then [cur]
    else SplitOnRuns(s[1..], isSep, minRun, cur + [s[0]])
  }

  /** With runs of length one (`/[X]+/`), no piece holds a separator character. */
  lemma {:induction false} SplitOnRunsPiecesFree(s: string, isSep: char -> bool, cur: string)
    requires forall k :: 0 <= k < |cur| ==> !isSep(cur[k])
    ensures forall j, k :: 0 <= j < |SplitOnRuns(s, isSep, 1, cur)| && 0 <= k < |SplitOnRuns(s, isSep, 1, cur)[j]|
              ==> !isSep(SplitOnRuns(s, isSep, 1, cur)[j][k])
    decreases |s|
  {
    if |s| >= 1 && isSep(s[0]) {
      SplitOnRunsPiecesFree(s[SeparatorRun(s, isSep)..], isSep, "");
    } else if s != [] {
      SplitOnRunsPiecesFree(s[1..], isSep, cur + [s[0]]);
    }
  }

  // ------------------------------------------------------------------
  // Numbers in templates (`${n}`) and `parseInt`

  function DigitChar(d: nat): char
    requires d < 10
  {
    ('0' as int + d) as char
  }

  /** The decimal numeral JavaScript prints for a non-negative integer. */
  function NatToString(n: nat): (r: string)
    ensures |r| >= 1 && forall i :: 0 <= i < |r| ==> IsDigit(r[i])
  {
    if n < 10 then [DigitChar(n)] else NatToString(n / 10) + [DigitChar(n % 10)]
  }

  function DigitValue(c: char): nat
    requires IsDigit(c)
  {
    c as int - '0' as int
  }

  function DigitsValue(s: string): nat
    requires forall i :: 0 <= i < |s| ==> IsDigit(s[i])
  {
    if s == [] then 0 else 10 * DigitsValue(s[..|s| - 1]) + DigitValue(s[|s| - 1])
  }

  /** The longest prefix of `s` made of decimal digits. */
  function LeadingDigits(s: string): (r: string)
    ensures IsPrefix(r, s)
    ensures forall i :: 0 <= i < |r| ==> IsDigit(r[i])
    ensures |r| < |s| ==> !IsDigit(s[|r|])
  {
    if s != [] && IsDigit(s[0]) then [s[0]] + LeadingDigits(s[1..]) else []
  }

  /** `parseInt(s)` in base ten: leading white space, an optional sign, then the
      longest run of digits; `None` stands for `NaN` (no digit at that point). */
  function ParseInt(s: string): Option<int> {
    var t := TrimStart(s);
    var sign := if t != [] && (t[0] == '-' || t[0] == '+') then t[0] else ' ';
    var body := if sign == ' ' then t else t[1..];
    var digits := LeadingDigits(body);
    if digits == [] then None
    else
      var v: int := DigitsValue(digits);
      if sign == '-' then Some(-v) else Some(v)
  }

  lemma DigitIsNotSpace(c: char)
    requires IsDigit(c)
    ensures !IsSpace(c)
  {
  }

  lemma {:induction false} LeadingDigitsOfDigits(s: string)
    requires forall i :: 0 <= i < |s| ==> IsDigit(s[i])
    ensures LeadingDigits(s) == s
    decreases |s|
  {
    if s != [] {
      LeadingDigitsOfDigits(s[1..]);
    }
  }

  lemma {:induction false} DigitsValueOfNat(n: nat)
    ensures DigitsValue(NatToString(n)) == n
  {
    var r := NatToString(n);
    if n >= 10 {
      DigitsValueOfNat(n / 10);
      assert r[..|r| - 1] == NatToString(n / 10);
    }
  }

  /** `parseInt` reads back every number the templates print. */
  lemma ParseIntOfNatToString(n: nat)
    ensures ParseInt(NatToString(n)) == Some(n)
  {
    var s := NatToString(n);
    LeadingDigitsOfDigits(s);
    DigitsValueOfNat(n);
    DigitIsNotSpace(s[0]);
    assert TrimStart(s) == s;
    assert s[0] != '-' && s[0] != '+';
  }
}
