/** The handful of Python built-ins the modelled code leans on: slicing with
    negative indices, str.split, str.join, str.replace, str.lower, str.strip,
    str(int) and os.path.basename, each stated once and proved about here. */
module Py {
  import opened Wrappers

  // ---------------------------------------------------------------------------
  // Slicing: s[i:], s[:j] with Python's index normalisation.
  // ---------------------------------------------------------------------------

  /** Python's normalisation of a slice bound against a sequence of length n. */
  function ClampIndex(i: int, n: nat): (k: nat)
    ensures k <= n
    ensures 0 <= i <= n ==> k == i
    ensures i > n ==> k == n
    ensures i < 0 ==> k == (if i + n < 0 then 0 else i + n)
  {
    if i < 0 then (if i + n < 0 then 0 else i + n) else if i > n then n else i
  }

  /** s[i:] */
  function SliceFrom<T>(s: seq<T>, i: int): (r: seq<T>)
    ensures r == s[ClampIndex(i, |s|)..]
  {
    s[ClampIndex(i, |s|)..]
  }

  /** s[:j] */
  function SliceTo<T>(s: seq<T>, j: int): (r: seq<T>)
    ensures r == s[..ClampIndex(j, |s|)]
  {
    s[..ClampIndex(j, |s|)]
  }

  /** s[-0:] is the whole of s, because -0 == 0. */
  lemma SliceFromNegZero<T>(s: seq<T>)
    ensures SliceFrom(s, -0) == s
  {
  }

  /** s[-n:] keeps the last n elements, or all of s when it is shorter. */
  lemma SliceFromNegative<T>(s: seq<T>, n: nat)
    requires n > 0
    ensures |SliceFrom(s, -(n as int))| == (if n <= |s| then n else |s|)
    ensures SliceFrom(s, -(n as int)) == s[|s| - |SliceFrom(s, -(n as int))|..]
  {
  }

  // ---------------------------------------------------------------------------
  // Batches: [s[i:i+n] for i in range(0, len(s), n)] and their concatenation.
  // ---------------------------------------------------------------------------

  /** The concatenation of a list of lists. */
  function Flatten<T>(xss: seq<seq<T>>): seq<T> {
    if xss == [] then [] else xss[0] + Flatten(xss[1..])
  }

  lemma {:induction false} FlattenAppend<T>(a: seq<seq<T>>, b: seq<seq<T>>)
    ensures Flatten(a + b) == Flatten(a) + Flatten(b)
    decreases |a|
  {
    if a == [] {
      assert a + b == b;
    } else {
      assert (a + b)[1..] == a[1..] + b;
      FlattenAppend(a[1..], b);
    }
  }

  /** Consecutive slices of n elements, the last one possibly shorter. */
  function Chunks<T>(s: seq<T>, n: nat): seq<seq<T>>
    requires n > 0
    decreases |s|
  {
    if s == [] then []
    else if |s| <= n then [s]
    else [s[..n]] + Chunks(s[n..], n)
  }

  /** The slices put back together give the sequence. */
  lemma {:induction false} ChunksFlatten<T>(s: seq<T>, n: nat)
    requires n > 0
    ensures Flatten(Chunks(s, n)) == s
    decreases |s|
  {
    if s != [] && |s| > n {
      ChunksFlatten(s[n..], n);
      assert s[..n] + s[n..] == s;
    } else if s != [] {
      assert Flatten(Chunks(s, n)) == s + Flatten([]);
    }
  }

  /** Each slice holds between one and n elements, all but the last exactly
      n, and together they number ceil(|s| / n). */
  lemma {:induction false} ChunksSizes<T>(s: seq<T>, n: nat)
    requires n > 0
    ensures forall k :: 0 <= k < |Chunks(s, n)| ==> 1 <= |Chunks(s, n)[k]| <= n
    ensures forall k :: 0 <= k < |Chunks(s, n)| - 1 ==> |Chunks(s, n)[k]| == n
    ensures (|Chunks(s, n)| - 1) * n < |s| <= |Chunks(s, n)| * n
    decreases |s|
  {
    if s != [] && |s| > n {
      ChunksSizes(s[n..], n);
      var c := Chunks(s, n);
      var d := Chunks(s[n..], n);
      assert c == [s[..n]] + d;
      assert forall k :: 1 <= k < |c| ==> c[k] == d[k - 1];
      assert (|c| - 1) * n == (|d| - 1) * n + n;
      assert |c| * n == |d| * n + n;
    }
  }

  /** Mapping each element commutes with slicing into batches: if fs is s
      mapped by f, the batches of fs are those of s mapped by f. */
  lemma {:induction false} ChunksMap<A, B>(s: seq<A>, fs: seq<B>, f: A -> B, n: nat)
    requires n > 0
    requires |fs| == |s| && forall i :: 0 <= i < |s| ==> fs[i] == f(s[i])
    ensures |Chunks(fs, n)| == |Chunks(s, n)|
    ensures forall k :: 0 <= k < |Chunks(s, n)| ==> |Chunks(fs, n)[k]| == |Chunks(s, n)[k]|
    ensures forall k, i :: 0 <= k < |Chunks(s, n)| && 0 <= i < |Chunks(s, n)[k]| ==>
              Chunks(fs, n)[k][i] == f(Chunks(s, n)[k][i])
    decreases |s|
  {
    if s != [] && |s| > n {
      ChunksMap(s[n..], fs[n..], f, n);
      var c := Chunks(s, n);
      var d := Chunks(fs, n);
      assert c == [s[..n]] + Chunks(s[n..], n);
      assert d == [fs[..n]] + Chunks(fs[n..], n);
      assert forall k :: 1 <= k < |c| ==> c[k] == Chunks(s[n..], n)[k - 1] && d[k] == Chunks(fs[n..], n)[k - 1];
    }
  }

  // ---------------------------------------------------------------------------
  // Dicts, as their (key, value) pairs in insertion order.
  // ---------------------------------------------------------------------------

  function DictKeys<K, V>(d: seq<(K, V)>): (r: seq<K>)
    ensures |r| == |d| && forall i :: 0 <= i < |d| ==> r[i] == d[i].0
  {
    seq(|d|, i requires 0 <= i < |d| => d[i].0)
  }

  /** Positions listed in increasing order, none twice. */
  predicate StrictlyIncreasing(s: seq<nat>) {
    forall i, j :: 0 <= i < j < |s| ==> s[i] < s[j]
  }

  /** The positions, in order, of the elements a list comprehension's `if`
      keeps. */
  function Positions<T>(s: seq<T>, keep: T -> bool): (idx: seq<nat>)
    ensures forall k :: 0 <= k < |idx| ==> idx[k] < |s| && keep(s[idx[k]])
    ensures forall j :: 0 <= j < |s| && keep(s[j]) ==> j in idx
    ensures StrictlyIncreasing(idx)
  {
    if s == [] then []
    else
      var init := Positions(s[..|s| - 1], keep);
      if keep(s[|s| - 1]) then init + [|s| - 1] else init
  }

  /** No key appears twice, as in every Python dict. */
  predicate DistinctKeys<K(==), V>(d: seq<(K, V)>) {
    forall i, j :: 0 <= i < j < |d| ==> d[i].0 != d[j].0
  }

  /** d[k] = v: a key already there keeps its place and gets the new value,
      a new key goes last. */
  function DictSet<K(==), V>(d: seq<(K, V)>, k: K, v: V): (r: seq<(K, V)>)
    ensures k !in DictKeys(d) ==> r == d + [(k, v)]
    ensures k in DictKeys(d) ==> DictKeys(r) == DictKeys(d)
    ensures (k, v) in r
  {
    if d == [] then [(k, v)]
    else if d[0].0 == k then [(k, v)] + d[1..]
    else
      assert DictKeys(d[1..]) == DictKeys(d)[1..];
      [d[0]] + DictSet(d[1..], k, v)
  }

  /** d.get(k): the value under k, found at its first (in a dict, only)
      occurrence. */
  function DictGet<K(==), V>(d: seq<(K, V)>, k: K): (r: Option<V>)
    ensures r.None? <==> k !in DictKeys(d)
    ensures r.Some? ==> (k, r.value) in d
    ensures r.Some? ==> exists i :: 0 <= i < |d| && d[i].0 == k && d[i].1 == r.value && k !in DictKeys(d[..i])
  {
    if d == [] then None
    else if d[0].0 == k then
      assert DictKeys(d[..0]) == [];
      Some(d[0].1)
    else
      assert DictKeys(d[1..]) == DictKeys(d)[1..];
      var r := DictGet(d[1..], k);
      if r.Some? then
        FirstOccurrenceShift(d, k, r.value);
        r
      else r
  }

  /** A first occurrence of k in d[1..] is one in d when d[0] holds another
      key. */
  lemma FirstOccurrenceShift<K, V>(d: seq<(K, V)>, k: K, v: V)
    requires d != [] && d[0].0 != k
    requires exists i :: 0 <= i < |d[1..]| && d[1..][i].0 == k && d[1..][i].1 == v && k !in DictKeys(d[1..][..i])
    ensures exists i :: 0 <= i < |d| && d[i].0 == k && d[i].1 == v && k !in DictKeys(d[..i])
  {
    var i :| 0 <= i < |d[1..]| && d[1..][i].0 == k && d[1..][i].1 == v && k !in DictKeys(d[1..][..i]);
    assert DictKeys(d[..i + 1]) == [d[0].0] + DictKeys(d[1..][..i]);
    assert d[i + 1] == d[1..][i];
  }

  /** A dict with distinct keys, split before its last entry: the front has
      distinct keys and lacks the last entry's key. */
  lemma DistinctInit<K, V>(d: seq<(K, V)>)
    requires d != [] && DistinctKeys(d)
    ensures DistinctKeys(d[..|d| - 1])
    ensures d[|d| - 1].0 !in DictKeys(d[..|d| - 1])
    ensures DictKeys(d) == DictKeys(d[..|d| - 1]) + [d[|d| - 1].0]
  {
    var init := d[..|d| - 1];
    forall i, j | 0 <= i < j < |init| ensures init[i].0 != init[j].0 {
      assert init[i] == d[i] && init[j] == d[j];
    }
    forall i | 0 <= i < |init| ensures init[i].0 != d[|d| - 1].0 {
      assert init[i] == d[i];
    }
  }

  /** After d[k] = v the keys are the old keys and k. */
  lemma DictSetKeys<K, V>(d: seq<(K, V)>, k: K, v: V)
    ensures forall x :: x in DictKeys(DictSet(d, k, v)) <==> x in DictKeys(d) || x == k
  {
    if k !in DictKeys(d) {
      assert DictKeys(d + [(k, v)]) == DictKeys(d) + [k];
    }
  }

  /** After d[k] = v, k reads v and every other key reads as before. */
  lemma {:induction false} DictGetSet<K, V>(d: seq<(K, V)>, k: K, v: V, k': K)
    ensures DictGet(DictSet(d, k, v), k') == if k' == k then Some(v) else DictGet(d, k')
  {
    if d != [] && d[0].0 != k {
      DictGetSet(d[1..], k, v, k');
    }
  }

  /** Assigning a key keeps the keys distinct, and the key then maps to the
      new value while every other key keeps its value. */
  lemma DictSetDistinct<K, V>(d: seq<(K, V)>, k: K, v: V)
    requires DistinctKeys(d)
    ensures DistinctKeys(DictSet(d, k, v))
    ensures forall i :: 0 <= i < |DictSet(d, k, v)| && DictSet(d, k, v)[i].0 == k ==> DictSet(d, k, v)[i].1 == v
    ensures forall i :: 0 <= i < |d| && d[i].0 != k ==> d[i] in DictSet(d, k, v)
  {
    var r := DictSet(d, k, v);
    if k in DictKeys(d) {
      DictSetInPlace(d, k, v);
      forall i, j | 0 <= i < j < |r|
        ensures r[i].0 != r[j].0
      {
        assert r[i].0 == d[i].0 && r[j].0 == d[j].0;
      }
      forall i | 0 <= i < |d| && d[i].0 != k
        ensures d[i] in r
      {
        assert r[i] == d[i];
      }
    } else {
      assert r == d + [(k, v)];
      forall i | 0 <= i < |d|
        ensures d[i].0 != k
      {
        assert DictKeys(d)[i] == d[i].0;
      }
      forall i, j | 0 <= i < j < |r|
        ensures r[i].0 != r[j].0
      {
        assert r[i] == d[i];
        if j == |d| {
          assert r[j] == (k, v);
        } else {
          assert r[j] == d[j];
        }
      }
      forall i | 0 <= i < |r| && r[i].0 == k
        ensures r[i].1 == v
      {
        assert i == |d|;
        assert r[i] == (k, v);
      }
      forall i | 0 <= i < |d| && d[i].0 != k
        ensures d[i] in r
      {
        assert r[i] == d[i];
      }
    }
  }

  lemma {:induction false} DictSetInPlace<K, V>(d: seq<(K, V)>, k: K, v: V)
    requires DistinctKeys(d) && k in DictKeys(d)
    ensures |DictSet(d, k, v)| == |d|
    ensures forall i :: 0 <= i < |d| ==> DictSet(d, k, v)[i] == if d[i].0 == k then (k, v) else d[i]
  {
    if d[0].0 != k {
      assert DictKeys(d[1..]) == DictKeys(d)[1..];
      DictSetInPlace(d[1..], k, v);
    }
  }

  // ---------------------------------------------------------------------------
  // Substring occurrence.
  // ---------------------------------------------------------------------------

  predicate OccursAt(s: string, pat: string, j: nat) {
    j + |pat| <= |s| && s[j..j + |pat|] == pat
  }

  predicate Contains(s: string, pat: string) {
    exists j: nat | j <= |s| :: OccursAt(s, pat, j)
  }

  // ---------------------------------------------------------------------------
  // str.join and str.split.
  // ---------------------------------------------------------------------------

  /** sep.join(parts) */
  function Join(parts: seq<string>, sep: string): string {
    if |parts| == 0 then ""
    else if |parts| == 1 then parts[0]
    else parts[0] + sep + Join(parts[1..], sep)
  }

  lemma ConcatAssoc5(a: string, b: string, c: string, d: string, e: string)
    ensures a + b + c + d + e == a + (b + (c + (d + e)))
  {
  }

  /** s.split(sep) for a non-empty separator: cut at every occurrence, scanning
      left to right, keeping empty pieces. */
  function Split(s: string, sep: string): (parts: seq<string>)
    requires sep != []
    ensures |parts| >= 1
    decreases |s|
  {
    if |s| < |sep| then [s]
    else if s[..|sep|] == sep then [""] + Split(s[|sep|..], sep)
    else
      var rest := Split(s[1..], sep);
      [[s[0]] + rest[0]] + rest[1..]
  }

  lemma JoinConsHead(x: string, parts: seq<string>, sep: string)
    requires |parts| >= 1
    ensures Join([x + parts[0]] + parts[1..], sep) == x + Join(parts, sep)
  {
    var p := [x + parts[0]] + parts[1..];
    assert p[1..] == parts[1..];
  }

  /** Joining the pieces with the separator gives back the string: split loses
      nothing, trims nothing and merges nothing. */
  lemma {:induction false} JoinSplit(s: string, sep: string)
    requires sep != []
    ensures Join(Split(s, sep), sep) == s
    decreases |s|
  {
    if |s| < |sep| {
    } else if s[..|sep|] == sep {
      var rest := Split(s[|sep|..], sep);
      assert Split(s, sep) == [""] + rest;
      JoinSplit(s[|sep|..], sep);
      JoinAfterSep(s, sep, rest);
    } else {
      var rest := Split(s[1..], sep);
      assert Split(s, sep) == [[s[0]] + rest[0]] + rest[1..];
      JoinSplit(s[1..], sep);
      JoinAfterChar(s, sep, rest);
    }
  }

  /** A separator in front of pieces that join to the rest of the string. */
  lemma JoinAfterSep(s: string, sep: string, rest: seq<string>)
    requires |sep| <= |s| && s[..|sep|] == sep
    requires |rest| >= 1 && Join(rest, sep) == s[|sep|..]
    ensures Join([""] + rest, sep) == s
  {
    JoinEmptyHead(rest, sep);
    assert s == s[..|sep|] + s[|sep|..];
  }

  /** A first character glued to the first of pieces that join to the rest
      of the string. */
  lemma JoinAfterChar(s: string, sep: string, rest: seq<string>)
    requires |s| >= 1
    requires |rest| >= 1 && Join(rest, sep) == s[1..]
    ensures Join([[s[0]] + rest[0]] + rest[1..], sep) == s
  {
    JoinConsHead([s[0]], rest, sep);
    assert s == [s[0]] + s[1..];
  }

  lemma JoinEmptyHead(parts: seq<string>, sep: string)
    requires |parts| >= 1
    ensures Join([""] + parts, sep) == sep + Join(parts, sep)
  {
    assert ([""] + parts)[1..] == parts;
  }

  /** The first piece is a prefix of the string. */
  lemma {:induction false} SplitHeadPrefix(s: string, sep: string)
    requires sep != []
    ensures Split(s, sep)[0] <= s
    decreases |s|
  {
    if |s| < |sep| {
    } else if s[..|sep|] == sep {
    } else {
      SplitHeadPrefix(s[1..], sep);
    }
  }

  lemma ShortHasNoOccurrence(s: string, sep: string)
    requires |s| < |sep|
    ensures !Contains(s, sep)
  {
  }

  lemma ConsOccurrence(c: char, t: string, sep: string, j: nat)
    requires OccursAt([c] + t, sep, j + 1)
    ensures OccursAt(t, sep, j)
  {
    assert ([c] + t)[j + 1..j + 1 + |sep|] == t[j..j + |sep|];
  }

  /** A piece that the scan extended by one character: it holds the separator
      only if the string did at position 0 or the rest of the piece does. */
  lemma HeadPieceFree(s: string, sep: string, rest0: string)
    requires sep != [] && |s| >= |sep| && s[..|sep|] != sep
    requires rest0 <= s[1..]
    requires !Contains(rest0, sep)
    ensures !Contains([s[0]] + rest0, sep)
  {
    var head := [s[0]] + rest0;
    forall j: nat | j <= |head| && OccursAt(head, sep, j) ensures false {
      if j != 0 {
        ConsOccurrence(s[0], rest0, sep, j - 1);
      }
    }
  }

  /** No piece contains the separator. */
  lemma {:induction false} SplitPiecesFree(s: string, sep: string)
    requires sep != []
    ensures forall i :: 0 <= i < |Split(s, sep)| ==> !Contains(Split(s, sep)[i], sep)
    decreases |s|
  {
    var parts := Split(s, sep);
    if |s| < |sep| {
      ShortHasNoOccurrence(s, sep);
    } else if s[..|sep|] == sep {
      SplitPiecesFree(s[|sep|..], sep);
      var rest := Split(s[|sep|..], sep);
      assert parts == [""] + rest;
      ShortHasNoOccurrence("", sep);
      assert forall i :: 1 <= i < |parts| ==> parts[i] == rest[i - 1];
    } else {
      SplitPiecesFree(s[1..], sep);
      SplitHeadPrefix(s[1..], sep);
      var rest := Split(s[1..], sep);
      assert parts == [[s[0]] + rest[0]] + rest[1..];
      HeadPieceFree(s, sep, rest[0]);
      assert forall i :: 1 <= i < |parts| ==> parts[i] == rest[i];
    }
  }

  lemma NoCharOccurrence(r: string, c: char)
    requires !Contains(r, [c])
    ensures c !in r
  {
    if c in r {
      var i :| 0 <= i < |r| && r[i] == c;
      assert r[i..i + 1] == [c];
      assert OccursAt(r, [c], i);
    }
  }

  /** A string without the separator splits into itself alone. */
  lemma {:induction false} SplitNoSep(s: string, sep: string)
    requires sep != []
    requires !Contains(s, sep)
    ensures Split(s, sep) == [s]
    decreases |s|
  {
    if |s| < |sep| {
    } else {
      assert !OccursAt(s, sep, 0);
      assert s[..|sep|] != sep;
      forall j: nat | OccursAt(s[1..], sep, j) ensures false {
        assert s[1..][j..j + |sep|] == s[j + 1..j + 1 + |sep|];
        assert OccursAt(s, sep, j + 1);
      }
      SplitNoSep(s[1..], sep);
      assert s == [s[0]] + s[1..];
    }
  }

  lemma {:induction false} SplitCharPrefix(p: string, c: char, t: string)
    requires c !in p
    ensures Split(p + [c] + t, [c]) == [p] + Split(t, [c])
    decreases |p|
  {
    var s := p + [c] + t;
    if p == [] {
      assert s[..1] == [c] && s[1..] == t;
    } else {
      assert s[..1] == [p[0]] && s[1..] == p[1..] + [c] + t;
      SplitCharPrefix(p[1..], c, t);
      assert [p[0]] + p[1..] == p;
    }
  }

  lemma {:induction false} SplitCharAbsent(p: string, c: char)
    requires c !in p
    ensures Split(p, [c]) == [p]
    decreases |p|
  {
    if p != [] {
      assert p[..1] == [p[0]];
      SplitCharAbsent(p[1..], c);
      assert [p[0]] + p[1..] == p;
    }
  }

  /** Splitting on a one-character separator undoes joining with it, when no
      piece contains the character. */
  lemma {:induction false} SplitJoinChar(parts: seq<string>, c: char)
    requires |parts| >= 1
    requires forall i :: 0 <= i < |parts| ==> c !in parts[i]
    ensures Split(Join(parts, [c]), [c]) == parts
    decreases |parts|
  {
    if |parts| == 1 {
      SplitCharAbsent(parts[0], c);
    } else {
      SplitJoinChar(parts[1..], c);
      SplitCharPrefix(parts[0], c, Join(parts[1..], [c]));
      assert [parts[0]] + parts[1..] == parts;
    }
  }

  /** Splitting on one character at a separator position splits each side apart. */
  /** The pieces of a string whose first character is ch, given the pieces
      of the rest: a separator opens an empty piece, any other character
      joins the first piece. */
  function ConsPiece(ch: char, c: char, rest: seq<string>): (r: seq<string>)
    requires rest != []
    ensures |r| == if ch == c then |rest| + 1 else |rest|
  {
    if ch == c then [""] + rest else [[ch] + rest[0]] + rest[1..]
  }

  /** Pieces appended after the first do not take part in ConsPiece. */
  lemma ConsPieceAppend(ch: char, c: char, p: seq<string>, q: seq<string>)
    requires p != []
    ensures ConsPiece(ch, c, p + q) == ConsPiece(ch, c, p) + q
  {
    if ch != c {
      assert (p + q)[0] == p[0] && (p + q)[1..] == p[1..] + q;
    }
  }

  /** One step of s.split(c) on a non-empty string. */
  lemma SplitCharHead(s: string, c: char)
    requires s != []
    ensures Split(s, [c]) == ConsPiece(s[0], c, Split(s[1..], [c]))
  {
    assert s[..1] == [s[0]];
  }

  /** Two strings with the same first character whose tails split into p + q
      and p split into pieces that differ only by the trailing q. */
  lemma SplitSameHead(s: string, x: string, c: char, p: seq<string>, q: seq<string>)
    requires s != [] && x != [] && s[0] == x[0] && p != []
    requires Split(s[1..], [c]) == p + q && Split(x[1..], [c]) == p
    ensures Split(s, [c]) == Split(x, [c]) + q
  {
    SplitCharHead(s, c);
    SplitCharHead(x, c);
    ConsPieceAppend(x[0], c, p, q);
  }

  lemma {:induction false} SplitCharConcat(x: string, c: char, y: string)
    ensures Split(x + [c] + y, [c]) == Split(x, [c]) + Split(y, [c])
    decreases |x|
  {
    var s := x + [c] + y;
    if x == [] {
      SplitCharHead(s, c);
      assert s[1..] == y;
    } else {
      assert s[0] == x[0] && s[1..] == x[1..] + [c] + y;
      SplitCharConcat(x[1..], c, y);
      SplitSameHead(s, x, c, Split(x[1..], [c]), Split(y, [c]));
    }
  }

  /** s.split(c, 1) unpacked into two names: the text before the first c
      and the text after it, or None when s has no c (the unpacking fails). */
  function SplitOnce(s: string, c: char): (r: Option<(string, string)>)
    ensures r.None? <==> c !in s
    ensures r.Some? ==> s == r.value.0 + [c] + r.value.1 && c !in r.value.0
  {
    if s == [] then None
    else if s[0] == c then Some(([], s[1..]))
    else match SplitOnce(s[1..], c)
      case None => None
      case Some((p, t)) => Some(([s[0]] + p, t))
  }

  /** The head of split(c, 1) is the head of split(c). */
  lemma SplitOnceHead(s: string, c: char)
    requires c in s
    ensures SplitOnce(s, c).Some? && Split(s, [c])[0] == SplitOnce(s, c).value.0
  {
    var (p, t) := SplitOnce(s, c).value;
    SplitCharPrefix(p, c, t);
  }

  /** The last piece of s.split(sep)  (the `s.split(sep)[-1]` idiom). */
  function LastPiece(s: string, sep: string): (r: string)
    requires sep != []
  {
    var parts := Split(s, sep);
    parts[|parts| - 1]
  }

  /** The last piece after a final separator is what follows it. */
  lemma LastPieceAfter(a: string, c: char, t: string)
    requires c !in t
    ensures LastPiece(a + [c] + t, [c]) == t
  {
    SplitCharConcat(a, c, t);
    SplitCharAbsent(t, c);
  }

  /** The last piece ends the string and holds no separator; when the string
      holds a separator, the last piece follows one. */
  lemma LastPieceSuffix(s: string, sep: string)
    requires sep != []
    ensures !Contains(LastPiece(s, sep), sep)
    ensures exists pre: string :: s == pre + LastPiece(s, sep)
              && (pre == [] || (|sep| <= |pre| && pre[|pre| - |sep|..] == sep))
  {
    var parts := Split(s, sep);
    var last := parts[|parts| - 1];
    assert last == LastPiece(s, sep);
    SplitPiecesFree(s, sep);
    assert !Contains(last, sep);
    JoinSplit(s, sep);
    JoinLastSuffix(parts, sep);
    var pre :| Join(parts, sep) == pre + last
               && (pre == [] || (|sep| <= |pre| && pre[|pre| - |sep|..] == sep));
    assert s == pre + last;
  }

  /** A join ends with its last part, after a separator when there are
      several parts. */
  lemma JoinLastSuffix(parts: seq<string>, sep: string)
    requires |parts| >= 1
    ensures exists pre: string :: Join(parts, sep) == pre + parts[|parts| - 1]
              && (pre == [] || (|sep| <= |pre| && pre[|pre| - |sep|..] == sep))
  {
    var last := parts[|parts| - 1];
    if |parts| == 1 {
      assert Join(parts, sep) == [] + last;
    } else {
      JoinSplitLast(parts, sep);
      var pre := Join(parts[..|parts| - 1], sep) + sep;
      assert Join(parts, sep) == pre + last;
      assert pre[|pre| - |sep|..] == sep;
    }
  }

  lemma {:induction false} JoinSplitLast(parts: seq<string>, sep: string)
    requires |parts| >= 2
    ensures Join(parts, sep) == Join(parts[..|parts| - 1], sep) + sep + parts[|parts| - 1]
    decreases |parts|
  {
    if |parts| == 2 {
      assert parts[..1] == [parts[0]];
    } else {
      JoinSplitLast(parts[1..], sep);
      assert parts[1..][..|parts| - 2] == parts[..|parts| - 1][1..];
      assert parts[..|parts| - 1][0] == parts[0];
    }
  }

  // ---------------------------------------------------------------------------
  // str.replace (all occurrences, left to right, non-overlapping).
  // ---------------------------------------------------------------------------

  function Replace(s: string, pat: string, rep: string): string
    requires pat != []
    decreases |s|
  {
    if |s| < |pat| then s
    else if s[..|pat|] == pat then rep + Replace(s[|pat|..], pat, rep)
    else [s[0]] + Replace(s[1..], pat, rep)
  }

  /** A string without the pattern is left unchanged. */
  lemma {:induction false} ReplaceAbsent(s: string, pat: string, rep: string)
    requires pat != []
    requires !Contains(s, pat)
    ensures Replace(s, pat, rep) == s
    decreases |s|
  {
    if |s| >= |pat| {
      assert !OccursAt(s, pat, 0);
      forall j: nat | OccursAt(s[1..], pat, j) ensures false {
        assert s[1..][j..j + |pat|] == s[j + 1..j + 1 + |pat|];
        assert OccursAt(s, pat, j + 1);
      }
      ReplaceAbsent(s[1..], pat, rep);
      assert s == [s[0]] + s[1..];
    }
  }

  /** Replacing one character by another keeps the length and rewrites exactly
      the positions that held the character. */
  lemma {:induction false} ReplaceChar(s: string, c: char, d: char)
    ensures |Replace(s, [c], [d])| == |s|
    ensures forall i :: 0 <= i < |s| ==>
              Replace(s, [c], [d])[i] == (if s[i] == c then d else s[i])
    decreases |s|
  {
    if |s| >= 1 {
      ReplaceChar(s[1..], c, d);
      var r := Replace(s, [c], [d]);
      assert s[..1] == [s[0]];
      assert r == [if s[0] == c then d else s[0]] + Replace(s[1..], [c], [d]);
    }
  }

  /** The subsequence of s without the character c. */
  function Without(s: string, c: char): (r: string)
    ensures c !in r
    ensures |r| <= |s|
  {
    if s == [] then [] else (if s[0] == c then [] else [s[0]]) + Without(s[1..], c)
  }

  lemma {:induction false} WithoutAppend(a: string, b: string, c: char)
    ensures Without(a + b, c) == Without(a, c) + Without(b, c)
    decreases |a|
  {
    if a != [] {
      assert (a + b)[1..] == a[1..] + b;
      WithoutAppend(a[1..], b, c);
    } else {
      assert a + b == b;
    }
  }

  /** Without(s, c) keeps every other character of s and adds none. */
  lemma {:induction false} WithoutChars(s: string, c: char, d: char)
    ensures d in Without(s, c) <==> d in s && d != c
    decreases |s|
  {
    if s != [] {
      WithoutChars(s[1..], c, d);
      assert s == [s[0]] + s[1..];
    }
  }

  /** Replacing a character by the empty string deletes it. */
  lemma {:induction false} ReplaceCharByEmpty(s: string, c: char)
    ensures Replace(s, [c], "") == Without(s, c)
    decreases |s|
  {
    if |s| >= 1 {
      ReplaceCharByEmpty(s[1..], c);
      assert s[..1] == [s[0]];
    }
  }

  // ---------------------------------------------------------------------------
  // str.lower (ASCII letters), str.strip (ASCII whitespace).
  // ---------------------------------------------------------------------------

  function LowerChar(c: char): char {
    if 'A' <= c <= 'Z' then (c as int + 32) as char else c
  }

  function Lower(s: string): (r: string)
    ensures |r| == |s|
    ensures forall i :: 0 <= i < |s| ==> r[i] == LowerChar(s[i])
  {
    seq(|s|, i requires 0 <= i < |s| => LowerChar(s[i]))
  }

  predicate IsSpace(c: char) {
    c == ' ' || c == '\t' || c == '\n' || c == '\r' || c == '\U{0B}' || c == '\U{0C}'
  }

  function TrimLeft(s: string): (r: string)
    ensures |r| <= |s| && r == s[|s| - |r|..]
    ensures r != [] ==> !IsSpace(r[0])
    ensures forall i :: 0 <= i < |s| - |r| ==> IsSpace(s[i])
  {
    if s != [] && IsSpace(s[0]) then TrimLeft(s[1..]) else s
  }

  function TrimRight(s: string): (r: string)
    ensures |r| <= |s| && r == s[..|r|]
    ensures r != [] ==> !IsSpace(r[|r| - 1])
    ensures forall i :: |r| <= i < |s| ==> IsSpace(s[i])
  {
    if s != [] && IsSpace(s[|s| - 1]) then TrimRight(s[..|s| - 1]) else s
  }

  /** s.strip() */
  function Strip(s: string): string {
    TrimRight(TrimLeft(s))
  }

  /** s.strip() is empty exactly when every character of s is whitespace. */
  lemma StripEmptyIff(s: string)
    ensures Strip(s) == [] <==> forall i :: 0 <= i < |s| ==> IsSpace(s[i])
  {
    var l := TrimLeft(s);
    if Strip(s) == [] {
      assert |l| == 0;
    } else {
      var r := Strip(s);
      assert r[0] == l[0];
      assert !IsSpace(s[|s| - |l|]);
    }
  }

  // ---------------------------------------------------------------------------
  // str(n) for n >= 0, os.path.basename.
  // ---------------------------------------------------------------------------

  function DigitChar(d: nat): char
    requires d < 10
  {
    ('0' as int + d) as char
  }

  /** str(n) for a natural number: its decimal digits. */
  function NatToString(n: nat): (r: string)
    ensures |r| >= 1
    ensures forall i :: 0 <= i < |r| ==> '0' <= r[i] <= '9'
  {
    if n < 10 then [DigitChar(n)] else NatToString(n / 10) + [DigitChar(n % 10)]
  }

  /** os.path.basename(p): the text after the last '/'. */
  function Basename(p: string): (r: string)
    ensures '/' !in r
  {
    LastPieceSuffix(p, "/");
    var r := LastPiece(p, "/");
    NoCharOccurrence(r, '/');
    r
  }
}
