/** Discovery and ordering of the image-plane streams of a .txm container
    (extract_number and _get_sorted_image_streams). */
module TxmStreams {

  import opened Common
  import opened Text
  import opened Ole

  /** A stream name as listdir() gives it: its path components. */
  type Entry = seq<string>

  /** The sort key: the integer of the first digit run, or float('inf'). */
  datatype SortKey = Num(n: nat) | Infinity

  /** Python's `<=` between an int and float('inf'). */
  predicate KeyLe(a: SortKey, b: SortKey)
  {
    b.Infinity? || (a.Num? && b.Num? && a.n <= b.n)
  }

  /** extract_number on an entry that has a second component. */
  function KeyOf(e: Entry): SortKey
  {
    if |e| < 2 then Infinity
    else match FirstDigitRun(e[1])
      case Some(d) => Num(DigitsValue(d))
      case None => Infinity
  }

  /** extract_number(stream): stream[1] raises IndexError on a
      one-component name; otherwise the key of the first digit run. */
  function ExtractNumber(e: Entry): (r: Result<SortKey>)
    ensures r.Err? <==> |e| < 2
    ensures r.Ok? ==> r.value == KeyOf(e)
    ensures r.Ok? ==> (r.value.Infinity? <==> NoDigits(e[1]))
  {
    if |e| < 2 then Err(StreamNameIndex)
    else
      FirstDigitRunSpec(e[1]);
      Ok(KeyOf(e))
  }

  /** The entries a .txm stores one image plane in. */
  predicate IsImageEntry(e: Entry)
  {
    |e| > 0 && "ImageData" <= e[0]
  }

  /** [s for s in ole.listdir() if s[0].startswith('ImageData')] */
  function ImageEntries(listing: seq<Entry>): (r: seq<Entry>)
    ensures forall e :: e in r <==> e in listing && IsImageEntry(e)
    ensures multiset(r) <= multiset(listing)
    ensures |r| <= |listing|
  {
    if listing == [] then []
    else
      var rest := ImageEntries(listing[..|listing| - 1]);
      var last := listing[|listing| - 1];
      assert listing == listing[..|listing| - 1] + [last];
      if IsImageEntry(last) then rest + [last] else rest
  }

  /** An entry decorated with its key, as list.sort(key=...) computes it
      once per element. */
  datatype Keyed = Keyed(key: SortKey, entry: Entry)

  function K(x: Keyed): SortKey { x.key }

  predicate Sorted(s: seq<Keyed>)
  {
    forall i, j :: 0 <= i < j < |s| ==> KeyLe(K(s[i]), K(s[j]))
  }

  lemma SortedPrefix(s: seq<Keyed>, n: nat)
    requires Sorted(s) && n <= |s|
    ensures Sorted(s[..n])
  {
    forall i, j | 0 <= i < j < n ensures KeyLe(K(s[..n][i]), K(s[..n][j])) {
      assert s[..n][i] == s[i] && s[..n][j] == s[j];
    }
  }

  /** The elements of s whose key is k, in their order in s. */
  function WithKey(s: seq<Keyed>, k: SortKey): seq<Keyed>
  {
    if s == [] then [] else WithKey(s[..|s| - 1], k) + (if K(s[|s| - 1]) == k then [s[|s| - 1]] else [])
  }

  lemma {:induction false} WithKeyConcat(a: seq<Keyed>, b: seq<Keyed>, k: SortKey)
    ensures WithKey(a + b, k) == WithKey(a, k) + WithKey(b, k)
    decreases |b|
  {
    if b == [] {
      assert a + b == a;
    } else {
      assert (a + b)[..|a + b| - 1] == a + b[..|b| - 1];
      WithKeyConcat(a, b[..|b| - 1], k);
    }
  }

  lemma WithKeySingle(x: Keyed, k: SortKey)
    ensures WithKey([x], k) == if K(x) == k then [x] else []
  {
    assert [x][..0] == [];
  }

  /** Stable sorting: every group of equal keys keeps its relative order. */
  ghost predicate StableFor(s: seq<Keyed>, r: seq<Keyed>)
  {
    forall k :: WithKey(r, k) == WithKey(s, k)
  }

  /** Inserts x into sorted t after every element whose key is <= x's. */
  function Insert(t: seq<Keyed>, x: Keyed): (r: seq<Keyed>)
    ensures |r| == |t| + 1
  {
    if t == [] then [x]
    else if KeyLe(K(t[|t| - 1]), K(x)) then t + [x]
    else Insert(t[..|t| - 1], x) + [t[|t| - 1]]
  }

  lemma {:induction false} InsertPerm(t: seq<Keyed>, x: Keyed)
    ensures multiset(Insert(t, x)) == multiset(t) + multiset{x}
    decreases |t|
  {
    if t != [] && !KeyLe(K(t[|t| - 1]), K(x)) {
      InsertPerm(t[..|t| - 1], x);
      assert t == t[..|t| - 1] + [t[|t| - 1]];
    }
  }

  /** A sorted sequence stays sorted when an element with a key at least
      every key in it is appended. */
  lemma SortedSnoc(u: seq<Keyed>, last: Keyed)
    requires Sorted(u)
    requires forall e :: e in u ==> KeyLe(K(e), K(last))
    ensures Sorted(u + [last])
  {
    var r := u + [last];
    forall i, j | 0 <= i < j < |r| ensures KeyLe(K(r[i]), K(r[j])) {
      if j == |r| - 1 { assert r[i] in u; } else { assert r[i] == u[i] && r[j] == u[j]; }
    }
  }

  /** Inserting x below the last element of a sorted t keeps every key of
      the result at most that last key. */
  lemma InsertBelowLast(t: seq<Keyed>, x: Keyed)
    requires Sorted(t) && t != [] && !KeyLe(K(t[|t| - 1]), K(x))
    ensures forall e :: e in Insert(t[..|t| - 1], x) ==> KeyLe(K(e), K(t[|t| - 1]))
  {
    var init, last := t[..|t| - 1], t[|t| - 1];
    InsertPerm(init, x);
    var u := Insert(init, x);
    forall e | e in u ensures KeyLe(K(e), K(last)) {
      assert e in multiset(u);
      if e != x {
        assert e in multiset(init);
        var i :| 0 <= i < |init| && init[i] == e;
        assert t[i] == e;
      }
    }
  }

  lemma {:induction false} InsertSorted(t: seq<Keyed>, x: Keyed)
    requires Sorted(t)
    ensures Sorted(Insert(t, x))
    decreases |t|
  {
    if t != [] && !KeyLe(K(t[|t| - 1]), K(x)) {
      var init, last := t[..|t| - 1], t[|t| - 1];
      SortedPrefix(t, |t| - 1);
      InsertSorted(init, x);
      InsertBelowLast(t, x);
      SortedSnoc(Insert(init, x), last);
    }
  }

  lemma {:induction false} InsertStable(t: seq<Keyed>, x: Keyed, k: SortKey)
    requires Sorted(t)
    ensures WithKey(Insert(t, x), k) == WithKey(t, k) + WithKey([x], k)
    decreases |t|
  {
    if t == [] {
      assert [] + [x] == [x];
      assert WithKey([], k) == [];
    } else if KeyLe(K(t[|t| - 1]), K(x)) {
      WithKeyConcat(t, [x], k);
    } else {
      var init, last := t[..|t| - 1], t[|t| - 1];
      SortedPrefix(t, |t| - 1);
      InsertStable(init, x, k);
      WithKeyConcat(Insert(init, x), [last], k);
      WithKeyConcat(init, [last], k);
      assert t == init + [last];
      WithKeySingle(x, k);
      WithKeySingle(last, k);
      // x's key is below last's, so at most one of the two is in group k.
      assert K(x) != K(last);
      SwapGroups(WithKey(init, k), WithKey([x], k), WithKey([last], k));
    }
  }

  lemma SwapGroups(a: seq<Keyed>, b: seq<Keyed>, c: seq<Keyed>)
    requires b == [] || c == []
    ensures a + b + c == a + c + b
  {
    if b == [] {
      assert a + b == a && a + c + b == a + c;
    } else {
      assert a + c == a && a + b + c == a + b;
    }
  }

  /** Stable insertion sort by key: what list.sort(key=extract_number) returns. */
  function SortByKey(s: seq<Keyed>): (r: seq<Keyed>)
    ensures |r| == |s|
  {
    if s == [] then [] else Insert(SortByKey(s[..|s| - 1]), s[|s| - 1])
  }

  /** The sorted list is ascending by key, is a permutation of the input and
      keeps the input order among equal keys. */
  lemma {:induction false} SortByKeySpec(s: seq<Keyed>)
    ensures Sorted(SortByKey(s))
    ensures multiset(SortByKey(s)) == multiset(s)
    ensures StableFor(s, SortByKey(s))
    decreases |s|
  {
    if s != [] {
      var init, last := s[..|s| - 1], s[|s| - 1];
      SortByKeySpec(init);
      InsertSorted(SortByKey(init), last);
      InsertPerm(SortByKey(init), last);
      assert s == init + [last];
      forall k ensures WithKey(SortByKey(s), k) == WithKey(s, k) {
        InsertStable(SortByKey(init), last, k);
        WithKeyConcat(init, [last], k);
      }
    }
  }

  lemma {:induction false} WithKeyMember(s: seq<Keyed>, e: Keyed)
    requires e in s
    ensures e in WithKey(s, K(e))
    decreases |s|
  {
    if s[|s| - 1] != e {
      assert e in s[..|s| - 1];
      WithKeyMember(s[..|s| - 1], e);
    }
  }

  lemma {:induction false} WithKeySub(s: seq<Keyed>, k: SortKey, e: Keyed)
    requires e in WithKey(s, k)
    ensures e in s && K(e) == k
    decreases |s|
  {
    var init := s[..|s| - 1];
    if e in WithKey(init, k) {
      WithKeySub(init, k, e);
    }
  }

  lemma WithKeyLast(s: seq<Keyed>, k: SortKey)
    requires s != []
    ensures WithKey(s, k) == WithKey(s[..|s| - 1], k) + (if K(s[|s| - 1]) == k then [s[|s| - 1]] else [])
  {
  }

  /** The last element of a sorted sequence has the largest key. */
  lemma SortedLastMax(s: seq<Keyed>, e: Keyed)
    requires Sorted(s) && e in s
    ensures KeyLe(K(e), K(s[|s| - 1]))
  {
    var i :| 0 <= i < |s| && s[i] == e;
    if i < |s| - 1 { assert KeyLe(K(s[i]), K(s[|s| - 1])); }
  }

  lemma KeyLeAntisymmetric(a: SortKey, b: SortKey)
    requires KeyLe(a, b) && KeyLe(b, a)
    ensures a == b
  {
  }

  /** When b has every group a has, its last key is at least a's. */
  lemma LastKeyBelow(a: seq<Keyed>, b: seq<Keyed>)
    requires a != [] && Sorted(b)
    requires forall k :: WithKey(a, k) == WithKey(b, k)
    ensures b != [] && KeyLe(K(a[|a| - 1]), K(b[|b| - 1]))
  {
    var x := a[|a| - 1];
    WithKeyMember(a, x);
    var ga := WithKey(a, K(x));
    assert ga == WithKey(b, K(x));
    WithKeySub(b, K(x), ga[0]);
    SortedLastMax(b, ga[0]);
  }

  /** The last element of a sequence ends the group of its key. */
  lemma LastOfGroup(s: seq<Keyed>, k: SortKey)
    requires s != [] && K(s[|s| - 1]) == k
    ensures WithKey(s, k) != [] && WithKey(s, k)[|WithKey(s, k)| - 1] == s[|s| - 1]
  {
    WithKeyLast(s, k);
  }

  /** Two sorted sequences with the same groups end with the same element. */
  lemma SameLast(a: seq<Keyed>, b: seq<Keyed>)
    requires a != [] && Sorted(a) && Sorted(b)
    requires forall k :: WithKey(a, k) == WithKey(b, k)
    ensures b != [] && a[|a| - 1] == b[|b| - 1]
  {
    LastKeyBelow(a, b);
    LastKeyBelow(b, a);
    var kx := K(a[|a| - 1]);
    KeyLeAntisymmetric(kx, K(b[|b| - 1]));
    LastOfGroup(a, kx);
    LastOfGroup(b, kx);
    assert WithKey(a, kx) == WithKey(b, kx);
  }

  /** A sorted, stable rearrangement is unique, so SortByKey is whatever
      stable sort the runtime uses (Python's list.sort). */
  lemma {:induction false} StableSortUnique(a: seq<Keyed>, b: seq<Keyed>)
    requires Sorted(a) && Sorted(b)
    requires forall k :: WithKey(a, k) == WithKey(b, k)
    ensures a == b
    decreases |a|
  {
    if a == [] {
      if b != [] {
        WithKeyMember(b, b[0]);
        assert false;
      }
    } else {
      SameLast(a, b);
      var x := a[|a| - 1];
      var a', b' := a[..|a| - 1], b[..|b| - 1];
      forall k ensures WithKey(a', k) == WithKey(b', k) {
        WithKeyLast(a, k);
        WithKeyLast(b, k);
        var t := if K(x) == k then [x] else [];
        assert WithKey(a, k) == WithKey(b, k);
        assert WithKey(a', k) + t == WithKey(b', k) + t;
        assert WithKey(a', k) == (WithKey(a', k) + t)[..|WithKey(a', k)|];
        assert WithKey(b', k) == (WithKey(b', k) + t)[..|WithKey(b', k)|];
      }
      SortedPrefix(a, |a| - 1);
      SortedPrefix(b, |b| - 1);
      StableSortUnique(a', b');
      assert a == a' + [x] && b == b' + [x];
    }
  }

  function Decorate(s: seq<Entry>): (d: seq<Keyed>)
    ensures |d| == |s|
  {
    if s == [] then [] else Decorate(s[..|s| - 1]) + [Keyed(KeyOf(s[|s| - 1]), s[|s| - 1])]
  }

  function Undecorate(d: seq<Keyed>): (s: seq<Entry>)
    ensures |s| == |d|
  {
    if d == [] then [] else Undecorate(d[..|d| - 1]) + [d[|d| - 1].entry]
  }

  lemma {:induction false} UndecorateConcat(a: seq<Keyed>, b: seq<Keyed>)
    ensures Undecorate(a + b) == Undecorate(a) + Undecorate(b)
    decreases |b|
  {
    if b == [] {
      assert a + b == a;
    } else {
      assert (a + b)[..|a + b| - 1] == a + b[..|b| - 1];
      UndecorateConcat(a, b[..|b| - 1]);
    }
  }

  lemma {:induction false} UndecorateAt(d: seq<Keyed>, i: nat)
    requires i < |d|
    ensures Undecorate(d)[i] == d[i].entry
    decreases |d|
  {
    if i < |d| - 1 { UndecorateAt(d[..|d| - 1], i); }
  }

  /** Decorating keys every entry with its own key, and undecorating gives
      the entries back. */
  lemma {:induction false} DecorateSpec(s: seq<Entry>)
    ensures Undecorate(Decorate(s)) == s
    ensures forall x :: x in Decorate(s) ==> x.key == KeyOf(x.entry)
    decreases |s|
  {
    if s != [] {
      DecorateSpec(s[..|s| - 1]);
      assert s == s[..|s| - 1] + [s[|s| - 1]];
    }
  }

  /** The entries of s whose extract_number key is k, in their order in s. */
  function EntriesWithKey(s: seq<Entry>, k: SortKey): seq<Entry>
  {
    if s == [] then []
    else EntriesWithKey(s[..|s| - 1], k) + (if KeyOf(s[|s| - 1]) == k then [s[|s| - 1]] else [])
  }

  lemma {:induction false} UndecorateWithKey(d: seq<Keyed>, k: SortKey)
    requires forall x :: x in d ==> x.key == KeyOf(x.entry)
    ensures Undecorate(WithKey(d, k)) == EntriesWithKey(Undecorate(d), k)
    decreases |d|
  {
    if d != [] {
      var init, last := d[..|d| - 1], d[|d| - 1];
      assert forall x :: x in init ==> x in d;
      UndecorateWithKey(init, k);
      var tail := if K(last) == k then [last] else [];
      UndecorateConcat(WithKey(init, k), tail);
      assert Undecorate(tail) == if K(last) == k then [last.entry] else [] by {
        assert [last][..0] == [];
      }
    }
  }

  lemma {:induction false} UndecorateInsert(t: seq<Keyed>, x: Keyed)
    ensures multiset(Undecorate(Insert(t, x))) == multiset(Undecorate(t)) + multiset{x.entry}
    decreases |t|
  {
    if t == [] {
      assert Undecorate([x]) == [x.entry] by { assert [x][..0] == []; }
    } else if KeyLe(K(t[|t| - 1]), K(x)) {
      UndecorateConcat(t, [x]);
      assert Undecorate([x]) == [x.entry] by { assert [x][..0] == []; }
    } else {
      var init, last := t[..|t| - 1], t[|t| - 1];
      UndecorateInsert(init, x);
      UndecorateConcat(Insert(init, x), [last]);
      assert Undecorate([last]) == [last.entry] by { assert [last][..0] == []; }
    }
  }

  lemma {:induction false} UndecorateSort(d: seq<Keyed>)
    ensures multiset(Undecorate(SortByKey(d))) == multiset(Undecorate(d))
    decreases |d|
  {
    if d != [] {
      var init, last := d[..|d| - 1], d[|d| - 1];
      UndecorateSort(init);
      UndecorateInsert(SortByKey(init), last);
    }
  }

  /** _get_sorted_image_streams(ole): the image entries sorted by
      extract_number; a one-component image entry makes the key function
      raise and the whole listing fail. */
  function SortedImageStreams(c: Container): (r: Result<seq<Entry>>)
    ensures r.Err? <==> exists e :: e in ImageEntries(c.listing) && |e| < 2
    ensures r.Ok? ==> forall i, j :: 0 <= i < j < |r.value| ==> KeyLe(KeyOf(r.value[i]), KeyOf(r.value[j]))
    ensures r.Ok? ==> multiset(r.value) == multiset(ImageEntries(c.listing))
    ensures r.Ok? ==> forall k :: EntriesWithKey(r.value, k) == EntriesWithKey(ImageEntries(c.listing), k)
  {
    var images := ImageEntries(c.listing);
    if exists e :: e in images && |e| < 2 then Err(StreamNameIndex)
    else
      SortedImageStreamsOk(images);
      Ok(Undecorate(SortByKey(Decorate(images))))
  }

  lemma SortedImageStreamsOk(images: seq<Entry>)
    ensures var r := Undecorate(SortByKey(Decorate(images)));
      && (forall i, j :: 0 <= i < j < |r| ==> KeyLe(KeyOf(r[i]), KeyOf(r[j])))
      && multiset(r) == multiset(images)
      && forall k :: EntriesWithKey(r, k) == EntriesWithKey(images, k)
  {
    var d := Decorate(images);
    var sd := SortByKey(d);
    var r := Undecorate(sd);
    SortByKeySpec(d);
    UndecorateSort(d);
    DecorateSpec(images);
    assert forall x :: x in sd ==> x.key == KeyOf(x.entry) by {
      forall x | x in sd ensures x.key == KeyOf(x.entry) { assert x in multiset(d); }
    }
    forall k ensures EntriesWithKey(r, k) == EntriesWithKey(images, k) {
      UndecorateWithKey(d, k);
      UndecorateWithKey(sd, k);
    }
    forall i, j | 0 <= i < j < |r| ensures KeyLe(KeyOf(r[i]), KeyOf(r[j])) {
      UndecorateAt(sd, i);
      UndecorateAt(sd, j);
      assert sd[i] in sd && sd[j] in sd;
      assert KeyLe(K(sd[i]), K(sd[j]));
    }
  }
}
