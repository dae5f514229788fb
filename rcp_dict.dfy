/** The param_dict of the RCP metadata reader: a Python dict from entry
    key to its text line, which keeps its keys in insertion order and is
    written out value by value in that order. */
module RcpDict {

  import opened Common

  /** The dictionary keys the two readers use ('F_name', 'Rcp_name',
      'Date', 'Time', 'kV', 'uA', 'Power', 'imgs', 'rot', 'exposure',
      'objlens', 'XFilt', 'Vox_size', 'cone', 'D_bin', 'fr_avg', 'beam_h',
      'Src', 'Det', 'x_ax', 'y_ax', 'z_ax', 'Acquisition mode',
      'Segments', 'HART', 'V_exp'), numbered in the order of their
      first assignment by either reader (the recipe reader swaps 'Power'
      and 'uA', and puts 'Vox_size' and 'cone' after 'Det'). Each block of
      assignments uses the keys of one range of numbers, which is what
      keeps the keys of different blocks apart. */
  type Key = n: int | 0 <= n < KeyCount

  const KeyCount: int := 26

  const FName: Key := 0
  const RcpName: Key := 1
  const Date: Key := 2
  const Time: Key := 3
  const KV: Key := 4
  const UA: Key := 5
  const Power: Key := 6
  const Imgs: Key := 7
  const Rot: Key := 8
  const Exposure: Key := 9
  const ObjLens: Key := 10
  const XFilt: Key := 11
  const VoxSize: Key := 12
  const Cone: Key := 13
  const DBin: Key := 14
  const FrAvg: Key := 15
  const BeamH: Key := 16
  const Src: Key := 17
  const Det: Key := 18
  const XAx: Key := 19
  const YAx: Key := 20
  const ZAx: Key := 21
  const AcqMode: Key := 22
  const Segments: Key := 23
  const Hart: Key := 24
  const VExp: Key := 25

  type Entry = (Key, string)

  predicate DistinctKeys(es: seq<Entry>)
  {
    forall i, j :: 0 <= i < j < |es| ==> es[i].0 != es[j].0
  }

  /** dict.values(): the values in insertion order. */
  function ValuesOf(es: seq<Entry>): (vs: seq<string>)
    ensures |vs| == |es|
    ensures forall i :: 0 <= i < |es| ==> vs[i] == es[i].1
  {
    if es == [] then [] else [es[0].1] + ValuesOf(es[1..])
  }

  /** The keys in insertion order. */
  function KeysOf(es: seq<Entry>): (ks: seq<Key>)
    ensures |ks| == |es|
    ensures forall i :: 0 <= i < |es| ==> ks[i] == es[i].0
  {
    if es == [] then [] else [es[0].0] + KeysOf(es[1..])
  }

  /** d[k] = v: a key already present keeps its place and takes the new
      value; a new key is added at the end. */
  function Assign(es: seq<Entry>, k: Key, v: string): seq<Entry>
  {
    if es == [] then [(k, v)]
    else if es[0].0 == k then [(k, v)] + es[1..]
    else [es[0]] + Assign(es[1..], k, v)
  }

  /** Assigning a new key appends it. */
  lemma {:induction false} AssignFresh(es: seq<Entry>, k: Key, v: string)
    requires forall i :: 0 <= i < |es| ==> es[i].0 != k
    ensures Assign(es, k, v) == es + [(k, v)]
  {
    if es != [] {
      AssignFresh(es[1..], k, v);
      assert [es[0]] + (es[1..] + [(k, v)]) == es + [(k, v)];
    }
  }

  /** Assigning a key that is present replaces its value in place. */
  lemma {:induction false} AssignExisting(es: seq<Entry>, i: nat, k: Key, v: string)
    requires DistinctKeys(es) && i < |es| && es[i].0 == k
    ensures Assign(es, k, v) == es[i := (k, v)]
  {
    if i > 0 {
      AssignExisting(es[1..], i - 1, k, v);
      assert [es[0]] + es[1..][i - 1 := (k, v)] == es[i := (k, v)];
    }
  }

  /** An assignment never makes a key appear twice. */
  lemma {:induction false} AssignKeepsDistinct(es: seq<Entry>, k: Key, v: string)
    requires DistinctKeys(es)
    ensures DistinctKeys(Assign(es, k, v))
  {
    if exists i :: 0 <= i < |es| && es[i].0 == k {
      var i :| 0 <= i < |es| && es[i].0 == k;
      AssignExisting(es, i, k, v);
    } else {
      AssignFresh(es, k, v);
    }
  }

  /** param_dict. Every key present is in `keys`. */
  class ParamDict {
    var entries: seq<Entry>
    ghost var keys: set<Key>

    ghost predicate Valid()
      reads this
    {
      DistinctKeys(entries) && forall i :: 0 <= i < |entries| ==> entries[i].0 in keys
    }

    /** param_dict = {}. */
    constructor ()
      ensures Valid() && entries == [] && keys == {}
    {
      entries := [];
      keys := {};
    }

    /** param_dict[k] = v. */
    method Put(k: Key, v: string)
      requires Valid()
      modifies this
      ensures Valid()
      ensures entries == Assign(old(entries), k, v)
      ensures keys == old(keys) + {k}
      ensures k !in old(keys) ==> entries == old(entries) + [(k, v)]
    {
      if exists i :: 0 <= i < |entries| && entries[i].0 == k {
        var i :| 0 <= i < |entries| && entries[i].0 == k;
        AssignExisting(entries, i, k, v);
      } else {
        AssignFresh(entries, k, v);
      }
      entries := Assign(entries, k, v);
      keys := keys + {k};
    }

    /** Every key present ranks below `n`. */
    ghost predicate Below(n: int)
      reads this
    {
      forall k :: k in keys ==> k < n
    }

    /** Every key present ranks below `lo`, or from `hi` up to below `n`:
        the keys from `lo` up to `hi` are still free. */
    ghost predicate Skips(lo: int, hi: int, n: int)
      reads this
    {
      forall k :: k in keys ==> k < lo || hi <= k < n
    }

    /** param_dict[k] = v for a key not yet in the dictionary: the entry is
        appended. Every assignment the readers make is of this kind, which
        is checked at each of them. */
    method Add(k: Key, v: string)
      requires Valid() && k !in keys
      modifies this
      ensures Valid()
      ensures entries == old(entries) + [(k, v)]
      ensures keys == old(keys) + {k}
    {
      Put(k, v);
    }

    /** param_dict.values(). */
    function Values(): seq<string>
      reads this
    {
      ValuesOf(entries)
    }
  }
}
