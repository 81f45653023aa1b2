/** Sequence and dictionary helpers shared by the models: list concatenation
    over nested loops, duplicate-freedom, and the effect of a run of Python
    `d[k] = v` assignments. */
module Seqs {

  /** No element occurs twice. */
  predicate Distinct<T(==)>(s: seq<T>) {
    forall i, j :: 0 <= i < j < |s| ==> s[i] != s[j]
  }

  /** The concatenation of the blocks, in order: what a nested loop that
      extends one list per inner iteration builds. */
  function Flatten<T>(blocks: seq<seq<T>>): (r: seq<T>)
    ensures |blocks| == 0 ==> r == []
  {
    if |blocks| == 0 then [] else blocks[0] + Flatten(blocks[1..])
  }

  /** Every element of a flattened list comes from some block, and back. */
  lemma {:induction false} FlattenMembership<T>(blocks: seq<seq<T>>, x: T)
    ensures x in Flatten(blocks) <==> exists i :: 0 <= i < |blocks| && x in blocks[i]
  {
    if |blocks| > 0 {
      FlattenMembership(blocks[1..], x);
      if x in Flatten(blocks[1..]) {
        var i :| 0 <= i < |blocks[1..]| && x in blocks[1..][i];
        assert x in blocks[i + 1];
      }
      if exists i :: 0 <= i < |blocks| && x in blocks[i] {
        var i :| 0 <= i < |blocks| && x in blocks[i];
        if i > 0 {
          assert x in blocks[1..][i - 1];
        }
      }
    }
  }

  /** `s`, read as rows of length `k`, holds `x` in row `i`, column `j`. */
  predicate AtRowMajor<T(==)>(s: seq<T>, k: nat, i: nat, j: nat, x: T) {
    i * k + j < |s| && s[i * k + j] == x
  }

  /** The length of a concatenation of blocks of a common length `k`. */
  lemma {:induction false} FlattenLength<T>(blocks: seq<seq<T>>, k: nat)
    requires forall i :: 0 <= i < |blocks| ==> |blocks[i]| == k
    ensures |Flatten(blocks)| == |blocks| * k
  {
    if |blocks| > 0 {
      FlattenLength(blocks[1..], k);
      assert |blocks| * k == k + (|blocks| - 1) * k;
    }
  }

  /** Blocks of a common length `k` lay out row-major: element `j` of
      block `i` sits at position `i * k + j`. */
  lemma {:induction false} FlattenAt<T>(blocks: seq<seq<T>>, k: nat, i: nat, j: nat)
    requires forall b :: 0 <= b < |blocks| ==> |blocks[b]| == k
    requires i < |blocks| && j < k
    ensures i * k + j < |Flatten(blocks)|
    ensures Flatten(blocks)[i * k + j] == blocks[i][j]
  {
    FlattenLength(blocks, k);
    var rest := blocks[1..];
    assert Flatten(blocks) == blocks[0] + Flatten(rest);
    if i > 0 {
      assert forall b :: 0 <= b < |rest| ==> |rest[b]| == k by {
        forall b | 0 <= b < |rest| ensures |rest[b]| == k {
          assert rest[b] == blocks[b + 1];
        }
      }
      FlattenAt(rest, k, i - 1, j);
      RowShift(k, i, j);
      assert rest[i - 1] == blocks[i];
    }
  }

  /** Row 0 of a row-major layout is its first block. */
  lemma AtRowMajorHead<T>(first: seq<T>, rest: seq<T>, k: nat, j: nat)
    requires |first| == k && j < k
    ensures j < |first + rest| && (first + rest)[j] == first[j]
  {
  }

  /** Row `i > 0` of a layout whose first block has length `k` is row
      `i - 1` of the rest. */
  lemma AtRowMajorNext<T>(first: seq<T>, rest: seq<T>, k: nat, i: nat, j: nat)
    requires |first| == k && i > 0 && (i - 1) * k + j < |rest|
    ensures i * k + j < |first + rest| && (first + rest)[i * k + j] == rest[(i - 1) * k + j]
  {
    RowShift(k, i, j);
  }

  /** Row `i` of a row-major layout is row `i - 1` after the first row. */
  lemma RowShift(k: nat, i: nat, j: nat)
    requires i > 0
    ensures i * k + j == k + ((i - 1) * k + j)
  {
  }

  /** Concatenated blocks of a common length `k` lay out row-major. */
  lemma FlattenUniform<T>(blocks: seq<seq<T>>, k: nat)
    requires forall i :: 0 <= i < |blocks| ==> |blocks[i]| == k
    ensures |Flatten(blocks)| == |blocks| * k
    ensures forall i, j :: 0 <= i < |blocks| && 0 <= j < k ==> AtRowMajor(Flatten(blocks), k, i, j, blocks[i][j])
  {
    FlattenLength(blocks, k);
    forall i, j | 0 <= i < |blocks| && 0 <= j < k
      ensures AtRowMajor(Flatten(blocks), k, i, j, blocks[i][j])
    {
      FlattenAt(blocks, k, i, j);
    }
  }

  /** Concatenating duplicate-free blocks that share no element gives a
      duplicate-free list. */
  lemma {:induction false} DistinctFlatten<T>(blocks: seq<seq<T>>)
    requires forall i :: 0 <= i < |blocks| ==> Distinct(blocks[i])
    requires forall i, j, x :: 0 <= i < j < |blocks| && x in blocks[i] ==> x !in blocks[j]
    ensures Distinct(Flatten(blocks))
  {
    if |blocks| > 0 {
      var rest := blocks[1..];
      DistinctFlatten(rest);
      forall x | x in blocks[0]
        ensures x !in Flatten(rest)
      {
        FlattenMembership(rest, x);
      }
      DistinctAppend(blocks[0], Flatten(rest));
    }
  }

  /** Two duplicate-free lists with no common element concatenate to one. */
  lemma DistinctAppend<T>(a: seq<T>, b: seq<T>)
    requires Distinct(a) && Distinct(b)
    requires forall x :: x in a ==> x !in b
    ensures Distinct(a + b)
  {
    forall i, j | 0 <= i < j < |a + b|
      ensures (a + b)[i] != (a + b)[j]
    {
      if i < |a| && j >= |a| {
        assert (a + b)[i] in a;
        assert (a + b)[j] == b[j - |a|];
      }
    }
  }

  /** The dictionary after `for k, v in zip(keys, vals): d[k] = v`: keys are
      only added, and the last assignment to a key decides its value. */
  function PutAll<K, V>(d: map<K, V>, keys: seq<K>, vals: seq<V>): (r: map<K, V>)
    requires |keys| == |vals|
    ensures r.Keys == d.Keys + (set k | k in keys)
    ensures forall k :: k in d && k !in keys ==> r[k] == d[k]
    ensures forall i :: 0 <= i < |keys| && keys[i] !in keys[i + 1..] ==> r[keys[i]] == vals[i]
    decreases |keys|
  {
    if |keys| == 0 then d
    else
      var r := PutAll(d[keys[0] := vals[0]], keys[1..], vals[1..]);
      PutAllStep(d, keys, vals, r);
      r
  }

  /** One step of PutAll: what the assignments after the first guarantee,
      together with the first assignment, is what all of them guarantee. */
  lemma PutAllStep<K, V>(d: map<K, V>, keys: seq<K>, vals: seq<V>, r: map<K, V>)
    requires |keys| == |vals| && |keys| > 0
    requires r.Keys == d[keys[0] := vals[0]].Keys + (set k | k in keys[1..])
    requires forall k :: k in d[keys[0] := vals[0]] && k !in keys[1..] ==> r[k] == d[keys[0] := vals[0]][k]
    requires forall i :: 0 <= i < |keys[1..]| && keys[1..][i] !in keys[1..][i + 1..] ==> r[keys[1..][i]] == vals[1..][i]
    ensures r.Keys == d.Keys + (set k | k in keys)
    ensures forall k :: k in d && k !in keys ==> r[k] == d[k]
    ensures forall i :: 0 <= i < |keys| && keys[i] !in keys[i + 1..] ==> r[keys[i]] == vals[i]
  {
    assert (set k | k in keys) == {keys[0]} + (set k | k in keys[1..]);
    forall i | 0 <= i < |keys| && keys[i] !in keys[i + 1..]
      ensures r[keys[i]] == vals[i]
    {
      if i > 0 {
        assert keys[1..][i - 1] == keys[i];
        assert keys[1..][i - 1 + 1..] == keys[i + 1..];
      }
    }
  }

  /** With no repeated key, every assignment survives. */
  lemma PutAllDistinct<K, V>(d: map<K, V>, keys: seq<K>, vals: seq<V>)
    requires |keys| == |vals|
    requires Distinct(keys)
    ensures forall i :: 0 <= i < |keys| ==> PutAll(d, keys, vals)[keys[i]] == vals[i]
  {
    assert forall i :: 0 <= i < |keys| ==> keys[i] !in keys[i + 1..];
  }

  /** Assigning one value to every key leaves that value at every key. */
  lemma {:induction false} PutAllConstant<K, V>(d: map<K, V>, keys: seq<K>, vals: seq<V>, v: V)
    requires |keys| == |vals|
    requires forall i :: 0 <= i < |vals| ==> vals[i] == v
    ensures forall k :: k in keys ==> PutAll(d, keys, vals)[k] == v
    decreases |keys|
  {
    if |keys| > 0 {
      PutAllConstant(d[keys[0] := vals[0]], keys[1..], vals[1..], v);
      forall k | k in keys
        ensures PutAll(d, keys, vals)[k] == v
      {
        if k !in keys[1..] {
          assert k == keys[0];
        }
      }
    }
  }

  /** Assigning row-major blocks of keys and values pairwise, with no key
      repeated, leaves value `j` of block `i` at key `j` of block `i`. */
  lemma PutAllBlocks<K, V>(d: map<K, V>, keys: seq<seq<K>>, vals: seq<seq<V>>, k: nat, i: nat, j: nat)
    requires |keys| == |vals|
    requires forall b :: 0 <= b < |keys| ==> |keys[b]| == k && |vals[b]| == k
    requires Distinct(Flatten(keys))
    requires i < |keys| && j < k
    ensures |Flatten(keys)| == |Flatten(vals)|
    ensures keys[i][j] in PutAll(d, Flatten(keys), Flatten(vals))
    ensures PutAll(d, Flatten(keys), Flatten(vals))[keys[i][j]] == vals[i][j]
  {
    FlattenLength(keys, k);
    FlattenLength(vals, k);
    FlattenAt(keys, k, i, j);
    FlattenAt(vals, k, i, j);
    PutAllDistinctAt(d, Flatten(keys), Flatten(vals), i * k + j);
  }

  /** With distinct keys, key `n` ends up holding value `n`. */
  lemma PutAllDistinctAt<K, V>(d: map<K, V>, keys: seq<K>, vals: seq<V>, n: nat)
    requires |keys| == |vals|
    requires Distinct(keys)
    requires n < |keys|
    ensures keys[n] in PutAll(d, keys, vals)
    ensures PutAll(d, keys, vals)[keys[n]] == vals[n]
  {
    assert keys[n] !in keys[n + 1..];
  }

  /** Appending keeps what a row-major prefix holds. */
  lemma AtRowMajorAppend<T>(s: seq<T>, t: seq<T>, k: nat, i: nat, j: nat, x: T)
    requires AtRowMajor(s, k, i, j, x)
    ensures AtRowMajor(s + t, k, i, j, x)
  {
  }
}
