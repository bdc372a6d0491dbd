/** Cursor order over a bucket: its keys, ascending. */
module OrderedKeys {
  import opened Lexicographic

  ghost predicate Ascends(ks: seq<string>) {
    forall i, j :: 0 <= i < j < |ks| ==> Less(ks[i], ks[j])
  }

  predicate IsLeast(k: string, keys: set<string>) {
    k in keys && forall x :: x in keys && x != k ==> Less(k, x)
  }

  lemma {:induction false} LeastExists(keys: set<string>)
    requires keys != {}
    ensures exists k :: IsLeast(k, keys)
    decreases |keys|
  {
    var k :| k in keys;
    if keys == {k} {
      assert IsLeast(k, keys);
    } else {
      LeastExists(keys - {k});
      var m :| IsLeast(m, keys - {k});
      Total(k, m);
      if Less(k, m) {
        forall x | x in keys && x != k ensures Less(k, x) {
          if x != m { Transitive(k, m, x); }
        }
        assert IsLeast(k, keys);
      } else {
        assert IsLeast(m, keys);
      }
    }
  }

  lemma LeastIsUnique(keys: set<string>, a: string, b: string)
    requires IsLeast(a, keys) && IsLeast(b, keys)
    ensures a == b
  {
    if a != b { Asymmetric(a, b); }
  }

  function Least(keys: set<string>): (k: string)
    requires keys != {}
    ensures IsLeast(k, keys)
  {
    LeastExists(keys);
    assert forall a, b :: IsLeast(a, keys) && IsLeast(b, keys) ==> a == b by {
      forall a, b | IsLeast(a, keys) && IsLeast(b, keys) ensures a == b { LeastIsUnique(keys, a, b); }
    }
    var k :| k in keys && IsLeast(k, keys);
    k
  }

  /** The keys of a bucket in the order a cursor visits them. */
  function Ascending(keys: set<string>): (ks: seq<string>)
    ensures |ks| == |keys|
    ensures forall k :: k in ks <==> k in keys
    decreases |keys|
  {
    if keys == {} then [] else
    var k := Least(keys);
    [k] + Ascending(keys - {k})
  }

  lemma {:induction false} AscendingAscends(keys: set<string>)
    ensures Ascends(Ascending(keys))
    decreases |keys|
  {
    if keys != {} {
      var k := Least(keys);
      AscendingAscends(keys - {k});
      LeastFirst(k, Ascending(keys - {k}), keys);
    }
  }

  lemma LeastFirst(k: string, ks: seq<string>, keys: set<string>)
    requires IsLeast(k, keys) && Ascends(ks) && forall x :: x in ks ==> x in keys && x != k
    ensures Ascends([k] + ks)
  {
    var out := [k] + ks;
    forall i, j | 0 <= i < j < |out| ensures Less(out[i], out[j]) {
      assert out[j] == ks[j - 1] && ks[j - 1] in ks;
    }
  }

  /** The visiting order is the only ascending enumeration of the keys. */
  lemma {:induction false} AscendingIsUnique(ks: seq<string>, keys: set<string>)
    requires Ascends(ks)
    requires forall k :: k in ks <==> k in keys
    ensures ks == Ascending(keys)
    decreases |ks|
  {
    if ks == [] {
      assert keys == {} by { assert forall k :: k in keys ==> k in ks; }
    } else {
      FirstIsLeast(ks, keys);
      LeastIsUnique(keys, ks[0], Least(keys));
      RestOfKeys(ks, keys);
      AscendingIsUnique(ks[1..], keys - {ks[0]});
      FirstAndRest(ks);
      assert Ascending(keys) == [ks[0]] + Ascending(keys - {ks[0]});
    }
  }

  lemma FirstAndRest(ks: seq<string>)
    requires ks != []
    ensures ks == [ks[0]] + ks[1..]
  {
  }

  lemma FirstIsLeast(ks: seq<string>, keys: set<string>)
    requires Ascends(ks) && ks != [] && forall k :: k in ks <==> k in keys
    ensures IsLeast(ks[0], keys)
  {
    assert ks[0] in ks;
    forall x | x in keys && x != ks[0] ensures Less(ks[0], x) {
      var i :| 0 <= i < |ks| && ks[i] == x;
    }
  }

  lemma RestOfKeys(ks: seq<string>, keys: set<string>)
    requires Ascends(ks) && ks != [] && forall k :: k in ks <==> k in keys
    ensures Ascends(ks[1..]) && forall k :: k in ks[1..] <==> k in keys - {ks[0]}
  {
    var rest := ks[1..];
    assert ks == [ks[0]] + rest;
    forall k | k in rest ensures k != ks[0] {
      var i :| 0 <= i < |rest| && rest[i] == k;
      assert Less(ks[0], ks[i + 1]);
      Irreflexive(k);
    }
  }

  function WithPrefix(keys: set<string>, prefix: string): set<string> {
    set k | k in keys && prefix <= k
  }

  /** The keys that start with a prefix are one contiguous run: from the first
      key that is not below the prefix up to the first one that lacks it. */
  lemma {:induction false} PrefixRun(ks: seq<string>, keys: set<string>, prefix: string, lo: nat, hi: nat)
    requires ks == Ascending(keys)
    requires lo <= hi <= |ks|
    requires forall i :: 0 <= i < lo ==> Less(ks[i], prefix)
    requires forall i :: lo <= i < hi ==> prefix <= ks[i]
    requires hi < |ks| ==> !(prefix <= ks[hi]) && !Less(ks[hi], prefix)
    ensures ks[lo..hi] == Ascending(WithPrefix(keys, prefix))
  {
    AscendingAscends(keys);
    var run := ks[lo..hi];
    forall k ensures k in run <==> k in WithPrefix(keys, prefix) {
      InRun(ks, prefix, lo, hi, k);
    }
    assert Ascends(run);
    AscendingIsUnique(run, WithPrefix(keys, prefix));
  }

  lemma InRun(ks: seq<string>, prefix: string, lo: nat, hi: nat, k: string)
    requires Ascends(ks) && lo <= hi <= |ks|
    requires forall i :: 0 <= i < lo ==> Less(ks[i], prefix)
    requires forall i :: lo <= i < hi ==> prefix <= ks[i]
    requires hi < |ks| ==> !(prefix <= ks[hi]) && !Less(ks[hi], prefix)
    ensures k in ks[lo..hi] <==> k in ks && prefix <= k
  {
    var run := ks[lo..hi];
    if k in run {
      var i :| 0 <= i < |run| && run[i] == k;
      assert ks[lo + i] == k;
    }
    if k in ks && prefix <= k {
      var i :| 0 <= i < |ks| && ks[i] == k;
      PositionInRun(ks, prefix, lo, hi, i);
      assert run[i - lo] == k;
    }
  }

  lemma PositionInRun(ks: seq<string>, prefix: string, lo: nat, hi: nat, i: nat)
    requires Ascends(ks) && lo <= hi <= |ks| && i < |ks|
    requires forall j :: 0 <= j < lo ==> Less(ks[j], prefix)
    requires hi < |ks| ==> !(prefix <= ks[hi]) && !Less(ks[hi], prefix)
    requires prefix <= ks[i]
    ensures lo <= i < hi
  {
    ExtensionNotBelow(prefix, ks[i]);
    if hi <= i {
      BeyondRun(prefix, ks[hi], ks[i]);
    }
  }

  lemma ExtensionNotBelow(prefix: string, k: string)
    requires prefix <= k
    ensures !Less(k, prefix)
  {
    if k == prefix { Irreflexive(k); } else { ProperPrefixLess(prefix, k); Asymmetric(prefix, k); }
  }

  /** Once a key at or above the prefix lacks it, no later key has it. */
  lemma BeyondRun(prefix: string, stop: string, k: string)
    requires !(prefix <= stop) && !Less(stop, prefix)
    requires stop == k || Less(stop, k)
    ensures !(prefix <= k)
  {
    Total(prefix, stop);
    if prefix <= k {
      PrefixIsConvex(prefix, prefix, stop, k);
    }
  }

  /** Dropping the lowest keys leaves the upper part of the order. */
  lemma {:induction false} AscendingTail(keys: set<string>, n: nat)
    requires n <= |keys|
    ensures Ascending(keys - set k | k in Ascending(keys)[..n]) == Ascending(keys)[n..]
  {
    var ks := Ascending(keys);
    AscendingAscends(keys);
    var low := set k | k in ks[..n];
    forall k | k in ks[n..] ensures k in keys - low {
      var i :| n <= i < |ks| && ks[i] == k;
      if k in low {
        var j :| 0 <= j < n && ks[j] == k;
        assert Less(ks[j], ks[i]);
        Irreflexive(k);
      }
    }
    assert forall k :: k in ks <==> k in ks[..n] || k in ks[n..] by { assert ks == ks[..n] + ks[n..]; }
    AscendingIsUnique(ks[n..], keys - low);
  }
}
