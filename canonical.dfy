/** The canonical signing string: pairs in ascending key order, values turned
    into text, pairs whose text is empty dropped, joined as `k1=v1&k2=v2`, and
    the merchant key appended as `&key=<key>`. */
module Canonical {
  import opened Values
  import opened Ordering

  /** The keys of a list of pairs, in the same order. */
  function KeysOf(ps: seq<(string, string)>): (r: seq<string>)
    ensures |r| == |ps|
    ensures forall i :: 0 <= i < |ps| ==> r[i] == ps[i].0
  {
    if ps == [] then [] else [ps[0].0] + KeysOf(ps[1..])
  }

  /** The surviving pairs for `keys`, taken in the order of `keys`: each value
      is converted first and the pair kept only if the converted value is truthy. */
  function PairsOf(m: Fields, keys: seq<string>): seq<(string, string)>
    requires forall i :: 0 <= i < |keys| ==> keys[i] in m
  {
    if keys == [] then []
    else
      var v := Converted(m[keys[0]]);
      (if Truthy(v) then [(keys[0], v.s)] else []) + PairsOf(m, keys[1..])
  }

  /** Each pair of `r` is a kept field of `keys` with its text. */
  ghost predicate SoundPairs(m: Fields, keys: seq<string>, r: seq<(string, string)>)
  {
    forall i :: 0 <= i < |r| ==> r[i].0 in keys && r[i].0 in m && Kept(m[r[i].0]) && r[i].1 == Format(m[r[i].0])
  }

  /** Every pair produced comes from a kept field of `keys` and carries its text. */
  lemma {:induction false} PairsOfSound(m: Fields, keys: seq<string>)
    requires forall i :: 0 <= i < |keys| ==> keys[i] in m
    ensures SoundPairs(m, keys, PairsOf(m, keys))
  {
    if keys != [] {
      var k, tail := keys[0], keys[1..];
      PairsOfSound(m, tail);
      var rest := PairsOf(m, tail);
      var r := PairsOf(m, keys);
      KeptIff(m[k]);
      forall i | 0 <= i < |rest|
        ensures rest[i].0 in keys
      {
        var t :| 0 <= t < |tail| && tail[t] == rest[i].0;
        assert keys[t + 1] == tail[t];
      }
      if Kept(m[k]) {
        assert r == [(k, Format(m[k]))] + rest;
      } else {
        assert r == rest;
      }
    }
  }

  /** Every kept field of `keys` produces a pair. */
  lemma {:induction false} PairsOfComplete(m: Fields, keys: seq<string>)
    requires forall i :: 0 <= i < |keys| ==> keys[i] in m
    ensures var r := PairsOf(m, keys);
      forall k :: k in keys && Kept(m[k]) ==> k in KeysOf(r)
  {
    if keys != [] {
      var k, tail := keys[0], keys[1..];
      PairsOfComplete(m, tail);
      var rest := PairsOf(m, tail);
      var r := PairsOf(m, keys);
      if Kept(m[k]) {
        assert KeysOf(r) == [k] + KeysOf(rest);
      } else {
        assert r == rest;
      }
      forall x | x in keys && Kept(m[x])
        ensures x in KeysOf(r)
      {
        if x != k {
          var t :| 0 <= t < |keys| && keys[t] == x;
          assert tail[t - 1] == x;
        }
      }
    }
  }

  /** Filtering keeps the order of `keys`. */
  lemma {:induction false} PairsOfAscending(m: Fields, keys: seq<string>)
    requires forall i :: 0 <= i < |keys| ==> keys[i] in m
    requires Ascending(keys)
    ensures Ascending(KeysOf(PairsOf(m, keys)))
  {
    if keys != [] {
      var k, tail := keys[0], keys[1..];
      PairsOfAscending(m, tail);
      PairsOfSound(m, tail);
      var rest := PairsOf(m, tail);
      var r := PairsOf(m, keys);
      forall j | 0 <= j < |rest|
        ensures Below(k, rest[j].0)
      {
        assert rest[j].0 in tail;
        var t :| 0 <= t < |tail| && tail[t] == rest[j].0;
        assert keys[t + 1] == tail[t];
      }
      if Truthy(Converted(m[k])) {
        assert KeysOf(r) == [k] + KeysOf(rest);
      } else {
        assert r == rest;
      }
    }
  }

  /** No pair is produced exactly when no field of `keys` is kept. */
  lemma {:induction false} PairsOfEmpty(m: Fields, keys: seq<string>)
    requires forall i :: 0 <= i < |keys| ==> keys[i] in m
    ensures PairsOf(m, keys) == [] <==> forall i :: 0 <= i < |keys| ==> !Kept(m[keys[i]])
  {
    if keys != [] {
      var tail := keys[1..];
      PairsOfEmpty(m, tail);
      assert forall i :: 1 <= i < |keys| ==> keys[i] == tail[i - 1];
    }
  }

  /** The pairs the signer joins: ascending by key, one for each field whose
      converted value is truthy, carrying that field's text. */
  function CanonicalPairs(m: Fields): (r: seq<(string, string)>)
    ensures Ascending(KeysOf(r))
    ensures forall i :: 0 <= i < |r| ==> r[i].0 in m && Kept(m[r[i].0]) && r[i].1 == Format(m[r[i].0])
    ensures forall k :: k in m && Kept(m[k]) ==> k in KeysOf(r)
    ensures r == [] <==> forall k :: k in m ==> !Kept(m[k])
  {
    var keys := SortedKeys(m.Keys);
    assert forall i :: 0 <= i < |keys| ==> keys[i] in m;
    PairsOfEmpty(m, keys);
    PairsOfSound(m, keys);
    PairsOfComplete(m, keys);
    PairsOfAscending(m, keys);
    PairsOf(m, keys)
  }

  /** One pair as the signer writes it, `"=".join(kv)`. */
  function PairText(p: (string, string)): string
  {
    p.0 + "=" + p.1
  }

  /** `"&".join("=".join(kv) for kv in pairs)`: empty only for no pairs, and
      starting with the first pair. */
  function Joined(ps: seq<(string, string)>): (r: string)
    ensures r == "" <==> ps == []
    ensures ps != [] ==> |r| >= |PairText(ps[0])| && r[..|PairText(ps[0])|] == PairText(ps[0])
  {
    if ps == [] then ""
    else if |ps| == 1 then PairText(ps[0])
    else PairText(ps[0]) + "&" + Joined(ps[1..])
  }

  /** Joining one more pair adds it after an `&`. */
  lemma {:induction false} JoinedAppend(ps: seq<(string, string)>, p: (string, string))
    requires ps != []
    ensures Joined(ps + [p]) == Joined(ps) + "&" + PairText(p)
  {
    var qs := ps + [p];
    assert qs[0] == ps[0];
    if |ps| > 1 {
      assert qs[1..] == ps[1..] + [p];
      JoinedAppend(ps[1..], p);
    } else {
      assert qs[1..] == [p];
    }
  }

  /** The canonical form of a field mapping: empty exactly when no field is kept. */
  function CanonicalText(m: Fields): (r: string)
    ensures r == "" <==> forall k :: k in m ==> !Kept(m[k])
  {
    Joined(CanonicalPairs(m))
  }

  /** The string the digest is taken of: the canonical form, then the key
      suffix. */
  function SigningString(m: Fields, key: string): string
  {
    CanonicalText(m) + ("&key=" + key)
  }

  lemma KeysIncluded(m1: Fields, m2: Fields)
    requires forall k :: k in m1 && Kept(m1[k]) ==> k in m2 && Kept(m2[k])
    ensures forall x :: x in KeysOf(CanonicalPairs(m1)) ==> x in KeysOf(CanonicalPairs(m2))
  {
    var p1 := CanonicalPairs(m1);
    var k1 := KeysOf(p1);
    forall x | x in k1
      ensures x in KeysOf(CanonicalPairs(m2))
    {
      var i :| 0 <= i < |k1| && k1[i] == x;
      assert p1[i].0 == x;
      assert x in m2 && Kept(m2[x]);
    }
  }

  lemma SameKeptSameKeys(m1: Fields, m2: Fields)
    requires forall k :: (k in m1 && Kept(m1[k])) <==> (k in m2 && Kept(m2[k]))
    ensures KeysOf(CanonicalPairs(m1)) == KeysOf(CanonicalPairs(m2))
  {
    KeysIncluded(m1, m2);
    KeysIncluded(m2, m1);
    AscendingUnique(KeysOf(CanonicalPairs(m1)), KeysOf(CanonicalPairs(m2)));
  }

  /** Two mappings that keep the same fields with the same text have the same
      canonical pairs: only the surviving contents matter, never the order the
      mapping was built in nor the fields that are dropped. */
  lemma SameKeptSameCanonical(m1: Fields, m2: Fields)
    requires forall k :: (k in m1 && Kept(m1[k])) <==> (k in m2 && Kept(m2[k]))
    requires forall k :: k in m1 && k in m2 && Kept(m1[k]) ==> Format(m1[k]) == Format(m2[k])
    ensures CanonicalPairs(m1) == CanonicalPairs(m2)
    ensures forall key :: SigningString(m1, key) == SigningString(m2, key)
  {
    var p1, p2 := CanonicalPairs(m1), CanonicalPairs(m2);
    SameKeptSameKeys(m1, m2);
    forall i | 0 <= i < |p1|
      ensures p1[i] == p2[i]
    {
      assert p1[i].0 == KeysOf(p1)[i] == KeysOf(p2)[i] == p2[i].0;
    }
  }

  /** A field whose value is dropped may as well be absent. */
  lemma DroppedIgnored(m: Fields, k: string, v: Value, key: string)
    requires !Kept(v)
    ensures SigningString(m[k := v], key) == SigningString(m - {k}, key)
  {
    SameKeptSameCanonical(m[k := v], m - {k});
  }

  /** When no pair survives the canonical form is empty, and the key suffix
      is still appended. */
  lemma NothingKept(m: Fields, key: string)
    requires forall k :: k in m ==> !Kept(m[k])
    ensures CanonicalText(m) == ""
    ensures SigningString(m, key) == "&key=" + key
  {
  }

  /** The signing string always ends with the key suffix, and the suffix is
      all of it exactly when no field is kept. */
  lemma KeySuffix(m: Fields, key: string)
    ensures |SigningString(m, key)| >= |"&key=" + key|
    ensures SigningString(m, key)[|SigningString(m, key)| - |"&key=" + key|..] == "&key=" + key
    ensures SigningString(m, key) == "&key=" + key <==> forall k :: k in m ==> !Kept(m[k])
  {
  }

  /** A mapping with one surviving field signs just that pair. */
  lemma SingleKept(m: Fields, k: string, key: string)
    requires k in m && Kept(m[k])
    requires forall j :: j in m && j != k ==> !Kept(m[j])
    ensures SigningString(m, key) == k + "=" + Format(m[k]) + "&key=" + key
  {
    var p := CanonicalPairs(m);
    AscendingUnique(KeysOf(p), [k]);
  }
}
