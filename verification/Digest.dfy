// pkg/digest/digest.go: the digest of a string map, and the orders it rests on.
module Digest {
  // Go compares strings byte by byte; a Dafny char stands for one byte here.
  predicate Less(a: string, b: string) {
    b != "" && (a == "" || a[0] < b[0] || (a[0] == b[0] && Less(a[1..], b[1..])))
  }

  // A proper prefix comes first, and otherwise the smaller byte where two strings part.
  predicate PartAt(a: string, b: string, i: nat) {
    i < |a| && i < |b| && a[..i] == b[..i] && a[i] < b[i]
  }

  lemma {:induction false} LessIsBytewise(a: string, b: string)
    ensures Less(a, b) <==> a < b || exists i: nat :: PartAt(a, b, i)
  {
    if a == "" || b == "" {
    } else if a[0] != b[0] {
      assert a[0] < b[0] ==> PartAt(a, b, 0);
      assert forall i: nat :: PartAt(a, b, i) && i > 0 ==> a[..i][0] == b[..i][0];
    } else {
      LessIsBytewise(a[1..], b[1..]);
      assert a == [a[0]] + a[1..] && b == [b[0]] + b[1..];
      assert a[1..] < b[1..] <==> a < b;
      if i: nat :| PartAt(a[1..], b[1..], i) {
        assert a[..i + 1] == [a[0]] + a[1..][..i] == [b[0]] + b[1..][..i] == b[..i + 1];
        assert PartAt(a, b, i + 1);
      }
      if i: nat :| PartAt(a, b, i) {
        assert a[1..][..i - 1] == a[..i][1..] == b[..i][1..] == b[1..][..i - 1];
        assert PartAt(a[1..], b[1..], i - 1);
      }
    }
  }

  lemma {:induction false} LessTransitive(a: string, b: string, c: string)
    requires Less(a, b) && Less(b, c)
    ensures Less(a, c)
  {
    if a == "" || a[0] != b[0] || b[0] != c[0] {
    } else {
      LessTransitive(a[1..], b[1..], c[1..]);
    }
  }

  lemma {:induction false} LessTotal(a: string, b: string)
    ensures !(Less(a, b) && Less(b, a))
    ensures Less(a, b) || Less(b, a) || a == b
    ensures a == b ==> !Less(a, b)
  {
    if a == "" || b == "" {
    } else {
      LessTotal(a[1..], b[1..]);
      if a[1..] == b[1..] && a[0] == b[0] {
        assert a == [a[0]] + a[1..] == b;
      }
    }
  }

  predicate Ascending(keys: seq<string>) {
    forall i, j :: 0 <= i < j < |keys| ==> Less(keys[i], keys[j])
  }

  ghost predicate Distinct(keys: seq<string>) {
    forall i, j :: 0 <= i < j < |keys| ==> keys[i] != keys[j]
  }

  function Elements(keys: seq<string>): set<string> {
    set k | k in keys
  }

  lemma ElementsCons(k: string, keys: seq<string>)
    ensures Elements([k] + keys) == {k} + Elements(keys)
  {
  }

  lemma ListedKeys(keys: seq<string>)
    ensures forall i :: 0 <= i < |keys| ==> keys[i] in Elements(keys)
    ensures keys == [] <==> Elements(keys) == {}
  {
    if keys != [] { assert keys[0] in Elements(keys); }
  }

  lemma AscendingTail(keys: seq<string>)
    requires Ascending(keys) && keys != []
    ensures Ascending(keys[1..])
    ensures keys[0] !in Elements(keys[1..])
    ensures Elements(keys[1..]) == Elements(keys) - {keys[0]}
  {
    forall k | k in keys[1..] ensures Less(keys[0], k) && k != keys[0] {
      LessTotal(keys[0], k);
    }
    assert keys == [keys[0]] + keys[1..];
  }

  // A set of keys has one ascending listing, so iteration order cannot show.
  lemma {:induction false} AscendingUnique(a: seq<string>, b: seq<string>)
    requires Ascending(a) && Ascending(b) && Elements(a) == Elements(b)
    ensures a == b
  {
    ListedKeys(a);
    ListedKeys(b);
    if a == [] {
    } else {
      assert a[0] in Elements(b) && b[0] in Elements(a);
      LessTotal(a[0], b[0]);
      AscendingTail(a);
      AscendingTail(b);
      AscendingUnique(a[1..], b[1..]);
      assert a == [a[0]] + a[1..];
      assert b == [b[0]] + b[1..];
    }
  }

  function Insert(k: string, sorted: seq<string>): (r: seq<string>)
    ensures Elements(r) == Elements(sorted) + {k}
  {
    if sorted == [] || Less(k, sorted[0]) then [k] + sorted
    else
      ElementsCons(sorted[0], Insert(k, sorted[1..]));
      ElementsCons(sorted[0], sorted[1..]);
      assert sorted == [sorted[0]] + sorted[1..];
      [sorted[0]] + Insert(k, sorted[1..])
  }

  lemma {:induction false} InsertSorts(k: string, sorted: seq<string>)
    requires Ascending(sorted) && k !in sorted
    ensures Ascending(Insert(k, sorted))
  {
    if sorted == [] {
    } else if Less(k, sorted[0]) {
      forall j | 0 <= j < |sorted| ensures Less(k, sorted[j]) {
        if j > 0 { LessTransitive(k, sorted[0], sorted[j]); }
      }
    } else {
      InsertSorts(k, sorted[1..]);
      LessTotal(k, sorted[0]);
      forall x | x in Insert(k, sorted[1..]) ensures Less(sorted[0], x) {
        assert x in Elements(sorted[1..]) + {k};
      }
    }
  }

  // sort.Strings on a list without repetitions.
  function Sort(keys: seq<string>): (r: seq<string>)
    ensures Elements(r) == Elements(keys)
  {
    if keys == [] then []
    else
      ElementsCons(keys[0], keys[1..]);
      assert keys == [keys[0]] + keys[1..];
      Insert(keys[0], Sort(keys[1..]))
  }

  lemma {:induction false} SortSorts(keys: seq<string>)
    requires Distinct(keys)
    ensures Ascending(Sort(keys))
  {
    if keys == [] {
    } else {
      SortSorts(keys[1..]);
      assert keys[0] !in Elements(Sort(keys[1..]));
      InsertSorts(keys[0], Sort(keys[1..]));
    }
  }

  // Every finite set of strings has an ascending listing.
  lemma {:induction false} ListingExists(s: set<string>) returns (keys: seq<string>)
    ensures Ascending(keys) && Elements(keys) == s
  {
    if s == {} {
      keys := [];
    } else {
      var k :| k in s;
      var rest := ListingExists(s - {k});
      assert k !in Elements(rest);
      InsertSorts(k, rest);
      keys := Insert(k, rest);
    }
  }

  ghost function Listing(s: set<string>): (keys: seq<string>)
    ensures Ascending(keys) && Elements(keys) == s
    ensures forall k :: k in keys <==> k in s
  {
    assert exists ks :: Ascending(ks) && Elements(ks) == s by { var ks := ListingExists(s); }
    var ks :| Ascending(ks) && Elements(ks) == s;
    assert forall k :: k in ks <==> k in Elements(ks);
    ks
  }

  // What the running digest has been fed once the listed keys are written.
  function Written(keys: seq<string>, data: map<string, string>): string
    requires forall k :: k in keys ==> k in data
  {
    if keys == [] then ""
    else Written(keys[..|keys| - 1], data) + keys[|keys| - 1] + data[keys[|keys| - 1]]
  }

  ghost function MapPreimage(data: map<string, string>): string {
    Written(Listing(data.Keys), data)
  }

  predicate IsHexDigit(c: char) {
    '0' <= c <= '9' || 'a' <= c <= 'f'
  }

  predicate IsDigest(d: string) {
    |d| == 64 && forall i :: 0 <= i < |d| ==> IsHexDigit(d[i])
  }

  function Zeros(n: nat): (z: string)
    ensures |z| == n && forall i :: 0 <= i < n ==> z[i] == '0'
  {
    seq(n, _ => '0')
  }

  // SHA-256 with hexadecimal output (section 6.2 of FIPS 180-4), left uninterpreted:
  // nothing but the shape of its result is ever used.
  type Hasher = f: string -> string | forall x: string :: IsDigest(f(x)) witness (x => Zeros(64))
  const Sha256Hex: Hasher

  ghost function MapDigest(data: map<string, string>): (d: string)
    ensures d == "" || IsDigest(d)
    ensures d == "" <==> data == map[]
  {
    if data == map[] then "" else Sha256Hex(MapPreimage(data))
  }

  // The second loop of SHA256Map: each key, then its value, into the running digest.
  method WriteAll(keys: seq<string>, data: map<string, string>) returns (digest: string)
    requires forall k :: k in keys ==> k in data
    ensures digest == Written(keys, data)
  {
    digest := "";
    for i := 0 to |keys|
      invariant digest == Written(keys[..i], data)
    {
      assert keys[..i + 1][..i] == keys[..i];
      digest := digest + keys[i];
      digest := digest + data[keys[i]];
    }
    assert keys[..|keys|] == keys;
  }

  // The keys of a map, in whatever order the range statement meets them.
  method RangeKeys(data: map<string, string>) returns (keys: seq<string>)
    ensures Distinct(keys) && Elements(keys) == data.Keys
  {
    keys := [];
    var left := data.Keys;
    while left != {}
      invariant left <= data.Keys
      invariant Distinct(keys) && Elements(keys) == data.Keys - left
      decreases left
    {
      var k :| k in left;
      assert k !in Elements(keys);
      assert Elements(keys + [k]) == Elements(keys) + {k};
      keys := keys + [k];
      left := left - {k};
    }
  }

  // The digest of a map is that of its text under any ascending listing of its keys.
  lemma MapDigestIs(data: map<string, string>, keys: seq<string>)
    requires data != map[] && Ascending(keys) && Elements(keys) == data.Keys
    ensures (forall k :: k in keys ==> k in data) && MapDigest(data) == Sha256Hex(Written(keys, data))
  {
    assert forall k :: k in keys ==> k in Elements(keys);
    AscendingUnique(keys, Listing(data.Keys));
  }

  method SHA256Map(data: map<string, string>) returns (d: string)
    ensures d == MapDigest(data)
    ensures data == map[] ==> d == ""
    ensures forall keys :: data != map[] && Ascending(keys) && Elements(keys) == data.Keys ==>
              (forall k :: k in keys ==> k in data) && d == Sha256Hex(Written(keys, data))
  {
    if |data| == 0 {
      return "";
    }
    var keys := RangeKeys(data);
    OrderIndependent(data, keys);
    keys := Sort(keys);
    var digest := WriteAll(keys, data);
    forall ks | Ascending(ks) && Elements(ks) == data.Keys {
      MapDigestIs(data, ks);
    }
    return Sha256Hex(digest);
  }

  // Whatever order the range ran in, the digest is fed the same bytes.
  lemma OrderIndependent(data: map<string, string>, order: seq<string>)
    requires Distinct(order) && Elements(order) == data.Keys
    ensures Sort(order) == Listing(data.Keys)
  {
    SortSorts(order);
    AscendingUnique(Sort(order), Listing(data.Keys));
  }

  lemma PreimageOfOne(k: string, v: string)
    ensures MapPreimage(map[k := v]) == k + v
  {
    var m := map[k := v];
    assert Ascending([k]) && Elements([k]) == m.Keys;
    AscendingUnique([k], Listing(m.Keys));
    assert Written([k], m) == Written([k][..0], m) + k + v;
  }

  lemma PreimageOfTwo(k: string, v: string, l: string, u: string)
    requires Less(k, l)
    ensures MapPreimage(map[k := v, l := u]) == k + v + l + u
  {
    var m := map[k := v, l := u];
    LessTotal(k, l);
    var ks := [k, l];
    assert Ascending(ks);
    assert Elements(ks) == m.Keys;
    AscendingUnique(ks, Listing(m.Keys));
    assert ks[..1] == [k];
    assert [k][..0] == [];
    assert Written([k], m) == Written([k][..0], m) + k + v == k + v;
    assert Written(ks, m) == Written(ks[..1], m) + l + u;
  }

  lemma {:induction false} WrittenInjective(keys: seq<string>, a: map<string, string>, b: map<string, string>)
    requires forall k :: k in keys ==> k in a && k in b && |a[k]| == |b[k]|
    ensures |Written(keys, a)| == |Written(keys, b)|
    ensures Written(keys, a) == Written(keys, b) <==> forall k :: k in keys ==> a[k] == b[k]
  {
    if keys == [] {
    } else {
      var front, k := keys[..|keys| - 1], keys[|keys| - 1];
      WrittenInjective(front, a, b);
      var n := |Written(front, a)|;
      var p, q := Written(keys, a), Written(keys, b);
      assert p[..n] == Written(front, a) && q[..n] == Written(front, b);
      assert p[n + |k|..] == a[k] && q[n + |k|..] == b[k];
      assert keys == front + [k];
    }
  }

  // Values of fixed lengths under fixed keys are told apart.
  lemma EqualLengthsInjective(a: map<string, string>, b: map<string, string>)
    requires a.Keys == b.Keys && forall k :: k in a ==> |a[k]| == |b[k]|
    ensures MapPreimage(a) == MapPreimage(b) <==> a == b
  {
    WrittenInjective(Listing(a.Keys), a, b);
    if MapPreimage(a) == MapPreimage(b) {
      assert forall k :: k in a ==> k in Listing(a.Keys) && a[k] == b[k];
    }
  }

  // Nothing separates keys from values, so different maps can share a preimage.
  lemma PreimageNotInjective()
    ensures map["a" := "bc"] != map["ab" := "c"]
    ensures MapPreimage(map["a" := "bc"]) == MapPreimage(map["ab" := "c"])
  {
    PreimageOfOne("a", "bc");
    PreimageOfOne("ab", "c");
    assert "a" in map["a" := "bc"] && "a" !in map["ab" := "c"];
  }
}
