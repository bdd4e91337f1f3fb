// pkg/terraform/state/deploy.go: the variables of a run and the hash that names it.
module RunHash {
  import opened Basics
  import opened Digest

  // Later maps win.
  function Merge(ms: seq<Data>): Data {
    if ms == [] then map[] else Merge(ms[..|ms| - 1]) + ms[|ms| - 1]
  }

  // combineVars: every config, then every secret, each key overwriting the last.
  function CombinedVars(configs: seq<Data>, secrets: seq<Data>): Data {
    Merge(configs + secrets)
  }

  // The value a key ends up with is the one in the last source that holds it.
  lemma {:induction false} MergeLastWins(ms: seq<Data>, k: string)
    ensures k in Merge(ms) <==> exists i :: 0 <= i < |ms| && k in ms[i]
    ensures forall i :: 0 <= i < |ms| && k in ms[i] && (forall j :: i < j < |ms| ==> k !in ms[j]) ==>
              Merge(ms)[k] == ms[i][k]
  {
    if ms == [] {
    } else {
      var front := ms[..|ms| - 1];
      MergeLastWins(front, k);
      assert forall i :: 0 <= i < |front| ==> front[i] == ms[i];
      if k !in ms[|ms| - 1] && k in Merge(ms) {
        var i :| 0 <= i < |front| && k in front[i];
        assert k in ms[i];
      }
    }
  }

  // A secret always beats a config; among secrets, and among configs, the last one wins.
  lemma SecretsBeatConfigs(configs: seq<Data>, secrets: seq<Data>, k: string)
    ensures k in CombinedVars(configs, secrets) <==> k in Merge(configs) || k in Merge(secrets)
    ensures k in Merge(secrets) ==> CombinedVars(configs, secrets)[k] == Merge(secrets)[k]
    ensures k in Merge(configs) && k !in Merge(secrets) ==> CombinedVars(configs, secrets)[k] == Merge(configs)[k]
  {
    MergeAppend(configs, secrets);
  }

  lemma MapSumAssociative(a: Data, b: Data, c: Data)
    ensures a + b + c == a + (b + c)
  {
  }

  lemma {:induction false} MergeAppend(a: seq<Data>, b: seq<Data>)
    ensures Merge(a + b) == Merge(a) + Merge(b)
  {
    if b == [] {
      assert a + b == a;
    } else {
      var front, last, ab := b[..|b| - 1], b[|b| - 1], a + b;
      MergeAppend(a, front);
      assert ab[..|ab| - 1] == a + front && ab[|ab| - 1] == last;
      MapSumAssociative(Merge(a), Merge(front), last);
    }
  }

  // The two range loops of combineVars. Each inner loop meets the keys of one map in
  // an order of its own choosing.
  method CombineVars(configs: seq<Data>, secrets: seq<Data>) returns (vars: Data)
    ensures vars == CombinedVars(configs, secrets)
  {
    vars := map[];
    for i := 0 to |configs|
      invariant vars == Merge(configs[..i])
    {
      MergeNext(configs, i);
      vars := Overwrite(vars, configs[i]);
    }
    assert configs[..|configs|] == configs;
    MergeAppend(configs, secrets);
    ghost var fromConfigs := vars;
    for i := 0 to |secrets|
      invariant vars == fromConfigs + Merge(secrets[..i])
    {
      MergeNext(secrets, i);
      MapSumAssociative(fromConfigs, Merge(secrets[..i]), secrets[i]);
      vars := Overwrite(vars, secrets[i]);
    }
    assert secrets[..|secrets|] == secrets;
  }

  lemma MergeNext(ms: seq<Data>, i: nat)
    requires i < |ms|
    ensures Merge(ms[..i + 1]) == Merge(ms[..i]) + ms[i]
  {
    assert ms[..i + 1][..i] == ms[..i];
  }

  method Overwrite(vars: Data, data: Data) returns (r: Data)
    ensures r == vars + data
  {
    r := vars;
    var left := data.Keys;
    while left != {}
      invariant left <= data.Keys
      invariant r == vars + (map k | k in data.Keys - left :: data[k])
      decreases left
    {
      var k :| k in left;
      r := r[k := data[k]];
      left := left - {k};
    }
    assert (map k | k in data.Keys - left :: data[k]) == data;
  }

  // binary.Write with LittleEndian of an int32: four bytes, low byte first.
  function LittleEndian32(v: int): (s: string)
    requires IsInt32(v)
    ensures |s| == 4 && forall i :: 0 <= i < 4 ==> s[i] < 256 as char
  {
    var u := if v < 0 then v + 2 * INT32_LIMIT else v;
    [(u % 256) as char, (u / 256 % 256) as char, (u / 65536 % 256) as char, (u / 16777216) as char]
  }

  function ReadLittleEndian32(s: string): int
    requires |s| == 4
  {
    var u := s[0] as int + 256 * (s[1] as int) + 65536 * (s[2] as int) + 16777216 * (s[3] as int);
    if u >= INT32_LIMIT then u - 2 * INT32_LIMIT else u
  }

  lemma LittleEndianRoundTrip(v: int)
    requires IsInt32(v)
    ensures ReadLittleEndian32(LittleEndian32(v)) == v
    ensures var s := LittleEndian32(v);
            s[0] as int + 0x100 * (s[1] as int) + 0x1_0000 * (s[2] as int) + 0x100_0000 * (s[3] as int)
            == if v < 0 then v + 0x1_0000_0000 else v
  {
    var u := if v < 0 then v + 2 * INT32_LIMIT else v;
    assert u / 65536 == u / 256 / 256;
    assert u / 16777216 == u / 65536 / 256;
  }

  // Everything generateRunHash writes into its digest.
  function Preimage(varHash: string, contentHash: string, version: int, action: string): string
    requires IsInt32(version)
  {
    varHash + contentHash + LittleEndian32(version) + action
  }

  datatype Parts = Parts(varHash: string, contentHash: string, version: int, kind: Kind)

  // Reads the parts back off a preimage; the total length says which are present.
  function Decode(p: string): (r: Option<Parts>) {
    var v := if |p| >= 138 then 64 else 0;
    if |p| - v == 74 then
      Some(Parts(p[..v], p[v..v + 64], ReadLittleEndian32(p[v + 64..v + 68]), Create))
    else if |p| - v == 75 then
      Some(Parts(p[..v], p[v..v + 64], ReadLittleEndian32(p[v + 64..v + 68]), Destroy))
    else None
  }

  // What is read back is what is there: two digests' worth of text, four bytes, a word.
  lemma DecodedParts(p: string)
    ensures Decode(p).Some? ==>
      var Parts(varHash, contentHash, version, kind) := Decode(p).value;
      && |contentHash| == 64 && (varHash == "" || |varHash| == 64)
      && |p| == |varHash| + 68 + |kind.Text()|
      && p[..|varHash| + 64] == varHash + contentHash
      && ReadLittleEndian32(p[|varHash| + 64..|varHash| + 68]) == version
  {
  }

  // With a content hash present, no two different runs share a preimage.
  lemma PreimageDecodes(varHash: string, contentHash: string, version: int, kind: Kind)
    requires varHash == "" || IsDigest(varHash)
    requires IsDigest(contentHash) && IsInt32(version)
    ensures Decode(Preimage(varHash, contentHash, version, kind.Text())) == Some(Parts(varHash, contentHash, version, kind))
  {
    var v := |varHash|;
    var le := LittleEndian32(version);
    var p := Preimage(varHash, contentHash, version, kind.Text());
    assert |p| == v + 68 + |kind.Text()|;
    assert p[..v] == varHash;
    assert p[v..v + 64] == contentHash;
    assert p[v + 64..v + 68] == le;
    LittleEndianRoundTrip(version);
  }

  // gatherInput turns away a module without a content hash. Without that guard a run with
  // variables and no content would be read back as one with content and no variables.
  lemma EmptyContentHashConfuses(d: string, version: int, kind: Kind)
    requires IsDigest(d) && IsInt32(version)
    ensures Preimage(d, "", version, kind.Text()) == Preimage("", d, version, kind.Text())
    ensures Decode(Preimage(d, "", version, kind.Text())) == Some(Parts("", d, version, kind)) != Some(Parts(d, "", version, kind))
  {
    assert d + "" == "" + d;
    PreimageDecodes("", d, version, kind);
    assert |d| == 64;
  }

  // generateRunHash: ten hexadecimal digits.
  ghost function RunHashOf(vars: Data, contentHash: string, version: int, kind: Kind): (h: string)
    requires IsInt32(version)
    ensures |h| == 10
  {
    Sha256Hex(Preimage(MapDigest(vars), contentHash, version, kind.Text()))[..10]
  }

  // A run hash from which nothing but the hash function hides what it was made of.
  ghost predicate HashesRun(h: string, vars: Data, contentHash: string, version: int, kind: Kind) {
    exists p :: HashesAs(h, p, Parts(MapDigest(vars), contentHash, version, kind))
  }

  ghost predicate HashesAs(h: string, p: string, parts: Parts) {
    h == Sha256Hex(p)[..10] && Decode(p) == Some(parts)
  }

  lemma RunHashIs(vars: Data, contentHash: string, version: int, kind: Kind)
    requires IsInt32(version) && IsDigest(contentHash)
    ensures HashesRun(RunHashOf(vars, contentHash, version, kind), vars, contentHash, version, kind)
  {
    var p := Preimage(MapDigest(vars), contentHash, version, kind.Text());
    PreimageDecodes(MapDigest(vars), contentHash, version, kind);
    assert HashesAs(RunHashOf(vars, contentHash, version, kind), p, Parts(MapDigest(vars), contentHash, version, kind));
  }

  lemma HexLength(text: string)
    ensures |Sha256Hex(text)| == 64
  {
  }

  method GenerateRunHash(vars: Data, contentHash: string, version: int, kind: Kind)
    returns (encoding: string)
    requires IsInt32(version)
    ensures encoding == RunHashOf(vars, contentHash, version, kind)
    // and what was hashed reads back as these very parts
    ensures IsDigest(contentHash) ==>
              exists p :: encoding == Sha256Hex(p)[..10]
                          && Decode(p) == Some(Parts(MapDigest(vars), contentHash, version, kind))
  {
    hide Decode, IsDigest, LittleEndian32, Written, Elements;
    var varHash := SHA256Map(vars);
    var buf := LittleEndian32(version);
    var action := kind.Text();
    var digest := "" + varHash;
    assert digest == varHash;
    digest := digest + contentHash;
    digest := digest + buf;
    digest := digest + action;
    HexLength(digest);
    encoding := Sha256Hex(digest)[..10];
    assert digest == Preimage(varHash, contentHash, version, action);
    if IsDigest(contentHash) {
      RunHashIs(vars, contentHash, version, kind);
      ghost var p :| HashesAs(encoding, p, Parts(MapDigest(vars), contentHash, version, kind));
      HexLength(p);
      assert encoding == Sha256Hex(p)[..10] && Decode(p) == Some(Parts(MapDigest(vars), contentHash, version, kind));
    }
  }

  function PartsPreimage(p: Parts): string
    requires IsInt32(p.version)
  {
    Preimage(p.varHash, p.contentHash, p.version, p.kind.Text())
  }

  lemma DistinctRunsDistinctPreimages(a: Parts, b: Parts)
    requires a.varHash == "" || IsDigest(a.varHash)
    requires b.varHash == "" || IsDigest(b.varHash)
    requires IsDigest(a.contentHash) && IsDigest(b.contentHash)
    requires IsInt32(a.version) && IsInt32(b.version)
    ensures a == b <==> PartsPreimage(a) == PartsPreimage(b)
  {
    PreimageDecodes(a.varHash, a.contentHash, a.version, a.kind);
    PreimageDecodes(b.varHash, b.contentHash, b.version, b.kind);
  }
}
