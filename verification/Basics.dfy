// Small vocabulary shared by every module.
module Basics {
  datatype Option<+T> = None | Some(value: T)

  type Data = map<string, string>

  // A Kubernetes-style condition: never set, set to False, or set to True.
  datatype Cond = Absent | IsFalse | IsTrue

  // What a run does; the spelling is what reaches the hash and the job environment.
  datatype Kind = Create | Destroy {
    function Text(): string {
      if Create? then "create" else "destroy"
    }
  }

  const INT32_LIMIT := 0x8000_0000

  predicate IsInt32(x: int) {
    -INT32_LIMIT <= x < INT32_LIMIT
  }

  // x++ on a Go int32.
  function NextInt32(x: int): (r: int)
    requires IsInt32(x)
    ensures IsInt32(r) && (r - (x + 1)) % (2 * INT32_LIMIT) == 0
  {
    if x + 1 == INT32_LIMIT then -INT32_LIMIT else x + 1
  }

  function LowerChar(c: char): (r: char)
    ensures !('A' <= r <= 'Z')
    ensures if 'A' <= c <= 'Z' then 'a' <= r <= 'z' && r - 'a' == c - 'A' else r == c
  {
    if 'A' <= c <= 'Z' then (c as int + 32) as char else c
  }

  // strings.ToLower, on the ASCII letters.
  function Lower(s: string): (r: string)
    ensures |r| == |s|
    ensures forall i :: 0 <= i < |s| ==> r[i] == LowerChar(s[i])
  {
    if s == "" then "" else [LowerChar(s[0])] + Lower(s[1..])
  }

  // strings.Trim(s, " ").
  function Trim(s: string): string {
    if s == "" then ""
    else if s[0] == ' ' then Trim(s[1..])
    else if s[|s| - 1] == ' ' then Trim(s[..|s| - 1])
    else s
  }

  predicate Blank(s: string) {
    forall c :: c in s ==> c == ' '
  }

  // What waitForApproval asks of an annotation before it takes it for an answer.
  lemma {:induction false} BlankIsTrimmed(s: string)
    ensures Blank(s) <==> Trim(s) == ""
  {
    if s == "" {
    } else if s[0] == ' ' {
      BlankIsTrimmed(s[1..]);
      assert forall c :: c in s <==> c == ' ' || c in s[1..] by { assert s == [' '] + s[1..]; }
    } else {
      assert s[0] in s;
      if s[|s| - 1] == ' ' {
        BlankIsTrimmed(s[..|s| - 1]);
        assert s[..|s| - 1][0] == s[0];
        assert s[0] in s[..|s| - 1];
      }
    }
  }
}

// Optimistic concurrency: an object is the sequence of versions it has had,
// and a resourceVersion is a position in that sequence.
module Versioned {
  // Update by compare-and-swap: a stale base is a conflict, and an object equal
  // to the stored one is accepted without a new version.
  function Cas<T(==)>(hist: seq<T>, base: nat, obj: T): (r: seq<T>)
    requires |hist| > 0
    ensures hist <= r && |r| <= |hist| + 1
    ensures base == |hist| - 1 ==> r[|r| - 1] == obj && (obj == hist[base] ==> r == hist)
    ensures base != |hist| - 1 ==> r == hist
  {
    if base != |hist| - 1 || obj == hist[base] then hist else hist + [obj]
  }
}
