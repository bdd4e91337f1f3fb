// pkg/git/format.go and pkg/interval/interval.go: which ref is polled, what counts
// as a commit, and when it is time to poll again.
module GitRef {
  import opened Basics

  predicate IsSpace(c: char) {
    c == ' ' || '\t' <= c <= '\r'
  }

  // How many bytes of white space (unicode.IsSpace, in UTF-8) a line starts with a rune of.
  // The first byte of a longer one never occurs inside another rune.
  function SpaceWidth(s: string): (n: nat)
    ensures n <= |s|
  {
    if s == "" then 0
    else if IsSpace(s[0]) then 1
    else if |s| >= 2 && s[0] == 0xC2 as char && (s[1] == 0x85 as char || s[1] == 0xA0 as char) then 2
    else if |s| >= 3 && Space3(s[0] as int, s[1] as int, s[2] as int) then 3
    else 0
  }

  // U+1680, U+2000 to U+200A, U+2028, U+2029, U+202F, U+205F and U+3000.
  predicate Space3(a: int, b: int, c: int) {
    || (a == 0xE1 && b == 0x9A && c == 0x80)
    || (a == 0xE2 && b == 0x80 && (0x80 <= c <= 0x8A || c == 0xA8 || c == 0xA9 || c == 0xAF))
    || (a == 0xE2 && b == 0x81 && c == 0x9F)
    || (a == 0xE3 && b == 0x80 && c == 0x80)
  }

  const WHITE_SPACE: set<int> :=
    {0x09, 0x0A, 0x0B, 0x0C, 0x0D, 0x20, 0x85, 0xA0, 0x1680, 0x2028, 0x2029, 0x202F, 0x205F, 0x3000,
     0x2000, 0x2001, 0x2002, 0x2003, 0x2004, 0x2005, 0x2006, 0x2007, 0x2008, 0x2009, 0x200A}

  // One code point in UTF-8.
  function Utf8(c: int): string
    requires 0 <= c < 0x11_0000
  {
    if c < 0x80 then [c as char]
    else if c < 0x800 then [(0xC0 + c / 0x40) as char, (0x80 + c % 0x40) as char]
    else if c < 0x1_0000 then [(0xE0 + c / 0x1000) as char, (0x80 + c / 0x40 % 0x40) as char, (0x80 + c % 0x40) as char]
    else [(0xF0 + c / 0x4_0000) as char, (0x80 + c / 0x1000 % 0x40) as char, (0x80 + c / 0x40 % 0x40) as char,
          (0x80 + c % 0x40) as char]
  }

  // Exactly the white space of Unicode is taken for space, whatever follows it.
  lemma SpacesAreWhiteSpace(c: int, rest: string)
    requires 0 <= c < 0x11_0000
    ensures SpaceWidth(Utf8(c) + rest) == if c in WHITE_SPACE then |Utf8(c)| else 0
  {
    var s := Utf8(c) + rest;
    if c < 0x80 {
      assert s[0] == c as char;
    } else if c < 0x800 {
      assert s[0] == (0xC0 + c / 0x40) as char && s[1] == (0x80 + c % 0x40) as char;
    } else if c < 0x1_0000 {
      assert s[0] == (0xE0 + c / 0x1000) as char && s[1] == (0x80 + c / 0x40 % 0x40) as char && s[2] == (0x80 + c % 0x40) as char;
      ThreeBytes(c);
    } else {
      assert s[0] == (0xF0 + c / 0x4_0000) as char;
    }
  }

  lemma ThreeBytes(c: int)
    requires 0x800 <= c < 0x1_0000
    ensures Space3(0xE0 + c / 0x1000, 0x80 + c / 0x40 % 0x40, 0x80 + c % 0x40) <==> c in WHITE_SPACE
  {
    var x, y, z := c / 0x1000, c / 0x40 % 0x40, c % 0x40;
    assert c == 0x1000 * x + 0x40 * y + z by { assert c / 0x40 / 0x40 == c / 0x1000; }
  }

  predicate SpaceFree(s: string) {
    forall i :: 0 <= i <= |s| ==> SpaceWidth(s[i..]) == 0
  }

  predicate AllSpace(s: string)
    decreases |s|
  {
    s == "" || (SpaceWidth(s) > 0 && AllSpace(s[SpaceWidth(s)..]))
  }

  // strings.Fields: the maximal runs of runes that are not white space.
  function Fields(line: string): (fs: seq<string>)
    ensures forall f :: f in fs ==> f != "" && SpaceFree(f)
    ensures fs == [] <==> AllSpace(line)
    decreases |line|
  {
    if line == "" then []
    else if SpaceWidth(line) > 0 then Fields(line[SpaceWidth(line)..])
    else
      var n := WordLength(line);
      WordIsSpaceFree(line, n);
      [line[..n]] + Fields(line[n..])
  }

  function WordLength(line: string): (n: nat)
    ensures n <= |line|
    ensures forall i :: 0 <= i < n ==> SpaceWidth(line[i..]) == 0
    ensures n < |line| ==> SpaceWidth(line[n..]) > 0
    ensures line != "" && SpaceWidth(line) == 0 ==> n > 0
  {
    if line == "" || SpaceWidth(line) > 0 then 0
    else
      var n := WordLength(line[1..]);
      assert forall i :: 1 <= i <= |line| ==> line[i..] == line[1..][i - 1..];
      assert line[0..] == line;
      1 + n
  }

  // Cutting a word off after its end cannot make white space of it.
  lemma WordIsSpaceFree(line: string, n: nat)
    requires n <= |line| && forall i :: 0 <= i < n ==> SpaceWidth(line[i..]) == 0
    ensures SpaceFree(line[..n])
  {
    forall i | 0 <= i <= n ensures SpaceWidth(line[..n][i..]) == 0 {
      if i < n {
        var s, t := line[..n][i..], line[i..];
        assert s == t[..n - i];
      }
    }
  }

  // A word that has nothing but white space before it, and white space or nothing after it.
  ghost predicate IsFirstWord(line: string, word: string) {
    word != "" && SpaceFree(word) && exists a, b :: Around(line, a, word, b)
  }

  predicate Around(line: string, a: string, word: string, b: string) {
    line == a + word + b && AllSpace(a) && (b == "" || SpaceWidth(b) > 0)
  }

  lemma SameSpace(s: string, t: string)
    requires SpaceWidth(s) > 0 && |t| >= SpaceWidth(s) && t[..SpaceWidth(s)] == s[..SpaceWidth(s)]
    ensures SpaceWidth(t) == SpaceWidth(s)
  {
    var w := SpaceWidth(s);
    assert forall i :: 0 <= i < w ==> t[..w][i] == s[..w][i];
  }

  lemma {:induction false} FirstOfFields(line: string)
    ensures Fields(line) != [] ==> IsFirstWord(line, Fields(line)[0])
    decreases |line|
  {
    hide SpaceWidth, IsFirstWord, SpaceFree, Around;
    if line == "" {
    } else if SpaceWidth(line) > 0 {
      FirstOfFields(line[SpaceWidth(line)..]);
      if Fields(line[SpaceWidth(line)..]) != [] { SpaceBefore(line, Fields(line)[0]); }
    } else {
      var n := WordLength(line);
      WordIsSpaceFree(line, n);
      WordAtOnce(line, n);
    }
  }

  lemma SpaceBefore(line: string, word: string)
    requires SpaceWidth(line) > 0 && IsFirstWord(line[SpaceWidth(line)..], word)
    ensures IsFirstWord(line, word)
  {
    hide SpaceWidth, SpaceFree;
    var w := SpaceWidth(line);
    var a, b :| Around(line[w..], a, word, b);
    var a' := line[..w] + a;
    SameSpace(line, a');
    assert a'[w..] == a;
    assert line == line[..w] + line[w..];
    assert Around(line, a', word, b);
  }

  lemma WordAtOnce(line: string, n: nat)
    requires 0 < n <= |line| && SpaceFree(line[..n]) && (n < |line| ==> SpaceWidth(line[n..]) > 0)
    ensures IsFirstWord(line, line[..n])
  {
    hide SpaceWidth, SpaceFree;
    assert Around(line, "", line[..n], line[n..]);
  }

  // firstField: the first word of the first output line, or an error.
  function FirstField(lines: seq<string>): (r: Option<string>)
    ensures r.Some? <==> lines != [] && !AllSpace(lines[0])
    ensures r.Some? ==> r.value != "" && SpaceFree(r.value)
    ensures r.Some? ==> IsFirstWord(lines[0], r.value)
    ensures r.Some? ==> exists a, b ::
              lines[0] == a + r.value + b && AllSpace(a) && (b == "" || SpaceWidth(b) > 0)
  {
    if lines == [] then None
    else
      FirstOfFields(lines[0]);
      var fields := Fields(lines[0]);
      assert fields != [] ==> fields[0] in fields;
      if |fields| == 0 then None
      else if |fields[0]| == 0 then None
      else Some(fields[0])
  }

  function FormatRef(branch: string, tag: string): string {
    if branch != "" then "refs/heads/" + branch
    else if tag != "" then "refs/tags/" + tag
    else ""
  }

  // updateCommit: master by default, and a tag displaces the branch.
  function PolledRef(branch: string, tag: string): string {
    var b := if branch == "" then "master" else branch;
    var b := if tag != "" then "" else b;
    FormatRef(b, tag)
  }

  // A tag is polled under its own name; without one the branch is, and master by default.
  lemma PolledRefIs(branch: string, tag: string)
    ensures tag != "" ==> PolledRef(branch, tag) == "refs/tags/" + tag
    ensures tag == "" && branch != "" ==> PolledRef(branch, tag) == "refs/heads/" + branch
    ensures PolledRef("", "") == "refs/heads/master"
  {
  }

  // The tag, when there is one, alone decides what is polled; otherwise the branch does.
  lemma PolledRefChoice(branch: string, tag: string, branch': string, tag': string)
    ensures PolledRef(branch, tag) != ""
    ensures PolledRef(branch, tag) == PolledRef(branch', tag') <==>
              tag == tag' && (tag != "" || branch == branch' || {branch, branch'} <= {"", "master"})
  {
    var p, q := PolledRef(branch, tag), PolledRef(branch', tag');
    var n := if tag == "" then 11 else 10;
    assert p[5] == if tag == "" then 'h' else 't';
    assert q[5] == if tag' == "" then 'h' else 't';
    if (tag == "") == (tag' == "") {
      assert p[n..] == if tag != "" then tag else if branch == "" then "master" else branch;
      assert q[n..] == if tag' != "" then tag' else if branch' == "" then "master" else branch';
    }
  }

  const DEFAULT_INTERVAL := 30 * 60

  // NeedsUpdate, in seconds; a clock that was never set always needs one.
  function NeedsUpdate(now: int, lastCheck: Option<int>, interval: int): bool {
    lastCheck.None? ||
    now > lastCheck.value + (if interval == 0 then DEFAULT_INTERVAL else interval)
  }

  // Nothing is due for the whole interval after a check - half an hour if none is set -
  // and from the next second on something is.
  lemma DueAfterInterval(now: int, checked: int, interval: int)
    ensures interval != 0 ==> (NeedsUpdate(now, Some(checked), interval) <==> now - checked >= interval + 1)
    ensures NeedsUpdate(now, Some(checked), 0) <==> now - checked >= 1801
    ensures NeedsUpdate(now, None, interval)
  {
  }
}
