/**
 * The version lookup of setup.py: `get_debian_version` scans the lines of
 * `debian/changelog` (Debian Policy Manual section 4.4) for the first entry
 * of this package and keeps the upstream part of its version, i.e. the
 * `upstream_version` of `upstream_version-debian_revision` (Debian Policy
 * Manual section 5.6.12). The file is given as its sequence of lines.
 */
module Changelog {
  import opened Results

  /** The package name every entry line of this package starts with. */
  const Package: string := "prometheus-swagger-exporter"

  /** The version returned when no entry of the package is found. */
  const DefaultVersion: string := "0.1"

  function Min(a: int, b: int): (m: int) { if a <= b then a else b }

  /** Python's `line[:27] == 'prometheus-swagger-exporter'` (slicing clips to the line's length). */
  predicate Matches(line: string)
    // the clipped slice equals the 27-character name only when the line is at least that long
    ensures Matches(line) <==> |Package| <= |line| && line[..|Package|] == Package
  {
    line[..Min(|Package|, |line|)] == Package
  }

  /** Index of the first occurrence of `c` in `s` (Python's `s.index(c)`). */
  function IndexOf(s: string, c: char): (i: nat)
    requires c in s
    ensures i < |s| && s[i] == c
    ensures c !in s[..i]
  {
    if s[0] == c then 0
    else
      assert c in s[1..] by { var k :| 0 <= k < |s| && s[k] == c; assert s[1..][k - 1] == c; }
      1 + IndexOf(s[1..], c)
  }

  /**
   * Python's `s.split(sep)` for a one-character separator: the maximal
   * separator-free runs of `s`, in order.
   */
  function Split(s: string, sep: char): (parts: seq<string>)
    ensures |parts| >= 1
    ensures forall k | 0 <= k < |parts| :: sep !in parts[k]
    ensures (sep in s) <==> |parts| >= 2
    decreases |s|
  {
    if sep !in s then [s]
    else
      var i := IndexOf(s, sep);
      [s[..i]] + Split(s[i + 1..], sep)
  }

  /** Python's `sep.join(parts)`, the inverse of `Split`. */
  function Join(parts: seq<string>, sep: char): (s: string)
    requires |parts| >= 1
  {
    if |parts| == 1 then parts[0] else parts[0] + [sep] + Join(parts[1..], sep)
  }

  /** Splitting then joining with the same separator gives back the string. */
  lemma {:induction false} SplitJoin(s: string, sep: char)
    ensures Join(Split(s, sep), sep) == s
    decreases |s|
  {
    if sep in s {
      var i := IndexOf(s, sep);
      var tail := s[i + 1..];
      var rest := Split(tail, sep);
      SplitJoin(tail, sep);
      calc {
        Join(Split(s, sep), sep);
        Join([s[..i]] + rest, sep);
        { assert ([s[..i]] + rest)[1..] == rest; }
        s[..i] + [sep] + Join(rest, sep);
        s[..i] + [sep] + tail;
        { assert s == s[..i] + [s[i]] + s[i + 1..]; }
        s;
      }
    }
  }

  /** The first field of a split is the prefix before the first separator (or all of `s`). */
  lemma SplitHead(s: string, sep: char)
    ensures |Split(s, sep)[0]| <= |s| && Split(s, sep)[0] == s[..|Split(s, sep)[0]|]
    ensures |Split(s, sep)[0]| == |s| || s[|Split(s, sep)[0]|] == sep
    ensures sep in s ==> |Split(s, sep)[0]| == IndexOf(s, sep)
  {
  }

  /** The second field starts right after the first separator and runs to the next one or the end. */
  lemma SplitSecond(s: string, sep: char)
    requires sep in s
    ensures var b, p := IndexOf(s, sep) + 1, Split(s, sep)[1];
            b + |p| <= |s| && p == s[b..b + |p|] && (b + |p| == |s| || s[b + |p|] == sep)
  {
  }

  /**
   * `line.split('(')[1].split(')')[0].split('-')[0]`: IndexError when the
   * line holds no '('.
   */
  function LineVersion(line: string): (r: Result<string>)
    ensures r.Err? <==> '(' !in line
    ensures r.Ok? ==> '(' !in r.value && ')' !in r.value && '-' !in r.value
  {
    var fields := Split(line, '(');
    if |fields| < 2 then Err(IndexError)
    else
      var inParens := Split(fields[1], ')')[0];
      var upstream := Split(inParens, '-')[0];
      PrefixKeepsExclusion(fields[1], |inParens|, '(');
      PrefixKeepsExclusion(inParens, |upstream|, '(');
      PrefixKeepsExclusion(inParens, |upstream|, ')');
      Ok(upstream)
  }

  /**
   * `v` occurs in `line` at position `b` and cannot be extended: it is
   * followed by the end of the line or by one of '(', ')' and '-'.
   */
  predicate VersionRunAt(line: string, b: nat, v: string)
  {
    && b + |v| <= |line| && v == line[b..b + |v|]
    && (b + |v| == |line| || line[b + |v|] in {'(', ')', '-'})
  }

  /**
   * The version taken from a line is the longest run of the line that starts
   * just after its first '(' and holds none of '(', ')' and '-'.
   */
  lemma VersionIsRunAfterParen(line: string)
    requires '(' in line
    ensures VersionRunAt(line, IndexOf(line, '(') + 1, LineVersion(line).value)
  {
    var b := IndexOf(line, '(') + 1;
    var p := Split(line, '(')[1];
    var q := Split(p, ')')[0];
    var v := Split(q, '-')[0];
    assert LineVersion(line) == Ok(v);
    assert b + |p| <= |line| && p == line[b..b + |p|] && (b + |p| == |line| || line[b + |p|] == '(') by {
      SplitSecond(line, '(');
    }
    assert |q| <= |p| && q == p[..|q|] && (|q| == |p| || p[|q|] == ')') by {
      SplitHead(p, ')');
    }
    assert |v| <= |q| && v == q[..|v|] && (|v| == |q| || q[|v|] == '-') by {
      SplitHead(q, '-');
    }
    NestedRun(line, b, p, q, v);
    assert LineVersion(line).value == v;
  }

  /**
   * A prefix `v` of a prefix `q` of the run `p` that starts at `b` in `line`
   * is itself a run at `b`, and it ends where `v`, `q` or `p` ended.
   */
  lemma NestedRun(line: string, b: nat, p: string, q: string, v: string)
    requires b + |p| <= |line| && p == line[b..b + |p|]
    requires b + |p| == |line| || line[b + |p|] == '('
    requires |q| <= |p| && q == p[..|q|] && (|q| == |p| || p[|q|] == ')')
    requires |v| <= |q| && v == q[..|v|] && (|v| == |q| || q[|v|] == '-')
    ensures VersionRunAt(line, b, v)
  {
    assert q == line[b..b + |q|] by { assert line[b..b + |p|][..|q|] == line[b..b + |q|]; }
    assert v == line[b..b + |v|] by { assert line[b..b + |q|][..|v|] == line[b..b + |v|]; }
    if |v| < |q| {
      assert line[b + |v|] == q[|v|];
    } else if |q| < |p| {
      assert line[b + |v|] == p[|q|];
    }
  }

  /** A character absent from a string is absent from each of its prefixes. */
  lemma PrefixKeepsExclusion(s: string, n: nat, c: char)
    requires n <= |s| && c !in s
    ensures c !in s[..n]
  {
  }

  /** `get_debian_version` as a function: the first matching line decides, else the default. */
  function DebianVersion(lines: seq<string>): (r: Result<string>)
    // the result is the default or what some entry line of the package gives
    ensures r == Ok(DefaultVersion) ||
            exists k | 0 <= k < |lines| :: Matches(lines[k]) && LineVersion(lines[k]) == r
  {
    if |lines| == 0 then Ok(DefaultVersion)
    else if Matches(lines[0]) then LineVersion(lines[0])
    else
      var r := DebianVersion(lines[1..]);
      assert r != Ok(DefaultVersion) ==> exists k | 0 <= k < |lines| :: Matches(lines[k]) && LineVersion(lines[k]) == r by {
        if r != Ok(DefaultVersion) {
          var k :| 0 <= k < |lines[1..]| && Matches(lines[1..][k]) && LineVersion(lines[1..][k]) == r;
          assert lines[k + 1] == lines[1..][k];
        }
      }
      r
  }

  /**
   * The loop of setup.py: scan the lines, stop at the first match. A line
   * with no '(' raises IndexError out of the loop.
   */
  method GetDebianVersion(lines: seq<string>) returns (r: Result<string>)
    ensures r == DebianVersion(lines)
  {
    var version := DefaultVersion;
    var i := 0;
    while i < |lines|
      invariant 0 <= i <= |lines|
      invariant DebianVersion(lines[i..]) == DebianVersion(lines)
      invariant version == DefaultVersion
    {
      if Matches(lines[i]) {
        var v := LineVersion(lines[i]);
        if v.Err? {
          return v;
        }
        version := v.value;
        break;
      }
      assert lines[i..][1..] == lines[i + 1..];
      i := i + 1;
    }
    r := Ok(version);
  }

  /** A line shorter than the package name never matches. */
  lemma ShortLineNeverMatches(line: string)
    requires |line| < |Package|
    ensures !Matches(line)
  {
  }

  /** With no entry line of the package, the default version comes back. */
  lemma {:induction false} NoEntryGivesDefault(lines: seq<string>)
    requires forall i | 0 <= i < |lines| :: !Matches(lines[i])
    ensures DebianVersion(lines) == Ok(DefaultVersion)
  {
    if |lines| > 0 {
      NoEntryGivesDefault(lines[1..]);
    }
  }

  /** The first matching line alone decides the result. */
  lemma {:induction false} FirstEntryDecides(lines: seq<string>, k: nat)
    requires k < |lines| && Matches(lines[k])
    requires forall j | 0 <= j < k :: !Matches(lines[j])
    ensures DebianVersion(lines) == LineVersion(lines[k])
  {
    if k > 0 {
      FirstEntryDecides(lines[1..], k - 1);
    }
  }

  /** Lines after the first matching one are never looked at. */
  lemma LaterLinesIgnored(lines: seq<string>, k: nat, later: seq<string>)
    requires k < |lines| && Matches(lines[k])
    requires forall j | 0 <= j < k :: !Matches(lines[j])
    ensures DebianVersion(lines[..k + 1] + later) == DebianVersion(lines)
  {
    var changed := lines[..k + 1] + later;
    assert changed[k] == lines[k];
    FirstEntryDecides(lines, k);
    FirstEntryDecides(changed, k);
  }

  /** A matching line without '(' makes the lookup raise IndexError. */
  lemma EntryWithoutParenRaises(lines: seq<string>, k: nat)
    requires k < |lines| && Matches(lines[k]) && '(' !in lines[k]
    requires forall j | 0 <= j < k :: !Matches(lines[j])
    ensures DebianVersion(lines) == Err(IndexError)
  {
    FirstEntryDecides(lines, k);
  }

  /** A position holding `c` with no `c` before it is the first occurrence. */
  lemma IndexOfIs(s: string, c: char, k: nat)
    requires k < |s| && s[k] == c
    requires forall j | 0 <= j < k :: s[j] != c
    ensures IndexOf(s, c) == k
  {
  }

  /** An entry line whose version field is `0.2.1-1` yields the upstream version "0.2.1". */
  lemma VersionOfEntry(line: string)
    requires |line| >= 35 && line[..27] == Package && line[27] == ' ' && line[28] == '('
    requires line[29] == '0' && line[30] == '.' && line[31] == '2' && line[32] == '.' && line[33] == '1'
    requires line[34] == '-'
    ensures Matches(line) && LineVersion(line) == Ok("0.2.1")
  {
    assert forall j | 0 <= j < 28 :: line[j] != '(' by {
      forall j | 0 <= j < 28 ensures line[j] != '(' {
        if j < 27 { assert line[j] == line[..27][j] == Package[j]; }
      }
    }
    IndexOfIs(line, '(', 28);
    VersionIsRunAfterParen(line);
    var v := LineVersion(line).value;
    assert |v| == 5;
    assert v == line[29..34] == "0.2.1";
  }

  /** The changelog's usual first line yields the upstream version "0.2.1". */
  lemma ExampleEntry(line: string)
    requires line == "prometheus-swagger-exporter (0.2.1-1) jessie; urgency=low"
    ensures DebianVersion([line]) == Ok("0.2.1")
  {
    assert line[..27] == Package;
    VersionOfEntry(line);
    assert DebianVersion([line]) == LineVersion(line);
  }
}
