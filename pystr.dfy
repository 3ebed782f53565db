/** Python's `str` methods that the analyser applies to paths, module names
    and class names, on strings as sequences of characters. */
module PyStr {

  /** `s.startswith(prefix)`; every string starts with "". */
  predicate StartsWith(s: string, prefix: string) {
    |prefix| <= |s| && s[..|prefix|] == prefix
  }

  /** `s.endswith(suffix)`. */
  predicate EndsWith(s: string, suffix: string) {
    |suffix| <= |s| && s[|s| - |suffix|..] == suffix
  }

  /** `s.removeprefix(prefix)`: drops the prefix once if present. */
  function RemovePrefix(s: string, prefix: string): (r: string)
    ensures StartsWith(s, prefix) ==> prefix + r == s
    ensures !StartsWith(s, prefix) ==> r == s
  {
    if StartsWith(s, prefix) then s[|prefix|..] else s
  }

  /** `s.removesuffix(suffix)`: drops the suffix once if present. */
  function RemoveSuffix(s: string, suffix: string): (r: string)
    ensures EndsWith(s, suffix) ==> r + suffix == s
    ensures !EndsWith(s, suffix) ==> r == s
  {
    if EndsWith(s, suffix) then s[..|s| - |suffix|] else s
  }

  /** `s.replace(target, replacement)` for one-character arguments. */
  function Replace(s: string, target: char, replacement: char): (r: string)
    ensures |r| == |s|
    ensures forall i :: 0 <= i < |s| ==> r[i] == if s[i] == target then replacement else s[i]
  {
    seq(|s|, i requires 0 <= i < |s| => if s[i] == target then replacement else s[i])
  }

  /** `s.split(sep, 1)[0]` (equally `s.split(sep)[0]`): the text before the
      first `sep`, or all of `s` when it has none. */
  function Before(s: string, sep: char): (r: string)
    ensures StartsWith(s, r) && sep !in r
    ensures |r| < |s| ==> s[|r|] == sep
  {
    if s == [] then []
    else if s[0] == sep then []
    else [s[0]] + Before(s[1..], sep)
  }

  /** `sep.join(parts)`. */
  function Join(parts: seq<string>, sep: string): string
  {
    if |parts| == 0 then ""
    else if |parts| == 1 then parts[0]
    else parts[0] + sep + Join(parts[1..], sep)
  }

  /** `'.' * n`; a count of zero or less gives "". */
  function Dots(n: int): (r: string)
    ensures |r| == if n <= 0 then 0 else n
    ensures forall i :: 0 <= i < |r| ==> r[i] == '.'
  {
    if n <= 0 then "" else "." + Dots(n - 1)
  }

  function LowerChar(c: char): char {
    if 'A' <= c <= 'Z' then (c as int + 32) as char else c
  }

  /** `s.lower()` on ASCII letters. */
  function Lower(s: string): (r: string)
    ensures |r| == |s|
    ensures forall i :: 0 <= i < |s| ==> r[i] == LowerChar(s[i])
  {
    seq(|s|, i requires 0 <= i < |s| => LowerChar(s[i]))
  }

  /** A path component or name: not empty and without `c`. */
  predicate NonEmptyWithout(s: string, c: char) {
    s != [] && c !in s
  }

  lemma {:induction false} JoinAppend(a: seq<string>, b: seq<string>, sep: string)
    requires |a| > 0 && |b| > 0
    ensures Join(a + b, sep) == Join(a, sep) + sep + Join(b, sep)
    decreases |a|
  {
    if |a| == 1 {
      assert (a + b)[1..] == b;
    } else {
      assert (a + b)[1..] == a[1..] + b;
      JoinAppend(a[1..], b, sep);
    }
  }

  /** Appending text to the last part appends it to the joined string. */
  lemma {:induction false} JoinExtendLast(parts: seq<string>, sep: string, tail: string)
    requires |parts| > 0
    ensures Join(parts[..|parts| - 1] + [parts[|parts| - 1] + tail], sep) == Join(parts, sep) + tail
    decreases |parts|
  {
    var ext := parts[..|parts| - 1] + [parts[|parts| - 1] + tail];
    if |parts| > 1 {
      var rest := parts[1..];
      assert ext[1..] == rest[..|rest| - 1] + [rest[|rest| - 1] + tail];
      JoinExtendLast(rest, sep, tail);
    }
  }

  lemma JoinStartsWithFirst(parts: seq<string>, sep: string)
    requires |parts| > 0
    ensures StartsWith(Join(parts, sep), parts[0])
  {
  }

  lemma ReplaceConcat(x: string, y: string, target: char, replacement: char)
    ensures Replace(x + y, target, replacement) == Replace(x, target, replacement) + Replace(y, target, replacement)
  {
    var l, r := Replace(x + y, target, replacement), Replace(x, target, replacement) + Replace(y, target, replacement);
    assert |l| == |r|;
    forall i | 0 <= i < |l| ensures l[i] == r[i] {
      if i < |x| { assert (x + y)[i] == x[i]; } else { assert (x + y)[i] == y[i - |x|]; }
    }
  }

  lemma ReplaceAbsent(s: string, target: char, replacement: char)
    requires target !in s
    ensures Replace(s, target, replacement) == s
  {
    var r := Replace(s, target, replacement);
    forall i | 0 <= i < |s| ensures r[i] == s[i] {
      assert s[i] in s;
    }
  }

  /** Joining slash-free components with "/" and then replacing every "/"
      by "." is joining them with ".". */
  lemma {:induction false} ReplaceJoin(parts: seq<string>)
    requires forall k :: 0 <= k < |parts| ==> '/' !in parts[k]
    ensures Replace(Join(parts, "/"), '/', '.') == Join(parts, ".")
    decreases |parts|
  {
    if |parts| == 0 {
    } else if |parts| == 1 {
      ReplaceAbsent(parts[0], '/', '.');
    } else {
      ReplaceJoin(parts[1..]);
      ReplaceConcat(parts[0] + "/", Join(parts[1..], "/"), '/', '.');
      ReplaceConcat(parts[0], "/", '/', '.');
      ReplaceAbsent(parts[0], '/', '.');
      assert Replace("/", '/', '.') == ".";
    }
  }

  lemma {:induction false} BeforeConcat(x: string, sep: char, y: string)
    requires sep !in x
    ensures Before(x + [sep] + y, sep) == x
    decreases |x|
  {
    if x != [] {
      assert (x + [sep] + y)[1..] == x[1..] + [sep] + y;
      BeforeConcat(x[1..], sep, y);
    }
  }

  lemma {:induction false} BeforeWithout(s: string, sep: char)
    requires sep !in s
    ensures Before(s, sep) == s
    decreases |s|
  {
    if s != [] {
      assert s[0] in s;
      assert forall c :: c in s[1..] ==> c in s;
      BeforeWithout(s[1..], sep);
    }
  }

  /** The first dotted part of a join of dot-free names is the first name. */
  lemma BeforeJoin(parts: seq<string>)
    requires |parts| > 0 && '.' !in parts[0]
    ensures Before(Join(parts, "."), '.') == parts[0]
  {
    if |parts| == 1 {
      BeforeWithout(parts[0], '.');
    } else {
      BeforeConcat(parts[0], '.', Join(parts[1..], "."));
    }
  }

  /** A join ends with its last part. */
  lemma {:induction false} JoinEndsWithLast(parts: seq<string>, sep: string)
    requires |parts| > 0
    ensures EndsWith(Join(parts, sep), parts[|parts| - 1])
    decreases |parts|
  {
    if |parts| > 1 {
      JoinEndsWithLast(parts[1..], sep);
      var j := Join(parts[1..], sep);
      assert Join(parts, sep) == (parts[0] + sep) + j;
      var l := parts[|parts| - 1];
      assert j[|j| - |l|..] == l;
      assert ((parts[0] + sep) + j)[|(parts[0] + sep) + j| - |l|..] == j[|j| - |l|..];
    }
  }

  lemma StartsWithAppend(a: string, b: string, c: string)
    requires StartsWith(b, c)
    ensures StartsWith(a + b, a + c)
  {
    assert (a + b)[..|a + c|] == a + b[..|c|];
  }
}
