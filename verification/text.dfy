/** Python string operations the modelled code relies on: `split` on one
    character, `join`, `strip`/`lstrip`/`rstrip`, `startswith`, substring
    search and ASCII case mapping, each with the contract that
    characterises it. */
module Text {
  import opened Wrappers

  predicate StartsWith(s: string, prefix: string) {
    |prefix| <= |s| && s[..|prefix|] == prefix
  }

  predicate EndsWith(s: string, suffix: string) {
    |suffix| <= |s| && s[|s| - |suffix|..] == suffix
  }

  /** Python `sub in s`: `sub` occurs at some position of `s`. */
  predicate ContainsSub(s: string, sub: string)
    decreases |s|
  {
    StartsWith(s, sub) || (|s| > 0 && ContainsSub(s[1..], sub))
  }

  /** Python `s.split(sep)` for a one-character separator. */
  function Split(s: string, sep: char): (parts: seq<string>)
    ensures |parts| >= 1
    ensures forall p :: p in parts ==> sep !in p
    decreases |s|
  {
    if |s| == 0 then [""]
    else
      var rest := Split(s[1..], sep);
      if s[0] == sep then [""] + rest
      else [[s[0]] + rest[0]] + rest[1..]
  }

  /** `s.split(sep)[-1]`, computed from the right: the text after the last
      `sep`, or all of `s` when it has none. */
  function AfterLast(s: string, sep: char): (r: string)
    ensures EndsWith(s, r)
    ensures sep !in r
    ensures |r| < |s| ==> s[|s| - |r| - 1] == sep
    decreases |s|
  {
    if |s| == 0 || s[|s| - 1] == sep then ""
    else
      var r := AfterLast(s[..|s| - 1], sep);
      assert s[..|s| - 1][|s| - 1 - |r|..] == s[|s| - 1 - |r|..|s| - 1];
      r + [s[|s| - 1]]
  }

  /** Python `sep.join(parts)`. */
  function Join(parts: seq<string>, sep: string): string
    decreases |parts|
  {
    if |parts| == 0 then ""
    else if |parts| == 1 then parts[0]
    else parts[0] + sep + Join(parts[1..], sep)
  }

  lemma JoinCons(a: string, rest: seq<string>, sep: string)
    requires |rest| >= 1
    ensures Join([a] + rest, sep) == a + sep + Join(rest, sep)
  {
    assert ([a] + rest)[1..] == rest;
  }

  /** Prepending a character to the first piece prepends it to the join. */
  lemma JoinPrependHead(c: char, rest: seq<string>, sep: string)
    requires |rest| >= 1
    ensures Join([[c] + rest[0]] + rest[1..], sep) == [c] + Join(rest, sep)
  {
    if |rest| > 1 {
      JoinCons([c] + rest[0], rest[1..], sep);
      JoinCons(rest[0], rest[1..], sep);
      assert rest == [rest[0]] + rest[1..];
    }
  }

  /** Joining the pieces of a split gives back the original string. */
  lemma {:induction false} JoinSplit(s: string, sep: char)
    ensures Join(Split(s, sep), [sep]) == s
    decreases |s|
  {
    if |s| > 0 {
      var rest := Split(s[1..], sep);
      JoinSplit(s[1..], sep);
      if s[0] == sep {
        assert Split(s, sep) == [""] + rest;
        JoinCons("", rest, [sep]);
        assert Join(Split(s, sep), [sep]) == [sep] + s[1..];
      } else {
        assert Split(s, sep) == [[s[0]] + rest[0]] + rest[1..];
        JoinPrependHead(s[0], rest, [sep]);
        assert Join(Split(s, sep), [sep]) == [s[0]] + s[1..];
      }
      assert s == [s[0]] + s[1..];
    }
  }

  lemma {:induction false} SplitNoSep(a: string, sep: char)
    requires sep !in a
    ensures Split(a, sep) == [a]
    decreases |a|
  {
    if |a| > 0 {
      SplitNoSep(a[1..], sep);
      assert a[0] != sep;
      assert Split(a, sep) == [[a[0]] + a[1..]];
      assert [a[0]] + a[1..] == a;
    }
  }

  lemma {:induction false} SplitAfterSep(a: string, b: string, sep: char)
    requires sep !in a
    ensures Split(a + [sep] + b, sep) == [a] + Split(b, sep)
    decreases |a|
  {
    var s := a + [sep] + b;
    if |a| == 0 {
      assert s[1..] == b;
    } else {
      assert s[1..] == a[1..] + [sep] + b;
      SplitAfterSep(a[1..], b, sep);
      assert [a[0]] + a[1..] == a;
    }
  }

  /** Splitting a join of separator-free pieces gives back the pieces. */
  lemma {:induction false} SplitJoin(parts: seq<string>, sep: char)
    requires |parts| >= 1
    requires forall p :: p in parts ==> sep !in p
    ensures Split(Join(parts, [sep]), sep) == parts
    decreases |parts|
  {
    if |parts| == 1 {
      SplitNoSep(parts[0], sep);
    } else {
      JoinCons(parts[0], parts[1..], [sep]);
      SplitAfterSep(parts[0], Join(parts[1..], [sep]), sep);
      SplitJoin(parts[1..], sep);
      assert [parts[0]] + parts[1..] == parts;
    }
  }

  /** The text before the first `sep` (all of `s` when there is none). */
  function TakeUntil(s: string, sep: char): (r: string)
    ensures StartsWith(s, r)
    ensures sep !in r
    ensures |r| < |s| ==> s[|r|] == sep
    decreases |s|
  {
    if |s| == 0 || s[0] == sep then "" else [s[0]] + TakeUntil(s[1..], sep)
  }

  /** `s.split(sep)[0]` is the text before the first separator. */
  lemma {:induction false} SplitFirst(s: string, sep: char)
    ensures Split(s, sep)[0] == TakeUntil(s, sep)
    decreases |s|
  {
    if |s| > 0 && s[0] != sep {
      SplitFirst(s[1..], sep);
    }
  }

  /** The text after the first occurrence of `sub`: `s.split(sub)[1:]`
      joined back, or `None` when `sub` does not occur. */
  function AfterSub(s: string, sub: string): (r: Option<string>)
    requires |sub| > 0
    ensures r.Some? <==> ContainsSub(s, sub)
    ensures r.Some? ==> EndsWith(s, r.value) && |r.value| + |sub| <= |s|
    decreases |s|
  {
    if StartsWith(s, sub) then Some(s[|sub|..])
    else if |s| == 0 then None
    else AfterSub(s[1..], sub)
  }

  /** The text before the first occurrence of `sub` (all of `s` when there
      is none): `s.split(sub)[0]`. */
  function BeforeSub(s: string, sub: string): (r: string)
    requires |sub| > 0
    ensures StartsWith(s, r)
    ensures r == s <==> !ContainsSub(s, sub)
    decreases |s|
  {
    if StartsWith(s, sub) then ""
    else if |s| == 0 then ""
    else [s[0]] + BeforeSub(s[1..], sub)
  }

  /** Python `s.lstrip(chars)`. */
  function LStrip(s: string, chars: set<char>): (r: string)
    ensures EndsWith(s, r)
    ensures |r| > 0 ==> r[0] !in chars
    ensures forall i :: 0 <= i < |s| - |r| ==> s[i] in chars
    decreases |s|
  {
    if |s| > 0 && s[0] in chars then LStrip(s[1..], chars) else s
  }

  /** Python `s.rstrip(chars)`. */
  function RStrip(s: string, chars: set<char>): (r: string)
    ensures StartsWith(s, r)
    ensures |r| > 0 ==> r[|r| - 1] !in chars
    ensures forall i :: |r| <= i < |s| ==> s[i] in chars
    decreases |s|
  {
    if |s| > 0 && s[|s| - 1] in chars then RStrip(s[..|s| - 1], chars) else s
  }

  /** Python `s.strip(chars)`. */
  function Strip(s: string, chars: set<char>): string {
    RStrip(LStrip(s, chars), chars)
  }

  /** The characters Python's argument-less `str.strip()` removes. */
  const Whitespace: set<char> := {
    ' ', '\t', '\n', '\r', '\U{000B}', '\U{000C}', '\U{001C}', '\U{001D}', '\U{001E}',
    '\U{001F}', '\U{0085}', '\U{00A0}', '\U{1680}', '\U{2000}', '\U{2001}', '\U{2002}',
    '\U{2003}', '\U{2004}', '\U{2005}', '\U{2006}', '\U{2007}', '\U{2008}', '\U{2009}',
    '\U{200A}', '\U{2028}', '\U{2029}', '\U{202F}', '\U{205F}', '\U{3000}'
  }

  function StripSpace(s: string): string {
    Strip(s, Whitespace)
  }

  /** Stripping twice is stripping once. */
  lemma LStripIdempotent(s: string, chars: set<char>)
    ensures LStrip(LStrip(s, chars), chars) == LStrip(s, chars)
  {
  }

  lemma RStripIdempotent(s: string, chars: set<char>)
    ensures RStrip(RStrip(s, chars), chars) == RStrip(s, chars)
  {
  }

  predicate IsAsciiUpper(c: char) { 'A' <= c <= 'Z' }

  predicate IsAsciiAlnum(c: char) {
    'a' <= c <= 'z' || 'A' <= c <= 'Z' || '0' <= c <= '9'
  }

  predicate AllDigits(s: string) {
    |s| > 0 && forall i :: 0 <= i < |s| ==> '0' <= s[i] <= '9'
  }

  function LowerChar(c: char): (d: char)
    ensures !IsAsciiUpper(d)
    ensures IsAsciiUpper(c) ==> d as int == c as int + 32
    ensures !IsAsciiUpper(c) ==> d == c
  {
    if IsAsciiUpper(c) then (c as int + 32) as char else c
  }

  /** Python `s.lower()` restricted to ASCII letters. */
  function Lower(s: string): (r: string)
    ensures |r| == |s|
    ensures forall i :: 0 <= i < |s| ==> r[i] == LowerChar(s[i])
  {
    seq(|s|, i requires 0 <= i < |s| => LowerChar(s[i]))
  }

  /** `re.sub(r'[^a-zA-Z0-9]', '_', s)`. */
  function ReplaceNonAlnum(s: string): (r: string)
    ensures |r| == |s|
    ensures forall i :: 0 <= i < |s| ==> r[i] == (if IsAsciiAlnum(s[i]) then s[i] else '_')
  {
    seq(|s|, i requires 0 <= i < |s| => if IsAsciiAlnum(s[i]) then s[i] else '_')
  }

  /** Stripping only removes characters. */
  lemma StripKeepsOut(s: string, chars: set<char>, c: char)
    requires c !in s
    ensures c !in Strip(s, chars)
  {
    var l := LStrip(s, chars);
    assert l == s[|s| - |l|..];
    var r := RStrip(l, chars);
    assert r == l[..|r|];
  }

  /** `sub` occurs in any text built around it. */
  lemma {:induction false} ContainsAfter(pre: string, sub: string, post: string)
    ensures ContainsSub(pre + sub + post, sub)
    decreases |pre|
  {
    var s := pre + sub + post;
    if |pre| == 0 {
      assert s[..|sub|] == sub;
    } else {
      assert s[1..] == pre[1..] + sub + post;
      ContainsAfter(pre[1..], sub, post);
    }
  }

  /** When `sub` does not occur before the end of `pre` + `sub`, the first
      occurrence is the one right after `pre`. */
  lemma {:induction false} AfterSubFirst(pre: string, sub: string, tail: string)
    requires |sub| > 0 && !ContainsSub(pre + sub[..|sub| - 1], sub)
    ensures AfterSub(pre + sub + tail, sub) == Some(tail)
    decreases |pre|
  {
    var s := pre + sub + tail;
    if |pre| == 0 {
      assert s == sub + tail;
      assert s[..|sub|] == sub;
      assert s[|sub|..] == tail;
    } else {
      var head := pre + sub[..|sub| - 1];
      assert s[..|sub|] == head[..|sub|];
      assert !StartsWith(s, sub);
      assert s[1..] == pre[1..] + sub + tail;
      assert head[1..] == pre[1..] + sub[..|sub| - 1];
      AfterSubFirst(pre[1..], sub, tail);
    }
  }

  /** Text in which `sub` does not occur, followed by a character `sub`
      lacks, is kept whole before any later occurrence of `sub`. */
  lemma {:induction false} BeforeSubKeeps(pre: string, sub: string, tail: string)
    requires |sub| > 0 && |tail| > 0 && tail[0] !in sub && !ContainsSub(pre, sub)
    ensures StartsWith(BeforeSub(pre + tail, sub), pre + [tail[0]])
    decreases |pre|
  {
    var s := pre + tail;
    if |pre| == 0 {
      assert s == tail && s[0] != sub[0];
      assert BeforeSub(s, sub) == [s[0]] + BeforeSub(s[1..], sub);
    } else {
      NoSubAcross(pre, sub, tail);
      assert s[1..] == pre[1..] + tail;
      BeforeSubKeeps(pre[1..], sub, tail);
      ConsKeepsPrefix(s[0], BeforeSub(s[1..], sub), pre[1..] + [tail[0]]);
      assert pre + [tail[0]] == [s[0]] + (pre[1..] + [tail[0]]);
    }
  }

  /** `sub` does not start at the head of `pre + tail`: it does not occur
      in `pre`, and crossing into `tail` would need `tail[0]` in `sub`. */
  lemma NoSubAcross(pre: string, sub: string, tail: string)
    requires |sub| > 0 && |pre| > 0 && |tail| > 0 && tail[0] !in sub && !ContainsSub(pre, sub)
    ensures !StartsWith(pre + tail, sub)
  {
    var s := pre + tail;
    if |sub| <= |pre| {
      assert s[..|sub|] == pre[..|sub|];
    } else if |sub| <= |s| {
      assert s[..|sub|][|pre|] == tail[0];
      assert sub[|pre|] in sub;
    }
  }

  lemma ConsKeepsPrefix(c: char, s: string, p: string)
    requires StartsWith(s, p)
    ensures StartsWith([c] + s, [c] + p)
  {
    assert ([c] + s)[..|p| + 1] == [c] + s[..|p|];
  }

  /** Text that continues `pre` with `sep`, or ends after it, is cut back
      to `pre`. */
  lemma {:induction false} TakeUntilAt(pre: string, s: string, sep: char)
    requires sep !in pre && StartsWith(s, pre)
    requires |s| > |pre| ==> s[|pre|] == sep
    ensures TakeUntil(s, sep) == pre
    decreases |pre|
  {
    if |pre| > 0 {
      assert s[0] == pre[0];
      assert s[1..][..|pre| - 1] == pre[1..];
      TakeUntilAt(pre[1..], s[1..], sep);
    }
  }
}
