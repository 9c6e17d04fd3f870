/** Python's `str.format(**kwargs)` on a URL template, and the two ways the
    library pulls placeholder names out of a template: the
    `split('{')`/`split('}')` loop of the newest decorators and the
    `re.findall(r"{(.*?)}")` of the older parser and proxy.

    A replacement field's whole text is its name: conversions (`!r`),
    format specs (`:>5`) and attribute or index access are not modelled.
    Field names made only of digits, and the empty name, are positional
    references, which fail because the library never passes positional
    arguments to `format`. How a value is turned into text is left
    abstract as the `show` parameter. */
module PyFormat {
  import opened Wrappers
  import opened Text
  import opened Values

  function Prepend(s: string, r: Result<string>): (q: Result<string>)
    ensures q.Ok? <==> r.Ok?
    ensures q.Ok? ==> q.value == s + r.value
  {
    if r.Ok? then Ok(s + r.value) else r
  }

  function PrependAll(ns: seq<string>, r: Option<seq<string>>): (q: Option<seq<string>>)
    ensures q.Some? <==> r.Some?
    ensures q.Some? ==> q.value == ns + r.value
  {
    if r.Some? then Some(ns + r.value) else r
  }

  /** A field name `format` cannot look up among keyword arguments. */
  predicate Positional(name: string) {
    name == "" || AllDigits(name)
  }

  /** `template.format(**args)`: literal text is copied, `{{` and `}}`
      stand for single braces, and `{name}` is replaced by the text of
      `args[name]`. Errors are reported left to right, like Python. */
  function Format(t: string, args: map<string, Value>, show: Value -> string): Result<string>
    decreases |t|
  {
    if |t| == 0 then Ok("")
    else if t[0] == '{' then
      if |t| >= 2 && t[1] == '{' then Prepend("{", Format(t[2..], args, show))
      else
        var name := TakeUntil(t[1..], '}');
        if |name| == |t| - 1 then Err(ValueError("expected '}' before end of string"))
        else if '{' in name then Err(ValueError("unexpected '{' in field name"))
        else if Positional(name) then Err(IndexError("Replacement index 0 out of range"))
        else if name !in args then Err(KeyError(name))
        else Prepend(show(args[name]), Format(t[|name| + 2..], args, show))
    else if t[0] == '}' then
      if |t| >= 2 && t[1] == '}' then Prepend("}", Format(t[2..], args, show))
      else Err(ValueError("Single '}' encountered in format string"))
    else Prepend([t[0]], Format(t[1..], args, show))
  }

  /** The keyword fields of a template in order, or `None` when the
      template is malformed whatever the arguments are. */
  function Fields(t: string): Option<seq<string>>
    decreases |t|
  {
    if |t| == 0 then Some([])
    else if t[0] == '{' then
      if |t| >= 2 && t[1] == '{' then Fields(t[2..])
      else
        var name := TakeUntil(t[1..], '}');
        if |name| == |t| - 1 || '{' in name || Positional(name) then None
        else PrependAll([name], Fields(t[|name| + 2..]))
    else if t[0] == '}' then
      if |t| >= 2 && t[1] == '}' then Fields(t[2..]) else None
    else Fields(t[1..])
  }

  /** Formatting succeeds exactly when the template is well formed and every
      field it names has an argument: a missing placeholder argument is an
      error, never rendered literally. */
  lemma {:induction false} FormatOk(t: string, args: map<string, Value>, show: Value -> string)
    ensures Format(t, args, show).Ok? <==>
      Fields(t).Some? && forall n :: n in Fields(t).value ==> n in args
    decreases |t|
  {
    if |t| == 0 {
    } else if t[0] == '{' {
      if |t| >= 2 && t[1] == '{' {
        FormatOk(t[2..], args, show);
      } else {
        var name := TakeUntil(t[1..], '}');
        if !(|name| == |t| - 1 || '{' in name || Positional(name)) {
          FormatOk(t[|name| + 2..], args, show);
        }
      }
    } else if t[0] == '}' {
      if |t| >= 2 && t[1] == '}' {
        FormatOk(t[2..], args, show);
      }
    } else {
      FormatOk(t[1..], args, show);
    }
  }

  /** The result depends only on the arguments the template names. */
  lemma {:induction false} FormatLocal(t: string, a1: map<string, Value>, a2: map<string, Value>, show: Value -> string)
    requires Fields(t).Some?
    requires forall n :: n in Fields(t).value ==> (n in a1 <==> n in a2)
    requires forall n :: n in Fields(t).value && n in a1 ==> a1[n] == a2[n]
    ensures Format(t, a1, show) == Format(t, a2, show)
    decreases |t|
  {
    if |t| == 0 {
    } else if t[0] == '{' {
      if |t| >= 2 && t[1] == '{' {
        FormatLocal(t[2..], a1, a2, show);
      } else {
        var name := TakeUntil(t[1..], '}');
        FormatLocal(t[|name| + 2..], a1, a2, show);
      }
    } else if t[0] == '}' {
      FormatLocal(t[2..], a1, a2, show);
    } else {
      FormatLocal(t[1..], a1, a2, show);
    }
  }

  /** A template without braces renders as itself and names no field. */
  lemma {:induction false} FormatLiteral(t: string, args: map<string, Value>, show: Value -> string)
    requires '{' !in t && '}' !in t
    ensures Format(t, args, show) == Ok(t)
    ensures Fields(t) == Some([])
    decreases |t|
  {
    if |t| > 0 {
      FormatLiteral(t[1..], args, show);
      assert [t[0]] + t[1..] == t;
    }
  }

  /** `[key.split('}')[0] for key in path.split('{')[1:]]`. */
  function SplitKeys(t: string): (keys: seq<string>)
    ensures |keys| + 1 == |Split(t, '{')|
    ensures forall k :: k in keys ==> '{' !in k && '}' !in k
  {
    var segments := Split(t, '{')[1..];
    KeysAvoid(segments, '{');
    SegmentKeys(segments)
  }

  /** A key is cut from the front of its segment before any `}`, so it
      holds neither `}` nor a character no segment holds. */
  lemma KeysAvoid(segments: seq<string>, c: char)
    requires forall seg :: seg in segments ==> c !in seg
    ensures forall k :: k in SegmentKeys(segments) ==> c !in k && '}' !in k
  {
    forall k | k in SegmentKeys(segments)
      ensures c !in k && '}' !in k
    {
      var i :| 0 <= i < |segments| && SegmentKeys(segments)[i] == k;
      SplitFirst(segments[i], '}');
      assert segments[i] in segments;
      assert segments[i][..|k|] == k;
    }
  }

  function SegmentKeys(segments: seq<string>): (keys: seq<string>)
    ensures |keys| == |segments|
  {
    seq(|segments|, i requires 0 <= i < |segments| => Split(segments[i], '}')[0])
  }

  lemma SegmentKeysCons(a: string, rest: seq<string>)
    ensures SegmentKeys([a] + rest) == [Split(a, '}')[0]] + SegmentKeys(rest)
  {
    var l := [a] + rest;
    assert SegmentKeys(l)[0] == Split(a, '}')[0];
    forall i | 0 <= i < |rest|
      ensures SegmentKeys(l)[i + 1] == SegmentKeys(rest)[i]
    {
      assert l[i + 1] == rest[i];
    }
  }

  /** The same names found by one left-to-right scan: after every `{`, the
      text up to the next `{` or `}`. */
  function KeyScan(t: string): seq<string>
    decreases |t|
  {
    if |t| == 0 then []
    else if t[0] == '{' then [TakeUntil(TakeUntil(t[1..], '{'), '}')] + KeyScan(t[1..])
    else KeyScan(t[1..])
  }

  lemma {:induction false} SplitKeysScan(t: string)
    ensures SplitKeys(t) == KeyScan(t)
    decreases |t|
  {
    if |t| > 0 {
      SplitKeysScan(t[1..]);
      var rest := Split(t[1..], '{');
      if t[0] == '{' {
        assert Split(t, '{') == [""] + rest;
        assert Split(t, '{')[1..] == [rest[0]] + rest[1..];
        SegmentKeysCons(rest[0], rest[1..]);
        SplitFirst(rest[0], '}');
        SplitFirst(t[1..], '{');
      } else {
        assert Split(t, '{') == [[t[0]] + rest[0]] + rest[1..];
        assert Split(t, '{')[1..] == rest[1..];
      }
    }
  }

  lemma NoDoubleOpenSuffix(t: string, k: nat)
    requires NoDoubleOpen(t) && k <= |t|
    ensures NoDoubleOpen(t[k..])
  {
    forall i | 0 <= i < |t[k..]| - 1
      ensures !(t[k..][i] == '{' && t[k..][i + 1] == '{')
    {
      assert t[k..][i] == t[k + i] && t[k..][i + 1] == t[k + i + 1];
    }
  }

  lemma {:induction false} KeyScanSuffix(t: string, k: nat)
    requires k <= |t|
    ensures forall n :: n in KeyScan(t[k..]) ==> n in KeyScan(t)
    decreases k
  {
    if k > 0 {
      KeyScanSuffix(t[1..], k - 1);
      assert t[1..][k - 1..] == t[k..];
    }
  }

  lemma TakeUntilPrefix(s: string, name: string, sep: char, other: char)
    requires StartsWith(s, name) && |name| < |s| && s[|name|] == sep
    requires sep !in name && other !in name && sep != other
    ensures TakeUntil(TakeUntil(s, other), sep) == name
    decreases |s|
  {
    if |name| > 0 {
      TakeUntilPrefix(s[1..], name[1..], sep, other);
    }
  }

  /** Every field `format` substitutes is among the names the
      `split('{')` loop removes from the argument pool. */
  lemma {:induction false} FieldsInSplitKeys(t: string)
    requires Fields(t).Some?
    ensures forall n :: n in Fields(t).value ==> n in SplitKeys(t)
    decreases |t|
  {
    SplitKeysScan(t);
    if |t| == 0 {
    } else if t[0] == '{' {
      if |t| >= 2 && t[1] == '{' {
        FieldsInSplitKeys(t[2..]);
        KeyScanSuffix(t, 2);
        SplitKeysScan(t[2..]);
      } else {
        var name := TakeUntil(t[1..], '}');
        var k := |name| + 2;
        FieldsInSplitKeys(t[k..]);
        KeyScanSuffix(t, k);
        SplitKeysScan(t[k..]);
        TakeUntilPrefix(t[1..], name, '}', '{');
      }
    } else if t[0] == '}' {
      FieldsInSplitKeys(t[2..]);
      KeyScanSuffix(t, 2);
      SplitKeysScan(t[2..]);
    } else {
      FieldsInSplitKeys(t[1..]);
      KeyScanSuffix(t, 1);
      SplitKeysScan(t[1..]);
    }
  }

  /** `re.findall(r"{(.*?)}", t)`: at each `{` the shortest text without a
      newline that is followed by `}`; scanning resumes after that `}`, or at
      the next character when there is no match. */
  function RegexKeys(t: string): (keys: seq<string>)
    ensures forall k :: k in keys ==> '}' !in k && '\n' !in k
    decreases |t|
  {
    if |t| == 0 then []
    else if t[0] == '{' then
      var body := TakeUntil(t[1..], '}');
      if |body| < |t| - 1 && '\n' !in body then [body] + RegexKeys(t[|body| + 2..])
      else RegexKeys(t[1..])
    else RegexKeys(t[1..])
  }

  predicate NoDoubleOpen(t: string) {
    forall i :: 0 <= i < |t| - 1 ==> !(t[i] == '{' && t[i + 1] == '{')
  }

  /** In a well-formed one-line template without `{{`, the regular
      expression finds exactly the fields `format` substitutes. */
  lemma {:induction false} RegexKeysAreFields(t: string)
    requires Fields(t).Some? && '\n' !in t && NoDoubleOpen(t)
    ensures RegexKeys(t) == Fields(t).value
    decreases |t|
  {
    if |t| == 0 {
    } else if t[0] == '{' {
      var name := TakeUntil(t[1..], '}');
      var k := |name| + 2;
      NoDoubleOpenSuffix(t, k);
      RegexKeysAreFields(t[k..]);
    } else if t[0] == '}' {
      NoDoubleOpenSuffix(t, 2);
      RegexKeysAreFields(t[2..]);
      assert t[1..][1..] == t[2..];
    } else {
      NoDoubleOpenSuffix(t, 1);
      RegexKeysAreFields(t[1..]);
    }
  }
}
