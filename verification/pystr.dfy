/** The parts of Python's `str` that the scraper's text assembly relies on:
    `sep.join(items)`, `s.split(c)`, `s.count(c)`, `s.strip()`, `str(x)` of an
    optional string, and the truthiness of an optional string. */
module PyStr {
  import opened Wrappers

  /** Sum of the lengths of `items`. */
  function TotalLength(items: seq<string>): nat
  {
    if |items| == 0 then 0 else |items[0]| + TotalLength(items[1..])
  }

  /** `sep.join(items)`: the items in order with `sep` between neighbours. */
  function Join(sep: string, items: seq<string>): (r: string)
    ensures |items| == 0 ==> r == ""
    ensures |items| > 0 ==> |r| == TotalLength(items) + (|items| - 1) * |sep|
    ensures |items| > 0 ==> r[..|items[0]|] == items[0]
  {
    if |items| == 0 then ""
    else if |items| == 1 then items[0]
    else items[0] + sep + Join(sep, items[1..])
  }

  /** Joining an item in front of a non-empty sequence adds one separator. */
  lemma JoinCons(sep: string, x: string, ys: seq<string>)
    requires |ys| > 0
    ensures Join(sep, [x] + ys) == x + sep + Join(sep, ys)
  {
    assert ([x] + ys)[1..] == ys;
  }

  /** Joining two non-empty sequences puts one separator between the joins. */
  lemma {:induction false} JoinConcat(sep: string, xs: seq<string>, ys: seq<string>)
    requires |xs| > 0 && |ys| > 0
    ensures Join(sep, xs + ys) == Join(sep, xs) + sep + Join(sep, ys)
    decreases |xs|
  {
    if |xs| == 1 {
      assert (xs + ys)[1..] == ys;
    } else {
      assert (xs + ys)[1..] == xs[1..] + ys;
      JoinConcat(sep, xs[1..], ys);
    }
  }

  /** Appending one item adds exactly one separator and that item at the end. */
  lemma JoinAppend(sep: string, xs: seq<string>, x: string)
    ensures Join(sep, xs + [x]) == if xs == [] then x else Join(sep, xs) + sep + x
  {
    if xs == [] {
      assert xs + [x] == [x];
    } else {
      JoinConcat(sep, xs, [x]);
    }
  }

  /** `s.count(c)` for a one-character `c`. */
  function Count(s: string, c: char): (n: nat)
    ensures n <= |s|
    ensures n == 0 <==> c !in s
  {
    if |s| == 0 then 0 else (if s[0] == c then 1 else 0) + Count(s[1..], c)
  }

  /** `s.split(c)` for a one-character `c`: the maximal runs between the
      occurrences of `c`, always at least one piece. */
  function Split(s: string, c: char): (r: seq<string>)
    ensures |r| == Count(s, c) + 1
    ensures forall k :: 0 <= k < |r| ==> c !in r[k]
  {
    if |s| == 0 then [""]
    else
      var rest := Split(s[1..], c);
      if s[0] == c then [""] + rest
      else [[s[0]] + rest[0]] + rest[1..]
  }

  /** A string without the separator splits into itself. */
  lemma {:induction false} SplitWithoutSeparator(s: string, c: char)
    requires c !in s
    ensures Split(s, c) == [s]
  {
    if |s| > 0 {
      assert c !in s[1..] by {
        forall k | 0 <= k < |s[1..]| ensures s[1..][k] != c {
          assert s[1..][k] == s[k + 1];
        }
      }
      SplitWithoutSeparator(s[1..], c);
      assert [s[0]] + s[1..] == s;
    }
  }

  /** Splitting at one occurrence of the separator splits each side separately. */
  lemma {:induction false} SplitAtSeparator(a: string, c: char, b: string)
    ensures Split(a + [c] + b, c) == Split(a, c) + Split(b, c)
    decreases |a|
  {
    var s := a + [c] + b;
    if |a| == 0 {
      assert s[0] == c && s[1..] == b;
    } else {
      assert s[0] == a[0] && s[1..] == a[1..] + [c] + b;
      SplitAtSeparator(a[1..], c, b);
    }
  }

  /** The second piece of a split is the text between the first two
      separators, whatever follows them. */
  lemma SplitSecondPiece(a: string, t: string, rest: string, c: char)
    requires c !in a && c !in t
    ensures |Split(a + [c] + t + [c] + rest, c)| >= 2
    ensures Split(a + [c] + t + [c] + rest, c)[1] == t
  {
    assert a + [c] + t + [c] + rest == a + [c] + (t + [c] + rest);
    SplitAtSeparator(a, c, t + [c] + rest);
    SplitAtSeparator(t, c, rest);
    SplitWithoutSeparator(a, c);
    SplitWithoutSeparator(t, c);
  }

  /** `c.join(xs).split(c) == xs` when no item holds `c`: the pieces come
      back in the same order and number. */
  lemma {:induction false} SplitJoin(c: char, xs: seq<string>)
    requires |xs| > 0
    requires forall k :: 0 <= k < |xs| ==> c !in xs[k]
    ensures Split(Join([c], xs), c) == xs
    decreases |xs|
  {
    if |xs| == 1 {
      SplitWithoutSeparator(xs[0], c);
    } else {
      SplitJoin(c, xs[1..]);
      SplitAtSeparator(xs[0], c, Join([c], xs[1..]));
      SplitWithoutSeparator(xs[0], c);
      assert [xs[0]] + xs[1..] == xs;
    }
  }

  /** Python's `str.isspace()` on one character: the Unicode characters with
      bidirectional type WS, B or S, or general category Zs. */
  predicate IsSpace(c: char)
  {
    || ('\t' <= c <= '\r')
    || ('\U{1c}' <= c <= ' ')
    || c == '\U{85}' || c == '\U{a0}' || c == '\U{1680}'
    || ('\U{2000}' <= c <= '\U{200a}')
    || c == '\U{2028}' || c == '\U{2029}' || c == '\U{202f}'
    || c == '\U{205f}' || c == '\U{3000}'
  }

  /** `s.lstrip()`. */
  function StripLeading(s: string): (r: string)
    ensures |r| <= |s| && r == s[|s| - |r|..]
    ensures forall i :: 0 <= i < |s| - |r| ==> IsSpace(s[i])
    ensures r != [] ==> !IsSpace(r[0])
  {
    if |s| > 0 && IsSpace(s[0]) then StripLeading(s[1..]) else s
  }

  /** `s.rstrip()`. */
  function StripTrailing(s: string): (r: string)
    ensures |r| <= |s| && r == s[..|r|]
    ensures forall i :: |r| <= i < |s| ==> IsSpace(s[i])
    ensures r != [] ==> !IsSpace(r[|r| - 1])
  {
    if |s| > 0 && IsSpace(s[|s| - 1]) then StripTrailing(s[..|s| - 1]) else s
  }

  /** `s.strip()`: empty exactly when every character of `s` is whitespace. */
  function Strip(s: string): (r: string)
    ensures r == [] <==> forall i :: 0 <= i < |s| ==> IsSpace(s[i])
  {
    StripTrailing(StripLeading(s))
  }

  /** The text an f-string or `str()` gives for an optional string. */
  function Show(o: Option<string>): (r: string)
    ensures o.Some? ==> r == o.value
    ensures r == "None" <==> o.None? || o == Some("None")
  {
    match o
    case None => "None"
    case Some(s) => s
  }

  /** Python truthiness of an optional string: neither `None` nor `""`. */
  predicate Truthy(o: Option<string>)
  {
    o.Some? && o.value != ""
  }

  /** Number of display lines of `s`, counted as `s.count('\n') + 1`. */
  function LineCount(s: string): (n: nat)
    ensures n == |Split(s, '\n')|
    ensures n >= 1
  {
    Count(s, '\n') + 1
  }
}
