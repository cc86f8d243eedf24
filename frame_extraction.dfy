/** The frame ordering and input location of `frame_extraction.py`: the
    natural sort key that puts `Screenshot_2.png` before
    `Screenshot_10.png`, and the normalisation of the data sub-directory
    name. */
module FrameExtraction {
  import opened Text

  /** No character of `s` is an ASCII digit. */
  predicate NoDigits(s: string) {
    forall i :: 0 <= i < |s| ==> !IsDigit(s[i])
  }

  /** `s` is a non-empty run of ASCII digits. */
  predicate DigitRun(s: string) {
    s != [] && forall i :: 0 <= i < |s| ==> IsDigit(s[i])
  }

  /** Put one more character in front of the parts of the rest of a
      name: a digit opens a run or extends the run the rest starts with;
      any other character extends the leading text part. */
  function Push(c: char, rest: seq<string>): (r: seq<string>)
    requires |rest| >= 1
    ensures |r| == |rest| || |r| == |rest| + 2
  {
    if IsDigit(c) then
      if |rest| > 1 && rest[0] == "" then ["", [c] + rest[1]] + rest[2..]
      else ["", [c]] + rest
    else [[c] + rest[0]] + rest[1..]
  }

  /** `re.split('([0-9]+)', s)`: the text between maximal digit runs and
      the runs themselves, alternating, starting and ending with a
      (possibly empty) text part. */
  function SplitRuns(s: string): (r: seq<string>)
    ensures |r| >= 1
  {
    if s == [] then [""] else Push(s[0], SplitRuns(s[1..]))
  }

  /** `"".join(parts)`. */
  function Concat(parts: seq<string>): string {
    if parts == [] then "" else parts[0] + Concat(parts[1..])
  }

  /** The parts alternate text without digits and maximal digit runs: a
      text part between two runs is never empty, and the first part is
      empty exactly when `s` starts with a digit. */
  predicate Alternates(s: string, r: seq<string>) {
    |r| % 2 == 1 &&
    (forall i :: 0 <= i < |r| && i % 2 == 0 ==> NoDigits(r[i])) &&
    (forall i :: 0 <= i < |r| && i % 2 == 1 ==> DigitRun(r[i])) &&
    (forall i :: 0 < i < |r| - 1 && i % 2 == 0 ==> r[i] != []) &&
    ((s != [] && IsDigit(s[0])) <==> (r[0] == [] && |r| > 1)) &&
    (s != [] && !IsDigit(s[0]) ==> r[0] != [] && r[0][0] == s[0])
  }

  lemma PushAlternates(c: char, s: string, rest: seq<string>)
    requires Alternates(s, rest)
    ensures Alternates([c] + s, Push(c, rest))
  {
    assert ([c] + s)[0] == c;
    if IsDigit(c) && |rest| > 1 && rest[0] == "" {
      ExtendAlternates(c, rest);
    } else if IsDigit(c) {
      OpenAlternates(c, rest);
    } else {
      TextAlternates(c, rest);
    }
  }

  /** A digit in front of a name that starts with a digit run extends it. */
  lemma ExtendAlternates(c: char, rest: seq<string>)
    requires IsDigit(c) && |rest| > 1 && rest[0] == ""
    requires |rest| % 2 == 1
    requires forall i :: 0 <= i < |rest| && i % 2 == 0 ==> NoDigits(rest[i])
    requires forall i :: 0 <= i < |rest| && i % 2 == 1 ==> DigitRun(rest[i])
    requires forall i :: 0 < i < |rest| - 1 && i % 2 == 0 ==> rest[i] != []
    ensures var r := Push(c, rest);
      |r| == |rest| && r[0] == [] &&
      (forall i :: 0 <= i < |r| && i % 2 == 0 ==> NoDigits(r[i])) &&
      (forall i :: 0 <= i < |r| && i % 2 == 1 ==> DigitRun(r[i])) &&
      (forall i :: 0 < i < |r| - 1 && i % 2 == 0 ==> r[i] != [])
  {
    var r := Push(c, rest);
    var run := [c] + rest[1];
    assert r == ["", run] + rest[2..];
    assert forall i :: 2 <= i < |r| ==> r[i] == rest[i];
    assert DigitRun(rest[1]);
    assert DigitRun(run) by {
      assert forall i :: 1 <= i < |run| ==> run[i] == rest[1][i - 1];
    }
  }

  /** A digit in front of a name that starts with text opens a new run. */
  lemma OpenAlternates(c: char, rest: seq<string>)
    requires IsDigit(c) && !(|rest| > 1 && rest[0] == "")
    requires |rest| % 2 == 1
    requires forall i :: 0 <= i < |rest| && i % 2 == 0 ==> NoDigits(rest[i])
    requires forall i :: 0 <= i < |rest| && i % 2 == 1 ==> DigitRun(rest[i])
    requires forall i :: 0 < i < |rest| - 1 && i % 2 == 0 ==> rest[i] != []
    ensures var r := Push(c, rest);
      |r| == |rest| + 2 && r[0] == [] &&
      (forall i :: 0 <= i < |r| && i % 2 == 0 ==> NoDigits(r[i])) &&
      (forall i :: 0 <= i < |r| && i % 2 == 1 ==> DigitRun(r[i])) &&
      (forall i :: 0 < i < |r| - 1 && i % 2 == 0 ==> r[i] != [])
  {
    var r := Push(c, rest);
    assert r == ["", [c]] + rest;
    assert forall i :: 2 <= i < |r| ==> r[i] == rest[i - 2];
  }

  /** Any other character in front joins the leading text part. */
  lemma TextAlternates(c: char, rest: seq<string>)
    requires !IsDigit(c) && |rest| % 2 == 1
    requires forall i :: 0 <= i < |rest| && i % 2 == 0 ==> NoDigits(rest[i])
    requires forall i :: 0 <= i < |rest| && i % 2 == 1 ==> DigitRun(rest[i])
    requires forall i :: 0 < i < |rest| - 1 && i % 2 == 0 ==> rest[i] != []
    ensures var r := Push(c, rest);
      |r| == |rest| && r[0] != [] && r[0][0] == c &&
      (forall i :: 0 <= i < |r| && i % 2 == 0 ==> NoDigits(r[i])) &&
      (forall i :: 0 <= i < |r| && i % 2 == 1 ==> DigitRun(r[i])) &&
      (forall i :: 0 < i < |r| - 1 && i % 2 == 0 ==> r[i] != [])
  {
    var r := Push(c, rest);
    var text := [c] + rest[0];
    assert r == [text] + rest[1..];
    assert forall i :: 1 <= i < |r| ==> r[i] == rest[i];
    assert NoDigits(text) by {
      assert NoDigits(rest[0]);
      assert forall i :: 1 <= i < |text| ==> text[i] == rest[0][i - 1];
    }
  }

  lemma {:induction false} SplitRunsAlternates(s: string)
    ensures Alternates(s, SplitRuns(s))
    decreases |s|
  {
    if s != [] {
      SplitRunsAlternates(s[1..]);
      PushAlternates(s[0], s[1..], SplitRuns(s[1..]));
      assert s == [s[0]] + s[1..];
    }
  }

  lemma ConcatCons(x: string, ps: seq<string>)
    ensures Concat([x] + ps) == x + Concat(ps)
  {
    assert ([x] + ps)[1..] == ps;
  }

  lemma ConcatTwo(x: string, y: string, ps: seq<string>)
    ensures Concat([x, y] + ps) == x + (y + Concat(ps))
  {
    assert [x, y] + ps == [x] + ([y] + ps);
    ConcatCons(x, [y] + ps);
    ConcatCons(y, ps);
  }

  /** Joining after a push: the pushed character, then the rest joined. */
  lemma PushConcat(c: char, rest: seq<string>)
    requires |rest| >= 1
    ensures Concat(Push(c, rest)) == [c] + Concat(rest)
  {
    if IsDigit(c) && |rest| > 1 && rest[0] == "" {
      PushConcatExtend(c, rest);
    } else if IsDigit(c) {
      assert Push(c, rest) == ["", [c]] + rest;
      ConcatTwo("", [c], rest);
    } else {
      PushConcatText(c, rest);
    }
  }

  lemma PushConcatText(c: char, rest: seq<string>)
    requires !IsDigit(c) && |rest| >= 1
    ensures Concat(Push(c, rest)) == [c] + Concat(rest)
  {
    ConcatWiden([c], rest);
  }

  /** Joining is unchanged by moving text into the first part. */
  lemma ConcatWiden(y: string, rest: seq<string>)
    requires |rest| >= 1
    ensures Concat([y + rest[0]] + rest[1..]) == y + Concat(rest)
  {
    var x, tail := rest[0], rest[1..];
    var t := Concat(tail);
    assert (y + x) + t == y + (x + t);
    ConcatCons(y + x, tail);
    assert Concat(rest) == x + t;
  }

  /** A leading empty part adds nothing to the join. */
  lemma ConcatSkipEmpty(ps: seq<string>)
    requires ps != [] && ps[0] == ""
    ensures Concat(ps) == Concat(ps[1..])
  {
    assert ps == [""] + ps[1..];
    ConcatCons("", ps[1..]);
  }

  lemma PushConcatExtend(c: char, rest: seq<string>)
    requires IsDigit(c) && |rest| > 1 && rest[0] == ""
    ensures Concat(Push(c, rest)) == [c] + Concat(rest)
  {
    var tail := rest[1..];
    var w := [[c] + tail[0]] + tail[1..];
    assert Push(c, rest) == [""] + w by {
      assert tail[0] == rest[1] && tail[1..] == rest[2..];
    }
    ConcatWiden([c], tail);
    ConcatSkipEmpty(Push(c, rest));
    ConcatSkipEmpty(rest);
  }

  /** Joining the parts back gives the original name. */
  lemma {:induction false} SplitRunsConcat(s: string)
    ensures Concat(SplitRuns(s)) == s
    decreases |s|
  {
    if s != [] {
      SplitRunsConcat(s[1..]);
      PushConcat(s[0], SplitRuns(s[1..]));
      assert s == [s[0]] + s[1..];
    }
  }

  /** The parts of `a` followed by those of `b`, the last of `a` and the
      first of `b` joined into one. */
  function Glue(a: seq<string>, b: seq<string>): seq<string>
    requires |a| >= 1 && |b| >= 1
  {
    a[..|a| - 1] + [a[|a| - 1] + b[0]] + b[1..]
  }

  lemma PushGlue(c: char, a: seq<string>, b: seq<string>)
    requires |a| >= 1 && |b| >= 1 && b[0] != []
    requires |a| > 1 ==> |a| >= 3
    ensures Push(c, Glue(a, b)) == Glue(Push(c, a), b)
  {
    if |a| == 1 {
      PushGlueSingle(c, a[0], b);
      assert a == [a[0]];
    } else {
      PushGlueLong(c, a, b);
    }
  }

  lemma PushGlueSingle(c: char, x: string, b: seq<string>)
    requires |b| >= 1 && b[0] != []
    ensures Push(c, Glue([x], b)) == Glue(Push(c, [x]), b)
  {
    var rest := Glue([x], b);
    assert rest == [x + b[0]] + b[1..];
    assert rest[0] != [];
    if IsDigit(c) {
      assert Push(c, [x]) == ["", [c], x];
      assert Push(c, rest) == ["", [c]] + rest;
    } else {
      assert Push(c, [x]) == [[c] + x];
      assert Push(c, rest) == [[c] + (x + b[0])] + b[1..];
      assert [c] + (x + b[0]) == ([c] + x) + b[0];
    }
  }

  lemma PushGlueLong(c: char, a: seq<string>, b: seq<string>)
    requires |a| >= 3 && |b| >= 1
    ensures Push(c, Glue(a, b)) == Glue(Push(c, a), b)
  {
    var g := Glue(a, b);
    GlueKeeps(a, b);
    if IsDigit(c) && a[0] == "" {
      assert Push(c, g) == ["", [c] + a[1]] + g[2..];
      assert Push(c, a) == ["", [c] + a[1]] + a[2..];
      GlueDrop(a, b, 2);
      GlueFront(["", [c] + a[1]], a[2..], b);
    } else if IsDigit(c) {
      assert Push(c, g) == ["", [c]] + g;
      GlueFront(["", [c]], a, b);
    } else {
      assert Push(c, g) == [[c] + a[0]] + g[1..];
      assert Push(c, a) == [[c] + a[0]] + a[1..];
      GlueDrop(a, b, 1);
      GlueFront([[c] + a[0]], a[1..], b);
    }
  }

  /** Gluing leaves all but the last part of `a` in place. */
  lemma GlueKeeps(a: seq<string>, b: seq<string>)
    requires |a| >= 1 && |b| >= 1
    ensures |Glue(a, b)| == |a| + |b| - 1
    ensures forall i :: 0 <= i < |a| - 1 ==> Glue(a, b)[i] == a[i]
  {
  }

  lemma GlueDrop(a: seq<string>, b: seq<string>, d: nat)
    requires d < |a| && |b| >= 1
    ensures Glue(a, b)[d..] == Glue(a[d..], b)
  {
    var k := |a|;
    assert a[d..][..|a[d..]| - 1] == a[d..k - 1];
    assert a[d..][|a[d..]| - 1] == a[k - 1];
  }

  lemma GlueFront(f: seq<string>, a: seq<string>, b: seq<string>)
    requires |a| >= 1 && |b| >= 1
    ensures f + Glue(a, b) == Glue(f + a, b)
  {
    var k := |a|;
    assert (f + a)[..|f + a| - 1] == f + a[..k - 1];
    assert (f + a)[|f + a| - 1] == a[k - 1];
  }

  /** Splitting a name made of a prefix and a part starting with a
      non-digit: the prefix's parts and the suffix's, the prefix's last
      text part joined to the suffix's first. */
  lemma {:induction false} SplitRunsAppend(u: string, t: string)
    requires t != [] && !IsDigit(t[0])
    ensures SplitRuns(u + t) == Glue(SplitRuns(u), SplitRuns(t))
    decreases |u|
  {
    var b := SplitRuns(t);
    SplitRunsAlternates(t);
    if u == [] {
      assert u + t == t;
      assert SplitRuns(u) == [""];
      assert "" + b[0] == b[0];
      assert b == [b[0]] + b[1..];
    } else {
      assert (u + t)[1..] == u[1..] + t;
      assert (u + t)[0] == u[0];
      SplitRunsAppend(u[1..], t);
      var a' := SplitRuns(u[1..]);
      SplitRunsAlternates(u[1..]);
      assert |a'| > 1 ==> |a'| >= 3;
      PushGlue(u[0], a', b);
    }
  }

  lemma {:induction false} NoDigitsPrefix(x: string, r: string)
    requires NoDigits(x)
    ensures var b := SplitRuns(r); SplitRuns(x + r) == [x + b[0]] + b[1..]
    decreases |x|
  {
    var b := SplitRuns(r);
    if x == [] {
      assert x + r == r && x + b[0] == b[0];
      assert b == [b[0]] + b[1..];
    } else {
      assert (x + r)[1..] == x[1..] + r;
      assert (x + r)[0] == x[0];
      assert !IsDigit(x[0]);
      NoDigitsPrefix(x[1..], r);
      var rest := SplitRuns(x[1..] + r);
      assert rest[0] == x[1..] + b[0] && rest[1..] == b[1..];
      assert SplitRuns(x + r) == Push(x[0], rest) == [[x[0]] + rest[0]] + rest[1..];
      assert [x[0]] + rest[0] == x + b[0] by {
        assert x == [x[0]] + x[1..];
      }
    }
  }

  lemma {:induction false} DigitRunThen(ds: string, w: string)
    requires DigitRun(ds) && w != [] && !IsDigit(w[0])
    ensures SplitRuns(ds + w) == ["", ds] + SplitRuns(w)
    decreases |ds|
  {
    assert (ds + w)[1..] == ds[1..] + w;
    assert (ds + w)[0] == ds[0];
    SplitRunsAlternates(w);
    if |ds| == 1 {
      assert ds[1..] + w == w;
      assert ds == [ds[0]];
    } else {
      DigitRunThen(ds[1..], w);
      assert ds == [ds[0]] + ds[1..];
    }
  }

  /** One element of the key: a number for a digit run, the lower-cased
      text otherwise. */
  datatype Chunk = Text(text: string) | Number(value: nat)

  function DigitValue(c: char): nat
    requires IsDigit(c)
  {
    c as nat - '0' as nat
  }

  /** `int(ds)` for a run of ASCII digits. */
  function Value(ds: string): nat
    requires DigitRun(ds)
  {
    if |ds| == 1 then DigitValue(ds[0])
    else Value(ds[..|ds| - 1]) * 10 + DigitValue(ds[|ds| - 1])
  }

  /** `int(text) if text.isdigit() else text.lower()`. */
  function ChunkKey(part: string): Chunk {
    if DigitRun(part) then Number(Value(part)) else Text(Lower(part))
  }

  function ChunkKeys(parts: seq<string>): (r: seq<Chunk>)
    ensures |r| == |parts|
  {
    seq(|parts|, i requires 0 <= i < |parts| => ChunkKey(parts[i]))
  }

  /** `natural_sort_key(s)`. */
  function NaturalSortKey(s: string): seq<Chunk> {
    ChunkKeys(SplitRuns(s))
  }

  /** The key alternates text and numbers, starting and ending with text,
      so two keys never compare a number with a string. */
  lemma NaturalSortKeyShape(s: string)
    ensures var k := NaturalSortKey(s);
      |k| % 2 == 1 &&
      (forall i :: 0 <= i < |k| && i % 2 == 0 ==> k[i].Text?) &&
      (forall i :: 0 <= i < |k| && i % 2 == 1 ==> k[i].Number?)
  {
    var r := SplitRuns(s);
    SplitRunsAlternates(s);
    forall i | 0 <= i < |r| && i % 2 == 0 ensures !DigitRun(r[i]) {
      if r[i] != [] {
        assert !IsDigit(r[i][0]);
      }
    }
  }

  /** `<` on two key elements of the same kind. Keys alternate kinds in
      the same positions, so a number is never compared with a string. */
  predicate ChunkLess(x: Chunk, y: Chunk) {
    match (x, y)
    case (Text(a), Text(b)) => StrLess(a, b)
    case (Number(m), Number(n)) => m < n
    case _ => false
  }

  /** Python's `<` on two key lists: lexicographic. */
  predicate KeyLess(a: seq<Chunk>, b: seq<Chunk>) {
    if a == [] then b != []
    else if b == [] then false
    else if a[0] != b[0] then ChunkLess(a[0], b[0])
    else KeyLess(a[1..], b[1..])
  }

  lemma {:induction false} KeyLessPrefix(p: seq<Chunk>, a: seq<Chunk>, b: seq<Chunk>)
    ensures KeyLess(p + a, p + b) == KeyLess(a, b)
    decreases |p|
  {
    if p != [] {
      assert (p + a)[1..] == p[1..] + a;
      assert (p + b)[1..] == p[1..] + b;
      assert (p + a)[0] == p[0] == (p + b)[0];
      KeyLessPrefix(p[1..], a, b);
      assert KeyLess(p + a, p + b) == KeyLess(p[1..] + a, p[1..] + b);
    } else {
      assert p + a == a && p + b == b;
    }
  }

  /** A name made of a digit run between two texts without digits. */
  lemma NumberedSplit(pre: string, ds: string, post: string)
    requires NoDigits(pre) && DigitRun(ds) && NoDigits(post) && post != []
    ensures SplitRuns(pre + ds + post) == [pre, ds, post]
  {
    assert pre + ds + post == pre + (ds + post);
    DigitRunThen(ds, post);
    NoDigitsPrefix(post, "");
    assert post + "" == post;
    NoDigitsPrefix(pre, ds + post);
    assert pre + "" == pre;
  }

  lemma ChunkKeysAppend(x: seq<string>, y: seq<string>)
    ensures ChunkKeys(x + y) == ChunkKeys(x) + ChunkKeys(y)
  {
  }

  /** The key of `dir + pre + ds + post`: the directory's parts up to its
      last text part, that part joined to `pre`, the number, `post`. */
  lemma NumberedKey(dir: string, pre: string, ds: string, post: string)
    requires NoDigits(pre) && pre != [] && DigitRun(ds) && NoDigits(post) && post != []
    ensures var a := SplitRuns(dir);
      NaturalSortKey(dir + pre + ds + post) ==
        ChunkKeys(a[..|a| - 1]) + [Text(Lower(a[|a| - 1] + pre)), Number(Value(ds)), Text(Lower(post))]
  {
    var a := SplitRuns(dir);
    var last := a[|a| - 1] + pre;
    var head := a[..|a| - 1];
    assert SplitRuns(dir + pre + ds + post) == head + [last, ds, post] by {
      var t := pre + ds + post;
      assert dir + pre + ds + post == dir + t;
      NumberedSplit(pre, ds, post);
      assert t[0] == pre[0];
      SplitRunsAppend(dir, t);
    }
    assert !DigitRun(last) by {
      assert !IsDigit(last[|last| - 1]);
    }
    assert !DigitRun(post) by {
      assert !IsDigit(post[0]);
    }
    NumberedKeys(head, last, ds, post);
  }

  lemma NumberedKeys(head: seq<string>, last: string, ds: string, post: string)
    requires !DigitRun(last) && DigitRun(ds) && !DigitRun(post)
    ensures ChunkKeys(head + [last, ds, post]) == ChunkKeys(head) + [Text(Lower(last)), Number(Value(ds)), Text(Lower(post))]
  {
    ChunkKeysAppend(head, [last, ds, post]);
  }

  /** Two names that differ only in a number between the same texts: the
      first sorts before the second exactly when its number is smaller. */
  lemma NumberedOrder(dir: string, pre: string, post: string, d1: string, d2: string)
    requires NoDigits(pre) && pre != [] && NoDigits(post) && post != []
    requires DigitRun(d1) && DigitRun(d2)
    ensures KeyLess(NaturalSortKey(dir + pre + d1 + post), NaturalSortKey(dir + pre + d2 + post)) <==> Value(d1) < Value(d2)
  {
    var a := SplitRuns(dir);
    NumberedKey(dir, pre, d1, post);
    NumberedKey(dir, pre, d2, post);
    var p := ChunkKeys(a[..|a| - 1]) + [Text(Lower(a[|a| - 1] + pre))];
    var tail1 := [Number(Value(d1)), Text(Lower(post))];
    var tail2 := [Number(Value(d2)), Text(Lower(post))];
    assert NaturalSortKey(dir + pre + d1 + post) == p + tail1;
    assert NaturalSortKey(dir + pre + d2 + post) == p + tail2;
    KeyLessPrefix(p, tail1, tail2);
    if Value(d1) == Value(d2) {
      assert tail1[1..] == tail2[1..] == [Text(Lower(post))];
      assert !KeyLess([Text(Lower(post))], [Text(Lower(post))]);
    }
  }

  /** The name of frame number `ds` in a directory whose path is `dir`. */
  function FrameName(dir: string, ds: string): string {
    dir + "Screenshot_" + ds + ".png"
  }

  /** Frames of one directory sort by their numbers, not by their text:
      frame `d1` comes before frame `d2` exactly when `int(d1) < int(d2)`. */
  lemma FramesInNumericOrder(dir: string, d1: string, d2: string)
    requires DigitRun(d1) && DigitRun(d2)
    ensures KeyLess(NaturalSortKey(FrameName(dir, d1)), NaturalSortKey(FrameName(dir, d2))) <==> Value(d1) < Value(d2)
  {
    assert NoDigits("Screenshot_") && NoDigits(".png");
    NumberedOrder(dir, "Screenshot_", ".png", d1, d2);
  }

  /** Plain string order puts frame 10 before frame 2; the key puts frame
      2 first. */
  lemma TwoBeforeTen()
    ensures StrLess(FrameName("", "10"), FrameName("", "2"))
    ensures KeyLess(NaturalSortKey(FrameName("", "2")), NaturalSortKey(FrameName("", "10")))
  {
    assert DigitRun("2") && DigitRun("10");
    FramesInNumericOrder("", "2", "10");
    assert Value("10") == 10 by {
      assert "10"[..1] == "1";
    }
    assert FrameName("", "10") == "Screenshot_" + "10.png";
    assert FrameName("", "2") == "Screenshot_" + "2.png";
    StrLessPrefix("Screenshot_", "10.png", "2.png");
  }

  lemma {:induction false} StrLessPrefix(p: string, a: string, b: string)
    ensures StrLess(p + a, p + b) == StrLess(a, b)
    decreases |p|
  {
    if p != [] {
      assert (p + a)[1..] == p[1..] + a;
      assert (p + b)[1..] == p[1..] + b;
      assert (p + a)[0] == p[0] == (p + b)[0];
      StrLessPrefix(p[1..], a, b);
      assert StrLess(p + a, p + b) == StrLess(p[1..] + a, p[1..] + b);
    } else {
      assert p + a == a && p + b == b;
    }
  }

  /** `DATA_SUBDIRECTORY_NAME` with one leading `data/` taken off. */
  function NormalizeSubdir(sub: string): (r: string)
    ensures StartsWith(sub, "data/") ==> "data/" + r == sub
    ensures !StartsWith(sub, "data/") ==> r == sub
  {
    if StartsWith(sub, "data/") then sub[|"data/"|..] else sub
  }

  /** `os.path.join(a, b)` for POSIX paths. */
  function PathJoin(a: string, b: string): string {
    if StartsWith(b, "/") then b
    else if a == [] || EndsWith(a, "/") then a + b
    else a + "/" + b
  }

  /** `INPUT_DATA_ROOT`: the data root joined with the normalised
      sub-directory, or the data root itself when that is empty. */
  function InputDataRoot(dataRoot: string, sub: string): string {
    var n := NormalizeSubdir(sub);
    if n != [] then PathJoin(dataRoot, n) else dataRoot
  }

  /** `2025xxxx` and `data/2025xxxx` name the same directory, and an empty
      sub-directory or a bare `data/` reads straight from the data root. */
  lemma InputDataRootForms(dataRoot: string, sub: string)
    requires !StartsWith(sub, "data/")
    ensures InputDataRoot(dataRoot, "data/" + sub) == InputDataRoot(dataRoot, sub)
    ensures InputDataRoot(dataRoot, "") == dataRoot
    ensures InputDataRoot(dataRoot, "data/") == dataRoot
  {
    assert StartsWith("data/" + sub, "data/") by {
      assert ("data/" + sub)[..5] == "data/";
    }
    assert NormalizeSubdir("data/") == "";
  }

  /** Only one `data/` is removed: `data/data/x` is read from
      `<data root>/data/x`. */
  lemma NormalizeSubdirOnce(x: string)
    ensures NormalizeSubdir("data/data/" + x) == "data/" + x
  {
    var s := "data/data/" + x;
    assert s[..5] == "data/";
    assert s == "data/" + ("data/" + x);
  }
}
