/** The `totalcode` command: counts the lines of every source file the glob
    matches and reports the number of files and the summed line count, or a
    fixed notice when the glob fails. The glob and the file reads are inputs:
    the matched paths, and a function from a path to its contents. */
module TotalCode {
  import opened Platform

  const ErrorNotice := "An error occurred while trying to get the total amount of code."

  /** `s.split("\n")`: the pieces between newlines; no separator gives one piece. */
  function Split(s: string): (pieces: seq<string>)
    ensures |pieces| >= 1
    ensures forall i :: 0 <= i < |pieces| ==> '\n' !in pieces[i]
  {
    if s == [] then [""]
    else
      var rest := Split(s[1..]);
      if s[0] == '\n' then [""] + rest
      else [[s[0]] + rest[0]] + rest[1..]
  }

  /** The inverse of `Split`: the pieces glued back with newlines. */
  function Join(pieces: seq<string>): string
    requires |pieces| >= 1
    decreases |pieces|
  {
    if |pieces| == 1 then pieces[0] else pieces[0] + "\n" + Join(pieces[1..])
  }

  /** Splitting loses nothing: gluing the pieces back gives the original text. */
  lemma {:induction false} JoinSplit(s: string)
    ensures Join(Split(s)) == s
  {
    if s != [] {
      var rest := Split(s[1..]);
      JoinSplit(s[1..]);
      if s[0] == '\n' {
        assert ([""] + rest)[1..] == rest;
      } else {
        var pieces := [[s[0]] + rest[0]] + rest[1..];
        if |rest| == 1 {
          assert pieces == [[s[0]] + rest[0]];
        } else {
          assert pieces[1..] == rest[1..];
          assert Join(pieces) == [s[0]] + (rest[0] + "\n" + Join(rest[1..]));
          assert s == [s[0]] + s[1..];
        }
      }
    }
  }

  /** Splitting a text that starts with a newline-free `a` glues `a` onto the first piece. */
  lemma {:induction false} SplitAfterPrefix(a: string, t: string)
    requires '\n' !in a
    ensures Split(a + t) == [a + Split(t)[0]] + Split(t)[1..]
    decreases |a|
  {
    if a != [] {
      assert (a + t)[0] == a[0] && (a + t)[1..] == a[1..] + t;
      assert a[0] != '\n' by {
        assert a[0] in a;
      }
      assert '\n' !in a[1..] by {
        forall i | 0 <= i < |a[1..]| ensures a[1..][i] != '\n' {
          assert a[1..][i] in a;
        }
      }
      SplitAfterPrefix(a[1..], t);
      var rest := Split(a[1..] + t);
      assert rest == [a[1..] + Split(t)[0]] + Split(t)[1..];
      assert rest[1..] == Split(t)[1..];
      assert Split(a + t) == [[a[0]] + rest[0]] + rest[1..];
      assert [a[0]] + (a[1..] + Split(t)[0]) == a + Split(t)[0];
    } else {
      assert a + t == t;
      assert a + Split(t)[0] == Split(t)[0];
      assert Split(t) == [Split(t)[0]] + Split(t)[1..];
    }
  }

  /** Gluing newline-free pieces and splitting again gives the pieces back. */
  lemma {:induction false} SplitJoin(pieces: seq<string>)
    requires |pieces| >= 1
    requires forall i :: 0 <= i < |pieces| ==> '\n' !in pieces[i]
    ensures Split(Join(pieces)) == pieces
    decreases |pieces|
  {
    var a := pieces[0];
    if |pieces| == 1 {
      SplitAfterPrefix(a, "");
      assert a + "" == a;
    } else {
      var r := Join(pieces[1..]);
      SplitJoin(pieces[1..]);
      assert Split("\n" + r) == [""] + Split(r) by {
        assert ("\n" + r)[1..] == r;
      }
      assert Join(pieces) == a + ("\n" + r);
      SplitAfterPrefix(a, "\n" + r);
      assert a + "" == a;
    }
  }

  /** The number of newline characters in `s`. */
  function Newlines(s: string): nat {
    if s == [] then 0 else (if s[0] == '\n' then 1 else 0) + Newlines(s[1..])
  }

  lemma {:induction false} SplitLength(s: string)
    ensures |Split(s)| == Newlines(s) + 1
  {
    if s != [] {
      SplitLength(s[1..]);
    }
  }

  /** `v.split("\n").length`: one more than the number of newlines, so even an
      empty file counts as one line. */
  function LineCount(s: string): (n: nat)
    ensures n == Newlines(s) + 1
    ensures n >= 1
  {
    SplitLength(s);
    |Split(s)|
  }

  /** `xs.map(f)`. */
  function Map<A, B>(f: A -> B, xs: seq<A>): (ys: seq<B>)
    ensures |ys| == |xs|
    ensures forall i :: 0 <= i < |xs| ==> ys[i] == f(xs[i])
  {
    seq(|xs|, i requires 0 <= i < |xs| => f(xs[i]))
  }

  lemma MapFirst<A, B>(f: A -> B, xs: seq<A>)
    requires |xs| > 0
    ensures Map(f, xs) == [f(xs[0])] + Map(f, xs[1..])
  {
  }

  /** Taking out the element at `j` takes exactly its image out of the mapped multiset. */
  lemma MapWithout<A, B>(f: A -> B, ys: seq<A>, j: nat)
    requires j < |ys|
    ensures multiset(Map(f, ys)) == multiset(Map(f, ys[..j] + ys[j+1..])) + multiset{f(ys[j])}
  {
    var m := Map(f, ys);
    assert m == m[..j] + [f(ys[j])] + m[j+1..];
    assert Map(f, ys[..j] + ys[j+1..]) == m[..j] + m[j+1..];
  }

  /** Removing one occurrence of `ys[j]` from a permutation of `x :: rest`. */
  lemma PermutationWithout<A>(x: A, rest: seq<A>, ys: seq<A>, j: nat)
    requires multiset([x] + rest) == multiset(ys) && j < |ys| && ys[j] == x
    ensures multiset(rest) == multiset(ys[..j] + ys[j+1..])
  {
    assert ys == ys[..j] + [x] + ys[j+1..];
    assert multiset(ys) == multiset(ys[..j]) + multiset{x} + multiset(ys[j+1..]);
    assert multiset(ys[..j] + ys[j+1..]) == multiset(ys) - multiset{x};
    assert multiset(rest) == multiset([x] + rest) - multiset{x};
  }

  /** Mapping a permutation gives a permutation. */
  lemma {:induction false} MapPermutation<A, B>(f: A -> B, xs: seq<A>, ys: seq<A>)
    requires multiset(xs) == multiset(ys)
    ensures multiset(Map(f, xs)) == multiset(Map(f, ys))
    decreases |xs|
  {
    if xs == [] {
      assert |ys| == |multiset(ys)| == 0;
    } else {
      var x := xs[0];
      assert x in multiset(ys);
      var j :| 0 <= j < |ys| && ys[j] == x;
      assert xs == [x] + xs[1..];
      PermutationWithout(x, xs[1..], ys, j);
      MapPermutation(f, xs[1..], ys[..j] + ys[j+1..]);
      MapFirst(f, xs);
      MapWithout(f, ys, j);
    }
  }

  /** The sum of a sequence, as a reference for `Reduce`. */
  function Sum(xs: seq<nat>): nat {
    if xs == [] then 0 else xs[0] + Sum(xs[1..])
  }

  /** A left fold with `(a, b) => a + b`, starting from `acc`. */
  function Fold(acc: nat, xs: seq<nat>): nat
    decreases |xs|
  {
    if xs == [] then acc else Fold(acc + xs[0], xs[1..])
  }

  lemma {:induction false} FoldIsSum(acc: nat, xs: seq<nat>)
    ensures Fold(acc, xs) == acc + Sum(xs)
    decreases |xs|
  {
    if xs != [] {
      FoldIsSum(acc + xs[0], xs[1..]);
    }
  }

  /** `xs.reduce((a, b) => a + b)`: without an initial value the first element
      seeds the fold, so an empty sequence has no result. */
  function Reduce(xs: seq<nat>): (total: nat)
    requires |xs| > 0
    ensures total == Sum(xs)
  {
    FoldIsSum(xs[0], xs[1..]);
    Fold(xs[0], xs[1..])
  }

  /** The total number of newlines over all files. */
  function AllNewlines(contents: seq<string>): nat {
    if contents == [] then 0 else Newlines(contents[0]) + AllNewlines(contents[1..])
  }

  lemma {:induction false} SumOfLineCounts(contents: seq<string>)
    ensures Sum(Map(LineCount, contents)) == AllNewlines(contents) + |contents|
  {
    if contents != [] {
      MapFirst(LineCount, contents);
      SumOfLineCounts(contents[1..]);
    }
  }

  /** The reported line total: every file contributes its newlines plus one,
      so the total is at least the number of files. */
  function TotalLines(contents: seq<string>): (total: nat)
    requires |contents| > 0
    ensures total == AllNewlines(contents) + |contents|
    ensures total >= |contents|
  {
    SumOfLineCounts(contents);
    Reduce(Map(LineCount, contents))
  }

  lemma {:induction false} SumAppend(xs: seq<nat>, ys: seq<nat>)
    ensures Sum(xs + ys) == Sum(xs) + Sum(ys)
  {
    if xs != [] {
      assert (xs + ys)[0] == xs[0];
      assert (xs + ys)[1..] == xs[1..] + ys;
      assert Sum(xs + ys) == xs[0] + Sum(xs[1..] + ys);
      SumAppend(xs[1..], ys);
    } else {
      assert xs + ys == ys;
    }
  }

  /** Taking out the element at `j` takes exactly that element off the sum. */
  lemma SumWithout(xs: seq<nat>, j: nat)
    requires j < |xs|
    ensures Sum(xs) == xs[j] + Sum(xs[..j] + xs[j+1..])
  {
    assert xs == xs[..j] + xs[j..];
    assert xs[j..][1..] == xs[j+1..];
    SumAppend(xs[..j], xs[j..]);
    SumAppend(xs[..j], xs[j+1..]);
  }

  /** A sum does not depend on the order of its terms. */
  lemma {:induction false} SumPermutation(xs: seq<nat>, ys: seq<nat>)
    requires multiset(xs) == multiset(ys)
    ensures Sum(xs) == Sum(ys)
    decreases |xs|
  {
    if xs == [] {
      assert |ys| == |multiset(ys)| == 0;
    } else {
      var x := xs[0];
      assert x in multiset(ys);
      var j :| 0 <= j < |ys| && ys[j] == x;
      assert xs == [x] + xs[1..];
      PermutationWithout(x, xs[1..], ys, j);
      SumPermutation(xs[1..], ys[..j] + ys[j+1..]);
      SumWithout(ys, j);
    }
  }

  /** Permuting the files leaves the reported total unchanged. */
  lemma TotalLinesPermutation(cs: seq<string>, ds: seq<string>)
    requires |cs| > 0 && multiset(cs) == multiset(ds)
    ensures |ds| > 0 && TotalLines(cs) == TotalLines(ds)
  {
    assert |ds| == |multiset(ds)| == |multiset(cs)| == |cs|;
    MapPermutation(LineCount, cs, ds);
    SumPermutation(Map(LineCount, cs), Map(LineCount, ds));
  }

  predicate IsDigit(c: char) {
    '0' <= c <= '9'
  }

  predicate AllDigits(s: string) {
    forall i :: 0 <= i < |s| ==> IsDigit(s[i])
  }

  function DigitChar(d: nat): (c: char)
    requires d < 10
    ensures IsDigit(c) && c as int - '0' as int == d
  {
    ('0' as int + d) as char
  }

  /** A template literal's rendering of a count: its decimal digits, most significant first. */
  function Decimal(n: nat): (s: string)
    ensures |s| >= 1 && AllDigits(s)
    decreases n
  {
    if n < 10 then [DigitChar(n)] else Decimal(n / 10) + [DigitChar(n % 10)]
  }

  /** Reads a string of decimal digits back as a count. */
  function ParseDecimal(s: string): nat
    requires AllDigits(s)
    decreases |s|
  {
    if s == [] then 0
    else 10 * ParseDecimal(s[..|s| - 1]) + (s[|s| - 1] as int - '0' as int)
  }

  lemma {:induction false} DecimalRoundTrip(n: nat)
    ensures ParseDecimal(Decimal(n)) == n
    decreases n
  {
    if n >= 10 {
      var s := Decimal(n);
      assert s[..|s| - 1] == Decimal(n / 10);
      DecimalRoundTrip(n / 10);
    }
  }

  const FilesLabel := "Files: "
  const LinesLabel := "Lines: "

  lemma NoNewlineInDigits(tag: string, digits: string)
    requires '\n' !in tag && AllDigits(digits)
    ensures '\n' !in tag + digits
  {
  }

  /** The text of the success embed: exactly two lines, the labelled file
      count and then the labelled line count. */
  function Summary(files: nat, lines: nat): (s: string)
    ensures Split(s) == [FilesLabel + Decimal(files), LinesLabel + Decimal(lines)]
  {
    var first := FilesLabel + Decimal(files);
    var second := LinesLabel + Decimal(lines);
    NoNewlineInDigits(FilesLabel, Decimal(files));
    NoNewlineInDigits(LinesLabel, Decimal(lines));
    SplitJoin([first, second]);
    assert Join([first, second]) == first + "\n" + second;
    first + "\n" + second
  }

  /** Reads a summary back: two lines, each a label followed by a count. */
  function ParseSummary(text: string): Option<(nat, nat)> {
    var rows := Split(text);
    if |rows| == 2
       && |rows[0]| >= |FilesLabel| && rows[0][..|FilesLabel|] == FilesLabel && AllDigits(rows[0][|FilesLabel|..])
       && |rows[1]| >= |LinesLabel| && rows[1][..|LinesLabel|] == LinesLabel && AllDigits(rows[1][|LinesLabel|..])
    then Some((ParseDecimal(rows[0][|FilesLabel|..]), ParseDecimal(rows[1][|LinesLabel|..])))
    else None
  }

  /** The summary states both counts: reading it back recovers them exactly. */
  lemma SummaryRoundTrip(files: nat, lines: nat)
    ensures ParseSummary(Summary(files, lines)) == Some((files, lines))
  {
    var first := FilesLabel + Decimal(files);
    var second := LinesLabel + Decimal(lines);
    assert first[|FilesLabel|..] == Decimal(files);
    assert second[|LinesLabel|..] == Decimal(lines);
    DecimalRoundTrip(files);
    DecimalRoundTrip(lines);
  }

  /** What the glob reports: an error, or the matched paths. */
  datatype GlobResult = GlobFailed | Matched(paths: seq<string>)

  /** The reply payload `execute` hands to the context: the notice when the
      glob fails, otherwise one success embed whose text states the number of
      matched files and their total line count. */
  function Execute(glob: GlobResult, read: string -> string): (reply: Fields)
    requires glob.Matched? ==> |glob.paths| > 0
    ensures glob.GlobFailed? ==> reply == Fields(Some(ErrorNotice), [], false, false)
    ensures glob.Matched? ==>
              reply.content.None? && !reply.ephemeral && |reply.embeds| == 1 && reply.embeds[0].style == "success" &&
              ParseSummary(reply.embeds[0].description) == Some((|glob.paths|, TotalLines(Map(read, glob.paths))))
  {
    match glob
    case GlobFailed => Fields(Some(ErrorNotice), [], false, false)
    case Matched(files) =>
      var fileContents := Map(read, files);
      var lines := TotalLines(fileContents);
      SummaryRoundTrip(|files|, lines);
      Fields(None, [Embed("success", Summary(|files|, lines))], false, false)
  }

  /** The reply does not depend on the order in which the glob lists the files. */
  lemma ExecuteOrderIndependent(ps: seq<string>, qs: seq<string>, read: string -> string)
    requires |ps| > 0 && multiset(ps) == multiset(qs)
    ensures |qs| > 0 && Execute(Matched(ps), read) == Execute(Matched(qs), read)
  {
    assert |qs| == |multiset(qs)| == |multiset(ps)| == |ps|;
    MapPermutation(read, ps, qs);
    TotalLinesPermutation(Map(read, ps), Map(read, qs));
  }
}
