/** Text written by the backends: a `TextWriter` that only ever appends, and the
    line structure of what it holds. */
module Text {

  /** The line terminator `WriteLine` appends. */
  const EOL: char := '\n'

  /** What `WriteLine(s)` appends. */
  function Line(s: string): string
  {
    s + [EOL]
  }

  /** The text of a sequence of lines, each written with `WriteLine`. */
  function Unlines(lines: seq<string>): string
  {
    if lines == [] then "" else Line(lines[0]) + Unlines(lines[1..])
  }

  /** `items` separated by `sep`, with no separator before the first or after
      the last item. */
  function Join(items: seq<string>, sep: char): string
  {
    if |items| == 0 then ""
    else if |items| == 1 then items[0]
    else items[0] + [sep] + Join(items[1..], sep)
  }

  /** The pieces of `s` between occurrences of `sep`; the inverse of `Join`. */
  function Split(s: string, sep: char): (parts: seq<string>)
    ensures |parts| >= 1
    ensures |parts| == Occurrences(s, sep) + 1
  {
    if s == [] then [""]
    else if s[0] == sep then [""] + Split(s[1..], sep)
    else
      var rest := Split(s[1..], sep);
      [[s[0]] + rest[0]] + rest[1..]
  }

  /** The number of times `c` occurs in `s`. */
  function Occurrences(s: string, c: char): nat
  {
    if s == [] then 0 else (if s[0] == c then 1 else 0) + Occurrences(s[1..], c)
  }

  /** No string of `items` contains `c`. */
  predicate Free(items: seq<string>, c: char)
  {
    forall i :: 0 <= i < |items| ==> c !in items[i]
  }

  /** The text that lines with no line terminator produce splits back into
      exactly those lines (and the empty remainder after the last one). */
  lemma {:induction false} LinesOfUnlines(lines: seq<string>)
    requires Free(lines, EOL)
    ensures Split(Unlines(lines), EOL) == lines + [""]
  {
    UnlinesIsJoin(lines);
    SplitJoin(lines + [""], EOL);
  }

  /** Splitting a joined list gives the list back, provided no item holds the
      separator. */
  lemma {:induction false} SplitJoin(items: seq<string>, sep: char)
    requires |items| > 0
    requires Free(items, sep)
    ensures Split(Join(items, sep), sep) == items
  {
    if |items| == 1 {
      SplitFree(items[0], sep);
    } else {
      SplitAt(items[0], sep, Join(items[1..], sep));
      SplitJoin(items[1..], sep);
    }
  }

  /** A list of n items joined with a separator none of them holds contains
      exactly n - 1 separators. */
  lemma SeparatorCount(items: seq<string>, sep: char)
    requires |items| > 0
    requires Free(items, sep)
    ensures Occurrences(Join(items, sep), sep) == |items| - 1
  {
    SplitJoin(items, sep);
  }

  lemma {:induction false} SplitFree(x: string, sep: char)
    requires sep !in x
    ensures Split(x, sep) == [x]
  {
    if x != [] {
      SplitFree(x[1..], sep);
      assert [x[0]] + x[1..] == x;
    }
  }

  lemma {:induction false} SplitAt(x: string, sep: char, y: string)
    requires sep !in x
    ensures Split(x + [sep] + y, sep) == [x] + Split(y, sep)
  {
    var s := x + [sep] + y;
    if x == [] {
      assert s[1..] == y;
    } else {
      assert s[0] == x[0] && s[1..] == x[1..] + [sep] + y;
      SplitAt(x[1..], sep, y);
      assert [x[0]] + x[1..] == x;
    }
  }

  lemma {:induction false} UnlinesIsJoin(lines: seq<string>)
    ensures Unlines(lines) == Join(lines + [""], EOL)
  {
    if lines != [] {
      assert (lines + [""])[1..] == lines[1..] + [""];
      UnlinesIsJoin(lines[1..]);
    }
  }

  /** Writing two batches of lines one after the other writes their
      concatenation. */
  lemma {:induction false} UnlinesAppend(a: seq<string>, b: seq<string>)
    ensures Unlines(a + b) == Unlines(a) + Unlines(b)
  {
    if a == [] {
      assert a + b == b;
    } else {
      assert (a + b)[1..] == a[1..] + b;
      UnlinesAppend(a[1..], b);
    }
  }

  /** One more `WriteLine` adds one more line. */
  lemma UnlinesSnoc(a: seq<string>, x: string)
    ensures Unlines(a + [x]) == Unlines(a) + Line(x)
  {
    UnlinesAppend(a, [x]);
    assert Unlines([x]) == Line(x) + Unlines([]);
  }

  /** Appending one item to a non-empty joined list adds one separator and the
      item. */
  lemma {:induction false} JoinSnoc(items: seq<string>, x: string, sep: char)
    requires |items| > 0
    ensures Join(items + [x], sep) == Join(items, sep) + [sep] + x
  {
    if |items| > 1 {
      assert (items + [x])[1..] == items[1..] + [x];
      JoinSnoc(items[1..], x, sep);
    }
  }

  /** What writing one line per item, each after `prefix`, writes: the
      shape of every list the backends render (commands, paths, stages). */
  function Listing(prefix: string, items: seq<string>): string
  {
    if items == [] then ""
    else Listing(prefix, items[..|items| - 1]) + Line(prefix + items[|items| - 1])
  }

  /** The lines of `Listing(prefix, items)`. */
  function Prefixed(prefix: string, items: seq<string>): seq<string>
  {
    seq(|items|, i requires 0 <= i < |items| => prefix + items[i])
  }

  /** A listing holds exactly one line per item, in order, repeated items
      included. */
  lemma {:induction false} ListingLines(prefix: string, items: seq<string>)
    ensures Listing(prefix, items) == Unlines(Prefixed(prefix, items))
  {
    if items != [] {
      var n := |items| - 1;
      ListingLines(prefix, items[..n]);
      assert Prefixed(prefix, items) == Prefixed(prefix, items[..n]) + [prefix + items[n]];
      UnlinesSnoc(Prefixed(prefix, items[..n]), prefix + items[n]);
    }
  }

  /** Listing one item writes one line. */
  lemma ListingOne(prefix: string, x: string)
    ensures Listing(prefix, [x]) == Line(prefix + x)
  {
    assert [x][..0] == [];
    assert Listing(prefix, [x]) == "" + Line(prefix + x);
  }

  /** Listing two batches of items one after the other lists their
      concatenation. */
  lemma {:induction false} ListingAppend(prefix: string, a: seq<string>, b: seq<string>)
    ensures Listing(prefix, a + b) == Listing(prefix, a) + Listing(prefix, b)
  {
    if b == [] {
      assert a + b == a;
    } else {
      var n := |b| - 1;
      assert (a + b)[..|a + b| - 1] == a + b[..n];
      ListingAppend(prefix, a, b[..n]);
      AppendAssoc(Listing(prefix, a), Listing(prefix, b[..n]), Line(prefix + b[n]));
    }
  }

  /** Appending in two steps appends the concatenation. The solver knows
      this, but finds it slowly among many concatenations, so the proofs
      below call this lemma at each such step. */
  lemma AppendAssoc<T>(a: seq<T>, b: seq<T>, c: seq<T>)
    ensures a + b + c == a + (b + c)
  {
  }

  /** A `StringWriter`: its content only grows, by `Write` or `WriteLine`. */
  class Writer {
    var text: string

    constructor ()
      ensures text == ""
    {
      text := "";
    }

    method Write(s: string)
      modifies this
      ensures text == old(text) + s
    {
      text := text + s;
    }

    method WriteLine(s: string)
      modifies this
      ensures text == old(text) + Line(s)
    {
      text := text + Line(s);
    }
  }
}
