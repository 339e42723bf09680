// The StringSlice flag value: a list of strings that the --users option
// fills from comma-separated text, and prints back joined by commas.

module StringSlice {
  import opened Wrappers
  import opened Strings

  /** What one Set call appends: every comma-separated part, trimmed. */
  function Parts(s: string): (parts: seq<string>)
    ensures |parts| == |Split(s, ',')|
  {
    TrimEach(Split(s, ','))
  }

  function TrimEach(xs: seq<string>): (r: seq<string>)
    ensures |r| == |xs|
    ensures forall i :: 0 <= i < |xs| ==> r[i] == TrimSpace(xs[i])
  {
    if xs == [] then [] else [TrimSpace(xs[0])] + TrimEach(xs[1..])
  }

  /** Trimming a list extended by one element extends the trimmed list by that element, trimmed. */
  lemma TrimEachSnoc(xs: seq<string>, x: string)
    ensures TrimEach(xs + [x]) == TrimEach(xs) + [TrimSpace(x)]
  {
    var l, r := TrimEach(xs + [x]), TrimEach(xs) + [TrimSpace(x)];
    forall i | 0 <= i < |l|
      ensures l[i] == r[i]
    {
      assert (xs + [x])[i] == if i < |xs| then xs[i] else x;
    }
  }

  /** The number of occurrences of c in s. */
  function Count(s: string, c: char): nat
  {
    if s == [] then 0 else (if s[0] == c then 1 else 0) + Count(s[1..], c)
  }

  /** The list value behind a StringSlice flag. */
  class StringSlice {
    var items: seq<string>

    constructor (items: seq<string>)
      ensures this.items == items
    {
      this.items := items;
    }

    /** String: the elements separated by single commas. */
    method String() returns (s: string)
      ensures s == Join(items, ",")
    {
      s := "";
      var i := 0;
      while i < |items|
        invariant 0 <= i <= |items|
        invariant s == Join(items[..i], ",")
      {
        if i > 0 {
          s := s + ",";
        }
        s := s + items[i];
        JoinSnoc(items[..i], items[i], ",");
        assert items[..i + 1] == items[..i] + [items[i]];
        i := i + 1;
      }
      assert items[..i] == items;
    }

    /** Set: appends one trimmed element per comma-separated part; never fails. */
    method Set(s: string) returns (err: Option<string>)
      modifies this
      ensures items == old(items) + Parts(s)
      ensures err == None
    {
      var parts := Split(s, ',');
      ghost var start := items;
      var i := 0;
      while i < |parts|
        invariant 0 <= i <= |parts|
        invariant items == start + TrimEach(parts[..i])
      {
        items := items + [TrimSpace(parts[i])];
        assert parts[..i + 1] == parts[..i] + [parts[i]];
        TrimEachSnoc(parts[..i], parts[i]);
        i := i + 1;
      }
      assert parts[..i] == parts;
      err := None;
    }
  }

  /** Splitting on a separator yields one more part than there are separators. */
  lemma {:induction false} SplitCount(s: string, sep: char)
    ensures |Split(s, sep)| == Count(s, sep) + 1
  {
    if s != [] {
      SplitCount(s[1..], sep);
    }
  }

  /** Each Set call appends exactly (number of commas + 1) elements. */
  lemma PartsCount(s: string)
    ensures |Parts(s)| == Count(s, ',') + 1
  {
    SplitCount(s, ',');
  }

  /** Text with no separator splits into itself alone. */
  lemma {:induction false} SplitNoSeparator(a: string, sep: char)
    requires sep !in a
    ensures Split(a, sep) == [a]
  {
    if a != [] {
      SplitNoSeparator(a[1..], sep);
      assert a == [a[0]] + a[1..];
    }
  }

  /** A separator-free prefix followed by the separator becomes the first part. */
  lemma {:induction false} SplitAfter(a: string, sep: char, b: string)
    requires sep !in a
    ensures Split(a + [sep] + b, sep) == [a] + Split(b, sep)
  {
    if a == [] {
      assert a + [sep] + b == [sep] + b;
      assert ([sep] + b)[1..] == b;
    } else {
      assert (a + [sep] + b)[1..] == a[1..] + [sep] + b;
      SplitAfter(a[1..], sep, b);
      assert a == [a[0]] + a[1..];
    }
  }

  /** Joining comma-free strings by commas and splitting again gives them back. */
  lemma {:induction false} SplitJoin(xs: seq<string>)
    requires xs != []
    requires forall i :: 0 <= i < |xs| ==> ',' !in xs[i]
    ensures Split(Join(xs, ","), ',') == xs
  {
    if |xs| == 1 {
      SplitNoSeparator(xs[0], ',');
    } else {
      SplitJoin(xs[1..]);
      SplitAfter(xs[0], ',', Join(xs[1..], ","));
      assert xs[0] + "," + Join(xs[1..], ",") == xs[0] + [','] + Join(xs[1..], ",");
      assert xs == [xs[0]] + xs[1..];
    }
  }

  /**
   * Round trip: Set(String(xs)) on an empty slice gives xs back, when xs is
   * non-empty and no element holds a comma or surrounding white space.
   */
  lemma SetOfStringRoundTrip(xs: seq<string>)
    requires xs != []
    requires forall i :: 0 <= i < |xs| ==> ',' !in xs[i] && TrimSpace(xs[i]) == xs[i]
    ensures [] + Parts(Join(xs, ",")) == xs
  {
    SplitJoin(xs);
  }

  /** String writes no separator before the first or after the last element. */
  lemma JoinEnds(xs: seq<string>)
    requires xs != [] && xs[0] != [] && xs[|xs| - 1] != []
    ensures Join(xs, ",") != [] && Join(xs, ",")[0] == xs[0][0]
    ensures Join(xs, ",")[|Join(xs, ",")| - 1] == xs[|xs| - 1][|xs[|xs| - 1]| - 1]
  {
    JoinLast(xs);
  }

  lemma {:induction false} JoinLast(xs: seq<string>)
    requires xs != [] && xs[|xs| - 1] != []
    ensures Join(xs, ",") != []
    ensures Join(xs, ",")[|Join(xs, ",")| - 1] == xs[|xs| - 1][|xs[|xs| - 1]| - 1]
  {
    if |xs| > 1 {
      JoinLast(xs[1..]);
    }
  }
}
