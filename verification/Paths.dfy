/**
  Path lists: `JoinPaths` glues path strings together with the platform's
  separator character, `GetPaths` splits the `PATH` variable on it.
  `Join` is also the `string.Join` used to chain commands.
 */
module Paths {
  import opened Wrappers
  import opened Host

  /** `string.Join(sep, items)`: the items with `sep` between consecutive ones. */
  function Join(sep: string, items: seq<string>): string
  {
    if |items| == 0 then ""
    else if |items| == 1 then items[0]
    else items[0] + sep + Join(sep, items[1..])
  }

  /** `s.Split(sep)`: the maximal runs between separators, empty runs kept. */
  function Split(s: string, sep: char): (parts: seq<string>)
    ensures |parts| >= 1
  {
    if |s| == 0 then [""]
    else
      var rest := Split(s[1..], sep);
      if s[0] == sep then [""] + rest
      else [[s[0]] + rest[0]] + rest[1..]
  }

  /** How many times `c` occurs in `s`. */
  function Count(s: string, c: char): nat
  {
    if |s| == 0 then 0 else (if s[0] == c then 1 else 0) + Count(s[1..], c)
  }

  /** The sum of the lengths of the items. */
  function TotalLength(items: seq<string>): nat
  {
    if |items| == 0 then 0 else |items[0]| + TotalLength(items[1..])
  }

  /** No item contains the separator character. */
  predicate FreeOf(items: seq<string>, sep: char)
  {
    forall i :: 0 <= i < |items| ==> sep !in items[i]
  }

  /** Appending an item appends one separator and the item. */
  lemma {:induction false} JoinSnoc(sep: string, items: seq<string>, x: string)
    requires |items| >= 1
    ensures Join(sep, items + [x]) == Join(sep, items) + sep + x
  {
    if |items| > 1 {
      assert (items + [x])[1..] == items[1..] + [x];
      JoinSnoc(sep, items[1..], x);
    } else {
      assert (items + [x])[1..] == [x];
    }
  }

  /**
    `JoinPaths`: the StringBuilder loop appends each path and, after every
    path but the last, the separator character.
   */
  method JoinPaths(platform: Platform, paths: seq<string>) returns (r: string)
    ensures r == Join([PathSplitChar(platform)], paths)
  {
    var sep := PathSplitChar(platform);
    r := "";
    var i := 0;
    while i < |paths|
      invariant 0 <= i <= |paths|
      invariant r == Join([sep], paths[..i]) + (if 0 < i < |paths| then [sep] else [])
    {
      assert paths[..i + 1] == paths[..i] + [paths[i]];
      if i > 0 {
        JoinSnoc([sep], paths[..i], paths[i]);
      }
      r := r + paths[i];
      if i < |paths| - 1 {
        r := r + [sep];
      }
      i := i + 1;
    }
    assert paths[..i] == paths;
  }

  /**
    `GetPaths`: the value of `PATH` split on the separator. A missing
    variable makes `path.Split` dereference null, which throws: `None`.
    Otherwise the entries, none of which holds the separator, are one more
    than the separators, and joining them back gives the variable's value.
   */
  function GetPaths(platform: Platform, path: Option<string>): (r: Option<seq<string>>)
    ensures r.None? <==> path.None?
    ensures r.Some? ==> |r.value| == Count(path.value, PathSplitChar(platform)) + 1
    ensures r.Some? ==> FreeOf(r.value, PathSplitChar(platform))
    ensures r.Some? ==> Join([PathSplitChar(platform)], r.value) == path.value
  {
    match path
    case None => None
    case Some(p) =>
      var sep := PathSplitChar(platform);
      SplitCount(p, sep);
      SplitParts(p, sep);
      JoinSplit(p, sep);
      Some(Split(p, sep))
  }

  /** No part of a split holds the separator. */
  lemma {:induction false} SplitParts(s: string, sep: char)
    ensures FreeOf(Split(s, sep), sep)
  {
    if |s| > 0 {
      SplitParts(s[1..], sep);
      var rest := Split(s[1..], sep);
      if s[0] != sep {
        var parts := Split(s, sep);
        assert parts[0] == [s[0]] + rest[0];
        forall i | 0 <= i < |parts| ensures sep !in parts[i] {
          if i > 0 {
            assert parts[i] == rest[i];
          }
        }
      }
    }
  }

  /** Putting a character in front of the first item puts it in front of the join. */
  lemma JoinConsHead(sep: string, c: char, items: seq<string>)
    requires |items| >= 1
    ensures Join(sep, [[c] + items[0]] + items[1..]) == [c] + Join(sep, items)
  {
    var xs := [[c] + items[0]] + items[1..];
    assert xs[1..] == items[1..];
  }

  /** Round trip the other way: joining the parts of a split gives the string back. */
  lemma {:induction false} JoinSplit(s: string, sep: char)
    ensures Join([sep], Split(s, sep)) == s
  {
    if |s| > 0 {
      JoinSplit(s[1..], sep);
      var rest := Split(s[1..], sep);
      if s[0] == sep {
        assert ([""] + rest)[1..] == rest;
        assert [s[0]] + s[1..] == s;
      } else {
        JoinConsHead([sep], s[0], rest);
        assert [s[0]] + s[1..] == s;
      }
    }
  }

  /** Splitting yields one more part than there are separators. */
  lemma {:induction false} SplitCount(s: string, sep: char)
    ensures |Split(s, sep)| == Count(s, sep) + 1
  {
    if |s| > 0 {
      SplitCount(s[1..], sep);
    }
  }

  /** A string without the separator splits into itself. */
  lemma {:induction false} SplitFree(s: string, sep: char)
    requires sep !in s
    ensures Split(s, sep) == [s]
  {
    if |s| > 0 {
      assert s[0] != sep;
      SplitFree(s[1..], sep);
      assert [s[0]] + s[1..] == s;
    }
  }

  /** Splitting distributes over one separator occurrence. */
  lemma {:induction false} SplitAppend(a: string, b: string, sep: char)
    ensures Split(a + [sep] + b, sep) == Split(a, sep) + Split(b, sep)
  {
    if |a| == 0 {
      assert a + [sep] + b == [sep] + b;
      assert ([sep] + b)[1..] == b;
    } else {
      assert (a + [sep] + b)[1..] == a[1..] + [sep] + b;
      SplitAppend(a[1..], b, sep);
    }
  }

  /**
    Round trip: joining a non-empty list of separator-free paths and splitting
    the result gives the list back.
   */
  lemma {:induction false} SplitJoin(paths: seq<string>, sep: char)
    requires |paths| >= 1 && FreeOf(paths, sep)
    ensures Split(Join([sep], paths), sep) == paths
  {
    if |paths| == 1 {
      SplitFree(paths[0], sep);
    } else {
      SplitFree(paths[0], sep);
      SplitJoin(paths[1..], sep);
      SplitAppend(paths[0], Join([sep], paths[1..]), sep);
      assert [paths[0]] + paths[1..] == paths;
    }
  }

  /**
    `JoinPaths` puts exactly one separator between consecutive paths: the
    result holds |paths| - 1 separators (none for an empty array, whose join
    is ""), and splitting recovers the boundaries.
   */
  lemma JoinPathsSeparators(paths: seq<string>, sep: char)
    requires FreeOf(paths, sep)
    ensures |paths| == 0 ==> Join([sep], paths) == ""
    ensures |paths| >= 1 ==> Count(Join([sep], paths), sep) == |paths| - 1
  {
    if |paths| >= 1 {
      SplitJoin(paths, sep);
      SplitCount(Join([sep], paths), sep);
    }
  }

  /** The joined string has every item's characters plus N-1 copies of `sep`. */
  lemma {:induction false} JoinLength(sep: string, items: seq<string>)
    requires |items| >= 1
    ensures |Join(sep, items)| == TotalLength(items) + (|items| - 1) * |sep|
  {
    if |items| > 1 {
      JoinLength(sep, items[1..]);
      assert (|items| - 1) * |sep| == (|items| - 2) * |sep| + |sep|;
    }
  }

  /** The first item starts the join and the last item ends it. */
  lemma {:induction false} JoinEnds(sep: string, items: seq<string>)
    requires |items| >= 1
    ensures Join(sep, items)[..|items[0]|] == items[0]
    ensures |items[|items| - 1]| <= |Join(sep, items)|
    ensures Join(sep, items)[|Join(sep, items)| - |items[|items| - 1]|..] == items[|items| - 1]
  {
    if |items| > 1 {
      JoinEnds(sep, items[1..]);
    }
  }
}
