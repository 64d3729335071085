/** The package version string, `apparel.get_version()`. */
module Version {
  import opened Decimal

  /** `__version__`, the version tuple of the package. */
  const VERSION: seq<int> := [1, 0, 0]

  /** `sep.join(parts)` for a one-character separator. */
  function Join(sep: char, parts: seq<string>): (r: string)
    ensures |parts| >= 1 ==> parts[0] <= r
    decreases |parts|
  {
    if parts == [] then ""
    else if |parts| == 1 then parts[0]
    else parts[0] + [sep] + Join(sep, parts[1..])
  }

  /** `s.split(sep)` for a one-character separator: the maximal separator-free pieces. */
  function Split(sep: char, s: string): (r: seq<string>)
    ensures |r| >= 1
    decreases |s|
  {
    if s == [] then [""]
    else
      var rest := Split(sep, s[1..]);
      if s[0] == sep then [""] + rest else [[s[0]] + rest[0]] + rest[1..]
  }

  /** The list comprehension `["%i" % i for i in v]`. */
  function Components(v: seq<int>): (r: seq<string>)
    ensures |r| == |v|
  {
    seq(|v|, i requires 0 <= i < |v| => FormatInt(v[i]))
  }

  /** `get_version` applied to an arbitrary version tuple. */
  function VersionString(v: seq<int>): (r: string)
    ensures |v| >= 1 ==> Split('.', r) == Components(v)
  {
    if |v| >= 1 then
      ComponentsSepFree(v);
      SplitJoin('.', Components(v));
      Join('.', Components(v))
    else Join('.', Components(v))
  }

  /** `get_version()`: the dotted rendering of `__version__`. */
  function GetVersion(): (r: string)
    ensures r == "1.0.0"
  {
    assert Components(VERSION) == ["1", "0", "0"];
    VersionString(VERSION)
  }

  /** Number of separator characters in a string. */
  function Count(c: char, s: string): nat {
    multiset(s)[c]
  }

  predicate NoSep(sep: char, parts: seq<string>) {
    forall i :: 0 <= i < |parts| ==> sep !in parts[i]
  }

  lemma {:induction false} SplitSepFreePrefix(sep: char, a: string, t: string)
    requires sep !in a
    ensures Split(sep, a + t) == [a + Split(sep, t)[0]] + Split(sep, t)[1..]
    decreases |a|
  {
    if a != [] {
      assert (a + t)[1..] == a[1..] + t;
      SplitSepFreePrefix(sep, a[1..], t);
      assert [a[0]] + (a[1..] + Split(sep, t)[0]) == a + Split(sep, t)[0];
    } else {
      var r := Split(sep, t);
      assert a + t == t && a + r[0] == r[0];
      assert [r[0]] + r[1..] == r;
    }
  }

  /** Splitting undoes joining when no part contains the separator. */
  lemma {:induction false} SplitJoin(sep: char, parts: seq<string>)
    requires |parts| >= 1 && NoSep(sep, parts)
    ensures Split(sep, Join(sep, parts)) == parts
    decreases |parts|
  {
    if |parts| == 1 {
      SplitSepFreePrefix(sep, parts[0], "");
      assert parts[0] + "" == parts[0];
    } else {
      var rest := Join(sep, parts[1..]);
      SplitJoin(sep, parts[1..]);
      assert Join(sep, parts) == parts[0] + ([sep] + rest);
      SplitSepFreePrefix(sep, parts[0], [sep] + rest);
      assert ([sep] + rest)[1..] == rest;
      assert parts[0] + "" == parts[0];
    }
  }

  lemma {:induction false} JoinCount(sep: char, parts: seq<string>)
    requires |parts| >= 1 && NoSep(sep, parts)
    ensures Count(sep, Join(sep, parts)) == |parts| - 1
    decreases |parts|
  {
    if |parts| > 1 {
      JoinCount(sep, parts[1..]);
      assert multiset(parts[0] + [sep] + Join(sep, parts[1..]))
          == multiset(parts[0]) + multiset{sep} + multiset(Join(sep, parts[1..]));
    }
  }

  lemma {:induction false} JoinEnds(sep: char, parts: seq<string>)
    requires |parts| >= 1
    requires forall i :: 0 <= i < |parts| ==> |parts[i]| >= 1 && parts[i][0] != sep && parts[i][|parts[i]| - 1] != sep
    ensures var r := Join(sep, parts); |r| >= 1 && r[0] != sep && r[|r| - 1] != sep
    decreases |parts|
  {
    if |parts| > 1 {
      JoinEnds(sep, parts[1..]);
    }
  }

  lemma ComponentsSepFree(v: seq<int>)
    ensures NoSep('.', Components(v))
  {
    forall i | 0 <= i < |v| ensures '.' !in Components(v)[i] {
      assert Components(v)[i] == FormatInt(v[i]);
    }
  }

  /**
   * For a non-empty version tuple: the string holds exactly one dot fewer than
   * the tuple has elements, neither starts nor ends with a dot, and its
   * dot-separated pieces are the decimal renderings of the elements, in order.
   */
  lemma VersionShape(v: seq<int>)
    requires |v| >= 1
    ensures var r := VersionString(v);
      && Count('.', r) == |v| - 1
      && |r| >= 1 && r[0] != '.' && r[|r| - 1] != '.'
      && Split('.', r) == Components(v)
      && forall i :: 0 <= i < |v| ==> IsNumeral(Split('.', r)[i]) && ParseInt(Split('.', r)[i]) == v[i]
  {
    ComponentsSepFree(v);
    JoinCount('.', Components(v));
    JoinEnds('.', Components(v));
    SplitJoin('.', Components(v));
    forall i | 0 <= i < |v|
      ensures IsNumeral(Components(v)[i]) && ParseInt(Components(v)[i]) == v[i]
    {
      FormatIntRoundTrip(v[i]);
    }
  }
}
