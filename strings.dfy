/** Splitting a string on the single space character, as Go's
    `strings.Split(s, " ")` does, and the inverse join. */
module Strings {

  const Space: char := ' '

  /** Number of space characters in `s`. */
  function SpaceCount(s: string): nat
  {
    if s == [] then 0 else (if s[0] == Space then 1 else 0) + SpaceCount(s[1..])
  }

  /** The text of `s` up to, not including, its first space (all of `s` if it has none). */
  function FirstField(s: string): (f: string)
    ensures f <= s
    ensures Space !in f
    ensures |f| < |s| ==> s[|f|] == Space
  {
    if s == [] || s[0] == Space then "" else [s[0]] + FirstField(s[1..])
  }

  /** The fields of `s` between single spaces. Runs of spaces give empty
      fields and the empty string gives one empty field; no trimming. There
      is always at least one field. */
  function Split(s: string): (fields: seq<string>)
    ensures |fields| >= 1
  {
    if s == [] then [""]
    else
      var rest := Split(s[1..]);
      if s[0] == Space then [""] + rest
      else [[s[0]] + rest[0]] + rest[1..]
  }

  /** Fields glued back together with one space between neighbours. */
  function Join(fields: seq<string>): string
    requires |fields| >= 1
  {
    if |fields| == 1 then fields[0] else fields[0] + [Space] + Join(fields[1..])
  }

  /** A split has one field more than `s` has spaces, and no field holds a space. */
  lemma {:induction false} SplitFields(s: string)
    ensures |Split(s)| == SpaceCount(s) + 1
    ensures forall i :: 0 <= i < |Split(s)| ==> Space !in Split(s)[i]
  {
    if s != [] {
      SplitFields(s[1..]);
      var rest := Split(s[1..]);
      if s[0] != Space {
        assert Split(s)[0] == [s[0]] + rest[0];
        assert forall i :: 1 <= i < |Split(s)| ==> Split(s)[i] == rest[i];
      } else {
        assert forall i :: 1 <= i < |Split(s)| ==> Split(s)[i] == rest[i - 1];
      }
    }
  }

  /** Text put in front of the first field ends up in front of the join. */
  lemma {:induction false} JoinPrepend(a: string, fields: seq<string>)
    requires |fields| >= 1
    ensures Join([a + fields[0]] + fields[1..]) == a + Join(fields)
  {
    var glued := [a + fields[0]] + fields[1..];
    if |fields| == 1 {
      assert glued == [a + fields[0]];
    } else {
      var t := Join(fields[1..]);
      assert Join(glued) == (a + fields[0]) + [Space] + t by {
        assert |glued| == |fields| && glued[0] == a + fields[0] && glued[1..] == fields[1..];
      }
      assert (a + fields[0]) + [Space] + t == a + Join(fields) by {
        assert Join(fields) == fields[0] + [Space] + t;
      }
    }
  }

  /** Joining the fields of a split gives back the original string. */
  lemma {:induction false} JoinSplit(s: string)
    ensures Join(Split(s)) == s
  {
    if s != [] {
      var rest := Split(s[1..]);
      JoinSplit(s[1..]);
      if s[0] == Space {
        assert Split(s)[1..] == rest;
      } else {
        JoinPrepend([s[0]], rest);
      }
      assert s == [s[0]] + s[1..];
    }
  }

  /** A space-free prefix glues onto the first field of whatever follows it. */
  lemma {:induction false} SplitPrefix(a: string, b: string)
    requires Space !in a
    ensures Split(a + b) == [a + Split(b)[0]] + Split(b)[1..]
  {
    if a != [] {
      assert (a + b)[1..] == a[1..] + b;
      assert (a + b)[0] == a[0];
      SplitPrefix(a[1..], b);
      assert [a[0]] + (a[1..] + Split(b)[0]) == a + Split(b)[0];
    } else {
      assert a + b == b;
      assert a + Split(b)[0] == Split(b)[0];
      assert Split(b) == [Split(b)[0]] + Split(b)[1..];
    }
  }

  /** A space-free field followed by a space splits off as its own first field. */
  lemma {:induction false} SplitAtSpace(a: string, b: string)
    requires Space !in a
    ensures Split(a + [Space] + b) == [a] + Split(b)
  {
    assert a + [Space] + b == a + ([Space] + b);
    SplitPrefix(a, [Space] + b);
    var sb := [Space] + b;
    assert sb != [] && sb[0] == Space && sb[1..] == b;
    assert Split(sb) == [""] + Split(b);
    assert a + Split(sb)[0] == a;
  }

  /** Splitting the join of space-free fields gives back the fields. */
  lemma {:induction false} SplitJoin(fields: seq<string>)
    requires |fields| >= 1
    requires forall i :: 0 <= i < |fields| ==> Space !in fields[i]
    ensures Split(Join(fields)) == fields
  {
    if |fields| == 1 {
      SplitPrefix(fields[0], "");
      assert fields[0] + "" == fields[0];
    } else {
      SplitJoin(fields[1..]);
      SplitAtSpace(fields[0], Join(fields[1..]));
      assert [fields[0]] + fields[1..] == fields;
    }
  }

  /** The first field of a split is the text before the first space. */
  lemma {:induction false} SplitHead(s: string)
    ensures Split(s)[0] == FirstField(s)
  {
    if s != [] && s[0] != Space {
      SplitHead(s[1..]);
    }
  }
}
