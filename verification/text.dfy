/** `String.prototype.split` with a one-character separator, as used to cut
    the payload out of a data URL (components/AdForm.tsx:37). */
module Text {

  /** The segments of `s` between occurrences of `sep`. Like JavaScript's
      `split`, there is always at least one segment: "" splits to [""] and
      "a,,b" to ["a", "", "b"]. */
  function Split(s: string, sep: char): (segs: seq<string>)
    ensures |segs| >= 1
    decreases |s|
  {
    if |s| == 0 then [""]
    else
      var rest := Split(s[1..], sep);
      if s[0] == sep then [""] + rest
      else [[s[0]] + rest[0]] + rest[1..]
  }

  /** The inverse of `Split`: the segments glued back with `sep`. */
  function Join(segs: seq<string>, sep: char): string
    requires |segs| >= 1
    decreases |segs|
  {
    if |segs| == 1 then segs[0] else segs[0] + [sep] + Join(segs[1..], sep)
  }

  /** No segment of a split contains the separator. */
  lemma {:induction false} SplitSegmentsFree(s: string, sep: char)
    ensures forall k :: 0 <= k < |Split(s, sep)| ==> sep !in Split(s, sep)[k]
    decreases |s|
  {
    if |s| > 0 {
      SplitSegmentsFree(s[1..], sep);
    }
  }

  /** Splitting then joining gives back the original string. */
  lemma {:induction false} JoinSplit(s: string, sep: char)
    ensures Join(Split(s, sep), sep) == s
    decreases |s|
  {
    if |s| > 0 {
      var rest := Split(s[1..], sep);
      JoinSplit(s[1..], sep);
      if s[0] == sep {
        assert Split(s, sep)[1..] == rest;
      } else {
        var segs := Split(s, sep);
        if |rest| == 1 {
          assert segs == [[s[0]] + rest[0]];
        } else {
          assert segs[1..] == rest[1..];
          assert Join(rest, sep) == rest[0] + [sep] + Join(rest[1..], sep);
        }
      }
    }
  }

  /** Joining separator-free segments then splitting gives back the segments. */
  lemma {:induction false} SplitJoin(segs: seq<string>, sep: char)
    requires |segs| >= 1
    requires forall k :: 0 <= k < |segs| ==> sep !in segs[k]
    ensures Split(Join(segs, sep), sep) == segs
    decreases |segs|
  {
    if |segs| == 1 {
      SplitNoSep(segs[0], sep);
    } else {
      SplitJoin(segs[1..], sep);
      SplitAt(Join(segs, sep), sep, |segs[0]|);
      assert Join(segs, sep)[..|segs[0]|] == segs[0];
      assert Join(segs, sep)[|segs[0]| + 1..] == Join(segs[1..], sep);
    }
  }

  /** Joining with one more segment at the end appends the separator and
      that segment. */
  lemma {:induction false} JoinSnoc(segs: seq<string>, x: string, sep: char)
    requires |segs| >= 1
    ensures Join(segs + [x], sep) == Join(segs, sep) + [sep] + x
    decreases |segs|
  {
    if |segs| == 1 {
      assert (segs + [x])[1..] == [x];
    } else {
      assert (segs + [x])[1..] == segs[1..] + [x];
      JoinSnoc(segs[1..], x, sep);
    }
  }

  /** A separator-free string is its own single segment. */
  lemma {:induction false} SplitNoSep(s: string, sep: char)
    requires sep !in s
    ensures Split(s, sep) == [s]
    decreases |s|
  {
    if |s| > 0 {
      assert sep !in s[1..] by {
        forall k | 0 <= k < |s[1..]| ensures s[1..][k] != sep {
          assert s[1..][k] == s[k + 1];
        }
      }
      SplitNoSep(s[1..], sep);
      assert [s[0]] + s[1..] == s;
    }
  }

  /** Splitting at the first separator: the prefix before it is the first
      segment and the rest is the split of what follows it. */
  lemma {:induction false} SplitAt(s: string, sep: char, i: nat)
    requires i < |s| && s[i] == sep
    requires sep !in s[..i]
    ensures Split(s, sep) == [s[..i]] + Split(s[i + 1..], sep)
    decreases i
  {
    if i > 0 {
      assert s[0] != sep by { assert s[..i][0] == s[0]; }
      var u := s[1..][..i - 1];
      assert sep !in u by {
        forall k | 0 <= k < |u| ensures u[k] != sep {
          assert u[k] == s[..i][k + 1];
        }
      }
      SplitAt(s[1..], sep, i - 1);
      assert s[1..][i - 1 + 1..] == s[i + 1..];
      assert [s[0]] + s[1..][..i - 1] == s[..i];
    }
  }

  /** The first segment is the longest separator-free prefix. */
  lemma {:induction false} SplitHead(s: string, sep: char, j: nat)
    requires j <= |s| && sep !in s[..j]
    requires j == |s| || s[j] == sep
    ensures Split(s, sep)[0] == s[..j]
  {
    if j == |s| {
      assert s[..j] == s;
      SplitNoSep(s, sep);
    } else {
      SplitAt(s, sep, j);
    }
  }

  /** `s.split(sep)[1]`: whether a second segment exists and, if so, that
      segment, found by scanning for the first and second separators. */
  method SecondSegment(s: string, sep: char) returns (found: bool, seg: string)
    ensures found <==> |Split(s, sep)| >= 2
    ensures found ==> seg == Split(s, sep)[1]
    ensures found ==> sep !in seg
  {
    var i := 0;
    while i < |s| && s[i] != sep
      invariant 0 <= i <= |s|
      invariant forall k :: 0 <= k < i ==> s[k] != sep
    {
      i := i + 1;
    }
    assert sep !in s[..i] by {
      forall k | 0 <= k < |s[..i]| ensures s[..i][k] != sep { assert s[..i][k] == s[k]; }
    }
    if i == |s| {
      assert s[..i] == s;
      SplitNoSep(s, sep);
      return false, "";
    }
    SplitAt(s, sep, i);
    var j := i + 1;
    while j < |s| && s[j] != sep
      invariant i + 1 <= j <= |s|
      invariant forall k :: i + 1 <= k < j ==> s[k] != sep
    {
      j := j + 1;
    }
    var t := s[i + 1..];
    var u := t[..j - (i + 1)];
    assert sep !in u by {
      forall k | 0 <= k < |u| ensures u[k] != sep {
        assert u[k] == s[i + 1 + k];
      }
    }
    SplitHead(t, sep, j - (i + 1));
    assert t[..j - (i + 1)] == s[i + 1..j];
    found, seg := true, s[i + 1..j];
  }
}
