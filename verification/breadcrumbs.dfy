/** The breadcrumb trail (src/components/Breadcrumbs.tsx): the location's path
    split into segments, one crumb per segment, each linking to the path up to
    it, except the last which is plain text. */
module Breadcrumbs {
  import opened Domain

  // ---------------------------------------------------------------------------
  // Splitting and joining on '/'
  // ---------------------------------------------------------------------------

  /** `s.split('/')`: one piece more than there are slashes, none containing a
      slash; the empty string gives one empty piece. */
  function Split(s: string): (r: seq<string>)
    ensures |r| >= 1
    ensures forall i :: 0 <= i < |r| ==> '/' !in r[i]
    decreases |s|
  {
    if |s| == 0 then [""]
    else if s[0] == '/' then [""] + Split(s[1..])
    else
      var rest := Split(s[1..]);
      [[s[0]] + rest[0]] + rest[1..]
  }

  /** `pieces.join('/')`. */
  function Join(pieces: seq<string>): string
    decreases |pieces|
  {
    if |pieces| == 0 then ""
    else if |pieces| == 1 then pieces[0]
    else pieces[0] + "/" + Join(pieces[1..])
  }

  /** Joining the pieces back gives the string split. */
  lemma {:induction false} JoinSplit(s: string)
    ensures Join(Split(s)) == s
    decreases |s|
  {
    if |s| > 0 {
      JoinSplit(s[1..]);
      var rest := Split(s[1..]);
      if s[0] == '/' {
        assert Split(s) == [""] + rest;
        assert ([""] + rest)[1..] == rest;
        assert s == [s[0]] + s[1..];
      } else {
        assert s == [s[0]] + s[1..];
        if |rest| > 1 {
          assert ([[s[0]] + rest[0]] + rest[1..])[1..] == rest[1..];
          assert Join(rest) == rest[0] + "/" + Join(rest[1..]);
        }
      }
    }
  }

  /** A string without slashes is a single piece. */
  lemma {:induction false} SplitNoSlash(s: string)
    requires '/' !in s
    ensures Split(s) == [s]
    decreases |s|
  {
    if |s| > 0 {
      assert s[0] != '/';
      assert forall c :: c in s[1..] ==> c in s;
      SplitNoSlash(s[1..]);
      assert s == [s[0]] + s[1..];
    }
  }

  /** A slash splits its two sides independently. */
  lemma {:induction false} SplitAtSlash(a: string, b: string)
    ensures Split(a + "/" + b) == Split(a) + Split(b)
    decreases |a|
  {
    if |a| == 0 {
      assert a + "/" + b == "/" + b;
      assert ("/" + b)[1..] == b;
    } else {
      assert (a + "/" + b)[0] == a[0];
      assert (a + "/" + b)[1..] == a[1..] + "/" + b;
      SplitAtSlash(a[1..], b);
    }
  }

  /** Splitting the join of slash-free pieces gives the pieces back. */
  lemma {:induction false} SplitJoin(pieces: seq<string>)
    requires |pieces| >= 1
    requires forall i :: 0 <= i < |pieces| ==> '/' !in pieces[i]
    ensures Split(Join(pieces)) == pieces
    decreases |pieces|
  {
    SplitNoSlash(pieces[0]);
    if |pieces| > 1 {
      SplitJoin(pieces[1..]);
      SplitAtSlash(pieces[0], Join(pieces[1..]));
      assert pieces == [pieces[0]] + pieces[1..];
    }
  }

  // ---------------------------------------------------------------------------
  // Segments
  // ---------------------------------------------------------------------------

  predicate NonEmpty(s: string)
  {
    s != ""
  }

  /** `pathname.split('/').filter((x) => x)`. */
  function Segments(path: string): (r: seq<string>)
    ensures forall i :: 0 <= i < |r| ==> r[i] != "" && '/' !in r[i]
  {
    Filter(Split(path), NonEmpty)
  }

  /** Leading, trailing and repeated slashes add no segments: a slash between
      two parts of a path only separates their segments. */
  lemma SegmentsAtSlash(a: string, b: string)
    ensures Segments(a + "/" + b) == Segments(a) + Segments(b)
  {
    SplitAtSlash(a, b);
    FilterAppend(Split(a), Split(b), NonEmpty);
  }

  lemma SlashesAddNothing(path: string)
    ensures Segments("/" + path) == Segments(path)
    ensures Segments(path + "/") == Segments(path)
  {
    assert Segments("") == [];
    SegmentsAtSlash("", path);
    assert "" + "/" + path == "/" + path;
    SegmentsAtSlash(path, "");
    assert path + "/" + "" == path + "/";
  }

  /** `/` + the joined segments: the path with its empty segments dropped. */
  function Normalized(segments: seq<string>): string
  {
    "/" + Join(segments)
  }

  /** A normalized path has exactly the segments it was built from. */
  lemma SegmentsOfNormalized(segments: seq<string>)
    requires forall i :: 0 <= i < |segments| ==> segments[i] != "" && '/' !in segments[i]
    ensures Segments(Normalized(segments)) == segments
  {
    if |segments| == 0 {
      assert Normalized(segments) == "/" + "";
      SegmentsAtSlash("", "");
      assert "" + "/" + "" == "/" + "";
      assert Split("") == [""];
      assert Filter([""], NonEmpty) == [];
    } else {
      SplitJoin(segments);
      SegmentsAtSlash("", Join(segments));
      assert "" + "/" + Join(segments) == Normalized(segments);
      assert Segments("") == [];
      FilterAll(segments, NonEmpty);
    }
  }

  // ---------------------------------------------------------------------------
  // Labels
  // ---------------------------------------------------------------------------

  /** `toUpperCase` on one character, for ASCII letters. */
  function UpperCase(c: char): (r: char)
    ensures 'a' <= c <= 'z' ==> 'A' <= r <= 'Z'
    ensures !('a' <= c <= 'z') ==> r == c
  {
    if 'a' <= c <= 'z' then (c as int - 32) as char else c
  }

  /** `value.charAt(0).toUpperCase() + value.slice(1).replace(/-/g, ' ')`. */
  function Label(value: string): (r: string)
    ensures |r| == |value|
    ensures |value| > 0 ==> r[0] == UpperCase(value[0])
    ensures forall i :: 1 <= i < |r| ==> r[i] != '-'
    ensures forall i :: 1 <= i < |r| && value[i] != '-' ==> r[i] == value[i]
  {
    if |value| == 0 then ""
    else [UpperCase(value[0])] + seq(|value| - 1, i requires 0 <= i < |value| - 1 =>
                                        if value[i + 1] == '-' then ' ' else value[i + 1])
  }

  /** Formatting a label again changes nothing. */
  lemma LabelIdempotent(value: string)
    ensures Label(Label(value)) == Label(value)
  {
    var l := Label(value);
    if |value| > 0 {
      assert UpperCase(UpperCase(value[0])) == UpperCase(value[0]);
      assert Label(l)[0] == l[0];
      assert forall i :: 1 <= i < |l| ==> Label(l)[i] == l[i];
    }
  }

  /** Only the first character is uppercased, so a leading '-' stays. */
  lemma LeadingDashKept(rest: string)
    ensures Label("-" + rest)[0] == '-'
  {
  }

  // ---------------------------------------------------------------------------
  // The trail
  // ---------------------------------------------------------------------------

  datatype Crumb = Crumb(text: string, target: string, isLink: bool)

  /** The link target of crumb `i`: `/` + the first i+1 segments. */
  function Target(segments: seq<string>, i: nat): string
    requires i < |segments|
  {
    Normalized(segments[..i + 1])
  }

  /** The crumbs after the Home link; empty when the component renders
      nothing. */
  function Trail(path: string): (r: seq<Crumb>)
    ensures |r| == |Segments(path)|
    ensures forall i :: 0 <= i < |r| ==> (r[i].isLink <==> i < |r| - 1)
    ensures forall i :: 0 <= i < |r| ==> r[i].text == Label(Segments(path)[i])
    ensures forall i :: 0 <= i < |r| ==> r[i].target == Target(Segments(path), i)
  {
    var segments := Segments(path);
    seq(|segments|, i requires 0 <= i < |segments| =>
          Crumb(Label(segments[i]), Target(segments, i), i != |segments| - 1))
  }

  /** A path of slashes only renders no trail. */
  lemma NoSegmentsNoTrail(path: string)
    requires forall i :: 0 <= i < |path| ==> path[i] == '/'
    ensures Trail(path) == []
    decreases |path|
  {
    if |path| > 0 {
      assert path == "/" + path[1..];
      NoSegmentsNoTrail(path[1..]);
      SlashesAddNothing(path[1..]);
    } else {
      assert Split(path) == [""];
      assert Filter([""], NonEmpty) == [];
    }
  }

  /** Following crumb `i` leads to a page whose own trail is the first i+1
      crumbs' segments; the last crumb's target is the normalized path. */
  lemma TargetsArePrefixes(path: string, i: nat)
    requires i < |Segments(path)|
    ensures Segments(Trail(path)[i].target) == Segments(path)[..i + 1]
    ensures i == |Segments(path)| - 1 ==> Trail(path)[i].target == Normalized(Segments(path))
  {
    var segments := Segments(path);
    var prefix := segments[..i + 1];
    assert Trail(path)[i].target == Normalized(prefix);
    assert forall j :: 0 <= j < |prefix| ==> prefix[j] == segments[j];
    SegmentsOfNormalized(prefix);
    if i == |segments| - 1 {
      assert prefix == segments;
    }
  }
}
