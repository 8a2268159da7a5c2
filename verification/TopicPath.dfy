// Topic names and the path segments they are split into.
module TopicPath {

  // Splitting at every slash; the empty name has one empty part.
  function Split(topic: string): (parts: seq<string>)
    ensures parts != []
  {
    if topic == "" then [""]
    else
      var rest := Split(topic[1..]);
      if topic[0] == '/' then [""] + rest else [[topic[0]] + rest[0]] + rest[1..]
  }

  function NonEmpty(parts: seq<string>): seq<string> {
    if parts == [] then []
    else
      var init := NonEmpty(parts[..|parts| - 1]);
      var last := parts[|parts| - 1];
      if last != "" then init + [last] else init
  }

  function Path(topic: string): seq<string> {
    NonEmpty(Split(topic))
  }

  // The filter reuses the array it reads: the write position never passes the
  // read position, so no part is overwritten before it is read.
  method FilterInPlace(parts: array<string>) returns (n: nat)
    modifies parts
    ensures n <= parts.Length && parts[..n] == NonEmpty(old(parts[..]))
  {
    n := 0;
    var i := 0;
    while i < parts.Length
      invariant n <= i <= parts.Length
      invariant parts[..n] == NonEmpty(old(parts[..i]))
      invariant forall j | i <= j < parts.Length :: parts[j] == old(parts[j])
    {
      var p := parts[i];
      assert old(parts[..i + 1])[..i] == old(parts[..i]);
      if p != "" {
        parts[n] := p;
        n := n + 1;
      }
      i := i + 1;
    }
    assert old(parts[..parts.Length]) == old(parts[..]);
  }

  method Segments(topic: string) returns (out: seq<string>)
    ensures out == Path(topic)
  {
    var s := Split(topic);
    var parts := new string[|s|](i requires 0 <= i < |s| => s[i]);
    assert parts[..] == s;
    var n := FilterInPlace(parts);
    out := parts[..n];
  }

  lemma {:induction false} SplitConcat(a: string, b: string)
    ensures Split(a + "/" + b) == Split(a) + Split(b)
  {
    var t := a + "/" + b;
    if a == "" {
      assert t == "/" + b && t[1..] == b;
    } else {
      assert t[1..] == a[1..] + "/" + b;
      SplitConcat(a[1..], b);
    }
  }

  lemma {:induction false} NonEmptyConcat(xs: seq<string>, ys: seq<string>)
    ensures NonEmpty(xs + ys) == NonEmpty(xs) + NonEmpty(ys)
  {
    if ys == [] {
      assert xs + ys == xs;
    } else {
      var init := ys[..|ys| - 1];
      assert (xs + ys)[..|xs + ys| - 1] == xs + init;
      NonEmptyConcat(xs, init);
    }
  }

  // Joining two topics with a slash appends their paths.
  lemma PathConcat(a: string, b: string)
    ensures Path(a + "/" + b) == Path(a) + Path(b)
  {
    SplitConcat(a, b);
    NonEmptyConcat(Split(a), Split(b));
  }

  predicate Segment(p: string) {
    p != "" && '/' !in p
  }

  lemma {:induction false} PartsHaveNoSlash(topic: string)
    ensures forall p | p in Split(topic) :: '/' !in p
  {
    if topic != "" {
      PartsHaveNoSlash(topic[1..]);
    }
  }

  lemma {:induction false} NonEmptyIsFilter(parts: seq<string>)
    ensures forall p :: p in NonEmpty(parts) <==> p in parts && p != ""
  {
    if parts != [] {
      NonEmptyIsFilter(parts[..|parts| - 1]);
    }
  }

  lemma PathHasSegments(topic: string)
    ensures forall p | p in Path(topic) :: Segment(p)
  {
    PartsHaveNoSlash(topic);
    NonEmptyIsFilter(Split(topic));
  }

  function WithSlashes(parts: seq<string>): string {
    if parts == [] then "" else WithSlashes(parts[..|parts| - 1]) + "/" + parts[|parts| - 1]
  }

  lemma {:induction false} SplitSegment(p: string)
    requires '/' !in p
    ensures Split(p) == [p]
  {
    if p != "" {
      SplitSegment(p[1..]);
      assert [p[0]] + p[1..] == p;
    }
  }

  // Every list of segments is the path of some topic.
  lemma {:induction false} PathOfJoined(parts: seq<string>)
    requires forall p | p in parts :: Segment(p)
    ensures Path(WithSlashes(parts)) == parts
  {
    if parts == [] {
      assert Split("") == [""];
      assert [""][..0] == [];
    } else {
      var init, last := parts[..|parts| - 1], parts[|parts| - 1];
      PathOfJoined(init);
      PathConcat(WithSlashes(init), last);
      assert last in parts;
      SplitSegment(last);
      assert last != "" && NonEmpty([last][..0]) == [];
      assert Path(last) == [last];
    }
  }
}
