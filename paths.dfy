/** URL paths as '/'-separated segments, as `str.split("/")` cuts them. */
module Paths {

  /** `s.split("/")`: always at least one segment. */
  function Split(s: string): (r: seq<string>)
    ensures 1 <= |r|
  {
    if s == [] then [""]
    else
      var rest := Split(s[1..]);
      if s[0] == '/' then [""] + rest else [[s[0]] + rest[0]] + rest[1..]
  }

  predicate NoSlash(s: string) {
    forall i :: 0 <= i < |s| ==> s[i] != '/'
  }

  lemma {:induction false} SplitNoSlash(a: string, tail: seq<string>, t: string)
    requires NoSlash(a)
    requires Split(t) == [""] + tail
    ensures Split(a + t) == [a] + tail
  {
    if a != [] {
      SplitNoSlash(a[1..], tail, t);
      assert (a + t)[0] == a[0] && (a + t)[1..] == a[1..] + t;
      assert [a[0]] + a[1..] == a;
    } else {
      assert a + t == t;
    }
  }

  /** A string without a slash is a single segment. */
  lemma SplitWord(a: string)
    requires NoSlash(a)
    ensures Split(a) == [a]
  {
    SplitNoSlash(a, [], "");
    assert a + "" == a;
  }

  /** Two slash-free segments joined by a slash split back into those two. */
  lemma Segments2(a: string, b: string)
    requires NoSlash(a) && NoSlash(b)
    ensures Split(a + "/" + b) == [a, b]
  {
    SplitConcat(a, b);
    SplitWord(a);
    SplitWord(b);
  }

  /** Three slash-free segments joined by slashes split back into those three. */
  lemma Segments3(a: string, b: string, c: string)
    requires NoSlash(a) && NoSlash(b) && NoSlash(c)
    ensures Split(a + "/" + b + "/" + c) == [a, b, c]
  {
    assert a + "/" + b + "/" + c == a + "/" + (b + "/" + c);
    SplitConcat(a, b + "/" + c);
    Segments2(b, c);
    SplitWord(a);
  }

  /** A slash-free segment between a prefix and a suffix stays a segment of its own. */
  lemma Around(x: string, a: string, y: string)
    requires NoSlash(a)
    ensures Split(x + "/" + (a + "/" + y)) == Split(x) + ([a] + Split(y))
  {
    SplitConcat(a, y);
    SplitWord(a);
    SplitConcat(x, a + "/" + y);
  }

  /** Two slash-free segments between a prefix and a suffix stay two segments of their own. */
  lemma Between2(x: string, a: string, b: string, y: string)
    requires NoSlash(a) && NoSlash(b)
    ensures Split(x + "/" + (a + "/" + (b + "/" + y))) == Split(x) + ([a] + ([b] + Split(y)))
  {
    SplitConcat(b, y);
    SplitWord(b);
    Around(x, a, b + "/" + y);
  }

  /** A '/' ends the current segment. */
  lemma SplitSlash(t: string)
    ensures Split(['/'] + t) == [""] + Split(t)
  {
    assert (['/'] + t)[1..] == t;
  }

  /** Any other character joins the first segment. */
  lemma SplitChar(c: char, t: string)
    requires c != '/'
    ensures Split([c] + t) == [[c] + Split(t)[0]] + Split(t)[1..]
  {
    assert ([c] + t)[1..] == t;
  }

  /** The first segment of `P + Q` extended by one character, the rest unchanged. */
  lemma ExtendFirst(c: char, P: seq<string>, Q: seq<string>)
    requires 1 <= |P|
    ensures [[c] + (P + Q)[0]] + (P + Q)[1..] == ([[c] + P[0]] + P[1..]) + Q
  {
    assert (P + Q)[0] == P[0];
    assert (P + Q)[1..] == P[1..] + Q;
  }

  /** One more character in front of two strings whose splits share a prefix. */
  lemma {:induction false} SplitPrepend(c: char, u: string, t: string, P: seq<string>, Q: seq<string>)
    requires 1 <= |P|
    requires Split(u) == P + Q && Split(t) == P
    ensures Split([c] + u) == Split([c] + t) + Q
  {
    if c == '/' {
      SplitSlash(u);
      SplitSlash(t);
    } else {
      SplitChar(c, u);
      SplitChar(c, t);
      ExtendFirst(c, P, Q);
    }
  }

  /** Splitting at an explicit '/' splits the two sides independently. */
  lemma {:induction false} SplitConcat(x: string, y: string)
    ensures Split(x + "/" + y) == Split(x) + Split(y)
  {
    if x == [] {
      assert x + "/" + y == ['/'] + y;
      SplitSlash(y);
    } else {
      SplitConcat(x[1..], y);
      SplitPrepend(x[0], x[1..] + "/" + y, x[1..], Split(x[1..]), Split(y));
      assert [x[0]] + x[1..] == x;
      assert [x[0]] + (x[1..] + "/" + y) == x + "/" + y;
    }
  }
}
