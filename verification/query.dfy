/**
 * URI query parameters: `key=value` pairs joined with '&', as the formatter
 * builds them with `format!("{}={}", key, value)` and `join("&")`.
 */
module Query {

  datatype Param = Param(key: string, value: string)

  /** One `key=value` pair. */
  function Render(p: Param): string {
    p.key + "=" + p.value
  }

  /** The renderings of all parameters, in order. */
  function RenderAll(ps: seq<Param>): (rs: seq<string>)
    ensures |rs| == |ps|
    ensures forall k :: 0 <= k < |ps| ==> rs[k] == Render(ps[k])
  {
    seq(|ps|, k requires 0 <= k < |ps| => Render(ps[k]))
  }

  /** Total number of characters of the renderings. */
  function RenderedLength(ps: seq<Param>): nat {
    if |ps| == 0 then 0 else RenderedLength(ps[..|ps| - 1]) + |Render(ps[|ps| - 1])|
  }

  /**
   * The renderings separated by '&': nothing before the first, nothing after
   * the last, and the empty string for no parameters.
   */
  function Join(ps: seq<Param>): string
  {
    if |ps| == 0 then ""
    else if |ps| == 1 then Render(ps[0])
    else
      Join(ps[..|ps| - 1]) + "&" + Render(ps[|ps| - 1])
  }

  /** The keys of the parameters, in order. */
  function Keys(ps: seq<Param>): (ks: seq<string>)
    ensures |ks| == |ps|
    ensures forall k :: 0 <= k < |ps| ==> ks[k] == ps[k].key
  {
    seq(|ps|, k requires 0 <= k < |ps| => ps[k].key)
  }

  /** `n` copies of `x`. */
  function Repeat(x: string, n: nat): (xs: seq<string>)
    ensures |xs| == n
    ensures forall k :: 0 <= k < n ==> xs[k] == x
  {
    seq(n, _ => x)
  }

  /** Builds the joined string the way the formatter's join does: left to right. */
  method JoinParams(ps: seq<Param>) returns (s: string)
    ensures s == Join(ps)
  {
    s := "";
    var i := 0;
    while i < |ps|
      invariant 0 <= i <= |ps|
      invariant s == Join(ps[..i])
    {
      assert ps[..i + 1][..i] == ps[..i];
      if i > 0 {
        s := s + "&";
      }
      s := s + (ps[i].key + "=" + ps[i].value);
      i := i + 1;
    }
    assert ps[..|ps|] == ps;
  }

  /** One separator fewer than parameters, and every rendering kept whole. */
  lemma {:induction false} JoinLength(ps: seq<Param>)
    ensures |Join(ps)| == RenderedLength(ps) + (if |ps| == 0 then 0 else |ps| - 1)
    decreases |ps|
  {
    if |ps| > 1 {
      JoinLength(ps[..|ps| - 1]);
    }
  }

  /** The join of a non-empty list begins with the first rendering. */
  lemma {:induction false} JoinStartsWithFirst(ps: seq<Param>)
    requires 0 < |ps|
    ensures |Render(ps[0])| <= |Join(ps)| && Join(ps)[..|Render(ps[0])|] == Render(ps[0])
    decreases |ps|
  {
    if |ps| > 1 {
      var init := ps[..|ps| - 1];
      JoinStartsWithFirst(init);
      assert init[0] == ps[0];
    }
  }

  /** Joining two non-empty lists puts exactly one separator between them. */
  lemma {:induction false} JoinConcat(a: seq<Param>, b: seq<Param>)
    requires 0 < |a| && 0 < |b|
    ensures Join(a + b) == Join(a) + "&" + Join(b)
    decreases |b|
  {
    var ab := a + b;
    var n := |ab|;
    assert Join(ab) == Join(ab[..n - 1]) + "&" + Render(ab[n - 1]);
    assert ab[n - 1] == b[|b| - 1];
    if |b| == 1 {
      assert ab[..n - 1] == a;
      assert Join(b) == Render(b[0]);
    } else {
      var b' := b[..|b| - 1];
      assert ab[..n - 1] == a + b';
      JoinConcat(a, b');
      assert Join(b) == Join(b') + "&" + Render(b[|b| - 1]);
    }
  }

  /** Appending a parameter to a non-empty list appends '&' and its rendering to the join. */
  lemma AppendParam(ps: seq<Param>, p: Param)
    requires 0 < |ps|
    ensures Join(ps + [p]) == Join(ps) + "&" + Render(p)
  {
    var qs := ps + [p];
    assert qs[..|qs| - 1] == ps;
  }

  /**
   * Splits `s` at every occurrence of `sep`; the pieces are what lies between
   * separators, so there is always one piece more than separators.
   */
  function SplitOn(s: string, sep: char): (pieces: seq<string>)
    ensures 1 <= |pieces|
  {
    if |s| == 0 then [""]
    else
      var rest := SplitOn(s[1..], sep);
      if s[0] == sep then [""] + rest else [[s[0]] + rest[0]] + rest[1..]
  }

  lemma {:induction false} SplitOnWithoutSeparator(s: string, sep: char)
    requires sep !in s
    ensures SplitOn(s, sep) == [s]
  {
    if |s| != 0 {
      assert sep !in s[1..];
      SplitOnWithoutSeparator(s[1..], sep);
      assert [s[0]] + s[1..] == s;
    }
  }

  /** A separator between two strings splits them apart and nothing else. */
  lemma {:induction false} SplitOnAroundSeparator(a: string, b: string, sep: char)
    ensures SplitOn(a + [sep] + b, sep) == SplitOn(a, sep) + SplitOn(b, sep)
  {
    var s := a + [sep] + b;
    if |a| == 0 {
      assert s[1..] == b;
    } else {
      assert s[1..] == a[1..] + [sep] + b;
      SplitOnAroundSeparator(a[1..], b, sep);
    }
  }

  /**
   * When no rendering contains '&', splitting the joined string at '&'
   * recovers exactly the renderings: the join loses nothing.
   */
  lemma {:induction false} SplitJoin(ps: seq<Param>)
    requires 0 < |ps|
    requires forall k :: 0 <= k < |ps| ==> '&' !in Render(ps[k])
    ensures SplitOn(Join(ps), '&') == RenderAll(ps)
    decreases |ps|
  {
    var last := Render(ps[|ps| - 1]);
    SplitOnWithoutSeparator(last, '&');
    if |ps| > 1 {
      var init := ps[..|ps| - 1];
      SplitJoin(init);
      SplitOnAroundSeparator(Join(init), last, '&');
      assert RenderAll(ps) == RenderAll(init) + [last];
    }
  }
}
