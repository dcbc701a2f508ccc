/** Substring occurrences and Go's left-to-right, non-overlapping `strings.ReplaceAll`. */
module Replace {

  predicate At(t: string, p: string, i: int) {
    0 <= i && i + |p| <= |t| && t[i..i + |p|] == p
  }

  ghost predicate Contains(t: string, p: string) {
    exists i :: At(t, p, i)
  }

  /** The first occurrence, or -1. */
  function Index(t: string, p: string): (i: int)
    ensures i < 0 ==> forall j :: !At(t, p, j)
    ensures i >= 0 ==> At(t, p, i) && forall j :: j < i ==> !At(t, p, j)
  {
    if |p| <= |t| && t[..|p|] == p then
      assert At(t, p, 0);
      0
    else if t == "" then
      assert forall j :: At(t, p, j) ==> j == 0;
      -1
    else
      var rest := Index(t[1..], p);
      assert forall j :: At(t, p, j) ==> j > 0;
      assert forall j :: j > 0 ==> (At(t, p, j) <==> At(t[1..], p, j - 1)) by { Shift(t, p); }
      if rest < 0 then
        assert forall j :: At(t, p, j) ==> At(t[1..], p, j - 1);
        -1
      else
        rest + 1
  }

  lemma SliceOfTail(t: string, j: nat, n: nat)
    requires 0 < j && j + n <= |t|
    ensures t[1..][j - 1..j - 1 + n] == t[j..j + n]
  {
    var u := t[1..];
    assert |u[j - 1..j - 1 + n]| == n;
    assert forall k :: 0 <= k < |u| ==> u[k] == t[k + 1];
  }

  lemma Shift(t: string, p: string)
    requires t != ""
    ensures forall j :: j > 0 ==> (At(t, p, j) <==> At(t[1..], p, j - 1))
  {
    forall j | j > 0 ensures At(t, p, j) <==> At(t[1..], p, j - 1) {
      if j + |p| <= |t| {
        SliceOfTail(t, j, |p|);
      }
    }
  }

  function ReplaceAll(t: string, s: string, r: string): string
    requires s != ""
    decreases |t|
  {
    var i := Index(t, s);
    if i < 0 then t else t[..i] + r + ReplaceAll(t[i + |s|..], s, r)
  }

  /** Wherever `r` overlaps `b`, at offset `d` of `b`, some position disagrees. */
  ghost predicate ClashAt(r: string, b: string, d: int) {
    exists k :: 0 <= k < |b| && 0 <= k - d < |r| && b[k] != r[k - d]
  }

  ghost predicate Apart(r: string, b: string) {
    forall d :: -|r| < d < |b| ==> ClashAt(r, b, d)
  }

  lemma AtChars(t: string, p: string, i: int, k: int)
    requires At(t, p, i) && 0 <= k < |p|
    ensures t[i + k] == p[k]
  {
    assert t[i..i + |p|][k] == t[i + k];
  }

  /** Overlapping positions of one occurrence agree. */
  lemma Overlap(a: string, r: string, c: string, b: string, p: int)
    requires At(a + r + c, b, p) && -|r| < |a| - p < |b|
    ensures !ClashAt(r, b, |a| - p)
  {
    var d := |a| - p;
    forall k | 0 <= k < |b| && 0 <= k - d < |r| ensures b[k] == r[k - d] {
      AtChars(a + r + c, b, p, k);
      assert (a + r + c)[|a| + (k - d)] == r[k - d];
    }
  }

  /** An occurrence of `b` that does not overlap `r` lies wholly before or wholly behind it. */
  lemma Around(a: string, r: string, c: string, b: string, p: int)
    requires At(a + r + c, b, p) && (-|r| < |a| - p < |b| ==> ClashAt(r, b, |a| - p))
    ensures At(a, b, p) || At(c, b, p - |a| - |r|)
  {
    var t := a + r + c;
    var d := |a| - p;
    if d >= |b| {
      assert a[p..p + |b|] == t[p..p + |b|];
    } else if d <= -|r| {
      assert c[p - |a| - |r|..p - |a| - |r| + |b|] == t[p..p + |b|];
    } else {
      Overlap(a, r, c, b, p);
    }
  }

  lemma Before(a: string, rest: string, b: string, p: int)
    requires At(a, b, p)
    ensures At(a + rest, b, p)
  {
    assert (a + rest)[p..p + |b|] == a[p..p + |b|];
  }

  lemma Behind(front: string, c: string, b: string, p: int)
    requires At(c, b, p)
    ensures At(front + c, b, |front| + p)
  {
    assert (front + c)[|front| + p..|front| + p + |b|] == c[p..p + |b|];
  }

  lemma Locate(a: string, r: string, c: string, b: string)
    requires Apart(r, b) && Contains(a + r + c, b)
    ensures Contains(a, b) || Contains(c, b)
  {
    var p :| At(a + r + c, b, p);
    Around(a, r, c, b, p);
  }

  lemma Spread(a: string, s: string, c: string, b: string)
    requires Contains(a, b) || Contains(c, b)
    ensures Contains(a + s + c, b)
  {
    if Contains(a, b) {
      var p :| At(a, b, p);
      Before(a, s + c, b, p);
      assert a + (s + c) == a + s + c;
    } else {
      var p :| At(c, b, p);
      Behind(a + s, c, b, p);
    }
  }

  /** The three pieces around the first occurrence. */
  lemma Pieces(t: string, s: string)
    requires s != "" && Index(t, s) >= 0
    ensures var i := Index(t, s);
            t == t[..i] + s + t[i + |s|..] && !Contains(t[..i], s)
  {
    var i := Index(t, s);
    Thirds(t, i, i + |s|);
    hide Index;
    forall p ensures !At(t[..i], s, p) {
      if At(t[..i], s, p) {
        Thirds(t, i, i);
        Before(t[..i], t[i..], s, p);
      }
    }
  }

  lemma Thirds(t: string, i: nat, j: nat)
    requires i <= j <= |t|
    ensures t[..i] + t[i..j] + t[j..] == t && t[..i] + t[i..] == t
  {
  }

  lemma Absent(t: string, s: string, r: string)
    requires s != "" && !Contains(t, s)
    ensures ReplaceAll(t, s, r) == t
  {
    var i := Index(t, s);
    if i >= 0 {
      Pieces(t, s);
    }
  }

  /** Replacing by a text that cannot overlap `b` creates no `b`. */
  lemma {:induction false} NoneCreated(t: string, s: string, r: string, b: string)
    requires s != "" && Apart(r, b) && !Contains(t, b)
    ensures !Contains(ReplaceAll(t, s, r), b)
    decreases |t|
  {
    hide Apart, Contains;
    var i := Index(t, s);
    if i >= 0 {
      Pieces(t, s);
      var a, c := t[..i], t[i + |s|..];
      if Contains(a, b) || Contains(c, b) {
        Spread(a, s, c, b);
      } else {
        NoneCreated(c, s, r, b);
        if Contains(ReplaceAll(t, s, r), b) {
          Locate(a, r, ReplaceAll(c, s, r), b);
        }
      }
    }
  }

  /** Replacing by a text that cannot overlap the replaced one leaves none of it. */
  lemma {:induction false} AllReplaced(t: string, s: string, r: string)
    requires s != "" && Apart(r, s)
    ensures !Contains(ReplaceAll(t, s, r), s)
    decreases |t|
  {
    hide Apart;
    var i := Index(t, s);
    if i >= 0 {
      Pieces(t, s);
      var a, c := t[..i], t[i + |s|..];
      AllReplaced(c, s, r);
      if Contains(ReplaceAll(t, s, r), s) {
        Locate(a, r, ReplaceAll(c, s, r), s);
      }
    }
  }

  /** A text that overlaps neither side of a replacement survives it, and none of it is created. */
  lemma {:induction false} Unaffected(t: string, s: string, r: string, x: string)
    requires s != "" && Apart(r, x) && Apart(s, x)
    ensures Contains(ReplaceAll(t, s, r), x) <==> Contains(t, x)
    decreases |t|
  {
    hide Apart, Contains;
    var i := Index(t, s);
    if i >= 0 {
      Pieces(t, s);
      var a, c := t[..i], t[i + |s|..];
      var c' := ReplaceAll(c, s, r);
      Unaffected(c, s, r, x);
      if Contains(t, x) {
        Locate(a, s, c, x);
        Spread(a, r, c', x);
      }
      if Contains(a + r + c', x) {
        Locate(a, r, c', x);
        Spread(a, s, c, x);
      }
    }
  }
}
