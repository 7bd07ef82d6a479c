/** The JavaScript string operations the résumé code uses (`includes`, `join`,
    `toLowerCase`), and the prefix/suffix/occurrence vocabulary the properties are
    stated in. */
module Text {

  /** `t` occurs in `s` starting at position `i`. */
  predicate OccursAt(s: string, t: string, i: int) {
    0 <= i && i + |t| <= |s| && s[i..i + |t|] == t
  }

  predicate StartsWith(s: string, t: string) {
    |t| <= |s| && s[..|t|] == t
  }

  predicate EndsWith(s: string, t: string) {
    |t| <= |s| && s[|s| - |t|..] == t
  }

  /** `String.prototype.includes`, scanning left to right. */
  function Includes(s: string, t: string): (r: bool)
    ensures StartsWith(s, t) ==> r
    ensures r ==> |t| <= |s|
    decreases |s|
  {
    if StartsWith(s, t) then true
    else if |s| == 0 then false
    else Includes(s[1..], t)
  }

  /** `includes` holds exactly when `t` occurs somewhere in `s`. */
  lemma {:induction false} IncludesIffOccurs(s: string, t: string)
    ensures Includes(s, t) <==> exists i :: OccursAt(s, t, i)
    decreases |s|
  {
    if |s| > 0 {
      IncludesIffOccurs(s[1..], t);
    }
    forall i | OccursAt(s, t, i)
      ensures StartsWith(s, t) || (|s| > 0 && OccursAt(s[1..], t, i - 1))
    {
      if i == 0 {
        assert s[..|t|] == s[i..i + |t|];
      } else {
        assert s[1..][i - 1..i - 1 + |t|] == s[i..i + |t|];
      }
    }
    if StartsWith(s, t) {
      assert OccursAt(s, t, 0);
    } else if |s| > 0 && Includes(s[1..], t) {
      var i :| OccursAt(s[1..], t, i);
      assert s[1..][i..i + |t|] == s[i + 1..i + 1 + |t|];
      assert OccursAt(s, t, i + 1);
    }
  }

  /** An occurrence in a part is an occurrence in any string built around it. */
  lemma OccursWithin(x: string, s: string, y: string, t: string, i: int)
    requires OccursAt(s, t, i)
    ensures OccursAt(x + s + y, t, |x| + i)
  {
    assert (x + s + y)[|x| + i..|x| + i + |t|] == s[i..i + |t|];
  }

  /** `includes` survives putting text before and after the searched string. */
  lemma IncludesWithin(x: string, s: string, y: string, t: string)
    requires Includes(s, t)
    ensures Includes(x + s + y, t)
  {
    IncludesIffOccurs(s, t);
    var i :| OccursAt(s, t, i);
    OccursWithin(x, s, y, t, i);
    IncludesIffOccurs(x + s + y, t);
  }

  lemma IncludesPrefix(s: string, y: string, t: string)
    requires Includes(s, t)
    ensures Includes(s + y, t)
  {
    IncludesWithin("", s, y, t);
    assert "" + s == s;
  }

  /** `xs.join(sep)`: the elements with `sep` between neighbours; `""` for no elements. */
  function Join(xs: seq<string>, sep: string): (r: string)
    ensures |xs| == 0 ==> r == ""
    ensures forall i :: 0 <= i < |xs| ==> |xs[i]| <= |r|
  {
    if |xs| == 0 then ""
    else if |xs| == 1 then xs[0]
    else xs[0] + sep + Join(xs[1..], sep)
  }

  /** `xs.join("")`, the concatenation of the elements. */
  function Concat(xs: seq<string>): (r: string)
    ensures |xs| == 1 ==> r == xs[0]
  {
    if |xs| == 0 then "" else xs[0] + Concat(xs[1..])
  }

  /** The first three elements of a concatenation, written out. */
  lemma ConcatFirstThree(xs: seq<string>)
    requires |xs| >= 3
    ensures Concat(xs) == xs[0] + xs[1] + xs[2] + Concat(xs[3..])
  {
    assert xs[1..][1..] == xs[2..] && xs[2..][1..] == xs[3..];
    assert Concat(xs[2..]) == xs[2] + Concat(xs[3..]);
    assert Concat(xs[1..]) == xs[1] + Concat(xs[2..]);
    AppendThree(xs[0], xs[1], xs[2], Concat(xs[3..]));
  }

  /** Appending three strings in front of a fourth, regrouped. */
  lemma AppendThree(a: string, b: string, c: string, d: string)
    ensures a + (b + (c + d)) == a + b + c + d
  {
  }

  /** A string followed by three more starts with it. */
  lemma StartsWithFirst(front: string, a: string, b: string, c: string)
    ensures StartsWith(front + a + b + c, front)
  {
    assert (front + a + b + c)[..|front|] == front;
  }

  /** Text built from at least three pieces, then `mid` and `tail`, starts with the first
      three pieces and ends with `tail`. */
  lemma FramedConcat(xs: seq<string>, mid: string, tail: string)
    requires |xs| >= 3
    ensures StartsWith(Concat(xs) + mid + tail, xs[0] + xs[1] + xs[2])
    ensures EndsWith(Concat(xs) + mid + tail, tail)
  {
    ConcatFirstThree(xs);
    StartsWithFirst(xs[0] + xs[1] + xs[2], Concat(xs[3..]), mid, tail);
  }

  /** A six-element concatenation starts with its first element and ends with its last. */
  lemma ConcatSixEnds(a: string, b: string, c: string, d: string, e: string, f: string)
    ensures StartsWith(Concat([a, b, c, d, e, f]), a)
    ensures EndsWith(Concat([a, b, c, d, e, f]), f)
  {
    ConcatSix(a, b, c, d, e, f);
    var middle := b + c + d + e;
    assert a + b + c + d + e + f == a + middle + f;
    assert (a + middle + f)[..|a|] == a;
    assert (a + middle + f)[|a + middle|..] == f;
  }

  /** A four-element concatenation after a prefix, written out. */
  lemma ConcatFour(x: string, a: string, b: string, c: string, d: string)
    ensures x + Concat([a, b, c, d]) == x + a + b + c + d
  {
    assert [a, b, c, d][1..] == [b, c, d];
    assert [b, c, d][1..] == [c, d];
    assert [c, d][1..] == [d];
    assert Concat([c, d]) == c + d;
    assert Concat([b, c, d]) == b + (c + d);
    assert x + (a + (b + (c + d))) == x + a + b + c + d;
  }

  /** A six-element concatenation, written out. */
  lemma ConcatSix(a: string, b: string, c: string, d: string, e: string, f: string)
    ensures Concat([a, b, c, d, e, f]) == a + b + c + d + e + f
  {
    assert [a, b, c, d, e, f][1..] == [b, c, d, e, f];
    assert [b, c, d, e, f][1..] == [c, d, e, f];
    ConcatFour(a + b, c, d, e, f);
    assert a + (b + Concat([c, d, e, f])) == (a + b) + Concat([c, d, e, f]);
  }

  /** Concatenation is piecewise: each element's text appears in input order. */
  lemma {:induction false} ConcatAppend(xs: seq<string>, ys: seq<string>)
    ensures Concat(xs + ys) == Concat(xs) + Concat(ys)
  {
    if |xs| == 0 {
      assert xs + ys == ys;
    } else {
      assert (xs + ys)[1..] == xs[1..] + ys;
      ConcatAppend(xs[1..], ys);
    }
  }

  /** Joining with a separator: the i-th element sits between the join of the earlier
      elements and the join of the later ones; `pre` and `post` are those two texts. */
  lemma {:induction false} JoinSplit(xs: seq<string>, sep: string, i: nat) returns (pre: string, post: string)
    requires i < |xs|
    ensures Join(xs, sep) == pre + xs[i] + post
  {
    if i == 0 {
      pre := "";
      post := if |xs| == 1 then "" else sep + Join(xs[1..], sep);
    } else {
      var p, q := JoinSplit(xs[1..], sep, i - 1);
      assert xs[1..][i - 1] == xs[i];
      pre, post := xs[0] + sep + p, q;
    }
  }

  /** An element that includes `t` makes its join include `t` too. */
  lemma JoinIncludes(xs: seq<string>, sep: string, i: nat, t: string)
    requires i < |xs| && Includes(xs[i], t)
    ensures Includes(Join(xs, sep), t)
  {
    var pre, post := JoinSplit(xs, sep, i);
    IncludesWithin(pre, xs[i], post, t);
  }

  /** Joining keeps order: an earlier element sits before a later one. */
  lemma {:induction false} JoinOrdered(xs: seq<string>, sep: string, i: nat, j: nat)
    returns (a: string, b: string, c: string)
    requires i < j < |xs|
    ensures Join(xs, sep) == a + xs[i] + b + xs[j] + c
  {
    var rest := Join(xs[1..], sep);
    assert Join(xs, sep) == xs[0] + sep + rest;
    assert xs[1..][j - 1] == xs[j];
    if i == 0 {
      var pre, post := JoinSplit(xs[1..], sep, j - 1);
      a, b, c := "", sep + pre, post;
      RegroupFirst(xs[0], sep, rest, pre, xs[j], post);
    } else {
      assert xs[1..][i - 1] == xs[i];
      var a', b', c' := JoinOrdered(xs[1..], sep, i - 1, j - 1);
      a, b, c := xs[0] + sep + a', b', c';
      RegroupLater(xs[0], sep, rest, a', xs[i], b', xs[j], c');
    }
  }

  /** The head of a join in front of a split tail, regrouped. */
  lemma RegroupFirst(x: string, sep: string, rest: string, p: string, u: string, q: string)
    requires rest == p + u + q
    ensures x + sep + rest == "" + x + (sep + p) + u + q
  {
  }

  /** The head of a join in front of a tail split twice, regrouped. */
  lemma RegroupLater(x: string, sep: string, rest: string,
                     p: string, u: string, m: string, v: string, q: string)
    requires rest == p + u + m + v + q
    ensures x + sep + rest == (x + sep + p) + u + m + v + q
  {
  }

  /** Two ordered pieces of `s` stay ordered when `s` is framed by `x` and `y`. */
  lemma Enclose(x: string, s: string, y: string, a: string, u: string, b: string, v: string, c: string)
    requires s == a + u + b + v + c
    ensures x + s + y == (x + a) + u + b + v + (c + y)
  {
  }

  /** Two ordered pieces of one element of a join stay ordered when the join is framed
      by `x` and `y`. */
  lemma FramedJoinPieces(x: string, xs: seq<string>, sep: string, y: string, k: nat,
                         a': string, u: string, b': string, v: string, c': string)
    returns (a: string, b: string, c: string)
    requires k < |xs| && xs[k] == a' + u + b' + v + c'
    ensures x + Join(xs, sep) + y == a + u + b + v + c
  {
    var pre, post := JoinSplit(xs, sep, k);
    Enclose(pre, xs[k], post, a', u, b', v, c');
    Enclose(x, Join(xs, sep), y, pre + a', u, b', v, c' + post);
    a, b, c := x + pre + a', b', c' + post + y;
  }

  /** The k-th element of a concatenation sits between the earlier and the later ones. */
  lemma {:induction false} ConcatSplit(xs: seq<string>, k: nat)
    requires k < |xs|
    ensures Concat(xs) == Concat(xs[..k]) + xs[k] + Concat(xs[k + 1..])
  {
    if k == 0 {
      assert xs[..0] == [];
    } else {
      ConcatSplit(xs[1..], k - 1);
      assert xs[1..][..k - 1] == xs[..k][1..];
      assert xs[1..][k..] == xs[k + 1..];
    }
  }

  lemma IncludesSelf(t: string)
    ensures Includes(t, t)
  {
    assert t[..|t|] == t;
  }

  /** A fragment that includes `t` makes the concatenation include `t`. */
  lemma ConcatIncludes(xs: seq<string>, k: nat, t: string)
    requires k < |xs| && Includes(xs[k], t)
    ensures Includes(Concat(xs), t)
  {
    ConcatSplit(xs, k);
    IncludesWithin(Concat(xs[..k]), xs[k], Concat(xs[k + 1..]), t);
  }

  /** Concatenation keeps order: an earlier fragment sits before a later one. */
  lemma {:induction false} ConcatOrdered(xs: seq<string>, i: nat, j: nat) returns (a: string, b: string, c: string)
    requires i < j < |xs|
    ensures Concat(xs) == a + xs[i] + b + xs[j] + c
  {
    assert xs[1..][j - 1] == xs[j];
    if i == 0 {
      ConcatSplit(xs[1..], j - 1);
      a, b, c := "", Concat(xs[1..][..j - 1]), Concat(xs[1..][j..]);
    } else {
      assert xs[1..][i - 1] == xs[i];
      var a', b', c' := ConcatOrdered(xs[1..], i - 1, j - 1);
      a, b, c := xs[0] + a', b', c';
    }
  }

  function LowerChar(c: char): char {
    if 'A' <= c <= 'Z' then (c as int + 32) as char else c
  }

  /** `toLowerCase` on the ASCII letters. */
  function ToLower(s: string): (r: string)
    ensures |r| == |s|
    ensures forall i :: 0 <= i < |s| ==> r[i] == LowerChar(s[i])
  {
    seq(|s|, i requires 0 <= i < |s| => LowerChar(s[i]))
  }

  /** Lower-casing works character by character, so it commutes with concatenation. */
  lemma ToLowerAppend(a: string, b: string)
    ensures ToLower(a + b) == ToLower(a) + ToLower(b)
  {
  }

  /** Lower-casing a piece of a string lower-cases that piece of the result. */
  lemma ToLowerSlice(s: string, i: int, j: int)
    requires 0 <= i <= j <= |s|
    ensures ToLower(s)[i..j] == ToLower(s[i..j])
  {
  }

  /** A piece that lower-cases to `w` makes the lower-cased whole include `w`. */
  lemma LowerIncludes(s: string, w: string, i: nat)
    requires i + |w| <= |s| && ToLower(s[i..i + |w|]) == w
    ensures Includes(ToLower(s), w)
  {
    ToLowerSlice(s, i, i + |w|);
    assert OccursAt(ToLower(s), w, i);
    IncludesIffOccurs(ToLower(s), w);
  }

  /** Text with no upper-case ASCII letter is its own lower-case form. */
  lemma ToLowerOfLower(s: string)
    requires forall i :: 0 <= i < |s| ==> !('A' <= s[i] <= 'Z')
    ensures ToLower(s) == s
  {
  }
}
