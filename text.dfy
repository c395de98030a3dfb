/** Joining a list of strings with a separator, as JavaScript's `Array.prototype.join`. */
module Text {

  /** `xs.join(sep)`: the entries in order with `sep` between neighbours; `[]` joins to "". */
  function Join(xs: seq<string>, sep: string): string
    decreases |xs|
  {
    if |xs| == 0 then ""
    else if |xs| == 1 then xs[0]
    else xs[0] + sep + Join(xs[1..], sep)
  }

  /** The join of four entries, written out. */
  lemma JoinFour(a: string, b: string, c: string, d: string, sep: string)
    ensures Join([a, b, c, d], sep) == a + sep + b + sep + c + sep + d
  {
    assert [a, b, c, d][1..] == [b, c, d];
    assert [b, c, d][1..] == [c, d];
    assert [c, d][1..] == [d];
    assert Join([c, d], sep) == c + sep + d;
    assert Join([b, c, d], sep) == b + sep + (c + sep + d);
  }

  /** Concatenation of strings is associative. */
  lemma ConcatAssoc(a: string, b: string, c: string)
    ensures a + (b + c) == (a + b) + c
  {
  }

  /** Joining two non-empty lists one after the other puts one separator between the two joins. */
  lemma {:induction false} JoinConcat(xs: seq<string>, ys: seq<string>, sep: string)
    requires |xs| > 0 && |ys| > 0
    ensures Join(xs + ys, sep) == Join(xs, sep) + sep + Join(ys, sep)
    decreases |xs|
  {
    if |xs| == 1 {
      assert (xs + ys)[0] == xs[0] && (xs + ys)[1..] == ys;
    } else {
      assert (xs + ys)[0] == xs[0] && (xs + ys)[1..] == xs[1..] + ys;
      JoinConcat(xs[1..], ys, sep);
      ConcatAssoc(xs[0] + sep, Join(xs[1..], sep), sep + Join(ys, sep));
      ConcatAssoc(xs[0] + sep + Join(xs[1..], sep), sep, Join(ys, sep));
    }
  }

  /** Four lines, each a label and a tail, joined by newlines and regrouped from the right. */
  lemma JoinFourLines(a: string, x: string, b: string, y: string, c: string, z: string, d: string, w: string)
    ensures Join([a + x, b + y, c + z, d + w], "\n")
         == a + (x + (("\n" + b) + (y + (("\n" + c) + (z + (("\n" + d) + w))))))
  {
    JoinFour(a + x, b + y, c + z, d + w, "\n");
  }
}
