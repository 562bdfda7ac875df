/** Go's fixed-width reference layouts, as `time.Parse` and `time.Format`
    walk them for the layouts of this client: a layout is a sequence of
    chunks, each a literal prefix followed by a zero-padded numeric field. */
module Layouts {
  import opened Wrappers
  import opened Digits

  /** Literal text, then a numeric field of exactly `width` digits. */
  datatype Chunk = Chunk(prefix: string, width: nat)

  type Layout = seq<Chunk>

  /** One value per chunk, each small enough for its field's width. */
  predicate Fits(l: Layout, vs: seq<nat>) {
    |vs| == |l| && forall k :: 0 <= k < |l| ==> vs[k] < Pow10(l[k].width)
  }

  /** Reads the numeric fields of `s` against layout `l`; `None` when a
      prefix differs, a field is not all digits, or characters are missing
      or left over. */
  function Scan(s: string, l: Layout): (r: Option<seq<nat>>)
    ensures r.Some? ==> |r.value| == |l|
  {
    if l == [] then (if s == [] then Some([]) else None)
    else
      var p, w := l[0].prefix, l[0].width;
      if |p| + w <= |s| && s[..|p|] == p && AllDigits(s[|p|..|p| + w]) then
        var rest :- Scan(s[|p| + w..], l[1..]);
        Some([Value(s[|p|..|p| + w])] + rest)
      else None
  }

  /** Writes each value after its chunk's prefix, zero-padded to its width. */
  function Render(l: Layout, vs: seq<nat>): string
    requires |vs| == |l|
  {
    if l == [] then [] else l[0].prefix + Pad(vs[0], l[0].width) + Render(l[1..], vs[1..])
  }

  /** `Render` of a layout with a first chunk, unfolded once. */
  lemma RenderCons(c: Chunk, l: Layout, v: nat, vs: seq<nat>)
    requires |vs| == |l|
    ensures Render([c] + l, [v] + vs) == c.prefix + Pad(v, c.width) + Render(l, vs)
  {
    assert ([c] + l)[1..] == l && ([v] + vs)[1..] == vs;
  }

  /** A layout of one chunk renders its prefix and its padded value. */
  lemma RenderOne(c: Chunk, v: nat)
    ensures Render([c], [v]) == c.prefix + Pad(v, c.width)
  {
    RenderCons(c, [], v, []);
    assert c.prefix + Pad(v, c.width) + [] == c.prefix + Pad(v, c.width);
  }

  /** A layout of three chunks, written out. */
  lemma RenderThree(c0: Chunk, c1: Chunk, c2: Chunk, v0: nat, v1: nat, v2: nat)
    ensures Render([c0, c1, c2], [v0, v1, v2])
         == (c0.prefix + Pad(v0, c0.width))
            + ((c1.prefix + Pad(v1, c1.width)) + (c2.prefix + Pad(v2, c2.width)))
  {
    RenderTwo(c1, c2, v1, v2);
    RenderCons(c0, [c1, c2], v0, [v1, v2]);
  }

  /** A layout of two chunks, written out. */
  lemma RenderTwo(c0: Chunk, c1: Chunk, v0: nat, v1: nat)
    ensures Render([c0, c1], [v0, v1])
         == (c0.prefix + Pad(v0, c0.width)) + (c1.prefix + Pad(v1, c1.width))
  {
    RenderOne(c1, v1);
    RenderCons(c0, [c1], v0, [v1]);
  }

  /** Rendering distributes over the concatenation of layouts. */
  lemma {:induction false} RenderAppend(l1: Layout, l2: Layout, v1: seq<nat>, v2: seq<nat>)
    requires |v1| == |l1| && |v2| == |l2|
    ensures Render(l1 + l2, v1 + v2) == Render(l1, v1) + Render(l2, v2)
  {
    if l1 == [] {
      assert l1 + l2 == l2 && v1 + v2 == v2;
    } else {
      RenderAppend(l1[1..], l2, v1[1..], v2);
      assert (l1 + l2)[1..] == l1[1..] + l2 && (l1 + l2)[0] == l1[0];
      assert (v1 + v2)[1..] == v1[1..] + v2 && (v1 + v2)[0] == v1[0];
    }
  }

  /** Rendering values that fit and scanning the result gives them back. */
  lemma {:induction false} ScanRender(l: Layout, vs: seq<nat>)
    requires Fits(l, vs)
    ensures Scan(Render(l, vs), l) == Some(vs)
  {
    if l != [] {
      var p, w := l[0].prefix, l[0].width;
      assert Fits(l[1..], vs[1..]) by {
        forall k | 0 <= k < |l[1..]|
          ensures vs[1..][k] < Pow10(l[1..][k].width)
        {
          assert vs[1..][k] == vs[k + 1] && l[1..][k] == l[k + 1];
        }
      }
      ScanRender(l[1..], vs[1..]);
      PadValue(vs[0], w);
      var d := Pad(vs[0], w);
      var tail := Render(l[1..], vs[1..]);
      var s := Render(l, vs);
      assert s == p + d + tail;
      assert s[..|p|] == p && s[|p|..|p| + w] == d && s[|p| + w..] == tail;
      assert [vs[0]] + vs[1..] == vs;
    }
  }

  /** What a successful `Scan` read from its first chunk. */
  lemma ScanFirst(s: string, l: Layout)
    requires l != [] && Scan(s, l).Some?
    ensures |l[0].prefix| + l[0].width <= |s|
    ensures s[..|l[0].prefix|] == l[0].prefix
    ensures AllDigits(s[|l[0].prefix|..|l[0].prefix| + l[0].width])
    ensures Scan(s[|l[0].prefix| + l[0].width..], l[1..]).Some?
    ensures Scan(s, l).value
         == [Value(s[|l[0].prefix|..|l[0].prefix| + l[0].width])]
            + Scan(s[|l[0].prefix| + l[0].width..], l[1..]).value
  {
  }

  /** A string cut at two positions is the concatenation of the pieces. */
  lemma Cut(s: string, i: nat, j: nat)
    requires i <= j <= |s|
    ensures s == s[..i] + s[i..j] + s[j..]
  {
  }

  /** Whatever `Scan` accepts is rendered back to the very same characters:
      the grammar has one spelling per value. */
  lemma {:induction false} RenderScan(s: string, l: Layout)
    requires Scan(s, l).Some?
    ensures Render(l, Scan(s, l).value) == s
  {
    if l != [] {
      var p, w := l[0].prefix, l[0].width;
      ScanFirst(s, l);
      var vs := Scan(s, l).value;
      var field, after := s[|p|..|p| + w], s[|p| + w..];
      RenderScan(after, l[1..]);
      ValuePad(field);
      assert vs[0] == Value(field) && vs[1..] == Scan(after, l[1..]).value;
      assert Render(l, vs) == p + Pad(vs[0], w) + Render(l[1..], vs[1..]);
      Cut(s, |p|, |p| + w);
    }
  }

  /** Every value `Scan` reads fits the width of its field. */
  lemma {:induction false} ScanFits(s: string, l: Layout)
    requires Scan(s, l).Some?
    ensures Fits(l, Scan(s, l).value)
  {
    if l != [] {
      var p, w := l[0].prefix, l[0].width;
      ScanFirst(s, l);
      var vs := Scan(s, l).value;
      var rest := Scan(s[|p| + w..], l[1..]).value;
      ScanFits(s[|p| + w..], l[1..]);
      ValuePad(s[|p|..|p| + w]);
      forall k | 0 <= k < |l|
        ensures vs[k] < Pow10(l[k].width)
      {
        if k > 0 {
          assert vs[k] == rest[k - 1] && l[k] == l[1..][k - 1];
        }
      }
    }
  }
}
