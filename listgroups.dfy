/**
 * Grouping of consecutive list items.  The extractor keeps the non-empty
 * body paragraphs in document order and cuts the list items among them
 * into groups.  `Groups` is the reference definition: whether a list item
 * opens a new group or joins the last one depends only on whether the kept
 * record just before it is a list item.
 */
module ListGroups {
  import opened Docx
  import opened Seqs

  predicate IsListRecord(r: BodyRecord) { r.isListItem }

  predicate IsPlainRecord(r: BodyRecord) { !r.isListItem }

  predicate EndsInList(recs: seq<BodyRecord>) {
    recs != [] && recs[|recs| - 1].isListItem
  }

  predicate StartsInList(recs: seq<BodyRecord>) {
    recs != [] && recs[0].isListItem
  }

  /** A non-empty run of list items. */
  predicate IsListRun(g: seq<BodyRecord>) {
    g != [] && forall i | 0 <= i < |g| :: g[i].isListItem
  }

  function Groups(recs: seq<BodyRecord>): (groups: seq<seq<BodyRecord>>)
    ensures EndsInList(recs) ==> |groups| > 0
  {
    if recs == [] then []
    else
      var init := recs[..|recs| - 1];
      var r := recs[|recs| - 1];
      var g := Groups(init);
      if !r.isListItem then g
      else if EndsInList(init) then g[..|g| - 1] + [g[|g| - 1] + [r]]
      else g + [[r]]
  }

  /** Every group is a non-empty run of list items. */
  lemma {:induction false} GroupsAreListRuns(recs: seq<BodyRecord>)
    ensures forall k | 0 <= k < |Groups(recs)| :: IsListRun(Groups(recs)[k])
  {
    if recs != [] {
      GroupsAreListRuns(recs[..|recs| - 1]);
    }
  }

  /**
   * The groups, concatenated, are exactly the list items of `recs` in
   * document order: no list item is lost, duplicated or reordered.
   */
  lemma {:induction false} GroupsFlatten(recs: seq<BodyRecord>)
    ensures Flatten(Groups(recs)) == Filter(recs, IsListRecord)
  {
    if recs != [] {
      var init := recs[..|recs| - 1];
      var r := recs[|recs| - 1];
      var g := Groups(init);
      GroupsFlatten(init);
      if r.isListItem && EndsInList(init) {
        var n := |g|;
        var h := g[..n - 1] + [g[n - 1] + [r]];
        assert h[..n - 1] == g[..n - 1];
        assert Flatten(g) == Flatten(g[..n - 1]) + g[n - 1];
        assert Flatten(h) == Flatten(g[..n - 1]) + (g[n - 1] + [r]);
      } else if r.isListItem {
        assert (g + [[r]])[..|g|] == g;
      }
    }
  }

  /** Groups of records on either side of a list boundary are formed independently. */
  lemma {:induction false} GroupsSeparated(a: seq<BodyRecord>, b: seq<BodyRecord>)
    requires !(EndsInList(a) && StartsInList(b))
    ensures Groups(a + b) == Groups(a) + Groups(b)
    decreases |b|
  {
    if b == [] {
      assert a + b == a;
    } else {
      var b' := b[..|b| - 1];
      var x := b[|b| - 1];
      assert a + b == (a + b') + [x];
      assert b == b' + [x];
      GroupsSnoc(a + b', x);
      GroupsSnoc(b', x);
      if b' == [] {
        assert a + b' == a;
      } else {
        assert b'[0] == b[0];
        GroupsSeparated(a, b');
        assert EndsInList(a + b') == EndsInList(b');
        if x.isListItem && EndsInList(b') {
          ExtendAppend(Groups(a), Groups(b'), x);
        }
      }
    }
  }

  /** One more record after `s`: the step the definition of `Groups` takes. */
  lemma GroupsSnoc(s: seq<BodyRecord>, x: BodyRecord)
    ensures var g := Groups(s);
      Groups(s + [x]) ==
        if !x.isListItem then g
        else if EndsInList(s) then Extend(g, x)
        else g + [[x]]
  {
    assert (s + [x])[..|s|] == s;
  }

  /** `x` appended to the last group. */
  function Extend<A>(g: seq<seq<A>>, x: A): seq<seq<A>>
    requires |g| > 0
  {
    g[..|g| - 1] + [g[|g| - 1] + [x]]
  }

  lemma ExtendAppend<A>(g: seq<seq<A>>, h: seq<seq<A>>, x: A)
    requires |h| > 0
    ensures Extend(g + h, x) == g + Extend(h, x)
  {
    assert (g + h)[..|g + h| - 1] == g + h[..|h| - 1];
  }

  /** The last group of `g` and the first group of `h` fused into one. */
  function Fuse<A>(g: seq<seq<A>>, h: seq<seq<A>>): (f: seq<seq<A>>)
    requires |g| > 0 && |h| > 0
    ensures |f| > 0
  {
    g[..|g| - 1] + [g[|g| - 1] + h[0]] + h[1..]
  }

  lemma ExtendFuse<A>(g: seq<seq<A>>, h: seq<seq<A>>, x: A)
    requires |g| > 0 && |h| > 0
    ensures Extend(Fuse(g, h), x) == Fuse(g, Extend(h, x))
  {
    var f := Fuse(g, h);
    if |h| == 1 {
      assert f == g[..|g| - 1] + [g[|g| - 1] + h[0]];
      assert f[..|f| - 1] == g[..|g| - 1];
      assert (g[|g| - 1] + h[0]) + [x] == g[|g| - 1] + (h[0] + [x]);
      assert Extend(h, x) == [h[0] + [x]];
    } else {
      assert f[..|f| - 1] == g[..|g| - 1] + [g[|g| - 1] + h[0]] + h[1..|h| - 1];
      assert Extend(h, x)[1..] == h[1..|h| - 1] + [h[|h| - 1] + [x]];
    }
  }

  lemma AppendFuse<A>(g: seq<seq<A>>, h: seq<seq<A>>, x: A)
    requires |g| > 0 && |h| > 0
    ensures Fuse(g, h) + [[x]] == Fuse(g, h + [[x]])
  {
    assert (h + [[x]])[1..] == h[1..] + [[x]];
  }

  /**
   * When `a` ends and `b` starts with a list item, the last group of `a`
   * and the first group of `b` merge into one group.
   */
  lemma {:induction false} GroupsJoined(a: seq<BodyRecord>, b: seq<BodyRecord>)
    requires EndsInList(a) && StartsInList(b)
    ensures |Groups(b)| > 0
    ensures Groups(a + b) == Fuse(Groups(a), Groups(b))
    decreases |b|
  {
    var b' := b[..|b| - 1];
    var x := b[|b| - 1];
    assert a + b == (a + b') + [x];
    assert b == b' + [x];
    GroupsSnoc(a + b', x);
    GroupsSnoc(b', x);
    if b' == [] {
      assert a + b' == a;
    } else {
      assert b'[0] == b[0];
      GroupsJoined(a, b');
      assert EndsInList(a + b') == EndsInList(b');
      if x.isListItem {
        if EndsInList(b') {
          ExtendFuse(Groups(a), Groups(b'), x);
        } else {
          AppendFuse(Groups(a), Groups(b'), x);
        }
      }
    }
  }

  /** A run of list items with nothing else in it forms a single group. */
  lemma {:induction false} GroupsOfRun(run: seq<BodyRecord>)
    requires IsListRun(run)
    ensures Groups(run) == [run]
    decreases |run|
  {
    var init := run[..|run| - 1];
    if init == [] {
      assert run == [run[0]];
    } else {
      GroupsOfRun(init);
      assert init + [run[|run| - 1]] == run;
    }
  }

  /**
   * Every maximal run of list items is one group, in place: when `run` is
   * preceded by a non-list record (or nothing) and followed by one (or
   * nothing), the groups are those before it, then `run` whole, then those
   * after it.
   */
  lemma MaximalRunIsGroup(a: seq<BodyRecord>, run: seq<BodyRecord>, b: seq<BodyRecord>)
    requires IsListRun(run) && !EndsInList(a) && !StartsInList(b)
    ensures Groups(a + (run + b)) == Groups(a) + ([run] + Groups(b))
  {
    assert (run + b)[0] == run[0];
    GroupsSeparated(run, b);
    GroupsOfRun(run);
    GroupsSeparated(a, run + b);
  }

  /**
   * A single non-list record between two runs of list items produces two
   * separate groups, one per run.
   */
  lemma TwoRunsTwoGroups(a: seq<BodyRecord>, p: BodyRecord, b: seq<BodyRecord>)
    requires IsListRun(a) && IsListRun(b) && !p.isListItem
    ensures Groups(a + [p] + b) == [a, b]
  {
    GroupsSeparated(a, [p]);
    GroupsSeparated(a + [p], b);
    GroupsOfRun(a);
    GroupsOfRun(b);
    assert Groups([p]) == [];
  }
}
