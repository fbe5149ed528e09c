/** Whether the rows depend on the order in which the tokens arrive. The rows are built from the
    tokens sorted by their top edge alone (process_invoice.py:137), and the sort keeps tokens
    with equal top edges in input order; the running mean of process_invoice.py:144-151 then
    sees them in that order. */
module RowOrder {
  import opened Tokens
  import opened Sorting
  import opened RowClustering

  /** When no two tokens share a top edge, the rows do not depend on the order of the input:
      any rearrangement sorts to the same sequence. */
  lemma DistinctTopsGiveSameRows(s1: seq<Token>, s2: seq<Token>)
    requires multiset(s1) == multiset(s2)
    requires DistinctKeys(s1, Top) && DistinctKeys(s2, Top)
    ensures Clustered(SortedBy(s1, Top)) == Clustered(SortedBy(s2, Top))
  {
    DistinctKeysSortOrderFree(s1, s2, Top);
  }

  /** A token whose box spans the rows `top` to `bottom`, at the left margin. */
  function Band(text: string, top: int, bottom: int): Token {
    Token(text, Quad(Point(0, top), Point(0, top), Point(0, bottom), Point(0, bottom)), 1.0)
  }

  /** The sort by top edge keeps tokens with the same top edge in input order, and the running
      mean then depends on that order: three tokens with top edge 0 and centres 0, 14 and 28
      group as [a, b], [d] in one order and as [a], [d, b] in another. */
  lemma ShuffleChangesRows()
    ensures var a, b, d := Band("a", 0, 0), Band("b", 0, 28), Band("d", 0, 56);
            && multiset([a, b, d]) == multiset([a, d, b])
            && Clustered(SortedBy([a, b, d], Top)) == [[a, b], [d]]
            && Clustered(SortedBy([a, d, b], Top)) == [[a], [d, b]]
  {
    var a, b, d := Band("a", 0, 0), Band("b", 0, 28), Band("d", 0, 56);
    assert Centre(a) == 0.0 && Centre(b) == 14.0 && Centre(d) == 28.0;
    SortedBySameKey([a, b, d], Top);
    SortedBySameKey([a, d, b], Top);
    NearThenFar(a, b, d);
    FarThenNear(a, d, b);
  }

  /** Appending one token to the input runs one more step of the loop. */
  lemma ClusteredSnoc(items: seq<Token>, t: Token)
    ensures Clustered(items + [t]) == Step(Clustered(items), t)
  {
    assert (items + [t])[..|items|] == items;
  }

  /** Clustering three tokens whose second joins the first and whose third is far from both. */
  lemma NearThenFar(a: Token, b: Token, d: Token)
    requires Centre(a) == 0.0 && Centre(b) == 14.0 && Centre(d) == 28.0
    ensures Clustered([a, b, d]) == [[a, b], [d]]
  {
    assert [] + [a] == [a] && [a] + [b] == [a, b] && [a, b] + [d] == [a, b, d];
    ClusteredSnoc([], a);
    ClusteredSnoc([a], b);
    ClusteredSnoc([a, b], d);
    MeanOfOne(a);
    assert !Far(b, [a]);
    assert Step([[a]], b) == [[a]][..0] + [[a] + [b]] == [[a, b]];
    assert [a, b][..1] == [a];
    assert Mean([a, b]) == 7.0;
    assert Far(d, [a, b]);
    assert Step([[a, b]], d) == [[a, b]] + [[d]] == [[a, b], [d]];
  }

  /** Clustering three tokens whose second is far from the first and whose third joins it. */
  lemma FarThenNear(a: Token, d: Token, b: Token)
    requires Centre(a) == 0.0 && Centre(d) == 28.0 && Centre(b) == 14.0
    ensures Clustered([a, d, b]) == [[a], [d, b]]
  {
    assert [] + [a] == [a] && [a] + [d] == [a, d] && [a, d] + [b] == [a, d, b];
    ClusteredSnoc([], a);
    ClusteredSnoc([a], d);
    ClusteredSnoc([a, d], b);
    MeanOfOne(a);
    MeanOfOne(d);
    assert Far(d, [a]);
    assert Step([[a]], d) == [[a]] + [[d]] == [[a], [d]];
    assert !Far(b, [d]);
    assert [[a], [d]][..1] == [[a]] && [d] + [b] == [d, b];
    assert Step([[a], [d]], b) == [[a], [d]][..1] + [[d] + [b]] == [[a], [d, b]];
  }
}
