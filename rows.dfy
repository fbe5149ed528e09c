/** Grouping the relevant tokens, already sorted by their top edge, into rows
    (process_invoice.py:139-151). A token opens a new row when its vertical centre lies more
    than 15 pixels from the running mean of the centres in the last row; otherwise it joins
    that row and the mean is recomputed. Centres and means are exact reals. */
module RowClustering {
  import opened Tokens

  const RowTolerance: real := 15.0

  function Abs(x: real): (r: real)
    ensures r >= 0.0 && (r == x || r == -x)
  {
    if x < 0.0 then -x else x
  }

  /** The sum of the vertical centres of `row`. */
  function CentreSum(row: seq<Token>): real
    decreases |row|
  {
    if row == [] then 0.0 else CentreSum(row[..|row| - 1]) + Centre(row[|row| - 1])
  }

  /** `sum(all_y_centers) / len(all_y_centers)`. */
  function Mean(row: seq<Token>): real
    requires row != []
  {
    CentreSum(row) / (|row| as real)
  }

  /** `t` is too far from the row to join it. */
  predicate Far(t: Token, row: seq<Token>)
    requires row != []
  {
    Abs(Centre(t) - Mean(row)) > RowTolerance
  }

  /** The rows with every element of `rows` concatenated, in order. */
  function Flatten(rows: seq<seq<Token>>): seq<Token>
    decreases |rows|
  {
    if rows == [] then [] else Flatten(rows[..|rows| - 1]) + rows[|rows| - 1]
  }

  predicate NoEmptyRow(rows: seq<seq<Token>>) {
    forall j :: 0 <= j < |rows| ==> rows[j] != []
  }

  /** One iteration of the loop: `t` opens a new row or joins the last one. */
  function Step(rows: seq<seq<Token>>, t: Token): (r: seq<seq<Token>>)
    requires NoEmptyRow(rows)
    ensures NoEmptyRow(r) && r != []
  {
    if rows == [] || Far(t, rows[|rows| - 1]) then rows + [[t]]
    else rows[..|rows| - 1] + [rows[|rows| - 1] + [t]]
  }

  /** The rows the loop builds from `items`. */
  function Clustered(items: seq<Token>): (rows: seq<seq<Token>>)
    ensures NoEmptyRow(rows)
    decreases |items|
  {
    if items == [] then [] else Step(Clustered(items[..|items| - 1]), items[|items| - 1])
  }

  /** The grouping rule, stated on a finished list of rows: no row is empty, the first token
      of every row but the first is far from the whole row before it, and every later token of
      a row is within the tolerance of the mean of the tokens before it in its row. */
  predicate RowRule(rows: seq<seq<Token>>) {
    && NoEmptyRow(rows)
    && (forall j :: 0 < j < |rows| ==> Far(rows[j][0], rows[j - 1]))
    && (forall j, m :: 0 <= j < |rows| && 0 < m < |rows[j]| ==> !Far(rows[j][m], rows[j][..m]))
  }

  lemma MeanOfOne(t: Token)
    ensures Mean([t]) == Centre(t)
  {
    assert [t][..0] == [];
    assert CentreSum([t]) == Centre(t);
  }

  /** Concatenating the rows gives back the tokens, in their order. */
  lemma {:induction false} ClusteredFlattens(items: seq<Token>)
    ensures Flatten(Clustered(items)) == items
    decreases |items|
  {
    if items != [] {
      var init, t := items[..|items| - 1], items[|items| - 1];
      var rows := Clustered(init);
      ClusteredFlattens(init);
      if rows == [] || Far(t, rows[|rows| - 1]) {
        assert (rows + [[t]])[..|rows|] == rows;
      } else {
        var p, last := rows[..|rows| - 1], rows[|rows| - 1];
        assert rows == p + [last];
        assert Flatten(rows) == Flatten(p) + last;
        var r := p + [last + [t]];
        assert r[..|r| - 1] == p;
      }
      assert items == init + [t];
    }
  }

  lemma StepFollowsRule(rows: seq<seq<Token>>, t: Token)
    requires RowRule(rows)
    ensures RowRule(Step(rows, t))
  {
    var r := Step(rows, t);
    if rows == [] || Far(t, rows[|rows| - 1]) {
      assert forall j :: 0 <= j < |rows| ==> r[j] == rows[j];
    } else {
      var n := |rows| - 1;
      var last := rows[n];
      var grown := last + [t];
      assert r[n] == grown;
      assert forall j :: 0 <= j < n ==> r[j] == rows[j];
      assert grown[0] == last[0];
      forall m | 0 < m < |grown|
        ensures !Far(grown[m], grown[..m])
      {
        if m < |last| {
          assert grown[m] == last[m] && grown[..m] == last[..m];
          assert !Far(rows[n][m], rows[n][..m]);
        } else {
          assert grown[..m] == last;
        }
      }
    }
  }

  /** The rows built satisfy the grouping rule. */
  lemma {:induction false} ClusteredFollowsRule(items: seq<Token>)
    ensures RowRule(Clustered(items))
    decreases |items|
  {
    if items != [] {
      ClusteredFollowsRule(items[..|items| - 1]);
      StepFollowsRule(Clustered(items[..|items| - 1]), items[|items| - 1]);
    }
  }

  lemma FlattenLast(rows: seq<seq<Token>>)
    requires rows != []
    ensures Flatten(rows) == Flatten(rows[..|rows| - 1]) + rows[|rows| - 1]
  {
  }

  lemma FlattenAppend(p: seq<seq<Token>>, row: seq<Token>)
    ensures Flatten(p + [row]) == Flatten(p) + row
  {
    assert (p + [row])[..|p|] == p;
  }

  lemma RulePrefix(rows: seq<seq<Token>>)
    requires RowRule(rows) && rows != []
    ensures RowRule(rows[..|rows| - 1])
  {
    var p := rows[..|rows| - 1];
    assert forall j :: 0 <= j < |p| ==> p[j] == rows[j];
  }

  /** Dropping the last token of a row of two or more keeps the rule. */
  lemma RuleShrinkLast(rows: seq<seq<Token>>)
    requires RowRule(rows) && rows != [] && |rows[|rows| - 1]| > 1
    ensures RowRule(rows[..|rows| - 1] + [rows[|rows| - 1][..|rows[|rows| - 1]| - 1]])
  {
    var n := |rows| - 1;
    var last := rows[n];
    var short := last[..|last| - 1];
    var q := rows[..n] + [short];
    assert forall j :: 0 <= j < n ==> q[j] == rows[j];
    assert q[n] == short && short[0] == last[0];
    forall m | 0 < m < |short|
      ensures !Far(short[m], short[..m])
    {
      assert short[m] == last[m] && short[..m] == last[..m];
      assert !Far(rows[n][m], rows[n][..m]);
    }
  }

  /** The rule leaves no choice: any rows that satisfy it and concatenate to `items` are the
      rows the loop builds. */
  lemma {:induction false} RuleDeterminesRows(items: seq<Token>, rows: seq<seq<Token>>)
    requires RowRule(rows) && Flatten(rows) == items
    ensures rows == Clustered(items)
    decreases |items|, 1
  {
    if rows != [] {
      if |rows[|rows| - 1]| == 1 {
        RuleDeterminesNewRow(items, rows);
      } else {
        RuleDeterminesJoinedRow(items, rows);
      }
    }
  }

  /** The case where the last row holds a single token. */
  lemma {:induction false} RuleDeterminesNewRow(items: seq<Token>, rows: seq<seq<Token>>)
    requires RowRule(rows) && Flatten(rows) == items
    requires rows != [] && |rows[|rows| - 1]| == 1
    ensures rows == Clustered(items)
    decreases |items|, 0
  {
    var n := |rows| - 1;
    var p, t := rows[..n], rows[n][0];
    assert rows[n] == [t];
    RulePrefix(rows);
    FlattenLast(rows);
    assert items[..|items| - 1] == Flatten(p);
    RuleDeterminesRows(items[..|items| - 1], p);
    if p != [] {
      assert Far(rows[n][0], rows[n - 1]);
    }
    NewRowStep(items, p, t);
    assert rows == p + [[t]];
  }

  /** The case where the last token joined a row that was already open. */
  lemma {:induction false} RuleDeterminesJoinedRow(items: seq<Token>, rows: seq<seq<Token>>)
    requires RowRule(rows) && Flatten(rows) == items
    requires rows != [] && |rows[|rows| - 1]| > 1
    ensures rows == Clustered(items)
    decreases |items|, 0
  {
    var p, short, t := SplitJoinedRow(rows);
    assert items[..|items| - 1] == Flatten(p + [short]);
    RuleDeterminesRows(items[..|items| - 1], p + [short]);
    JoinRowStep(items, p, short, t);
  }

  /** A last row of two or more tokens, split at its last token `t`: the rows before it with
      the shortened row still follow the rule, and `t` was close enough to join. */
  lemma SplitJoinedRow(rows: seq<seq<Token>>) returns (p: seq<seq<Token>>, short: seq<Token>, t: Token)
    requires RowRule(rows) && rows != [] && |rows[|rows| - 1]| > 1
    ensures rows == p + [short + [t]] && short != []
    ensures RowRule(p + [short]) && !Far(t, short)
    ensures Flatten(rows) == Flatten(p + [short]) + [t]
  {
    var n := |rows| - 1;
    var m := |rows[n]| - 1;
    p, short, t := rows[..n], rows[n][..m], rows[n][m];
    assert rows[n] == short + [t];
    assert rows == p + [short + [t]];
    RuleShrinkLast(rows);
    LastTokenJoined(rows);
    FlattenJoined(p, short, t);
  }

  /** The last token of a row of two or more was within the tolerance when it joined. */
  lemma LastTokenJoined(rows: seq<seq<Token>>)
    requires RowRule(rows) && rows != [] && |rows[|rows| - 1]| > 1
    ensures var last := rows[|rows| - 1];
            !Far(last[|last| - 1], last[..|last| - 1])
  {
  }

  lemma FlattenJoined(p: seq<seq<Token>>, short: seq<Token>, t: Token)
    ensures Flatten(p + [short + [t]]) == Flatten(p + [short]) + [t]
  {
    FlattenAppend(p, short + [t]);
    FlattenAppend(p, short);
  }

  /** The inductive step when the last token opens a row of its own. */
  lemma NewRowStep(items: seq<Token>, p: seq<seq<Token>>, t: Token)
    requires items != [] && items[|items| - 1] == t
    requires p == Clustered(items[..|items| - 1])
    requires p != [] ==> Far(t, p[|p| - 1])
    ensures Clustered(items) == p + [[t]]
  {
  }

  /** The inductive step when the last token joins the row `short`. */
  lemma JoinRowStep(items: seq<Token>, p: seq<seq<Token>>, short: seq<Token>, t: Token)
    requires items != [] && items[|items| - 1] == t
    requires p + [short] == Clustered(items[..|items| - 1])
    requires short != [] && !Far(t, short)
    ensures Clustered(items) == p + [short + [t]]
  {
    var q := p + [short];
    assert q[..|q| - 1] == p && q[|q| - 1] == short;
  }

  /** The row-building loop of process_invoice.py:139-151. */
  method ClusterRows(items: seq<Token>) returns (rows: seq<seq<Token>>)
    ensures rows == Clustered(items)
  {
    rows := [];
    var centre: real := -1.0;
    for i := 0 to |items|
      invariant rows == Clustered(items[..i])
      invariant rows != [] ==> centre == Mean(rows[|rows| - 1])
    {
      var t := items[i];
      var c := Centre(t);
      assert items[..i + 1][..i] == items[..i];
      if rows == [] || Abs(c - centre) > RowTolerance {
        rows := rows + [[t]];
        centre := c;
        MeanOfOne(t);
      } else {
        rows := rows[..|rows| - 1] + [rows[|rows| - 1] + [t]];
        centre := Mean(rows[|rows| - 1]);
      }
    }
    assert items[..|items|] == items;
  }
}
