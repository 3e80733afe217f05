/** Detection does not look ahead: what comes after a period has no influence on it or before it. */
module DetectionTheorems {
  import opened Wrappers
  import opened Sums
  import opened Frames
  import opened Detection
  import FalseDiscovery

  // ---- cutting off at a period --------------------------------------------------------

  function RowUpTo(t: int): Row -> bool { (r: Row) => r.period <= t }

  function UpTo(t: int): Observation -> bool { (o: Observation) => o.row.period <= t }

  function AlertUpTo(t: int): Alert -> bool { (a: Alert) => a.o.row.period <= t }

  function CutBlock(b: Block, t: int): Block { Block(b.series, Keep(RowUpTo(t), b.rows)) }

  /** The frame without what comes after `t`; a series without rows disappears. */
  function CutFrame(frame: seq<Block>, t: int): seq<Block> {
    if frame == [] then []
    else
      var last := CutBlock(frame[|frame| - 1], t);
      CutFrame(frame[..|frame| - 1], t) + if last.rows == [] then [] else [last]
  }

  lemma OrdersAreWeak()
    ensures WeakOrder(Earlier()) && WeakOrder(ByKey())
  {
  }

  // ---- one series -------------------------------------------------------------------

  lemma ObservationsKeepPeriods(d: Settings, t: int)
    ensures forall s, r :: UpTo(t)(ObserveBy(d)(s, r)) == RowUpTo(t)(r)
  {
  }

  /** Scores of rows in order of time, cut off, are the scores of the rows cut off. */
  lemma ScoresCut(d: Settings, rows: seq<Row>, t: int)
    requires Sorted(Earlier(), rows)
    ensures Keep(UpTo(t), Scores(d, rows)) == Scores(d, Keep(RowUpTo(t), rows))
  {
    ObservationsKeepPeriods(d, t);
    forall i, j | 0 <= i < j < |rows| && RowUpTo(t)(rows[j]) ensures RowUpTo(t)(rows[i]) {
      assert !Earlier()(rows[j], rows[i]);
    }
    OutputsKeep(ObserveBy(d), AdvanceBy(d), START, rows, RowUpTo(t), UpTo(t));
  }

  lemma BlockScoresCut(k: Config, b: Block, t: int)
    ensures Keep(UpTo(t), BlockScores(k, b)) == BlockScores(k, CutBlock(b, t))
  {
    OrdersAreWeak();
    SortSorts(Earlier(), b.rows);
    ScoresCut(k(b.series), Sort(Earlier(), b.rows), t);
    KeepSort(RowUpTo(t), Earlier(), b.rows);
  }

  // ---- all series -------------------------------------------------------------------

  lemma FrameScoresLast(k: Config, frame: seq<Block>, b: Block)
    ensures FrameScores(k, frame + [b]) == FrameScores(k, frame) + BlockScores(k, b)
  {
    assert (frame + [b])[..|frame|] == frame;
  }

  lemma {:induction false} FrameScoresCut(k: Config, frame: seq<Block>, t: int)
    ensures Keep(UpTo(t), FrameScores(k, frame)) == FrameScores(k, CutFrame(frame, t))
  {
    if frame != [] {
      var n := |frame| - 1;
      var last := CutBlock(frame[n], t);
      FrameScoresCut(k, frame[..n], t);
      BlockScoresCut(k, frame[n], t);
      KeepConcat(UpTo(t), FrameScores(k, frame[..n]), BlockScores(k, frame[n]));
      if last.rows == [] {
        assert BlockScores(k, last) == [];
        assert CutFrame(frame, t) == CutFrame(frame[..n], t);
      } else {
        FrameScoresLast(k, CutFrame(frame[..n], t), last);
      }
    }
  }

  // ---- false discovery control ----------------------------------------------------------

  /** The p-values of a family, in order. */
  function FamilyValues(rows: seq<Observation>, f: Family): seq<real> { PValues(rows, Members(rows, f, |rows|)) }

  lemma {:induction false} MembersOfPrefix(rows: seq<Observation>, more: seq<Observation>, f: Family, n: nat)
    requires n <= |rows|
    ensures Members(rows + more, f, n) == Members(rows, f, n)
  {
    if n > 0 {
      MembersOfPrefix(rows, more, f, n - 1);
    }
  }

  lemma FamilyValuesGrow(rows: seq<Observation>, o: Observation, f: Family)
    ensures FamilyValues(rows + [o], f) == FamilyValues(rows, f) + if Belongs(o, f) then [o.pValue.value] else []
    ensures |Members(rows + [o], f, |rows|)| == |FamilyValues(rows, f)|
  {
    MembersOfPrefix(rows, [o], f, |rows|);
  }

  /** A family of a period up to `t` is untouched by the cut. */
  lemma {:induction false} FamilyCut(rows: seq<Observation>, f: Family, t: int)
    requires f.period <= t
    ensures FamilyValues(Keep(UpTo(t), rows), f) == FamilyValues(rows, f)
  {
    if rows != [] {
      var fewer, o := rows[..|rows| - 1], rows[|rows| - 1];
      assert rows == fewer + [o];
      FamilyCut(fewer, f, t);
      FamilyValuesGrow(fewer, o, f);
      KeepLast(UpTo(t), fewer, o);
      FamilyValuesGrow(Keep(UpTo(t), fewer), o, f);
    }
  }

  /** The corrected row, from the values of its family and its position among them. */
  function CorrectedBy(o: Observation, values: seq<real>, position: nat): Observation
    requires Tested(o) ==> position < |values|
  {
    if Tested(o) then o.(qValue := Some(FalseDiscovery.AdjustedValue(Cleaned(values), position))) else o
  }

  lemma CorrectedIsBy(rows: seq<Observation>, more: seq<Observation>, o: Observation)
    ensures var all, f := rows + [o] + more, FamilyOf(o);
            && (Tested(o) ==> |FamilyValues(rows, f)| < |FamilyValues(all, f)|)
            && all[|rows|] == o && Corrected(all, |rows|) == CorrectedBy(o, FamilyValues(all, f), |FamilyValues(rows, f)|)
  {
    var all, f := rows + [o] + more, FamilyOf(o);
    assert all == rows + ([o] + more);
    MembersOfPrefix(rows, [o] + more, f, |rows|);
    if Tested(o) {
      MemberAt(all, f, |rows|, |all|);
    }
  }

  lemma SameCorrection(done: seq<Observation>, o: Observation, more: seq<Observation>, t: int)
    requires o.row.period <= t
    ensures var d, m := Keep(UpTo(t), done), Keep(UpTo(t), more);
            Corrected(done + [o] + more, |done|) == Corrected(d + [o] + m, |d|)
  {
    var d, m := Keep(UpTo(t), done), Keep(UpTo(t), more);
    var f := FamilyOf(o);
    CorrectedIsBy(done, more, o);
    CorrectedIsBy(d, m, o);
    FamilyCut(done, f, t);
    FamilyCut(done + [o] + more, f, t);
    KeepLast(UpTo(t), done, o);
    KeepConcat(UpTo(t), done + [o], more);
  }

  lemma CorrectionIsLocal(t: int)
    ensures Local(CorrectedAmong(), UpTo(t), UpTo(t))
  {
    forall done, o, more
      ensures UpTo(t)(CorrectedAmong()(done, o, more)) == UpTo(t)(o)
      ensures UpTo(t)(o) ==> CorrectedAmong()(done, o, more) == CorrectedAmong()(Keep(UpTo(t), done), o, Keep(UpTo(t), more))
    {
      CorrectedIsBy(done, more, o);
      if o.row.period <= t {
        SameCorrection(done, o, more, t);
      }
    }
  }

  lemma FdrCut(rows: seq<Observation>, t: int)
    ensures Keep(UpTo(t), ApplyFdr(rows)) == ApplyFdr(Keep(UpTo(t), rows))
  {
    CorrectionIsLocal(t);
    EachKeep(CorrectedAmong(), UpTo(t), UpTo(t), [], rows);
  }

  // ---- the whole --------------------------------------------------------------------

  lemma FinalizeCut(k: Config, rows: seq<Observation>, t: int)
    ensures Keep(AlertUpTo(t), Map(FinalizeBy(k), rows)) == Map(FinalizeBy(k), Keep(UpTo(t), rows))
  {
    KeepMap(UpTo(t), AlertUpTo(t), FinalizeBy(k), rows);
  }

  /** Alerts up to a period are the alerts of the frame cut off at that period. */
  lemma AlertsCut(k: Config, frame: seq<Block>, t: int)
    ensures Keep(AlertUpTo(t), Alerts(k, frame)) == Alerts(k, CutFrame(frame, t))
  {
    OrdersAreWeak();
    var scores := FrameScores(k, frame);
    FrameScoresCut(k, frame, t);
    KeepSort(UpTo(t), ByKey(), scores);
    FdrCut(Sort(ByKey(), scores), t);
    KeepSort(UpTo(t), ByKey(), ApplyFdr(Sort(ByKey(), scores)));
    FinalizeCut(k, Sort(ByKey(), ApplyFdr(Sort(ByKey(), scores))), t);
  }

  /** Whatever is changed, added or removed after a period, in whichever series: every score,
      adjusted p-value and alert up to that period stays the same. */
  lemma NothingIsAnticipated(k: Config, frame: seq<Block>, other: seq<Block>, t: int)
    requires CutFrame(frame, t) == CutFrame(other, t)
    ensures Keep(AlertUpTo(t), Alerts(k, frame)) == Keep(AlertUpTo(t), Alerts(k, other))
  {
    AlertsCut(k, frame, t);
    AlertsCut(k, other, t);
  }

  // ---- the order of the rows ----------------------------------------------------------

  /** The rows of a series in order of time. */
  function InOrder(): Block -> Block { (b: Block) => Block(b.series, Sort(Earlier(), b.rows)) }

  /** One block for each series, one row for each of its periods. */
  ghost predicate Keyed(blocks: seq<Block>) {
    && (forall i, j | 0 <= i < j < |blocks| :: blocks[i].series != blocks[j].series)
    && (forall i | 0 <= i < |blocks| :: RowsKeyed(blocks[i]))
  }

  ghost predicate RowsKeyed(b: Block) {
    && (forall r | r in b.rows :: r.series == b.series)
    && (forall i, j | 0 <= i < j < |b.rows| :: b.rows[i].period < b.rows[j].period)
  }

  /** The same series with the same rows, listed in any order. */
  ghost predicate SameRows(frame: seq<Block>, other: seq<Block>) {
    Permuted(Map(InOrder(), frame), Map(InOrder(), other)) && Keyed(Map(InOrder(), frame))
  }

  function ScoresOf(k: Config, b: Block): seq<Observation> { Scores(k(b.series), b.rows) }

  /** Scores of series whose rows are in order. */
  function AllScores(k: Config, blocks: seq<Block>): seq<Observation> { Flatten(ScoresBy(k), blocks) }

  function ScoresBy(k: Config): Block -> seq<Observation> { (b: Block) => ScoresOf(k, b) }

  lemma {:induction false} FrameScoresFlatten(k: Config, frame: seq<Block>)
    ensures FrameScores(k, frame) == Flatten((b: Block) => BlockScores(k, b), frame)
  {
    if frame != [] {
      FrameScoresFlatten(k, frame[..|frame| - 1]);
    }
  }

  lemma FrameScoresInOrder(k: Config, frame: seq<Block>)
    ensures FrameScores(k, frame) == AllScores(k, Map(InOrder(), frame))
  {
    FrameScoresFlatten(k, frame);
    FlattenMap(ScoresBy(k), InOrder(), (b: Block) => BlockScores(k, b), frame);
  }

  lemma {:induction false} ScoreHasRow(k: Config, blocks: seq<Block>, o: Observation) returns (i: nat, j: nat)
    requires o in AllScores(k, blocks)
    ensures i < |blocks| && j < |blocks[i].rows| && ScoresOf(k, blocks[i])[j] == o && o.row == blocks[i].rows[j]
  {
    var n := |blocks| - 1;
    if o in ScoresOf(k, blocks[n]) {
      i := n;
      j :| 0 <= j < |ScoresOf(k, blocks[n])| && ScoresOf(k, blocks[n])[j] == o;
      OutputAt(ObserveBy(k(blocks[n].series)), AdvanceBy(k(blocks[n].series)), START, blocks[n].rows, j);
    } else {
      i, j := ScoreHasRow(k, blocks[..n], o);
    }
  }

  lemma RowsDiffer(blocks: seq<Block>, i: nat, j: nat, i': nat, j': nat)
    requires Keyed(blocks) && i < |blocks| && j < |blocks[i].rows| && i' < |blocks| && j' < |blocks[i'].rows|
    requires i != i' || j != j'
    ensures blocks[i].rows[j].series != blocks[i'].rows[j'].series || blocks[i].rows[j].period != blocks[i'].rows[j'].period
  {
    assert RowsKeyed(blocks[i]) && RowsKeyed(blocks[i']);
    assert blocks[i].rows[j] in blocks[i].rows && blocks[i'].rows[j'] in blocks[i'].rows;
  }

  lemma ScoresAreTold(k: Config, blocks: seq<Block>)
    requires Keyed(blocks)
    ensures Told(ByKey(), AllScores(k, blocks))
  {
    forall o, p | o in AllScores(k, blocks) && p in AllScores(k, blocks) && o != p ensures ByKey()(o, p) || ByKey()(p, o) {
      var i, j := ScoreHasRow(k, blocks, o);
      var i', j' := ScoreHasRow(k, blocks, p);
      RowsDiffer(blocks, i, j, i', j');
    }
  }

  /** The order in which series and their rows are listed does not show in the alerts. */
  lemma AlertsForgetOrder(k: Config, frame: seq<Block>, other: seq<Block>)
    requires SameRows(frame, other)
    ensures Alerts(k, frame) == Alerts(k, other)
  {
    OrdersAreWeak();
    var blocks, blocks' := Map(InOrder(), frame), Map(InOrder(), other);
    FrameScoresInOrder(k, frame);
    FrameScoresInOrder(k, other);
    FlattenPermuted(ScoresBy(k), blocks, blocks');
    ScoresAreTold(k, blocks);
    SortForgetsOrder(ByKey(), AllScores(k, blocks), AllScores(k, blocks'));
  }

  /** ... and nothing is anticipated either where the two frames list them differently. */
  lemma NothingIsAnticipatedInAnyOrder(k: Config, frame: seq<Block>, other: seq<Block>, t: int)
    requires SameRows(CutFrame(frame, t), CutFrame(other, t))
    ensures Keep(AlertUpTo(t), Alerts(k, frame)) == Keep(AlertUpTo(t), Alerts(k, other))
  {
    AlertsCut(k, frame, t);
    AlertsCut(k, other, t);
    AlertsForgetOrder(k, CutFrame(frame, t), CutFrame(other, t));
  }

  // ---- baselines lie in the past ----------------------------------------------------------

  lemma {:induction false} HistoryBefore(d: Settings, rows: seq<Row>)
    requires forall i, j | 0 <= i < j < |rows| :: rows[i].period < rows[j].period
    ensures forall x | x in StateAfter(d, rows).history :: rows != [] && x.period <= rows[|rows| - 1].period
  {
    if rows != [] {
      HistoryBefore(d, rows[..|rows| - 1]);
    }
  }

  /** Where the periods of a series increase, the last period of every baseline lies strictly before
      the period that is scored. */
  lemma BaselineLiesInThePast(d: Settings, rows: seq<Row>, i: nat)
    requires i < |rows| && forall a, b | 0 <= a < b < |rows| :: rows[a].period < rows[b].period
    ensures var o := Scores(d, rows)[i];
            o.row == rows[i] && (o.baselineLast.Some? ==> o.baselineLast.value < o.row.period)
  {
    OutputAt(ObserveBy(d), AdvanceBy(d), START, rows, i);
    HistoryBefore(d, rows[..i]);
    ObservedBaseline(d, StateAfter(d, rows[..i]), rows[i]);
  }

  lemma ObservedBaseline(d: Settings, s: State, r: Row)
    ensures Observe(d, s, r).baselineLast == LastPeriod(s.history)
    ensures s.history != [] ==> s.history[|s.history| - 1] in s.history
  {
  }
}
