/**
 What one pass does to a worksheet, stated about the sheet: which records are
 invoiced and in which order, which cells are written, what a stopped pass
 leaves behind, and that running the script again right after a completed
 pass does nothing.
 */
module PassProperties {
  import opened Sheet
  import opened Invoice
  import opened MarkSent

  /** Positions below n of the records whose "Sent" field is exactly "N", in
      sheet order. */
  function UnsentBefore(records: seq<Record>, n: nat): (u: seq<nat>)
    requires n <= |records|
    ensures forall k :: 0 <= k < |u| ==> u[k] < n && Get(records[u[k]], SentKey) == Some(Unsent)
    ensures forall i :: 0 <= i < n && Get(records[i], SentKey) == Some(Unsent) ==> i in u
    ensures forall k, l :: 0 <= k < l < |u| ==> u[k] < u[l]
    decreases n
  {
    if n == 0 then []
    else if Get(records[n - 1], SentKey) == Some(Unsent) then UnsentBefore(records, n - 1) + [n - 1]
    else UnsentBefore(records, n - 1)
  }

  /** A pass that has not stopped met no record that stops it. */
  lemma {:induction false} NoFailureNoAbort(steps: seq<Step>, n: nat)
    requires n <= |steps| && Fold(steps, n).failure.None?
    ensures forall i :: 0 <= i < n ==> !steps[i].Abort?
    decreases n
  {
    if n > 0 {
      NoFailureNoAbort(steps, n - 1);
    }
  }

  /** Positions below n of the decisions that process their record, in
      order. */
  function ProcessedBefore(steps: seq<Step>, n: nat): (p: seq<nat>)
    requires n <= |steps|
    ensures forall k :: 0 <= k < |p| ==> p[k] < n && steps[p[k]].Process?
    ensures forall i :: 0 <= i < n && steps[i].Process? ==> i in p
    ensures forall k, l :: 0 <= k < l < |p| ==> p[k] < p[l]
    decreases n
  {
    if n == 0 then []
    else if steps[n - 1].Process? then ProcessedBefore(steps, n - 1) + [n - 1]
    else ProcessedBefore(steps, n - 1)
  }

  /** Until it stops, the pass does two things per processed decision, in
      order: writes its invoice, then its cell. */
  lemma {:induction false} EffectsInOrder(steps: seq<Step>, n: nat)
    requires n <= |steps| && Fold(steps, n).failure.None?
    ensures var e := Fold(steps, n).effects;
            var p := ProcessedBefore(steps, n);
            && |e| == 2 * |p|
            && forall k :: 0 <= k < |p| ==>
                 && e[2 * k] == Emitted(steps[p[k]].file, steps[p[k]].record)
                 && e[2 * k + 1] == CellWritten(steps[p[k]].row, steps[p[k]].col, Marked)
    decreases n
  {
    if n > 0 {
      var prev := Fold(steps, n - 1);
      assert prev.failure.None?;
      EffectsInOrder(steps, n - 1);
      var e := Fold(steps, n).effects;
      var p := ProcessedBefore(steps, n);
      var pp := ProcessedBefore(steps, n - 1);
      if steps[n - 1].Process? {
        assert p == pp + [n - 1];
        forall k | 0 <= k < |p|
          ensures && e[2 * k] == Emitted(steps[p[k]].file, steps[p[k]].record)
                  && e[2 * k + 1] == CellWritten(steps[p[k]].row, steps[p[k]].col, Marked)
        {
          if k < |pp| {
            assert e[2 * k] == prev.effects[2 * k] && e[2 * k + 1] == prev.effects[2 * k + 1];
          }
        }
      }
    }
  }

  /** Decisions that process exactly the records whose "Sent" is "N" process
      them at the positions of those records. */
  lemma {:induction false} ProcessedMatchUnsent(steps: seq<Step>, records: seq<Record>, n: nat)
    requires n <= |steps| && n <= |records|
    requires forall i :: 0 <= i < n ==> (steps[i].Process? <==> Get(records[i], SentKey) == Some(Unsent))
    ensures ProcessedBefore(steps, n) == UnsentBefore(records, n)
    decreases n
  {
    if n > 0 {
      ProcessedMatchUnsent(steps, records, n - 1);
    }
  }

  /** `steps` decides for `records` as the pass does, as far as the order of
      the effects is concerned: a record is processed exactly when its "Sent"
      is "N", and then with its invoice path, its row and its "Sent" column. */
  ghost predicate DecidesLikePass(steps: seq<Step>, records: seq<Record>, dir: string, n: nat)
    requires n <= |steps| && n <= |records|
  {
    forall i :: 0 <= i < n ==>
      && (steps[i].Process? <==> Get(records[i], SentKey) == Some(Unsent))
      && (steps[i].Process? ==>
            && NumberKey in records[i].keys && SentKey in records[i].keys
            && steps[i] == Process(InvoicePath(dir, Get(records[i], NumberKey).value), i + 2,
                                   IndexOf(records[i].keys, SentKey).value + 1, records[i]))
  }

  /** The order of the effects, for any decisions that decide like the pass. */
  lemma {:induction false} EmitsInSheetOrderFor(steps: seq<Step>, records: seq<Record>, dir: string, n: nat)
    requires n <= |steps| && n <= |records|
    requires Fold(steps, n).failure.None? && DecidesLikePass(steps, records, dir, n)
    ensures var e := Fold(steps, n).effects;
            var u := UnsentBefore(records, n);
            && |e| == 2 * |u|
            && forall k :: 0 <= k < |u| ==>
                 && NumberKey in records[u[k]].keys
                 && e[2 * k] == Emitted(InvoicePath(dir, Get(records[u[k]], NumberKey).value), records[u[k]])
                 && e[2 * k + 1] == CellWritten(u[k] + 2, IndexOf(records[u[k]].keys, SentKey).value + 1, Marked)
    decreases n
  {
    EffectsInOrder(steps, n);
    ProcessedMatchUnsent(steps, records, n);
  }

  /** Until it stops, the pass decides as `DecidesLikePass` says. */
  lemma {:induction false} StepsDecideLikePass(records: seq<Record>, dir: string, n: nat)
    requires n <= |records| && Fold(Steps(records, dir), n).failure.None?
    ensures DecidesLikePass(Steps(records, dir), records, dir, n)
  {
    var steps := Steps(records, dir);
    NoFailureNoAbort(steps, n);
    forall i | 0 <= i < n
      ensures && (steps[i].Process? <==> Get(records[i], SentKey) == Some(Unsent))
              && (steps[i].Process? ==>
                    && NumberKey in records[i].keys && SentKey in records[i].keys
                    && steps[i] == Process(InvoicePath(dir, Get(records[i], NumberKey).value), i + 2,
                                           IndexOf(records[i].keys, SentKey).value + 1, records[i]))
    {
      assert steps[i] == StepOf(records[i], i, dir);
      StepOfDecides(records[i], i, dir);
    }
  }

  /** Until it stops, the pass invoices exactly the records whose "Sent" is
      "N", one invoice each, in sheet order, under the path built from the
      record's invoice number, and marks each record's "Sent" cell (row
      position + 2, column of "Sent") right after writing its invoice. */
  lemma {:induction false} EmitsInSheetOrder(records: seq<Record>, dir: string, n: nat)
    requires n <= |records|
    requires Fold(Steps(records, dir), n).failure.None?
    ensures var e := Fold(Steps(records, dir), n).effects;
            var u := UnsentBefore(records, n);
            && |e| == 2 * |u|
            && forall k :: 0 <= k < |u| ==>
                 && NumberKey in records[u[k]].keys
                 && e[2 * k] == Emitted(InvoicePath(dir, Get(records[u[k]], NumberKey).value), records[u[k]])
                 && e[2 * k + 1] == CellWritten(u[k] + 2, IndexOf(records[u[k]].keys, SentKey).value + 1, Marked)
  {
    StepsDecideLikePass(records, dir, n);
    EmitsInSheetOrderFor(Steps(records, dir), records, dir, n);
  }

  /** Handling records that are all skipped leaves the table as it was. */
  lemma {:induction false} SkippedRowsUnmarked(cells: seq<seq<string>>, dir: string, n: nat)
    requires Rectangular(cells) && ReadRecords(cells).Ok? && n <= |ReadRecords(cells).value|
    requires forall i :: 0 <= i < n ==> StepOf(ReadRecords(cells).value[i], i, dir).Skip?
    ensures MarkUnsentUpTo(cells, n) == cells
    decreases n
  {
    if n == 0 {
      forall i | 0 <= i < |cells| ensures MarkUnsentUpTo(cells, 0)[i] == cells[i] { }
    } else {
      SkippedRowsUnmarked(cells, dir, n - 1);
      MarkStep(cells, dir, n - 1);
    }
  }

  /** On a worksheet every record has the header's keys, so a pass that stops
      on a missing key stops before its first invoice: it has done nothing,
      and the table it leaves is the table it read. */
  lemma {:induction false} FailureWritesNothing(cells: seq<seq<string>>, dir: string)
    requires Rectangular(cells) && ReadRecords(cells).Ok?
    requires Pass(ReadRecords(cells).value, dir).failure.Some?
    ensures var run := Pass(ReadRecords(cells).value, dir);
            && run.effects == []
            && run.failure.value.KeyMissing?
            && MarkUnsentUpTo(cells, run.failure.value.index) == cells
  {
    var records := ReadRecords(cells).value;
    var steps := Steps(records, dir);
    assert |records| > 0;
    SharedKeysStopBeforeWriting(records, dir, cells[0], |records|);
    FailureOrigin(steps, |records|);
    var f := Fold(steps, |records|).failure.value.index;
    QuietPassSkipsAll(steps, f);
    forall i | 0 <= i < f ensures StepOf(records[i], i, dir).Skip? {
      assert steps[i] == StepOf(records[i], i, dir);
    }
    SkippedRowsUnmarked(cells, dir, f);
  }

  /** Every write among effects `e` is the "Sent" cell of a record whose
      "Sent" read "N", it is set to "Y", and the effect just before it is the
      invoice for that very row. */
  ghost predicate WritesMarkUnsent(cells: seq<seq<string>>, e: seq<Effect>) {
    forall k :: 0 <= k < |e| && e[k].CellWritten? ==>
      && e[k].value == Marked
      && InGrid(cells, e[k].row, e[k].col) && InGrid(cells, 1, e[k].col)
      && Cell(cells, 1, e[k].col) == SentKey
      && Cell(cells, e[k].row, e[k].col) == Unsent
      && 0 < k && e[k - 1].Emitted? && e[k - 1].record.values == cells[e[k].row - 1]
  }

  /** Effects in the order `EmitsInSheetOrder` gives, for records read from a
      worksheet, write only "Sent" cells of unsent rows, each after its
      invoice. */
  lemma {:induction false} OrderedWritesMarkUnsent(cells: seq<seq<string>>, e: seq<Effect>)
    requires Rectangular(cells) && ReadRecords(cells).Ok?
    requires var records := ReadRecords(cells).value;
             var u := UnsentBefore(records, |records|);
             && |e| == 2 * |u|
             && forall k :: 0 <= k < |u| ==>
                  && e[2 * k].Emitted? && e[2 * k].record == records[u[k]]
                  && e[2 * k + 1] == CellWritten(u[k] + 2, IndexOf(records[u[k]].keys, SentKey).value + 1, Marked)
    ensures WritesMarkUnsent(cells, e)
  {
    var records := ReadRecords(cells).value;
    var u := UnsentBefore(records, |records|);
    forall k | 0 <= k < |e| && e[k].CellWritten?
      ensures && e[k].value == Marked
              && InGrid(cells, e[k].row, e[k].col) && InGrid(cells, 1, e[k].col)
              && Cell(cells, 1, e[k].col) == SentKey
              && Cell(cells, e[k].row, e[k].col) == Unsent
              && 0 < k && e[k - 1].Emitted? && e[k - 1].record.values == cells[e[k].row - 1]
    {
      var j := k / 2;
      var r := records[u[j]];
      assert e[2 * j].Emitted? && e[2 * j].record == r;
      assert k == 2 * j + 1;
      assert e[k] == CellWritten(u[j] + 2, IndexOf(r.keys, SentKey).value + 1, Marked);
      assert r.keys == cells[0] && r.values == cells[u[j] + 1];
      FieldIsCell(cells, u[j], SentKey);
    }
  }

  /** Every cell the pass writes on a worksheet is the "Sent" cell of a record
      whose "Sent" read "N", it is set to "Y", and the effect just before it
      is the invoice for that very row. */
  lemma {:induction false} WritesMarkInvoicedRows(cells: seq<seq<string>>, dir: string)
    requires Rectangular(cells) && ReadRecords(cells).Ok?
    ensures WritesMarkUnsent(cells, Pass(ReadRecords(cells).value, dir).effects)
  {
    var records := ReadRecords(cells).value;
    var run := Pass(records, dir);
    if run.failure.Some? {
      FailureWritesNothing(cells, dir);
    } else {
      EmitsInSheetOrder(records, dir, |records|);
      OrderedWritesMarkUnsent(cells, run.effects);
    }
  }

  /** Running the script again right after a pass that completed does
      nothing: no record of the updated sheet reads "N" any more. */
  lemma {:induction false} RerunIsNoOp(cells: seq<seq<string>>, dir: string)
    requires Rectangular(cells) && ReadRecords(cells).Ok?
    requires Pass(ReadRecords(cells).value, dir).failure.None?
    ensures Rectangular(MarkUnsent(cells)) && ReadRecords(MarkUnsent(cells)).Ok?
    ensures Pass(ReadRecords(MarkUnsent(cells)).value, dir) == Run(None, [])
  {
    var records := ReadRecords(cells).value;
    var marked := MarkUnsent(cells);
    var again := ReadRecords(marked).value;
    if |again| > 0 {
      NoFailureNoAbort(Steps(records, dir), |records|);
      assert Steps(records, dir)[0] == StepOf(records[0], 0, dir);
      StepOfDecides(records[0], 0, dir);
      var s := IndexOf(cells[0], SentKey).value;
      forall i | 0 <= i < |again| ensures StepOf(again[i], i, dir).Skip? {
        assert again[i].keys == cells[0] && again[i].values == marked[i + 1];
        assert marked[i + 1][s] != Unsent;
        StepOfDecides(again[i], i, dir);
      }
      var steps := Steps(again, dir);
      forall i | 0 <= i < |again| ensures steps[i].Skip? {
        assert steps[i] == StepOf(again[i], i, dir);
      }
      AllSkippedIsQuiet(steps, |again|);
    }
  }
}
