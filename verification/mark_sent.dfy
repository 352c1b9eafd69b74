/**
 The script's one pass over the worksheet: for every record, in sheet order,
 whose "Sent" field is exactly "N", it writes the invoice to
 `<invoice directory>/Faktura-<Invoice Number>.pdf` and then sets that
 record's "Sent" cell to "Y". A missing field stops the pass with KeyError;
 what was done before stays done.

 `Pass` says what the pass does to a list of records as a function;
 `MarkRecords` is the loop itself and `SendUnsentInvoices` the block around
 it, both proved to follow `Pass`; the lemmas say what the pass does to a
 sheet.
 */
module MarkSent {
  import opened Sheet
  import opened Invoice

  const SentKey: string := "Sent"
  const NumberKey: string := "Invoice Number"
  const Unsent: string := "N"
  const Marked: string := "Y"

  /** What the pass is observed to do, in order: an invoice file written for
      a record, or a cell of the worksheet updated (1-based address). */
  datatype Effect =
    | Emitted(file: string, record: Record)
    | CellWritten(row: nat, col: nat, value: string)

  datatype Failure =
    | ReadFailed(error: ReadError)
    | KeyMissing(index: nat, key: string)

  /** How the pass treats one record. */
  datatype Step =
    | Skip
    | Process(file: string, row: nat, col: nat, record: Record)
    | Abort(key: string)

  /** The pass's decision for the record at 0-based position `idx`: skip it
      unless "Sent" is exactly "N"; stop on the first field it needs and lacks;
      otherwise write the invoice and mark sheet row idx + 2 in the column
      where the keys hold "Sent". */
  function StepOf(r: Record, idx: nat, dir: string): Step
  {
    match Get(r, SentKey)
    case None => Abort(SentKey)
    case Some(sent) =>
      if sent != Unsent then Skip
      else match Get(r, NumberKey)
        case None => Abort(NumberKey)
        case Some(number) =>
          match FirstMissing(r, RenderFields)
          case Some(j) => Abort(RenderFields[j])
          case None => Process(InvoicePath(dir, number), idx + 2, IndexOf(r.keys, SentKey).value + 1, r)
  }

  /** How the decision depends on the record: it is skipped exactly when
      "Sent" is present and not "N"; it is processed exactly when "Sent" is "N"
      and every field the invoice needs is present, and then it writes the
      invoice to the path built from the invoice number and marks sheet row
      idx + 2 in the column of "Sent"; otherwise it stops on a missing key
      that the record lacks. */
  lemma {:induction false} StepOfDecides(r: Record, idx: nat, dir: string)
    ensures var s := StepOf(r, idx, dir);
            && (s.Skip? <==> Get(r, SentKey).Some? && Get(r, SentKey) != Some(Unsent))
            && (s.Process? <==>
                  Get(r, SentKey) == Some(Unsent) && NumberKey in r.keys && forall k :: k in RenderFields ==> k in r.keys)
            && (s.Process? ==>
                  && 1 <= s.col <= |r.keys| && r.keys[s.col - 1] == SentKey
                  && NumberKey in r.keys && SentKey in r.keys
                  && s == Process(InvoicePath(dir, Get(r, NumberKey).value), idx + 2,
                                  IndexOf(r.keys, SentKey).value + 1, r))
            && (s.Abort? ==>
                  && s.key !in r.keys
                  && (s.key == SentKey || (Get(r, SentKey) == Some(Unsent) && (s.key == NumberKey || s.key in RenderFields))))
  {
  }

  /** The decision for every record, in sheet order. */
  function Steps(records: seq<Record>, dir: string): seq<Step> {
    seq(|records|, i requires 0 <= i < |records| => StepOf(records[i], i, dir))
  }

  datatype Run = Run(failure: Option<Failure>, effects: seq<Effect>)

  /** The pass over the first n decisions: effects in order, and the failure
      that stopped it, if any. */
  function Fold(steps: seq<Step>, n: nat): Run
    requires n <= |steps|
  {
    if n == 0 then Run(None, [])
    else
      var prev := Fold(steps, n - 1);
      if prev.failure.Some? then prev
      else match steps[n - 1]
        case Skip => prev
        case Abort(key) => Run(Some(KeyMissing(n - 1, key)), prev.effects)
        case Process(file, row, col, record) =>
          Run(None, prev.effects + [Emitted(file, record), CellWritten(row, col, Marked)])
  }

  /** The whole pass over a list of records. */
  function Pass(records: seq<Record>, dir: string): Run {
    Fold(Steps(records, dir), |records|)
  }

  /** Once the pass has stopped, later records change nothing. */
  lemma {:induction false} FailureSticks(steps: seq<Step>, m: nat, n: nat)
    requires m <= n <= |steps|
    requires Fold(steps, m).failure.Some?
    ensures Fold(steps, n) == Fold(steps, m)
    decreases n
  {
    if n > m {
      FailureSticks(steps, m, n - 1);
    }
  }

  /** A record that aborts ends the pass there: its failure is the result, and
      the effects of the records before it stand (no rollback). */
  lemma {:induction false} StopsAt(steps: seq<Step>, k: nat)
    requires k < |steps|
    requires Fold(steps, k).failure.None? && steps[k].Abort?
    ensures Fold(steps, |steps|) == Run(Some(KeyMissing(k, steps[k].key)), Fold(steps, k).effects)
  {
    assert Fold(steps, k + 1) == Run(Some(KeyMissing(k, steps[k].key)), Fold(steps, k).effects);
    FailureSticks(steps, k + 1, |steps|);
  }

  /** A pass that stopped did so at one record, the first that aborted, and
      kept what the records before it did. */
  lemma {:induction false} FailureOrigin(steps: seq<Step>, n: nat)
    requires n <= |steps|
    requires Fold(steps, n).failure.Some?
    ensures var f := Fold(steps, n).failure.value;
            && f.KeyMissing? && f.index < n
            && Fold(steps, f.index).failure.None?
            && steps[f.index] == Abort(f.key)
            && Fold(steps, n).effects == Fold(steps, f.index).effects
    decreases n
  {
    if Fold(steps, n - 1).failure.Some? {
      FailureOrigin(steps, n - 1);
    }
  }

  /** A pass that has neither stopped nor done anything skipped every record. */
  lemma {:induction false} QuietPassSkipsAll(steps: seq<Step>, n: nat)
    requires n <= |steps|
    requires Fold(steps, n) == Run(None, [])
    ensures forall i :: 0 <= i < n ==> steps[i].Skip?
    decreases n
  {
    if n > 0 {
      var prev := Fold(steps, n - 1);
      var cur := Fold(steps, n);
      assert prev.failure.None?;
      assert steps[n - 1].Process? ==> |cur.effects| == |prev.effects| + 2;
      QuietPassSkipsAll(steps, n - 1);
    }
  }

  /** A pass in which every record is skipped does nothing. */
  lemma {:induction false} AllSkippedIsQuiet(steps: seq<Step>, n: nat)
    requires n <= |steps|
    requires forall i :: 0 <= i < n ==> steps[i].Skip?
    ensures Fold(steps, n) == Run(None, [])
    decreases n
  {
    if n > 0 {
      AllSkippedIsQuiet(steps, n - 1);
    }
  }

  /** The keys a record must have to be invoiced. */
  predicate HasNeeded(keys: seq<string>) {
    SentKey in keys && NumberKey in keys && forall k :: k in RenderFields ==> k in keys
  }

  /** What a decision reveals about a record's keys: a processed record has
      every key it needs, and one that stops lacks one of them. */
  predicate FitsKeys(step: Step, keys: seq<string>) {
    match step
    case Skip => true
    case Process(_, _, _, _) => HasNeeded(keys)
    case Abort(_) => !HasNeeded(keys)
  }

  /** Decisions that agree on the keys stop before anything is done, if at all:
      once one record was processed, none can lack a key. */
  lemma {:induction false} StopsBeforeWriting(steps: seq<Step>, keys: seq<string>, n: nat)
    requires n <= |steps|
    requires forall i :: 0 <= i < n ==> FitsKeys(steps[i], keys)
    ensures Fold(steps, n).effects != [] ==> HasNeeded(keys)
    ensures Fold(steps, n).failure.Some? ==> Fold(steps, n).effects == []
    decreases n
  {
    if n > 0 {
      StopsBeforeWriting(steps, keys, n - 1);
    }
  }

  /** When every record has the same keys, as records read from one sheet do,
      a pass that stops has done nothing yet: the key it lacks is one every
      unsent record needs, so it stops at the first record that needs it. */
  lemma {:induction false} SharedKeysStopBeforeWriting(records: seq<Record>, dir: string, keys: seq<string>, n: nat)
    requires n <= |records|
    requires forall i :: 0 <= i < |records| ==> records[i].keys == keys
    ensures Fold(Steps(records, dir), n).effects != [] ==> HasNeeded(keys)
    ensures Fold(Steps(records, dir), n).failure.Some? ==> Fold(Steps(records, dir), n).effects == []
  {
    var steps := Steps(records, dir);
    forall i | 0 <= i < n ensures FitsKeys(steps[i], keys) {
      StepOfDecides(records[i], i, dir);
    }
    StopsBeforeWriting(steps, keys, n);
  }

  /** The table the pass leaves behind once it has handled records 0..n-1
      (sheet rows 2..n+1): each of those rows whose "Sent" cell read "N" now
      reads "Y"; every other cell is as it was. */
  function MarkUnsentUpTo(cells: seq<seq<string>>, n: nat): (r: seq<seq<string>>)
    requires Rectangular(cells)
    ensures |r| == |cells| && Rectangular(r) && (|cells| > 0 ==> r[0] == cells[0])
    ensures forall i :: 0 <= i < |r| ==> |r[i]| == |cells[i]|
  {
    if |cells| == 0 then cells
    else match IndexOf(cells[0], SentKey)
      case None => cells
      case Some(s) =>
        seq(|cells|, i requires 0 <= i < |cells| =>
          if 1 <= i <= n && cells[i][s] == Unsent then cells[i][s := Marked] else cells[i])
  }

  /** What marking changes: only "Sent" cells of handled rows that read "N",
      each now "Y"; and every such cell is changed. */
  lemma {:induction false} MarkedCells(cells: seq<seq<string>>, n: nat)
    requires Rectangular(cells)
    ensures var r := MarkUnsentUpTo(cells, n);
            forall i, j :: 0 <= i < |r| && 0 <= j < |r[i]| && r[i][j] != cells[i][j] ==>
              1 <= i <= n && cells[0][j] == SentKey && cells[i][j] == Unsent && r[i][j] == Marked
    ensures |cells| > 0 && SentKey in cells[0] ==>
              var s := IndexOf(cells[0], SentKey).value;
              forall i :: 1 <= i < |cells| && i <= n && cells[i][s] == Unsent ==> MarkUnsentUpTo(cells, n)[i][s] == Marked
  {
  }

  /** The table after a pass over every record. */
  function MarkUnsent(cells: seq<seq<string>>): seq<seq<string>>
    requires Rectangular(cells)
  {
    MarkUnsentUpTo(cells, |cells|)
  }

  /** Once every record is handled, nothing is left to mark. */
  lemma {:induction false} MarkedAll(cells: seq<seq<string>>, n: nat)
    requires Rectangular(cells) && |cells| <= n + 1
    ensures MarkUnsentUpTo(cells, n) == MarkUnsent(cells)
  {
    if |cells| > 0 && SentKey in cells[0] {
      forall i | 0 <= i < |cells| ensures MarkUnsentUpTo(cells, n)[i] == MarkUnsent(cells)[i] { }
    }
  }

  /** Marking one more row: a row whose "Sent" cell does not read "N" changes
      nothing, and one that does is marked by a single cell write in the
      "Sent" column. */
  lemma {:induction false} MarkNext(cells: seq<seq<string>>, n: nat)
    requires Rectangular(cells) && n + 1 < |cells| && SentKey in cells[0]
    ensures var s := IndexOf(cells[0], SentKey).value;
            var before := MarkUnsentUpTo(cells, n);
            && (cells[n + 1][s] != Unsent ==> MarkUnsentUpTo(cells, n + 1) == before)
            && (cells[n + 1][s] == Unsent ==>
                  && InGrid(before, n + 2, s + 1)
                  && SetCell(before, n + 2, s + 1, Marked) == MarkUnsentUpTo(cells, n + 1))
  {
    var s := IndexOf(cells[0], SentKey).value;
    var before := MarkUnsentUpTo(cells, n);
    var after := MarkUnsentUpTo(cells, n + 1);
    if cells[n + 1][s] != Unsent {
      forall i | 0 <= i < |cells| ensures after[i] == before[i] { }
    } else {
      var written := SetCell(before, n + 2, s + 1, Marked);
      forall i | 0 <= i < |cells| ensures written[i] == after[i] {
        if i == n + 1 {
          assert written[i] == cells[i][s := Marked];
        }
      }
    }
  }

  /** Handling the record at 0-based position idx takes the table from
      "records before idx handled" to "records up to idx handled": a skipped
      record changes nothing, and a processed one is marked by the single
      cell write at sheet row idx + 2 in the "Sent" column. */
  lemma {:induction false} MarkStep(cells: seq<seq<string>>, dir: string, idx: nat)
    requires Rectangular(cells) && ReadRecords(cells).Ok? && idx < |ReadRecords(cells).value|
    ensures var step := StepOf(ReadRecords(cells).value[idx], idx, dir);
            var before := MarkUnsentUpTo(cells, idx);
            && (step.Skip? ==> MarkUnsentUpTo(cells, idx + 1) == before)
            && (step.Process? ==>
                  && InGrid(before, step.row, step.col)
                  && SetCell(before, step.row, step.col, Marked) == MarkUnsentUpTo(cells, idx + 1))
  {
    var r := ReadRecords(cells).value[idx];
    var step := StepOf(r, idx, dir);
    if !step.Abort? {
      var s := IndexOf(cells[0], SentKey).value;
      assert r.keys == cells[0] && r.values == cells[idx + 1];
      assert Get(r, SentKey) == Some(cells[idx + 1][s]);
      assert step.Process? ==> step.row == idx + 2 && step.col == s + 1;
      MarkNext(cells, idx);
    }
  }

  /** What handling one record according to its step does: the failure it
      raises, the effects it performs in order, and the table before and
      after (a skipped or failing record leaves the table alone; a processed
      one is invoiced, then marked by one cell write). */
  ghost predicate Handled(step: Step, idx: nat, before: seq<seq<string>>,
                          failure: Option<Failure>, done: seq<Effect>, after: seq<seq<string>>)
  {
    match step
    case Skip => failure == None && done == [] && after == before
    case Abort(key) => failure == Some(KeyMissing(idx, key)) && done == [] && after == before
    case Process(file, row, col, r) =>
      && failure == None && done == [Emitted(file, r), CellWritten(row, col, Marked)]
      && InGrid(before, row, col) && after == SetCell(before, row, col, Marked)
  }

  /** What one turn of the loop does to the run and to the table, given what
      it did to the record at `idx`: the run and the table move on by that
      record, or the run stops there with the table as it was. */
  lemma {:induction false} LoopStep(cells: seq<seq<string>>, dir: string, idx: nat, steps: seq<Step>, effects: seq<Effect>,
                 stop: Option<Failure>, done: seq<Effect>, after: seq<seq<string>>)
    requires Rectangular(cells) && ReadRecords(cells).Ok? && idx < |ReadRecords(cells).value| == |steps|
    requires steps[idx] == StepOf(ReadRecords(cells).value[idx], idx, dir)
    requires Run(None, effects) == Fold(steps, idx)
    requires Handled(steps[idx], idx, MarkUnsentUpTo(cells, idx), stop, done, after)
    ensures stop.None? ==>
              && Run(None, effects + done) == Fold(steps, idx + 1)
              && after == MarkUnsentUpTo(cells, idx + 1)
    ensures stop.Some? ==>
              && Run(stop, effects + done) == Fold(steps, |steps|)
              && stop.value.KeyMissing? && stop.value.index == idx && after == MarkUnsentUpTo(cells, idx)
  {
    MarkStep(cells, dir, idx);
    if stop.Some? {
      StopsAt(steps, idx);
    }
  }

  /** The body of the loop (main.py lines 122-127) for the record at `idx`:
      returns the failure it raised, if any, and what it did, in order. */
  method ApplyStep(ws: Worksheet, record: Record, idx: nat, invoiceDirectory: string)
    returns (failure: Option<Failure>, done: seq<Effect>)
    requires ws.Valid() && idx + 2 <= |ws.cells| && |ws.cells[0]| == |record.keys|
    modifies ws
    ensures ws.Valid()
    ensures Handled(StepOf(record, idx, invoiceDirectory), idx, old(ws.cells), failure, done, ws.cells)
  {
    var sent := Get(record, SentKey);
    if sent.None? {
      return Some(KeyMissing(idx, SentKey)), [];
    }
    if sent.value != Unsent {
      return None, [];
    }
    var number := Get(record, NumberKey);
    if number.None? {
      return Some(KeyMissing(idx, NumberKey)), [];
    }
    var outputFile := InvoicePath(invoiceDirectory, number.value);
    // create_invoice reads the record's fields before it writes the file
    var missing := FirstMissing(record, RenderFields);
    if missing.Some? {
      return Some(KeyMissing(idx, RenderFields[missing.value])), [];
    }
    done := [Emitted(outputFile, record)];
    var col := IndexOf(record.keys, SentKey).value + 1;
    ws.UpdateCell(idx + 2, col, Marked);
    done := done + [CellWritten(idx + 2, col, Marked)];
    failure := None;
  }

  /** One turn of the loop over the records read from `cells`, with records
      before `idx` handled and `steps` the decision for each record: the run
      and the table move on by record `idx`, or the run stops there with its
      outcome final and the table as it was. */
  method HandleRecord(ws: Worksheet, ghost cells: seq<seq<string>>, records: seq<Record>, idx: nat,
                      invoiceDirectory: string, ghost steps: seq<Step>, ghost effects: seq<Effect>)
    returns (failure: Option<Failure>, done: seq<Effect>)
    requires Rectangular(cells) && ReadRecords(cells) == Ok(records) && idx < |records| == |steps|
    requires steps[idx] == StepOf(records[idx], idx, invoiceDirectory)
    requires Run(None, effects) == Fold(steps, idx)
    requires ws.Valid() && ws.cells == MarkUnsentUpTo(cells, idx)
    modifies ws
    ensures ws.Valid()
    ensures failure.None? ==>
              && Run(None, effects + done) == Fold(steps, idx + 1)
              && ws.cells == MarkUnsentUpTo(cells, idx + 1)
    ensures failure.Some? ==>
              && Run(failure, effects + done) == Fold(steps, |steps|)
              && failure.value.KeyMissing? && failure.value.index == idx && ws.cells == MarkUnsentUpTo(cells, idx)
  {
    failure, done := ApplyStep(ws, records[idx], idx, invoiceDirectory);
    LoopStep(cells, invoiceDirectory, idx, steps, effects, failure, done, ws.cells);
  }

  /** The loop over the records read from the worksheet, `steps` being the
      decision for each: for each unsent record, write its invoice and mark
      its "Sent" cell "Y". Returns the failure that stopped it, if any, and
      the effects in the order they happened. */
  method MarkRecords(ws: Worksheet, records: seq<Record>, invoiceDirectory: string, ghost steps: seq<Step>)
    returns (failure: Option<Failure>, effects: seq<Effect>)
    requires ws.Valid() && ReadRecords(ws.cells) == Ok(records)
    requires |steps| == |records|
    requires forall i {:trigger StepOf(records[i], i, invoiceDirectory)} :: 0 <= i < |records| ==>
               steps[i] == StepOf(records[i], i, invoiceDirectory)
    modifies ws
    ensures ws.Valid()
    ensures Run(failure, effects) == Fold(steps, |steps|)
    ensures failure.None? ==> ws.cells == MarkUnsentUpTo(old(ws.cells), |records|)
    ensures failure.Some? ==>
              failure.value.KeyMissing? && ws.cells == MarkUnsentUpTo(old(ws.cells), failure.value.index)
  {
    failure, effects := None, [];
    var idx := 0;
    while idx < |records|
      invariant 0 <= idx <= |records|
      invariant failure == None
      invariant Run(None, effects) == Fold(steps, idx)
      invariant ws.Valid() && ws.cells == MarkUnsentUpTo(old(ws.cells), idx)
    {
      var stop, done := HandleRecord(ws, old(ws.cells), records, idx, invoiceDirectory, steps, effects);
      effects := effects + done;
      if stop.Some? {
        failure := stop;
        return;
      }
      idx := idx + 1;
    }
  }

  /** The `__main__` block (main.py lines 115-128): read the records, then
      run the loop over them. A header naming a column twice is refused by
      the read, before anything is done. */
  method SendUnsentInvoices(ws: Worksheet, invoiceDirectory: string) returns (failure: Option<Failure>, effects: seq<Effect>)
    requires ws.Valid()
    modifies ws
    ensures ws.Valid()
    ensures ReadRecords(old(ws.cells)).Err? ==>
              && failure == Some(ReadFailed(ReadRecords(old(ws.cells)).error))
              && effects == [] && ws.cells == old(ws.cells)
    ensures ReadRecords(old(ws.cells)).Ok? ==>
              && Run(failure, effects) == Pass(ReadRecords(old(ws.cells)).value, invoiceDirectory)
              && (failure.None? ==> ws.cells == MarkUnsent(old(ws.cells)))
              && (failure.Some? ==> failure.value.KeyMissing? && ws.cells == MarkUnsentUpTo(old(ws.cells), failure.value.index))
  {
    var read := ReadRecords(ws.cells);
    if read.Err? {
      return Some(ReadFailed(read.error)), [];
    }
    failure, effects := MarkRecords(ws, read.value, invoiceDirectory, Steps(read.value, invoiceDirectory));
    MarkedAll(old(ws.cells), |read.value|);
  }
}
