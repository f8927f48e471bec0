// From the entries the producers reserved to the lines in the log files: queue,
// consumer thread and file rotation together.
module LogOutput {
  import Q = TicketQueue
  import D = DaemonLogger
  import L = LogRotation
  import S = LogService
  import C = LogConsumer
  import R = LogRuns

  // The lines of these entries, malformed ones left out.
  function Rendered(values: seq<Q.Value>, f: S.Format): seq<string> {
    if values == [] then []
    else
      var slot := f.decode(values[|values| - 1]);
      Rendered(values[..|values| - 1], f) + if D.Skipped(slot) then [] else [f.render(slot)]
  }

  // The writes of the entries handed over.
  function Writes(handed: seq<S.Handed>, f: S.Format): seq<L.Entry> {
    if handed == [] then []
    else
      var h := handed[|handed| - 1];
      var slot := f.decode(h.entry);
      Writes(handed[..|handed| - 1], f) + if D.Skipped(slot) then [] else [L.Entry(f.render(slot), h.io)]
  }

  lemma {:induction false} AfterSnoc(l: L.Log, run: seq<L.Entry>, e: L.Entry)
    ensures L.After(l, run + [e]) == L.Write(L.After(l, run), e.line, e.io)
    decreases run
  {
    hide L.Write;
    if run == [] {
      assert run + [e] == [e] && [e][1..] == [];
    } else {
      assert (run + [e])[1..] == run[1..] + [e];
      AfterSnoc(L.Write(l, run[0].line, run[0].io), run[1..], e);
    }
  }

  lemma {:induction false} OutputsAreWrites(l: L.Log, handed: seq<S.Handed>, f: S.Format)
    ensures S.Outputs(l, handed, f) == L.After(l, Writes(handed, f))
    decreases handed
  {
    hide L.Write;
    if handed != [] {
      var rest, h := handed[..|handed| - 1], handed[|handed| - 1];
      OutputsAreWrites(l, rest, f);
      var slot := f.decode(h.entry);
      if D.Skipped(slot) {
        assert Writes(rest, f) + [] == Writes(rest, f);
      } else {
        AfterSnoc(l, Writes(rest, f), L.Entry(f.render(slot), h.io));
      }
    }
  }

  lemma {:induction false} LinesSnoc(run: seq<L.Entry>, e: L.Entry)
    ensures L.Lines(run + [e]) == L.Lines(run) + [e.line]
  {
    if run == [] {
      assert run + [e] == [e] && [e][1..] == [];
    } else {
      assert (run + [e])[1..] == run[1..] + [e];
      LinesSnoc(run[1..], e);
    }
  }

  lemma {:induction false} LinesOfWrites(handed: seq<S.Handed>, values: seq<Q.Value>, f: S.Format)
    requires |values| == |handed| && forall i :: 0 <= i < |handed| ==> handed[i].entry == values[i]
    ensures L.Lines(Writes(handed, f)) == Rendered(values, f)
    decreases handed
  {
    if handed != [] {
      var n := |handed| - 1;
      LinesOfWrites(handed[..n], values[..n], f);
      var slot := f.decode(values[n]);
      if D.Skipped(slot) {
        assert Writes(handed[..n], f) + [] == Writes(handed[..n], f);
      } else {
        LinesSnoc(Writes(handed[..n], f), L.Entry(f.render(slot), handed[n].io));
      }
    }
  }

  // The values of the entries handed over.
  ghost function Values(r: S.Record, q: Q.Queue): seq<Q.Value> {
    if r.first < q.deq <= |q.tickets| then q.tickets[r.first..q.deq] else []
  }

  lemma HandedValues(r: S.Record, q: Q.Queue, l: L.Log, handed: seq<S.Handed>, f: S.Format)
    requires S.Accounted(r, q, l, handed, f)
    ensures l == S.Outputs(r.log, handed, f) && |handed| == q.deq - r.first == |Values(r, q)|
    ensures forall i :: 0 <= i < |handed| ==> handed[i].entry == Values(r, q)[i]
  {
    if |handed| > 0 { assert handed[|handed| - 1].entry == q.tickets[r.first + (|handed| - 1)]; }
    assert l == S.Outputs(r.log, handed, f);
  }

  // What the consumer has handed over is in the log, line by line and in the order
  // of reservation: the rotated files in order and then the current one hold what
  // was there at first and then the lines of the entries up to the head.
  lemma WrittenInOrder(r: S.Record, q: Q.Queue, l: L.Log, handed: seq<S.Handed>, f: S.Format)
    requires S.Accounted(r, q, l, handed, f)
    requires L.SizeOk(r.log) && L.Intact(r.log) && r.log.path !in r.log.backups && r.log.size <= r.log.maxSize
    requires L.AllSmooth(r.log, Writes(handed, f))
    ensures |Values(r, q)| == q.deq - r.first
    ensures L.Everything(l) == L.Everything(r.log) + Rendered(Values(r, q), f)
    ensures L.Intact(l) && L.SizeOk(l) && l.size <= l.maxSize
  {
    HandedValues(r, q, l, handed, f);
    hide *;
    OutputsAreWrites(r.log, handed, f);
    LinesOfWrites(handed, Values(r, q), f);
    L.RotationConserves(r.log, Writes(handed, f));
  }

  // A stamped message of one of the five levels.
  predicate Proper(slot: D.Slot) {
    slot.timestampNs != 0 && slot.msg != "" && exists level :: slot.level == D.Code(level)
  }

  // Of such entries every one has its line.
  lemma {:induction false} OneLineEach(values: seq<Q.Value>, f: S.Format)
    requires forall i :: 0 <= i < |values| ==> Proper(f.decode(values[i]))
    ensures |Rendered(values, f)| == |values|
    ensures forall i :: 0 <= i < |values| ==> Rendered(values, f)[i] == f.render(f.decode(values[i]))
    decreases values
  {
    if values != [] {
      OneLineEach(values[..|values| - 1], f);
      D.SkippedIff(f.decode(values[|values| - 1]));
    }
  }

  // After a drain with no reservation uncommitted, that is every entry ever
  // accepted.
  lemma AllWritten(s: C.State, r: S.Record, l: L.Log, handed: seq<S.Handed>, f: S.Format)
    requires C.Inv(s) && C.CONSUMER !in s.q.ops && !C.HeadReady(s.q.q) && s.q.q.writing == map[]
    requires r.first == 0 && S.Accounted(r, s.q.q, l, handed, f)
    requires L.SizeOk(r.log) && L.Intact(r.log) && r.log.path !in r.log.backups && r.log.size <= r.log.maxSize
    requires L.AllSmooth(r.log, Writes(handed, f))
    ensures R.AllDelivered(s.q.q)
    ensures L.Everything(l) == L.Everything(r.log) + Rendered(s.q.q.tickets, f)
  {
    R.LeftBehind(s);
    WrittenInOrder(r, s.q.q, l, handed, f);
    assert s.q.q.deq == |s.q.q.tickets|;
    assert Values(r, s.q.q) == s.q.q.tickets;
  }
}
