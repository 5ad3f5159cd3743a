/**
 * The progress reporters `print_progress` (src/clone.c:97-107), its adapter
 * `fetch_progress` (src/clone.c:109-111) and `checkout_progress`
 * (src/clone.c:118-127), and the push status line `remote_message`
 * (src/clone.c:113-116).
 *
 * Each reporter keeps a function-level `static prev`, shared by every
 * operation of the process, and writes to R's error stream only when the
 * reported count differs from `prev`. Every call first polls for a user
 * interrupt; the poll is recorded as a line of its own.
 */
module Progress {
  import opened Wrappers

  /** What a reporter writes to R's error stream. */
  datatype Line =
    | Poll                                // R_CheckUserInterrupt()
    | Transferred(cur: nat, tot: nat)     // "\rTransferred %d of %d objects..."
    | TransferDone                        // "done!\n"
    | CheckedOut(cur: nat, tot: nat)      // "\rChecked out %d of %d commits..."
    | CheckoutDone                        // " done!\n"
    | Status(refname: string, status: string)   // "[status] %s: %s\n"

  datatype Reporter = Transfer | Checkout

  predicate IsDone(l: Line) { l.TransferDone? || l.CheckoutDone? }

  predicate IsUpdate(l: Line) { l.Transferred? || l.CheckedOut? }

  /** What one report of `cur` of `tot` writes after its poll, given the stored `prev`. */
  function Lines(kind: Reporter, prev: nat, cur: nat, tot: nat): (lines: seq<Line>)
    ensures lines == [] <==> prev == cur
    ensures lines != [] ==> IsUpdate(lines[0]) && lines[0].cur == cur && lines[0].tot == tot
    ensures |lines| == 2 <==> prev != cur && cur == tot
    ensures |lines| <= 2 && (|lines| == 2 ==> IsDone(lines[1]))
    ensures lines != [] ==> (lines[0].Transferred? <==> kind == Transfer)
    ensures |lines| == 2 ==> (lines[1].TransferDone? <==> kind == Transfer)
  {
    if prev == cur then []
    else
      match kind
      case Transfer => [Transferred(cur, tot)] + (if cur == tot then [TransferDone] else [])
      case Checkout => [CheckedOut(cur, tot)] + (if cur == tot then [CheckoutDone] else [])
  }

  /** A report: the count reached and the total. */
  datatype Report = Report(cur: nat, tot: nat)

  /** Everything a sequence of reports writes, starting from the stored value `prev`. */
  function Replay(kind: Reporter, prev: nat, reports: seq<Report>): (out: seq<Line>)
    ensures |reports| <= |out| <= 3 * |reports|
    ensures reports != [] ==> out[0] == Poll
    decreases |reports|
  {
    if reports == [] then []
    else [Poll] + Lines(kind, prev, reports[0].cur, reports[0].tot) + Replay(kind, reports[0].cur, reports[1..])
  }

  /** The number of completion lines in an output. */
  function DoneCount(out: seq<Line>): nat {
    if out == [] then 0 else (if IsDone(out[0]) then 1 else 0) + DoneCount(out[1..])
  }

  lemma {:induction false} DoneCountAppend(a: seq<Line>, b: seq<Line>)
    ensures DoneCount(a + b) == DoneCount(a) + DoneCount(b)
  {
    if a != [] {
      assert (a + b)[0] == a[0] && (a + b)[1..] == a[1..] + b;
      DoneCountAppend(a[1..], b);
    } else {
      assert a + b == b;
    }
  }

  /** `n` reports of the same count. */
  function Repeated(cur: nat, tot: nat, n: nat): (rs: seq<Report>)
    ensures |rs| == n && forall i :: 0 <= i < n ==> rs[i] == Report(cur, tot)
  {
    seq(n, _ => Report(cur, tot))
  }

  /** Repeating the stored count writes nothing but the polls. */
  lemma {:induction false} RepeatsAreSilent(kind: Reporter, cur: nat, tot: nat, n: nat)
    ensures Replay(kind, cur, Repeated(cur, tot, n)) == seq(n, _ => Poll)
  {
    if n > 0 {
      assert Repeated(cur, tot, n)[1..] == Repeated(cur, tot, n - 1);
      RepeatsAreSilent(kind, cur, tot, n - 1);
    }
  }

  /**
   * Reaching the total and staying there writes exactly one completion line,
   * however many identical reports follow (starting from a different stored value).
   */
  lemma CompletionWrittenOnce(kind: Reporter, prev: nat, tot: nat, n: nat)
    requires prev != tot && n >= 1
    ensures DoneCount(Replay(kind, prev, Repeated(tot, tot, n))) == 1
  {
    var rs := Repeated(tot, tot, n);
    var first := [Poll] + Lines(kind, prev, tot, tot);
    assert rs[1..] == Repeated(tot, tot, n - 1);
    RepeatsAreSilent(kind, tot, tot, n - 1);
    DoneCountAppend(first, seq(n - 1, _ => Poll));
    DoneCountSilent(n - 1);
    assert DoneCount(first) == 1 by {
      assert |first| == 3 && !IsDone(first[0]) && IsUpdate(first[1]) && IsDone(first[2]);
      assert first[1..][1..][1..] == [];
      assert DoneCount(first[1..][1..]) == 1;
    }
  }

  lemma {:induction false} DoneCountSilent(n: nat)
    ensures DoneCount(seq(n, _ => Poll)) == 0
  {
    if n > 0 {
      assert seq(n, _ => Poll)[1..] == seq(n - 1, _ => Poll);
      DoneCountSilent(n - 1);
    }
  }

  /** Every call polls for an interrupt: a replay holds one poll per report, stalled or not. */
  lemma {:induction false} EveryReportPolls(kind: Reporter, prev: nat, reports: seq<Report>)
    ensures PollCount(Replay(kind, prev, reports)) == |reports|
    decreases |reports|
  {
    if reports != [] {
      var head := [Poll] + Lines(kind, prev, reports[0].cur, reports[0].tot);
      var tail := Replay(kind, reports[0].cur, reports[1..]);
      PollCountAppend(head, tail);
      EveryReportPolls(kind, reports[0].cur, reports[1..]);
      assert PollCount(head) == 1 by {
        assert head[1..] == Lines(kind, prev, reports[0].cur, reports[0].tot);
        PollsInLines(kind, prev, reports[0].cur, reports[0].tot);
      }
    }
  }

  function PollCount(out: seq<Line>): nat {
    if out == [] then 0 else (if out[0].Poll? then 1 else 0) + PollCount(out[1..])
  }

  lemma {:induction false} PollCountAppend(a: seq<Line>, b: seq<Line>)
    ensures PollCount(a + b) == PollCount(a) + PollCount(b)
  {
    if a != [] {
      assert (a + b)[0] == a[0] && (a + b)[1..] == a[1..] + b;
      PollCountAppend(a[1..], b);
    } else {
      assert a + b == b;
    }
  }

  lemma PollsInLines(kind: Reporter, prev: nat, cur: nat, tot: nat)
    ensures PollCount(Lines(kind, prev, cur, tot)) == 0
  {
    var ls := Lines(kind, prev, cur, tot);
    if ls != [] {
      assert PollCount(ls[1..]) == 0 by {
        if |ls| == 2 { assert ls[1..][1..] == []; }
      }
    }
  }

  /** `git_transfer_progress`, of which only the object counts are read. */
  datatype TransferStats = TransferStats(receivedObjects: nat, totalObjects: nat)

  /** `remote_message`: the push status line, "unchanged" when the status is NULL. */
  function RemoteMessage(refname: string, status: Option<string>): (l: Line)
    ensures l.Status? && l.refname == refname
    ensures status.Some? ==> l.status == status.value
    ensures status.None? ==> l.status == "unchanged"
  {
    Status(refname, if status.Some? then status.value else "unchanged")
  }

  /** The process-wide state of `print_progress`: its `static prev`, and what it has written. */
  class TransferReporter {
    var prev: nat
    var out: seq<Line>

    /** Process start: `static size_t prev = 0`. */
    constructor ()
      ensures prev == 0 && out == []
    {
      prev := 0;
      out := [];
    }

    /** `print_progress`: always returns 0. */
    method PrintProgress(cur: nat, tot: nat) returns (status: int)
      modifies this
      ensures status == 0
      ensures prev == cur
      ensures out == old(out) + Replay(Transfer, old(prev), [Report(cur, tot)])
    {
      out := out + [Poll];
      if prev != cur {
        prev := cur;
        out := out + [Transferred(cur, tot)];
        if cur == tot {
          out := out + [TransferDone];
        }
      }
      status := 0;
    }

    /** `fetch_progress`: reports the received and total object counts. */
    method FetchProgress(stats: TransferStats) returns (status: int)
      modifies this
      ensures status == 0
      ensures prev == stats.receivedObjects
      ensures out == old(out) + Replay(Transfer, old(prev), [Report(stats.receivedObjects, stats.totalObjects)])
    {
      status := PrintProgress(stats.receivedObjects, stats.totalObjects);
    }
  }

  /** The process-wide state of `checkout_progress`. */
  class CheckoutReporter {
    var prev: nat
    var out: seq<Line>

    constructor ()
      ensures prev == 0 && out == []
    {
      prev := 0;
      out := [];
    }

    /** `checkout_progress`: the path being checked out is not reported. */
    method CheckoutProgress(path: Option<string>, cur: nat, tot: nat)
      modifies this
      ensures prev == cur
      ensures out == old(out) + Replay(Checkout, old(prev), [Report(cur, tot)])
    {
      out := out + [Poll];
      if prev != cur {
        prev := cur;
        out := out + [CheckedOut(cur, tot)];
        if cur == tot {
          out := out + [CheckoutDone];
        }
      }
    }
  }

  /**
   * A fresh process reporting the same transfer count twice: the second
   * report writes only its poll, and a count of 0 (equal to the initial
   * `prev`) writes nothing at all, not even on completion.
   */
  method ReportTwice(cur: nat, tot: nat) returns (out: seq<Line>)
    ensures cur != 0 ==> out == [Poll, Transferred(cur, tot)] + (if cur == tot then [TransferDone] else []) + [Poll]
    ensures cur == 0 ==> out == [Poll, Poll]
  {
    var reporter := new TransferReporter();
    var _ := reporter.PrintProgress(cur, tot);
    var _ := reporter.PrintProgress(cur, tot);
    out := reporter.out;
  }
}
