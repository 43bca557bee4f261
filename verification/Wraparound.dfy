/**
 * Command numbers come around.  A target that completes a command long after it was aborted hands back another one, if
 * 2^32 - 1 commands have been accepted in between: here is how a run gets there.
 */
module Wraparound {
  import opened Bytes
  import opened Wire
  import opened Queue
  import opened Scsi
  import opened Engine
  import opened Protocol
  import opened Invariant
  import opened Steps
  import opened Guarantees

  /** Nothing is pending in the live session. */
  ghost predicate Drained(w: World) {
    w.sess.Some? && w.sess.value.ready && w.sess.value.queue == []
  }

  /** As w, but n commands later. */
  ghost predicate Later(w: World, n: nat, w': World) {
    && Drained(w) && Drained(w') && w'.sess.value.base == w.sess.value.base
    && w'.files == w.files && w'.regs == w.regs && |w'.reqs| == |w.reqs| + n
  }

  lemma AcceptedAlone(w: World, r: Request)
    requires Safe(w) && Drained(w) && WellFormed(r)
    ensures Enabled(w, Submit(r, true))
    ensures var w' := NextSubmit(w, r, true);
            && Safe(w') && w'.sess.Some? && w'.sess.value.ready && w'.sess.value.base == w.sess.value.base
            && |w'.sess.value.queue| == 1 && w'.sess.value.queue[0].gid == |w.reqs|
            && w'.files == w.files && w'.regs == w.regs && |w'.reqs| == |w.reqs| + 1
            && r.sc in w'.ptr && w'.ptr[r.sc] == |w.reqs|
  {
    hide Shaped, QueueOk, Pointers, Accounted, Holders, HeadersInOrder, Lifetime, StreamsOk, WellFormed;
    SubmitKeeps(w, r, true);
  }

  /** A command is accepted and aborted. */
  lemma ChurnOnce(w: World, r: Request)
    requires Safe(w) && Drained(w) && WellFormed(r)
    ensures Enabled(w, Submit(r, true)) && Safe(NextSubmit(w, r, true))
    ensures NextSubmit(w, r, true).sess.Some? && NextSubmit(w, r, true).regs == w.regs
    ensures Safe(NextAbort(NextSubmit(w, r, true), r.sc)) && Later(w, 1, NextAbort(NextSubmit(w, r, true), r.sc))
  {
    hide Safe, NextSubmit, WellFormed;
    AcceptedAlone(w, r);
    AbortKeeps(NextSubmit(w, r, true), r.sc);
  }

  lemma SafeShaped(w: World)
    requires Safe(w)
    ensures Shaped(w)
  {
  }

  /** So any number of commands can come and go while a target keeps what it holds. */
  lemma {:induction false} Churn(luns: seq<Lun>, ws: seq<World>, ls: seq<Label>, r: Request, n: nat)
    returns (ws': seq<World>, ls': seq<Label>)
    requires Run(luns, ws, ls) && Drained(ws[|ls|]) && WellFormed(r)
    ensures Run(luns, ws', ls') && ws <= ws' && Later(ws[|ls|], n, ws'[|ls'|])
  {
    hide Safe, Shaped, NextSubmit, NextAbort, WellFormed;
    if n == 0 {
      ws', ls' := ws, ls;
    } else {
      ws', ls' := Churn(luns, ws, ls, r, n - 1);
      RunsAreSafe(luns, ws', ls', |ls'|);
      var w := ws'[|ls'|];
      ChurnOnce(w, r);
      SafeShaped(w);
      Extend(luns, ws', ls', Submit(r, true));
      var w1 := NextSubmit(w, r, true);
      ws', ls' := ws' + [w1], ls' + [Submit(r, true)];
      SafeShaped(w1);
      Extend(luns, ws', ls', Abort(r.sc));
      ws', ls' := ws' + [NextAbort(w1, r.sc)], ls' + [Abort(r.sc)];
    }
  }

  /** A target has run a command that is no longer pending, nor is anything else, and its number has not come around. */
  ghost predicate HoldsStale(w: World, f: nat) {
    f in w.files && w.files[f].pc == Executed && Drained(w) && |w.reqs| <= w.files[f].gid + NUMBERS
  }

  /** The run ws' continues ws, and its last step hands back another command than the one target f ran. */
  ghost predicate EndsMisdirected(luns: seq<Lun>, ws: seq<World>, f: nat, ws': seq<World>, ls': seq<Label>) {
    && Run(luns, ws', ls') && ws <= ws' && |ls'| > 0 && ls'[|ls'| - 1] == Complete(f)
    && f in ws'[|ls'| - 1].files && HandsBackAnother(ws'[|ls'| - 1], f, ws'[|ls'|])
  }

  /** Every such run can go on until the target's completion hands back a command it has never seen. */
  lemma StaleCompletionHappens(luns: seq<Lun>, ws: seq<World>, ls: seq<Label>, f: nat, r: Request)
    requires Run(luns, ws, ls) && HoldsStale(ws[|ls|], f) && WellFormed(r)
    ensures exists ws', ls' :: EndsMisdirected(luns, ws, f, ws', ls')
  {
    hide Safe, Shaped, NextSubmit, NextComplete, WellFormed, Impostor;
    RunsAreSafe(luns, ws, ls, |ls|);
    var gid := ws[|ls|].files[f].gid;
    var ws', ls' := Churn(luns, ws, ls, r, gid + NUMBERS - |ws[|ls|].reqs|);
    RunsAreSafe(luns, ws', ls', |ls'|);
    var w := ws'[|ls'|];
    SafeShaped(w);
    AcceptedAlone(w, r);
    Extend(luns, ws', ls', Submit(r, true));
    var w1 := NextSubmit(w, r, true);
    ws', ls' := ws' + [w1], ls' + [Submit(r, true)];
    HeldNumber(w1, f);
    CameAround(w1.sess.value.queue, w1.sess.value.base, gid);
    StaleCompletionMisdirects(w1, f);
    ws', ls' := CompletionFollows(luns, ws', ls', f);
    assert EndsMisdirected(luns, ws, f, ws', ls');
  }

  /** The run goes on with a completion. */
  lemma CompletionFollows(luns: seq<Lun>, ws: seq<World>, ls: seq<Label>, f: nat) returns (ws': seq<World>, ls': seq<Label>)
    requires Run(luns, ws, ls) && Safe(ws[|ls|]) && f in ws[|ls|].files && ws[|ls|].files[f].pc == Executed
    ensures Shaped(ws[|ls|])
    ensures Run(luns, ws', ls') && ws' == ws + [NextComplete(ws[|ls|], f)] && ls' == ls + [Complete(f)]
  {
    hide Safe, Shaped, NextComplete;
    var w := ws[|ls|];
    SafeShaped(w);
    CompleteRegs(w, f);
    Extend(luns, ws, ls, Complete(f));
    ws', ls' := ws + [NextComplete(w, f)], ls + [Complete(f)];
  }

  lemma CompleteRegs(w: World, f: nat)
    requires Shaped(w) && Enabled(w, Complete(f))
    ensures NextComplete(w, f).regs == w.regs
  {
    hide WellFormed, IndexOfNum, Completion, CompletedNum, Flushed, WithoutStreams, Patch, ReplyBytes, Below, Remove;
  }

  lemma CameAround(q: seq<Task>, base: nat, gid: nat)
    requires |q| == 1 && q[0].gid == gid + NUMBERS && base <= gid
    ensures Impostor(q, base, gid, 0)
  {
    var d := gid - base;
    assert d == d / NUMBERS * NUMBERS + d % NUMBERS;
    assert d + NUMBERS == (d / NUMBERS + 1) * NUMBERS + d % NUMBERS;
  }
}
