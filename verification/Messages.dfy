/**
Where the messages are. Each message is in exactly one place, and messages leave the queue in the
order in which they were accepted.
*/
module Messages {
  import opened Wrappers
  import opened Events
  import opened Core
  import opened Protocol

  function Bodies(taken: seq<Taken>): (ms: seq<Message>)
    ensures |ms| == |taken|
    ensures forall i :: 0 <= i < |ms| ==> ms[i] == taken[i].msg
  {
    seq(|taken|, i requires 0 <= i < |taken| => taken[i].msg)
  }

  /** First in, first out, over the whole run. */
  ghost predicate Fifo(s: State) {
    s.history.accepted == Bodies(s.history.taken) + s.core.queue
  }

  /** The call has got its message into the queue. */
  predicate Delivered(p: Proc) {
    p.Send? && ((p.send.Finished? && p.send.sent) || (p.send.Released? && p.send.sent))
  }

  /** A call that ends without sending hands back the message it was given, and one that sends does not. */
  predicate GivesBack(p: Proc) {
    && (p.Send? && p.send.Finished? ==> p.send.back == if p.send.sent then None else Some(p.msg))
    && (p.Send? && p.send.Released? && p.send.back.Some? ==> !p.send.sent && p.send.back == Some(p.msg))
  }

  /** An accepted message belongs to exactly one call, which knows that it succeeded. */
  ghost predicate Owned(s: State) {
    && (forall t :: t in s.threads && s.threads[t].proc.Send? ==> s.threads[t].proc.msg.tag == t)
    && (forall t :: t in s.threads && s.threads[t].proc.Send? ==>
          (Delivered(s.threads[t].proc) <==> s.threads[t].proc.msg in s.history.accepted))
    && (forall m :: m in s.history.accepted ==>
          m.tag in s.threads && s.threads[m.tag].proc.Send? && s.threads[m.tag].proc.msg == m)
    && (forall t :: t in s.threads ==> GivesBack(s.threads[t].proc))
  }

  ghost predicate NoDuplicates(ms: seq<Message>) {
    forall i, j :: 0 <= i < j < |ms| ==> ms[i] != ms[j]
  }

  /** What an inbox was handed is what it took from the queue. */
  predicate Holding(p: Proc, m: Message) {
    p.Inbox? && (p.recv == Settling(Got(m)) || p.recv == Idle(Got(m)))
  }

  ghost predicate Receipts(s: State) {
    forall t, m :: t in s.threads && Holding(s.threads[t].proc, m) ==> Taken(t, m, true) in s.history.taken
  }

  // ---------------------------------------------------------------------------------------
  // One thread
  // ---------------------------------------------------------------------------------------

  /** Every step, seen by the queue and the history. */
  lemma PerformMoves(c: Core, t: Tid, th: Thread, act: Act)
    requires Can(th, act)
    ensures var e := Perform(c, t, th, act);
            match e.note
            case Accepted(m) =>
              && e.core.queue == c.queue + [m] && PushAnswer(c) == None
              && th.proc.Send? && th.proc.msg == m && !Delivered(th.proc)
            case Took(m, received) =>
              c.queue != [] && c.queue[0] == m && e.core.queue == c.queue[1..]
            case _ => e.core.queue == c.queue
  {
    hide Notify, Without, Listen, Remove, Drop;
  }

  lemma PerformSends(c: Core, t: Tid, th: Thread, act: Act)
    requires Can(th, act) && GivesBack(th.proc)
    ensures var e := Perform(c, t, th, act);
            && GivesBack(e.thread.proc)
            && (th.proc.Send? <==> e.thread.proc.Send?)
            && (th.proc.Send? ==> e.thread.proc.msg == th.proc.msg)
            && (Delivered(e.thread.proc) <==> Delivered(th.proc) || e.note.Accepted?)
  {
    hide Notify, Without, Listen, Remove, Drop;
  }

  lemma PerformReceives(c: Core, t: Tid, th: Thread, act: Act, m: Message)
    requires Can(th, act) && Holding(Perform(c, t, th, act).thread.proc, m)
    ensures Holding(th.proc, m) || Perform(c, t, th, act).note == Took(m, true)
  {
    hide Notify, Without, Listen, Remove, Drop;
  }

  // ---------------------------------------------------------------------------------------
  // All threads
  // ---------------------------------------------------------------------------------------

  lemma StepKeepsFifo(s: State, step: Step)
    requires Fifo(s) && Enabled(s, step)
    ensures Fifo(Apply(s, step))
  {
    if step.On? {
      var e := Perform(s.core, step.t, s.threads[step.t], step.act);
      PerformMoves(s.core, step.t, s.threads[step.t], step.act);
      match e.note
      case Accepted(m) =>
        assert Bodies(s.history.taken) + (s.core.queue + [m]) == (Bodies(s.history.taken) + s.core.queue) + [m];
      case Took(m, received) =>
        assert Bodies(s.history.taken + [Taken(step.t, m, received)]) == Bodies(s.history.taken) + [m];
        assert s.core.queue == [m] + e.core.queue;
      case _ =>
    }
  }

  lemma StepKeepsOwned(s: State, step: Step)
    requires Owned(s) && Enabled(s, step)
    ensures Owned(Apply(s, step))
  {
    var s' := Apply(s, step);
    if step.On? {
      var t, th := step.t, s.threads[step.t];
      PerformMoves(s.core, t, th, step.act);
      PerformSends(s.core, t, th, step.act);
    }
  }

  lemma StepKeepsDistinct(s: State, step: Step)
    requires NoDuplicates(s.history.accepted) && Owned(s) && Enabled(s, step)
    ensures NoDuplicates(Apply(s, step).history.accepted)
  {
    if step.On? {
      PerformMoves(s.core, step.t, s.threads[step.t], step.act);
    }
  }

  lemma StepKeepsReceipts(s: State, step: Step)
    requires Receipts(s) && Enabled(s, step)
    ensures Receipts(Apply(s, step))
  {
    var s' := Apply(s, step);
    forall t, m | t in s'.threads && Holding(s'.threads[t].proc, m)
      ensures Taken(t, m, true) in s'.history.taken
    {
      if t != step.t {
        assert Holding(s.threads[t].proc, m);
      } else if step.On? {
        PerformReceives(s.core, t, s.threads[t], step.act, m);
      }
    }
  }
}
