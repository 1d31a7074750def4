/**
What the calls answer. Under every interleaving the answer of a receive is the answer of the halt counter or of the
queue at one moment of the call, and every message taken for receiving, like every halt, is answered exactly once
to the caller of the inbox that took it.
*/
module Answers {
  import opened Wrappers
  import opened Events
  import opened Core
  import opened Protocol
  import opened Counting
  import opened Wakeups
  import opened Verdicts
  import opened Halting

  // ---------------------------------------------------------------------------------------
  // One step: the moment of the answer
  // ---------------------------------------------------------------------------------------

  /** The verdict that an inbox has reached, returned already or about to be. */
  function Decided(p: Proc): Option<Verdict> {
    if p.Inbox? && p.recv.Settling? then Some(p.recv.verdict)
    else if p.Inbox? && p.recv.Idle? then Some(p.recv.latest)
    else None
  }

  /** The queue has nothing for a receiver, now. */
  predicate NothingThere(c: Core) {
    c.queue == [] && !c.closed
  }

  /**
  A step of an attempt to receive either decides the call or leaves the message where it is. It decides it with
  the head of the queue, which it takes; with Halted, for a credit that it takes; with ClosedAndEmpty, if the
  queue is closed and empty at this moment; and outside a future with Empty, if it is empty and open. Without a
  decision the same attempt goes on, unless the queue is empty and open at this moment.
  */
  lemma AnswerIsTrueWhenDecided(c: Core, t: Tid, th: Thread)
    requires th.todo == [] && th.proc.Inbox? && th.proc.recv.Trying?
    ensures var e := Perform(c, t, th, Run);
            var verdict := Decided(e.thread.proc);
            var attempt := th.proc.recv.attempt;
            && verdict != Some(NoVerdict)
            && (forall m :: verdict == Some(Got(m)) <==> e.note == Took(m, true))
            && (verdict == Some(Refused(Halted)) <==> e.note.ToldHalt?)
            && (forall m :: verdict == Some(Got(m))
                  ==> c.queue != [] && m == c.queue[0] && e.core.queue == c.queue[1..])
            && (verdict == Some(Refused(Halted)) ==> c.haltCount > 0 && e.core.haltCount == c.haltCount - 1)
            && (verdict == Some(Refused(ClosedAndEmpty)) ==> c.closed && c.queue == [])
            && (verdict == Some(Refused(Empty)) ==> NothingThere(c) && (attempt.Once? || attempt.Checked?))
            && (verdict.None? ==> e.core.queue == c.queue && e.note == Nothing)
            && (verdict.None? && !NothingThere(c)
                ==> e.thread.proc.Inbox? && e.thread.proc.recv.Trying? && e.thread.proc.recv.attempt == attempt)
  {
    hide Notify, Without, Listen, Remove, Drop;
  }

  /** Where a send has ended: whether it was sent, if it has ended. */
  function Ended(p: Proc): Option<bool> {
    if p.Send? && p.send.Finished? then Some(p.send.sent) else None
  }

  /**
  A step of a send ends it with success exactly when it puts the message at the end of an open queue with
  room; with a failure only if the queue is closed at this moment, or outside a future if it is full or back
  pressure applies at this moment.
  */
  lemma SendEndsTruly(c: Core, t: Tid, th: Thread)
    requires th.todo == [] && th.proc.Send? && (th.proc.send.Pushing? || th.proc.send.Checking?)
    ensures var e := Perform(c, t, th, Run);
            var once := th.proc.send.Pushing? && (th.proc.send.attempt.Once? || th.proc.send.attempt.Checked?);
            && (Ended(e.thread.proc) == Some(true)
                <==> th.proc.send.Pushing? && !c.closed && (c.capacity.Bounded? ==> |c.queue| < c.capacity.size))
            && (Ended(e.thread.proc) == Some(true)
                ==> e.note == Accepted(th.proc.msg) && e.core.queue == c.queue + [th.proc.msg])
            && (Ended(e.thread.proc) == Some(false)
                <==> || (th.proc.send.Checking? && MustWait(c))
                     || (th.proc.send.Pushing? && c.closed)
                     || (once && c.capacity.Bounded? && |c.queue| >= c.capacity.size))
            && (Ended(e.thread.proc) != Some(true) ==> e.core == c && e.note == Nothing)
  {
    hide Notify, Without, Listen, Remove, Drop, MustWait;
  }

  /** Inside the poll of a receive or of a bounded send. */
  predicate InLoop(p: Proc) {
    match p
    case Inbox(_, pc) => (pc.Trying? && !pc.attempt.Once? && !pc.attempt.Checked?) || pc.Registering? || pc.Looking?
    case Send(_, pc) =>
      (pc.Pushing? && !pc.attempt.Once? && !pc.attempt.Checked?) || pc.SendRegistering? || pc.SendLooking?
    case _ => false
  }

  /** A future that has a result still has to give its listener back. */
  predicate IsSettling(p: Proc) {
    p.Inbox? && p.recv.Settling?
  }

  /**
  A poll of a receive or of a bounded send never gives up: it goes on, or has a result, or parks, and it parks only
  while its listener is not notified. A result that was reached is the one that is returned.
  */
  lemma PollNeverGivesUp(c: Core, t: Tid, th: Thread)
    requires th.todo == [] && (InLoop(th.proc) || IsSettling(th.proc))
    ensures var p := Perform(c, t, th, Run).thread.proc;
            && (|| InLoop(p)
                || (p.Inbox? && Decided(p).Some? && (Decided(p) != Some(NoVerdict) || IsSettling(th.proc)))
                || Ended(p).Some?
                || (p.Inbox? && p.recv.Parked? && t !in c.recvEvent.woken)
                || (p.Send? && p.send.SendParked? && t !in c.sendEvent.woken))
            && (IsSettling(th.proc) ==> !IsSettling(p) && Decided(p) == Decided(th.proc))
  {
    hide Notify, Without, Listen, Remove, Drop;
  }

  /** Inside one poll of an address. */
  predicate PollsExit(p: Proc) {
    p.Address? && (p.watch.FirstCheck? || p.watch.Listening? || p.watch.SecondCheck? || p.watch.Watching?)
  }

  /**
  The poll of an address ends with an answer or parked: with the answer only after the exit, and always if a check finds
  the exit; parked only on a listener that is registered and not notified.
  */
  lemma ExitPollEndsProperly(c: Core, t: Tid, th: Thread)
    requires th.todo == [] && PollsExit(th.proc) && Relies(c, th) && ExitOnlyAtEnd(c)
    ensures var e := Perform(c, t, th, Run);
            && (PollsExit(e.thread.proc)
                || (e.thread.proc.Address? && (e.thread.proc.watch.Waiting? || e.thread.proc.watch.Exited?)))
            && (e.thread.proc.watch.Exited? ==> c.inboxCount == 0)
            && (e.thread.proc.watch.Waiting? ==> t !in c.exitEvent.woken)
            && (c.inboxCount == 0 && (th.proc.watch.FirstCheck? || th.proc.watch.SecondCheck?)
                ==> e.thread.proc.watch.Exited?)
            && (t in c.exitEvent.woken && th.proc.watch.Watching? ==> e.thread.proc.watch.Exited?)
  {
    hide Notify, Without, Listen, Remove, Drop;
  }

  // ---------------------------------------------------------------------------------------
  // Whole runs: every message and every halt is answered once
  // ---------------------------------------------------------------------------------------

  function Gots(v: Option<Verdict>): seq<Message> {
    if v.Some? && v.value.Got? then [v.value.msg] else []
  }

  function Halts(v: Option<Verdict>): nat {
    One(v == Some(Refused(Halted)))
  }

  /** The verdict that a future has reached but not returned yet. */
  function Unreturned(th: Thread): Option<Verdict> {
    if th.proc.Inbox? && th.proc.recv.Settling? then Some(th.proc.recv.verdict) else None
  }

  /** The messages that inbox t took for receiving, in order. */
  function TakenBy(taken: seq<Taken>, t: Tid): seq<Message> {
    if taken == [] then []
    else
      var last := taken[|taken| - 1];
      TakenBy(taken[..|taken| - 1], t) + if last.taker == t && last.received then [last.msg] else []
  }

  /** The messages that inbox t returned to its callers, in order. */
  function ReturnedBy(answers: seq<Answer>, t: Tid): seq<Message> {
    if answers == [] then []
    else
      var last := answers[|answers| - 1];
      ReturnedBy(answers[..|answers| - 1], t) + if last.inbox == t then Gots(Some(last.verdict)) else []
  }

  /** How often inbox t returned Halted to a caller. */
  function HaltsReturnedBy(answers: seq<Answer>, t: Tid): nat {
    if answers == [] then 0
    else
      var last := answers[|answers| - 1];
      HaltsReturnedBy(answers[..|answers| - 1], t) + if last.inbox == t then Halts(Some(last.verdict)) else 0
  }

  function UnreturnedBy(s: State, t: Tid): Option<Verdict> {
    if t in s.threads then Unreturned(s.threads[t]) else None
  }

  ghost predicate MessagesAnswered(s: State, t: Tid) {
    TakenBy(s.history.taken, t) == ReturnedBy(s.history.answers, t) + Gots(UnreturnedBy(s, t))
  }

  ghost predicate HaltsAnswered(s: State, t: Tid) {
    HaltsReturnedBy(s.history.answers, t) + Halts(UnreturnedBy(s, t))
    == One(t in s.threads && Counts(SignaledInboxes, s.threads[t]))
  }

  ghost predicate AllAnswered(s: State) {
    && (forall t :: MessagesAnswered(s, t))
    && (forall t :: HaltsAnswered(s, t))
  }

  function TakenNow(n: Note): seq<Message> {
    if n.Took? && n.received then [n.m] else []
  }

  /** A call on an inbox that never leaves with nothing to say: its verdict is what it took, kept until it returns. */
  lemma PerformAnswers(c: Core, t: Tid, th: Thread, act: Act)
    requires Can(th, act) && Honest(th.proc)
    ensures var e := Perform(c, t, th, act);
            var returned := Returned(th, e.thread);
            && Gots(returned) + Gots(Unreturned(e.thread)) == Gots(Unreturned(th)) + TakenNow(e.note)
            && Halts(returned) + Halts(Unreturned(e.thread)) == Halts(Unreturned(th)) + One(e.note.ToldHalt?)
  {
    hide Notify, Without, Listen, Remove, Drop, RunNext, RunInbox;
    if act.Run? && th.todo == [] {
      match th.proc
      case Inbox(signaled, pc) => InboxAnswers(c, t, signaled, pc);
      case _ => OthersTakeNothing(c, t, th.proc);
    }
  }

  lemma InboxAnswers(c: Core, t: Tid, signaled: bool, pc: RecvPc)
    requires HasNext(Inbox(signaled, pc))
    ensures var e := RunNext(c, t, Inbox(signaled, pc));
            var returned := Returned(Thread([], Inbox(signaled, pc)), e.thread);
            var before := Unreturned(Thread([], Inbox(signaled, pc)));
            && Gots(returned) + Gots(Unreturned(e.thread)) == Gots(before) + TakenNow(e.note)
            && Halts(returned) + Halts(Unreturned(e.thread)) == Halts(before) + One(e.note.ToldHalt?)
  {
    hide Notify, Without, Listen, Remove, Drop;
  }

  lemma OthersTakeNothing(c: Core, t: Tid, p: Proc)
    requires !p.Inbox?
    ensures var e := RunNext(c, t, p);
            !e.thread.proc.Inbox? && TakenNow(e.note) == [] && !e.note.ToldHalt?
  {
    hide Notify, Without, Listen, Remove, Drop;
  }

  lemma ReplyGrows(answers: seq<Answer>, x: Answer, t: Tid)
    ensures ReturnedBy(answers + [x], t)
            == ReturnedBy(answers, t) + if x.inbox == t then Gots(Some(x.verdict)) else []
    ensures HaltsReturnedBy(answers + [x], t)
            == HaltsReturnedBy(answers, t) + if x.inbox == t then Halts(Some(x.verdict)) else 0
  {
    assert (answers + [x])[..|answers|] == answers;
  }

  lemma TakenGrows(taken: seq<Taken>, x: Taken, t: Tid)
    ensures TakenBy(taken + [x], t)
            == TakenBy(taken, t) + if x.taker == t && x.received then [x.msg] else []
  {
    assert (taken + [x])[..|taken|] == taken;
  }

  lemma RecordTakes(h: History, t: Tid, before: Core, note: Note, u: Tid)
    ensures var h' := Record(h, t, before, note);
            && h'.answers == h.answers
            && TakenBy(h'.taken, u) == TakenBy(h.taken, u) + if u == t then TakenNow(note) else []
  {
    if note.Took? {
      TakenGrows(h.taken, Taken(t, note.m, note.received), u);
    }
  }

  lemma ReplyReturns(h: History, t: Tid, v: Option<Verdict>, u: Tid)
    ensures var h' := Reply(h, t, v);
            && h'.taken == h.taken
            && ReturnedBy(h'.answers, u) == ReturnedBy(h.answers, u) + (if u == t then Gots(v) else [])
            && HaltsReturnedBy(h'.answers, u) == HaltsReturnedBy(h.answers, u) + (if u == t then Halts(v) else 0)
  {
    if v.Some? {
      ReplyGrows(h.answers, Answer(t, v.value), u);
    }
  }

  lemma AfterStaysAnswered(s: State, t: Tid, act: Act, u: Tid)
    requires t in s.threads && Can(s.threads[t], act) && Honest(s.threads[t].proc)
    requires MessagesAnswered(s, u) && HaltsAnswered(s, u)
    ensures var s' := Apply(s, On(t, act)); MessagesAnswered(s', u) && HaltsAnswered(s', u)
  {
    hide Perform, TakenBy, ReturnedBy, HaltsReturnedBy, Record, Reply, Gots, Halts, Returned, Unreturned;
    var th, e := s.threads[t], Perform(s.core, t, s.threads[t], act);
    var h := Record(s.history, t, s.core, e.note);
    var returned := Returned(th, e.thread);
    RecordTakes(s.history, t, s.core, e.note, u);
    ReplyReturns(h, t, returned, u);
    PerformAnswers(s.core, t, th, act);
    PerformChange(s.core, t, th, act);
    if u == t {
      assert (ReturnedBy(s.history.answers, t) + Gots(returned)) + Gots(Unreturned(e.thread))
             == ReturnedBy(s.history.answers, t) + (Gots(returned) + Gots(Unreturned(e.thread)));
      assert (ReturnedBy(s.history.answers, t) + Gots(Unreturned(th))) + TakenNow(e.note)
             == ReturnedBy(s.history.answers, t) + (Gots(Unreturned(th)) + TakenNow(e.note));
    }
  }

  lemma InitIsAnswered(s: State)
    requires Init(s)
    ensures AllAnswered(s)
  {
  }

  lemma StepStaysAnswered(s: State, step: Step)
    requires AllAnswered(s) && AllHonest(s) && Enabled(s, step)
    ensures AllAnswered(Apply(s, step))
  {
    var s' := Apply(s, step);
    forall u ensures MessagesAnswered(s', u) && HaltsAnswered(s', u) {
      assert MessagesAnswered(s, u) && HaltsAnswered(s, u);
      if step.On? {
        AfterStaysAnswered(s, step.t, step.act, u);
      }
    }
  }
}
