/**
 CancelWhenDone of CCPixAsyncronizer: a client that asks to cancel a task which cannot be cancelled
 is answered when the operation completes. The asyncronizer remembers one such request.
*/
module CancelRequests {
  import opened Options

  type Message = nat

  /** IsActive(), iCancelMessage while iCancelAllOperationPending, and the messages completed so far. */
  datatype Desk = Desk(active: bool, pending: Option<Message>, answered: seq<Message>)

  datatype Event =
    | Start                      // a task begins
    | Ask(message: Message)      // CancelWhenDone
    | RunL                       // the operation completes

  function After(d: Desk, e: Event): Desk {
    match e
    case Start => d.(active := true)
    case Ask(m) => if d.active then d.(pending := Some(m)) else d.(answered := d.answered + [m])
    case RunL => d.(active := false, pending := None,
      answered := d.answered + (if d.pending.Some? then [d.pending.value] else []))
  }

  const IDLE := Desk(false, None, [])

  function AfterAll(es: seq<Event>): Desk { if es == [] then IDLE else After(AfterAll(es[..|es| - 1]), es[|es| - 1]) }

  /** The messages asked for. */
  function Asked(es: seq<Event>): multiset<Message> {
    if es == [] then multiset{} else
    Asked(es[..|es| - 1]) + (if es[|es| - 1].Ask? then multiset{es[|es| - 1].message} else multiset{})
  }

  /** The messages that were overwritten by a later one before they were answered. */
  function Overwritten(es: seq<Event>): multiset<Message> {
    if es == [] then multiset{} else
    var d := AfterAll(es[..|es| - 1]);
    Overwritten(es[..|es| - 1])
      + (if es[|es| - 1].Ask? && d.active && d.pending.Some? then multiset{d.pending.value} else multiset{})
  }

  function Waiting(d: Desk): multiset<Message> { if d.pending.Some? then multiset{d.pending.value} else multiset{} }

  /** Every request is answered once, or waits, or was overwritten; nothing is answered that was not asked. */
  lemma {:induction false} RequestsAreConserved(es: seq<Event>)
    ensures var d := AfterAll(es); Asked(es) == multiset(d.answered) + Waiting(d) + Overwritten(es)
  {
    if es != [] {
      RequestsAreConserved(es[..|es| - 1]);
    }
  }

  predicate CompletesAfter(es: seq<Event>, i: int) { exists j :: i < j < |es| && 0 <= j && es[j].RunL? }

  /** The asyncronizer is active if and only if an operation has begun that has not completed. */
  lemma {:induction false} ActiveIff(es: seq<Event>)
    ensures AfterAll(es).active <==> exists i :: 0 <= i < |es| && es[i].Start? && !CompletesAfter(es, i)
  {
    if es != [] {
      var last := |es| - 1;
      var rest := es[..last];
      ActiveIff(rest);
      forall i | 0 <= i < last ensures CompletesAfter(es, i) <==> CompletesAfter(rest, i) || es[last].RunL? {
        if j :| i < j < last && es[j].RunL? { assert rest[j].RunL?; }
      }
      if AfterAll(es).active {
        if es[last].Start? {
          assert !CompletesAfter(es, last);
        } else {
          var i :| 0 <= i < |rest| && rest[i].Start? && !CompletesAfter(rest, i);
          assert es[i].Start? && !CompletesAfter(es, i);
        }
      }
      if i :| 0 <= i < |es| && es[i].Start? && !CompletesAfter(es, i) {
        if i < last { assert rest[i].Start? && !CompletesAfter(rest, i); }
      }
    }
  }

  /** A request is answered at once if the asyncronizer is not active; otherwise it is the one that waits. */
  lemma AskMeans(es: seq<Event>, m: Message)
    ensures var d, d' := AfterAll(es), AfterAll(es + [Ask(m)]);
      if d.active then d' == Desk(true, Some(m), d.answered) else d' == Desk(false, d.pending, d.answered + [m])
  {
    assert (es + [Ask(m)])[..|es|] == es;
  }

  /** No request is asked while another one waits. */
  ghost predicate OneAtATime(es: seq<Event>) {
    forall i | 0 <= i < |es| && es[i].Ask? :: !(AfterAll(es[..i]).active && AfterAll(es[..i]).pending.Some?)
  }

  lemma {:induction false} NoneOverwrittenIff(es: seq<Event>)
    ensures Overwritten(es) == multiset{} <==> OneAtATime(es)
  {
    if es != [] {
      var last := |es| - 1;
      NoneOverwrittenIff(es[..last]);
      forall i | 0 <= i < last ensures es[..last][..i] == es[..i] && es[..last][i] == es[i] {}
      if OneAtATime(es[..last])
        && !(es[last].Ask? && AfterAll(es[..last]).active && AfterAll(es[..last]).pending.Some?) {
        forall i | 0 <= i < |es| && es[i].Ask? ensures !(AfterAll(es[..i]).active && AfterAll(es[..i]).pending.Some?) {
          if i < last { assert es[..last][i].Ask?; }
        }
      }
      if OneAtATime(es) {
        forall i | 0 <= i < last && es[..last][i].Ask?
          ensures !(AfterAll(es[..last][..i]).active && AfterAll(es[..last][..i]).pending.Some?) {
          assert es[i].Ask?;
        }
      }
      var d := AfterAll(es[..last]);
      if es[last].Ask? && d.active && d.pending.Some? { assert Overwritten(es)[d.pending.value] > 0; }
    }
  }

  /** When all is done, every request has been answered exactly once if and only if they came one at a time. */
  lemma AllAnsweredIff(es: seq<Event>)
    requires AfterAll(es).pending.None?
    ensures multiset(AfterAll(es).answered) == Asked(es) <==> OneAtATime(es)
  {
    RequestsAreConserved(es);
    NoneOverwrittenIff(es);
    if multiset(AfterAll(es).answered) == Asked(es) {
      assert |Asked(es)| == |multiset(AfterAll(es).answered)| + |Overwritten(es)|;
    }
  }

  /** The asyncronizer as an object, as far as CancelWhenDone concerns it. */
  class CCPixAsyncronizer {
    var active: bool
    var cancelMessage: Message
    var cancelAllOperationPending: bool
    var answered: seq<Message>

    function View(): Desk
      reads this
    {
      Desk(active, if cancelAllOperationPending then Some(cancelMessage) else None, answered)
    }

    constructor ()
      ensures View() == IDLE
    {
      active, cancelMessage, cancelAllOperationPending, answered := false, 0, false, [];
    }

    method Begin()
      modifies this
      ensures View() == After(old(View()), Start)
    {
      active := true;
    }

    method CancelWhenDone(message: Message)
      modifies this
      ensures View() == After(old(View()), Ask(message))
    {
      if active {
        cancelMessage := message;
        cancelAllOperationPending := true;
      } else {
        answered := answered + [message];
      }
    }

    method Done()
      modifies this
      ensures View() == After(old(View()), RunL)
    {
      active := false;
      if cancelAllOperationPending {
        cancelAllOperationPending := false;
        answered := answered + [cancelMessage];
      }
      assert answered == After(old(View()), RunL).answered;
    }
  }
}
