/** How a subscription keeps fitting its job, one change of the job or of the subscription at a time. */
module WorkQueueFits {
  import opened Wrappers
  import opened WorkQueue
  import opened WorkQueueInvariant

  // ----- the job changes, the subscription does not -----

  lemma StatusKeepsFit(x: SubId, u: Sub, j: Job, status: Status)
    requires Fits(x, u, j) && j.binder == Selecting && MissedOk(j)
    ensures Fits(x, u, NewStatus(j, status))
  {
    var j' := NewStatus(j, status);
    assert forall i :: 0 <= i < |j.history| ==> j'.history[i] == j.history[i];
  }

  lemma CancelKeepsFit(x: SubId, u: Sub, j: Job)
    requires Fits(x, u, j)
    ensures Fits(x, u, j.(cancelled := true))
  {}

  /** Another subscription y is registered under a new key. */
  lemma GrantKeepsFit(x: SubId, u: Sub, j: Job, y: SubId)
    requires Fits(x, u, j) && j.binder == Selecting && x != y
    requires j.subCount + 1 !in j.subscriptions
    ensures Fits(x, u, j.(binder := Greeting(y), subCount := j.subCount + 1,
                          subscriptions := j.subscriptions[j.subCount + 1 := y]))
  {}

  /** Another subscription y is deleted. */
  lemma RemoveKeepsFit(x: SubId, u: Sub, j: Job, y: SubId, key: nat)
    requires Fits(x, u, j) && j.binder == Removing(y) && x != y
    requires key in j.subscriptions && j.subscriptions[key] == y
    ensures Fits(x, u, j.(binder := Selecting, subscriptions := j.subscriptions - {key}))
  {}

  /** The binder moves without finishing or starting anything that concerns x. */
  lemma MoveKeepsFit(x: SubId, u: Sub, j: Job, pc: BinderPc)
    requires Fits(x, u, j)
    requires j.binder != Greeting(x) && pc != Greeting(x) && j.binder != Removing(x) && pc != Removing(x)
    requires Registered(x, u, j) ==>
               && Pending(x, u, j.(binder := pc)) == Pending(x, u, j)
               && (Swept(pc, u.key) <==> Swept(j.binder, u.key))
               && (pc.ClosingOne? && pc.key == u.key <==> j.binder.ClosingOne? && j.binder.key == u.key)
    ensures Fits(x, u, j.(binder := pc))
  {}

  /** A broadcast is given up, perhaps before it has reached x. */
  lemma AbortKeepsFit(x: SubId, u: Sub, j: Job)
    requires Fits(x, u, j) && j.binder.Broadcasting? && j.cancelled
    ensures Fits(x, u, Aborted(j))
  {}

  // ----- the subscription changes -----

  lemma ReceiveFits(x: SubId, u: Sub, j: Job)
    requires Fits(x, u, j) && u.buffer.Some?
    ensures Fits(x, u.(buffer := None, received := u.received + [u.buffer.value]), j)
  {}

  lemma CloseFits(x: SubId, u: Sub, j: Job)
    requires Fits(x, u, j) && u.pc.HasClient() && !u.closed
    ensures Fits(x, u.(closed := true, pc := Detaching), j)
  {}

  lemma GrantFits(x: SubId, u: Sub, j: Job)
    requires Fresh(u) && j.binder == Selecting && MissedOk(j)
    ensures var key := j.subCount + 1;
            Fits(x, u.(pc := SubscribeLeaving(Granted), key := key, from := |j.history| - 1),
                 j.(binder := Greeting(x), subCount := key, subscriptions := j.subscriptions[key := x]))
  {}

  lemma DetachFits(x: SubId, u: Sub, j: Job)
    requires Fits(x, u, j) && u.pc == Detaching && j.binder == Selecting
    ensures Fits(x, u.(pc := Detached), j.(binder := Removing(x)))
  {}

  lemma DetachCloseFits(x: SubId, u: Sub, j: Job)
    requires Fits(x, u, j) && u.pc == Detached
    ensures !u.chanClosed
    ensures Fits(x, u.(pc := ClientClosed, chanClosed := true), j)
  {}

  lemma RemoveFits(x: SubId, u: Sub, j: Job)
    requires Fits(x, u, j) && j.binder == Removing(x)
    ensures Fits(x, u, j.(binder := Selecting, subscriptions := j.subscriptions - {u.key}))
  {}

  function Sent(u: Sub, j: Job): Sub {
    u.(buffer := Some(j.curr), sent := u.sent + [j.curr], stamps := u.stamps + [|j.history| - 1])
  }

  lemma GreetFits(x: SubId, u: Sub, j: Job)
    requires Fits(x, u, j) && j.binder == Greeting(x) && j.curr == j.history[|j.history| - 1] && Registered(x, u, j)
    ensures !u.chanClosed && u.buffer == None
    ensures Fits(x, Sent(u, j), j.(binder := Selecting))
  {
    assert u.sent == [] && u.received == [] && u.stamps == [];
    GreetFitsStream(x, u, j);
    hide StreamOk;
    GreetFitsSent(x, u, j);
  }

  lemma GreetFitsStream(x: SubId, u: Sub, j: Job)
    requires StreamOk(x, u, j) && j.binder == Greeting(x) && j.curr == j.history[|j.history| - 1] && Registered(x, u, j)
    requires u.sent == [] && u.received == [] && u.stamps == []
    ensures StreamOk(x, Sent(u, j), j.(binder := Selecting))
  {}

  lemma GreetFitsSent(x: SubId, u: Sub, j: Job)
    requires SentOk(x, u, j) && j.binder == Greeting(x) && Registered(x, u, j) && u.stamps == []
    ensures SentOk(x, Sent(u, j), j.(binder := Selecting))
  {}

  lemma SendFits(x: SubId, u: Sub, j: Job)
    requires Fits(x, u, j) && j.binder.Broadcasting? && u.key in j.binder.todo && Registered(x, u, j)
    requires j.curr == j.history[|j.history| - 1]
    ensures !u.chanClosed
    ensures u.buffer == None ==> Fits(x, Sent(u, j), j.(binder := Broadcasting(j.binder.todo - {u.key})))
  {
    if u.buffer == None {
      SendFitsStream(x, u, j);
      hide StreamOk;
      SendFitsSent(x, u, j);
    }
  }

  lemma SendFitsStream(x: SubId, u: Sub, j: Job)
    requires StreamOk(x, u, j) && j.binder.Broadcasting? && u.key in j.binder.todo && Registered(x, u, j)
    requires j.curr == j.history[|j.history| - 1] && u.buffer == None
    ensures StreamOk(x, Sent(u, j), j.(binder := Broadcasting(j.binder.todo - {u.key})))
  {
    assert u.stamps != [];
  }

  lemma SendFitsSent(x: SubId, u: Sub, j: Job)
    requires SentOk(x, u, j) && j.binder.Broadcasting? && u.key in j.binder.todo && Registered(x, u, j)
    ensures SentOk(x, Sent(u, j), j.(binder := Broadcasting(j.binder.todo - {u.key})))
  {}

  /** The swap is won by the binder, or was won before by the client. */
  lemma SwapFits(x: SubId, u: Sub, j: Job)
    requires Fits(x, u, j) && j.binder.Sweeping? && u.key in j.binder.todo && Registered(x, u, j)
    requires !u.pc.SubscribeLeaving?
    ensures var todo := j.binder.todo - {u.key};
            if u.closed then Fits(x, u, j.(binder := Sweeping(todo)))
            else Fits(x, u.(closed := true), j.(binder := ClosingOne(u.key, todo)))
  {}

  lemma CloseChanFits(x: SubId, u: Sub, j: Job)
    requires Fits(x, u, j) && j.binder.ClosingOne? && u.key == j.binder.key && u.key !in j.binder.todo
              && Registered(x, u, j)
    ensures !u.chanClosed && Fits(x, u.(chanClosed := true), j.(binder := Sweeping(j.binder.todo)))
  {}
}
