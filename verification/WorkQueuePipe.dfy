/** Every change of the pipe keeps its invariant: order, handler log, and conservation of ids. */
module WorkQueuePipe {
  import opened Wrappers
  import opened WorkQueue
  import opened WorkQueueInvariant

  lemma RegisterKeepsPipe(q: Pipe)
    requires PipeInv(q) && q.pushing == None
    ensures PipeInv(PipeRegister(q))
  {
    var q' := PipeRegister(q);
    assert Line(q') == Line(q) + [q'.idCount];
    forall id: Id ensures Places(q', id) == Count(1 <= id <= q'.idCount) {
      assert Places(q, id) == Count(1 <= id <= q.idCount);
    }
  }

  lemma PushKeepsPipe(q: Pipe, id: Id)
    requires PipeInv(q) && q.pushing == Some(id)
    ensures PipeInv(PipePush(q, id))
  {
    var q' := PipePush(q, id);
    if |q.queue| < QUEUE_CAPACITY {
      assert Line(q') == Line(q);
    } else {
      assert Line(q) == Line(q') + [id] + [];
      assert Line(q') == Line(q') + [];
      RemoveKeepsLine(Line(q'), id, [], q.idCount);
    }
    forall i: Id ensures Places(q', i) == Count(1 <= i <= q'.idCount) {
      assert Places(q, i) == Count(1 <= i <= q.idCount);
    }
  }

  lemma DequeueKeepsPipe(q: Pipe)
    requires PipeInv(q) && q.worker == Idle && q.queue != []
    ensures PipeInv(PipeDequeue(q))
  {
    var q' := PipeDequeue(q);
    assert q.queue == [q.queue[0]] + q'.queue;
    assert Line(q') == Line(q);
    forall i: Id ensures Places(q', i) == Count(1 <= i <= q'.idCount) {
      assert Places(q, i) == Count(1 <= i <= q.idCount);
      if i in q'.queue {
        var n :| 0 <= n < |q'.queue| && q'.queue[n] == i;
        assert Line(q)[|q.starts|] == q.queue[0] && Line(q)[|q.starts| + 1 + n] == i;
      }
    }
  }

  /** The worker drops id: the line loses one entry. */
  lemma CheckKeepsPipe(q: Pipe, id: Id, cancelled: bool)
    requires PipeInv(q) && q.worker == Taken(id)
    ensures PipeInv(PipeCheck(q, id, cancelled))
  {
    var q' := PipeCheck(q, id, cancelled);
    if cancelled {
      assert Line(q) == q.starts + [id] + (q.queue + ToSeq(q.pushing));
      assert Line(q') == q.starts + (q.queue + ToSeq(q.pushing));
      RemoveKeepsLine(q.starts, id, q.queue + ToSeq(q.pushing), q.idCount);
    } else {
      assert Line(q') == Line(q);
    }
    forall i: Id ensures Places(q', i) == Count(1 <= i <= q'.idCount) {
      assert Places(q, i) == Count(1 <= i <= q.idCount);
    }
  }

  lemma RemoveKeepsLine(a: seq<Id>, id: Id, b: seq<Id>, idCount: nat)
    requires LineOk(a + [id] + b, idCount)
    ensures LineOk(a + b, idCount)
  {
    var with, without := a + [id] + b, a + b;
    forall i | 0 <= i < |without|
      ensures without[i] == with[if i < |a| then i else i + 1]
    {}
  }

  lemma SendKeepsPipe(q: Pipe, id: Id)
    requires PipeInv(q) && Hand(q.worker) == Some(id) && (q.worker.Announcing? || q.worker.Reporting?)
    ensures PipeInv(PipeSend(q, id))
  {
    var q' := PipeSend(q, id);
    assert Line(q') == Line(q);
    forall i: Id ensures Places(q', i) == Count(1 <= i <= q'.idCount) {
      assert Places(q, i) == Count(1 <= i <= q.idCount);
    }
  }

  lemma CallKeepsPipe(q: Pipe, id: Id)
    requires PipeInv(q) && q.worker == Calling(id)
    ensures PipeInv(PipeCall(q, id))
  {
    var q' := PipeCall(q, id);
    assert Line(q') == Line(q);
    forall i: Id ensures Places(q', i) == Count(1 <= i <= q'.idCount) {
      assert Places(q, i) == Count(1 <= i <= q.idCount);
    }
  }

  lemma ReturnKeepsPipe(q: Pipe, id: Id, error: Option<string>)
    requires PipeInv(q) && q.worker == Handling(id)
    ensures PipeInv(PipeReturn(q, id, error))
  {
    var q' := PipeReturn(q, id, error);
    assert Line(q') == Line(q);
    forall i: Id ensures Places(q', i) == Count(1 <= i <= q'.idCount) {
      assert Places(q, i) == Count(1 <= i <= q.idCount);
    }
  }

  /** A move of the worker that neither changes its hand nor starts or ends a handler. */
  lemma MoveKeepsPipe(q: Pipe, pc: WorkerPc)
    requires PipeInv(q) && Hand(pc) == Hand(q.worker)
    requires !HasStarted(q.worker) && !HasStarted(pc)
    ensures PipeInv(q.(worker := pc))
  {
    var q' := q.(worker := pc);
    assert Line(q') == Line(q);
    forall i: Id ensures Places(q', i) == Count(1 <= i <= q'.idCount) {
      assert Places(q, i) == Count(1 <= i <= q.idCount);
    }
  }
}
