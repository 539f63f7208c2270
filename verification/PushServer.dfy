/** The push server's pooled task and the completion loop of its gate client as programs
    (server/push/push_server.cc, async_gate_client.cc), each run without interruption. */
module PushServer {
  import opened Options
  import opened Push
  import Rpc

  /** The context is back in the server's completion queue, finished once, with this status. */
  predicate Finished(p: State, c: Rpc.Id, status: Rpc.Status) {
    && c in p.server.ctxs && c in p.server.cq
    && var x := p.server.ctxs[c]; x.done && x.finished == [status] && !x.retired
  }

  /** The call to the gate at this address is under way. */
  predicate Forwarded(p: State, c: Rpc.Id, to: Address) {
    Usable(p, c) && c in p.calls && p.server.ctxs[c].finished == [] && JobOf(p, c).target == Some(to)
  }

  /** The task died: the call is unanswered, and nothing points to its context. */
  predicate Lost(p: State, c: Rpc.Id) {
    Usable(p, c) && c in p.lost && p.server.ctxs[c].finished == []
  }

  lemma HeldIsFresh(p: State, w: nat)
    requires Inv(p) && Rpc.At(p.workers, w)
    ensures Usable(p, p.workers[w].c) && p.server.ctxs[p.workers[w].c].finished == []
  {
    hide Rpc.Held, AllHere, JobAt;
    var c := p.workers[w].c;
    assert FrameOk(p, p.workers[w]);
    Rpc.Update(p.workers, w, Rpc.Idle);
    assert p.server.out[c] == Rpc.Held(p.workers, c) + p.calls[c] + p.ready[c] + p.lost[c];
    assert Rpc.CtxOk(p.server, c);
  }

  lemma Pooled(p: State, c: Rpc.Id)
    requires Inv(p) && c in p.server.pool
    ensures Usable(p, c) && p.server.ctxs[c].finished == []
  {
    hide Rpc.Held, JobAt, Relayed;
    OnlyHere(p, c);
    assert Here(p, c);
  }

  lemma Answered(p: State, c: Rpc.Id)
    requires Inv(p) && c in p.ready
    ensures Usable(p, c) && p.server.ctxs[c].finished == [] && JobOf(p, c).back.Some?
  {
    hide Rpc.Held, JobAt, Relayed;
    OnlyHere(p, c);
    assert p.server.out[c] == Rpc.Held(p.workers, c) + p.calls[c] + p.ready[c] + p.lost[c];
    assert Here(p, c);
  }

  lemma FinishedKept(p: State, p': State, c: Rpc.Id, d: Rpc.Id, status: Rpc.Status)
    requires Finished(p, d, status) && d != c && d in p'.server.ctxs && p'.server.ctxs[d] == p.server.ctxs[d]
    requires p'.server.cq == p.server.cq + multiset{c}
    ensures Finished(p', d, status)
  {
  }

  lemma Cut(tags: seq<Rpc.Id>, n: nat)
    requires n < |tags| && forall i, j | 0 <= i < j < |tags| :: tags[i] != tags[j]
    ensures tags[..n + 1] == tags[..n] + [tags[n]] && tags[n..] == [tags[n]] + tags[n + 1..]
    ensures tags[n] in tags && tags[n] !in tags[..n] && tags[n] !in tags[n + 1..]
  {
  }

  class Server {
    var p: State

    constructor (first: Rpc.Id, threads: nat)
      ensures p == Boot(first, threads) && Inv(p)
    {
      p := Boot(first, threads);
      InvBoot(first, threads);
    }

    /** The task for context c; `answer` is what Redis has as the receiver's gate, None an exception. */
    method PooledTask(w: nat, c: Rpc.Id, answer: Option<Option<Address>>)
      requires Inv(p) && Rpc.Free(p.workers, w) && c in p.server.pool
      modifies this
      ensures Inv(p) && p.workers == old(p).workers
      ensures if answer.None? then Lost(p, c) && p.server.cq == old(p).server.cq
              else if Known(answer.value) then Forwarded(p, c, answer.value.value)
              else Finished(p, c, Rpc.NotFound)
      ensures answer.None? || !Known(answer.value) ==> p.stubs == old(p).stubs && p.calls == old(p).calls
      ensures answer.Some? && Known(answer.value) ==> p.stubs.Keys == old(p).stubs.Keys + {answer.value.value}
      ensures forall a <- old(p).stubs :: a in p.stubs && p.stubs[a] == old(p).stubs[a]
    {
      hide Inv;
      Pooled(p, c);
      InvBegin(p, w, c);
      p := p.(workers := p.workers[w := Rpc.Busy(c, Look)], server := Rpc.Take(p.server, c));
      if answer.None? {
        InvLookupFails(p, w);
        p := p.(workers := p.workers[w := Rpc.Idle], lost := p.lost + multiset{c});
        return;
      }
      var value := answer.value;
      InvLookup(p, w, value);
      p := p.(workers := p.workers[w := Rpc.Busy(c, if Known(value) then Find(value.value) else Offline)],
              server := Rpc.Note(p.server, c, JobOf(p, c).(looked := Some(value))));
      if Known(value) {
        PushTo(w, c, value.value);
      } else {
        InvMarkStep(p, w);
        p := p.(workers := p.workers[w := Rpc.Busy(c, Refuse)], server := Rpc.Mark(p.server, c));
        InvRefuse(p, w);
        p := p.(workers := p.workers[w := Rpc.Idle], server := Rpc.Finish(p.server, c, Rpc.NotFound));
      }
    }

    /** `GateClient::Push`: find or make the stub for the address, then start the call. */
    method PushTo(w: nat, c: Rpc.Id, address: Address)
      requires Inv(p) && Rpc.At(p.workers, w) && p.workers[w] == Rpc.Busy(c, Find(address))
      modifies this
      ensures Inv(p) && p.workers == old(p).workers[w := Rpc.Idle]
      ensures Forwarded(p, c, address)
      ensures p.stubs == if address in old(p).stubs then old(p).stubs else old(p).stubs[address := old(p).made]
    {
      hide Inv;
      HeldIsFresh(p, w);
      InvQuietStep(p, w);
      if address in p.stubs {
        p := p.(workers := p.workers[w := Rpc.Busy(c, Fetch(address))]);
        InvQuietStep(p, w);
        p := p.(workers := p.workers[w := Rpc.Busy(c, Prepare(address, p.stubs[address]))]);
      } else {
        p := p.(workers := p.workers[w := Rpc.Busy(c, Connect(address))]);
        InvQuietStep(p, w);
        var stub := NewStub(p.made).value;
        p := p.(workers := p.workers[w := Rpc.Busy(c, Store(address, stub))], made := p.made + 1);
      }
      InvQuietStep(p, w);
      if p.workers[w].at.Store? {
        p := p.(stubs := p.stubs[address := p.workers[w].at.stub]);
      }
      StartCall(w, c, address);
    }

    /** The call itself, on either way. */
    method StartCall(w: nat, c: Rpc.Id, address: Address)
      requires Rpc.At(p.workers, w) && Usable(p, c) && p.server.ctxs[c].finished == []
      requires Inv(p.(workers := p.workers[w := Rpc.Busy(c, Call(address))]))
      modifies this
      ensures Inv(p) && p.workers == old(p).workers[w := Rpc.Idle] && p.stubs == old(p).stubs
      ensures Forwarded(p, c, address)
    {
      hide Inv;
      p := p.(workers := p.workers[w := Rpc.Busy(c, Call(address))]);
      InvCall(p, w);
      p := p.(workers := p.workers[w := Rpc.Idle], calls := p.calls + multiset{c},
              server := Rpc.Note(p.server, c, JobOf(p, c).(target := Some(address))));
    }

    /** The completion loop on the tags that the client's queue yields: every context is finished with
        exactly the status that came back for it. */
    method AsyncRpcComplete(w: nat, tags: seq<Rpc.Id>)
      requires Inv(p) && Rpc.Free(p.workers, w) && (forall c <- tags :: c in p.ready)
      requires forall m, n | 0 <= m < n < |tags| :: tags[m] != tags[n]
      modifies this
      ensures Inv(p) && p.workers == old(p).workers && p.calls == old(p).calls && p.stubs == old(p).stubs
      ensures forall c <- tags :: Usable(old(p), c) && JobOf(old(p), c).back.Some?
                                  && Finished(p, c, JobOf(old(p), c).back.value.status)
      ensures p.server.ctxs.Keys == old(p).server.ctxs.Keys
      ensures forall c <- old(p).server.ctxs | c !in tags :: p.server.ctxs[c] == old(p).server.ctxs[c]
    {
      hide Inv, Finished;
      forall c <- tags ensures Usable(p, c) && JobOf(p, c).back.Some? { Answered(p, c); }
      var n := 0;
      while n < |tags|
        invariant n <= |tags| && Inv(p) && p.workers == old(p).workers && p.calls == old(p).calls
                  && p.stubs == old(p).stubs
        invariant forall c <- tags[..n] :: Finished(p, c, JobOf(old(p), c).back.value.status)
        invariant forall c <- tags[n..] :: c in p.ready
        invariant p.server.ctxs.Keys == old(p).server.ctxs.Keys
        invariant forall c <- old(p).server.ctxs | c !in tags[..n] :: p.server.ctxs[c] == old(p).server.ctxs[c]
      {
        var c := tags[n];
        Cut(tags, n);
        ghost var p0 := p;
        Relay(w, c);
        forall d <- tags[..n] ensures Finished(p, d, JobOf(old(p), d).back.value.status) {
          assert d in p0.server.ctxs;
          FinishedKept(p0, p, c, d, JobOf(old(p), d).back.value.status);
        }
        n := n + 1;
      }
      assert tags[..n] == tags;
    }

    /** One turn of that loop. */
    method Relay(w: nat, c: Rpc.Id)
      requires Inv(p) && Rpc.Free(p.workers, w) && c in p.ready
      modifies this
      ensures Inv(p) && p.workers == old(p).workers && p.calls == old(p).calls && p.stubs == old(p).stubs
      ensures p.ready == old(p).ready - multiset{c} && p.server.cq == old(p).server.cq + multiset{c}
      ensures Usable(old(p), c) && JobOf(old(p), c).back.Some? && Finished(p, c, JobOf(old(p), c).back.value.status)
      ensures p.server.ctxs == old(p).server.ctxs[c := p.server.ctxs[c]]
    {
      hide Inv;
      Answered(p, c);
      InvComplete(p, w, c);
      p := p.(workers := p.workers[w := Rpc.Busy(c, Push.Relay)], ready := p.ready - multiset{c});
      InvMarkStep(p, w);
      p := p.(workers := p.workers[w := Rpc.Busy(c, Answer)], server := Rpc.Mark(p.server, c));
      InvAnswer(p, w);
      p := p.(workers := p.workers[w := Rpc.Idle], server := Rpc.Finish(p.server, c, StatusOf(JobOf(p, c))));
    }
  }
}
