/** The gate's pooled task as a program (server/msg_gate/gate_server.cc), run without interruption. */
module GateServer {
  import opened Messages
  import opened Gate
  import Rpc

  lemma Ready(g: State, c: Rpc.Id)
    requires Inv(g) && c in g.server.pool
    ensures Usable(g, c) && g.server.ctxs[c].finished == []
  {
    hide SerPush, SentFor, Rpc.Held, FrameOk, Honest;
    Pooled(g, c);
  }

  class Server {
    var g: State

    constructor (first: Rpc.Id, threads: nat)
      ensures g == Boot(first, threads) && Inv(g)
    {
      g := Boot(first, threads);
      InvBoot(first, threads);
    }

    /** The task for context c: if the receiver has a socket, the whole request is sent on it, and only
        then the answer is OK; otherwise nothing is sent and the answer is NOT_FOUND. */
    method PooledTask(w: nat, c: Rpc.Id)
      requires Inv(g) && Rpc.Free(g.workers, w) && c in g.server.pool
      modifies this
      ensures Inv(g) && g.workers == old(g).workers && g.sockets == old(g).sockets && g.uidOf == old(g).uidOf
      ensures Usable(old(g), c)
      ensures var req := ReqOf(old(g), c);
              if req.toUid in g.sockets
              then g.sent == old(g).sent + {Sent(g.sockets[req.toUid], req.toUid, SerPush(req), true)}
              else g.sent == old(g).sent
      ensures c in g.server.ctxs && c in g.server.cq && g.server.ctxs[c].done && !g.server.ctxs[c].retired
      ensures g.server.ctxs[c].finished == [if ReqOf(old(g), c).toUid in g.sockets then Rpc.OK else Rpc.NotFound]
      ensures g.server.ctxs == old(g).server.ctxs[c := g.server.ctxs[c]]
    {
      hide Inv, SerPush;
      Ready(g, c);
      Registered(g);
      InvBegin(g, w, c);
      g := g.(workers := g.workers[w := Rpc.Busy(c, Got)], server := Rpc.Take(g.server, c));
      var uid, status := ReqOf(g, c).toUid, Rpc.NotFound;
      InvWorker(g, w);
      if uid in g.sockets {
        var ws := g.sockets[uid];
        g := g.(workers := g.workers[w := Rpc.Busy(c, Send(ws))]);
        InvWorker(g, w);
        g := g.(sent := g.sent + {Sent(ws, g.uidOf[ws], SerPush(ReqOf(g, c)), IsRegistered(g, uid, ws))});
        status := Rpc.OK;
      }
      g := g.(workers := g.workers[w := Rpc.Busy(c, SetDone(status))]);
      InvWorker(g, w);
      g := g.(workers := g.workers[w := Rpc.Busy(c, Finishing(status))], server := Rpc.Mark(g.server, c));
      InvWorker(g, w);
      g := g.(workers := g.workers[w := Rpc.Idle], server := Rpc.Finish(g.server, c, status));
    }
  }

  lemma Registered(g: State)
    requires Inv(g)
    ensures forall u <- g.sockets :: g.sockets[u] in g.uidOf && g.uidOf[g.sockets[u]] == u
  {
  }
}
