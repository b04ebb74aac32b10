/**
 * `NetworkServer`: the outgoing message queue, the worker's drain loop and the
 * active / socket state. Winsock calls are replaced by their effect on the fields;
 * what is handed to `send` on the client socket is recorded in the ghost `sent`,
 * and every socket that is shut down and closed in the ghost `closed`.
 */
module NetworkServer {

  /** A `SOCKET`: a handle, or `INVALID_SOCKET`. */
  datatype Socket = Handle(id: nat) | InvalidSocket

  /** The line the worker sends when it starts. */
  const GREETING := "Hello Client , I am JVM TI\n"

  /** The sockets among `s` that `finit_client_connection` shuts down and closes. */
  function Closable(s: Socket): (r: seq<Socket>)
    ensures r == [] <==> s == InvalidSocket
    ensures InvalidSocket !in r && |r| <= 1 && (r != [] ==> r[0] == s)
  {
    if s.InvalidSocket? then [] else [s]
  }

  /** The messages of consecutive batches, in order. */
  function Concat(batches: seq<seq<string>>): (messages: seq<string>) {
    if batches == [] then [] else batches[0] + Concat(batches[1..])
  }

  lemma {:induction false} ConcatAppend(batches: seq<seq<string>>, last: seq<string>)
    ensures Concat(batches + [last]) == Concat(batches) + last
  {
    if batches == [] {
      assert batches + [last] == [last];
      assert Concat([last]) == last + Concat([]);
    } else {
      assert (batches + [last])[1..] == batches[1..] + [last];
      ConcatAppend(batches[1..], last);
    }
  }

  class Server {
    var queue: seq<string>        // m_queue, front first
    var workerActive: bool        // m_worker_active
    var hasWorker: bool           // m_worker != nullptr
    var listenSocket: Socket      // m_listen_socket
    var clientSocket: Socket      // m_client_socket
    ghost var sent: seq<string>
    ghost var closed: seq<Socket>

    /** A worker thread exists whenever the server is active (the `assert` in `stop`). */
    ghost predicate Valid()
      reads this
    {
      workerActive ==> hasWorker
    }

    /** The state the constructor leaves: no worker, inactive, both sockets 0 (which is not `INVALID_SOCKET`). */
    ghost predicate Initial()
      reads this
    {
      !hasWorker && !workerActive && listenSocket == Handle(0) && clientSocket == Handle(0)
      && queue == [] && sent == [] && closed == []
    }

    constructor ()
      ensures Valid() && Initial()
    {
      queue := [];
      workerActive := false;
      hasWorker := false;
      listenSocket := Handle(0);
      clientSocket := Handle(0);
      sent := [];
      closed := [];
    }

    /**
     * `init_client_connection`: creates, binds and listens on `listenHandle`, then
     * stores what `accept` returned; the connection succeeded iff that is a handle.
     */
    method InitClientConnection(listenHandle: nat, acceptResult: Socket) returns (ok: bool)
      modifies this`listenSocket, this`clientSocket
      ensures ok == acceptResult.Handle?
      ensures listenSocket == Handle(listenHandle) && clientSocket == acceptResult
    {
      listenSocket := Handle(listenHandle);
      clientSocket := acceptResult;
      if clientSocket == InvalidSocket {
        return false;
      }
      return true;
    }

    /** `start`: the worker is created and the server made active only when a client was accepted. */
    method Start(listenHandle: nat, acceptResult: Socket)
      requires Valid()
      modifies this`listenSocket, this`clientSocket, this`workerActive, this`hasWorker
      ensures Valid()
      ensures listenSocket == Handle(listenHandle) && clientSocket == acceptResult
      ensures workerActive == (old(workerActive) || acceptResult.Handle?)
      ensures hasWorker == (old(hasWorker) || acceptResult.Handle?)
    {
      var ok := InitClientConnection(listenHandle, acceptResult);
      if !ok {
        return;
      }
      workerActive := true;
      hasWorker := true;
    }

    /** `finit_client_connection`: every socket still valid is shut down, closed and marked invalid. */
    method FinitClientConnection()
      modifies this`listenSocket, this`clientSocket, this`closed
      ensures listenSocket == InvalidSocket && clientSocket == InvalidSocket
      ensures closed == old(closed) + Closable(old(listenSocket)) + Closable(old(clientSocket))
    {
      if listenSocket != InvalidSocket {
        closed := closed + [listenSocket];
        listenSocket := InvalidSocket;
      }
      if clientSocket != InvalidSocket {
        closed := closed + [clientSocket];
        clientSocket := InvalidSocket;
      }
    }

    /** `stop`: a no-op when inactive; otherwise clears the flag and closes both sockets (the join has no effect on the state). */
    method Stop()
      requires Valid()
      modifies this`workerActive, this`listenSocket, this`clientSocket, this`closed
      ensures Valid() && !workerActive
      ensures !old(workerActive) ==> listenSocket == old(listenSocket) && clientSocket == old(clientSocket) && closed == old(closed)
      ensures old(workerActive) ==> listenSocket == InvalidSocket && clientSocket == InvalidSocket
      ensures old(workerActive) ==> closed == old(closed) + Closable(old(listenSocket)) + Closable(old(clientSocket))
    {
      if workerActive {
        assert hasWorker;
        workerActive := false;
        FinitClientConnection();
      }
    }

    /** `enqueue_for_sending`: the message goes to the back of the queue and nothing else changes. */
    method EnqueueForSending(msg: string)
      modifies this`queue
      ensures queue == old(queue) + [msg]
    {
      queue := queue + [msg];
    }

    /** One locked pass of the inner loop: every queued message is sent in FIFO order and popped, whatever `send` returns. */
    method DrainPass()
      requires Valid() && workerActive
      modifies this`queue, this`sent
      ensures queue == [] && sent == old(sent) + old(queue)
    {
      while queue != []
        invariant sent + queue == old(sent) + old(queue)
        decreases |queue|
      {
        var msg := queue[0];
        sent := sent + [msg];
        queue := queue[1..];
        assert sent + queue == (sent[..|sent| - 1] + [msg]) + queue;
      }
    }

    /**
     * `worker_body`, from the moment the worker starts until it sees the active flag
     * cleared by `stop`. `arrivals[k]` are the messages producer threads enqueued
     * before the worker took the queue lock for its `k`-th drain pass. The outer
     * loop's body runs once: its inner loop only ends when the flag is clear, and then
     * the outer loop ends too. So the greeting goes out exactly once, before every
     * queued message, and the messages follow in the order they were enqueued.
     */
    method WorkerBody(arrivals: seq<seq<string>>)
      requires Valid() && workerActive
      modifies this`queue, this`sent
      ensures sent + queue == old(sent) + [GREETING] + old(queue) + Concat(arrivals)
      ensures arrivals != [] ==> queue == [] && sent == old(sent) + [GREETING] + old(queue) + Concat(arrivals)
      ensures arrivals == [] ==> sent == old(sent) + [GREETING] && queue == old(queue)
      ensures |sent| > |old(sent)| && sent[..|old(sent)| + 1] == old(sent) + [GREETING]
    {
      sent := sent + [GREETING];
      var k := 0;
      while k < |arrivals|
        invariant 0 <= k <= |arrivals|
        invariant sent + queue == old(sent) + [GREETING] + old(queue) + Concat(arrivals[..k])
        invariant k > 0 ==> queue == []
        invariant k == 0 ==> sent == old(sent) + [GREETING] && queue == old(queue)
        invariant |sent| > |old(sent)| && sent[..|old(sent)| + 1] == old(sent) + [GREETING]
      {
        ghost var before := sent + queue;
        queue := queue + arrivals[k];
        DrainPass();
        assert sent + queue == before + arrivals[k];
        ConcatAppend(arrivals[..k], arrivals[k]);
        assert arrivals[..k + 1] == arrivals[..k] + [arrivals[k]];
        k := k + 1;
      }
      assert arrivals[..|arrivals|] == arrivals;
      assert Concat([]) == [];
    }
  }

  /** A second `stop` changes nothing, and neither does a `stop` on a server that never accepted a client. */
  method StopTwice(s: Server)
    requires s.Valid()
    modifies s`workerActive, s`listenSocket, s`clientSocket, s`closed
    ensures s.Valid() && !s.workerActive
    ensures old(s.workerActive) ==> s.listenSocket == InvalidSocket && s.clientSocket == InvalidSocket
    ensures !old(s.workerActive) ==> s.listenSocket == old(s.listenSocket) && s.clientSocket == old(s.clientSocket) && s.closed == old(s.closed)
    ensures old(s.workerActive) ==> s.closed == old(s.closed) + Closable(old(s.listenSocket)) + Closable(old(s.clientSocket))
  {
    s.Stop();
    ghost var afterFirst := s.closed;
    s.Stop();
    assert s.closed == afterFirst;
  }
}
