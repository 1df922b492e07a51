/** Messages handled one after another, each to completion before the next. */
module Sessions {
  import opened Js
  import opened SqlJs
  import opened Protocol
  import opened Worker

  /** The worker as its script leaves it: nothing loaded, nothing called, nothing posted. */
  const Initial := WorkerState(Fresh, [], [])

  /** Handle `reqs` in order, starting from `w`. */
  function Serve(host: Host, w: WorkerState, reqs: seq<Request>): (w': WorkerState)
    // one reply per message, appended after the earlier ones
    ensures |w'.port| == |w.port| + |reqs| && w.port <= w'.port
    // the call history only grows
    ensures w.history <= w'.history
    decreases |reqs|
  {
    if reqs == [] then w
    else Serve(host, Handle(host, w, reqs[0]), reqs[1..])
  }

  /** Serving two batches in turn is serving them joined. */
  lemma {:induction false} ServeSplit(host: Host, w: WorkerState, a: seq<Request>, b: seq<Request>)
    ensures Serve(host, w, a + b) == Serve(host, Serve(host, w, a), b)
    decreases |a|
  {
    if a != [] {
      assert (a + b)[0] == a[0] && (a + b)[1..] == a[1..] + b;
      var w1 := Handle(host, w, a[0]);
      assert Serve(host, w, a + b) == Serve(host, w1, a[1..] + b);
      ServeSplit(host, w1, a[1..], b);
    } else {
      assert a + b == b;
    }
  }

  /** Later messages do not change the replies to earlier ones. */
  lemma ServePrefix(host: Host, w: WorkerState, reqs: seq<Request>, n: nat)
    requires n <= |reqs|
    ensures Serve(host, w, reqs).port[..|w.port| + n] == Serve(host, w, reqs[..n]).port
  {
    assert reqs == reqs[..n] + reqs[n..];
    ServeSplit(host, w, reqs[..n], reqs[n..]);
  }

  /** Serving one more message is handling it in the state the others left. */
  lemma ServeOneMore(host: Host, w: WorkerState, reqs: seq<Request>, i: nat)
    requires i < |reqs|
    ensures Serve(host, w, reqs[..i + 1]) == Handle(host, Serve(host, w, reqs[..i]), reqs[i])
  {
    assert reqs[..i + 1] == reqs[..i] + [reqs[i]];
    ServeSplit(host, w, reqs[..i], [reqs[i]]);
    assert [reqs[i]][1..] == [];
  }

  /** The i-th reply answers the i-th message, handled in the state the
      messages before it left. */
  lemma RepliesInOrder(host: Host, w: WorkerState, reqs: seq<Request>, i: nat)
    requires i < |reqs|
    ensures Serve(host, w, reqs).port[|w.port| + i] ==
              Handle(host, Serve(host, w, reqs[..i]), reqs[i]).port[|w.port| + i]
  {
    ServePrefix(host, w, reqs, i + 1);
    ServeOneMore(host, w, reqs, i);
    var full := Serve(host, w, reqs).port;
    assert full[|w.port| + i] == full[..|w.port| + i + 1][|w.port| + i];
  }

  /** Once `SQL` is set the slots never change again, and no later message
      loads the library or constructs a database. */
  lemma {:induction false} LoadedStaysLoaded(host: Host, w: WorkerState, reqs: seq<Request>)
    requires w.slots.sqlSet
    ensures Serve(host, w, reqs).slots == w.slots
    ensures multiset(Serve(host, w, reqs).history)[InitSqlJs] == multiset(w.history)[InitSqlJs]
    ensures multiset(Serve(host, w, reqs).history)[NewDatabase] == multiset(w.history)[NewDatabase]
    decreases |reqs|
  {
    if reqs != [] {
      SetUpOnlyWhileUnloaded(host, w, reqs[0]);
      LoadedStaysLoaded(host, Handle(host, w, reqs[0]), reqs[1..]);
    }
  }

  /** Every database the worker constructed is accounted for by `SQL` being
      set, and `db` is never set without `SQL`. */
  predicate Accounted(w: WorkerState)
  {
    && multiset(w.history)[NewDatabase] == (if w.slots.sqlSet then 1 else 0)
    && (w.slots.dbSet ==> w.slots.sqlSet)
  }

  lemma {:induction false} ServeKeepsAccounted(host: Host, w: WorkerState, reqs: seq<Request>)
    requires Accounted(w)
    ensures Accounted(Serve(host, w, reqs))
    decreases |reqs|
  {
    if reqs != [] {
      SetUpOnlyWhileUnloaded(host, w, reqs[0]);
      ServeKeepsAccounted(host, Handle(host, w, reqs[0]), reqs[1..]);
    }
  }

  /** Handled one at a time, messages construct at most one database over the
      worker's whole life, however many loads fail first. */
  lemma AtMostOneDatabase(host: Host, reqs: seq<Request>)
    ensures multiset(Serve(host, Initial, reqs).history)[NewDatabase] <= 1
    ensures Serve(host, Initial, reqs).slots.dbSet ==> Serve(host, Initial, reqs).slots.sqlSet
  {
    ServeKeepsAccounted(host, Initial, reqs);
  }

  /** As long as `SQL` stays unset, every message attempts the load again. */
  lemma {:induction false} LoadRetriedWhileUnset(host: Host, w: WorkerState, reqs: seq<Request>)
    requires !Serve(host, w, reqs).slots.sqlSet
    ensures multiset(Serve(host, w, reqs).history)[InitSqlJs] ==
              multiset(w.history)[InitSqlJs] + |reqs|
    ensures Serve(host, w, reqs).slots == w.slots
    decreases |reqs|
  {
    if reqs != [] {
      var w1 := Handle(host, w, reqs[0]);
      if w1.slots.sqlSet {
        LoadedStaysLoaded(host, w1, reqs[1..]);
        assert false;
      }
      SetUpOnlyWhileUnloaded(host, w, reqs[0]);
      LoadRetriedWhileUnset(host, w1, reqs[1..]);
    }
  }

  /** The replies of a poisoned worker to `reqs`, one per message, in order. */
  function PoisonedReplies(host: Host, reqs: seq<Request>): (r: seq<Reply>)
    ensures |r| == |reqs|
    ensures forall i :: 0 <= i < |reqs| ==> r[i] == PoisonedReply(host, reqs[i])
    decreases |reqs|
  {
    if reqs == [] then [] else [PoisonedReply(host, reqs[0])] + PoisonedReplies(host, reqs[1..])
  }

  /** A poisoned worker stays poisoned: no message reaches the library again,
      and every reply is an error. */
  lemma {:induction false} PoisonIsPermanent(host: Host, w: WorkerState, reqs: seq<Request>)
    requires w.slots == Poisoned
    ensures Serve(host, w, reqs) == WorkerState(Poisoned, w.history, w.port + PoisonedReplies(host, reqs))
    decreases |reqs|
  {
    if reqs == [] {
      assert w.port + [] == w.port;
    } else {
      PoisonedStep(host, w, reqs[0]);
      var w1 := WorkerState(Poisoned, w.history, w.port + [PoisonedReply(host, reqs[0])]);
      assert Serve(host, w, reqs) == Serve(host, w1, reqs[1..]);
      PoisonIsPermanent(host, w1, reqs[1..]);
      SeqAssoc(w.port, [PoisonedReply(host, reqs[0])], PoisonedReplies(host, reqs[1..]));
    }
  }

  /** The partial set-up failure: the library loads, the database constructor
      throws. That message replies with the constructor's error and leaves the
      worker poisoned. */
  lemma PartialSetUpPoisons(host: Host, w: WorkerState, req: Request)
    requires w.slots == Fresh
    requires host.initSqlJs(w.history).Normal?
    requires host.newDatabase(w.history + [InitSqlJs]).Throw?
    ensures Handle(host, w, req).slots == Poisoned
    ensures Handle(host, w, req).port ==
              w.port + [Error(host.newDatabase(w.history + [InitSqlJs]).message)]
  {
  }

  /** The first message, whatever its method, loads the library and opens the
      database when both succeed; an unrecognised one is then refused by name. */
  lemma UnknownFirstMessageStillSetsUp(host: Host)
    requires host.initSqlJs([]).Normal? && host.newDatabase([InitSqlJs]).Normal?
    ensures var w := Handle(host, Initial, Request(Defined("delete_everything"), "", Undefined));
      && w.slots == Slots(true, true)
      && w.history == [InitSqlJs, NewDatabase]
      && w.port == [Error("Unknown method: delete_everything")]
  {
    var req := Request(Defined("delete_everything"), "", Undefined);
    assert Route(req.verb) == OtherMethod;
    assert Initial.history + [InitSqlJs] == [InitSqlJs];
    var init := EnsureReady(host, Fresh, []);
    assert init.calls == [InitSqlJs, NewDatabase] && init.slots == Slots(true, true);
    UnknownMethodStillSetsUp(host, Initial, req);
    assert Initial.history + init.calls == [InitSqlJs, NewDatabase];
    UnknownDeleteEverything();
    assert Initial.port + [Error(UnknownMethodMessage(req.verb))] == [Error("Unknown method: delete_everything")];
  }
}
