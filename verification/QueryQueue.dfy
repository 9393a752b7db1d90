/** The queue of Postgres queries in lib/postgresMgr.js: one query at a time, with callbacks that may queue more. */
module QueryQueue {
  import opened Wrappers

  /** A query; its callback queues further queries, depending on whether it was called with an error. */
  datatype Request = Request(text: string, onSuccess: seq<Request>, onError: seq<Request>)

  /** A request as an object with an identity: the number of its submission. */
  datatype Ticket = Ticket(number: nat, request: Request)

  /** A callback made: whose, and with an error or not. */
  datatype Call = Call(number: nat, failed: bool)

  datatype Event =
    | Submit(request: Request)
    | ClientError                    // of the current client
    | QueryError(number: nat)        // reported for the query of that submission, possibly after it was finished
    | QueryEnd(number: nat)

  /** What a callback submits. */
  function FollowUps(request: Request, failed: bool): seq<Request> {
    if failed then request.onError else request.onSuccess
  }

  /** The requests as tickets, numbered from `first` on. */
  function Tickets(requests: seq<Request>, first: nat): seq<Ticket> {
    seq(|requests|, i requires 0 <= i < |requests| => Ticket(first + i, requests[i]))
  }

  /** The requests that are not finished, in order, and what has become of the others. */
  datatype Progress = Progress(pending: seq<Ticket>, submitted: nat, callbacks: seq<Call>, crashed: bool)

  /** The first of them is finished, and what its callback submits comes last. */
  function Finished(q: Progress, failed: bool): Progress
    requires q.pending != []
  {
    var more := FollowUps(q.pending[0].request, failed);
    Progress(q.pending[1..] + Tickets(more, q.submitted), q.submitted + |more|,
             q.callbacks + [Call(q.pending[0].number, failed)], q.crashed)
  }

  predicate IsFirst(q: Progress, number: nat) {
    q.pending != [] && q.pending[0].number == number
  }

  function After(q: Progress, e: Event): Progress {
    if q.crashed then q
    else
      match e
      case Submit(request) => q.(pending := q.pending + [Ticket(q.submitted, request)], submitted := q.submitted + 1)
      case ClientError => if q.pending == [] then q else Finished(q, true)
      case QueryError(number) => if IsFirst(q, number) then Finished(q, true) else q
      case QueryEnd(number) => if IsFirst(q, number) then Finished(q, false) else q.(crashed := true)
  }

  function AfterAll(q: Progress, events: seq<Event>): Progress
    decreases |events|
  {
    if events == [] then q else AfterAll(After(q, events[0]), events[1..])
  }

  lemma {:induction false} AfterOneMore(q: Progress, events: seq<Event>, e: Event)
    ensures AfterAll(q, events + [e]) == After(AfterAll(q, events), e)
    decreases |events|
  {
    if events == [] {
      assert events + [e] == [e] && [e][1..] == [];
    } else {
      assert (events + [e])[1..] == events[1..] + [e];
      AfterOneMore(After(q, events[0]), events[1..], e);
    }
  }

  function EndsFrom(first: nat, n: nat): seq<Event> {
    seq(n, i requires 0 <= i => QueryEnd(first + i))
  }

  function Answers(first: nat, n: nat): seq<Call> {
    seq(n, i requires 0 <= i => Call(first + i, false))
  }

  /** While the queries of the pending requests end one after the other, each callback is made, without an error. */
  lemma {:induction false} EndsAreAnswered(q: Progress, first: nat, n: nat)
    requires !q.crashed && n <= |q.pending| && forall i :: 0 <= i < |q.pending| ==> q.pending[i].number == first + i
    requires q.submitted == first + |q.pending|
    ensures var r := AfterAll(q, EndsFrom(first, n));
      !r.crashed && r.callbacks == q.callbacks + Answers(first, n)
    decreases n
  {
    if n > 0 {
      var q1 := After(q, QueryEnd(first));
      assert EndsFrom(first, n)[1..] == EndsFrom(first + 1, n - 1);
      assert forall i :: 0 <= i < |q1.pending| ==> q1.pending[i].number == first + 1 + i;
      EndsAreAnswered(q1, first + 1, n - 1);
      assert [Call(first, false)] + Answers(first + 1, n - 1) == Answers(first, n);
    }
  }

  class Queue {
    var outstanding: Option<Ticket>
    var queued: seq<Ticket>
    var client: bool                 // there is a client connection
    var submitted: nat
    var callbacks: seq<Call>
    var crashed: bool                // an assertion has failed

    /** All requests that are not finished, in order. */
    function Pending(): seq<Ticket>
      reads this
    {
      (if outstanding.Some? then [outstanding.value] else []) + queued
    }

    ghost function Progressed(): Progress
      reads this
    {
      Progress(Pending(), submitted, callbacks, crashed)
    }

    /** Finished, outstanding and queued requests are together all that were submitted, in that order. */
    ghost predicate Valid()
      reads this
    {
      && submitted == |callbacks| + |Pending()|
      && (forall i :: 0 <= i < |callbacks| ==> callbacks[i].number == i)
      && (forall i :: 0 <= i < |Pending()| ==> Pending()[i].number == |callbacks| + i)
    }

    /** Between events: requests wait only behind an outstanding one, which has a client. */
    ghost predicate Settled()
      reads this
    {
      (queued != [] ==> outstanding.Some?) && (outstanding.Some? ==> client)
    }

    lemma QueuedInOrder()
      requires Valid() && Settled()
      ensures outstanding.Some? ==> outstanding.value.number == |callbacks|
      ensures outstanding.Some? <==> |callbacks| < submitted
      ensures forall i :: 0 <= i < |queued| ==> queued[i].number == |callbacks| + 1 + i
    {
      assert outstanding.Some? ==> Pending()[0] == outstanding.value;
      forall i | 0 <= i < |queued| ensures queued[i].number == |callbacks| + 1 + i {
        assert Pending()[i + 1] == queued[i];
      }
    }

    constructor ()
      ensures Valid() && Settled() && Pending() == [] && submitted == 0 && !crashed
    {
      outstanding, queued, client, submitted, callbacks, crashed := None, [], false, 0, [], false;
    }

    /** `_pgQueryKick`. */
    method Kick()
      requires Valid()
      modifies `outstanding, `queued, `client
      ensures Valid() && Pending() == old(Pending())
      ensures Settled() || (old(outstanding).Some? && !client)
      ensures old(outstanding).Some? ==> outstanding == old(outstanding) && client == old(client)
    {
      if outstanding.Some? || queued == [] {
        return;
      }
      assert Pending() == [queued[0]] + queued[1..];
      outstanding, queued := Some(queued[0]), queued[1..];
      if !client {
        client := true;
      }
    }

    /** `_queryDb`. */
    method Submit(request: Request)
      requires Valid() && (outstanding.Some? ==> client)
      modifies `outstanding, `queued, `client, `submitted
      ensures Valid() && Settled()
      ensures Pending() == old(Pending()) + [Ticket(old(submitted), request)]
      ensures submitted == old(submitted) + 1 && callbacks == old(callbacks) && crashed == old(crashed)
      ensures old(outstanding).Some? ==> outstanding == old(outstanding)
    {
      queued := queued + [Ticket(submitted, request)];
      submitted := submitted + 1;
      assert Pending() == old(Pending()) + [Ticket(old(submitted), request)];
      Kick();
    }

    /**
     * `_pgQueryFini`: the first pending request is finished, its callback is made, what the callback submits goes to
     * the end, and the next request, if there is one, is issued.
     */
    method Fini(failed: bool)
      requires Valid() && outstanding.Some? && client
      modifies this
      ensures Valid() && Settled() && crashed == old(crashed)
      ensures callbacks == old(callbacks) + [Call(old(outstanding).value.number, failed)]
      ensures Pending() == old(Pending())[1..] + Tickets(FollowUps(old(outstanding).value.request, failed), old(submitted))
      ensures submitted == old(submitted) + |FollowUps(old(outstanding).value.request, failed)|
    {
      var rq := outstanding.value;
      ghost var rest := Pending()[1..];
      assert old(Pending())[0] == rq;
      outstanding := None;
      if failed {
        client := false;
      }
      callbacks := callbacks + [Call(rq.number, failed)];
      assert Pending() == rest;
      assert forall i :: 0 <= i < |rest| ==> rest[i] == old(Pending())[i + 1];
      var more := FollowUps(rq.request, failed);
      for i := 0 to |more|
        invariant Valid() && (outstanding.Some? ==> client)
        invariant submitted == old(submitted) + i
        invariant callbacks == old(callbacks) + [Call(rq.number, failed)] && crashed == old(crashed)
        invariant Pending() == rest + Tickets(more, old(submitted))[..i]
      {
        Submit(more[i]);
        assert Tickets(more, old(submitted))[..i + 1] == Tickets(more, old(submitted))[..i] + [Ticket(old(submitted) + i, more[i])];
      }
      assert Tickets(more, old(submitted))[..|more|] == Tickets(more, old(submitted));
      Kick();
    }

    /** The client's own error event: it finishes the outstanding request, or only drops the client. */
    method OnClientError()
      requires Valid() && Settled() && client
      modifies this
      ensures Valid() && Settled() && crashed == old(crashed)
      ensures !old(crashed) ==> Progressed() == After(old(Progressed()), ClientError)
      ensures old(outstanding).None? ==> Pending() == old(Pending()) && callbacks == old(callbacks)
      ensures old(outstanding).Some? ==>
        && callbacks == old(callbacks) + [Call(old(outstanding).value.number, true)]
        && Pending() == old(Pending())[1..] + Tickets(old(outstanding).value.request.onError, old(submitted))
    {
      if outstanding.Some? {
        Fini(true);
      } else {
        client := false;
      }
    }

    /** A query's error event, which is ignored if a client error has finished the request already. */
    method OnQueryError(number: nat)
      requires Valid() && Settled()
      modifies this
      ensures Valid() && Settled() && crashed == old(crashed)
      ensures !old(crashed) ==> Progressed() == After(old(Progressed()), QueryError(number))
      ensures var hit := old(outstanding).Some? && old(outstanding).value.number == number;
        if hit then
          && callbacks == old(callbacks) + [Call(number, true)]
          && Pending() == old(Pending())[1..] + Tickets(old(outstanding).value.request.onError, old(submitted))
        else Pending() == old(Pending()) && callbacks == old(callbacks)
    {
      if outstanding.Some? && outstanding.value.number == number {
        Fini(true);
      }
    }

    /** A query's end event. That the request is the outstanding one is asserted. */
    method OnQueryEnd(number: nat)
      requires Valid() && Settled()
      modifies this
      ensures Valid() && Settled()
      ensures !old(crashed) ==> Progressed() == After(old(Progressed()), QueryEnd(number))
      ensures var hit := old(outstanding).Some? && old(outstanding).value.number == number;
        && crashed == (old(crashed) || !hit)
        && if hit then
             && callbacks == old(callbacks) + [Call(number, false)]
             && Pending() == old(Pending())[1..] + Tickets(old(outstanding).value.request.onSuccess, old(submitted))
           else Pending() == old(Pending()) && callbacks == old(callbacks)
    {
      if outstanding.None? || outstanding.value.number != number {
        crashed := true;
      } else {
        Fini(false);
      }
    }

    /** One event; a client that is not there cannot fail. */
    method Handle(e: Event)
      requires Valid() && Settled() && !crashed
      modifies this
      ensures Valid() && Settled() && Progressed() == After(old(Progressed()), e)
      ensures |old(callbacks)| <= |callbacks| && callbacks[..|old(callbacks)|] == old(callbacks)
    {
      match e
      case Submit(request) => Submit(request);
      case ClientError =>
        if client {
          OnClientError();
        }
      case QueryError(number) => OnQueryError(number);
      case QueryEnd(number) => OnQueryEnd(number);
    }

    /**
     * Any series of events, until an assertion fails. The callbacks made are those of the submissions 0, 1, 2, ..., each
     * once and in order; the next submission is the outstanding one, and all later ones are queued behind it.
     */
    method Serve(events: seq<Event>)
      requires Valid() && Settled()
      modifies this
      ensures Valid() && Settled()
      ensures outstanding.Some? ==> outstanding.value.number == |callbacks|
      ensures outstanding.Some? <==> |callbacks| < submitted
      ensures forall i :: 0 <= i < |queued| ==> queued[i].number == |callbacks| + 1 + i
      ensures |old(callbacks)| <= |callbacks| && callbacks[..|old(callbacks)|] == old(callbacks)
      ensures Progressed() == AfterAll(old(Progressed()), events)
    {
      for i := 0 to |events|
        invariant Valid() && Settled()
        invariant Progressed() == AfterAll(old(Progressed()), events[..i])
        invariant |old(callbacks)| <= |callbacks| && callbacks[..|old(callbacks)|] == old(callbacks)
      {
        AfterOneMore(old(Progressed()), events[..i], events[i]);
        assert events[..i + 1] == events[..i] + [events[i]];
        if !crashed {
          Handle(events[i]);
        }
      }
      assert events[..|events|] == events;
      QueuedInOrder();
    }
  }
}
