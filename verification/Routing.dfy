/** The client's request router: one loop owns the socket, callers reach it through a queue, and each answer is routed by
    request id to the one-shot channel of the call that issued it. */
module Routing {
  import opened Options

  // ---- request ids ---------------------------------------------------------------------------------------------

  const RANGE: int := 0x1_0000_0000_0000_0000

  const HALF: int := 0x8000_0000_0000_0000

  /** The counter is a signed 64-bit integer: after 2^63 - 1 comes -2^63. */
  function NextId(id: int): int { if id == HALF - 1 then -HALF else id + 1 }

  /** The id of call number `k`, counting from 0. */
  function IdOf(k: nat): int { (k + HALF) % RANGE - HALF }

  lemma NextIdOf(k: nat)
    ensures NextId(IdOf(k)) == IdOf(k + 1)
  {
    var m := (k + HALF) % RANGE;
    if m + 1 < RANGE {
      RemIs(k + 1 + HALF, (k + HALF) / RANGE, m + 1);
    } else {
      RemIs(k + 1 + HALF, (k + HALF) / RANGE + 1, 0);
    }
  }

  lemma RemIs(n: int, q: int, r: int)
    requires n == q * RANGE + r && 0 <= r < RANGE
    ensures n % RANGE == r
  {
  }

  /** The first 2^64 calls have distinct ids. */
  lemma IdsDiffer(j: nat, k: nat)
    requires j < k < RANGE
    ensures IdOf(j) != IdOf(k)
  {
    if k + HALF < RANGE {
      RemIs(j + HALF, 0, j + HALF);
      RemIs(k + HALF, 0, k + HALF);
    } else if j + HALF < RANGE {
      RemIs(j + HALF, 0, j + HALF);
      RemIs(k + HALF, 1, k + HALF - RANGE);
    } else {
      RemIs(j + HALF, 1, j + HALF - RANGE);
      RemIs(k + HALF, 1, k + HALF - RANGE);
    }
  }

  // ---- places --------------------------------------------------------------------------------------------------

  /** A request waiting to be written to the socket, with the call whose channel is to get the answer. */
  datatype Route = Route(id: int, caller: nat)

  /** Where a request is: its call has not got it into the queue, it is queued, written and unanswered, answered, or lost. */
  datatype Place = Unissued | Calling | Queued | InFlight | Answered | Dropped

  function Ids(queue: seq<Route>): set<int> { set r | r in queue :: r.id }

  /** Who holds which request: routes by id, with the caller they answer to. */
  datatype Places = Places(calling: map<int, nat>, queue: seq<Route>, routes: map<int, nat>, answered: set<int>, dropped: set<int>)

  /** The requests of the first `n` calls, each in exactly one place, and each with its own call's channel. */
  ghost predicate Sorted(n: nat, p: Places) {
    && n <= RANGE
    && (forall k :: 0 <= k < n ==>
          || IdOf(k) in p.calling || IdOf(k) in Ids(p.queue) || IdOf(k) in p.routes || IdOf(k) in p.answered
          || IdOf(k) in p.dropped)
    && (forall id :: id in p.calling ==> p.calling[id] < n && id == IdOf(p.calling[id]))
    && (forall r :: r in p.queue ==> r.caller < n && r.id == IdOf(r.caller))
    && (forall id :: id in p.routes ==> p.routes[id] < n && id == IdOf(p.routes[id]))
    && (forall id :: id in p.answered + p.dropped ==> exists k :: 0 <= k < n && id == IdOf(k))
    && (forall i, j :: 0 <= i < j < |p.queue| ==> p.queue[i].id != p.queue[j].id)
    && p.calling.Keys !! Ids(p.queue) !! p.routes.Keys !! p.answered !! p.dropped
  }

  ghost function PlaceIn(p: Places, id: int): Place {
    if id in p.calling then Calling
    else if id in Ids(p.queue) then Queued
    else if id in p.routes then InFlight
    else if id in p.answered then Answered
    else if id in p.dropped then Dropped
    else Unissued
  }

  /** Only request `id` has moved. */
  ghost predicate Moved(p: Places, q: Places, id: int, to: Place) {
    forall j :: PlaceIn(q, j) == if j == id then to else PlaceIn(p, j)
  }

  /** Everything in flight is lost. */
  ghost predicate Lost(p: Places, q: Places) {
    forall j :: PlaceIn(q, j) == if PlaceIn(p, j) == InFlight then Dropped else PlaceIn(p, j)
  }

  /** The ways a request may go. */
  predicate Legal(from: Place, to: Place) {
    || from == to
    || (from == Unissued && to == Calling)
    || (from == Calling && to in {Queued, Dropped})
    || (from == Queued && to in {InFlight, Dropped})
    || (from == InFlight && to in {Answered, Dropped})
  }

  ghost predicate Advances(p: Places, q: Places) { forall j :: Legal(PlaceIn(p, j), PlaceIn(q, j)) }

  function Rank(a: Place): nat {
    match a
    case Unissued => 0
    case Calling => 1
    case Queued => 2
    case InFlight => 3
    case Answered => 4
    case Dropped => 4
  }

  /** Over any run a request only moves on, and once answered or dropped it stays so. */
  lemma {:induction false} NeverBack(run: seq<Places>, i: nat, j: nat, id: int)
    requires forall k :: 0 <= k < |run| - 1 ==> Advances(run[k], run[k + 1])
    requires i <= j < |run|
    ensures Rank(PlaceIn(run[i], id)) <= Rank(PlaceIn(run[j], id))
    ensures PlaceIn(run[i], id) in {Answered, Dropped} ==> PlaceIn(run[j], id) == PlaceIn(run[i], id)
    decreases j - i
  {
    if i < j {
      NeverBack(run, i, j - 1, id);
      assert Advances(run[j - 1], run[j - 1 + 1]);
      assert Legal(PlaceIn(run[j - 1], id), PlaceIn(run[j], id));
    }
  }

  /** The channels: an answer is only ever in the channel of the call whose request it answers, and a caller still there finds
      it. */
  ghost predicate Mailed<A>(n: nat, answered: set<int>, inbox: map<nat, A>, gone: set<nat>, delivered: map<nat, A>) {
    && (forall k :: k in delivered ==> k < n && IdOf(k) in answered)
    && (forall k :: k in inbox ==> k in delivered && inbox[k] == delivered[k])
    && (forall k :: 0 <= k < n && k !in gone && IdOf(k) in answered ==> k in inbox)
    && (forall k :: k in gone ==> k < n)
  }

  /** What arrives from the socket; `alive` tells whether the subscriber's channel still takes it. */
  datatype Message<A> = Response(id: int, answer: A) | Notification(stream: int, alive: bool) | Listen(channel: string, alive: bool)
                      | Unreadable

  /** What a caller sends beside its requests. */
  datatype Param = Param(stream: Option<(int, int)>, listen: Option<(string, int)>, token: Option<string>)

  /** What a caller finds when it looks at its channel. */
  datatype Outcome<A> = Ready(answer: A) | Failed | Waiting

  lemma IdsAppend(queue: seq<Route>, r: Route)
    ensures Ids(queue + [r]) == Ids(queue) + {r.id}
  {
    assert (queue + [r])[|queue|] == r;
  }

  lemma IdsTail(queue: seq<Route>)
    requires queue != [] && forall i, j :: 0 <= i < j < |queue| ==> queue[i].id != queue[j].id
    ensures Ids(queue[1..]) == Ids(queue) - {queue[0].id} && queue[0].id in Ids(queue)
  {
    assert queue[0] in queue;
    forall r | r in queue && r != queue[0] ensures r in queue[1..] && r.id != queue[0].id {
      var i :| 0 <= i < |queue| && queue[i] == r;
      assert queue[1..][i - 1] == r;
    }
    forall r | r in queue[1..] ensures r.id != queue[0].id {
      var i :| 0 <= i < |queue| - 1 && queue[1..][i] == r;
      assert queue[i + 1] == r;
    }
  }

  /** A call's own id tells the call. */
  lemma SameCall(j: nat, k: nat)
    requires j < RANGE && k < RANGE && IdOf(j) == IdOf(k)
    ensures j == k
  {
    if j < k {
      IdsDiffer(j, k);
    } else if k < j {
      IdsDiffer(k, j);
    }
  }

  // ---- moves ---------------------------------------------------------------------------------------------------

  lemma IssueMove(n: nat, p: Places)
    requires Sorted(n, p) && n < RANGE
    ensures PlaceIn(p, IdOf(n)) == Unissued
    ensures var q := p.(calling := p.calling[IdOf(n) := n]); Sorted(n + 1, q) && Moved(p, q, IdOf(n), Calling)
  {
    forall k: nat | k < n ensures IdOf(k) != IdOf(n) {
      IdsDiffer(k, n);
    }
  }

  lemma EnqueueMove(n: nat, p: Places, id: int)
    requires Sorted(n, p) && id in p.calling
    ensures var q := p.(calling := p.calling - {id}, queue := p.queue + [Route(id, p.calling[id])]);
            Sorted(n, q) && PlaceIn(p, id) == Calling && Moved(p, q, id, Queued)
  {
    hide Sorted;
    EnqueueSorted(n, p, id);
    IdsAppend(p.queue, Route(id, p.calling[id]));
  }

  lemma EnqueueSorted(n: nat, p: Places, id: int)
    requires Sorted(n, p) && id in p.calling
    ensures Sorted(n, p.(calling := p.calling - {id}, queue := p.queue + [Route(id, p.calling[id])]))
  {
    hide IdOf;
    var r := Route(id, p.calling[id]);
    IdsAppend(p.queue, r);
    forall i | 0 <= i < |p.queue| ensures p.queue[i].id != id {
      assert p.queue[i] in p.queue;
    }
  }

  lemma LeaveMove(n: nat, p: Places, id: int)
    requires Sorted(n, p) && id in p.calling
    ensures var q := p.(calling := p.calling - {id}, dropped := p.dropped + {id});
            Sorted(n, q) && PlaceIn(p, id) == Calling && Moved(p, q, id, Dropped)
  {
  }

  lemma SendMove(n: nat, p: Places)
    requires Sorted(n, p) && p.queue != []
    ensures var r := p.queue[0];
            var q := p.(queue := p.queue[1..], routes := p.routes[r.id := r.caller]);
            PlaceIn(p, r.id) == Queued && r.id !in p.routes && Sorted(n, q) && Moved(p, q, r.id, InFlight)
  {
    hide IdOf;
    IdsTail(p.queue);
  }

  lemma BreakMove(n: nat, p: Places)
    requires Sorted(n, p) && p.queue != []
    ensures var r := p.queue[0];
            var q := p.(queue := p.queue[1..], dropped := p.dropped + {r.id});
            PlaceIn(p, r.id) == Queued && Sorted(n, q) && Moved(p, q, r.id, Dropped)
  {
    IdsTail(p.queue);
    BreakStays(n, p);
    hide Sorted;
    HeadIsQueued(n, p);
  }

  lemma HeadIsQueued(n: nat, p: Places)
    requires Sorted(n, p) && p.queue != []
    ensures PlaceIn(p, p.queue[0].id) == Queued
  {
    assert p.queue[0] in p.queue;
  }

  lemma BreakStays(n: nat, p: Places)
    requires Sorted(n, p) && p.queue != []
    ensures Sorted(n, p.(queue := p.queue[1..], dropped := p.dropped + {p.queue[0].id}))
  {
    hide IdOf;
    IdsTail(p.queue);
    assert p.queue[0] in p.queue;
  }

  lemma LoseMove(n: nat, p: Places)
    requires Sorted(n, p)
    ensures var q := p.(routes := map[], dropped := p.dropped + p.routes.Keys); Sorted(n, q) && Lost(p, q)
  {
  }

  lemma AnswerMove(n: nat, p: Places, id: int)
    requires Sorted(n, p) && id in p.routes
    ensures var q := p.(routes := p.routes - {id}, answered := p.answered + {id});
            Sorted(n, q) && Moved(p, q, id, Answered) && PlaceIn(p, id) == InFlight
  {
  }

  /** The channel an answer goes to is empty. */
  lemma AnswerMails<A>(n: nat, p: Places, id: int, inbox: map<nat, A>, gone: set<nat>, delivered: map<nat, A>, answer: A)
    requires Sorted(n, p) && id in p.routes && Mailed(n, p.answered, inbox, gone, delivered)
    ensures var k := p.routes[id];
            && IdOf(k) == id && k !in inbox && k !in delivered
            && Mailed(n, p.answered + {id}, if k in gone then inbox else inbox[k := answer], gone,
                      if k in gone then delivered else delivered[k := answer])
  {
    forall k | 0 <= k < n && k != p.routes[id] ensures IdOf(k) != id {
      if IdOf(k) == id {
        SameCall(k, p.routes[id]);
      }
    }
  }

  lemma IssueMails<A>(n: nat, p: Places, inbox: map<nat, A>, gone: set<nat>, delivered: map<nat, A>)
    requires Sorted(n, p) && n < RANGE && Mailed(n, p.answered, inbox, gone, delivered)
    ensures Mailed(n + 1, p.answered, inbox, gone, delivered)
  {
    IssueMove(n, p);
  }

  /** What a caller can tell from its channel is where its request is. */
  lemma OnItsWay<A>(n: nat, p: Places, k: nat, inbox: map<nat, A>, gone: set<nat>, delivered: map<nat, A>)
    requires Sorted(n, p) && k < n && Mailed(n, p.answered, inbox, gone, delivered) && k !in gone
    ensures k in inbox <==> PlaceIn(p, IdOf(k)) == Answered
    ensures k in inbox ==> k in delivered && inbox[k] == delivered[k]
    ensures IdOf(k) in p.calling || IdOf(k) in Ids(p.queue) || IdOf(k) in p.routes
            <==> PlaceIn(p, IdOf(k)) in {Calling, Queued, InFlight}
    ensures PlaceIn(p, IdOf(k)) != Unissued
  {
  }

  predicate Answers<A>(m: Message<A>, routes: map<int, nat>) { m.Response? && m.id in routes }

  class Router<A(==)> {
    const capacity: nat
    var lastId: int
    var calling: map<int, nat>
    var queue: seq<Route>
    var routes: map<int, nat>
    var inbox: map<nat, A>
    var gone: set<nat>
    var liveQueries: map<int, int>
    var channels: map<string, int>
    var token: Option<string>
    var calls: nat  // channels made so far; a call is known by the number of its channel
    ghost var answered: set<int>
    ghost var dropped: set<int>
    ghost var delivered: map<nat, A>

    /** Every request is in exactly one place; an answer is only ever in the channel of the call whose request it answers; the
        queue never exceeds its capacity. */
    ghost predicate Valid()
      reads this
    {
      && lastId == IdOf(calls)
      && Sorted(calls, Held())
      && Mailed(calls, answered, inbox, gone, delivered)
      && (capacity == 0 || |queue| <= capacity)
    }

    ghost function Held(): Places
      reads this`calling, this`queue, this`routes, this`answered, this`dropped
    {
      Places(calling, queue, routes, answered, dropped)
    }

    ghost function PlaceOf(id: int): Place
      reads this`calling, this`queue, this`routes, this`answered, this`dropped
    {
      PlaceIn(Held(), id)
    }

    constructor (capacity: nat)
      ensures Valid() && calls == 0 && forall id :: PlaceOf(id) == Unissued
    {
      this.capacity := capacity;
      lastId, calling, queue, routes, inbox, gone := 0, map[], [], map[], map[], {};
      liveQueries, channels, token := map[], map[], None;
      calls, answered, dropped, delivered := 0, {}, {}, map[];
    }

    /** `send`, up to the queue: a new id and a one-shot channel. */
    method Issue() returns (id: int)
      requires Valid() && calls < RANGE
      modifies this`lastId, this`calling, this`calls
      ensures Valid() && calls == old(calls) + 1 && id == IdOf(old(calls)) && id in calling && calling[id] == old(calls)
      ensures Advances(old(Held()), Held())
      ensures old(PlaceOf(id)) == Unissued && Moved(old(Held()), Held(), id, Calling)
    {
      hide Sorted, PlaceIn, Mailed, IdOf, Ids;
      id := lastId;
      IssueMove(calls, Held());
      IssueMails(calls, Held(), inbox, gone, delivered);
      NextIdOf(calls);
      lastId := NextId(lastId);
      calling := calling[id := calls];
      calls := calls + 1;
    }

    /** The call's route enters the queue, when there is room. */
    method Enqueue(id: int) returns (ok: bool)
      requires Valid() && id in calling
      modifies this`calling, this`queue
      ensures Valid() && (ok <==> capacity == 0 || |old(queue)| < capacity)
      ensures Advances(old(Held()), Held())
      ensures ok ==> Moved(old(Held()), Held(), id, Queued)
      ensures !ok ==> Held() == old(Held())
      ensures queue == if ok then old(queue) + [Route(id, old(calling)[id])] else old(queue)
    {
      hide Sorted, PlaceIn, Mailed, IdOf, Ids;
      ok := capacity == 0 || |queue| < capacity;
      if ok {
        EnqueueMove(calls, Held(), id);
        queue := queue + [Route(id, calling[id])];
        calling := calling - {id};
      }
    }

    /** The caller stops waiting: a route not yet queued goes with it. */
    method Leave(k: nat)
      requires Valid() && k < calls
      modifies this`calling, this`inbox, this`gone, this`dropped
      ensures Valid()
      ensures Advances(old(Held()), Held())
      ensures IdOf(k) in old(calling) ==> Moved(old(Held()), Held(), IdOf(k), Dropped)
      ensures IdOf(k) !in old(calling) ==> Held() == old(Held())
      ensures inbox == old(inbox) - {k} && gone == old(gone) + {k}
    {
      hide Sorted, PlaceIn, IdOf, Ids;
      var id := IdOf(k);
      if id in calling {
        LeaveMove(calls, Held(), id);
        dropped := dropped + {id};
        calling := calling - {id};
      }
      inbox, gone := inbox - {k}, gone + {k};
    }

    /** The caller looks at its channel. It gets the answer to its own request and is done; it fails once no one holds the sending
        end; it waits only while its request is still on its way. */
    method Receive(k: nat) returns (r: Outcome<A>)
      requires Valid() && k < calls && k !in gone
      modifies this`inbox, this`gone
      ensures Valid()
      ensures Advances(old(Held()), Held())
      ensures r.Ready? <==> PlaceOf(IdOf(k)) == Answered
      ensures r.Ready? ==> k in delivered && r.answer == delivered[k]
      ensures r.Failed? <==> PlaceOf(IdOf(k)) == Dropped
      ensures r.Waiting? <==> PlaceOf(IdOf(k)) in {Calling, Queued, InFlight}
      ensures gone == old(gone) + (if r.Waiting? then {} else {k}) && inbox == old(inbox) - (if r.Ready? then {k} else {})
    {
      hide Sorted, PlaceIn, IdOf;
      var id := IdOf(k);
      OnItsWay(calls, Held(), k, inbox, gone, delivered);
      if k in inbox {
        r := Ready(inbox[k]);
        inbox, gone := inbox - {k}, gone + {k};
      } else if id in calling || id in Ids(queue) || id in routes {
        r := Waiting;
      } else {
        r := Failed;
        gone := gone + {k};
      }
    }

    /** Connecting again, and the start of the router's outer loop: what was in flight is lost, subscriptions to channels stay.
        `used` is the token the new connection is made with. */
    method Reconnect() returns (used: Option<string>)
      requires Valid()
      modifies this`routes, this`liveQueries, this`token, this`dropped
      ensures Valid()
      ensures Advances(old(Held()), Held())
      ensures Lost(old(Held()), Held())
      ensures routes == map[] && liveQueries == map[] && token == None && used == old(token)
    {
      hide Sorted, PlaceIn, Mailed, IdOf, Ids;
      used := token;
      LoseMove(calls, Held());
      dropped := dropped + routes.Keys;
      liveQueries, routes, token := map[], map[], None;
    }

    /** The oldest queued request is written to the socket, or the socket is found broken. The entry for its id is vacant. */
    method HandleRoute(sent: bool)
      requires Valid() && queue != []
      modifies this`queue, this`routes, this`liveQueries, this`token, this`dropped
      ensures Valid() && queue == old(queue)[1..]
      ensures Advances(old(Held()), Held())
      ensures old(PlaceOf(queue[0].id)) == Queued
      ensures sent ==> old(queue)[0].id !in old(routes) && Moved(old(Held()), Held(), old(queue)[0].id, InFlight)
      ensures !sent ==> forall j ::
                PlaceOf(j) == if j == old(queue)[0].id || old(PlaceOf(j)) == InFlight then Dropped else old(PlaceOf(j))
      ensures sent ==> routes == old(routes)[old(queue)[0].id := old(queue)[0].caller]
      ensures sent ==> liveQueries == old(liveQueries) && token == old(token)
    {
      hide Sorted, PlaceIn, Mailed, IdOf, Ids;
      var r := queue[0];
      SendMove(calls, Held());
      BreakMove(calls, Held());
      queue := queue[1..];
      if sent {
        routes := routes[r.id := r.caller];
      } else {
        dropped := dropped + {r.id};
        var _ := Reconnect();
      }
    }

    /** A message from the socket. An answer goes to the call that issued its id, whose channel is empty, and is the last for
        that id; an answer nobody waits for changes nothing. */
    method HandleResponse(m: Message<A>)
      requires Valid()
      modifies this`routes, this`inbox, this`liveQueries, this`channels, this`answered, this`delivered
      ensures Valid()
      ensures Advances(old(Held()), Held())
      ensures !Answers(m, old(routes)) ==>
                Held() == old(Held()) && inbox == old(inbox) && delivered == old(delivered)
      ensures Answers(m, old(routes)) ==>
                var k := old(routes)[m.id];
                && old(PlaceOf(m.id)) == InFlight && Moved(old(Held()), Held(), m.id, Answered)
                && IdOf(k) == m.id && k !in old(inbox) && k !in old(delivered)
                && inbox == (if k in gone then old(inbox) else old(inbox)[k := m.answer])
                && delivered == (if k in gone then old(delivered) else old(delivered)[k := m.answer])
      ensures liveQueries == if m.Notification? && !m.alive then old(liveQueries) - {m.stream} else old(liveQueries)
      ensures channels == if m.Listen? && !m.alive then old(channels) - {m.channel} else old(channels)
    {
      hide Sorted, PlaceIn, Mailed, IdOf, Ids;
      match m
      case Response(id, answer) =>
        if id in routes {
          var k := routes[id];
          AnswerMove(calls, Held(), id);
          AnswerMails(calls, Held(), id, inbox, gone, delivered, answer);
          routes, answered := routes - {id}, answered + {id};
          if k !in gone {
            inbox, delivered := inbox[k := answer], delivered[k := answer];
          }
        }
      case Notification(stream, alive) =>
        if stream in liveQueries && !alive {
          liveQueries := liveQueries - {stream};
        }
      case Listen(channel, alive) =>
        if channel in channels && !alive {
          channels := channels - {channel};
        }
      case Unreadable =>
    }

    /** A subscription or a token from a caller. */
    method HandleParam(p: Param)
      requires Valid()
      modifies this`liveQueries, this`channels, this`token
      ensures Valid()
      ensures Advances(old(Held()), Held())
      ensures channels == if p.listen.Some? then old(channels)[p.listen.value.0 := p.listen.value.1] else old(channels)
      ensures liveQueries == if p.stream.Some? then old(liveQueries)[p.stream.value.0 := p.stream.value.1] else old(liveQueries)
      ensures token == if p.token.Some? then p.token else old(token)
    {
      hide Sorted, PlaceIn, Mailed, IdOf, Ids;
      if p.listen.Some? {
        channels := channels[p.listen.value.0 := p.listen.value.1];
      }
      if p.stream.Some? {
        liveQueries := liveQueries[p.stream.value.0 := p.stream.value.1];
      }
      if p.token.Some? {
        token := p.token;
      }
    }

    /** Every handle is gone and the queue is drained: the router ends, and what is in flight is lost. */
    method Shutdown()
      requires Valid() && queue == [] && calling == map[]
      modifies this`routes, this`dropped
      ensures Valid() && Lost(old(Held()), Held())
      ensures Advances(old(Held()), Held())
      ensures forall k :: 0 <= k < calls ==> PlaceOf(IdOf(k)) in {Answered, Dropped}
    {
      hide IdOf, Mailed;
      LoseMove(calls, Held());
      dropped := dropped + routes.Keys;
      routes := map[];
    }
  }
}
