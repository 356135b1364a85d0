/** The change-stream assembler: Begin, row and Commit actions of a replication stream grouped into transactions. */
module ChangeStream {
  import opened Options

  datatype Action<R> = Begin | Commit | Row(row: R)

  /** What the stream yields. `heard` tells whether a receiver is left when a transaction is sent, `answered` whether a reply
      that is asked for gets through. */
  datatype Event<R> = Data(action: Action<R>, heard: bool) | Garbled | Keepalive(answered: bool) | Failed | Other

  /** Transactions sent, rows of the transaction held, and whether the loop still runs. */
  datatype Watched<R> = Watched(sent: seq<seq<R>>, held: Option<seq<R>>, alive: bool)

  // ---- the loop ------------------------------------------------------------------------------------------------

  function Step<R>(w: Watched<R>, e: Event<R>): Watched<R> {
    match e
    case Data(Begin, _) => w.(held := Some([]))
    case Data(Commit, heard) =>
      if w.held == None then w else if heard then Watched(w.sent + [w.held.value], None, true) else w.(alive := false)
    case Data(Row(r), _) => if w.held == None then w.(alive := false) else w.(held := Some(w.held.value + [r]))
    case Garbled => w.(alive := false)
    case Keepalive(answered) => w.(alive := answered)
    case Failed => w
    case Other => w
  }

  /** The state after a stream; nothing happens after a panic. */
  function After<R>(events: seq<Event<R>>): Watched<R> {
    if events == [] then Watched([], None, true)
    else
      var before := After(events[..|events| - 1]);
      if before.alive then Step(before, events[|events| - 1]) else before
  }

  /** `watch`, up to the end of the stream or the first panic. */
  method Watch<R>(events: seq<Event<R>>) returns (sent: seq<seq<R>>, held: Option<seq<R>>, alive: bool)
    ensures Watched(sent, held, alive) == After(events)
  {
    sent, held, alive := [], None, true;
    for i := 0 to |events|
      invariant alive && Watched(sent, held, alive) == After(events[..i])
    {
      assert events[..i + 1][..i] == events[..i];
      match events[i]
      case Data(Begin, _) =>
        held := Some([]);
      case Data(Commit, heard) =>
        if held.Some? {
          if !heard {
            alive := false;
            Dead(events, i + 1);
            return;
          }
          sent, held := sent + [held.value], None;
        }
      case Data(Row(r), _) =>
        if held == None {
          alive := false;
          Dead(events, i + 1);
          return;
        }
        held := Some(held.value + [r]);
      case Garbled =>
        alive := false;
        Dead(events, i + 1);
        return;
      case Keepalive(answered) =>
        if !answered {
          alive := false;
          Dead(events, i + 1);
          return;
        }
      case Failed =>
      case Other =>
    }
    assert events[..|events|] == events;
  }

  lemma {:induction false} Dead<R>(events: seq<Event<R>>, i: nat)
    requires i <= |events| && !After(events[..i]).alive
    ensures After(events) == After(events[..i])
    decreases |events|
  {
    if i < |events| {
      assert events[..|events| - 1][..i] == events[..i];
      Dead(events[..|events| - 1], i);
    } else {
      assert events[..i] == events;
    }
  }

  // ---- well-bracketed streams ----------------------------------------------------------------------------------

  function RowActions<R>(rows: seq<R>): (a: seq<Action<R>>)
    ensures |a| == |rows| && forall i :: 0 <= i < |rows| ==> a[i] == Row(rows[i])
  {
    seq(|rows|, i requires 0 <= i < |rows| => Row(rows[i]))
  }

  function Group<R>(rows: seq<R>): seq<Action<R>> { [Begin] + RowActions(rows) + [Commit] }

  /** Committed groups, one after the other. */
  function Groups<R>(groups: seq<seq<R>>): seq<Action<R>> {
    if groups == [] then [] else Groups(groups[..|groups| - 1]) + Group(groups[|groups| - 1])
  }

  /** Committed groups, and then the rows of an open one. */
  function Bracketed<R>(groups: seq<seq<R>>, open: Option<seq<R>>): seq<Action<R>> {
    Groups(groups) + if open.Some? then [Begin] + RowActions(open.value) else []
  }

  /** The actions of a stream, keepalives and errors left out. */
  function Actions<R>(events: seq<Event<R>>): seq<Action<R>> {
    if events == [] then []
    else Actions(events[..|events| - 1]) + if events[|events| - 1].Data? then [events[|events| - 1].action] else []
  }

  /** Nothing fails: every payload decodes, every transaction is heard and every reply gets through. */
  predicate Smooth<R>(events: seq<Event<R>>) {
    forall i :: 0 <= i < |events| ==>
      match events[i]
      case Data(_, heard) => heard
      case Garbled => false
      case Keepalive(answered) => answered
      case Failed => true
      case Other => true
  }

  /** One action back: the groups and open rows whose stream is all but the last action. */
  function Back<R>(groups: seq<seq<R>>, open: Option<seq<R>>): (seq<seq<R>>, Option<seq<R>>)
    requires open.Some? || groups != []
  {
    if open == None then (groups[..|groups| - 1], Some(groups[|groups| - 1]))
    else if open.value == [] then (groups, None)
    else (groups, Some(open.value[..|open.value| - 1]))
  }

  function LastAction<R>(open: Option<seq<R>>): Action<R> {
    if open == None then Commit else if open.value == [] then Begin else Row(open.value[|open.value| - 1])
  }

  lemma BackIs<R>(groups: seq<seq<R>>, open: Option<seq<R>>)
    requires open.Some? || groups != []
    ensures Bracketed(groups, open) != []
    ensures var all, (g, o) := Bracketed(groups, open), Back(groups, open);
            Bracketed(g, o) == all[..|all| - 1]
            && all[|all| - 1] == LastAction(open)
  {
    var all, n := Bracketed(groups, open), |Bracketed(groups, open)| - 1;
    if open == None {
      var rows := groups[|groups| - 1];
      assert all == Groups(groups[..|groups| - 1]) + ([Begin] + RowActions(rows) + [Commit]);
      assert all[..n] == Groups(groups[..|groups| - 1]) + ([Begin] + RowActions(rows));
    } else if open.value == [] {
      assert all == Groups(groups) + [Begin];
      assert all[..n] == Groups(groups);
    } else {
      var rows := open.value;
      assert RowActions(rows) == RowActions(rows[..|rows| - 1]) + [Row(rows[|rows| - 1])];
      assert all == Groups(groups) + ([Begin] + RowActions(rows[..|rows| - 1])) + [Row(rows[|rows| - 1])];
      assert all[..n] == Groups(groups) + ([Begin] + RowActions(rows[..|rows| - 1]));
    }
  }

  /** Of a well-bracketed stream, with keepalives anywhere, exactly the committed groups have been sent, in order and with
      their rows in order, and exactly the rows of the open group are held. */
  lemma {:induction false} GroupsAreSent<R>(events: seq<Event<R>>, groups: seq<seq<R>>, open: Option<seq<R>>)
    requires Smooth(events) && Actions(events) == Bracketed(groups, open)
    ensures After(events) == Watched(groups, open, true)
  {
    hide Bracketed, Step, Back, LastAction;
    NoActions(groups, open);
    if events != [] {
      var less, e := events[..|events| - 1], events[|events| - 1];
      assert forall i :: 0 <= i < |less| ==> less[i] == events[i];
      if e.Data? {
        BackIs(groups, open);
        var (g, o) := Back(groups, open);
        var all := Actions(events);
        assert all == Actions(less) + [e.action];
        assert all[..|all| - 1] == Actions(less) && all[|all| - 1] == e.action;
        GroupsAreSent(less, g, o);
        StepForward(groups, open);
      } else {
        assert Actions(events) == Actions(less);
        GroupsAreSent(less, groups, open);
        assert Smooth([e]);
        Skips(Watched(groups, open, true), e);
      }
    }
  }

  lemma NoActions<R>(groups: seq<seq<R>>, open: Option<seq<R>>)
    ensures Bracketed(groups, open) == [] <==> groups == [] && open == None
  {
    if open.Some? || groups != [] {
      BackIs(groups, open);
    }
  }

  lemma StepForward<R>(groups: seq<seq<R>>, open: Option<seq<R>>)
    requires open.Some? || groups != []
    ensures var (g, o) := Back(groups, open);
            Step(Watched(g, o, true), Data(LastAction(open), true)) == Watched(groups, open, true)
  {
    if open == None {
      assert groups[..|groups| - 1] + [groups[|groups| - 1]] == groups;
    } else if open.value != [] {
      assert open.value[..|open.value| - 1] + [open.value[|open.value| - 1]] == open.value;
    }
  }

  lemma Skips<R>(w: Watched<R>, e: Event<R>)
    requires w.alive && !e.Data? && Smooth([e])
    ensures Step(w, e) == w
  {
    assert [e][0] == e;
  }

  /** Every prefix of a well-bracketed stream is one, with the same groups as far as they are committed. */
  lemma {:induction false} PrefixIsBracketed<R>(groups: seq<seq<R>>, open: Option<seq<R>>, n: nat)
      returns (g: seq<seq<R>>, o: Option<seq<R>>)
    requires n <= |Bracketed(groups, open)|
    ensures Bracketed(groups, open)[..n] == Bracketed(g, o) && g <= groups
    decreases |Bracketed(groups, open)|
  {
    var all := Bracketed(groups, open);
    if n == |all| {
      g, o := groups, open;
      assert all[..n] == all;
    } else {
      NoActions(groups, open);
      BackIs(groups, open);
      var (h, p) := Back(groups, open);
      g, o := PrefixIsBracketed(h, p, n);
      assert all[..|all| - 1][..n] == all[..n];
    }
  }

  /** So at every moment of a well-bracketed stream what was sent is a prefix of its groups. */
  lemma {:induction false} SentInOrder<R>(events: seq<Event<R>>, groups: seq<seq<R>>, open: Option<seq<R>>, i: nat)
    requires Smooth(events) && Actions(events) == Bracketed(groups, open) && i <= |events|
    ensures After(events[..i]).alive && After(events[..i]).sent <= groups
  {
    ActionsPrefix(events, i);
    var n := |Actions(events[..i])|;
    var g, o := PrefixIsBracketed(groups, open, n);
    GroupsAreSent(events[..i], g, o);
  }

  lemma {:induction false} ActionsPrefix<R>(events: seq<Event<R>>, i: nat)
    requires i <= |events|
    ensures Actions(events[..i]) <= Actions(events)
    decreases |events|
  {
    if i < |events| {
      assert events[..|events| - 1][..i] == events[..i];
      ActionsPrefix(events[..|events| - 1], i);
    } else {
      assert events[..i] == events;
    }
  }

  // ---- any stream ----------------------------------------------------------------------------------------------

  /** A Begin before `n` with no Commit since. */
  ghost predicate OpenAt<R>(events: seq<Event<R>>, n: nat)
    requires n <= |events|
  {
    exists b :: OpenSince(events, n, b)
  }

  predicate OpenSince<R>(events: seq<Event<R>>, n: nat, b: int)
    requires n <= |events|
  {
    0 <= b < n && Begins(events[b]) && forall c :: b < c < n ==> !Commits(events[c])
  }

  predicate Begins<R>(e: Event<R>) { e.Data? && e.action.Begin? }

  predicate Commits<R>(e: Event<R>) { e.Data? && e.action.Commit? }

  /** What ends the loop: a row outside a transaction, a transaction nobody hears, a payload that does not decode, a reply that
      fails. */
  ghost predicate Ends<R>(events: seq<Event<R>>, i: nat)
    requires i < |events|
  {
    match events[i]
    case Data(Begin, _) => false
    case Data(Commit, heard) => OpenAt(events, i) && !heard
    case Data(Row(_), _) => !OpenAt(events, i)
    case Garbled => true
    case Keepalive(answered) => !answered
    case Failed => false
    case Other => false
  }

  lemma OpenStep<R>(events: seq<Event<R>>, n: nat)
    requires n < |events|
    ensures OpenAt(events, n + 1) <==> Begins(events[n]) || (OpenAt(events, n) && !Commits(events[n]))
  {
    var m := n + 1;
    if Begins(events[n]) {
      assert OpenSince(events, m, n);
    } else if b :| OpenSince(events, m, b) {
      assert OpenSince(events, n, b);
    } else if b :| OpenSince(events, n, b) {
      assert !Commits(events[n]) ==> OpenSince(events, m, b);
    }
  }

  /** Whatever the stream, the loop panics exactly at the first event that ends it, and holds a transaction exactly while a Begin
      is open. */
  lemma {:induction false} AliveIff<R>(events: seq<Event<R>>, n: nat)
    requires n <= |events|
    ensures After(events[..n]).alive <==> forall i :: 0 <= i < n ==> !Ends(events, i)
    ensures After(events[..n]).alive ==> (After(events[..n]).held.Some? <==> OpenAt(events, n))
  {
    if n > 0 {
      AliveIff(events, n - 1);
      OpenStep(events, n - 1);
      var before, e := After(events[..n - 1]), events[n - 1];
      assert events[..n][..n - 1] == events[..n - 1];
      assert After(events[..n]) == if before.alive then Step(before, e) else before;
      assert before.alive ==> (Step(before, e).alive <==> !Ends(events, n - 1));
    }
  }

  function RowsOf<R>(events: seq<Event<R>>): seq<R> {
    if events == [] then []
    else
      var e := events[|events| - 1];
      RowsOf(events[..|events| - 1]) + if e.Data? && e.action.Row? then [e.action.row] else []
  }

  /** Position `b` is the last Begin before `n`, and no Commit follows it. */
  predicate LastBegin<R>(events: seq<Event<R>>, n: nat, b: nat)
    requires n <= |events|
  {
    b < n && Begins(events[b]) && forall c :: b < c < n ==> !Begins(events[c]) && !Commits(events[c])
  }

  /** Whatever the stream, the rows held are those since the last Begin. */
  lemma {:induction false} HeldSinceBegin<R>(events: seq<Event<R>>, n: nat) returns (b: nat)
    requires n <= |events| && After(events[..n]).alive && After(events[..n]).held.Some?
    ensures LastBegin(events, n, b) && After(events[..n]).held.value == RowsOf(events[b + 1..n])
  {
    var before, e := After(events[..n - 1]), events[n - 1];
    assert events[..n][..n - 1] == events[..n - 1];
    assert After(events[..n]) == if before.alive then Step(before, e) else before;
    if Begins(e) {
      b := n - 1;
      assert events[b + 1..n] == [];
    } else {
      b := HeldSinceBegin(events, n - 1);
      assert events[b + 1..n][..n - b - 2] == events[b + 1..n - 1];
    }
  }

  lemma {:induction false} SameAfter<R>(a: seq<Event<R>>, b: seq<Event<R>>, rest: seq<Event<R>>)
    requires After(a) == After(b)
    ensures After(a + rest) == After(b + rest)
  {
    if rest == [] {
      assert a + rest == a && b + rest == b;
    } else {
      var less := rest[..|rest| - 1];
      SameAfter(a, b, less);
      assert (a + rest)[..|a + rest| - 1] == a + less && (b + rest)[..|b + rest| - 1] == b + less;
    }
  }

  /** Without a Commit nothing is sent. */
  lemma {:induction false} NothingSent<R>(events: seq<Event<R>>, middle: seq<Event<R>>)
    requires After(events + middle).alive && forall i :: 0 <= i < |middle| ==> !Commits(middle[i])
    ensures After(events).alive && After(events + middle).sent == After(events).sent
  {
    if middle == [] {
      assert events + middle == events;
    } else {
      var less := middle[..|middle| - 1];
      assert (events + middle)[..|events + middle| - 1] == events + less;
      NothingSent(events, less);
    }
  }

  /** What a second Begin overtakes, rows and all, might never have been: the stream goes on as without it. */
  lemma SecondBeginDrops<R>(events: seq<Event<R>>, overtaken: seq<Event<R>>, heard: bool, rest: seq<Event<R>>)
    requires After(events + overtaken).alive && forall i :: 0 <= i < |overtaken| ==> !Commits(overtaken[i])
    ensures After(events + overtaken + [Data(Begin, heard)] + rest) == After(events + [Data(Begin, heard)] + rest)
  {
    var begin := [Data(Begin, heard)];
    NothingSent(events, overtaken);
    assert (events + overtaken + begin)[..|events + overtaken|] == events + overtaken;
    assert (events + begin)[..|events|] == events;
    SameAfter(events + overtaken + begin, events + begin, rest);
  }
}
