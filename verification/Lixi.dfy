/** JobLixi: lucky money handed out phone by phone from a budget, over any number of job runs. */
module Lixi {
  import opened Statuses
  import opened Steps
  import opened Sagas
  import opened Application
  import opened Coordinator
  import opened Int64

  // ----- data

  datatype Scheme = RandomDraw | Fixed | OtherMethod

  datatype Terms = Terms(id: string, scheme: Scheme, amount: int64, maxUser: int64, fix: int64)

  datatype Pot = Pot(used: int64, remain: int64, scan: int64)

  /**
   What one phone meets: the user found for it, the amount drawn, whether the stored orders could be read, and the
   payout's answers.
   */
  datatype Visit = Visit(user: Option<string>, draw: Option<int64>, readable: bool, a: Answers)

  /** A user and a lixi. */
  type Pair = (string, string)

  /** Pairs for which an order is stored, and every InitTransaction made so far. */
  datatype World = World(stored: set<Pair>, inits: seq<Pair>)

  datatype End = Done | Broke | Died

  datatype Tab = Tab(pot: Pot, world: World, paid: seq<int64>, end: End)

  function Blank(): State { State(None, None, false, false, None, false, None, false, [], []) }

  // ----- what the job means

  /** LixiOrchestrator; InitOrder turns a pair away that already has an order. */
  function Payout(id: string, user: string, v: Visit, w: World): (Exit, World) {
    if id != "" && v.readable && (user, id) in w.stored then (Errored, w)
    else
      var r := Run(LixiPayout(), v.a, 0, Blank());
      (r.exit, Record((user, id), r.st, w))
  }

  function Record(pair: Pair, s: State, w: World): World {
    World(if s.db.Some? then w.stored + {pair} else w.stored,
          w.inits + seq(Tally(s.calls, TxInit), _ => pair))
  }

  function Offer(t: Terms, v: Visit): Option<int64> {
    match t.scheme
    case RandomDraw => v.draw
    case Fixed => Some(t.fix)
    case OtherMethod => None
  }

  /** The guard on the budget, in the machine's arithmetic. */
  predicate Exceeds(t: Terms, used: int64, amount: int64) { Sub(Sub(t.amount, used), amount) < 0 }

  function Pay(t: Terms, pot: Pot, amount: int64): Pot {
    var used := Add(pot.used, amount);
    Pot(used, Sub(t.amount, used), Add(pot.scan, 1))
  }

  predicate Skips(t: Terms, pot: Pot, v: Visit) {
    pot.scan >= t.maxUser || v.user.None? || Offer(t, v).None?
  }

  function Serve(t: Terms, visits: seq<Visit>, pot: Pot, w: World, paid: seq<int64>): Tab {
    if visits == [] then Tab(pot, w, paid, Done)
    else if Skips(t, pot, visits[0]) then Serve(t, visits[1..], pot, w, paid)
    else
      var amount := Offer(t, visits[0]).value;
      if Exceeds(t, pot.used, amount) then Tab(pot, w, paid, Broke)
      else
        var (exit, w1) := Payout(t.id, visits[0].user.value, visits[0], w);
        match exit
        case Returned => Serve(t, visits[1..], Pay(t, pot, amount), w1, paid + [amount])
        case Errored => Serve(t, visits[1..], pot, w1, paid)
        case Panicked => Tab(pot, w1, paid, Died)
  }

  /** One lixi of a batch as it was read from the store. */
  datatype Job = Job(t: Terms, pot: Pot, visits: seq<Visit>)

  function TabOf(job: Job, w: World): Tab { Serve(job.t, job.visits, job.pot, w, []) }

  /** The lixis one after the other; a panic ends the whole job. */
  function Batch(jobs: seq<Job>, w: World): seq<Tab> {
    if jobs == [] then []
    else
      var tab := TabOf(jobs[0], w);
      if tab.end == Died then [tab] else [tab] + Batch(jobs[1..], tab.world)
  }

  /** The pots that UpdateOne saves. */
  function SavedBy(tabs: seq<Tab>): seq<Pot> {
    if tabs == [] then []
    else SavedBy(tabs[..|tabs| - 1]) + if tabs[|tabs| - 1].end == Died then [] else [tabs[|tabs| - 1].pot]
  }

  // ----- in place

  class LixiEntity {
    const terms: Terms
    var used: int64
    var remain: int64
    var scan: int64
    var paused: bool

    constructor (terms: Terms, pot: Pot)
      ensures this.terms == terms && View() == pot && !paused
    {
      this.terms := terms;
      used, remain, scan, paused := pot.used, pot.remain, pot.scan, false;
    }

    function View(): Pot
      reads this
    {
      Pot(used, remain, scan)
    }
  }

  class OrderApplication {
    var stored: set<Pair>
    var inits: seq<Pair>

    constructor ()
      ensures View() == World({}, [])
    {
      stored, inits := {}, [];
    }

    function View(): World
      reads this
    {
      World(stored, inits)
    }

    /** The payout saga, played by the coordinator on a session of its own. */
    method LixiOrchestrator(id: string, user: string, v: Visit) returns (exit: Exit)
      modifies this
      ensures (exit, View()) == Payout(id, user, v, old(View()))
    {
      if id != "" && v.readable && (user, id) in stored { return Errored; }
      var session := new Session(Blank());
      var logs := new LogStore();
      var coordinator := new ExecutionCoordinator("", LixiPayout(), logs, session);
      exit := coordinator.Play(v.a);
      if session.db.Some? { stored := stored + {(user, id)}; }
      inits := inits + seq(Tally(session.calls, TxInit), _ => (user, id));
    }

    /** The loop over one lixi's phones. */
    method Allocate(lixi: LixiEntity, visits: seq<Visit>) returns (paid: seq<int64>, end: End)
      modifies this, lixi
      ensures Tab(lixi.View(), View(), paid, end) == Serve(lixi.terms, visits, old(lixi.View()), old(View()), [])
      ensures lixi.paused == (end != Died || old(lixi.paused))
    {
      ghost var all := Serve(lixi.terms, visits, lixi.View(), View(), []);
      paid, end := [], Done;
      var i := 0;
      label JobUser: while i < |visits|
        invariant 0 <= i <= |visits| && end == Done && lixi.paused == old(lixi.paused)
        invariant all == Serve(lixi.terms, visits[i..], lixi.View(), View(), paid)
      {
        var v := visits[i];
        assert visits[i..][1..] == visits[i + 1..];
        if lixi.scan < lixi.terms.maxUser && v.user.Some? {
          var amount := Offer(lixi.terms, v);
          if amount.Some? {
            if Sub(Sub(lixi.terms.amount, lixi.used), amount.value) < 0 {
              end := Broke;
              break JobUser;
            }
            var exit := LixiOrchestrator(lixi.terms.id, v.user.value, v);
            if exit == Panicked { end := Died; return; }
            if exit == Returned {
              lixi.used := Add(lixi.used, amount.value);
              lixi.remain := Sub(lixi.terms.amount, lixi.used);
              lixi.scan := Add(lixi.scan, 1);
              paid := paid + [amount.value];
            }
          }
        }
        i := i + 1;
      }
      lixi.paused := true;
    }

    /** JobLixi on what FindStarted read. UpdateOne saves each lixi that was served to the end, and no other. */
    method JobLixi(jobs: seq<Job>) returns (tabs: seq<Tab>, saved: seq<Pot>)
      modifies this
      ensures tabs == Batch(jobs, old(View()))
      ensures View() == if tabs == [] then old(View()) else tabs[|tabs| - 1].world
      ensures saved == SavedBy(tabs)
    {
      ghost var all := Batch(jobs, View());
      tabs, saved := [], [];
      assert jobs[0..] == jobs && [] + all == all;
      for n := 0 to |jobs|
        invariant saved == SavedBy(tabs)
        invariant all == tabs + Batch(jobs[n..], View())
        invariant View() == if tabs == [] then old(View()) else tabs[|tabs| - 1].world
      {
        assert jobs[n..][1..] == jobs[n + 1..];
        var tab := ServeOne(jobs[n]);
        assert (tabs + [tab])[..|tabs|] == tabs;
        tabs := tabs + [tab];
        if tab.end == Died { return; }
        saved := saved + [tab.pot];
      }
    }

    method ServeOne(job: Job) returns (tab: Tab)
      modifies this
      ensures tab == TabOf(job, old(View())) && View() == tab.world
    {
      var lixi := new LixiEntity(job.t, job.pot);
      var paid, end := Allocate(lixi, job.visits);
      tab := Tab(lixi.View(), View(), paid, end);
    }
  }
}
