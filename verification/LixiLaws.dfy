/** What JobLixi keeps: its budget, its head count, and one order per user and lixi. */
module LixiLaws {
  import opened Statuses
  import opened Steps
  import opened Sagas
  import opened Settlement
  import opened Gated
  import opened Lixi
  import opened Int64
  import opened Division

  // ----- budget

  /** A payout the guard lets through lands within the budget, whatever the pot held before and however it wraps. */
  lemma GuardKeepsBudget(amount: int64, used: int64, x: int64)
    requires amount >= -1 && Sub(Sub(amount, used), x) >= 0
    ensures Add(used, x) <= amount && Sub(amount, Add(used, x)) == amount - Add(used, x)
  {
    WrapAdds(amount - used, 0 - x);
    var left := Wrap(amount - used - x);
    UsedIsComplement(amount, used, x);
    WrapUnique(left, left, 0);
  }

  lemma UsedIsComplement(amount: int64, used: int64, x: int64)
    requires amount >= -1 && Wrap(amount - used - x) >= 0
    ensures Add(used, x) == amount - Wrap(amount - used - x)
  {
    var q := WrapDiffers(amount - used - x);
    WrapUnique(used + x, amount - Wrap(amount - used - x), 0 - q);
  }

  /** From pots within the budget, the guard protects exactly the budgets from -1 up: below, a wrapped sum overruns. */
  lemma GuardExact(amount: int64)
    ensures
      (forall used: int64, x: int64 :: used <= amount && Sub(Sub(amount, used), x) >= 0 ==> Add(used, x) <= amount)
      <==> amount >= -1
  {
    if amount >= -1 {
      forall used: int64, x: int64 | used <= amount && Sub(Sub(amount, used), x) >= 0 ensures Add(used, x) <= amount {
        GuardKeepsBudget(amount, used, x);
      }
    } else {
      var used: int64, x: int64 := amount, -Max64;
      WrapUnique(amount - Max64, amount - Max64 + Modulus, -1);
      assert Sub(Sub(amount, used), x) >= 0 && Add(used, x) > amount;
    }
  }

  function Sum(xs: seq<int64>): int {
    if xs == [] then 0 else Sum(xs[..|xs| - 1]) + xs[|xs| - 1]
  }

  lemma SumAppend(xs: seq<int64>, x: int64)
    ensures Sum(xs + [x]) == Sum(xs) + x
  {
    assert (xs + [x])[..|xs|] == xs;
  }

  /** The pot accounts for exactly the amounts paid since it was `start`. */
  predicate Accounts(start: Pot, paid: seq<int64>, pot: Pot) {
    pot.used == Wrap(start.used + Sum(paid)) && pot.scan == start.scan + |paid|
  }

  lemma PayAccounts(t: Terms, start: Pot, paid: seq<int64>, pot: Pot, x: int64)
    requires Accounts(start, paid, pot) && pot.scan < t.maxUser
    ensures Accounts(start, paid + [x], Pay(t, pot, x))
  {
    SumAppend(paid, x);
    WrapAdds(start.used + Sum(paid), x);
    WrapUnique(pot.scan + 1, pot.scan + 1, 0);
  }

  /** Within bounds, and consistent once something was paid. */
  predicate WithinBudget(t: Terms, pot: Pot) { pot.used <= t.amount && pot.scan <= t.maxUser }

  /**
   Whatever phones, draws and answers a run meets, the pot stays within the budget and the head count, accounts for
   exactly the payouts that returned no error, and AmountRemain is Amount - AmountUsed after any of them.
   */
  lemma {:induction false} BudgetSafety(t: Terms, visits: seq<Visit>, start: Pot, pot: Pot, w: World, paid: seq<int64>)
    requires t.amount >= -1 && WithinBudget(t, pot) && Accounts(start, paid, pot)
    requires paid != [] ==> pot.remain == t.amount - pot.used
    ensures
      var tab := Serve(t, visits, pot, w, paid);
      && WithinBudget(t, tab.pot) && Accounts(start, tab.paid, tab.pot)
      && (tab.paid != [] ==> 0 <= tab.pot.remain == t.amount - tab.pot.used)
      && (tab.paid == [] ==> tab.pot == pot)
      && |paid| <= |tab.paid|
  {
    if visits != [] {
      if Skips(t, pot, visits[0]) {
        BudgetSafety(t, visits[1..], start, pot, w, paid);
      } else {
        var x := Offer(t, visits[0]).value;
        if !Exceeds(t, pot.used, x) {
          var (exit, w1) := Payout(t.id, visits[0].user.value, visits[0], w);
          if exit == Returned {
            GuardKeepsBudget(t.amount, pot.used, x);
            PayAccounts(t, start, paid, pot, x);
            BudgetSafety(t, visits[1..], start, Pay(t, pot, x), w1, paid + [x]);
          } else if exit == Errored {
            BudgetSafety(t, visits[1..], start, pot, w1, paid);
          }
        }
      }
    }
  }

  /**
   A payout the guard lets through is added without wrapping exactly if the sum does not fall below the 64-bit range.
   */
  lemma PlainPayout(t: Terms, used: int64, x: int64)
    requires t.amount >= -1 && used <= t.amount && !Exceeds(t, used, x)
    ensures Add(used, x) == used + x <==> used + x >= -Max64 - 1
  {
    WrapAdds(t.amount - used, 0 - x);
    WrapInRange(t.amount - used - x);
    WrapInRange(used + x);
  }

  /** No amount on offer is negative. */
  predicate OffersNothingNegative(t: Terms, visits: seq<Visit>) {
    forall i | 0 <= i < |visits| :: Offer(t, visits[i]).Some? ==> Offer(t, visits[i]).value >= 0
  }

  /**
   With amounts that are not negative, AmountUsed grows by the plain sum of the payouts, and the sum fits the budget.
   */
  lemma {:induction false} PlainSum(t: Terms, visits: seq<Visit>, start: int, pot: Pot, w: World, paid: seq<int64>)
    requires 0 <= pot.used <= t.amount && OffersNothingNegative(t, visits) && pot.used == start + Sum(paid)
    ensures
      var tab := Serve(t, visits, pot, w, paid);
      0 <= tab.pot.used == start + Sum(tab.paid) <= t.amount
  {
    if visits != [] {
      if Skips(t, pot, visits[0]) {
        PlainSum(t, visits[1..], start, pot, w, paid);
      } else {
        var x := Offer(t, visits[0]).value;
        if !Exceeds(t, pot.used, x) {
          var (exit, w1) := Payout(t.id, visits[0].user.value, visits[0], w);
          if exit == Returned {
            PlainPayout(t, pot.used, x);
            GuardKeepsBudget(t.amount, pot.used, x);
            SumAppend(paid, x);
            PlainSum(t, visits[1..], start, Pay(t, pot, x), w1, paid + [x]);
          } else if exit == Errored {
            PlainSum(t, visits[1..], start, pot, w1, paid);
          }
        }
      }
    }
  }

  // ----- a fixed amount for everyone

  /** Every phone has a user of its own without an order yet, and every call is answered without error. */
  ghost predicate AllPayable(id: string, visits: seq<Visit>, w: World) {
    && (forall i | 0 <= i < |visits| :: visits[i].user.Some? && (visits[i].user.value, id) !in w.stored)
    && (forall i, j | 0 <= i < j < |visits| :: visits[i].user != visits[j].user)
    && (forall i | 0 <= i < |visits| :: forall k: nat :: visits[i].a(k) == Ok)
  }

  function Min(x: int, y: int): int { if x < y then x else y }

  /** How many are paid: as many as there are phones, free places, and whole amounts left in the budget. */
  function Expected(t: Terms, n: nat, pot: Pot): int
    requires t.fix > 0 && pot.used <= t.amount
  {
    if t.amount - pot.used - t.fix > Max64 then 0  // the guard's difference wraps below zero
    else Min(n, Min(if pot.scan < t.maxUser then t.maxUser - pot.scan else 0, (t.amount - pot.used) / t.fix))
  }

  lemma OkPays(id: string, user: string, v: Visit, w: World)
    requires (user, id) !in w.stored && forall k: nat :: v.a(k) == Ok
    ensures Payout(id, user, v, w).0 == Returned && Payout(id, user, v, w).1.stored == w.stored + {(user, id)}
  {
    InternalSagasShaped(true);
    Families(LixiSaga);
    RunOutcome(LixiPayout(), v.a, Blank());
    var k := FirstFailure(LixiPayout(), v.a, 0);
    assert v.a(k) == Ok;
  }

  lemma GuardOfFix(t: Terms, pot: Pot)
    requires t.fix > 0 && pot.used <= t.amount
    ensures Exceeds(t, pot.used, t.fix) <==> t.amount - pot.used < t.fix || t.amount - pot.used - t.fix > Max64
  {
    WrapAdds(t.amount - pot.used, 0 - t.fix);
    var d := t.amount - pot.used - t.fix;
    if d > Max64 { WrapUnique(d, d - Modulus, 1); } else { WrapUnique(d, d, 0); }
  }

  /** The number of payouts of a FIXED lixi when every lookup and payout succeeds. */
  lemma {:induction false} FixedExact(t: Terms, visits: seq<Visit>, pot: Pot, w: World, paid: seq<int64>)
    requires t.scheme == Fixed && t.fix > 0 && pot.used <= t.amount && AllPayable(t.id, visits, w)
    ensures |Serve(t, visits, pot, w, paid).paid| == |paid| + Expected(t, |visits|, pot)
  {
    if visits == [] || pot.scan >= t.maxUser || Exceeds(t, pot.used, t.fix) {
      NobodyExpected(t, |visits|, pot);
      if visits != [] && pot.scan >= t.maxUser {
        NobodyExpected(t, |visits| - 1, pot);
        FixedExact(t, visits[1..], pot, w, paid);
      }
    } else {
      var w1 := PayFirst(t, visits, pot, w, paid);
      OneMoreExpected(t, |visits|, pot);
      FixedExact(t, visits[1..], Pay(t, pot, t.fix), w1, paid + [t.fix]);
    }
  }

  lemma NobodyExpected(t: Terms, n: nat, pot: Pot)
    requires t.fix > 0 && pot.used <= t.amount
    requires n == 0 || pot.scan >= t.maxUser || Exceeds(t, pot.used, t.fix)
    ensures Expected(t, n, pot) == 0
  {
    GuardOfFix(t, pot);
    var d := t.amount - pot.used;
    if d < t.fix { DivUnique(d, t.fix, 0, d); }
    assert d / t.fix >= 0;
  }

  lemma OneMoreExpected(t: Terms, n: nat, pot: Pot)
    requires t.fix > 0 && pot.used <= t.amount && n > 0 && pot.scan < t.maxUser && !Exceeds(t, pot.used, t.fix)
    ensures Pay(t, pot, t.fix).used <= t.amount
    ensures Expected(t, n, pot) == 1 + Expected(t, n - 1, Pay(t, pot, t.fix))
  {
    GuardOfFix(t, pot);
    PayOneFix(t, pot);
    DivStep(t.amount - pot.used, t.fix);
  }

  lemma PayFirst(t: Terms, visits: seq<Visit>, pot: Pot, w: World, paid: seq<int64>) returns (w1: World)
    requires t.scheme == Fixed && AllPayable(t.id, visits, w) && visits != []
    requires pot.scan < t.maxUser && !Exceeds(t, pot.used, t.fix)
    ensures Serve(t, visits, pot, w, paid) == Serve(t, visits[1..], Pay(t, pot, t.fix), w1, paid + [t.fix])
    ensures AllPayable(t.id, visits[1..], w1)
  {
    var user := visits[0].user.value;
    OkPays(t.id, user, visits[0], w);
    w1 := Payout(t.id, user, visits[0], w).1;
  }

  lemma PayOneFix(t: Terms, pot: Pot)
    requires t.fix > 0 && pot.used <= t.amount && t.fix <= t.amount - pot.used && pot.scan < t.maxUser
    ensures Pay(t, pot, t.fix).used == pot.used + t.fix && Pay(t, pot, t.fix).scan == pot.scan + 1
  {
    WrapUnique(pot.used + t.fix, pot.used + t.fix, 0);
    WrapUnique(pot.scan + 1, pot.scan + 1, 0);
  }

  // ----- who is paid what

  /** The indices name a subsequence of n visits. */
  predicate Rising(at: seq<nat>, n: nat) {
    (forall i | 0 <= i < |at| :: at[i] < n) && (forall i, j | 0 <= i < j < |at| :: at[i] < at[j])
  }

  /** The payouts made since `paid` are the draws of these visits. */
  predicate PaysDraws(visits: seq<Visit>, at: seq<nat>, paid: seq<int64>, after: seq<int64>) {
    && Rising(at, |visits|) && |after| == |paid| + |at| && paid <= after
    && forall i | 0 <= i < |at| :: visits[at[i]].draw == Some(after[|paid| + i])
  }

  lemma DrawsOfRest(visits: seq<Visit>, at: seq<nat>, paid: seq<int64>, after: seq<int64>) returns (all: seq<nat>)
    requires visits != [] && PaysDraws(visits[1..], at, paid, after)
    ensures PaysDraws(visits, all, paid, after) && |all| == |at| && forall i | 0 <= i < |all| :: all[i] == at[i] + 1
  {
    all := seq(|at|, i requires 0 <= i < |at| => at[i] + 1);
  }

  /** A RANDOM lixi pays the draws, in order, of a subsequence of its visits. */
  lemma {:induction false} RandomPaysDraws(t: Terms, visits: seq<Visit>, pot: Pot, w: World, paid: seq<int64>)
    returns (at: seq<nat>)
    requires t.scheme == RandomDraw
    ensures PaysDraws(visits, at, paid, Serve(t, visits, pot, w, paid).paid)
  {
    at := [];
    if visits != [] {
      var v := visits[0];
      if Skips(t, pot, v) {
        var rest := RandomPaysDraws(t, visits[1..], pot, w, paid);
        at := DrawsOfRest(visits, rest, paid, Serve(t, visits, pot, w, paid).paid);
      } else {
        var x := Offer(t, v).value;
        var (exit, w1) := Payout(t.id, v.user.value, v, w);
        if !Exceeds(t, pot.used, x) && exit == Returned {
          var after := Serve(t, visits, pot, w, paid).paid;
          var rest := RandomPaysDraws(t, visits[1..], Pay(t, pot, x), w1, paid + [x]);
          var later := DrawsOfRest(visits, rest, paid + [x], after);
          at := [0] + later;
          assert after[|paid|] == x;
        } else if !Exceeds(t, pot.used, x) && exit == Errored {
          var rest := RandomPaysDraws(t, visits[1..], pot, w1, paid);
          at := DrawsOfRest(visits, rest, paid, Serve(t, visits, pot, w, paid).paid);
        }
      }
    }
  }

  /** A FIXED lixi pays FixAmount every time, and a lixi of any other method pays nothing. */
  lemma {:induction false} FixedPaysFix(t: Terms, visits: seq<Visit>, pot: Pot, w: World, paid: seq<int64>)
    requires t.scheme != RandomDraw
    ensures
      var after := Serve(t, visits, pot, w, paid).paid;
      && paid <= after && (t.scheme == OtherMethod ==> after == paid)
      && forall i | |paid| <= i < |after| :: after[i] == t.fix
  {
    if visits != [] {
      var v := visits[0];
      if Skips(t, pot, v) {
        FixedPaysFix(t, visits[1..], pot, w, paid);
      } else {
        var x := Offer(t, v).value;
        var (exit, w1) := Payout(t.id, v.user.value, v, w);
        if !Exceeds(t, pot.used, x) && exit == Returned {
          FixedPaysFix(t, visits[1..], Pay(t, pot, x), w1, paid + [x]);
        }
        if !Exceeds(t, pot.used, x) && exit == Errored { FixedPaysFix(t, visits[1..], pot, w1, paid); }
      }
    }
  }

  /**
   A visit that finds a user and a free place, where the draw of a RANDOM lixi or the FixAmount of a FIXED one is x:
   beyond the budget the job stops; otherwise the user is paid exactly x, or nothing if the payout fails, and a payout
   that panics ends the job.
   */
  lemma FirstVisitServed(t: Terms, visits: seq<Visit>, pot: Pot, w: World, paid: seq<int64>, x: int64)
    requires visits != [] && visits[0].user.Some? && pot.scan < t.maxUser
    requires (t.scheme == RandomDraw && visits[0].draw == Some(x)) || (t.scheme == Fixed && t.fix == x)
    ensures
      var (exit, w1) := Payout(t.id, visits[0].user.value, visits[0], w);
      var used := Add(pot.used, x);
      Serve(t, visits, pot, w, paid) ==
        if Sub(Sub(t.amount, pot.used), x) < 0 then Tab(pot, w, paid, Broke)
        else if exit == Panicked then Tab(pot, w1, paid, Died)
        else if exit == Errored then Serve(t, visits[1..], pot, w1, paid)
        else Serve(t, visits[1..], Pot(used, Sub(t.amount, used), Add(pot.scan, 1)), w1, paid + [x])
  {
  }

  /** A visit without a user, without a free place or, in a RANDOM lixi, without a draw is passed over. */
  lemma FirstVisitSkipped(t: Terms, visits: seq<Visit>, pot: Pot, w: World, paid: seq<int64>)
    requires visits != []
    requires visits[0].user.None? || pot.scan >= t.maxUser || (t.scheme == RandomDraw && visits[0].draw.None?)
    ensures Serve(t, visits, pot, w, paid) == Serve(t, visits[1..], pot, w, paid)
  {
  }

  // ----- a batch

  /** Every lixi is served in its turn, on the world its predecessor left, until one dies. */
  lemma {:induction false} BatchInTurn(jobs: seq<Job>, w: World)
    ensures
      var tabs := Batch(jobs, w);
      && |tabs| <= |jobs|
      && (forall i | 0 <= i < |tabs| ::
            var job, before := jobs[i], if i == 0 then w else tabs[i - 1].world;
            tabs[i] == Serve(job.t, job.visits, job.pot, before, []))
      && (forall i | 0 <= i < |tabs| - 1 :: tabs[i].end != Died)
      && (|tabs| < |jobs| ==> tabs != [] && tabs[|tabs| - 1].end == Died)
  {
    if jobs != [] && TabOf(jobs[0], w).end != Died {
      var first, rest := TabOf(jobs[0], w), Batch(jobs[1..], TabOf(jobs[0], w).world);
      BatchInTurn(jobs[1..], first.world);
      var tabs := [first] + rest;
      assert Batch(jobs, w) == tabs;
      forall i | 1 <= i < |tabs| ensures
        var job, before := jobs[i], tabs[i - 1].world;
        tabs[i] == Serve(job.t, job.visits, job.pot, before, [])
      {
        assert tabs[i] == rest[i - 1] && jobs[i] == jobs[1..][i - 1];
      }
    }
  }

  /** UpdateOne saves the pot of every lixi that was served to the end. */
  lemma {:induction false} SavedInTurn(tabs: seq<Tab>)
    requires forall i | 0 <= i < |tabs| - 1 :: tabs[i].end != Died
    ensures
      var n := if tabs != [] && tabs[|tabs| - 1].end == Died then |tabs| - 1 else |tabs|;
      |SavedBy(tabs)| == n && forall i | 0 <= i < n :: SavedBy(tabs)[i] == tabs[i].pot
  {
    if tabs != [] { SavedInTurn(tabs[..|tabs| - 1]); }
  }

  // ----- one transaction per user and lixi

  lemma {:induction false} UnwindKeepsStored(steps: seq<Step>, n: nat, s: State)
    requires n <= |steps|
    ensures Unwind(steps, n, s).st.db.Some? <==> s.db.Some?
  {
    if n > 0 {
      UndoFrame(steps[n - 1], s);
      if Undo(steps[n - 1], s).Next? { UnwindKeepsStored(steps, n - 1, Undo(steps[n - 1], s).st); }
    }
  }

  lemma {:induction false} RunKeepsStored(steps: seq<Step>, a: Answers, i: nat, s: State)
    requires i <= |steps| && forall j | i <= j < |steps| :: !steps[j].InitOrder?
    ensures Run(steps, a, i, s).st.db.Some? <==> s.db.Some?
    decreases |steps| - i
  {
    if i < |steps| {
      ExecKeepsStored(steps[i], a(i), s);
      var o := Exec(steps[i], a(i), s);
      if o.Next? { RunKeepsStored(steps, a, i + 1, o.st); }
      if o.Fail? { UnwindKeepsStored(steps, i + 1, o.st); }
    }
  }

  /** A payout makes InitTransaction at most once, and then its order is stored. */
  lemma PayoutInits(a: Answers)
    ensures
      var s := Run(LixiPayout(), a, 0, Blank()).st;
      Tally(s.calls, TxInit) <= 1 && (Tally(s.calls, TxInit) == 1 ==> s.db.Some?)
  {
    var steps := LixiPayout();
    var o := Exec(steps[0], a(0), Blank());
    ExecTally(steps[0], a(0), Blank(), TxInit);
    if o.Next? {
      RunTally(steps, a, 1, o.st, TxInit);
      assert CommitsFrom(steps, 3, TxInit) == CommitsFrom(steps, 4, TxInit) == 0;
      assert CommitsFrom(steps, 1, TxInit) == CommitsFrom(steps, 2, TxInit) == 1;
      RunKeepsStored(steps, a, 1, o.st);
    } else {
      UnwindOnlyRepairs(steps, 1, o.st);
      SameTally(o.st.calls, Unwind(steps, 1, o.st).st.calls, TxInit);
    }
  }

  /**
   At most one InitTransaction for the pair, plus one for each of `blind` checks, and never without a stored order.
   */
  predicate OnceUpTo(w: World, pair: Pair, blind: nat) {
    multiset(w.inits)[pair] <= 1 + blind && (multiset(w.inits)[pair] > 0 ==> pair in w.stored)
  }

  lemma CountCopies(pair: Pair, n: nat, p: Pair)
    requires n <= 1
    ensures multiset(seq(n, _ => p))[pair] == if p == pair then n else 0
  {
    if n == 1 { assert seq(n, _ => p) == [p]; } else { assert seq(n, _ => p) == []; }
  }

  /** A phone whose user already has an order changes no order, no transaction and no field of the pot. */
  lemma DuplicateRejected(t: Terms, visits: seq<Visit>, pot: Pot, w: World, paid: seq<int64>)
    requires visits != [] && t.id != "" && visits[0].readable
    requires visits[0].user.Some? && (visits[0].user.value, t.id) in w.stored
    ensures
      var tab := Serve(t, visits, pot, w, paid);
      tab == Serve(t, visits[1..], pot, w, paid) || tab == Tab(pot, w, paid, Broke)
  {
  }

  lemma PayoutOnce(id: string, user: string, v: Visit, w: World, pair: Pair, blind: nat)
    requires pair.1 != "" && OnceUpTo(w, pair, blind)
    ensures OnceUpTo(Payout(id, user, v, w).1, pair, if v.readable then blind else blind + 1)
  {
    PayoutInits(v.a);
    var n := Tally(Run(LixiPayout(), v.a, 0, Blank()).st.calls, TxInit);
    CountCopies(pair, n, (user, id));
  }

  /** Visits whose check for an earlier order could not be read. */
  function Blind(visits: seq<Visit>): nat {
    if visits == [] then 0 else (if visits[0].readable then 0 else 1) + Blind(visits[1..])
  }

  lemma OnceWeakens(w: World, pair: Pair, fewer: nat, more: nat)
    requires OnceUpTo(w, pair, fewer) && fewer <= more
    ensures OnceUpTo(w, pair, more)
  {
  }

  lemma {:induction false} ServeOnce(t: Terms, visits: seq<Visit>, pot: Pot, w: World, paid: seq<int64>, pair: Pair,
      blind: nat)
    requires pair.1 != "" && OnceUpTo(w, pair, blind)
    ensures OnceUpTo(Serve(t, visits, pot, w, paid).world, pair, blind + Blind(visits))
  {
    if visits != [] {
      var v, more := visits[0], blind + if visits[0].readable then 0 else 1;
      if Skips(t, pot, v) {
        OnceWeakens(w, pair, blind, more);
        ServeOnce(t, visits[1..], pot, w, paid, pair, more);
      } else {
        var x := Offer(t, v).value;
        if !Exceeds(t, pot.used, x) {
          PayoutOnce(t.id, v.user.value, v, w, pair, blind);
          var (exit, w1) := Payout(t.id, v.user.value, v, w);
          if exit == Returned { ServeOnce(t, visits[1..], Pay(t, pot, x), w1, paid + [x], pair, more); }
          if exit == Errored { ServeOnce(t, visits[1..], pot, w1, paid, pair, more); }
        }
      }
    }
  }

  function WorldAfter(jobs: seq<Job>, w: World): World {
    if jobs == [] then w else WorldAfter(jobs[1..], TabOf(jobs[0], w).world)
  }

  function BlindIn(jobs: seq<Job>): nat {
    if jobs == [] then 0 else Blind(jobs[0].visits) + BlindIn(jobs[1..])
  }

  /**
   Over any sequence of lixis served, in whatever runs and with whatever duplicate phones, each user reaches
   InitTransaction at most once per lixi, plus once for every check of earlier orders that could not be read.
   */
  lemma {:induction false} OncePerUser(jobs: seq<Job>, w: World, pair: Pair, blind: nat)
    requires pair.1 != "" && OnceUpTo(w, pair, blind)
    ensures OnceUpTo(WorldAfter(jobs, w), pair, blind + BlindIn(jobs))
  {
    if jobs != [] {
      var job := jobs[0];
      ServeOnce(job.t, job.visits, job.pot, w, [], pair, blind);
      OncePerUser(jobs[1..], TabOf(job, w).world, pair, blind + Blind(job.visits));
    }
  }

  /**
   The bound is met: an unreadable check initiates a transaction for a pair that has its order and transaction already.
   */
  lemma UnreadableInitsAgain(id: string, user: string, v: Visit, w: World)
    requires !v.readable && forall k: nat :: v.a(k) == Ok
    ensures multiset(Payout(id, user, v, w).1.inits)[(user, id)] == multiset(w.inits)[(user, id)] + 1
  {
    var s := Run(LixiPayout(), v.a, 0, Blank()).st;
    PayoutInits(v.a);
    OkInits(v.a);
    CountCopies((user, id), Tally(s.calls, TxInit), (user, id));
  }

  lemma OkInits(a: Answers)
    requires forall k: nat :: a(k) == Ok
    ensures Tally(Run(LixiPayout(), a, 0, Blank()).st.calls, TxInit) > 0
  {
    var steps := LixiPayout();
    InternalSagasShaped(true);
    Families(LixiSaga);
    RunOutcome(steps, a, Blank());
    assert a(FirstFailure(steps, a, 0)) == Ok;
    var calls := Trace(steps, 5);
    assert Trace(steps, 3) == Trace(steps, 2) + [TxInit];
    assert calls == Trace(steps, 3) + [TxConfirm] + [PutSuccess];
    assert calls[|Trace(steps, 2)|] == TxInit && calls[..|calls|] == calls;
    TallyPositive(calls, |calls|, TxInit);
  }

  // ----- panics

  /** The payout's first failing answer makes a compensation dereference nil. */
  predicate Kills(a: Answers) {
    var k := FirstFailure(LixiPayout(), a, 0);
    k < 5 && Panics(LixiPayout(), LixiPayout()[k], a(k))
  }

  predicate Duplicate(id: string, user: string, v: Visit, w: World) { id != "" && v.readable && (user, id) in w.stored }

  /** A payout panics exactly if it is no recognised duplicate and its answers kill it. */
  lemma PayoutPanics(id: string, user: string, v: Visit, w: World)
    ensures Payout(id, user, v, w).0 == Panicked <==> !Duplicate(id, user, v, w) && Kills(v.a)
  {
    InternalSagasShaped(true);
    Families(LixiSaga);
    RunOutcome(LixiPayout(), v.a, Blank());
  }

  /** Answers that come with a record never kill a payout. */
  lemma RecordsNeverKill(a: Answers)
    requires forall i: nat :: a(i).Err? ==> a(i).record
    ensures !Kills(a)
  {
    var k := FirstFailure(LixiPayout(), a, 0);
    assert a(k).Err? ==> a(k).record;
  }

  /** The visit gets a payout from this pot that kills the job. */
  predicate KillsAt(t: Terms, v: Visit, pot: Pot, w: World) {
    && !Skips(t, pot, v) && !Exceeds(t, pot.used, Offer(t, v).value)
    && !Duplicate(t.id, v.user.value, v, w) && Kills(v.a)
  }

  /** A visit is served as it would be with nothing after it, and then the rest. */
  lemma {:induction false} ServeInTurn(t: Terms, visits: seq<Visit>, more: seq<Visit>, pot: Pot, w: World,
      paid: seq<int64>)
    ensures
      var tab := Serve(t, visits, pot, w, paid);
      Serve(t, visits + more, pot, w, paid) == if tab.end == Done then Serve(t, more, tab.pot, tab.world, tab.paid)
        else tab
  {
    if visits == [] {
      assert visits + more == more;
    } else {
      assert (visits + more)[1..] == visits[1..] + more;
      var v := visits[0];
      if Skips(t, pot, v) {
        ServeInTurn(t, visits[1..], more, pot, w, paid);
      } else {
        var x := Offer(t, v).value;
        var (exit, w1) := Payout(t.id, v.user.value, v, w);
        if !Exceeds(t, pot.used, x) && exit == Returned {
          ServeInTurn(t, visits[1..], more, Pay(t, pot, x), w1, paid + [x]);
        }
        if !Exceeds(t, pot.used, x) && exit == Errored { ServeInTurn(t, visits[1..], more, pot, w1, paid); }
      }
    }
  }

  /** The job dies exactly at a visit that is reached, gets a payout, is no duplicate and has killing answers. */
  lemma {:induction false} DiesExactly(t: Terms, visits: seq<Visit>, pot: Pot, w: World, paid: seq<int64>)
    ensures Serve(t, visits, pot, w, paid).end == Died <==>
      exists i | 0 <= i < |visits| ::
        var tab := Serve(t, visits[..i], pot, w, paid);
        tab.end == Done && KillsAt(t, visits[i], tab.pot, tab.world)
    decreases |visits|
  {
    if visits != [] {
      var n := |visits| - 1;
      var tab := Serve(t, visits[..n], pot, w, paid);
      assert visits == visits[..n] + [visits[n]];
      ServeInTurn(t, visits[..n], [visits[n]], pot, w, paid);
      DiesExactly(t, visits[..n], pot, w, paid);
      forall i | 0 <= i < n ensures visits[..n][..i] == visits[..i] && visits[..n][i] == visits[i] { }
      if tab.end == Done { LastVisit(t, visits[n], tab.pot, tab.world, tab.paid); }
      if tab.end != Done {
        assert forall i | 0 <= i < |visits| && i == n :: Serve(t, visits[..i], pot, w, paid).end != Done;
      }
    }
  }

  lemma LastVisit(t: Terms, v: Visit, pot: Pot, w: World, paid: seq<int64>)
    ensures Serve(t, [v], pot, w, paid).end == Died <==> KillsAt(t, v, pot, w)
  {
    if !Skips(t, pot, v) { PayoutPanics(t.id, v.user.value, v, w); }
    assert [v][1..] == [];
  }

  predicate NoneKills(visits: seq<Visit>) { forall i | 0 <= i < |visits| :: !Kills(visits[i].a) }

  lemma NeverDies(t: Terms, visits: seq<Visit>, pot: Pot, w: World, paid: seq<int64>)
    requires NoneKills(visits)
    ensures Serve(t, visits, pot, w, paid).end != Died
  {
    DiesExactly(t, visits, pot, w, paid);
  }

  // ----- several runs on one lixi

  /** What is stored after a run: a run that died saved nothing. */
  function SavedPot(t: Terms, visits: seq<Visit>, pot: Pot, w: World): Pot {
    var tab := Serve(t, visits, pot, w, []);
    if tab.end == Died then pot else tab.pot
  }

  function PaidInRuns(t: Terms, runs: seq<seq<Visit>>, pot: Pot, w: World): seq<int64> {
    if runs == [] then []
    else
      var tab := Serve(t, runs[0], pot, w, []);
      tab.paid + PaidInRuns(t, runs[1..], SavedPot(t, runs[0], pot, w), tab.world)
  }

  function PotAfter(t: Terms, runs: seq<seq<Visit>>, pot: Pot, w: World): Pot {
    if runs == [] then pot
    else PotAfter(t, runs[1..], SavedPot(t, runs[0], pot, w), Serve(t, runs[0], pot, w, []).world)
  }

  /** Some run died after it had paid. */
  predicate LosesPayouts(t: Terms, runs: seq<seq<Visit>>, pot: Pot, w: World) {
    runs != [] &&
    var tab := Serve(t, runs[0], pot, w, []);
    ((tab.end == Died && tab.paid != []) || LosesPayouts(t, runs[1..], SavedPot(t, runs[0], pot, w), tab.world))
  }

  lemma {:induction false} SumConcat(xs: seq<int64>, ys: seq<int64>)
    ensures Sum(xs + ys) == Sum(xs) + Sum(ys)
  {
    if ys == [] {
      assert xs + ys == xs;
    } else {
      SumConcat(xs, ys[..|ys| - 1]);
      assert (xs + ys)[..|xs + ys| - 1] == xs + ys[..|ys| - 1];
    }
  }

  /** Every saved pot is within the budget. */
  lemma {:induction false} RunsWithinBudget(t: Terms, runs: seq<seq<Visit>>, pot: Pot, w: World)
    requires t.amount >= -1 && WithinBudget(t, pot)
    ensures WithinBudget(t, PotAfter(t, runs, pot, w))
  {
    if runs != [] {
      StartAccounts(pot);
      BudgetSafety(t, runs[0], pot, pot, w, []);
      RunsWithinBudget(t, runs[1..], SavedPot(t, runs[0], pot, w), Serve(t, runs[0], pot, w, []).world);
    }
  }

  /** NumberScan never counts more than was paid, and counts everything exactly if no payout was lost. */
  lemma {:induction false} HeadCount(t: Terms, runs: seq<seq<Visit>>, pot: Pot, w: World)
    requires t.amount >= -1 && WithinBudget(t, pot)
    ensures
      var heads := PotAfter(t, runs, pot, w).scan - pot.scan;
      heads <= |PaidInRuns(t, runs, pot, w)|
        && (heads == |PaidInRuns(t, runs, pot, w)| <==> !LosesPayouts(t, runs, pot, w))
  {
    if runs != [] {
      StartAccounts(pot);
      BudgetSafety(t, runs[0], pot, pot, w, []);
      HeadCount(t, runs[1..], SavedPot(t, runs[0], pot, w), Serve(t, runs[0], pot, w, []).world);
    }
  }

  lemma {:induction false} AccountsUnlessLost(t: Terms, runs: seq<seq<Visit>>, pot: Pot, w: World)
    requires t.amount >= -1 && WithinBudget(t, pot) && !LosesPayouts(t, runs, pot, w)
    ensures Accounts(pot, PaidInRuns(t, runs, pot, w), PotAfter(t, runs, pot, w))
  {
    StartAccounts(pot);
    if runs != [] {
      var tab := Serve(t, runs[0], pot, w, []);
      var saved := SavedPot(t, runs[0], pot, w);
      BudgetSafety(t, runs[0], pot, pot, w, []);
      AccountsUnlessLost(t, runs[1..], saved, tab.world);
      AccountsCompose(pot, tab.paid, saved, PaidInRuns(t, runs[1..], saved, tab.world),
        PotAfter(t, runs[1..], saved, tab.world));
    }
  }

  lemma AccountsCompose(pot: Pot, first: seq<int64>, mid: Pot, later: seq<int64>, end: Pot)
    requires Accounts(pot, first, mid) && Accounts(mid, later, end)
    ensures Accounts(pot, first + later, end)
  {
    SumConcat(first, later);
    WrapAdds(pot.used + Sum(first), Sum(later));
  }

  /** The stored pot accounts for everything ever paid exactly if no run died after it had paid. */
  lemma RunsConserve(t: Terms, runs: seq<seq<Visit>>, pot: Pot, w: World)
    requires t.amount >= -1 && WithinBudget(t, pot)
    ensures Accounts(pot, PaidInRuns(t, runs, pot, w), PotAfter(t, runs, pot, w)) <==> !LosesPayouts(t, runs, pot, w)
  {
    HeadCount(t, runs, pot, w);
    if !LosesPayouts(t, runs, pot, w) { AccountsUnlessLost(t, runs, pot, w); }
  }

  /** In particular it does if no visit has killing answers, such as when every failing call returns a record. */
  lemma {:induction false} NothingLost(t: Terms, runs: seq<seq<Visit>>, pot: Pot, w: World)
    requires forall i | 0 <= i < |runs| :: NoneKills(runs[i])
    ensures !LosesPayouts(t, runs, pot, w)
  {
    if runs != [] {
      NeverDies(t, runs[0], pot, w, []);
      NothingLost(t, runs[1..], SavedPot(t, runs[0], pot, w), Serve(t, runs[0], pot, w, []).world);
    }
  }

  /**
   Over any runs whose answers kill no payout, the saved pot stays within the budget and accounts for everything paid.
   */
  lemma RunsConserveWithoutKills(t: Terms, runs: seq<seq<Visit>>, pot: Pot, w: World)
    requires t.amount >= -1 && WithinBudget(t, pot) && forall i | 0 <= i < |runs| :: NoneKills(runs[i])
    ensures WithinBudget(t, PotAfter(t, runs, pot, w))
    ensures Accounts(pot, PaidInRuns(t, runs, pot, w), PotAfter(t, runs, pot, w))
  {
    NothingLost(t, runs, pot, w);
    RunsConserve(t, runs, pot, w);
    RunsWithinBudget(t, runs, pot, w);
  }

  lemma StartAccounts(pot: Pot)
    ensures Accounts(pot, [], pot)
  {
    WrapUnique(pot.used, pot.used, 0);
  }

  /** With amounts that are not negative, all runs together never pay more than the budget held. */
  lemma {:induction false} RunsStayWithinBudget(t: Terms, runs: seq<seq<Visit>>, pot: Pot, w: World)
    requires 0 <= pot.used <= t.amount
    requires forall i | 0 <= i < |runs| :: NoneKills(runs[i]) && OffersNothingNegative(t, runs[i])
    ensures 0 <= PotAfter(t, runs, pot, w).used == pot.used + Sum(PaidInRuns(t, runs, pot, w)) <= t.amount
  {
    if runs != [] {
      var tab := Serve(t, runs[0], pot, w, []);
      PlainSum(t, runs[0], pot.used, pot, w, []);
      NeverDies(t, runs[0], pot, w, []);
      RunsStayWithinBudget(t, runs[1..], tab.pot, tab.world);
      SumConcat(tab.paid, PaidInRuns(t, runs[1..], tab.pot, tab.world));
    }
  }

  /** ConfirmTransaction fails without a record. */
  lemma ConfirmKillsJob(id: string, user: string, v: Visit, w: World)
    requires (user, id) !in w.stored && forall k: nat :: v.a(k) == if k == 3 then Err(false, false) else Ok
    ensures Payout(id, user, v, w).0 == Panicked && Payout(id, user, v, w).1.stored <= w.stored + {(user, id)}
  {
    var steps := LixiPayout();
    InternalSagasShaped(true);
    Families(LixiSaga);
    RunOutcome(steps, v.a, Blank());
    assert steps[3] == ConfirmTx(false) && v.a(3) == Err(false, false);
    assert FirstFailure(steps, v.a, 0) == FirstFailure(steps, v.a, 2) == 3;
  }

  /** A panic loses the account of what its run had paid: two runs then pay 30 out of a budget of 20. */
  lemma DeathOverspends(id: string)
    ensures
      var good, bad := (k: nat) => Ok, (k: nat) => if k == 3 then Err(false, false) else Ok;
      var runs := [[Visit(Some("a"), None, true, good), Visit(Some("b"), None, true, bad)],
                   [Visit(Some("c"), None, true, good), Visit(Some("d"), None, true, good)]];
      var t := Terms(id, Fixed, 20, 9, 10);
      PaidInRuns(t, runs, Pot(0, 20, 0), World({}, [])) == [10, 10, 10]
  {
    var good, bad := (k: nat) => Ok, (k: nat) => if k == 3 then Err(false, false) else Ok;
    var first := [Visit(Some("a"), None, true, good), Visit(Some("b"), None, true, bad)];
    var second := [Visit(Some("c"), None, true, good), Visit(Some("d"), None, true, good)];
    var t, pot, w := Terms(id, Fixed, 20, 9, 10), Pot(0, 20, 0), World({}, []);
    var wa := PayOk(t, "a", first, pot, w, []);
    DieHere(t, "b", first[1..], Pay(t, pot, 10), wa, [10]);
    var tab := Serve(t, first, pot, w, []);
    var wc := PayOk(t, "c", second, pot, tab.world, []);
    var wd := PayOk(t, "d", second[1..], Pay(t, pot, 10), wc, [10]);
    assert second[1..][1..] == [];
    assert PaidInRuns(t, [second], pot, tab.world) == [10, 10];
    assert [first, second][1..] == [second];
  }

  lemma PayOk(t: Terms, user: string, visits: seq<Visit>, pot: Pot, w: World, paid: seq<int64>) returns (w1: World)
    requires t.scheme == Fixed && visits != [] && visits[0].user == Some(user) && forall k: nat :: visits[0].a(k) == Ok
    requires (user, t.id) !in w.stored && pot.scan < t.maxUser && 0 <= pot.used <= t.amount - t.fix && t.fix > 0
    ensures Serve(t, visits, pot, w, paid) == Serve(t, visits[1..], Pay(t, pot, t.fix), w1, paid + [t.fix])
    ensures w1.stored == w.stored + {(user, t.id)}
    ensures Pay(t, pot, t.fix).used == pot.used + t.fix && Pay(t, pot, t.fix).scan == pot.scan + 1
  {
    GuardOfFix(t, pot);
    PayOneFix(t, pot);
    OkPays(t.id, user, visits[0], w);
    w1 := Payout(t.id, user, visits[0], w).1;
  }

  lemma DieHere(t: Terms, user: string, visits: seq<Visit>, pot: Pot, w: World, paid: seq<int64>)
    requires t.scheme == Fixed && visits != [] && visits[0].user == Some(user)
    requires forall k: nat :: visits[0].a(k) == if k == 3 then Err(false, false) else Ok
    requires (user, t.id) !in w.stored && pot.scan < t.maxUser && 0 <= pot.used <= t.amount - t.fix && t.fix > 0
    ensures
      var tab := Serve(t, visits, pot, w, paid);
      tab.end == Died && tab.paid == paid && tab.world.stored <= w.stored + {(user, t.id)}
  {
    GuardOfFix(t, pot);
    ConfirmKillsJob(t.id, user, visits[0], w);
  }
}
