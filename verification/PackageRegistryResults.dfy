/** What every lookup answers, from the calls made before it. */
module PackageRegistryResults {
  import opened Options
  import opened PackageRegistryModel
  import opened PackageRegistryTheorems

  /** What the user was given since the last clear, in order. */
  function Given(ops: seq<Op>, user: UserId): seq<Stored> {
    if ops == [] then []
    else
      match ops[|ops| - 1]
      case Clears => []
      case Remembers(u, incoming) => Given(ops[..|ops| - 1], user) + if u == user then incoming else []
  }

  /** Packages join, in order, while there are fewer than 256. */
  function Joined(before: set<Fingerprint>, incoming: seq<Stored>): set<Fingerprint> {
    if incoming == [] then before
    else
      var joined := Joined(before, incoming[..|incoming| - 1]);
      if |joined| < 256 then joined + {incoming[|incoming| - 1].fingerprint} else joined
  }

  /** The first 256 different packages among those given to the user since the last clear. */
  function Admitted(ops: seq<Op>, user: UserId): set<Fingerprint> {
    if ops == [] then {}
    else
      match ops[|ops| - 1]
      case Clears => {}
      case Remembers(u, incoming) =>
        var before := Admitted(ops[..|ops| - 1], user);
        if u == user then Joined(before, incoming) else before
  }

  /** The packages ever given to anybody, clears or not. */
  function Ever(ops: seq<Op>): set<Fingerprint> {
    if ops == [] then {}
    else Ever(ops[..|ops| - 1]) + if ops[|ops| - 1].Remembers? then Fps(ops[|ops| - 1].incoming) else {}
  }

  // ---- Which packages are kept ---------------------------------------------------------

  lemma GrowsBelowBound(stored: seq<Stored>, c: Stored)
    requires |Fps(stored)| <= 256
    ensures Fps(RememberOption(stored, c)) == if |Fps(stored)| < 256 then Fps(stored) + {c.fingerprint} else Fps(stored)
  {
    CountIsDistinct(stored);
    PushedFps(stored, c);
    assert c.fingerprint in Fps(stored) ==> Fps(stored) + {c.fingerprint} == Fps(stored);
    assert Holds(stored, c.fingerprint) <==> Matching(stored, c.fingerprint) != [];
  }

  lemma {:induction false} RememberAllAdmits(stored: seq<Stored>, incoming: seq<Stored>)
    requires |Fps(stored)| <= 256
    ensures Fps(RememberAllOptions(stored, incoming)) == Joined(Fps(stored), incoming)
    ensures |Joined(Fps(stored), incoming)| <= 256
  {
    if incoming != [] {
      var n := |incoming| - 1;
      RememberAllAdmits(stored, incoming[..n]);
      GrowsBelowBound(RememberAllOptions(stored, incoming[..n]), incoming[n]);
    }
  }

  /** A user keeps the first 256 different packages given since the last clear, and no other. */
  lemma {:induction false} KeepsTheFirst(ops: seq<Op>, user: UserId)
    ensures Fps(OptionsFor(Run(ops), user)) == Admitted(ops, user) && |Admitted(ops, user)| <= 256
  {
    if ops != [] {
      var front, op := ops[..|ops| - 1], ops[|ops| - 1];
      KeepsTheFirst(front, user);
      if op.Remembers? && op.user == user {
        RememberAllAdmits(OptionsFor(Run(front), user), op.incoming);
      } else if op.Remembers? {
        assert OptionsFor(Run(ops), user) == OptionsFor(Run(front), user);
      }
    }
  }

  // ---- The full history ----------------------------------------------------------------

  lemma {:induction false} HistoryIsGiven(ops: seq<Op>, user: UserId)
    ensures AllOptionsFor(FullRun(ops), user) == SetOfStored(Given(ops, user))
    ensures FullRun(ops).issued == Ever(ops)
  {
    if ops != [] {
      var front, op := ops[..|ops| - 1], ops[|ops| - 1];
      HistoryIsGiven(front, user);
      if op.Remembers? {
        assert SetOfStored(Given(front, user) + op.incoming) == SetOfStored(Given(front, user)) + SetOfStored(op.incoming);
        assert FingerprintsOf(SetOfStored(op.incoming)) == Fps(op.incoming);
        assert Given(front, user) + [] == Given(front, user);
      }
    }
  }

  lemma KnowsExactly(ops: seq<Op>, fp: Fingerprint)
    ensures Contains(Run(ops).known, fp) <==> |Ever(ops)| > 256 || fp in Ever(ops)
  {
    RunAgrees(ops);
    HistoryIsGiven(ops, "");
    var known := Run(ops).known;
    PushedFps(known.packages, Stored(fp, None));
    if !known.saturated { Bigger(Ever(ops), Fps(known.packages)); }
  }

  // ---- Lookups -------------------------------------------------------------------------

  /** The package was given to the user with this plan. */
  predicate GivenWith(given: seq<Stored>, fp: Fingerprint, option: Option<StorePurchaseOption>) {
    Stored(fp, option) in given
  }

  ghost predicate WasGiven(given: seq<Stored>, fp: Fingerprint) {
    exists option :: GivenWith(given, fp, option)
  }

  ghost predicate GivenTwoPlans(given: seq<Stored>, fp: Fingerprint) {
    exists one, other :: GivenWith(given, fp, one) && GivenWith(given, fp, other) && one != other
  }

  lemma PlansAreGiven(given: seq<Stored>, fp: Fingerprint)
    ensures forall option :: option in PlansOf(SetOfStored(given), fp) <==> GivenWith(given, fp, option)
  {
    forall option | GivenWith(given, fp, option) ensures option in PlansOf(SetOfStored(given), fp) {
      assert Stored(fp, option) in SetOfStored(given);
    }
  }

  /**
   * Main result. In every run a package that is among the first 256 given to the user since the
   * last clear is answered with its plan if it was given with one only, and as changed
   * otherwise. Any other package is stale if it was ever given to anybody, or if more than 256
   * were; else it is answered without a plan.
   */
  lemma LookupExactly(ops: seq<Op>, user: UserId, fp: Fingerprint)
    ensures
      var given, answer := Given(ops, user), OptionForPackage(Run(ops), user, fp);
      if fp in Admitted(ops, user) then
        && WasGiven(given, fp)
        && (answer == Err(PlanChanged) <==> GivenTwoPlans(given, fp))
        && (forall option :: answer == Ok(option) <==> GivenWith(given, fp, option) && !GivenTwoPlans(given, fp))
      else answer == if fp in Ever(ops) || |Ever(ops)| > 256 then Err(Stale) else Ok(None)
  {
    var given, stored := Given(ops, user), OptionsFor(Run(ops), user);
    RunAgrees(ops);
    HistoryIsGiven(ops, user);
    KeepsTheFirst(ops, user);
    KnowsExactly(ops, fp);
    PushedFps(stored, Stored(fp, None));
    if fp in Admitted(ops, user) {
      PlansAreGiven(given, fp);
      assert UserOk(stored, SetOfStored(given)) && PlansOk(stored, SetOfStored(given), fp);
      KeptExactly(stored, given, fp, Contains(Run(ops).known, fp));
    }
  }

  lemma KeptExactly(stored: seq<Stored>, given: seq<Stored>, fp: Fingerprint, issued: bool)
    requires Matching(stored, fp) != [] && PlansOk(stored, SetOfStored(given), fp)
    requires forall option :: option in PlansOf(SetOfStored(given), fp) <==> GivenWith(given, fp, option)
    ensures
      var answer := LookupIn(stored, fp, issued);
      && WasGiven(given, fp)
      && (answer == Err(PlanChanged) <==> GivenTwoPlans(given, fp))
      && (forall option :: answer == Ok(option) <==> GivenWith(given, fp, option) && !GivenTwoPlans(given, fp))
  {
    var m := Matching(stored, fp);
    assert GivenWith(given, fp, m[0].option);
    if |m| == 2 {
      assert GivenWith(given, fp, m[1].option) && m[1].option != m[0].option;
      assert GivenTwoPlans(given, fp);
    }
  }

  /** A clear forgets every user's plans and no package: what was given before is stale until it is given again. */
  lemma ClearsMakeStale(ops: seq<Op>, user: UserId, fp: Fingerprint)
    requires fp in Ever(ops)
    ensures OptionForPackage(Run(ops + [Clears]), user, fp) == Err(Stale)
  {
    assert (ops + [Clears])[..|ops|] == ops;
    LookupExactly(ops + [Clears], user, fp);
  }
}
