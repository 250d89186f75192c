/** The bounded registry refines the full history, or fails closed. */
module PackageRegistryTheorems {
  import opened Options
  import opened PackageRegistryModel

  function Fps(stored: seq<Stored>): set<Fingerprint> {
    set x | x in stored :: x.fingerprint
  }

  lemma PushedFps(stored: seq<Stored>, c: Stored)
    ensures Fps(stored + [c]) == Fps(stored) + {c.fingerprint}
    ensures forall fp :: Holds(stored, fp) <==> fp in Fps(stored)
  {
    forall fp | fp in Fps(stored) + {c.fingerprint} ensures fp in Fps(stored + [c]) {
      if fp in Fps(stored) {
        var x :| x in stored && x.fingerprint == fp;
        assert x in stored + [c];
      } else {
        assert c in stored + [c];
      }
    }
    forall fp | Holds(stored, fp) ensures fp in Fps(stored) {
      var i :| 0 <= i < |stored| && stored[i].fingerprint == fp;
      assert stored[i] in stored;
    }
  }

  /** The running counter counts the list's distinct fingerprints. */
  lemma {:induction false} CountIsDistinct(stored: seq<Stored>)
    ensures FingerprintCount(stored) == |Fps(stored)|
  {
    if stored == [] {
      assert Fps(stored) == {};
    } else {
      var n := |stored| - 1;
      var before := Fps(stored[..n]);
      CountIsDistinct(stored[..n]);
      PushedFps(stored[..n], stored[n]);
      assert stored == stored[..n] + [stored[n]];
      assert stored[n].fingerprint in before ==> Fps(stored) == before;
    }
  }

  lemma Bigger<T>(a: set<T>, b: set<T>)
    requires a <= b
    ensures |a| <= |b|
    ensures |a| == |b| ==> a == b
  {
    assert b == a + (b - a);
    assert |b| == |a| + |b - a|;
  }

  // ---- Known fingerprints --------------------------------------------------------------

  ghost predicate KnownOk(k: Known, issued: set<Fingerprint>) {
    && |k.packages| <= MAX_KNOWN_PACKAGE_FINGERPRINTS
    && |Fps(k.packages)| == |k.packages|
    && Fps(k.packages) <= issued
    && (k.saturated ==> |issued| > MAX_KNOWN_PACKAGE_FINGERPRINTS)
    && (!k.saturated ==> issued <= Fps(k.packages))
  }

  lemma RememberKnownKeeps(k: Known, issued: set<Fingerprint>, c: Stored)
    requires KnownOk(k, issued)
    ensures KnownOk(RememberKnown(k, c), issued + {c.fingerprint})
  {
    PushedFps(k.packages, c);
    Bigger(issued, issued + {c.fingerprint});
    if c.fingerprint !in Fps(k.packages) {
      Bigger(Fps(k.packages) + {c.fingerprint}, issued + {c.fingerprint});
    }
  }

  lemma FingerprintsPush(incoming: seq<Stored>)
    requires incoming != []
    ensures
      var n := |incoming| - 1;
      && SetOfStored(incoming) == SetOfStored(incoming[..n]) + {incoming[n]}
      && FingerprintsOf(SetOfStored(incoming)) == FingerprintsOf(SetOfStored(incoming[..n])) + {incoming[n].fingerprint}
  {
    var n := |incoming| - 1;
    assert incoming == incoming[..n] + [incoming[n]];
    FingerprintsUnion(SetOfStored(incoming[..n]), {incoming[n]});
    assert FingerprintsOf({incoming[n]}) == {incoming[n].fingerprint};
  }

  lemma FingerprintsUnion(a: set<Stored>, b: set<Stored>)
    ensures FingerprintsOf(a + b) == FingerprintsOf(a) + FingerprintsOf(b)
  {
    forall fp | fp in FingerprintsOf(a) + FingerprintsOf(b) ensures fp in FingerprintsOf(a + b) {
      var x :| x in a + b && x.fingerprint == fp;
      assert x in a + b;
    }
  }

  lemma {:induction false} RememberAllKnownKeeps(k: Known, issued: set<Fingerprint>, incoming: seq<Stored>)
    requires KnownOk(k, issued)
    ensures KnownOk(RememberAllKnown(k, incoming), issued + FingerprintsOf(SetOfStored(incoming)))
  {
    if incoming == [] {
      assert issued + FingerprintsOf(SetOfStored(incoming)) == issued;
    } else {
      var n := |incoming| - 1;
      var before := issued + FingerprintsOf(SetOfStored(incoming[..n]));
      RememberAllKnownKeeps(k, issued, incoming[..n]);
      RememberKnownKeeps(RememberAllKnown(k, incoming[..n]), before, incoming[n]);
      FingerprintsPush(incoming);
      assert before + {incoming[n].fingerprint} == issued + FingerprintsOf(SetOfStored(incoming));
    }
  }

  // ---- One user's options --------------------------------------------------------------

  /** Fingerprints with a second, conflicting entry. */
  function Doubles(stored: seq<Stored>): set<Fingerprint> {
    set fp | fp in Fps(stored) && |Matching(stored, fp)| >= 2
  }

  /** What is kept about one fingerprint, against everything remembered about it. */
  predicate PlansOk(stored: seq<Stored>, all: set<Stored>, fp: Fingerprint) {
    var m, plans := Matching(stored, fp), PlansOf(all, fp);
    if m == [] then plans == {} || |Fps(stored)| == MAX_PACKAGE_FINGERPRINTS_PER_USER
    else if |m| == 1 then plans == {m[0].option}
    else |m| == 2 && m[0].option in plans && m[1].option in plans && m[0].option != m[1].option
  }

  ghost predicate UserOk(stored: seq<Stored>, all: set<Stored>) {
    && |Fps(stored)| <= MAX_PACKAGE_FINGERPRINTS_PER_USER
    && |stored| == |Fps(stored)| + |Doubles(stored)|
    && Fps(stored) <= FingerprintsOf(all)
    && forall fp :: PlansOk(stored, all, fp)
  }

  lemma PlansPush(all: set<Stored>, c: Stored, fp: Fingerprint)
    ensures PlansOf(all + {c}, fp) == PlansOf(all, fp) + if c.fingerprint == fp then {c.option} else {}
  {
    forall o | o in PlansOf(all, fp) ensures o in PlansOf(all + {c}, fp) {
      var x :| x in all && x.fingerprint == fp && x.option == o;
      assert x in all + {c};
    }
    if c.fingerprint == fp { assert c in all + {c}; }
  }

  lemma MatchingPush(stored: seq<Stored>, c: Stored, fp: Fingerprint)
    ensures Matching(stored + [c], fp) == if c.fingerprint == fp then Matching(stored, fp) + [c] else Matching(stored, fp)
  {
    assert (stored + [c])[..|stored|] == stored;
  }

  lemma PushPlans(stored: seq<Stored>, all: set<Stored>, c: Stored, fp: Fingerprint)
    requires PlansOk(stored, all, fp) && |Fps(stored)| <= MAX_PACKAGE_FINGERPRINTS_PER_USER
    ensures PlansOk(RememberOption(stored, c), all + {c}, fp)
  {
    if fp != c.fingerprint {
      PushOtherPlans(stored, all, c, fp);
    } else if Matching(stored, fp) == [] {
      PushFirstPlan(stored, all, c);
    } else {
      PushLaterPlan(stored, all, c);
    }
  }

  /** When the list grows, it is by a fingerprint that still fits or by a second plan for one. */
  predicate Grown(stored: seq<Stored>, after: seq<Stored>, c: Stored) {
    && after == stored + [c]
    && if c.fingerprint in Fps(stored) then c.fingerprint !in Doubles(stored)
       else |Fps(stored)| < MAX_PACKAGE_FINGERPRINTS_PER_USER
  }

  lemma RememberGrows(stored: seq<Stored>, c: Stored)
    requires |Fps(stored)| <= MAX_PACKAGE_FINGERPRINTS_PER_USER
    ensures RememberOption(stored, c) == stored || Grown(stored, RememberOption(stored, c), c)
  {
    CountIsDistinct(stored);
    PushedFps(stored, c);
  }

  lemma PushOtherPlans(stored: seq<Stored>, all: set<Stored>, c: Stored, fp: Fingerprint)
    requires PlansOk(stored, all, fp) && fp != c.fingerprint && |Fps(stored)| <= MAX_PACKAGE_FINGERPRINTS_PER_USER
    ensures PlansOk(RememberOption(stored, c), all + {c}, fp)
  {
    PlansPush(all, c, fp);
    RememberGrows(stored, c);
    if RememberOption(stored, c) != stored { GrownOtherPlans(stored, all, c, fp); }
  }

  lemma GrownOtherPlans(stored: seq<Stored>, all: set<Stored>, c: Stored, fp: Fingerprint)
    requires PlansOk(stored, all, fp) && fp != c.fingerprint && Grown(stored, stored + [c], c)
    ensures PlansOk(stored + [c], all + {c}, fp)
  {
    PlansPush(all, c, fp);
    MatchingPush(stored, c, fp);
    PushedFps(stored, c);
    assert c.fingerprint in Fps(stored) ==> Fps(stored + [c]) == Fps(stored);
  }

  lemma PushFirstPlan(stored: seq<Stored>, all: set<Stored>, c: Stored)
    requires PlansOk(stored, all, c.fingerprint) && |Fps(stored)| <= MAX_PACKAGE_FINGERPRINTS_PER_USER
    requires Matching(stored, c.fingerprint) == []
    ensures PlansOk(RememberOption(stored, c), all + {c}, c.fingerprint)
  {
    CountIsDistinct(stored);
    MatchingPush(stored, c, c.fingerprint);
    PlansPush(all, c, c.fingerprint);
  }

  lemma PushLaterPlan(stored: seq<Stored>, all: set<Stored>, c: Stored)
    requires PlansOk(stored, all, c.fingerprint) && Matching(stored, c.fingerprint) != []
    ensures PlansOk(RememberOption(stored, c), all + {c}, c.fingerprint)
  {
    var m := Matching(stored, c.fingerprint);
    PlansPush(all, c, c.fingerprint);
    if |m| == 1 && m[0].option != c.option {
      assert RememberOption(stored, c) == stored + [c];
      PushSecondPlan(stored, all, c, m[0].option);
    } else {
      assert RememberOption(stored, c) == stored;
    }
  }

  lemma PushSecondPlan(stored: seq<Stored>, all: set<Stored>, c: Stored, first: Option<StorePurchaseOption>)
    requires |Matching(stored, c.fingerprint)| == 1 && Matching(stored, c.fingerprint)[0].option == first
    requires PlansOf(all, c.fingerprint) == {first} && first != c.option
    ensures PlansOk(stored + [c], all + {c}, c.fingerprint)
  {
    PlansPush(all, c, c.fingerprint);
    MatchingPush(stored, c, c.fingerprint);
  }

  lemma PushSizes(stored: seq<Stored>, all: set<Stored>, c: Stored)
    requires |Fps(stored)| <= MAX_PACKAGE_FINGERPRINTS_PER_USER
    requires |stored| == |Fps(stored)| + |Doubles(stored)| && Fps(stored) <= FingerprintsOf(all)
    ensures
      var after := RememberOption(stored, c);
      && |Fps(after)| <= MAX_PACKAGE_FINGERPRINTS_PER_USER
      && |after| == |Fps(after)| + |Doubles(after)|
      && Fps(after) <= FingerprintsOf(all + {c})
  {
    FingerprintsUnion(all, {c});
    RememberGrows(stored, c);
    if RememberOption(stored, c) != stored {
      PushedFps(stored, c);
      assert c.fingerprint in FingerprintsOf({c});
      GrownSizes(stored, c);
    }
  }

  lemma GrownSizes(stored: seq<Stored>, c: Stored)
    requires Grown(stored, stored + [c], c) && |stored| == |Fps(stored)| + |Doubles(stored)|
    requires |Fps(stored)| <= MAX_PACKAGE_FINGERPRINTS_PER_USER
    ensures
      var after := stored + [c];
      |Fps(after)| <= MAX_PACKAGE_FINGERPRINTS_PER_USER && |after| == |Fps(after)| + |Doubles(after)|
  {
    PushedFps(stored, c);
    DoublesPush(stored, c);
    assert c.fingerprint in Fps(stored) ==> Fps(stored + [c]) == Fps(stored);
  }

  lemma DoublesPush(stored: seq<Stored>, c: Stored)
    ensures Doubles(stored + [c]) == if Holds(stored, c.fingerprint) then Doubles(stored) + {c.fingerprint} else Doubles(stored)
  {
    PushedFps(stored, c);
    forall fp ensures fp in Doubles(stored + [c]) <==> fp in Doubles(stored) || (fp == c.fingerprint && Holds(stored, fp)) {
      MatchingPush(stored, c, fp);
    }
  }

  lemma RememberOptionKeeps(stored: seq<Stored>, all: set<Stored>, c: Stored)
    requires UserOk(stored, all)
    ensures UserOk(RememberOption(stored, c), all + {c})
  {
    PushSizes(stored, all, c);
    forall fp ensures PlansOk(RememberOption(stored, c), all + {c}, fp) {
      assert PlansOk(stored, all, fp);
      PushPlans(stored, all, c, fp);
    }
  }

  lemma {:induction false} RememberAllOptionsKeeps(stored: seq<Stored>, all: set<Stored>, incoming: seq<Stored>)
    requires UserOk(stored, all)
    ensures UserOk(RememberAllOptions(stored, incoming), all + SetOfStored(incoming))
  {
    if incoming == [] {
      assert all + SetOfStored(incoming) == all;
    } else {
      var n := |incoming| - 1;
      RememberAllOptionsKeeps(stored, all, incoming[..n]);
      RememberOptionKeeps(RememberAllOptions(stored, incoming[..n]), all + SetOfStored(incoming[..n]), incoming[n]);
      FingerprintsPush(incoming);
      assert all + SetOfStored(incoming[..n]) + {incoming[n]} == all + SetOfStored(incoming);
    }
  }

  // ---- Runs ----------------------------------------------------------------------------

  ghost predicate Agrees(r: Registry, h: History) {
    && KnownOk(r.known, h.issued)
    && (forall user :: UserOk(OptionsFor(r, user), AllOptionsFor(h, user)))
    && (forall user :: FingerprintsOf(AllOptionsFor(h, user)) <= h.issued)
  }

  lemma NobodyYet()
    ensures UserOk([], {})
  {
    assert Fps([]) == {} && Doubles([]) == {};
    forall fp ensures PlansOk([], {}, fp) {
      assert PlansOf({}, fp) == {};
    }
  }

  lemma {:induction false} RunAgrees(ops: seq<Op>)
    ensures Agrees(Run(ops), FullRun(ops))
  {
    NobodyYet();
    if ops == [] {
      assert Fps([]) == {};
    } else {
      var rest, op := ops[..|ops| - 1], ops[|ops| - 1];
      RunAgrees(rest);
      var r, h := Run(rest), FullRun(rest);
      if op.Remembers? {
        RememberAllKnownKeeps(r.known, h.issued, op.incoming);
        RememberAllOptionsKeeps(OptionsFor(r, op.user), AllOptionsFor(h, op.user), op.incoming);
        FingerprintsUnion(AllOptionsFor(h, op.user), SetOfStored(op.incoming));
        forall user
          ensures UserOk(OptionsFor(Run(ops), user), AllOptionsFor(FullRun(ops), user))
          ensures FingerprintsOf(AllOptionsFor(FullRun(ops), user)) <= FullRun(ops).issued
        {
          if user != op.user {
            assert OptionsFor(Run(ops), user) == OptionsFor(r, user);
            assert AllOptionsFor(FullRun(ops), user) == AllOptionsFor(h, user);
          }
        }
      }
    }
  }

  /** A plan was dropped only when the user had more fingerprints than fit. */
  lemma DroppedMeansMany(r: Registry, h: History, user: UserId, fp: Fingerprint)
    requires Agrees(r, h)
    requires Matching(OptionsFor(r, user), fp) == [] && PlansOf(AllOptionsFor(h, user), fp) != {}
    ensures |h.issued| > MAX_PACKAGE_FINGERPRINTS_PER_USER && fp in h.issued
  {
    var stored, all := OptionsFor(r, user), AllOptionsFor(h, user);
    assert UserOk(stored, all) && PlansOk(stored, all, fp);
    var o :| o in PlansOf(all, fp);
    var x :| x in all && x.fingerprint == fp && x.option == o;
    assert fp in FingerprintsOf(all) && FingerprintsOf(all) <= h.issued;
    PushedFps(stored, x);
    assert fp !in Fps(stored);
    Bigger(Fps(stored) + {fp}, h.issued);
  }

  /**
   * Every lookup answers what the full history answers, or an error; and it answers exactly
   * that while at most 256 fingerprints were ever issued.
   */
  lemma LookupRefinesHistory(ops: seq<Op>, user: UserId, fp: Fingerprint)
    ensures
      var kept, full := OptionForPackage(Run(ops), user, fp), FullLookup(FullRun(ops), user, fp);
      && (kept == full || kept.Err?)
      && (|FullRun(ops).issued| <= MAX_KNOWN_PACKAGE_FINGERPRINTS ==> kept == full)
  {
    RunAgrees(ops);
    var r, h := Run(ops), FullRun(ops);
    if Matching(OptionsFor(r, user), fp) == [] {
      MissingLookup(r, h, user, fp);
    } else {
      assert UserOk(OptionsFor(r, user), AllOptionsFor(h, user));
      KeptLookup(OptionsFor(r, user), r, h, user, fp);
    }
  }

  lemma MissingLookup(r: Registry, h: History, user: UserId, fp: Fingerprint)
    requires Agrees(r, h) && Matching(OptionsFor(r, user), fp) == []
    ensures
      var kept, full := OptionForPackage(r, user, fp), FullLookup(h, user, fp);
      && (kept == full || kept.Err?)
      && (|h.issued| <= MAX_KNOWN_PACKAGE_FINGERPRINTS ==> kept == full)
  {
    PushedFps(r.known.packages, Stored(fp, None));
    if PlansOf(AllOptionsFor(h, user), fp) != {} { DroppedMeansMany(r, h, user, fp); }
  }

  lemma KeptLookup(stored: seq<Stored>, r: Registry, h: History, user: UserId, fp: Fingerprint)
    requires stored == OptionsFor(r, user) && Matching(stored, fp) != []
    requires PlansOk(stored, AllOptionsFor(h, user), fp)
    ensures OptionForPackage(r, user, fp) == FullLookup(h, user, fp)
  {
    var m, plans := Matching(stored, fp), PlansOf(AllOptionsFor(h, user), fp);
    if |m| == 2 {
      Bigger({m[0].option, m[1].option}, plans);
      assert m[1].option != m[0].option;
    }
  }

  /** A package that was ever issued never falls back to the purchase path without a plan. */
  lemma IssuedNeverPlanless(ops: seq<Op>, user: UserId, fp: Fingerprint)
    requires fp in FullRun(ops).issued && OptionForPackage(Run(ops), user, fp) == Ok(None)
    ensures Stored(fp, None) in OptionsFor(Run(ops), user)
  {
    RunAgrees(ops);
    PushedFps(Run(ops).known.packages, Stored(fp, None));
    var m := Matching(OptionsFor(Run(ops), user), fp);
    assert m[0] in m;
  }

  lemma StorageIsBounded(ops: seq<Op>, user: UserId)
    ensures |OptionsFor(Run(ops), user)| <= 2 * MAX_PACKAGE_FINGERPRINTS_PER_USER
    ensures |Run(ops).known.packages| <= MAX_KNOWN_PACKAGE_FINGERPRINTS
  {
    RunAgrees(ops);
    var stored := OptionsFor(Run(ops), user);
    assert UserOk(stored, AllOptionsFor(FullRun(ops), user));
    Bigger(Doubles(stored), Fps(stored));
  }
}
