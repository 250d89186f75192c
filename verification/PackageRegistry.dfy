/** The registry: lists of plans that loops push into, and the packages known to it. */
module PackageRegistry {
  import opened Options
  import opened PackageRegistryModel

  class KnownStorePackages {
    var packages: seq<Stored>
    var saturated: bool

    ghost function Model(): Known
      reads this
    {
      Known(packages, saturated)
    }

    constructor ()
      ensures Model() == Known([], false)
    {
      packages, saturated := [], false;
    }

    method Remember(incoming: seq<Stored>)
      modifies this
      ensures Model() == RememberAllKnown(old(Model()), incoming)
    {
      for n := 0 to |incoming|
        invariant Model() == RememberAllKnown(old(Model()), incoming[..n])
      {
        var candidate := incoming[n];
        assert incoming[..n + 1][..n] == incoming[..n];
        var known := Knows(candidate.fingerprint);
        if known { continue; }
        if |packages| == MAX_KNOWN_PACKAGE_FINGERPRINTS {
          saturated := true;
          continue;
        }
        packages := packages + [candidate];
      }
      assert incoming[..|incoming|] == incoming;
    }

    /** `packages.iter().any(..)`. */
    method Knows(fp: Fingerprint) returns (known: bool)
      ensures known == Holds(packages, fp)
    {
      for n := 0 to |packages|
        invariant !Holds(packages[..n], fp)
      {
        if packages[n].fingerprint == fp { return true; }
      }
      assert packages[..|packages|] == packages;
      known := false;
    }

    method ContainsPackage(fp: Fingerprint) returns (known: bool)
      ensures known == Contains(Model(), fp)
    {
      if saturated { return true; }
      known := Knows(fp);
    }
  }

  /** The entries of one fingerprint, in order. */
  method CollectMatching(stored: seq<Stored>, fp: Fingerprint) returns (matching: seq<Stored>)
    ensures matching == Matching(stored, fp)
  {
    matching := [];
    for n := 0 to |stored|
      invariant matching == Matching(stored[..n], fp)
    {
      assert stored[..n + 1][..n] == stored[..n];
      if stored[n].fingerprint == fp { matching := matching + [stored[n]]; }
    }
    assert stored[..|stored|] == stored;
  }

  method CountFingerprints(stored: seq<Stored>) returns (count: nat)
    ensures count == FingerprintCount(stored)
  {
    count := 0;
    for n := 0 to |stored|
      invariant count == FingerprintCount(stored[..n])
    {
      assert stored[..n + 1][..n] == stored[..n];
      var prior := CollectMatching(stored[..n], stored[n].fingerprint);
      if prior == [] { count := count + 1; }
    }
    assert stored[..|stored|] == stored;
  }

  lemma CountAfterPush(stored: seq<Stored>, c: Stored)
    ensures FingerprintCount(stored + [c]) == FingerprintCount(stored) + if Holds(stored, c.fingerprint) then 0 else 1
  {
    assert (stored + [c])[..|stored|] == stored;
  }

  /** The counter is computed once and then kept in step with the list. */
  method RememberStorePurchaseOptions(was: seq<Stored>, incoming: seq<Stored>) returns (stored: seq<Stored>)
    ensures stored == RememberAllOptions(was, incoming)
  {
    stored := was;
    var fingerprintCount := CountFingerprints(stored);
    for n := 0 to |incoming|
      invariant stored == RememberAllOptions(was, incoming[..n])
      invariant fingerprintCount == FingerprintCount(stored)
    {
      var candidate := incoming[n];
      assert incoming[..n + 1][..n] == incoming[..n];
      CountAfterPush(stored, candidate);
      var matching := CollectMatching(stored, candidate.fingerprint);
      var sameOption := exists i :: 0 <= i < |matching| && matching[i].option == candidate.option;
      if sameOption { continue; }
      if matching != [] {
        if |matching| == 1 { stored := stored + [candidate]; }
        continue;
      }
      if fingerprintCount < MAX_PACKAGE_FINGERPRINTS_PER_USER {
        stored := stored + [candidate];
        fingerprintCount := fingerprintCount + 1;
      }
    }
    assert incoming[..|incoming|] == incoming;
  }

  method StorePurchaseOptionForPackage(options: seq<Stored>, fp: Fingerprint, issued: bool) returns (r: Lookup)
    ensures r == LookupIn(options, fp, issued)
  {
    var matching := CollectMatching(options, fp);
    if matching == [] {
      return if issued then Err(Stale) else Ok(None);
    }
    for n := 1 to |matching|
      invariant forall i :: 1 <= i < n ==> matching[i].option == matching[0].option
    {
      if matching[n].option != matching[0].option { return Err(PlanChanged); }
    }
    r := Ok(matching[0].option);
  }

  class StorePurchaseOptionRegistry {
    var optionsByUser: map<UserId, seq<Stored>>
    const knownPackages: KnownStorePackages

    ghost function Model(): Registry
      reads this, knownPackages
    {
      Registry(optionsByUser, knownPackages.Model())
    }

    constructor ()
      ensures Model() == EMPTY_REGISTRY && fresh(knownPackages)
    {
      optionsByUser := map[];
      knownPackages := new KnownStorePackages();
    }

    method Remember(user: UserId, incoming: seq<Stored>)
      modifies this, knownPackages
      ensures Model() == RememberForUser(old(Model()), user, incoming)
    {
      knownPackages.Remember(incoming);
      var options := RememberStorePurchaseOptions(if user in optionsByUser then optionsByUser[user] else [], incoming);
      optionsByUser := optionsByUser[user := options];
    }

    method PurchaseOptionForPackage(user: UserId, fp: Fingerprint) returns (r: Lookup)
      ensures r == OptionForPackage(Model(), user, fp)
    {
      var known := knownPackages.ContainsPackage(fp);
      r := StorePurchaseOptionForPackage(if user in optionsByUser then optionsByUser[user] else [], fp, known);
    }

    method ClearIdentityScopedOptions()
      modifies this
      ensures Model() == ClearIdentityScoped(old(Model()))
    {
      optionsByUser := map[];
    }
  }
}
