/**
 * Which store plan a package was issued with. The registry keeps a bounded part of what it
 * has seen; `History` keeps everything, and is what the registry is measured against.
 */
module PackageRegistryModel {
  import opened Options

  type UserId = string

  const MAX_PACKAGE_FINGERPRINTS_PER_USER: nat := 256
  const MAX_KNOWN_PACKAGE_FINGERPRINTS: nat := 256

  datatype Targeting = Targeting(ruleId: string, revision: int)

  /** Compared as a whole, like the derived `PartialEq`. */
  datatype StoreProduct = StoreProduct(
    identifier: string,
    title: string,
    priceMicros: int,
    currency: string,
    subscriptionPeriod: Option<string>)

  datatype Fingerprint = Fingerprint(
    offeringIdentifier: Option<string>,
    packageIdentifier: string,
    storeProduct: StoreProduct,
    placementIdentifier: Option<string>,
    targeting: Option<Targeting>)

  datatype StorePurchaseOption = StorePurchaseOption(planIdentifier: string)

  datatype Stored = Stored(fingerprint: Fingerprint, option: Option<StorePurchaseOption>)

  datatype LookupError = Stale | PlanChanged

  datatype Lookup = Ok(option: Option<StorePurchaseOption>) | Err(error: LookupError)

  // ---- KnownStorePackages --------------------------------------------------------------

  datatype Known = Known(packages: seq<Stored>, saturated: bool)

  predicate Holds(stored: seq<Stored>, fp: Fingerprint) {
    exists i :: 0 <= i < |stored| && stored[i].fingerprint == fp
  }

  function RememberKnown(k: Known, c: Stored): Known {
    if Holds(k.packages, c.fingerprint) then k
    else if |k.packages| == MAX_KNOWN_PACKAGE_FINGERPRINTS then k.(saturated := true)
    else k.(packages := k.packages + [c])
  }

  function RememberAllKnown(k: Known, incoming: seq<Stored>): Known {
    if incoming == [] then k
    else RememberKnown(RememberAllKnown(k, incoming[..|incoming| - 1]), incoming[|incoming| - 1])
  }

  predicate Contains(k: Known, fp: Fingerprint) {
    k.saturated || Holds(k.packages, fp)
  }

  // ---- One user's options --------------------------------------------------------------

  function Matching(stored: seq<Stored>, fp: Fingerprint): (r: seq<Stored>)
    ensures r != [] <==> Holds(stored, fp)
    ensures forall x :: x in r <==> x in stored && x.fingerprint == fp
  {
    if stored == [] then []
    else
      var last := stored[|stored| - 1];
      var rest := Matching(stored[..|stored| - 1], fp);
      if last.fingerprint == fp then rest + [last] else rest
  }

  /** Entries without an earlier entry of the same fingerprint. */
  function FingerprintCount(stored: seq<Stored>): nat {
    if stored == [] then 0
    else
      var n := |stored| - 1;
      FingerprintCount(stored[..n]) + if Holds(stored[..n], stored[n].fingerprint) then 0 else 1
  }

  function RememberOption(stored: seq<Stored>, c: Stored): seq<Stored> {
    var matching := Matching(stored, c.fingerprint);
    if exists i :: 0 <= i < |matching| && matching[i].option == c.option then stored
    else if matching != [] then (if |matching| == 1 then stored + [c] else stored)
    else if FingerprintCount(stored) < MAX_PACKAGE_FINGERPRINTS_PER_USER then stored + [c]
    else stored
  }

  function RememberAllOptions(stored: seq<Stored>, incoming: seq<Stored>): seq<Stored> {
    if incoming == [] then stored
    else RememberOption(RememberAllOptions(stored, incoming[..|incoming| - 1]), incoming[|incoming| - 1])
  }

  function LookupIn(stored: seq<Stored>, fp: Fingerprint, issued: bool): Lookup {
    var matching := Matching(stored, fp);
    if matching == [] then (if issued then Err(Stale) else Ok(None))
    else if exists i :: 1 <= i < |matching| && matching[i].option != matching[0].option then Err(PlanChanged)
    else Ok(matching[0].option)
  }

  // ---- StorePurchaseOptionRegistry -----------------------------------------------------

  datatype Registry = Registry(optionsByUser: map<UserId, seq<Stored>>, known: Known)

  const EMPTY_REGISTRY := Registry(map[], Known([], false))

  function OptionsFor(r: Registry, user: UserId): seq<Stored> {
    if user in r.optionsByUser then r.optionsByUser[user] else []
  }

  function RememberForUser(r: Registry, user: UserId, incoming: seq<Stored>): Registry {
    Registry(r.optionsByUser[user := RememberAllOptions(OptionsFor(r, user), incoming)], RememberAllKnown(r.known, incoming))
  }

  function OptionForPackage(r: Registry, user: UserId, fp: Fingerprint): Lookup {
    LookupIn(OptionsFor(r, user), fp, Contains(r.known, fp))
  }

  function ClearIdentityScoped(r: Registry): Registry {
    r.(optionsByUser := map[])
  }

  // ---- Everything ever remembered ------------------------------------------------------

  /** All options per user since the last clear, and all fingerprints ever issued. */
  datatype History = History(options: map<UserId, set<Stored>>, issued: set<Fingerprint>)

  const EMPTY_HISTORY := History(map[], {})

  function AllOptionsFor(h: History, user: UserId): set<Stored> {
    if user in h.options then h.options[user] else {}
  }

  function FingerprintsOf(all: set<Stored>): set<Fingerprint> {
    set x | x in all :: x.fingerprint
  }

  function SetOfStored(incoming: seq<Stored>): set<Stored> {
    set x | x in incoming
  }

  function Recall(h: History, user: UserId, incoming: seq<Stored>): History {
    var more := SetOfStored(incoming);
    History(h.options[user := AllOptionsFor(h, user) + more], h.issued + FingerprintsOf(more))
  }

  function PlansOf(all: set<Stored>, fp: Fingerprint): set<Option<StorePurchaseOption>> {
    set x | x in all && x.fingerprint == fp :: x.option
  }

  /** One plan ever: that plan. Several: it changed. None: stale if it was ever issued. */
  ghost function FullLookup(h: History, user: UserId, fp: Fingerprint): Lookup {
    var plans := PlansOf(AllOptionsFor(h, user), fp);
    if plans == {} then (if fp in h.issued then Err(Stale) else Ok(None))
    else if |plans| == 1 then (var plan :| plan in plans; Ok(plan))
    else Err(PlanChanged)
  }

  datatype Op = Remembers(user: UserId, incoming: seq<Stored>) | Clears

  function Next(r: Registry, op: Op): Registry {
    match op
    case Remembers(user, incoming) => RememberForUser(r, user, incoming)
    case Clears => ClearIdentityScoped(r)
  }

  function NextHistory(h: History, op: Op): History {
    match op
    case Remembers(user, incoming) => Recall(h, user, incoming)
    case Clears => h.(options := map[])
  }

  function Run(ops: seq<Op>): Registry {
    if ops == [] then EMPTY_REGISTRY else Next(Run(ops[..|ops| - 1]), ops[|ops| - 1])
  }

  function FullRun(ops: seq<Op>): History {
    if ops == [] then EMPTY_HISTORY else NextHistory(FullRun(ops[..|ops| - 1]), ops[|ops| - 1])
  }
}
