/**
 * The consent ledger shared by both end-user dashboards: a fixed record of
 * eight consent categories, each granted (true) or withdrawn (false), with
 * the rule that the essential category can never be changed.
 */
module Consent {

  /** The eight consent categories, a closed set (the ledger literal's keys). */
  datatype ConsentKey =
    | Essential
    | Analytics
    | Marketing
    | Personalization
    | ThirdParty
    | Location
    | Communication
    | Profiling

  /** The keys in the order the ledger literal declares them, which is the
      order `Object.keys` and `Object.values` enumerate them in. */
  const Keys: seq<ConsentKey> :=
    [Essential, Analytics, Marketing, Personalization, ThirdParty, Location, Communication, Profiling]

  /** The ledger: each consent category mapped to its granted flag. */
  type Ledger = map<ConsentKey, bool>

  /** A ledger holds an entry for every category and nothing else. */
  predicate WellFormed(l: Ledger) {
    forall k: ConsentKey :: k in l
  }

  /** No key is listed twice. */
  predicate Distinct(ks: seq<ConsentKey>) {
    forall i, j :: 0 <= i < j < |ks| ==> ks[i] != ks[j]
  }

  /** The categories currently granted. */
  function Granted(l: Ledger): set<ConsentKey> {
    set k | k in l && l[k]
  }

  /** The ledger a session starts with: essential, personalization and
      communication granted, the other five withdrawn. */
  function Initial(): (l: Ledger)
    ensures WellFormed(l) && l[Essential]
  {
    var l := map[Essential := true, Analytics := false, Marketing := false, Personalization := true,
                 ThirdParty := false, Location := false, Communication := true, Profiling := false];
    assert WellFormed(l) by {
      forall k: ConsentKey ensures k in l {
        KeyListed(k);
      }
    }
    l
  }

  /**
   * The state updater behind `toggleConsent`: a request to toggle the
   * essential category returns the ledger as it was; any other key is negated.
   */
  function Toggle(l: Ledger, key: ConsentKey): (r: Ledger)
    requires WellFormed(l)
    ensures WellFormed(r)
    ensures r[Essential] == l[Essential]
    ensures key != Essential ==> r[key] == !l[key]
    ensures forall k :: k != key ==> r[k] == l[k]
  {
    if key == Essential then l else l[key := !l[key]]
  }

  /** The ledger after a sequence of toggle requests, applied first to last. */
  function ToggleAll(l: Ledger, requests: seq<ConsentKey>): (r: Ledger)
    requires WellFormed(l)
    ensures WellFormed(r)
    decreases |requests|
  {
    if requests == [] then l else ToggleAll(Toggle(l, requests[0]), requests[1..])
  }

  /** How many of the values listed under `ks` are true: the filter-and-count
      `Object.values(consents).filter(Boolean).length` over the given keys. */
  function CountGranted(l: Ledger, ks: seq<ConsentKey>): (n: nat)
    requires WellFormed(l)
    ensures n <= |ks|
  {
    if ks == [] then 0 else (if l[ks[0]] then 1 else 0) + CountGranted(l, ks[1..])
  }

  /** `activeConsents`: the granted values of the ledger, counted. */
  function ActiveCount(l: Ledger): (n: nat)
    requires WellFormed(l)
    ensures n <= |Keys|
  {
    CountGranted(l, Keys)
  }

  /** `totalConsents`: the number of keys in the ledger. */
  function TotalCount(l: Ledger): (n: nat)
    requires WellFormed(l)
    ensures n == |Keys|
  {
    LedgerKeys(l);
    |l|
  }

  /** What a consent row shows: the switch position, the "Required" badge,
      the "Active" badge, and whether the switch is disabled. */
  datatype RowView = RowView(checked: bool, requiredBadge: bool, activeBadge: bool, disabled: bool)

  /** The row for a category with the given required flag and ledger value. */
  function Row(required: bool, granted: bool): (v: RowView)
    ensures v.disabled <==> v.requiredBadge
    ensures v.activeBadge ==> v.checked && !v.disabled
  {
    RowView(granted, required, granted && !required, required)
  }

  // ---------------------------------------------------------------------------
  // Properties of the ledger

  /** Every key is one of the eight listed. */
  lemma KeyListed(k: ConsentKey)
    ensures k in Keys
  {
    match k
    case Essential =>
    case Analytics =>
    case Marketing =>
    case Personalization =>
    case ThirdParty =>
    case Location =>
    case Communication =>
    case Profiling =>
  }

  lemma KeysDistinct()
    ensures Distinct(Keys)
  {
  }

  /** A well-formed ledger has exactly the eight keys. */
  lemma LedgerKeys(l: Ledger)
    requires WellFormed(l)
    ensures l.Keys == {Essential, Analytics, Marketing, Personalization, ThirdParty, Location, Communication, Profiling}
  {
    var all := {Essential, Analytics, Marketing, Personalization, ThirdParty, Location, Communication, Profiling};
    assert l.Keys == all by {
      forall k | k in l.Keys ensures k in all {
        KeyListed(k);
      }
    }
  }

  /** A well-formed ledger has exactly the eight keys, so its total is 8. */
  lemma TotalIsEight(l: Ledger)
    requires WellFormed(l)
    ensures l.Keys == {Essential, Analytics, Marketing, Personalization, ThirdParty, Location, Communication, Profiling}
    ensures TotalCount(l) == 8
  {
    LedgerKeys(l);
  }

  /** Counting over distinct keys gives the number of granted keys among them. */
  lemma {:induction false} CountGrantedIsCardinality(l: Ledger, ks: seq<ConsentKey>)
    requires WellFormed(l) && Distinct(ks)
    ensures CountGranted(l, ks) == |set k | k in ks && l[k]|
  {
    if ks != [] {
      DistinctTail(ks);
      CountGrantedIsCardinality(l, ks[1..]);
      GrantedStep(l, ks);
      var rest := set k | k in ks[1..] && l[k];
      assert ks[0] !in rest;
    }
  }

  /** The tail of a list without repetitions has none and lacks the head. */
  lemma DistinctTail(ks: seq<ConsentKey>)
    requires Distinct(ks) && ks != []
    ensures Distinct(ks[1..]) && ks[0] !in ks[1..]
  {
    var tail := ks[1..];
    forall i, j | 0 <= i < j < |tail| ensures tail[i] != tail[j] {
      assert tail[i] == ks[i + 1] && tail[j] == ks[j + 1];
    }
    forall i | 0 <= i < |tail| ensures tail[i] != ks[0] {
      assert tail[i] == ks[i + 1];
    }
  }

  /** The granted keys of a list: those of its tail, plus the head if granted. */
  lemma GrantedStep(l: Ledger, ks: seq<ConsentKey>)
    requires WellFormed(l) && ks != []
    ensures (set k | k in ks && l[k]) ==
      (set k | k in ks[1..] && l[k]) + (if l[ks[0]] then {ks[0]} else {})
  {
    assert ks == [ks[0]] + ks[1..];
  }

  /** The active count is the number of granted categories. */
  lemma ActiveCountIsGranted(l: Ledger)
    requires WellFormed(l)
    ensures ActiveCount(l) == |Granted(l)|
  {
    KeysDistinct();
    CountGrantedIsCardinality(l, Keys);
    forall k | k in l ensures k in Keys {
      KeyListed(k);
    }
    assert (set k | k in Keys && l[k]) == Granted(l);
  }

  /** The initial ledger shows 3 of 8 consents active. */
  lemma InitialCounts()
    ensures Granted(Initial()) == {Essential, Personalization, Communication}
    ensures ActiveCount(Initial()) == 3
    ensures TotalCount(Initial()) == 8
  {
    TotalIsEight(Initial());
  }

  /** Toggling the same key twice restores the ledger. */
  lemma ToggleTwice(l: Ledger, key: ConsentKey)
    requires WellFormed(l)
    ensures Toggle(Toggle(l, key), key) == l
  {
  }

  /** A toggle leaves the ledger unchanged exactly when it targets essential. */
  lemma ToggleNoOpIffEssential(l: Ledger, key: ConsentKey)
    requires WellFormed(l)
    ensures Toggle(l, key) == l <==> key == Essential
  {
    if key != Essential {
      assert Toggle(l, key)[key] != l[key];
    }
  }

  /** Negating one key's value changes the count over distinct keys by one
      if the key is among them, and not at all otherwise. */
  lemma {:induction false} CountGrantedAfterFlip(l: Ledger, key: ConsentKey, ks: seq<ConsentKey>)
    requires WellFormed(l) && Distinct(ks)
    ensures CountGranted(l[key := !l[key]], ks) ==
      CountGranted(l, ks) + (if key !in ks then 0 else if l[key] then -1 else 1)
  {
    if ks != [] {
      assert Distinct(ks[1..]) by {
        forall i, j | 0 <= i < j < |ks[1..]| ensures ks[1..][i] != ks[1..][j] {
          assert ks[1..][i] == ks[i + 1] && ks[1..][j] == ks[j + 1];
        }
      }
      CountGrantedAfterFlip(l, key, ks[1..]);
      if ks[0] == key {
        assert key !in ks[1..] by {
          forall i | 0 <= i < |ks[1..]| ensures ks[1..][i] != key {
            assert ks[1..][i] == ks[i + 1];
          }
        }
      } else {
        assert key in ks <==> key in ks[1..];
      }
    }
  }

  /** A non-essential toggle moves the active count by exactly one: down
      when the key was granted, up when it was withdrawn. */
  lemma ToggleCountStep(l: Ledger, key: ConsentKey)
    requires WellFormed(l) && key != Essential
    ensures ActiveCount(Toggle(l, key)) == if l[key] then ActiveCount(l) - 1 else ActiveCount(l) + 1
  {
    KeysDistinct();
    KeyListed(key);
    CountGrantedAfterFlip(l, key, Keys);
  }

  /** After any sequence of toggles essential keeps its value, no key is added
      or removed, and the total stays 8. */
  lemma {:induction false} ToggleAllKeepsEssential(l: Ledger, requests: seq<ConsentKey>)
    requires WellFormed(l)
    ensures ToggleAll(l, requests)[Essential] == l[Essential]
    ensures ToggleAll(l, requests).Keys == l.Keys
    ensures TotalCount(ToggleAll(l, requests)) == 8
    decreases |requests|
  {
    TotalIsEight(l);
    TotalIsEight(ToggleAll(l, requests));
    if requests != [] {
      ToggleAllKeepsEssential(Toggle(l, requests[0]), requests[1..]);
    }
  }

  /** The switch is disabled exactly when toggling that key would be ignored. */
  lemma DisabledIffToggleIgnored(l: Ledger, key: ConsentKey, required: bool)
    requires WellFormed(l)
    requires required <==> key == Essential
    ensures Row(required, l[key]).disabled <==> Toggle(l, key) == l
  {
    ToggleNoOpIffEssential(l, key);
  }
}
