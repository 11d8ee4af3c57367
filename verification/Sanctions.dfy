/** The in-memory sanctions index, against a linear scan of the list it was built from. */
module Sanctions {
  import opened Common
  import opened EditDistance
  import opened Indexing
  import opened Levenshtein
  import opened Normalization

  datatype Entity = Entity(name: string, address: string)

  datatype NameEntry = NameEntry(normalized: string, display: string)

  /** A parsed list; the source holds pointers, so an element may be absent. */
  type EntityList = seq<Option<Entity>>

  // ---- what each element contributes ----

  function AddressBinding(f: Folding, e: Option<Entity>): Option<(string, string)> {
    if e.None? || Trim(f, e.value.address) == "" then None
    else Some((NormalizeAddress(f, Trim(f, e.value.address)), e.value.name))
  }

  function NameKey(f: Folding, e: Option<Entity>): Option<string> {
    if e.None? || Normalized(f, e.value.name) == "" then None else Some(Normalized(f, e.value.name))
  }

  function AddressBindings(f: Folding, list: EntityList): (r: seq<Option<(string, string)>>)
    ensures |r| == |list|
  {
    seq(|list|, i requires 0 <= i < |list| => AddressBinding(f, list[i]))
  }

  function NameKeys(f: Folding, list: EntityList): (r: seq<Option<string>>)
    ensures |r| == |list|
  {
    seq(|list|, i requires 0 <= i < |list| => NameKey(f, list[i]))
  }

  // ---- the scan ----

  /** The i-th entity is there, has an address that is not blank, and its normal form is `a`. */
  predicate Addressed(f: Folding, list: EntityList, i: nat, a: string) {
    i < |list| && list[i].Some? && Trim(f, list[i].value.address) != "" && NormalizeAddress(f, list[i].value.address) == a
  }

  /** The i-th entity is there, and its name has this normal form, which is not blank. */
  predicate Named(f: Folding, list: EntityList, i: nat, s: string) {
    i < |list| && list[i].Some? && Normalized(f, list[i].value.name) == s && s != ""
  }

  lemma AddressedIsBound(f: Folding, list: EntityList, i: nat, a: string)
    ensures Addressed(f, list, i, a) <==> Binds(AddressBindings(f, list), i, a)
  {
    if i < |list| && list[i].Some? {
      TrimFacts(f, list[i].value.address);
      TrimFacts(f, Trim(f, list[i].value.address));
    }
  }

  lemma NamedIsHeld(f: Folding, list: EntityList, i: nat, s: string)
    ensures Named(f, list, i, s) <==> Holds(NameKeys(f, list), i, s)
  {
    hide Normalized;
  }

  /** The nearest listed name, scanning the raw list: nearest first, earliest on a tie. */
  ghost predicate Nearest(f: Folding, list: EntityList, n: string, i: nat, s: string) {
    && Named(f, list, i, s)
    && forall j: nat, t | Named(f, list, j, t) :: Dist(n, s) <= Dist(n, t) && (j < i ==> Dist(n, s) < Dist(n, t))
  }

  // ---- the index as a function of the list ----

  function AddressIndex(f: Folding, list: EntityList): map<string, string> {
    LastBindings(AddressBindings(f, list))
  }

  function NameIndex(f: Folding, list: EntityList): (r: seq<NameEntry>)
    ensures |r| == |Firsts(NameKeys(f, list))|
  {
    var firsts := Firsts(NameKeys(f, list));
    seq(|firsts|, k requires 0 <= k < |firsts| =>
      NameEntry(NameKeys(f, list)[firsts[k]].value, NameDisplay(list, firsts[k])))
  }

  function NameDisplay(list: EntityList, i: nat): string {
    if i < |list| && list[i].Some? then list[i].value.name else ""
  }

  /** The last listed entity with this address is the one called `name`. */
  ghost predicate LastAddressed(f: Folding, list: EntityList, i: nat, a: string, name: string) {
    && Addressed(f, list, i, a) && list[i].value.name == name
    && forall j: nat | i < j :: !Addressed(f, list, j, a)
  }

  /** Some listed name is within the threshold of a name that does not normalise to nothing. */
  ghost predicate WithinReach(f: Folding, list: EntityList, n: string, threshold: int) {
    n != "" && exists i: nat, s :: Named(f, list, i, s) && Dist(n, s) <= threshold
  }

  /** How far each index entry is from a name. */
  function Distances(index: seq<NameEntry>, n: string): (r: seq<nat>)
    ensures |r| == |index|
  {
    seq(|index|, k requires 0 <= k < |index| => Dist(n, index[k].normalized))
  }

  /** Where a sequence is smallest, first position on a tie. */
  ghost predicate Smallest(ds: seq<nat>, k: nat) {
    k < |ds| && forall l | 0 <= l < |ds| :: ds[k] <= ds[l] && (l < k ==> ds[k] < ds[l])
  }

  /** The state of the matcher's scan: nothing within the threshold, or the nearest so far. */
  ghost predicate Scanned(ds: seq<nat>, threshold: int, hit: int) {
    if hit == -1 then forall l | 0 <= l < |ds| :: ds[l] > threshold
    else hit >= 0 && Smallest(ds, hit) && ds[hit] <= threshold
  }

  /** One iteration of the scan: a strictly nearer name takes over. */
  lemma {:induction false} ScanStep(ds: seq<nat>, threshold: int, k: nat, hit: int, best: int, d: nat)
    requires k < |ds| && Scanned(ds[..k], threshold, hit)
    requires best == if hit == -1 then threshold + 1 else ds[hit]
    requires d <= threshold <==> ds[k] <= threshold
    requires d <= threshold ==> d == ds[k]
    ensures d < best ==> d == ds[k] && Scanned(ds[..k + 1], threshold, k)
    ensures d >= best ==> Scanned(ds[..k + 1], threshold, hit)
    ensures d < best && d == 0 ==> Scanned(ds, threshold, k)
  {
    assert ds[..k + 1] == ds[..k] + [ds[k]];
    if d < best && d == 0 {
      assert forall l | 0 <= l < k :: ds[..k][l] > 0;
    }
  }

  lemma AddressIndexIsScan(f: Folding, list: EntityList, a: string)
    ensures a in AddressIndex(f, list) <==> exists i: nat :: Addressed(f, list, i, a)
    ensures a in AddressIndex(f, list) ==> exists i: nat :: LastAddressed(f, list, i, a, AddressIndex(f, list)[a])
  {
    var bs := AddressBindings(f, list);
    LastBindingsIsScan(bs, a);
    forall i: nat ensures Addressed(f, list, i, a) <==> Binds(bs, i, a) { AddressedIsBound(f, list, i, a); }
    if a in AddressIndex(f, list) {
      var i: nat :| Binds(bs, i, a) && LastBindings(bs)[a] == bs[i].value.1 && forall j: nat | i < j :: !Binds(bs, j, a);
      assert LastAddressed(f, list, i, a, AddressIndex(f, list)[a]);
    }
  }

  /** First occurrences suffice: the smallest distance among them is the smallest overall. */
  lemma FirstsSuffice(keys: seq<Option<string>>, ds: seq<nat>, n: string, k: nat)
    requires |ds| == |Firsts(keys)|
    requires forall l | 0 <= l < |ds| :: ds[l] == Dist(n, keys[Firsts(keys)[l]].value)
    requires Smallest(ds, k)
    ensures forall j: nat, t | Holds(keys, j, t) :: ds[k] <= Dist(n, t) && (j < Firsts(keys)[k] ==> ds[k] < Dist(n, t))
  {
    forall j: nat, t | Holds(keys, j, t)
      ensures ds[k] <= Dist(n, t) && (j < Firsts(keys)[k] ==> ds[k] < Dist(n, t))
    {
      FirstsCover(keys, j, t);
      var l :| 0 <= l < |Firsts(keys)| && Firsts(keys)[l] <= j && keys[Firsts(keys)[l]] == Some(t);
      assert ds[l] == Dist(n, t);
      assert j < Firsts(keys)[k] ==> l < k;
    }
  }

  /** Deduplication loses nothing: the nearest entry of the index is the nearest of the raw list. */
  lemma NearestEntryIsNearest(f: Folding, list: EntityList, n: string, k: nat) returns (i: nat)
    requires Smallest(Distances(NameIndex(f, list), n), k)
    ensures Nearest(f, list, n, i, NameIndex(f, list)[k].normalized)
    ensures NameIndex(f, list)[k].display == list[i].value.name
  {
    FirstsSuffice(NameKeys(f, list), Distances(NameIndex(f, list), n), n, k);
    i := Firsts(NameKeys(f, list))[k];
    NamedIsHeld(f, list, i, NameIndex(f, list)[k].normalized);
    forall j: nat, t ensures Named(f, list, j, t) <==> Holds(NameKeys(f, list), j, t) { NamedIsHeld(f, list, j, t); }
  }

  lemma NoEntryNoName(f: Folding, list: EntityList, n: string, threshold: int)
    requires Scanned(Distances(NameIndex(f, list), n), threshold, -1)
    ensures forall j: nat, t | Named(f, list, j, t) :: Dist(n, t) > threshold
  {
    var ds := Distances(NameIndex(f, list), n);
    forall j: nat, t | Named(f, list, j, t) ensures Dist(n, t) > threshold {
      NamedIsHeld(f, list, j, t);
      FirstsCover(NameKeys(f, list), j, t);
      var l :| 0 <= l < |ds| && NameKeys(f, list)[Firsts(NameKeys(f, list))[l]] == Some(t);
      assert ds[l] == Dist(n, t);
    }
  }

  /** The empty display name the matcher uses for "nothing found" is never a listed name. */
  lemma ListedNamesAreNotBlank(f: Folding, list: EntityList, i: nat, s: string)
    requires Named(f, list, i, s)
    ensures list[i].value.name != ""
  {
    assert Normalized(f, "") == "";
  }

  /** What a finished scan of the index says about the list. */
  lemma Conclude(f: Folding, list: EntityList, n: string, threshold: int, hit: int)
    requires n != "" && Scanned(Distances(NameIndex(f, list), n), threshold, hit)
    ensures hit >= 0 <==> WithinReach(f, list, n, threshold)
    ensures hit >= 0 ==> NameIndex(f, list)[hit].display != ""
    ensures hit >= 0 ==>
              exists i: nat ::
                && Nearest(f, list, n, i, NameIndex(f, list)[hit].normalized)
                && NameIndex(f, list)[hit].display == list[i].value.name
  {
    if hit >= 0 {
      var i := NearestEntryIsNearest(f, list, n, hit);
      ListedNamesAreNotBlank(f, list, i, NameIndex(f, list)[hit].normalized);
    } else {
      NoEntryNoName(f, list, n, threshold);
    }
  }

  /** One more element: what Replace does in each iteration. */
  lemma AddressIndexStep(f: Folding, list: EntityList, i: nat)
    requires i < |list|
    ensures AddressIndex(f, list[..i + 1]) ==
              match AddressBinding(f, list[i])
              case None => AddressIndex(f, list[..i])
              case Some(b) => AddressIndex(f, list[..i])[b.0 := b.1]
  {
    assert AddressBindings(f, list[..i + 1])[..i] == AddressBindings(f, list[..i]);
  }

  lemma NameIndexStep(f: Folding, list: EntityList, i: nat)
    requires i < |list|
    ensures NameKeys(f, list[..i + 1]) == NameKeys(f, list[..i]) + [NameKey(f, list[i])]
    ensures NameIndex(f, list[..i + 1]) ==
              if NameKey(f, list[i]).None? || Seen(NameKeys(f, list[..i]), NameKey(f, list[i]).value)
              then NameIndex(f, list[..i])
              else NameIndex(f, list[..i]) + [NameEntry(NameKey(f, list[i]).value, NameDisplay(list, i))]
  {
    hide Normalized;
    var keys, next := NameKeys(f, list[..i]), NameKeys(f, list[..i + 1]);
    assert next[..i] == keys && next[i] == NameKey(f, list[i]);
    FirstsStep(next);
    var firsts := Firsts(keys);
    assert forall k | 0 <= k < |firsts| :: NameIndex(f, list[..i + 1])[k] == NameIndex(f, list[..i])[k];
  }

  lemma FirstsStep(keys: seq<Option<string>>)
    requires keys != []
    ensures Firsts(keys) ==
              if keys[|keys| - 1].None? || Seen(keys[..|keys| - 1], keys[|keys| - 1].value)
              then Firsts(keys[..|keys| - 1])
              else Firsts(keys[..|keys| - 1]) + [|keys| - 1]
  {
  }

  class SanctionsSet {
    const fold: Folding
    var byAddress: map<string, string>
    var names: seq<NameEntry>
    var entityCount: nat
    var updatedAt: int
    var loaded: bool
    /** The last non-empty list passed to Replace. */
    ghost var applied: EntityList

    ghost predicate Valid()
      reads this
    {
      && byAddress == AddressIndex(fold, applied)
      && names == NameIndex(fold, applied)
      && entityCount == |applied|
      && (loaded <==> applied != [])
    }

    constructor (fold: Folding)
      ensures Valid() && applied == [] && this.fold == fold
    {
      this.fold := fold;
      byAddress, names, entityCount, updatedAt, loaded, applied := map[], [], 0, 0, false, [];
    }

    method Replace(entities: EntityList, at: int)
      requires Valid()
      modifies this
      ensures Valid()
      ensures applied == if entities == [] then old(applied) else entities
      ensures updatedAt == if entities == [] then old(updatedAt) else at
    {
      hide Normalized, Trim, NormalizeAddress;
      if |entities| == 0 { return; }
      var byAddr: map<string, string> := map[];
      var entries: seq<NameEntry> := [];
      var seenName: set<string> := {};
      for i := 0 to |entities|
        invariant byAddr == AddressIndex(fold, entities[..i])
        invariant entries == NameIndex(fold, entities[..i])
        invariant forall s :: s in seenName <==> Seen(NameKeys(fold, entities[..i]), s)
      {
        AddressIndexStep(fold, entities, i);
        NameIndexStep(fold, entities, i);
        var e := entities[i];
        if e.Some? {
          var addr := Trim(fold, e.value.address);
          if addr != "" {
            byAddr := byAddr[NormalizeAddress(fold, addr) := e.value.name];
          }
          var n := NormalizeName(fold, e.value.name);
          if n != "" && n !in seenName {
            seenName := seenName + {n};
            entries := entries + [NameEntry(n, e.value.name)];
          }
        }
      }
      assert entities[..|entities|] == entities;
      byAddress, names, entityCount, updatedAt, loaded := byAddr, entries, |entities|, at, true;
      applied := entities;
    }

    method MatchAddress(addr: string) returns (name: string, ok: bool)
      requires Valid()
      ensures ok <==> exists i: nat :: Addressed(fold, applied, i, NormalizeAddress(fold, addr))
      ensures ok ==> exists i: nat :: LastAddressed(fold, applied, i, NormalizeAddress(fold, addr), name)
    {
      if addr == "" {
        BlankAddressIsUnlisted(fold, applied);
        return "", false;
      }
      AddressIndexIsScan(fold, applied, NormalizeAddress(fold, addr));
      var a := NormalizeAddress(fold, addr);
      if a in byAddress { return byAddress[a], true; }
      return "", false;
    }

    method MatchName(name: string, threshold: int) returns (display: string, dist: int, ok: bool)
      requires Valid()
      ensures ok <==> WithinReach(fold, applied, Normalized(fold, name), threshold)
      ensures ok ==>
                exists i: nat, s ::
                  && Nearest(fold, applied, Normalized(fold, name), i, s)
                  && display == applied[i].value.name && dist == Dist(Normalized(fold, name), s)
    {
      display, dist, ok := "", 0, false;
      var n := NormalizeName(fold, name);
      if n == "" { return; }
      var bestName, best;
      ghost var hit;
      bestName, best, hit := ScanNames(names, n, threshold);
      Conclude(fold, applied, n, threshold, hit);
      if bestName == "" { return; }
      display, dist, ok := bestName, best, true;
    }
  }

  /** The matcher's loop over the index, for a name already normalised. */
  method ScanNames(names: seq<NameEntry>, n: string, threshold: int) returns (bestName: string, best: int, ghost hit: int)
    ensures Scanned(Distances(names, n), threshold, hit)
    ensures best == if hit == -1 then threshold + 1 else Dist(n, names[hit].normalized)
    ensures bestName == if hit == -1 then "" else names[hit].display
    ensures forall k | 0 <= k < |names| :: best <= Distances(names, n)[k]
  {
    ghost var ds := Distances(names, n);
    best, bestName, hit := threshold + 1, "", -1;
    var k := 0;
    while k < |names|
      invariant 0 <= k <= |names|
      invariant Scanned(ds[..k], threshold, hit)
      invariant best == if hit == -1 then threshold + 1 else ds[hit]
      invariant bestName == if hit == -1 then "" else names[hit].display
    {
      var d := LevenshteinAtMost(n, names[k].normalized, threshold);
      ScanStep(ds, threshold, k, hit, best, d);
      if d < best {
        best, bestName, hit := d, names[k].display, k;
        if best == 0 { return; }
      }
      k := k + 1;
    }
    assert ds[..k] == ds;
  }

  /** Only whole blank strings normalise to "", and a blank address is never listed. */
  lemma BlankAddressIsUnlisted(f: Folding, list: EntityList)
    ensures forall i: nat :: !Addressed(f, list, i, NormalizeAddress(f, ""))
  {
    forall i: nat ensures !Addressed(f, list, i, NormalizeAddress(f, "")) {
      if i < |list| && list[i].Some? { TrimFacts(f, list[i].value.address); }
    }
  }
}
