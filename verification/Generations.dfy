/**
  Private generations of a mirror: admission's garbage collection, the candidate an
  attempt adds, and why no other step raises their number.
 */
module Generations {
  import opened Common
  import opened Lifecycle
  import opened StoreModel
  import opened Spool
  import opened Namespace
  import opened Publication

  predicate IsGeneration(p: Path) {
    p.Candidate? || p.Previous? || p.Exchange?
  }

  function PrivateGenerations(fs: Fs): set<Path> {
    set p | p in fs && IsGeneration(p)
  }

  function Bases(fs: Fs): set<Path> {
    set p | p in fs && p.Basis?
  }

  function PublishedPaths(fs: Fs): set<Path> {
    set p | p in fs && p.Published?
  }

  lemma PathsSplit(fs: Fs)
    ensures |fs.Keys| == |PrivateGenerations(fs)| + |Bases(fs)| + |PublishedPaths(fs)|
  {
    var g, b, u := PrivateGenerations(fs), Bases(fs), PublishedPaths(fs);
    assert g !! b && (g + b) !! u;
    assert fs.Keys == g + b + u;
  }

  /** No step confined to an attempt, publishing or undoing, raises the number of private generations. */
  lemma ConfinedKeepsBound(k: Key, before: Fs, after: Fs)
    requires Confined(k, before, after)
    ensures |PrivateGenerations(after)| <= |PrivateGenerations(before)|
  {
    PathsSplit(before);
    PathsSplit(after);
    assert Bases(after) == Bases(before) by {
      forall p: Path | p.Basis? ensures p in after <==> p in before {
        assert At(after, p) == At(before, p);
      }
    }
    assert PublishedPaths(before) == if Published in before then {Published} else {};
    assert PublishedPaths(after) == if Published in after then {Published} else {};
    assert |before.Keys| == |before| && |after.Keys| == |after|;
  }

  // Garbage collection

  /** A path named by some spool record of the mirror. */
  predicate IsNamed(spool: map<Key, SpoolRecord>, mirror: Name, p: Path) {
    match p
    case Candidate(k) => k in spool && OfMirror(spool[k], mirror)
    case Basis(k) => k in spool && OfMirror(spool[k], mirror)
    case Previous(k) => k in spool && OfMirror(spool[k], mirror) && spool[k].publication.value.rotates
    case _ => false
  }

  predicate IsGarbage(spool: map<Key, SpoolRecord>, mirror: Name, p: Path) {
    !p.Published? && !p.Exchange? && !IsNamed(spool, mirror, p)
  }

  /** What a collection, finished or stopped midway, may have done. */
  ghost predicate Collected(spool: map<Key, SpoolRecord>, mirror: Name, before: Fs, after: Fs) {
    && (forall p :: p in after ==> p in before && after[p] == before[p])
    && (forall p :: p in before && !IsGarbage(spool, mirror, p) ==> p in after)
  }

  lemma OnlyNamedIsLeft(spool: map<Key, SpoolRecord>, mirror: Name, fs: Fs)
    requires forall p :: p in fs ==> !IsGarbage(spool, mirror, p)
    ensures forall k :: Candidate(k) in fs || Basis(k) in fs || Previous(k) in fs ==>
              k in spool && OfMirror(spool[k], mirror)
  {
    forall k | Candidate(k) in fs || Basis(k) in fs || Previous(k) in fs
      ensures k in spool && OfMirror(spool[k], mirror)
    {
      assert Candidate(k) in fs ==> !IsGarbage(spool, mirror, Candidate(k));
      assert Basis(k) in fs ==> !IsGarbage(spool, mirror, Basis(k));
      assert Previous(k) in fs ==> !IsGarbage(spool, mirror, Previous(k));
    }
  }

  /** Removes what no record names, stopping at the first failure, then counts what is left. */
  method CollectGarbage(site: Site, bound: nat, healthy: bool) returns (s: Status, removed: nat, remaining: nat)
    modifies site`fs
    ensures Collected(site.spool, site.mirror, old(site.fs), site.fs)
    ensures removed == |old(site.fs)| - |site.fs|
    ensures s.Completed? || healthy ==> forall p :: p in site.fs ==> !IsGarbage(site.spool, site.mirror, p)
    ensures s.Completed? || healthy ==>
      forall k :: Candidate(k) in site.fs || Basis(k) in site.fs || Previous(k) in site.fs ==>
        k in site.spool && OfMirror(site.spool[k], site.mirror)
    ensures s.Completed? ==> remaining == |PrivateGenerations(site.fs)| < bound
    ensures healthy && !s.Completed? ==> remaining == |PrivateGenerations(site.fs)| >= bound
  {
    hide IsNamed;
    ghost var before := site.fs;
    var garbage := set p | p in site.fs && IsGarbage(site.spool, site.mirror, p);
    removed, remaining := 0, 0;
    while garbage != {}
      invariant Collected(site.spool, site.mirror, before, site.fs)
      invariant site.spool == old(site.spool)
      invariant forall p :: p in site.fs && IsGarbage(site.spool, site.mirror, p) <==> p in garbage
      invariant removed == |before| - |site.fs|
      decreases |garbage|
    {
      var p :| p in garbage;
      s := site.Call(healthy);
      if !s.Completed? {
        return;
      }
      assert Without(site.fs, p).Keys == site.fs.Keys - {p};
      site.fs := Without(site.fs, p);
      garbage := garbage - {p};
      removed := removed + 1;
    }
    OnlyNamedIsLeft(site.spool, site.mirror, site.fs);
    s := site.Call(healthy);
    if !s.Completed? {
      return;
    }
    remaining := |PrivateGenerations(site.fs)|;
    s := if remaining >= bound then Errored else Completed;
  }

  /** A collection leaves every slot of a recorded attempt as it was, so its phase and recovery are untouched. */
  lemma CollectionKeepsSite(mirror: Name, fs: Fs, after: Fs, spool: map<Key, SpoolRecord>, k: Key)
    requires SiteOk(mirror, fs, spool, k) && Collected(spool, mirror, fs, after)
    ensures SiteOk(mirror, after, spool, k)
    ensures forall p :: p in {Published, Exchange, Candidate(k), Basis(k), Previous(k)} ==> At(after, p) == At(fs, p)
  {
    SlotsSurvive(mirror, fs, after, spool, k);
    assert RecordFits(after, k, spool[k]);
    forall j | j in spool && j != k && OfMirror(spool[j], mirror) ensures At(after, Previous(j)) == None {
      assert At(fs, Previous(j)) == None;
    }
  }

  lemma SlotsSurvive(mirror: Name, fs: Fs, after: Fs, spool: map<Key, SpoolRecord>, k: Key)
    requires k in spool && OfMirror(spool[k], mirror) && RecordFits(fs, k, spool[k])
    requires Collected(spool, mirror, fs, after)
    ensures forall p :: p in {Published, Exchange, Candidate(k), Basis(k), Previous(k)} ==> At(after, p) == At(fs, p)
  {
    forall p | p in {Published, Exchange, Candidate(k), Basis(k)} ensures At(after, p) == At(fs, p) {
      assert !IsGarbage(spool, mirror, p);
    }
    var plan := spool[k].publication.value;
    if plan.rotates {
      assert !IsGarbage(spool, mirror, Previous(k));
    } else {
      assert At(fs, Previous(k)) == None;
    }
  }

  // Creating a candidate

  /** A directory's new identity is one no other path has. */
  method FreshIdentity(fs: Fs) returns (id: Identity)
    ensures id !in fs.Values
  {
    id := 0;
    ghost var seen: set<Identity> := {};
    while id in fs.Values
      invariant seen <= fs.Values && forall i: Identity :: i in seen <==> i < id
      decreases fs.Values - seen
    {
      seen := seen + {id};
      id := id + 1;
    }
  }

  method Create(site: Site, p: Path, healthy: bool) returns (s: Status)
    requires Injective(site.fs) && p !in site.fs
    modifies site`fs
    ensures site.fs == old(site.fs) || (p in site.fs && site.fs == old(site.fs)[p := site.fs[p]])
    ensures s.Completed? ==> p in site.fs
    ensures Injective(site.fs)
    ensures healthy ==> s.Completed?
  {
    s := site.Call(healthy);
    if s.Errored? {
      return;
    }
    var id := FreshIdentity(site.fs);
    site.fs := site.fs[p := id];
  }

  /** What preparing a candidate, finished or not, adds to the namespace. */
  ghost predicate CandidateAdded(k: Key, before: Fs, after: Fs) {
    && (forall p :: p !in {Candidate(k), Basis(k)} ==> At(after, p) == At(before, p))
    && (forall p :: p in before ==> At(after, p) == At(before, p))
  }

  /** `prepare_candidate`: a fresh candidate beside a basis; an attempt that already has either is refused. */
  method PrepareCandidate(site: Site, k: Key, healthy: bool) returns (s: Status)
    requires Injective(site.fs)
    modifies site`fs
    ensures Injective(site.fs) && CandidateAdded(k, old(site.fs), site.fs)
    ensures s.Completed? ==> Candidate(k) in site.fs && Candidate(k) !in old(site.fs)
    ensures s.Completed? ==> Basis(k) in site.fs && Basis(k) !in old(site.fs)
    ensures healthy && Candidate(k) !in old(site.fs) && Basis(k) !in old(site.fs) ==> s.Completed?
    ensures Candidate(k) in old(site.fs) || Basis(k) in old(site.fs) ==> s.Errored? && site.fs == old(site.fs)
  {
    var candidate: Option<Identity>, basis: Option<Identity>;
    s, candidate := site.Probe(Candidate(k), healthy);
    if !s.Completed? || candidate.Some? {
      return Errored;
    }
    s, basis := site.Probe(Basis(k), healthy);
    if !s.Completed? || basis.Some? {
      return Errored;
    }
    s := Create(site, Candidate(k), healthy);
    if s.Completed? {
      s := Create(site, Basis(k), healthy);
    }
    if s.Completed? {
      s := site.Call(healthy);
    }
  }

  lemma CandidateRaisesBoundByOne(k: Key, before: Fs, after: Fs)
    requires CandidateAdded(k, before, after)
    ensures |PrivateGenerations(after)| <= |PrivateGenerations(before)| + 1
  {
    var more := PrivateGenerations(before) + {Candidate(k)};
    forall p | p in PrivateGenerations(after) ensures p in more {
      assert p != Candidate(k) ==> At(after, p) == At(before, p);
    }
    CardinalityOfSubset(PrivateGenerations(after), more);
  }

  lemma {:induction false} CardinalityOfSubset<T>(a: set<T>, b: set<T>)
    requires a <= b
    ensures |a| <= |b|
  {
    assert b == a + (b - a);
  }
}
