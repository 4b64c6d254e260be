/**
  The private publication namespace of one mirror: a map from path to identity, the
  rename primitives, and which layouts each durable phase allows.
 */
module Namespace {
  import opened Common
  import opened Lifecycle
  import opened StoreModel
  import opened Spool

  datatype Path = Published | Exchange | Candidate(key: Key) | Basis(key: Key) | Previous(key: Key)

  type Fs = map<Path, Identity>

  function At(fs: Fs, p: Path): Option<Identity> {
    if p in fs then Some(fs[p]) else None
  }

  ghost predicate Injective(fs: Fs) {
    forall p, q :: p in fs && q in fs && fs[p] == fs[q] ==> p == q
  }

  function Moved(fs: Fs, from: Path, to: Path): Fs
    requires from in fs
  {
    (map p | p in fs && p != from :: fs[p])[to := fs[from]]
  }

  function Swapped(fs: Fs, a: Path, b: Path): Fs
    requires a in fs && b in fs
  {
    fs[a := fs[b]][b := fs[a]]
  }

  /** The same identities, none duplicated: what a rename may never lose. */
  ghost predicate Conserves(before: Fs, after: Fs) {
    before.Values == after.Values && |before| == |after| && (Injective(before) ==> Injective(after))
  }

  lemma MoveKeepsInjective(fs: Fs, from: Path, to: Path)
    requires from in fs && to !in fs && Injective(fs)
    ensures Injective(Moved(fs, from, to))
  {
    var after := Moved(fs, from, to);
    forall p, q | p in after && q in after && after[p] == after[q] ensures p == q {
      var u := if p == to then from else p;
      var v := if q == to then from else q;
      assert fs[u] == after[p] && fs[v] == after[q];
      assert u == v;
    }
  }

  lemma MoveKeepsValues(fs: Fs, from: Path, to: Path)
    requires from in fs && to !in fs
    ensures fs.Values <= Moved(fs, from, to).Values
  {
    var after := Moved(fs, from, to);
    forall id | id in fs.Values ensures id in after.Values {
      var p :| p in fs && fs[p] == id;
      var u := if p == from then to else p;
      assert u in after && after[u] == id;
    }
  }

  lemma MovedKeys(fs: Fs, from: Path, to: Path)
    requires from in fs && to !in fs
    ensures Moved(fs, from, to).Keys == fs.Keys - {from} + {to}
  {
  }

  lemma MoveKeepsSize(fs: Fs, from: Path, to: Path)
    requires from in fs && to !in fs
    ensures |Moved(fs, from, to)| == |fs|
  {
    MovedKeys(fs, from, to);
    hide Moved;
    var kept := fs.Keys - {from};
    assert |kept + {to}| == |kept| + 1;
    assert |fs.Keys| == |kept| + 1;
    assert |fs| == |fs.Keys|;
    assert |Moved(fs, from, to)| == |Moved(fs, from, to).Keys|;
  }

  lemma MoveBack(fs: Fs, from: Path, to: Path)
    requires from in fs && to !in fs
    ensures to in Moved(fs, from, to) && from !in Moved(fs, from, to)
    ensures Moved(Moved(fs, from, to), to, from) == fs
  {
  }

  lemma MoveConserves(fs: Fs, from: Path, to: Path)
    requires from in fs && to !in fs
    ensures Conserves(fs, Moved(fs, from, to))
  {
    hide Injective, Moved;
    var after := Moved(fs, from, to);
    MoveBack(fs, from, to);
    MoveKeepsSize(fs, from, to);
    MoveKeepsValues(fs, from, to);
    MoveKeepsValues(after, to, from);
    if Injective(fs) {
      MoveKeepsInjective(fs, from, to);
    }
  }

  lemma SwapKeepsInjective(fs: Fs, a: Path, b: Path)
    requires a in fs && b in fs && a != b && Injective(fs)
    ensures Injective(Swapped(fs, a, b))
  {
    var after := Swapped(fs, a, b);
    forall p, q | p in after && q in after && after[p] == after[q] ensures p == q {
      var u := if p == a then b else if p == b then a else p;
      var v := if q == a then b else if q == b then a else q;
      assert fs[u] == after[p] && fs[v] == after[q];
      assert u == v;
    }
  }

  lemma SwapKeepsValues(fs: Fs, a: Path, b: Path)
    requires a in fs && b in fs && a != b
    ensures fs.Values <= Swapped(fs, a, b).Values
  {
    var after := Swapped(fs, a, b);
    forall id | id in fs.Values ensures id in after.Values {
      var p :| p in fs && fs[p] == id;
      var u := if p == a then b else if p == b then a else p;
      assert u in after && after[u] == id;
    }
  }

  lemma SwapConserves(fs: Fs, a: Path, b: Path)
    requires a in fs && b in fs && a != b
    ensures Conserves(fs, Swapped(fs, a, b))
  {
    hide Injective;
    var after := Swapped(fs, a, b);
    SwapKeepsValues(fs, a, b);
    SwapKeepsValues(after, a, b);
    assert Swapped(after, a, b) == fs;
    if Injective(fs) {
      SwapKeepsInjective(fs, a, b);
    }
    assert after.Keys == fs.Keys;
  }

  // Layouts of the four slots of an attempt

  predicate Untouched(fs: Fs, k: Key, p: PublicationState) {
    && At(fs, Published) == p.published && At(fs, Exchange) == p.previous
    && At(fs, Candidate(k)) == p.candidate && At(fs, Previous(k)) == None
  }

  predicate Rotated(fs: Fs, k: Key, p: PublicationState) {
    && p.previous.Some?
    && At(fs, Published) == p.published && At(fs, Exchange) == None
    && At(fs, Candidate(k)) == p.candidate && At(fs, Previous(k)) == p.previous
  }

  predicate Staged(fs: Fs, k: Key, p: PublicationState) {
    && At(fs, Published) == p.published && At(fs, Exchange) == p.candidate
    && At(fs, Candidate(k)) == None && At(fs, Previous(k)) == p.previous
  }

  predicate Visible(fs: Fs, k: Key, p: PublicationState) {
    && At(fs, Published) == p.candidate && At(fs, Exchange) == p.published
    && At(fs, Candidate(k)) == None && At(fs, Previous(k)) == p.previous
  }

  predicate NotVisible(fs: Fs, k: Key, p: PublicationState) {
    Untouched(fs, k, p) || Rotated(fs, k, p) || Staged(fs, k, p)
  }

  predicate Planned(p: PublicationState) {
    && p.candidate.Some?
    && (p.rotates <==> p.previous.Some?) && (p.previous.Some? ==> p.published.Some?)
    && p.candidate != p.published && p.candidate != p.previous
    && (p.previous.Some? ==> p.published != p.previous)
    && (p.outcome.Some? ==> p.outcome.value.Failed? || p.outcome.value.Cancelled?)
  }

  /** The relation recovery relies on between a durable phase and the slots. */
  predicate Fits(fs: Fs, k: Key, p: PublicationState) {
    match p.phase
    case Executing => At(fs, Previous(k)) == None
    case PreparingExchange => Planned(p) && NotVisible(fs, k, p)
    case PreVisibilityRecovery => Planned(p) && NotVisible(fs, k, p)
    case ReadyToCommit => Planned(p) && (Staged(fs, k, p) || Visible(fs, k, p))
    case _ => Planned(p) && Visible(fs, k, p)
  }

  predicate RecordFits(fs: Fs, k: Key, r: SpoolRecord) {
    && r.publication.Some?
    && Fits(fs, k, r.publication.value)
    && (r.RequiresPublicationRecovery() && r.state.IsTerminal() ==>
          r.InPhase(CommittedPendingReport) && r.state.Succeeded?)
    && (r.IsFence() ==> r.state.Failed?)
  }

  predicate SamePlan(p: PublicationState, q: PublicationState) {
    && p.mirror == q.mirror && p.candidate == q.candidate && p.published == q.published
    && p.previous == q.previous && p.rotates == q.rotates
  }

  /** Only the mirror's shared slots and the attempt's own paths differ. */
  ghost predicate OnlySlotsOf(k: Key, before: Fs, after: Fs) {
    forall p :: p !in {Published, Exchange, Candidate(k), Previous(k)} ==> At(after, p) == At(before, p)
  }

  /** The public path holds the old tree or the new one, and which one tells visible layouts from the others. */
  lemma PublishedIsOldOrNew(fs: Fs, k: Key, p: PublicationState)
    requires Planned(p) && (NotVisible(fs, k, p) || Visible(fs, k, p))
    ensures At(fs, Published) == p.published || At(fs, Published) == p.candidate
    ensures Visible(fs, k, p) ==> !NotVisible(fs, k, p)
  {
  }

  /** In how many of the four slots an identity is. */
  function Holders(fs: Fs, k: Key, id: Option<Identity>): nat {
    (if At(fs, Published) == id then 1 else 0) + (if At(fs, Exchange) == id then 1 else 0)
    + (if At(fs, Candidate(k)) == id then 1 else 0) + (if At(fs, Previous(k)) == id then 1 else 0)
  }

  /** In every layout the four slots hold each planned identity exactly once, and nothing else. */
  lemma SlotsHoldThePlan(fs: Fs, k: Key, p: PublicationState)
    requires Planned(p) && (NotVisible(fs, k, p) || Visible(fs, k, p))
    ensures Holders(fs, k, p.candidate) == 1
    ensures p.published.Some? ==> Holders(fs, k, p.published) == 1
    ensures p.previous.Some? ==> Holders(fs, k, p.previous) == 1
    ensures forall slot :: slot in {Published, Exchange, Candidate(k), Previous(k)} ==>
      At(fs, slot) in {None, p.candidate, p.published, p.previous}
  {
    hide At;
  }
}
