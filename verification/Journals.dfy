/**
The durable recovery journal: what one journal file can say, which journal files the loader
trusts, and what a trusted journal allows the supervisor, RestoreHA and RecoverHA to do.
 */
module Journals {
  import opened Options

  const MEMBER_COUNT := 3

  /** Which member volumes predate a recovery and which ones the recovery had to create. */
  datatype Provenance = Provenance(preexisting: seq<int>, created: seq<int>)

  datatype Phase =
    | Validated | StoppingMembers | ResettingSeed | StartingSeed | RejoiningPeers | Verifying
    | Failed | Completed
    | Unrecognised

  /** One journal file. `completedAt` says whether the completion time is set. */
  datatype Journal = Journal(
    identity: string,
    snapshot: string,
    phase: Phase,
    attempted: bool,
    succeeded: bool,
    completedAt: bool,
    provenance: Option<Provenance>)

  // ---- what a journal means --------------------------------------------------------------

  predicate RuntimeSafe(j: Journal) {
    j.succeeded && (j.phase.Completed? || (j.phase.Failed? && j.attempted))
  }

  predicate RequiresRecover(j: Journal) {
    !RuntimeSafe(j) && j.provenance.Some? && j.provenance.value.created != []
  }

  predicate Increasing(ids: seq<int>) {
    && (forall k | 0 <= k < |ids| :: 1 <= ids[k] <= MEMBER_COUNT)
    && (forall k, l | 0 <= k < l < |ids| :: ids[k] < ids[l])
  }

  /** A sorted partition of the three member IDs. */
  predicate IsPartition(p: Provenance) {
    && Increasing(p.preexisting)
    && Increasing(p.created)
    && (forall id | 1 <= id <= MEMBER_COUNT :: id in p.preexisting <==> id !in p.created)
  }

  predicate Terminal(phase: Phase) {
    phase.Completed? || phase.Failed?
  }

  predicate FlagsFit(j: Journal) {
    match j.phase
    case Completed => j.succeeded && j.completedAt
    case Failed => j.attempted && !j.completedAt
    case _ => !j.attempted && !j.succeeded && !j.completedAt
  }

  predicate IsBlank(s: string) {
    forall k | 0 <= k < |s| :: s[k] in " \t\r\n"
  }

  predicate MountablePath(s: string) {
    && s != "" && s[0] == '/'
    && (forall k | 0 <= k < |s| :: s[k] != '\0' && s[k] != '\r' && s[k] != '\n')
  }

  /** The journals the loader returns instead of rejecting. */
  predicate Trusted(j: Journal) {
    && !j.phase.Unrecognised?
    && !IsBlank(j.identity)
    && MountablePath(j.snapshot)
    && (j.provenance.Some? ==> IsPartition(j.provenance.value))
    && FlagsFit(j)
  }

  // ---- the gates built on the journal file -------------------------------------------------

  /** The supervisor may reconcile: no journal, or a trusted one that ended safely. */
  predicate AllowsSupervision(file: Option<Journal>) {
    file.None? || (Trusted(file.value) && RuntimeSafe(file.value))
  }

  /** RestoreHA may proceed: no journal, or a trusted one that does not demand RecoverHA. */
  predicate AllowsRestore(file: Option<Journal>) {
    file.None? || (Trusted(file.value) && !RequiresRecover(file.value))
  }

  predicate Blocking(file: Option<Journal>) {
    !AllowsSupervision(file)
  }

  /** In a trusted journal the one flag `succeeded` already decides runtime safety. */
  lemma TrustedSafety(j: Journal)
    requires Trusted(j)
    ensures RuntimeSafe(j) <==> j.succeeded
    ensures RuntimeSafe(j) ==> Terminal(j.phase)
  {
    match j.phase
    case Unrecognised => assert false;
    case _ =>
  }

  /** A journal that demands RecoverHA stops both the supervisor and RestoreHA. */
  lemma RecoverOnlyJournalClosesOtherGates(j: Journal)
    ensures RequiresRecover(j) ==> !AllowsSupervision(Some(j)) && !AllowsRestore(Some(j))
    ensures !Trusted(j) ==> !AllowsSupervision(Some(j)) && !AllowsRestore(Some(j))
    ensures AllowsSupervision(Some(j)) ==> AllowsRestore(Some(j))
    ensures AllowsRestore(Some(j)) && !AllowsSupervision(Some(j)) <==>
              Trusted(j) && !j.succeeded && (j.provenance.None? || j.provenance.value.created == [])
  {
    if Trusted(j) {
      TrustedSafety(j);
    }
  }

  /**
  The last save of a restore sets the completion time. When that save fails the same record is
  rewritten as "failed", and the loader then trusts neither it nor anything built on it.
   */
  lemma FailedRewriteOfCompletedIsUntrusted(j: Journal, outcome: bool)
    requires j.phase.Completed? && Trusted(j)
    ensures var rewritten := j.(phase := Failed, attempted := true, succeeded := outcome);
            !Trusted(rewritten) && Blocking(Some(rewritten)) && !AllowsRestore(Some(rewritten))
  {
    assert j.completedAt;
  }

  // ---- volume provenance -------------------------------------------------------------------

  function Ids(chosen: set<int>): (r: seq<int>) {
    if 1 in chosen then
      if 2 in chosen then (if 3 in chosen then [1, 2, 3] else [1, 2])
      else (if 3 in chosen then [1, 3] else [1])
    else
      if 2 in chosen then (if 3 in chosen then [2, 3] else [2])
      else (if 3 in chosen then [3] else [])
  }

  /** The one sorted partition whose created part is `created`. */
  function PartitionOf(created: set<int>): (r: Provenance) {
    Provenance(Ids({1, 2, 3} - created), Ids(created))
  }

  lemma IdsAreExact(chosen: set<int>)
    ensures Increasing(Ids(chosen))
    ensures forall id | 1 <= id <= MEMBER_COUNT :: id in Ids(chosen) <==> id in chosen
  {
  }

  lemma PartitionOfIsPartition(created: set<int>)
    ensures IsPartition(PartitionOf(created))
    ensures created <= {1, 2, 3} ==> CreatedIds(Some(PartitionOf(created))) == created
  {
    IdsAreExact({1, 2, 3} - created);
    IdsAreExact(created);
    if created <= {1, 2, 3} {
      var p := PartitionOf(created);
      forall id ensures id in p.created <==> id in created {
        if id in p.created {
          assert 1 <= id <= 3;
        }
      }
    }
  }

  function CreatedIds(p: Option<Provenance>): (r: set<int>) {
    if p.None? then {} else set id | id in p.value.created
  }

  lemma {:induction false} ValueExceedsIndex(ids: seq<int>, k: nat)
    requires Increasing(ids) && k < |ids|
    ensures ids[k] > k
  {
    if k > 0 {
      ValueExceedsIndex(ids, k - 1);
      assert ids[k - 1] < ids[k];
    }
  }

  lemma AtMostThree(ids: seq<int>)
    requires Increasing(ids)
    ensures |ids| <= 3
    ensures ids in [[], [1], [2], [3], [1, 2], [1, 3], [2, 3], [1, 2, 3]]
  {
    if ids != [] {
      ValueExceedsIndex(ids, |ids| - 1);
    }
    if |ids| == 3 {
      assert ids[0] < ids[1] < ids[2];
      assert ids == [1, 2, 3];
    } else if |ids| == 2 {
      assert ids[0] < ids[1];
      assert ids == [ids[0], ids[1]];
    } else if |ids| == 1 {
      assert ids == [ids[0]];
    }
  }

  lemma IncreasingIsIds(ids: seq<int>)
    requires Increasing(ids)
    ensures ids == Ids(set id | id in ids)
  {
    AtMostThree(ids);
    var all := set id | id in ids;
    assert (1 in all <==> 1 in ids) && (2 in all <==> 2 in ids) && (3 in all <==> 3 in ids);
  }

  /** A provenance is acceptable exactly when it is the partition named by its created IDs. */
  lemma PartitionIsDeterminedByCreated(p: Provenance)
    ensures IsPartition(p) <==> p == PartitionOf(set id | id in p.created)
  {
    PartitionOfIsPartition(set id | id in p.created);
    if IsPartition(p) {
      IncreasingIsIds(p.preexisting);
      IncreasingIsIds(p.created);
      var created := set id | id in p.created;
      assert Ids(set id | id in p.preexisting) == Ids({1, 2, 3} - created);
    }
  }

  /**
  Merge what the runtime shows now with what an earlier attempt recorded: a member is recorded
  as created when its volume is absent now or was recorded as created before.
   */
  method MergeProvenance(volumeExists: set<int>, prior: Option<Provenance>) returns (p: Provenance)
    ensures p == PartitionOf(CreatedIds(prior) + ({1, 2, 3} - volumeExists))
  {
    var newMembers: set<int> := {};
    if prior.Some? {
      for k := 0 to |prior.value.created|
        invariant newMembers == set id | id in prior.value.created[..k]
      {
        newMembers := newMembers + {prior.value.created[k]};
        assert prior.value.created[..k + 1] == prior.value.created[..k] + [prior.value.created[k]];
      }
      assert prior.value.created[..|prior.value.created|] == prior.value.created;
    }
    for id := 1 to MEMBER_COUNT + 1
      invariant newMembers == CreatedIds(prior) + (Below(id) - volumeExists)
    {
      if id !in volumeExists {
        newMembers := newMembers + {id};
      }
    }
    p := SplitIds(newMembers);
    assert newMembers == CreatedIds(prior) + ({1, 2, 3} - volumeExists);
  }

  method SplitIds(newMembers: set<int>) returns (p: Provenance)
    ensures p == PartitionOf(newMembers)
  {
    var preexisting: seq<int>, created: seq<int> := [], [];
    for id := 1 to MEMBER_COUNT + 1
      invariant preexisting == Ids(Below(id) - newMembers)
      invariant created == Ids(Below(id) * newMembers)
    {
      if id !in newMembers {
        preexisting := preexisting + [id];
      } else {
        created := created + [id];
      }
    }
    p := Provenance(preexisting, created);
  }

  function Below(id: int): (r: set<int>) {
    if id <= 1 then {} else if id == 2 then {1} else if id == 3 then {1, 2} else {1, 2, 3}
  }

  /** Merging never forgets a created member, and adds exactly the volumes missing now. */
  lemma MergeIsMonotone(volumeExists: set<int>, prior: Option<Provenance>)
    requires prior.Some? ==> IsPartition(prior.value)
    ensures var p := PartitionOf(CreatedIds(prior) + ({1, 2, 3} - volumeExists));
            && IsPartition(p)
            && CreatedIds(Some(p)) == CreatedIds(prior) + ({1, 2, 3} - volumeExists)
  {
    assert forall id | id in CreatedIds(prior) :: 1 <= id <= MEMBER_COUNT;
    PartitionOfIsPartition(CreatedIds(prior) + ({1, 2, 3} - volumeExists));
  }

  /** One of the validator's two passes: sorted IDs in range that no earlier pass has seen. */
  method ScanIds(ids: seq<int>, before: set<int>) returns (ok: bool, seen: set<int>)
    ensures ok <==> Increasing(ids) && forall id | id in ids :: id !in before
    ensures ok ==> seen == before + set id | id in ids
  {
    var previous := 0;
    seen := before;
    for k := 0 to |ids|
      invariant Increasing(ids[..k])
      invariant forall id | id in ids[..k] :: id !in before
      invariant previous == if k == 0 then 0 else ids[k - 1]
      invariant seen == before + set id | id in ids[..k]
    {
      if ids[k] < 1 || ids[k] > MEMBER_COUNT || ids[k] <= previous || ids[k] in seen {
        if ids[k] in seen && ids[k] !in before {
          var l :| 0 <= l < k && ids[..k][l] == ids[k];
          assert ids[l] == ids[k];
        }
        return false, seen;
      }
      seen := seen + {ids[k]};
      previous := ids[k];
      assert ids[..k + 1] == ids[..k] + [ids[k]];
    }
    assert ids[..|ids|] == ids;
    return true, seen;
  }

  /** The loader's provenance check accepts exactly the sorted partitions. */
  method ValidateProvenance(p: Provenance) returns (ok: bool)
    ensures ok <==> IsPartition(p)
  {
    var seen: set<int>;
    ok, seen := ScanIds(p.preexisting, {});
    if !ok {
      return;
    }
    ok, seen := ScanIds(p.created, seen);
    if !ok {
      if Increasing(p.created) {
        var id :| id in p.created && id in p.preexisting;
        assert 1 <= id <= MEMBER_COUNT;
      }
      return;
    }
    CompleteIsPartition(p, seen);
    ok := |seen| == MEMBER_COUNT;
  }

  lemma CompleteIsPartition(p: Provenance, seen: set<int>)
    requires Increasing(p.preexisting) && Increasing(p.created)
    requires forall id | id in p.created :: id !in p.preexisting
    requires forall id :: id in seen <==> id in p.preexisting || id in p.created
    ensures |seen| == MEMBER_COUNT <==> IsPartition(p)
  {
    assert forall id | id in seen :: 1 <= id <= MEMBER_COUNT;
    ThreeOfThree(seen);
    assert seen == {1, 2, 3} <==> forall id | 1 <= id <= MEMBER_COUNT :: id in seen by {
      assert (forall id | 1 <= id <= MEMBER_COUNT :: id in seen) ==> 1 in seen && 2 in seen && 3 in seen;
    }
  }

  lemma ThreeOfThree(s: set<int>)
    requires s <= {1, 2, 3}
    ensures |s| == 3 <==> s == {1, 2, 3}
  {
    var rest := {1, 2, 3} - s;
    assert s + rest == {1, 2, 3};
    assert |s + rest| == |s| + |rest|;
    assert |{1, 2, 3}| == 3;
  }
}
