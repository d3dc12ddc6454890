/** Certificate verification, and why quorum intersection leaves one certificate per slot. */
module Certify {
  import opened Stake
  import opened Schedule
  import opened Dag

  /** Signature bytes; whether they verify is a predicate of signer, vertex digest and bytes. */
  type Signature = nat

  datatype Vote = Vote(signer: ValidatorId, signature: Signature)

  type Verifier = (ValidatorId, Digest, Signature) -> bool

  /** Only the first vote listed for a signer is ever looked at. */
  ghost predicate FirstVote(votes: seq<Vote>, i: int) {
    0 <= i < |votes| && forall j :: 0 <= j < i ==> votes[j].signer != votes[i].signer
  }

  ghost predicate Counts(valid: Verifier, d: Digest, votes: seq<Vote>, id: ValidatorId) {
    exists i :: FirstVote(votes, i) && votes[i].signer == id && valid(id, d, votes[i].signature)
  }

  /** The committee members whose first listed vote verifies. */
  ghost function Signers(vs: ValidatorSet, valid: Verifier, d: Digest, votes: seq<Vote>): set<ValidatorId> {
    set id | id in vs && Counts(valid, d, votes, id)
  }

  lemma CountsStep(valid: Verifier, d: Digest, votes: seq<Vote>, i: nat, id: ValidatorId)
    requires i < |votes|
    ensures Counts(valid, d, votes[..i + 1], id) <==>
            || Counts(valid, d, votes[..i], id)
            || (&& votes[i].signer == id && valid(id, d, votes[i].signature)
                && forall j :: 0 <= j < i ==> votes[j].signer != id)
  {
    var now, next := votes[..i], votes[..i + 1];
    assert forall k :: 0 <= k < i ==> next[k] == now[k];
    if Counts(valid, d, now, id) {
      var k :| FirstVote(now, k) && now[k].signer == id && valid(id, d, now[k].signature);
      assert FirstVote(next, k);
    }
    if votes[i].signer == id && valid(id, d, votes[i].signature) && forall j :: 0 <= j < i ==> votes[j].signer != id {
      assert FirstVote(next, i);
    }
    if Counts(valid, d, next, id) {
      var k :| FirstVote(next, k) && next[k].signer == id && valid(id, d, next[k].signature);
      if k < i {
        assert FirstVote(now, k);
      }
    }
  }

  lemma Unlisted(valid: Verifier, d: Digest, votes: seq<Vote>, i: nat, id: ValidatorId)
    requires i <= |votes| && forall j :: 0 <= j < i ==> votes[j].signer != id
    ensures !Counts(valid, d, votes[..i], id)
  {
  }

  /** Does the certificate carry a quorum of distinct, known, valid signers over its digest? */
  method VerifyCertificate(vs: ValidatorSet, valid: Verifier, d: Digest, votes: seq<Vote>) returns (ok: bool)
    ensures ok <==> StakeSum(vs, Signers(vs, valid, d, votes)) >= Quorum(vs)
    ensures ok <==> 3 * StakeSum(vs, Signers(vs, valid, d, votes)) > 2 * TotalStake(vs)
  {
    var counted: set<ValidatorId> := {};
    var stake := 0;
    assert Signers(vs, valid, d, votes[..0]) == {};
    for i := 0 to |votes|
      invariant forall id :: id in counted <==> exists j :: 0 <= j < i && votes[j].signer == id
      invariant stake == StakeSum(vs, Signers(vs, valid, d, votes[..i]))
    {
      var id := votes[i].signer;
      ghost var before, after := Signers(vs, valid, d, votes[..i]), Signers(vs, valid, d, votes[..i + 1]);
      forall x ensures Counts(valid, d, votes[..i + 1], x) <==>
                         || Counts(valid, d, votes[..i], x)
                         || (x == id && valid(id, d, votes[i].signature) && id !in counted)
      {
        CountsStep(valid, d, votes, i, x);
      }
      if id in counted {
        assert after == before;
        continue;
      }
      Unlisted(valid, d, votes, i, id);
      counted := counted + {id};
      if id !in vs {
        assert after == before;
        continue;
      }
      if valid(id, d, votes[i].signature) {
        assert after == before + {id};
        assert after - {id} == before;
        StakeSumExtract(vs, after, id);
        stake := stake + vs[id];
      } else {
        assert after == before;
      }
    }
    assert votes[..|votes|] == votes;
    ok := stake >= Quorum(vs);
    QuorumLeast(vs);
  }

  ghost predicate Verified(vs: ValidatorSet, valid: Verifier, d: Digest, votes: seq<Vote>) {
    StakeSum(vs, Signers(vs, valid, d, votes)) >= Quorum(vs)
  }

  /** A certificate verifies exactly when the members it lacks hold less than a third of the stake. */
  lemma VerifiedExactly(vs: ValidatorSet, valid: Verifier, d: Digest, votes: seq<Vote>)
    ensures Verified(vs, valid, d, votes) <==>
            3 * StakeSum(vs, vs.Keys - Signers(vs, valid, d, votes)) < TotalStake(vs)
  {
    var signers := Signers(vs, valid, d, votes);
    MinorityExactly(vs, vs.Keys - signers);
    assert vs.Keys - (vs.Keys - signers) == signers;
  }

  /** As long as less than a third of the stake is silent, the votes of all the rest are enough. */
  lemma SilentMinority(vs: ValidatorSet, valid: Verifier, d: Digest, votes: seq<Vote>, silent: set<ValidatorId>)
    requires 3 * StakeSum(vs, silent) < TotalStake(vs)
    requires forall id :: id in vs && id !in silent ==> Counts(valid, d, votes, id)
    ensures Verified(vs, valid, d, votes)
  {
    StakeSumCovered(vs, vs.Keys - Signers(vs, valid, d, votes), silent);
    VerifiedExactly(vs, valid, d, votes);
  }

  // ---- First votes against any vote ---------------------------------------------------------------

  /** The committee members with any listed vote that verifies. */
  ghost function AnySigners(vs: ValidatorSet, valid: Verifier, d: Digest, votes: seq<Vote>): set<ValidatorId> {
    set id | id in vs && HasValid(valid, d, votes, id)
  }

  ghost predicate HasValid(valid: Verifier, d: Digest, votes: seq<Vote>, id: ValidatorId) {
    exists j :: 0 <= j < |votes| && votes[j].signer == id && valid(id, d, votes[j].signature)
  }

  /** A member's valid vote stands behind an invalid one that is listed first. */
  ghost predicate Masked(valid: Verifier, d: Digest, votes: seq<Vote>, id: ValidatorId) {
    && HasValid(valid, d, votes, id)
    && exists i :: FirstVote(votes, i) && votes[i].signer == id && !valid(id, d, votes[i].signature)
  }

  lemma {:induction false} FirstVoteExists(votes: seq<Vote>, j: nat) returns (i: nat)
    requires j < |votes|
    ensures FirstVote(votes, i) && votes[i].signer == votes[j].signer
    decreases j
  {
    if k :| 0 <= k < j && votes[k].signer == votes[j].signer {
      i := FirstVoteExists(votes, k);
    } else {
      i := j;
    }
  }

  lemma FirstVoteUnique(votes: seq<Vote>, i: nat, k: nat)
    requires FirstVote(votes, i) && FirstVote(votes, k) && votes[i].signer == votes[k].signer
    ensures i == k
  {
  }

  /** A member counts exactly when it has a valid vote that no invalid first one masks. */
  lemma CountsExactly(valid: Verifier, d: Digest, votes: seq<Vote>, id: ValidatorId)
    ensures Counts(valid, d, votes, id) <==> HasValid(valid, d, votes, id) && !Masked(valid, d, votes, id)
  {
    if Counts(valid, d, votes, id) {
      var i :| FirstVote(votes, i) && votes[i].signer == id && valid(id, d, votes[i].signature);
      forall k | FirstVote(votes, k) && votes[k].signer == id ensures k == i {
        FirstVoteUnique(votes, i, k);
      }
    } else if HasValid(valid, d, votes, id) {
      var j :| 0 <= j < |votes| && votes[j].signer == id && valid(id, d, votes[j].signature);
      var i := FirstVoteExists(votes, j);
      assert !valid(id, d, votes[i].signature);
    }
  }

  /** Counting first votes counts every validly signing member exactly when none is masked. */
  lemma FirstVotesExactly(vs: ValidatorSet, valid: Verifier, d: Digest, votes: seq<Vote>)
    ensures Signers(vs, valid, d, votes) <= AnySigners(vs, valid, d, votes)
    ensures Signers(vs, valid, d, votes) == AnySigners(vs, valid, d, votes) <==>
            forall id :: id in vs ==> !Masked(valid, d, votes, id)
  {
    forall id | id in vs
      ensures id in Signers(vs, valid, d, votes) <==>
              id in AnySigners(vs, valid, d, votes) && !Masked(valid, d, votes, id)
    {
      CountsExactly(valid, d, votes, id);
    }
  }

  /** The only member, listed with a bad signature and then a good one, does not count. */
  lemma MaskedVoteRejects(d: Digest)
    ensures var vs: ValidatorSet, votes := map[1 := 1], [Vote(1, 0), Vote(1, 7)];
            var valid: Verifier := (id, digest, signature) => signature == 7;
            AnySigners(vs, valid, d, votes) == {1} && Signers(vs, valid, d, votes) == {}
  {
    var votes := [Vote(1, 0), Vote(1, 7)];
    var valid: Verifier := (id, digest, signature) => signature == 7;
    assert FirstVote(votes, 0) && votes[1].signer == 1 && valid(1, d, votes[1].signature);
    CountsExactly(valid, d, votes, 1);
  }

  // ---- Uniqueness -----------------------------------------------------------------------------------

  /** The votes validators really cast: who endorsed which vertex digest. */
  type Ballots = (ValidatorId, Digest) -> bool

  /** No forgery: every verifying signature a certificate lists was cast by its signer. */
  ghost predicate Genuine(cast: Ballots, valid: Verifier, d: Digest, votes: seq<Vote>) {
    forall i :: 0 <= i < |votes| && valid(votes[i].signer, d, votes[i].signature) ==> cast(votes[i].signer, d)
  }

  /** Which author and round a digest's vertex belongs to. */
  type Slot = (Round, ValidatorId)

  ghost predicate VotedTwice(cast: Ballots, slotOf: Digest -> Slot, slot: Slot, id: ValidatorId) {
    exists a, b :: a != b && slotOf(a) == slot && slotOf(b) == slot && cast(id, a) && cast(id, b)
  }

  /** Members who voted for two different vertices of one author and round. */
  ghost function DoubleVoters(vs: ValidatorSet, cast: Ballots, slotOf: Digest -> Slot, slot: Slot): set<ValidatorId> {
    set id | id in vs && VotedTwice(cast, slotOf, slot, id)
  }

  ghost predicate FewDoubleVoters(vs: ValidatorSet, cast: Ballots, slotOf: Digest -> Slot, slot: Slot) {
    StakeSum(vs, DoubleVoters(vs, cast, slotOf, slot)) < 2 * Quorum(vs) - TotalStake(vs)
  }

  lemma SignerVoted(vs: ValidatorSet, cast: Ballots, valid: Verifier, d: Digest, votes: seq<Vote>, id: ValidatorId)
    requires Genuine(cast, valid, d, votes) && id in Signers(vs, valid, d, votes)
    ensures id in vs && cast(id, d)
  {
    var i :| FirstVote(votes, i) && votes[i].signer == id && valid(id, d, votes[i].signature);
    assert valid(votes[i].signer, d, votes[i].signature);
  }

  /**
   * One certificate per author and round: unless members holding at least `2 * quorum - total`
   * stake voted twice, two certificates that both verify have the same digest, whatever repeated
   * or unknown signers they list.
   */
  lemma CertificateUnique(vs: ValidatorSet, cast: Ballots, valid: Verifier, slotOf: Digest -> Slot, slot: Slot,
                          a: Digest, votesA: seq<Vote>, b: Digest, votesB: seq<Vote>)
    requires slotOf(a) == slot && slotOf(b) == slot && FewDoubleVoters(vs, cast, slotOf, slot)
    requires Genuine(cast, valid, a, votesA) && Genuine(cast, valid, b, votesB)
    requires Verified(vs, valid, a, votesA) && Verified(vs, valid, b, votesB)
    ensures a == b
  {
    var sa, sb := Signers(vs, valid, a, votesA), Signers(vs, valid, b, votesB);
    QuorumsIntersect(vs, sa, sb);
    if a != b {
      forall id | id in sa * sb ensures id in DoubleVoters(vs, cast, slotOf, slot) {
        SignerVoted(vs, cast, valid, a, votesA, id);
        SignerVoted(vs, cast, valid, b, votesB, id);
      }
      StakeSumCovered(vs, sa * sb, DoubleVoters(vs, cast, slotOf, slot));
      assert false;
    }
  }

  /**
   * A store that only ever admits verified certificates stays coherent: admission never finds its
   * slot taken by another digest.
   */
  lemma VerifiedStaysCoherent(dag: Dag, committee: Round -> ValidatorSet, cast: Ballots, valid: Verifier,
                              slotOf: Digest -> Slot, votes: Digest -> seq<Vote>, d: Digest, cert: Certificate)
    requires Coherent(dag) && Topped(dag) && (d in dag.certs ==> dag.certs[d] == cert)
    requires forall x :: x in dag.certs ==>
               && slotOf(x) == (dag.certs[x].round, dag.certs[x].author) && Genuine(cast, valid, x, votes(x))
               && Verified(committee(dag.certs[x].round), valid, x, votes(x))
    requires slotOf(d) == (cert.round, cert.author) && Genuine(cast, valid, d, votes(d))
    requires Verified(committee(cert.round), valid, d, votes(d))
    requires FewDoubleVoters(committee(cert.round), cast, slotOf, (cert.round, cert.author))
    ensures Coherent(Inserted(dag, d, cert))
  {
    var held := ByAuthor(dag, cert.round, cert.author);
    if held.Some? {
      ByAuthorIsContents(dag, cert.round, cert.author, held.value);
      CertificateUnique(committee(cert.round), cast, valid, slotOf, (cert.round, cert.author),
                        held.value, votes(held.value), d, votes(d));
    }
    InsertKeepsCoherence(dag, d, cert);
  }
}
