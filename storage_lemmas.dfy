/**
 * What the storage operations guarantee: replace-by-voter ballots, the flag
 * set on the first matching voter and nothing else touched, blank Phase-2
 * ballots, how the remote transaction and the local path agree and differ,
 * reset isolation, and the load merges.
 */
module StorageLemmas {
  import opened Wrappers
  import opened Text
  import opened Types
  import opened Storage

  /** The Phase-1 ballots whose normalised voter id is `id`, in stored order. */
  function BallotsOfP1(votes: seq<VoteRecordPhase1>, id: string): seq<VoteRecordPhase1> {
    if votes == [] then []
    else (if Normalize(votes[0].voterCCCD) == id then [votes[0]] else []) + BallotsOfP1(votes[1..], id)
  }

  function BallotsOfP2(votes: seq<VoteRecordPhase2>, id: string): seq<VoteRecordPhase2> {
    if votes == [] then []
    else (if Normalize(votes[0].voterCCCD) == id then [votes[0]] else []) + BallotsOfP2(votes[1..], id)
  }

  // ---------------------------------------------------------------------------
  // The two filters over concatenations
  // ---------------------------------------------------------------------------

  lemma FiltersAppendP1(a: seq<VoteRecordPhase1>, b: seq<VoteRecordPhase1>, id: string)
    ensures WithoutVoterP1(a + b, id) == WithoutVoterP1(a, id) + WithoutVoterP1(b, id)
    ensures BallotsOfP1(a + b, id) == BallotsOfP1(a, id) + BallotsOfP1(b, id)
  {
    WithoutAppendP1(a, b, id);
    BallotsOfAppendP1(a, b, id);
  }

  lemma FiltersAppendP2(a: seq<VoteRecordPhase2>, b: seq<VoteRecordPhase2>, id: string)
    ensures WithoutVoterP2(a + b, id) == WithoutVoterP2(a, id) + WithoutVoterP2(b, id)
    ensures BallotsOfP2(a + b, id) == BallotsOfP2(a, id) + BallotsOfP2(b, id)
  {
    WithoutAppendP2(a, b, id);
    BallotsOfAppendP2(a, b, id);
  }

  lemma {:induction false} WithoutAppendP1(a: seq<VoteRecordPhase1>, b: seq<VoteRecordPhase1>, id: string)
    ensures WithoutVoterP1(a + b, id) == WithoutVoterP1(a, id) + WithoutVoterP1(b, id)
  {
    if a == [] {
      assert a + b == b;
    } else {
      var head := if Normalize(a[0].voterCCCD) != id then [a[0]] else [];
      assert (a + b)[0] == a[0];
      assert (a + b)[1..] == a[1..] + b;
      WithoutAppendP1(a[1..], b, id);
      assert WithoutVoterP1(a + b, id) == head + (WithoutVoterP1(a[1..], id) + WithoutVoterP1(b, id));
    }
  }

  lemma {:induction false} BallotsOfAppendP1(a: seq<VoteRecordPhase1>, b: seq<VoteRecordPhase1>, id: string)
    ensures BallotsOfP1(a + b, id) == BallotsOfP1(a, id) + BallotsOfP1(b, id)
  {
    if a == [] {
      assert a + b == b;
    } else {
      var head := if Normalize(a[0].voterCCCD) == id then [a[0]] else [];
      assert (a + b)[0] == a[0];
      assert (a + b)[1..] == a[1..] + b;
      BallotsOfAppendP1(a[1..], b, id);
      assert BallotsOfP1(a + b, id) == head + (BallotsOfP1(a[1..], id) + BallotsOfP1(b, id));
    }
  }

  lemma {:induction false} WithoutAppendP2(a: seq<VoteRecordPhase2>, b: seq<VoteRecordPhase2>, id: string)
    ensures WithoutVoterP2(a + b, id) == WithoutVoterP2(a, id) + WithoutVoterP2(b, id)
  {
    if a == [] {
      assert a + b == b;
    } else {
      var head := if Normalize(a[0].voterCCCD) != id then [a[0]] else [];
      assert (a + b)[0] == a[0];
      assert (a + b)[1..] == a[1..] + b;
      WithoutAppendP2(a[1..], b, id);
      assert WithoutVoterP2(a + b, id) == head + (WithoutVoterP2(a[1..], id) + WithoutVoterP2(b, id));
    }
  }

  lemma {:induction false} BallotsOfAppendP2(a: seq<VoteRecordPhase2>, b: seq<VoteRecordPhase2>, id: string)
    ensures BallotsOfP2(a + b, id) == BallotsOfP2(a, id) + BallotsOfP2(b, id)
  {
    if a == [] {
      assert a + b == b;
    } else {
      var head := if Normalize(a[0].voterCCCD) == id then [a[0]] else [];
      assert (a + b)[0] == a[0];
      assert (a + b)[1..] == a[1..] + b;
      BallotsOfAppendP2(a[1..], b, id);
      assert BallotsOfP2(a + b, id) == head + (BallotsOfP2(a[1..], id) + BallotsOfP2(b, id));
    }
  }

  /** Dropping a voter's ballots leaves none of theirs, and dropping twice is dropping once. */
  lemma {:induction false} WithoutVoterP1Drops(votes: seq<VoteRecordPhase1>, id: string)
    ensures BallotsOfP1(WithoutVoterP1(votes, id), id) == []
    ensures WithoutVoterP1(WithoutVoterP1(votes, id), id) == WithoutVoterP1(votes, id)
  {
    if votes != [] {
      var head := if Normalize(votes[0].voterCCCD) != id then [votes[0]] else [];
      WithoutVoterP1Drops(votes[1..], id);
      FiltersAppendP1(head, WithoutVoterP1(votes[1..], id), id);
      if head != [] {
        assert head[1..] == [];
      }
    }
  }

  lemma {:induction false} WithoutVoterP2Drops(votes: seq<VoteRecordPhase2>, id: string)
    ensures BallotsOfP2(WithoutVoterP2(votes, id), id) == []
    ensures WithoutVoterP2(WithoutVoterP2(votes, id), id) == WithoutVoterP2(votes, id)
  {
    if votes != [] {
      var head := if Normalize(votes[0].voterCCCD) != id then [votes[0]] else [];
      WithoutVoterP2Drops(votes[1..], id);
      FiltersAppendP2(head, WithoutVoterP2(votes[1..], id), id);
      if head != [] {
        assert head[1..] == [];
      }
    }
  }

  /** Ballots that all carry the normalised id `id` are all `id`'s. */
  lemma {:induction false} AllOfVoterP1(votes: seq<VoteRecordPhase1>, id: string)
    requires forall k :: 0 <= k < |votes| ==> Normalize(votes[k].voterCCCD) == id
    ensures BallotsOfP1(votes, id) == votes
    ensures WithoutVoterP1(votes, id) == []
  {
    if votes != [] {
      AllOfVoterP1(votes[1..], id);
      assert votes == [votes[0]] + votes[1..];
    }
  }

  lemma {:induction false} AllOfVoterP2(votes: seq<VoteRecordPhase2>, id: string)
    requires forall k :: 0 <= k < |votes| ==> Normalize(votes[k].voterCCCD) == id
    ensures BallotsOfP2(votes, id) == votes
    ensures WithoutVoterP2(votes, id) == []
  {
    if votes != [] {
      AllOfVoterP2(votes[1..], id);
      assert votes == [votes[0]] + votes[1..];
    }
  }

  /**
   * The ballot rewrite both paths perform: afterwards the ballots of `id` are
   * exactly the new ones, and every other ballot is kept in its original order.
   */
  lemma RewriteP1(prior: seq<VoteRecordPhase1>, id: string, votes: seq<BallotInputP1>)
    requires IsTrimmed(id)
    ensures BallotsOfP1(WithoutVoterP1(prior, id) + BallotsP1(id, votes), id) == BallotsP1(id, votes)
    ensures WithoutVoterP1(WithoutVoterP1(prior, id) + BallotsP1(id, votes), id) == WithoutVoterP1(prior, id)
  {
    var added := BallotsP1(id, votes);
    FiltersAppendP1(WithoutVoterP1(prior, id), added, id);
    WithoutVoterP1Drops(prior, id);
    AllOfVoterP1(added, id);
  }

  lemma RewriteP2(prior: seq<VoteRecordPhase2>, id: string, selected: seq<string>)
    requires IsTrimmed(id)
    ensures BallotsOfP2(WithoutVoterP2(prior, id) + BallotsP2(id, selected), id) == BallotsP2(id, selected)
    ensures WithoutVoterP2(WithoutVoterP2(prior, id) + BallotsP2(id, selected), id) == WithoutVoterP2(prior, id)
  {
    var added := BallotsP2(id, selected);
    FiltersAppendP2(WithoutVoterP2(prior, id), added, id);
    WithoutVoterP2Drops(prior, id);
    AllOfVoterP2(added, id);
  }

  // ---------------------------------------------------------------------------
  // The local path
  // ---------------------------------------------------------------------------

  /** The local cast fails exactly when no voter's normalised cccd matches. */
  lemma CastUnknownVoter(d: AppData, voterCCCD: string, votes: seq<BallotInputP1>, selected: seq<string>)
    ensures CastP1(d, voterCCCD, votes).None? <==>
      forall j :: 0 <= j < |d.voters| ==> Normalize(d.voters[j].cccd) != Normalize(voterCCCD)
    ensures CastP2(d, voterCCCD, selected).None? <==>
      forall j :: 0 <= j < |d.voters| ==> Normalize(d.voters[j].cccd) != Normalize(voterCCCD)
  {
  }

  /**
   * A successful Phase-1 cast: the flag of the first matching voter is set and
   * nothing else about the roster changes; that voter's ballots are exactly
   * the input, in order, with normalised ids; every other ballot is kept in
   * order; Phase 2, candidates and configuration are unchanged.
   */
  lemma CastP1Effect(d: AppData, voterCCCD: string, votes: seq<BallotInputP1>, i: nat)
    requires i < |d.voters| && Normalize(d.voters[i].cccd) == Normalize(voterCCCD)
    requires forall j :: 0 <= j < i ==> Normalize(d.voters[j].cccd) != Normalize(voterCCCD)
    ensures CastP1(d, voterCCCD, votes).Some?
    ensures var r := CastP1(d, voterCCCD, votes).value;
            var id := Normalize(voterCCCD);
      && |r.voters| == |d.voters|
      && VotedP1(r.voters[i])
      && r.voters[i].(hasVotedPhase1 := d.voters[i].hasVotedPhase1) == d.voters[i]
      && (forall j :: 0 <= j < |d.voters| && j != i ==> r.voters[j] == d.voters[j])
      && BallotsOfP1(r.votesP1, id) == BallotsP1(id, votes)
      && (forall b :: b in BallotsOfP1(r.votesP1, id) ==> IsTrimmed(b.voterCCCD) && IsTrimmed(b.candidateCCCD))
      && WithoutVoterP1(r.votesP1, id) == WithoutVoterP1(d.votesP1, id)
      && r.votesP2 == d.votesP2 && r.candidatesP1 == d.candidatesP1
      && r.candidatesP2 == d.candidatesP2 && r.config == d.config
  {
    var id := Normalize(voterCCCD);
    assert FindVoter(d.voters, id) == Some(i);
    RewriteP1(d.votesP1, id, votes);
  }

  lemma CastP2Effect(d: AppData, voterCCCD: string, selected: seq<string>, i: nat)
    requires i < |d.voters| && Normalize(d.voters[i].cccd) == Normalize(voterCCCD)
    requires forall j :: 0 <= j < i ==> Normalize(d.voters[j].cccd) != Normalize(voterCCCD)
    ensures CastP2(d, voterCCCD, selected).Some?
    ensures var r := CastP2(d, voterCCCD, selected).value;
            var id := Normalize(voterCCCD);
      && |r.voters| == |d.voters|
      && VotedP2(r.voters[i])
      && r.voters[i].(hasVotedPhase2 := d.voters[i].hasVotedPhase2) == d.voters[i]
      && (forall j :: 0 <= j < |d.voters| && j != i ==> r.voters[j] == d.voters[j])
      && BallotsOfP2(r.votesP2, id) == BallotsP2(id, selected)
      && (forall b :: b in BallotsOfP2(r.votesP2, id) ==> IsTrimmed(b.voterCCCD) && IsTrimmed(b.candidateCCCD))
      && WithoutVoterP2(r.votesP2, id) == WithoutVoterP2(d.votesP2, id)
      && r.votesP1 == d.votesP1 && r.candidatesP1 == d.candidatesP1
      && r.candidatesP2 == d.candidatesP2 && r.config == d.config
  {
    var id := Normalize(voterCCCD);
    assert FindVoter(d.voters, id) == Some(i);
    RewriteP2(d.votesP2, id, selected);
  }

  /** Replace, not union: after two casts for one voter only the second ballot is theirs. */
  lemma CastP1Replaces(d: AppData, voterCCCD: string, first: seq<BallotInputP1>, second: seq<BallotInputP1>)
    requires CastP1(d, voterCCCD, first).Some?
    ensures var d1 := CastP1(d, voterCCCD, first).value;
      && CastP1(d1, voterCCCD, second).Some?
      && BallotsOfP1(CastP1(d1, voterCCCD, second).value.votesP1, Normalize(voterCCCD)) == BallotsP1(Normalize(voterCCCD), second)
  {
    var id := Normalize(voterCCCD);
    var d1 := CastP1(d, voterCCCD, first).value;
    var i := FindVoter(d.voters, id).value;
    CastP1Effect(d, voterCCCD, first, i);
    assert forall j :: 0 <= j < |d1.voters| ==> d1.voters[j].cccd == d.voters[j].cccd;
    CastP1Effect(d1, voterCCCD, second, i);
  }

  lemma CastP2Replaces(d: AppData, voterCCCD: string, first: seq<string>, second: seq<string>)
    requires CastP2(d, voterCCCD, first).Some?
    ensures var d1 := CastP2(d, voterCCCD, first).value;
      && CastP2(d1, voterCCCD, second).Some?
      && BallotsOfP2(CastP2(d1, voterCCCD, second).value.votesP2, Normalize(voterCCCD)) == BallotsP2(Normalize(voterCCCD), second)
  {
    var id := Normalize(voterCCCD);
    var d1 := CastP2(d, voterCCCD, first).value;
    var i := FindVoter(d.voters, id).value;
    CastP2Effect(d, voterCCCD, first, i);
    assert forall j :: 0 <= j < |d1.voters| ==> d1.voters[j].cccd == d.voters[j].cccd;
    CastP2Effect(d1, voterCCCD, second, i);
  }

  /** A blank Phase-2 ballot for a known voter marks them as voted and leaves them no selections. */
  lemma BlankBallot(d: AppData, voterCCCD: string)
    requires CastP2(d, voterCCCD, []).Some?
    ensures var r := CastP2(d, voterCCCD, []).value;
      && (exists i :: 0 <= i < |r.voters| && Normalize(r.voters[i].cccd) == Normalize(voterCCCD) && VotedP2(r.voters[i]))
      && BallotsOfP2(r.votesP2, Normalize(voterCCCD)) == []
  {
    var id := Normalize(voterCCCD);
    var i := FindVoter(d.voters, id).value;
    CastP2Effect(d, voterCCCD, [], i);
  }

  // ---------------------------------------------------------------------------
  // The remote path
  // ---------------------------------------------------------------------------

  /**
   * The remote transaction leaves a null document null; on a document it
   * rewrites the voter's ballots even when no voter matches, leaving the
   * roster as it was in that case.
   */
  lemma CastP1TxnEffect(current: Option<StoredDoc>, voterCCCD: string, votes: seq<BallotInputP1>)
    ensures current.None? ==> CastP1Txn(current, voterCCCD, votes) == None
    ensures current.Some? ==>
      var r := CastP1Txn(current, voterCCCD, votes);
      var id := Normalize(voterCCCD);
      && r.Some? && r.value.votesP1.Some?
      && BallotsOfP1(r.value.votesP1.value, id) == BallotsP1(id, votes)
      && WithoutVoterP1(r.value.votesP1.value, id) == WithoutVoterP1(current.value.votesP1.GetOr([]), id)
      && r.value.votesP2 == current.value.votesP2
      && r.value.config == current.value.config
      && (current.value.voters.None? ==> r.value.voters.None?)
      && (current.value.voters.Some? && FindVoter(current.value.voters.value, id).None? ==>
            r.value.voters == current.value.voters)
      && r.value.candidatesP1 == current.value.candidatesP1 && r.value.candidatesP2 == current.value.candidatesP2
    ensures current.Some? && current.value.voters.Some? ==>
      var vs := current.value.voters.value;
      var r := CastP1Txn(current, voterCCCD, votes);
      && r.value.voters.Some? && |r.value.voters.value| == |vs|
      && forall k :: 0 <= k < |vs| ==>
           r.value.voters.value[k] == if FindVoter(vs, Normalize(voterCCCD)) == Some(k) then vs[k].(hasVotedPhase1 := Some(true)) else vs[k]
  {
    if current.Some? {
      RewriteP1(current.value.votesP1.GetOr([]), Normalize(voterCCCD), votes);
    }
  }

  lemma CastP2TxnEffect(current: Option<StoredDoc>, voterCCCD: string, selected: seq<string>)
    ensures current.None? ==> CastP2Txn(current, voterCCCD, selected) == None
    ensures current.Some? ==>
      var r := CastP2Txn(current, voterCCCD, selected);
      var id := Normalize(voterCCCD);
      && r.Some? && r.value.votesP2.Some?
      && BallotsOfP2(r.value.votesP2.value, id) == BallotsP2(id, selected)
      && WithoutVoterP2(r.value.votesP2.value, id) == WithoutVoterP2(current.value.votesP2.GetOr([]), id)
      && r.value.votesP1 == current.value.votesP1
      && r.value.config == current.value.config
      && (current.value.voters.None? ==> r.value.voters.None?)
      && (current.value.voters.Some? && FindVoter(current.value.voters.value, id).None? ==>
            r.value.voters == current.value.voters)
      && r.value.candidatesP1 == current.value.candidatesP1 && r.value.candidatesP2 == current.value.candidatesP2
    ensures current.Some? && current.value.voters.Some? ==>
      var vs := current.value.voters.value;
      var r := CastP2Txn(current, voterCCCD, selected);
      && r.value.voters.Some? && |r.value.voters.value| == |vs|
      && forall k :: 0 <= k < |vs| ==>
           r.value.voters.value[k] == if FindVoter(vs, Normalize(voterCCCD)) == Some(k) then vs[k].(hasVotedPhase2 := Some(true)) else vs[k]
  {
    if current.Some? {
      RewriteP2(current.value.votesP2.GetOr([]), Normalize(voterCCCD), selected);
    }
  }

  /**
   * For a known voter the two paths agree: the transaction applied to the
   * stored form of a document gives the stored form of the local result.
   */
  lemma CastPathsAgree(d: AppData, voterCCCD: string, votes: seq<BallotInputP1>, selected: seq<string>)
    ensures CastP1(d, voterCCCD, votes).Some? ==>
      CastP1Txn(Some(ToStored(d)), voterCCCD, votes) == Some(ToStored(CastP1(d, voterCCCD, votes).value))
    ensures CastP2(d, voterCCCD, selected).Some? ==>
      CastP2Txn(Some(ToStored(d)), voterCCCD, selected) == Some(ToStored(CastP2(d, voterCCCD, selected).value))
  {
  }

  // ---------------------------------------------------------------------------
  // Resets and loads
  // ---------------------------------------------------------------------------

  /**
   * `resetPhase1` empties Phase 1 and clears every Phase-1 flag; the roster
   * keeps its size and order, and all Phase-2 data, including each voter's
   * Phase-2 flag, is unchanged. `resetPhase2` is the mirror image.
   */
  lemma ResetIsolation(d: AppData)
    ensures var r := ClearPhase1(d);
      && r.candidatesP1 == [] && r.votesP1 == [] && |r.voters| == |d.voters|
      && (forall i :: 0 <= i < |d.voters| ==>
            !VotedP1(r.voters[i]) && r.voters[i].hasVotedPhase2 == d.voters[i].hasVotedPhase2
            && r.voters[i].cccd == d.voters[i].cccd)
      && r.candidatesP2 == d.candidatesP2 && r.votesP2 == d.votesP2
    ensures var r := ClearPhase2(d);
      && r.candidatesP2 == [] && r.votesP2 == [] && |r.voters| == |d.voters|
      && (forall i :: 0 <= i < |d.voters| ==>
            !VotedP2(r.voters[i]) && r.voters[i].hasVotedPhase1 == d.voters[i].hasVotedPhase1
            && r.voters[i].cccd == d.voters[i].cccd)
      && r.candidatesP1 == d.candidatesP1 && r.votesP1 == d.votesP1
  {
  }

  /** Saving a document with complete display maps and reading it back through the cloud merge gives it back. */
  lemma CloudRoundTrip(d: AppData)
    requires P1Complete(d.config.p1Display) && P2Complete(d.config.p2Display)
    ensures CloudMerge(ToStored(d)) == d
  {
    var r := CloudMerge(ToStored(d));
    assert r.config.p1Display == d.config.p1Display;
    assert r.config.p2Display == d.config.p2Display;
  }

  /**
   * The cloud merge: missing collections become empty, missing configuration
   * fields take their defaults, stored ones win.
   */
  lemma CloudMergeDefaults(val: StoredDoc)
    ensures var r := CloudMerge(val);
      && (val.voters.None? ==> r.voters == []) && (val.voters.Some? ==> r.voters == val.voters.value)
      && (val.votesP1.None? ==> r.votesP1 == []) && (val.votesP1.Some? ==> r.votesP1 == val.votesP1.value)
      && (val.votesP2.None? ==> r.votesP2 == []) && (val.votesP2.Some? ==> r.votesP2 == val.votesP2.value)
      && (val.config.None? ==> r.config == InitialConfig)
      && (forall f :: (val.config.None? || val.config.value.p1Display.None? || f !in val.config.value.p1Display.value)
            ==> r.config.p1Display[f] == DefaultP1Display[f])
      && (forall f :: (val.config.None? || val.config.value.p2Display.None? || f !in val.config.value.p2Display.value)
            ==> r.config.p2Display[f] == DefaultP2Display[f])
  {
    DefaultsComplete();
    var r := CloudMerge(val);
    if val.config.None? {
      assert r.config.p1Display == DefaultP1Display;
      assert r.config.p2Display == DefaultP2Display;
    }
  }

  /** What the local backend saves it loads back unchanged. */
  lemma LocalRoundTrip(d: AppData)
    ensures LoadFromLocal(Some(ToLocal(d))) == d
  {
  }

  /**
   * Unlike the cloud merge, the local load does not complete the display
   * maps of a stored configuration.
   */
  lemma LocalLoadKeepsPartialDisplay(c: SystemConfig)
    requires c.p1Display == map[]
    ensures var r := LocalMerge(LocalDoc(None, None, None, None, None, Some(c)));
      r.config.p1Display == map[] && !P1Complete(r.config.p1Display) && r.voters == []
  {
    var r := LocalMerge(LocalDoc(None, None, None, None, None, Some(c)));
    assert P1ShowCCCD !in r.config.p1Display;
  }
}
