/**
 * The voter page (pages/Voter.tsx): login lookup and phase routing, the
 * rating map of the Phase-1 form (restored from earlier ballots, filled in
 * automatically or by the quick-fill button, submitted as an array), the
 * Phase-2 selection with its cap, and the candidate lists the page shows.
 */
module VoterPage {
  import opened Wrappers
  import opened Text
  import opened Types
  import opened Seqs
  import opened Storage

  // ---------------------------------------------------------------------------
  // The rating map
  // ---------------------------------------------------------------------------

  /**
   * The `Record<string, VoteLevel1>` of the Phase-1 form as its entries, in
   * insertion order; `Object.entries` turns it into exactly this array.
   */
  type RatingMap = seq<BallotInputP1>

  predicate DistinctKeys(m: RatingMap) {
    forall i, j :: 0 <= i < j < |m| ==> m[i].candidateCCCD != m[j].candidateCCCD
  }

  /** `m[key]`: the rating of a candidate, if any. */
  function Get(m: RatingMap, key: string): (r: Option<VoteLevel1>)
    ensures r.Some? <==> exists i :: 0 <= i < |m| && m[i].candidateCCCD == key
    ensures r.Some? ==> exists i :: 0 <= i < |m| && m[i] == BallotInputP1(key, r.value)
  {
    if m == [] then None
    else if m[0].candidateCCCD == key then Some(m[0].level)
    else
      var r := Get(m[1..], key);
      assert r.Some? ==> exists i :: 0 <= i < |m[1..]| && m[1..][i] == BallotInputP1(key, r.value);
      r
  }

  /** `m[key] = level`: an existing key keeps its place, a new key goes last. */
  function Put(m: RatingMap, key: string, level: VoteLevel1): (r: RatingMap)
    ensures Get(r, key) == Some(level)
    ensures forall k :: k != key ==> Get(r, k) == Get(m, k)
    ensures |r| == if Get(m, key).Some? then |m| else |m| + 1
  {
    if m == [] then [BallotInputP1(key, level)]
    else if m[0].candidateCCCD == key then
      var r := [BallotInputP1(key, level)] + m[1..];
      GetCons(BallotInputP1(key, level), m[1..]);
      assert m == [m[0]] + m[1..];
      GetCons(m[0], m[1..]);
      r
    else
      var rest := Put(m[1..], key, level);
      GetCons(m[0], rest);
      assert m == [m[0]] + m[1..];
      GetCons(m[0], m[1..]);
      [m[0]] + rest
  }

  /** Writing a key keeps the keys distinct. */
  lemma {:induction false} PutDistinct(m: RatingMap, key: string, level: VoteLevel1)
    requires DistinctKeys(m)
    ensures DistinctKeys(Put(m, key, level))
  {
    if m != [] && m[0].candidateCCCD != key {
      assert DistinctKeys(m[1..]) by {
        forall a, b | 0 <= a < b < |m[1..]|
          ensures m[1..][a].candidateCCCD != m[1..][b].candidateCCCD
        {
          assert m[1..][a] == m[a + 1] && m[1..][b] == m[b + 1];
        }
      }
      PutDistinct(m[1..], key, level);
      var rest := Put(m[1..], key, level);
      forall j | 0 <= j < |rest|
        ensures rest[j].candidateCCCD != m[0].candidateCCCD
      {
        var k := rest[j].candidateCCCD;
        assert Get(rest, k).Some?;
        if k != key {
          assert Get(m[1..], k).Some?;
          var i :| 0 <= i < |m[1..]| && m[1..][i].candidateCCCD == k;
          assert m[1..][i] == m[i + 1];
        }
      }
      assert Put(m, key, level) == [m[0]] + rest;
    }
  }

  /** One step of the lookup. */
  lemma GetCons(e: BallotInputP1, m: RatingMap)
    ensures forall k :: Get([e] + m, k) == if e.candidateCCCD == k then Some(e.level) else Get(m, k)
  {
    assert ([e] + m)[1..] == m;
  }

  /**
   * The level of the last record naming `key`: what `forEach(v => map[id] =
   * level)` leaves behind, stated independently of any map.
   */
  function LastLevel(records: seq<VoteRecordPhase1>, key: string): (r: Option<VoteLevel1>)
    ensures r.Some? <==> exists i :: 0 <= i < |records| && records[i].candidateCCCD == key
    ensures r.Some? ==> exists i :: 0 <= i < |records| && records[i].candidateCCCD == key && records[i].level == r.value
                                   && forall j :: i < j < |records| ==> records[j].candidateCCCD != key
  {
    if records == [] then None
    else if records[|records| - 1].candidateCCCD == key then Some(records[|records| - 1].level)
    else LastLevel(records[..|records| - 1], key)
  }

  /** The voter's earlier Phase-1 ballots, matched by their exact stored voter id. */
  function EarlierP1(votesP1: seq<VoteRecordPhase1>, userCccd: string): seq<VoteRecordPhase1> {
    Filter(votesP1, (v: VoteRecordPhase1) => v.voterCCCD == userCccd)
  }

  /**
   * The restore loop of `handleLogin`: one entry per candidate the voter has
   * rated, holding the level of their latest ballot for that candidate.
   */
  method RestoreP1(votesP1: seq<VoteRecordPhase1>, userCccd: string) returns (m: RatingMap)
    ensures DistinctKeys(m)
    ensures forall k :: Get(m, k) == LastLevel(EarlierP1(votesP1, userCccd), k)
  {
    var existing := EarlierP1(votesP1, userCccd);
    m := [];
    for i := 0 to |existing|
      invariant DistinctKeys(m)
      invariant forall k :: Get(m, k) == LastLevel(existing[..i], k)
    {
      assert existing[..i + 1][..i] == existing[..i];
      PutDistinct(m, existing[i].candidateCCCD, existing[i].level);
      m := Put(m, existing[i].candidateCCCD, existing[i].level);
    }
    assert existing[..|existing|] == existing;
  }

  /** The earlier Phase-2 selections, as the list of candidate ids. */
  function RestoreP2(votesP2: seq<VoteRecordPhase2>, userCccd: string): (r: seq<string>)
    ensures var mine := Filter(votesP2, (v: VoteRecordPhase2) => v.voterCCCD == userCccd);
      |r| == |mine| && forall i :: 0 <= i < |r| ==> r[i] == mine[i].candidateCCCD
  {
    var mine := Filter(votesP2, (v: VoteRecordPhase2) => v.voterCCCD == userCccd);
    seq(|mine|, i requires 0 <= i < |mine| => mine[i].candidateCCCD)
  }

  /** The candidate ids of a list of Phase-1 candidates. */
  function IdsP1(cs: seq<CandidatePhase1>): set<string> {
    set c | c in cs :: c.person.cccd
  }

  predicate Unrated(m: RatingMap, c: CandidatePhase1) {
    Get(m, c.person.cccd).None?
  }

  /** `missing.forEach(c => map[c.cccd] = HOAN_THANH)` on a copy of the map. */
  method FillMissing(m: RatingMap, missing: seq<CandidatePhase1>) returns (r: RatingMap)
    ensures DistinctKeys(m) ==> DistinctKeys(r)
    ensures forall k :: Get(r, k) == if k in IdsP1(missing) then Some(HoanThanh) else Get(m, k)
  {
    r := m;
    for i := 0 to |missing|
      invariant DistinctKeys(m) ==> DistinctKeys(r)
      invariant forall k :: Get(r, k) == if k in IdsP1(missing[..i]) then Some(HoanThanh) else Get(m, k)
    {
      assert forall k :: k in IdsP1(missing[..i + 1]) <==> k in IdsP1(missing[..i]) || k == missing[i].person.cccd by {
        assert missing[..i + 1] == missing[..i] + [missing[i]];
      }
      if DistinctKeys(m) {
        PutDistinct(r, missing[i].person.cccd, HoanThanh);
      }
      r := Put(r, missing[i].person.cccd, HoanThanh);
    }
    assert missing[..|missing|] == missing;
  }

  /**
   * `handlePreSubmitP1` once confirmed: the ballot to submit keeps every
   * rating made and rates every unrated candidate `HOAN_THANH`, so every
   * candidate is rated; `missingCount` is the number the dialog reports.
   */
  method PreSubmitP1(m: RatingMap, candidates: seq<CandidatePhase1>) returns (ballot: RatingMap, missingCount: nat)
    requires DistinctKeys(m)
    ensures DistinctKeys(ballot)
    ensures missingCount == Count(candidates, (c: CandidatePhase1) => Unrated(m, c))
    ensures forall k :: Get(m, k).Some? ==> Get(ballot, k) == Get(m, k)
    ensures forall k :: Get(m, k).None? ==> Get(ballot, k) == if k in IdsP1(candidates) then Some(HoanThanh) else None
    ensures forall c :: c in candidates ==> Get(ballot, c.person.cccd).Some?
  {
    var missing := Filter(candidates, (c: CandidatePhase1) => Unrated(m, c));
    missingCount := |missing|;
    if |missing| > 0 {
      ballot := FillMissing(m, missing);
    } else {
      ballot := m;
    }
    forall k | Get(m, k).None? && k in IdsP1(candidates)
      ensures k in IdsP1(missing)
    {
      var c :| c in candidates && c.person.cccd == k;
      assert c in missing;
    }
  }

  /**
   * `handleQuickVoteP1` once confirmed: only the visible unrated candidates
   * get `HOAN_THANH`; when there are none the map is left as it was and the
   * page shows an error notice (`filled` is false).
   */
  method QuickVoteP1(m: RatingMap, visible: seq<CandidatePhase1>) returns (r: RatingMap, filled: bool)
    requires DistinctKeys(m)
    ensures DistinctKeys(r)
    ensures filled <==> exists c :: c in visible && Unrated(m, c)
    ensures !filled ==> r == m
    ensures forall k :: Get(m, k).Some? ==> Get(r, k) == Get(m, k)
    ensures forall k :: Get(m, k).None? ==> Get(r, k) == if k in IdsP1(visible) then Some(HoanThanh) else None
  {
    var unvoted := Filter(visible, (c: CandidatePhase1) => Unrated(m, c));
    if |unvoted| == 0 {
      assert forall c :: c in visible ==> !Unrated(m, c);
      return m, false;
    }
    assert unvoted[0] in unvoted;
    r := FillMissing(m, unvoted);
    filled := true;
    forall k | Get(m, k).None? && k in IdsP1(visible)
      ensures k in IdsP1(unvoted)
    {
      var c :| c in visible && c.person.cccd == k;
      assert c in unvoted;
    }
  }

  /**
   * The array `executeSubmitP1` submits is the map's entries: when the map's
   * keys are trimmed ids, the stored ballot names each rated candidate
   * exactly once, with the rating in the map.
   */
  lemma {:induction false} SubmittedOncePerCandidate(m: RatingMap, id: string)
    requires DistinctKeys(m)
    requires forall i :: 0 <= i < |m| ==> IsTrimmed(m[i].candidateCCCD)
    ensures var b := BallotsP1(id, m);
      && (forall i, j :: 0 <= i < j < |b| ==> b[i].candidateCCCD != b[j].candidateCCCD)
      && (forall k :: Get(m, k).Some? <==> exists i :: 0 <= i < |b| && b[i].candidateCCCD == k)
      && (forall i :: 0 <= i < |b| ==> Get(m, b[i].candidateCCCD) == Some(b[i].level))
  {
    var b := BallotsP1(id, m);
    forall i | 0 <= i < |b|
      ensures b[i].candidateCCCD == m[i].candidateCCCD && b[i].level == m[i].level
    {
      assert Normalize(m[i].candidateCCCD) == m[i].candidateCCCD;
    }
    forall i | 0 <= i < |b|
      ensures Get(m, b[i].candidateCCCD) == Some(b[i].level)
    {
      DistinctGet(m, i);
    }
  }

  lemma {:induction false} DistinctGet(m: RatingMap, i: nat)
    requires DistinctKeys(m) && i < |m|
    ensures Get(m, m[i].candidateCCCD) == Some(m[i].level)
  {
    if i > 0 {
      assert DistinctKeys(m[1..]) by {
        forall a, b | 0 <= a < b < |m[1..]|
          ensures m[1..][a].candidateCCCD != m[1..][b].candidateCCCD
        {
          assert m[1..][a] == m[a + 1] && m[1..][b] == m[b + 1];
        }
      }
      DistinctGet(m[1..], i - 1);
      assert m[1..][i - 1] == m[i];
    }
  }

  // ---------------------------------------------------------------------------
  // Login and routing
  // ---------------------------------------------------------------------------

  datatype Step = LoginStep | P1Step | P2Step | DoneStep

  datatype LoginError = NoDataError | NotFoundError | ClosedError

  /** What the login lookup found, before routing. */
  datatype Lookup = NoData | Ignored | NotFound | Found(index: nat)

  /**
   * The index of the first voter whose trimmed cccd equals the trimmed input,
   * or whose trimmed, lowercased student id equals the lowercased input.
   */
  function FindLogin(voters: seq<Voter>, cleanId: string): (r: Option<nat>)
    ensures r.Some? ==> r.value < |voters| && LoginMatches(voters[r.value], cleanId)
    ensures r.Some? ==> forall j :: 0 <= j < r.value ==> !LoginMatches(voters[j], cleanId)
    ensures r.None? <==> forall j :: 0 <= j < |voters| ==> !LoginMatches(voters[j], cleanId)
  {
    FirstIndex(voters, (v: Voter) => LoginMatches(v, cleanId))
  }

  predicate LoginMatches(v: Voter, cleanId: string) {
    Normalize(v.cccd) == cleanId || Lower(Normalize(v.mssv)) == Lower(cleanId)
  }

  /** `handleLogin` up to the routing: no data, an empty id, an unknown id, or the voter found. */
  function LookUp(voters: seq<Voter>, dataExists: bool, loginId: string): (r: Lookup)
    ensures r == NoData <==> !dataExists
    ensures r == Ignored <==> dataExists && Normalize(loginId) == ""
    ensures r == NotFound <==>
      dataExists && Normalize(loginId) != "" && forall j :: 0 <= j < |voters| ==> !LoginMatches(voters[j], Normalize(loginId))
    ensures r.Found? ==>
      r.index < |voters| && LoginMatches(voters[r.index], Normalize(loginId))
      && forall j :: 0 <= j < r.index ==> !LoginMatches(voters[j], Normalize(loginId))
  {
    if !dataExists then NoData
    else
      var cleanId := Normalize(loginId);
      if cleanId == "" then Ignored
      else match FindLogin(voters, cleanId)
        case None => NotFound
        case Some(i) => Found(i)
  }

  /**
   * The step a found voter is sent to, or `None` for the "system closed"
   * error: done after both phases; Phase 1 whenever it is open and not yet
   * voted; otherwise Phase 2 whenever it is open and not yet voted; the error
   * only when both phases are closed and the voter voted in neither.
   */
  function Route(u: Voter, p1Open: bool, p2Open: bool): (r: Option<Step>)
    ensures VotedP1(u) && VotedP2(u) ==> r == Some(DoneStep)
    ensures r == Some(P1Step) <==> p1Open && !VotedP1(u)
    ensures r == Some(P2Step) <==> p2Open && !VotedP2(u) && !(p1Open && !VotedP1(u))
    ensures r.None? <==> !p1Open && !p2Open && !VotedP1(u) && !VotedP2(u)
    ensures r != Some(LoginStep)
  {
    if VotedP1(u) && VotedP2(u) then Some(DoneStep)
    else if p1Open && !VotedP1(u) then Some(P1Step)
    else if p2Open && !VotedP2(u) then Some(P2Step)
    else if VotedP1(u) && !p2Open then Some(DoneStep)
    else if !p1Open && VotedP2(u) then Some(DoneStep)
    else if !p1Open && !p2Open then None
    else Some(DoneStep)
  }

  /** A voter who has voted in both phases always lands on the done screen; one in neither never does while a phase is open. */
  lemma RouteProgress(u: Voter, p1Open: bool, p2Open: bool)
    ensures VotedP1(u) && VotedP2(u) ==> Route(u, p1Open, p2Open) == Some(DoneStep)
    ensures !VotedP1(u) && !VotedP2(u) && (p1Open || p2Open) ==>
      Route(u, p1Open, p2Open) == Some(if p1Open then P1Step else P2Step)
  {
  }

  // ---------------------------------------------------------------------------
  // Phase-2 selection
  // ---------------------------------------------------------------------------

  /** The outcome of a click on a Phase-2 card: the new selection, and whether the cap notice shows. */
  datatype Click = Click(selected: seq<string>, capReached: bool)

  /**
   * A selected candidate is deselected (every occurrence removed); an
   * unselected one is added at the end unless the selection already has
   * `max` entries, in which case nothing changes and the cap notice shows.
   */
  function ClickP2(selected: seq<string>, id: string, max: int): (r: Click)
    ensures id in selected ==>
      !r.capReached && id !in r.selected && SubsequenceOf(r.selected, selected)
      && forall x :: x != id ==> (x in r.selected <==> x in selected)
    ensures id !in selected && |selected| >= max ==> r.capReached && r.selected == selected
    ensures id !in selected && |selected| < max ==> !r.capReached && r.selected == selected + [id]
    ensures |r.selected| <= |selected| || |r.selected| <= max
  {
    if id in selected then Click(Filter(selected, (x: string) => x != id), false)
    else if |selected| >= max then Click(selected, true)
    else Click(selected + [id], false)
  }

  predicate NoDuplicates(s: seq<string>) {
    forall i, j :: 0 <= i < j < |s| ==> s[i] != s[j]
  }

  /** Clicks keep a selection within the cap and free of duplicates. */
  lemma ClickP2KeepsInvariant(selected: seq<string>, id: string, max: int)
    requires |selected| <= max && NoDuplicates(selected)
    ensures |ClickP2(selected, id, max).selected| <= max
    ensures NoDuplicates(ClickP2(selected, id, max).selected)
  {
    var r := ClickP2(selected, id, max);
    if id in selected {
      SubsequenceNoDuplicates(r.selected, selected);
    }
  }

  lemma {:induction false} SubsequenceNoDuplicates(sub: seq<string>, s: seq<string>)
    requires SubsequenceOf(sub, s) && NoDuplicates(s)
    ensures NoDuplicates(sub)
    ensures forall x :: x in sub ==> x in s
  {
    if sub != [] && s != [] {
      assert NoDuplicates(s[1..]) by {
        forall i, j | 0 <= i < j < |s[1..]|
          ensures s[1..][i] != s[1..][j]
        {
          assert s[1..][i] == s[i + 1] && s[1..][j] == s[j + 1];
        }
      }
      if sub[0] == s[0] {
        SubsequenceNoDuplicates(sub[1..], s[1..]);
        assert s[0] !in s[1..] by {
          forall j | 0 <= j < |s[1..]|
            ensures s[1..][j] != s[0]
          {
            assert s[1..][j] == s[j + 1];
          }
        }
        forall j | 0 < j < |sub|
          ensures sub[0] != sub[j]
        {
          assert sub[j] == sub[1..][j - 1];
          assert sub[j] in sub[1..];
        }
        assert sub == [sub[0]] + sub[1..];
        assert s == [s[0]] + s[1..];
      } else {
        SubsequenceNoDuplicates(sub, s[1..]);
      }
    }
  }

  /** The two Phase-2 view toggles: show only selected, hide selected. */
  datatype P2View = P2View(viewSelected: bool, hideSelected: bool)

  /** The "selected" button: turning it on switches the other off. */
  function ClickViewSelected(v: P2View): (r: P2View)
    ensures r.viewSelected == !v.viewSelected
    ensures !(r.viewSelected && r.hideSelected)
    ensures !r.viewSelected ==> r.hideSelected == v.hideSelected
  {
    P2View(!v.viewSelected, if !v.viewSelected then false else v.hideSelected)
  }

  /** The "hide selected" button: turning it on switches the other off. */
  function ClickHideSelected(v: P2View): (r: P2View)
    ensures r.hideSelected == !v.hideSelected
    ensures !(r.viewSelected && r.hideSelected)
    ensures !r.hideSelected ==> r.viewSelected == v.viewSelected
  {
    P2View(if !v.hideSelected then false else v.viewSelected, !v.hideSelected)
  }

  // ---------------------------------------------------------------------------
  // Candidate lists shown to the voter
  // ---------------------------------------------------------------------------

  /** `c.chiBoDeXuat || 'Khác'` and `c.khoa || 'Khác'`: the grouping keys, empty replaced by "Khác". */
  function OrOther(s: string): (r: string)
    ensures r != ""
    ensures s != "" ==> r == s
  {
    if s == "" then "Khác" else s
  }

  /**
   * The Phase-2 card filter: the name search, the proposing-branch filter
   * ("ALL" passes everything) and the selection view, where "hide selected"
   * overrides "show only selected".
   */
  predicate ShownP2(c: CandidatePhase2, term: string, chiBo: string, view: P2View, selected: seq<string>) {
    var matchesSelection := if view.hideSelected then c.base.person.cccd !in selected
      else if view.viewSelected then c.base.person.cccd in selected else true;
    && Contains(Lower(c.base.person.hoTen), Lower(term))
    && (chiBo == "ALL" || OrOther(c.chiBoDeXuat) == chiBo)
    && matchesSelection
  }

  function P2DisplayData(candidates: seq<CandidatePhase2>, term: string, chiBo: string, view: P2View, selected: seq<string>): (r: seq<CandidatePhase2>)
    ensures SubsequenceOf(r, candidates)
    ensures forall c :: c in r <==> c in candidates && ShownP2(c, term, chiBo, view, selected)
    ensures view.hideSelected ==> forall c :: c in r ==> c.base.person.cccd !in selected
    ensures view.viewSelected && !view.hideSelected ==> forall c :: c in r ==> c.base.person.cccd in selected
  {
    Filter(candidates, (c: CandidatePhase2) => ShownP2(c, term, chiBo, view, selected))
  }

  /** The Phase-1 card filter: search on name or student id, the unit filter, and "hide rated". */
  predicate ShownP1(c: CandidatePhase1, term: string, khoa: string, hideVoted: bool, m: RatingMap) {
    && (Contains(Lower(c.person.hoTen), Lower(term)) || Contains(Lower(c.person.mssv), Lower(term)))
    && (khoa == "ALL" || OrOther(c.khoa) == khoa)
    && (hideVoted ==> Unrated(m, c))
  }

  /** The unit keys of a list, each once, in order of first appearance. */
  function GroupKeys(cs: seq<CandidatePhase1>): (ks: seq<string>)
    ensures NoDuplicates(ks)
    ensures forall k :: k in ks <==> exists c :: c in cs && OrOther(c.khoa) == k
  {
    if cs == [] then []
    else
      var init := cs[..|cs| - 1];
      var last := cs[|cs| - 1];
      var ks := GroupKeys(init);
      assert cs == init + [last];
      if OrOther(last.khoa) in ks then ks else ks + [OrOther(last.khoa)]
  }

  /** `p1DisplayData`: the shown candidates grouped by unit, each group in list order. */
  function P1DisplayData(candidates: seq<CandidatePhase1>, term: string, khoa: string, hideVoted: bool, m: RatingMap)
    : (groups: seq<(string, seq<CandidatePhase1>)>)
    ensures forall g :: g in groups ==> forall c :: c in g.1 ==> OrOther(c.khoa) == g.0
  {
    var shown := Filter(candidates, (c: CandidatePhase1) => ShownP1(c, term, khoa, hideVoted, m));
    var ks := GroupKeys(shown);
    seq(|ks|, i requires 0 <= i < |ks| => (ks[i], Filter(shown, (c: CandidatePhase1) => OrOther(c.khoa) == ks[i])))
  }

  /** `Object.values(groups).flat()`. */
  function Flatten(groups: seq<(string, seq<CandidatePhase1>)>): (r: seq<CandidatePhase1>)
    ensures forall c :: c in r <==> exists i :: 0 <= i < |groups| && c in groups[i].1
  {
    if groups == [] then []
    else
      var rest := Flatten(groups[1..]);
      assert forall i :: 0 < i < |groups| ==> groups[i] == groups[1..][i - 1];
      groups[0].1 + rest
  }

  /** The candidates quick-fill acts on are exactly the ones the filter shows. */
  lemma VisibleIsShown(candidates: seq<CandidatePhase1>, term: string, khoa: string, hideVoted: bool, m: RatingMap)
    ensures forall c :: c in Flatten(P1DisplayData(candidates, term, khoa, hideVoted, m)) <==>
      c in candidates && ShownP1(c, term, khoa, hideVoted, m)
  {
    var shown := Filter(candidates, (c: CandidatePhase1) => ShownP1(c, term, khoa, hideVoted, m));
    var ks := GroupKeys(shown);
    var groups := P1DisplayData(candidates, term, khoa, hideVoted, m);
    forall c | c in shown
      ensures exists i :: 0 <= i < |groups| && c in groups[i].1
    {
      assert OrOther(c.khoa) in ks;
      var i :| 0 <= i < |ks| && ks[i] == OrOther(c.khoa);
      assert c in groups[i].1;
    }
    forall c | c in Flatten(groups)
      ensures c in shown
    {
      var i :| 0 <= i < |groups| && c in groups[i].1;
      assert groups[i].1 == Filter(shown, (x: CandidatePhase1) => OrOther(x.khoa) == ks[i]);
    }
  }

  // ---------------------------------------------------------------------------
  // The page state
  // ---------------------------------------------------------------------------

  /** The voter page's state between events. */
  class Session {
    var user: Option<Voter>
    var step: Step
    var error: Option<LoginError>
    var p1Votes: RatingMap
    var p2Selected: seq<string>
    var view: P2View

    constructor ()
      ensures user == None && step == LoginStep && error == None
      ensures p1Votes == [] && p2Selected == [] && view == P2View(false, false)
    {
      user := None;
      step := LoginStep;
      error := None;
      p1Votes := [];
      p2Selected := [];
      view := P2View(false, false);
    }

    /**
     * `handleLogin` against the page's copy `db` of the document. A found
     * voter becomes the user and their earlier ballots are restored before
     * the routing, even when the routing ends in the "closed" error.
     */
    method Login(db: AppData, dataExists: bool, loginId: string)
      modifies this
      ensures view == old(view)
      ensures match LookUp(db.voters, dataExists, loginId)
        case NoData => error == Some(NoDataError) && Kept()
        case Ignored => error == None && Kept()
        case NotFound => error == Some(NotFoundError) && Kept()
        case Found(i) => Entered(db, i)
    {
      error := None;
      match LookUp(db.voters, dataExists, loginId)
      case NoData =>
        error := Some(NoDataError);
      case Ignored =>
      case NotFound =>
        error := Some(NotFoundError);
      case Found(i) =>
        Enter(db, i);
    }

    /**
     * The voter at `i` is the user, their earlier ballots are restored, and
     * the routing has either chosen the step or raised the "closed" error.
     */
    twostate predicate Entered(db: AppData, i: nat)
      reads this
    {
      && i < |db.voters|
      && user == Some(db.voters[i])
      && DistinctKeys(p1Votes)
      && (forall k :: Get(p1Votes, k) == LastLevel(EarlierP1(db.votesP1, db.voters[i].cccd), k))
      && p2Selected == RestoreP2(db.votesP2, db.voters[i].cccd)
      && match Route(db.voters[i], db.config.isPhase1Open, db.config.isPhase2Open)
         case None => error == Some(ClosedError) && step == old(step)
         case Some(s) => error == None && step == s
    }

    method Enter(db: AppData, i: nat)
      requires i < |db.voters| && error == None
      modifies this
      ensures Entered(db, i)
      ensures view == old(view)
    {
      var u := db.voters[i];
      user := Some(u);
      p1Votes := RestoreP1(db.votesP1, u.cccd);
      p2Selected := RestoreP2(db.votesP2, u.cccd);
      match Route(u, db.config.isPhase1Open, db.config.isPhase2Open)
      case None =>
        error := Some(ClosedError);
      case Some(s) =>
        step := s;
    }

    /** User, step and ballots as they were. */
    twostate predicate Kept()
      reads this
    {
      user == old(user) && step == old(step) && p1Votes == old(p1Votes) && p2Selected == old(p2Selected)
    }

    /** One rating button: `{...p1Votes, [id]: level}`. */
    method RateP1(id: string, level: VoteLevel1)
      modifies this
      ensures p1Votes == Put(old(p1Votes), id, level)
      ensures user == old(user) && step == old(step) && p2Selected == old(p2Selected) && view == old(view)
    {
      p1Votes := Put(p1Votes, id, level);
    }

    /** The quick-fill button over the visible cards, once confirmed. */
    method QuickFill(visible: seq<CandidatePhase1>) returns (filled: bool)
      requires DistinctKeys(p1Votes)
      modifies this
      ensures DistinctKeys(p1Votes)
      ensures filled <==> exists c :: c in visible && Unrated(old(p1Votes), c)
      ensures forall k ::
        Get(p1Votes, k) == if Get(old(p1Votes), k).None? && k in IdsP1(visible) then Some(HoanThanh) else Get(old(p1Votes), k)
      ensures user == old(user) && step == old(step) && p2Selected == old(p2Selected) && view == old(view)
    {
      p1Votes, filled := QuickVoteP1(p1Votes, visible);
    }

    /**
     * `executeSubmitP1`: the map's entries go to `castVoteP1` under the
     * user's id; on success the page moves to Phase 2 if it is open in the
     * store's fresh copy, otherwise to the done screen. Without a user it
     * does nothing.
     */
    method SubmitP1(store: Store, ballot: RatingMap, remoteOk: bool) returns (ok: bool)
      requires store != this as object
      modifies this, store
      ensures user.None? ==> !ok && unchanged(store) && step == old(step)
      ensures user.Some? ==> store.CastP1Applied(user.value.cccd, ballot, remoteOk, ok)
      ensures user.Some? ==> step == if !ok then old(step) else if store.mem.config.isPhase2Open then P2Step else DoneStep
      ensures user == old(user) && p1Votes == old(p1Votes) && p2Selected == old(p2Selected) && view == old(view)
    {
      if user.None? {
        return false;
      }
      ok := store.CastVoteP1(user.value.cccd, ballot, remoteOk);
      if ok {
        var freshDB := store.GetDB();
        step := if freshDB.config.isPhase2Open then P2Step else DoneStep;
      }
    }

    /** `executeSubmitP2`: the selection goes to `castVoteP2`; on success the page is done. */
    method SubmitP2(store: Store, remoteOk: bool) returns (ok: bool)
      requires store != this as object
      modifies this, store
      ensures user.None? ==> !ok && unchanged(store) && step == old(step)
      ensures user.Some? ==> store.CastP2Applied(user.value.cccd, p2Selected, remoteOk, ok)
      ensures user.Some? ==> step == if ok then DoneStep else old(step)
      ensures user == old(user) && p1Votes == old(p1Votes) && p2Selected == old(p2Selected) && view == old(view)
    {
      if user.None? {
        return false;
      }
      ok := store.CastVoteP2(user.value.cccd, p2Selected, remoteOk);
      if ok {
        step := DoneStep;
      }
    }

    /** A click on a Phase-2 card, against the configured cap. */
    method ClickCard(id: string, max: int) returns (capReached: bool)
      modifies this
      ensures var c := ClickP2(old(p2Selected), id, max); p2Selected == c.selected && capReached == c.capReached
      ensures user == old(user) && step == old(step) && p1Votes == old(p1Votes) && view == old(view)
    {
      var c := ClickP2(p2Selected, id, max);
      p2Selected := c.selected;
      capReached := c.capReached;
    }

    method ToggleViewSelected()
      modifies this
      ensures view == ClickViewSelected(old(view))
      ensures user == old(user) && step == old(step) && p1Votes == old(p1Votes) && p2Selected == old(p2Selected)
    {
      view := ClickViewSelected(view);
    }

    method ToggleHideSelected()
      modifies this
      ensures view == ClickHideSelected(old(view))
      ensures user == old(user) && step == old(step) && p1Votes == old(p1Votes) && p2Selected == old(p2Selected)
    {
      view := ClickHideSelected(view);
    }
  }
}
