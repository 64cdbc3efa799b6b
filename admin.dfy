/**
 * The administrator page's data operations (pages/Admin.tsx): the roster
 * re-import merge and the other imports, configuration updates, the Phase-1
 * tallies, the Phase-2 ranking and its percentage denominator, the roster
 * status filter and the per-voter ballot history.
 */
module AdminPage {
  import opened Wrappers
  import opened Text
  import opened Types
  import opened Seqs
  import opened Storage
  import Excel

  // ---------------------------------------------------------------------------
  // Roster re-import
  // ---------------------------------------------------------------------------

  /** `existing[j]` is the first roster entry whose normalised cccd is `key`. */
  predicate FirstMatch(existing: seq<Voter>, j: int, key: string) {
    0 <= j < |existing| && Normalize(existing[j].cccd) == key
    && forall k :: 0 <= k < j ==> Normalize(existing[k].cccd) != key
  }

  /**
   * One imported voter against the roster: a voter already on the roster
   * (same trimmed cccd, first match) keeps both voted flags, every other
   * field comes from the import.
   */
  function MergeOne(existing: seq<Voter>, nv: Voter): (r: Voter)
    ensures r.(hasVotedPhase1 := nv.hasVotedPhase1, hasVotedPhase2 := nv.hasVotedPhase2) == nv
    ensures forall j :: FirstMatch(existing, j, Normalize(nv.cccd)) ==>
      r.hasVotedPhase1 == existing[j].hasVotedPhase1 && r.hasVotedPhase2 == existing[j].hasVotedPhase2
    ensures (forall j :: 0 <= j < |existing| ==> Normalize(existing[j].cccd) != Normalize(nv.cccd)) ==> r == nv
  {
    match FindVoter(existing, Normalize(nv.cccd))
    case None => nv
    case Some(i) =>
      assert forall j :: FirstMatch(existing, j, Normalize(nv.cccd)) ==> j == i by {
        forall j | FirstMatch(existing, j, Normalize(nv.cccd))
          ensures j == i
        {
          assert !(j < i) && !(i < j);
        }
      }
      nv.(hasVotedPhase1 := existing[i].hasVotedPhase1, hasVotedPhase2 := existing[i].hasVotedPhase2)
  }

  /** The re-imported roster: the imported voters, in import order, each merged against the roster. */
  function MergeRoster(existing: seq<Voter>, imported: seq<Voter>): (r: seq<Voter>)
    ensures |r| == |imported|
    ensures forall i :: 0 <= i < |r| ==>
      r[i].(hasVotedPhase1 := imported[i].hasVotedPhase1, hasVotedPhase2 := imported[i].hasVotedPhase2) == imported[i]
    ensures forall i, j :: 0 <= i < |r| && FirstMatch(existing, j, Normalize(imported[i].cccd)) ==>
      r[i].hasVotedPhase1 == existing[j].hasVotedPhase1 && r[i].hasVotedPhase2 == existing[j].hasVotedPhase2
    ensures forall i ::
      (0 <= i < |r| && forall j :: 0 <= j < |existing| ==> Normalize(existing[j].cccd) != Normalize(imported[i].cccd))
      ==> r[i] == imported[i]
  {
    seq(|imported|, i requires 0 <= i < |imported| => MergeOne(existing, imported[i]))
  }

  /** Re-importing a roster the page itself exported keeps every voter and every flag. */
  lemma {:induction false} MergeRosterSameRoster(voters: seq<Voter>)
    requires forall i, j :: 0 <= i < j < |voters| ==> Normalize(voters[i].cccd) != Normalize(voters[j].cccd)
    ensures MergeRoster(voters, voters) == voters
  {
    var r := MergeRoster(voters, voters);
    forall i | 0 <= i < |voters|
      ensures r[i] == voters[i]
    {
      assert FindVoter(voters, Normalize(voters[i].cccd)) == Some(i);
    }
  }

  /** The voters upload (`handleFileUpload` with type 'voters'): merge, then save. */
  method ImportVoters(store: Store, imported: seq<Voter>, remoteOk: bool)
    modifies store
    ensures store.Persisted(old(store.mem).(voters := MergeRoster(old(store.mem).voters, imported)), remoteOk)
  {
    var db := store.GetDB();
    db := db.(voters := MergeRoster(db.voters, imported));
    var _ := store.SaveDB(db, remoteOk);
  }

  /** The Phase-1 candidates upload replaces the list wholesale. */
  method ImportCandidatesP1(store: Store, candidates: seq<CandidatePhase1>, remoteOk: bool)
    modifies store
    ensures store.Persisted(old(store.mem).(candidatesP1 := candidates), remoteOk)
  {
    var db := store.GetDB();
    db := db.(candidatesP1 := candidates);
    var _ := store.SaveDB(db, remoteOk);
  }

  /** The Phase-2 candidates upload replaces the list wholesale. */
  method ImportCandidatesP2(store: Store, candidates: seq<CandidatePhase2>, remoteOk: bool)
    modifies store
    ensures store.Persisted(old(store.mem).(candidatesP2 := candidates), remoteOk)
  {
    var db := store.GetDB();
    db := db.(candidatesP2 := candidates);
    var _ := store.SaveDB(db, remoteOk);
  }

  // ---------------------------------------------------------------------------
  // Configuration
  // ---------------------------------------------------------------------------

  /** One `updateConfig(key, value)` call: the key and its new value. */
  datatype ConfigUpdate =
    | SetMaxExcellentVotes(n: int)
    | SetPhase1Open(open: bool)
    | SetPhase2Open(open: bool)
    | SetP1Display(p1: P1Display)
    | SetP2Display(p2: P2Display)

  /** `{ ...config, [key]: value }`: the named field takes the value, the others stay. */
  function ApplyConfig(c: SystemConfig, u: ConfigUpdate): (r: SystemConfig)
    ensures r.maxExcellentVotes == if u.SetMaxExcellentVotes? then u.n else c.maxExcellentVotes
    ensures r.isPhase1Open == if u.SetPhase1Open? then u.open else c.isPhase1Open
    ensures r.isPhase2Open == if u.SetPhase2Open? then u.open else c.isPhase2Open
    ensures r.p1Display == if u.SetP1Display? then u.p1 else c.p1Display
    ensures r.p2Display == if u.SetP2Display? then u.p2 else c.p2Display
  {
    match u
    case SetMaxExcellentVotes(n) => c.(maxExcellentVotes := n)
    case SetPhase1Open(b) => c.(isPhase1Open := b)
    case SetPhase2Open(b) => c.(isPhase2Open := b)
    case SetP1Display(m) => c.(p1Display := m)
    case SetP2Display(m) => c.(p2Display := m)
  }

  /** The cap field's input: `parseInt(value) || 1`, so an unparsable or zero entry becomes 1. */
  function MaxVotesInput(parsed: Option<int>): (r: int)
    ensures r != 0
    ensures parsed.Some? && parsed.value != 0 ==> r == parsed.value
    ensures parsed.None? || parsed.value == 0 ==> r == 1
  {
    match parsed
    case Some(n) => if n != 0 then n else 1
    case None => 1
  }

  /** Updating one configuration key twice keeps only the second value. */
  lemma ApplyConfigLastWins(c: SystemConfig, u: ConfigUpdate, v: ConfigUpdate)
    requires u.SetMaxExcellentVotes? == v.SetMaxExcellentVotes? && u.SetPhase1Open? == v.SetPhase1Open?
    requires u.SetPhase2Open? == v.SetPhase2Open? && u.SetP1Display? == v.SetP1Display?
    ensures ApplyConfig(ApplyConfig(c, u), v) == ApplyConfig(c, v)
  {
  }

  method UpdateConfig(store: Store, u: ConfigUpdate, remoteOk: bool)
    modifies store
    ensures store.Persisted(old(store.mem).(config := ApplyConfig(old(store.mem).config, u)), remoteOk)
  {
    var db := store.GetDB();
    db := db.(config := ApplyConfig(db.config, u));
    var _ := store.SaveDB(db, remoteOk);
  }

  /** `p1Display[field] = value` on a copy, then save: one toggle changes, the rest stay. */
  method UpdateP1Display(store: Store, field: P1Field, value: bool, remoteOk: bool)
    modifies store
    ensures store.Persisted(old(store.mem).(config := old(store.mem).config.(
      p1Display := old(store.mem).config.p1Display[field := value])), remoteOk)
  {
    var db := store.GetDB();
    db := db.(config := db.config.(p1Display := db.config.p1Display[field := value]));
    var _ := store.SaveDB(db, remoteOk);
  }

  method UpdateP2Display(store: Store, field: P2Field, value: bool, remoteOk: bool)
    modifies store
    ensures store.Persisted(old(store.mem).(config := old(store.mem).config.(
      p2Display := old(store.mem).config.p2Display[field := value])), remoteOk)
  {
    var db := store.GetDB();
    db := db.(config := db.config.(p2Display := db.config.p2Display[field := value]));
    var _ := store.SaveDB(db, remoteOk);
  }

  // ---------------------------------------------------------------------------
  // Phase-1 tallies
  // ---------------------------------------------------------------------------

  datatype P1Stats = P1Stats(kht: nat, ht: nat, htt: nat, total: nat)

  /** The Phase-1 ballots for a candidate, matched by trimmed candidate id. */
  function BallotsForP1(votes: seq<VoteRecordPhase1>, candidateId: string): seq<VoteRecordPhase1> {
    Filter(votes, (v: VoteRecordPhase1) => Normalize(v.candidateCCCD) == Normalize(candidateId))
  }

  function CountLevel(votes: seq<VoteRecordPhase1>, level: VoteLevel1): nat {
    Count(votes, (v: VoteRecordPhase1) => v.level == level)
  }

  /** Every ballot carries exactly one of the three levels. */
  lemma {:induction false} LevelsPartition(votes: seq<VoteRecordPhase1>)
    ensures CountLevel(votes, KhongHoanThanh) + CountLevel(votes, HoanThanh) + CountLevel(votes, HoanThanhTot) == |votes|
  {
    if votes != [] {
      LevelsPartition(votes[1..]);
      CountLevelCons(votes, KhongHoanThanh);
      CountLevelCons(votes, HoanThanh);
      CountLevelCons(votes, HoanThanhTot);
    }
  }

  lemma CountLevelCons(votes: seq<VoteRecordPhase1>, level: VoteLevel1)
    requires votes != []
    ensures CountLevel(votes, level) == (if votes[0].level == level then 1 else 0) + CountLevel(votes[1..], level)
  {
    FilterCons(votes, (v: VoteRecordPhase1) => v.level == level);
  }

  /**
   * `getP1Stats`: the three level counts add up to the total, and the total
   * counts the ballots whose trimmed candidate id is the trimmed `candidateId`.
   */
  function GetP1Stats(votes: seq<VoteRecordPhase1>, candidateId: string): (r: P1Stats)
    ensures r.kht + r.ht + r.htt == r.total
    ensures r.total == |BallotsForP1(votes, candidateId)|
    ensures r.total <= |votes|
    ensures r.kht == CountLevel(BallotsForP1(votes, candidateId), KhongHoanThanh)
    ensures r.htt == CountLevel(BallotsForP1(votes, candidateId), HoanThanhTot)
  {
    var mine := BallotsForP1(votes, candidateId);
    LevelsPartition(mine);
    P1Stats(CountLevel(mine, KhongHoanThanh), CountLevel(mine, HoanThanh), CountLevel(mine, HoanThanhTot), |mine|)
  }

  /** The percentage denominator of the Phase-1 tables: `total || 1`. */
  function P1Denominator(s: P1Stats): (r: nat)
    ensures r >= 1
    ensures s.total > 0 ==> r == s.total
  {
    if s.total == 0 then 1 else s.total
  }

  // ---------------------------------------------------------------------------
  // Phase-2 ranking
  // ---------------------------------------------------------------------------

  /** A Phase-2 candidate with its vote count. */
  datatype Ranked = Ranked(candidate: CandidatePhase2, votes: nat)

  /** The Phase-2 ballots naming the candidate, matched by trimmed id. */
  function VotesFor(votesP2: seq<VoteRecordPhase2>, cccd: string): nat {
    Count(votesP2, (v: VoteRecordPhase2) => Normalize(v.candidateCCCD) == Normalize(cccd))
  }

  /** The candidates with their counts, in list order. */
  function Tally(candidates: seq<CandidatePhase2>, votesP2: seq<VoteRecordPhase2>): (r: seq<Ranked>)
    ensures |r| == |candidates|
    ensures forall i :: 0 <= i < |r| ==> r[i].candidate == candidates[i]
    ensures forall i :: 0 <= i < |r| ==> r[i].votes == VotesFor(votesP2, candidates[i].base.person.cccd)
  {
    seq(|candidates|, i requires 0 <= i < |candidates| =>
      Ranked(candidates[i], VotesFor(votesP2, candidates[i].base.person.cccd)))
  }

  predicate RankedDesc(s: seq<Ranked>) {
    forall i, j :: 0 <= i < j < |s| ==> s[i].votes >= s[j].votes
  }

  /** Insert `x` before the first entry with no more votes than it. */
  function InsertDesc(x: Ranked, s: seq<Ranked>): (r: seq<Ranked>)
    ensures multiset(r) == multiset(s) + multiset{x}
    ensures |r| == |s| + 1
  {
    if s == [] || s[0].votes <= x.votes then [x] + s
    else
      assert s == [s[0]] + s[1..];
      [s[0]] + InsertDesc(x, s[1..])
  }

  lemma {:induction false} InsertDescSorted(x: Ranked, s: seq<Ranked>)
    requires RankedDesc(s)
    ensures RankedDesc(InsertDesc(x, s))
    ensures InsertDesc(x, s)[0] == x || InsertDesc(x, s)[0] == s[0]
  {
    if s != [] && s[0].votes > x.votes {
      assert RankedDesc(s[1..]) by {
        forall i, j | 0 <= i < j < |s[1..]|
          ensures s[1..][i].votes >= s[1..][j].votes
        {
          assert s[1..][i] == s[i + 1] && s[1..][j] == s[j + 1];
        }
      }
      InsertDescSorted(x, s[1..]);
      var rest := InsertDesc(x, s[1..]);
      assert s[0].votes >= rest[0].votes;
      assert InsertDesc(x, s) == [s[0]] + rest;
    }
  }

  /**
   * The comparator sort `(a, b) => b.votes - a.votes` of a stable sort: the
   * result is a permutation of the input, ordered by non-increasing votes.
   */
  function SortByVotes(s: seq<Ranked>): (r: seq<Ranked>)
    ensures multiset(r) == multiset(s)
    ensures |r| == |s|
    ensures RankedDesc(r)
  {
    if s == [] then []
    else
      assert s == [s[0]] + s[1..];
      var rest := SortByVotes(s[1..]);
      InsertDescSorted(s[0], rest);
      InsertDesc(s[0], rest)
  }

  function WithVotes(k: nat): Ranked -> bool {
    (x: Ranked) => x.votes == k
  }

  lemma {:induction false} InsertStable(x: Ranked, s: seq<Ranked>, k: nat)
    requires RankedDesc(s)
    ensures Filter(InsertDesc(x, s), WithVotes(k)) ==
      if x.votes == k then [x] + Filter(s, WithVotes(k)) else Filter(s, WithVotes(k))
  {
    if s == [] || s[0].votes <= x.votes {
      InsertStableHere(x, s, k);
    } else {
      InsertStable(x, s[1..], k);
      FilterCons(InsertDesc(x, s), WithVotes(k));
      FilterCons(s, WithVotes(k));
    }
  }

  /** The insertion point case: `x` lands in front, and no entry before it shares its count. */
  lemma InsertStableHere(x: Ranked, s: seq<Ranked>, k: nat)
    requires RankedDesc(s)
    requires s == [] || s[0].votes <= x.votes
    ensures Filter(InsertDesc(x, s), WithVotes(k)) ==
      if x.votes == k then [x] + Filter(s, WithVotes(k)) else Filter(s, WithVotes(k))
  {
    FilterCons([x] + s, WithVotes(k));
    assert ([x] + s)[1..] == s;
  }

  /** Stability: candidates with equal counts keep their list order. */
  lemma {:induction false} SortStable(s: seq<Ranked>, k: nat)
    ensures Filter(SortByVotes(s), WithVotes(k)) == Filter(s, WithVotes(k))
  {
    if s != [] {
      var t := SortByVotes(s[1..]);
      assert SortByVotes(s) == InsertDesc(s[0], t);
      SortStable(s[1..], k);
      InsertStable(s[0], t, k);
      FilterCons(s, WithVotes(k));
    }
  }

  /** The Phase-2 results table: every candidate with its count, best first. */
  function RankP2(candidates: seq<CandidatePhase2>, votesP2: seq<VoteRecordPhase2>): (r: seq<Ranked>)
    ensures |r| == |candidates|
    ensures RankedDesc(r)
    ensures multiset(r) == multiset(Tally(candidates, votesP2))
  {
    SortByVotes(Tally(candidates, votesP2))
  }

  /**
   * Every listed candidate appears in the ranking and nothing else does, each
   * with the number of ballots naming it.
   */
  lemma RankP2Candidates(candidates: seq<CandidatePhase2>, votesP2: seq<VoteRecordPhase2>)
    ensures forall c :: c in candidates <==> exists x :: x in RankP2(candidates, votesP2) && x.candidate == c
    ensures forall x :: x in RankP2(candidates, votesP2) ==> x.votes == VotesFor(votesP2, x.candidate.base.person.cccd)
  {
    var t := Tally(candidates, votesP2);
    var r := RankP2(candidates, votesP2);
    forall c | c in candidates
      ensures exists x :: x in r && x.candidate == c
    {
      var i :| 0 <= i < |candidates| && candidates[i] == c;
      assert t[i] in multiset(r);
    }
    forall x | x in r
      ensures x.candidate in candidates && x.votes == VotesFor(votesP2, x.candidate.base.person.cccd)
    {
      assert x in multiset(t);
      var i :| 0 <= i < |t| && t[i] == x;
    }
  }

  /**
   * The search box over the ranking: the untrimmed, lowercased name contains
   * the lowercased term. Every name is a string here; a candidate read
   * without a name has the empty name (see `Excel.PersonOf`).
   */
  function SearchRanking(r: seq<Ranked>, term: string): (s: seq<Ranked>)
    ensures SubsequenceOf(s, r)
    ensures forall x :: x in s <==> x in r && Contains(Lower(x.candidate.base.person.hoTen), Lower(term))
  {
    Filter(r, (x: Ranked) => Contains(Lower(x.candidate.base.person.hoTen), Lower(term)))
  }

  /**
   * The same search as written, over the raw `hoTen` values the readers leave
   * on the candidates (`names[i]` belongs to `r[i]`). Only a string has
   * `toLowerCase`: one `undefined` or numeric name makes the filter throw,
   * which is `None`.
   */
  function SearchRankingAsWritten(r: seq<Ranked>, names: seq<Cell>, term: string): (s: Option<seq<Ranked>>)
    requires |names| == |r|
    ensures s.Some? <==> forall i :: 0 <= i < |names| ==> names[i].Text?
  {
    if r == [] then Some([])
    else
      assert forall i :: 1 <= i < |names| ==> names[i] == names[1..][i - 1];
      match (names[0], SearchRankingAsWritten(r[1..], names[1..], term))
      case (Text(n), Some(rest)) => Some(if Contains(Lower(n), Lower(term)) then [r[0]] + rest else rest)
      case _ => None
  }

  /** The names of the ranked candidates, as the string values they are in the model. */
  function NamesOf(r: seq<Ranked>): (names: seq<Cell>)
    ensures |names| == |r|
    ensures forall i :: 0 <= i < |r| ==> names[i] == Text(r[i].candidate.base.person.hoTen)
  {
    seq(|r|, i requires 0 <= i < |r| => Text(r[i].candidate.base.person.hoTen))
  }

  /** When every raw name is the candidate's own string name, the search as written is `SearchRanking`. */
  lemma {:induction false} SearchRankingAsWrittenAgrees(r: seq<Ranked>, term: string)
    ensures SearchRankingAsWritten(r, NamesOf(r), term) == Some(SearchRanking(r, term))
  {
    if r != [] {
      assert NamesOf(r)[1..] == NamesOf(r[1..]);
      SearchRankingAsWrittenAgrees(r[1..], term);
      FilterCons(r, (x: Ranked) => Contains(Lower(x.candidate.base.person.hoTen), Lower(term)));
    }
  }

  /**
   * A Phase-2 row with a cccd and no name cell is kept by the reader, and
   * the search as written then throws, whatever the term.
   */
  lemma NamelessCandidateBreaksSearch(term: string)
    ensures var m: Excel.Mapped := map[Excel.CccdField := Text("001")];
      && Excel.CandidateP2OfMapped(m).Some?
      && Excel.Field(m, Excel.HoTenField) == Blank
      && SearchRankingAsWritten([Ranked(Excel.CandidateP2OfMapped(m).value, 0)], [Excel.Field(m, Excel.HoTenField)], term).None?
  {
    var m: Excel.Mapped := map[Excel.CccdField := Text("001")];
    assert Excel.Truthy(Excel.Field(m, Excel.CccdField));
  }

  /**
   * In the model the same candidate has the empty name, so it is listed
   * exactly when the search box is empty.
   */
  lemma NamelessCandidateListed(term: string)
    ensures var m: Excel.Mapped := map[Excel.CccdField := Text("001")];
      && Excel.CandidateP2OfMapped(m).Some?
      && var x := Ranked(Excel.CandidateP2OfMapped(m).value, 0);
         SearchRanking([x], term) == if term == "" then [x] else []
  {
    var m: Excel.Mapped := map[Excel.CccdField := Text("001")];
    assert Excel.Truthy(Excel.Field(m, Excel.CccdField));
    var x := Ranked(Excel.CandidateP2OfMapped(m).value, 0);
    assert x.candidate.base.person.hoTen == "";
    FilterCons([x], (y: Ranked) => Contains(Lower(y.candidate.base.person.hoTen), Lower(term)));
    if term == "" {
      assert OccursAt("", Lower(term), 0);
    }
  }

  /** The Phase-1 tab's search: the lowercased name or student id contains the lowercased term, in list order. */
  function SearchCandidatesP1(candidates: seq<CandidatePhase1>, term: string): (s: seq<CandidatePhase1>)
    ensures SubsequenceOf(s, candidates)
    ensures forall c :: c in s <==>
      c in candidates && (Contains(Lower(c.person.hoTen), Lower(term)) || Contains(Lower(c.person.mssv), Lower(term)))
  {
    Filter(candidates, (c: CandidatePhase1) =>
      Contains(Lower(c.person.hoTen), Lower(term)) || Contains(Lower(c.person.mssv), Lower(term)))
  }

  /**
   * The Phase-2 percentage denominator: the number of voters who have voted
   * Phase 2, or 1 when nobody has.
   */
  function P2Denominator(voters: seq<Voter>): (r: nat)
    ensures r >= 1
    ensures r <= |voters| || (r == 1 && voters == [])
    ensures Count(voters, VotedP2) > 0 ==> r == Count(voters, VotedP2)
    ensures (forall v :: v in voters ==> !VotedP2(v)) ==> r == 1
  {
    var n := Count(voters, VotedP2);
    if n == 0 then 1 else n
  }

  // ---------------------------------------------------------------------------
  // Roster status filter
  // ---------------------------------------------------------------------------

  datatype VoterFilter = FilterAllVoters | P1DoneFilter | P1NotFilter | P2DoneFilter | P2NotFilter

  /** The search: name or student id lowercased, or the raw cccd, contains the term. */
  predicate MatchesSearch(v: Voter, term: string) {
    Contains(Lower(v.hoTen), Lower(term)) || Contains(Lower(v.mssv), Lower(term)) || Contains(v.cccd, term)
  }

  predicate PassesStatus(v: Voter, f: VoterFilter) {
    match f
    case FilterAllVoters => true
    case P1DoneFilter => VotedP1(v)
    case P1NotFilter => !VotedP1(v)
    case P2DoneFilter => VotedP2(v)
    case P2NotFilter => !VotedP2(v)
  }

  /** The roster table in the system tab. */
  function FilterVoters(voters: seq<Voter>, term: string, f: VoterFilter): (r: seq<Voter>)
    ensures SubsequenceOf(r, voters)
    ensures forall v :: v in r <==> v in voters && MatchesSearch(v, term) && PassesStatus(v, f)
  {
    Filter(voters, (v: Voter) => MatchesSearch(v, term) && PassesStatus(v, f))
  }

  /** With an empty search and no status filter the whole roster is listed. */
  lemma FilterVotersEmptySearch(voters: seq<Voter>)
    ensures FilterVoters(voters, "", FilterAllVoters) == voters
  {
    forall v | v in voters
      ensures MatchesSearch(v, "")
    {
      ContainsEmpty(v.cccd);
    }
    FilterAll(voters, (v: Voter) => MatchesSearch(v, "") && PassesStatus(v, FilterAllVoters));
  }

  /** For one search, the "voted" and "not voted" views of a phase split the unfiltered view. */
  lemma FilterVotersSplit(voters: seq<Voter>, term: string)
    ensures |FilterVoters(voters, term, P1DoneFilter)| + |FilterVoters(voters, term, P1NotFilter)|
         == |FilterVoters(voters, term, FilterAllVoters)|
    ensures |FilterVoters(voters, term, P2DoneFilter)| + |FilterVoters(voters, term, P2NotFilter)|
         == |FilterVoters(voters, term, FilterAllVoters)|
  {
    FilterVotersComplement(voters, term, P1DoneFilter, P1NotFilter);
    FilterVotersComplement(voters, term, P2DoneFilter, P2NotFilter);
  }

  /** Two complementary status filters split the unfiltered view. */
  lemma {:induction false} FilterVotersComplement(voters: seq<Voter>, term: string, yes: VoterFilter, no: VoterFilter)
    requires forall v :: PassesStatus(v, no) == !PassesStatus(v, yes)
    ensures |FilterVoters(voters, term, yes)| + |FilterVoters(voters, term, no)|
         == |FilterVoters(voters, term, FilterAllVoters)|
  {
    if voters != [] {
      var v := voters[0];
      FilterVotersComplement(voters[1..], term, yes, no);
      FilterVotersStep(voters, term, FilterAllVoters);
      FilterVotersStep(voters, term, yes);
      FilterVotersStep(voters, term, no);
      assert PassesStatus(v, no) == !PassesStatus(v, yes);
    }
  }

  lemma FilterVotersStep(voters: seq<Voter>, term: string, f: VoterFilter)
    requires voters != []
    ensures |FilterVoters(voters, term, f)| ==
      (if MatchesSearch(voters[0], term) && PassesStatus(voters[0], f) then 1 else 0) + |FilterVoters(voters[1..], term, f)|
  {
    FilterCons(voters, (v: Voter) => MatchesSearch(v, term) && PassesStatus(v, f));
  }

  // ---------------------------------------------------------------------------
  // Ballot history of one voter
  // ---------------------------------------------------------------------------

  datatype HistoryP1 = HistoryP1(name: string, level: VoteLevel1)

  /** `candidates[i]` is the first candidate whose cccd is exactly `id`. */
  predicate FirstCandidateP1(candidates: seq<CandidatePhase1>, i: int, id: string) {
    0 <= i < |candidates| && candidates[i].person.cccd == id
    && forall j :: 0 <= j < i ==> candidates[j].person.cccd != id
  }

  predicate FirstCandidateP2(candidates: seq<CandidatePhase2>, i: int, id: string) {
    0 <= i < |candidates| && candidates[i].base.person.cccd == id
    && forall j :: 0 <= j < i ==> candidates[j].base.person.cccd != id
  }

  /**
   * `list.find(c => c.cccd === id)?.hoTen || id`: the name of the first
   * candidate with exactly this id when that name is non-empty, the raw id
   * otherwise.
   */
  function CandidateNameP1(candidates: seq<CandidatePhase1>, id: string): (r: string)
    ensures forall i :: FirstCandidateP1(candidates, i, id) ==>
      r == if candidates[i].person.hoTen != "" then candidates[i].person.hoTen else id
    ensures (forall c :: c in candidates ==> c.person.cccd != id) ==> r == id
  {
    if candidates == [] then id
    else if candidates[0].person.cccd == id then (if candidates[0].person.hoTen != "" then candidates[0].person.hoTen else id)
    else
      assert forall i :: FirstCandidateP1(candidates, i, id) ==> FirstCandidateP1(candidates[1..], i - 1, id);
      CandidateNameP1(candidates[1..], id)
  }

  function CandidateNameP2(candidates: seq<CandidatePhase2>, id: string): (r: string)
    ensures forall i :: FirstCandidateP2(candidates, i, id) ==>
      r == if candidates[i].base.person.hoTen != "" then candidates[i].base.person.hoTen else id
    ensures (forall c :: c in candidates ==> c.base.person.cccd != id) ==> r == id
  {
    if candidates == [] then id
    else if candidates[0].base.person.cccd == id then (if candidates[0].base.person.hoTen != "" then candidates[0].base.person.hoTen else id)
    else
      assert forall i :: FirstCandidateP2(candidates, i, id) ==> FirstCandidateP2(candidates[1..], i - 1, id);
      CandidateNameP2(candidates[1..], id)
  }

  /**
   * `getVoterHistory`: the voter's ballots, matched by the exact (untrimmed)
   * cccd, in stored order, each shown by candidate name and, in Phase 1, level.
   */
  function VoterHistoryP1(d: AppData, voter: Voter): (r: seq<HistoryP1>)
    ensures var mine := Filter(d.votesP1, (v: VoteRecordPhase1) => v.voterCCCD == voter.cccd);
      && |r| == |mine|
      && (forall i :: 0 <= i < |r| ==> r[i].level == mine[i].level)
      && (forall i :: 0 <= i < |r| ==> r[i].name == CandidateNameP1(d.candidatesP1, mine[i].candidateCCCD))
  {
    var mine := Filter(d.votesP1, (v: VoteRecordPhase1) => v.voterCCCD == voter.cccd);
    seq(|mine|, i requires 0 <= i < |mine| => HistoryP1(CandidateNameP1(d.candidatesP1, mine[i].candidateCCCD), mine[i].level))
  }

  function VoterHistoryP2(d: AppData, voter: Voter): (r: seq<string>)
    ensures var mine := Filter(d.votesP2, (v: VoteRecordPhase2) => v.voterCCCD == voter.cccd);
      && |r| == |mine|
      && forall i :: 0 <= i < |r| ==> r[i] == CandidateNameP2(d.candidatesP2, mine[i].candidateCCCD)
  {
    var mine := Filter(d.votesP2, (v: VoteRecordPhase2) => v.voterCCCD == voter.cccd);
    seq(|mine|, i requires 0 <= i < |mine| => CandidateNameP2(d.candidatesP2, mine[i].candidateCCCD))
  }
}
