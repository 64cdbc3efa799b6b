/**
 * The election store (services/storage.ts): one in-memory document, persisted
 * either to a remote replicated document (when the cloud backend is configured)
 * or to browser-local storage, plus the vote-casting protocol, the resets and
 * the load-time merges that fill missing fields from the defaults.
 */
module Storage {
  import opened Wrappers
  import opened Text
  import opened Types

  // ---------------------------------------------------------------------------
  // Defaults
  // ---------------------------------------------------------------------------

  const DefaultP1Display: P1Display := map[
    P1ShowCCCD := false, P1ShowMSSV := true, P1ShowNgayVaoDang := false,
    P1ShowLoaiDangVien := true, P1ShowNhom := true, P1ShowKhoa := true,
    P1ShowChucVu := true, P1ShowDiemHT := true, P1ShowDiemRL := true,
    P1ShowThanhTich := false, P1ShowTuDanhGia := true]

  const DefaultP2Display: P2Display := map[
    P2ShowCCCD := false, P2ShowMSSV := true, P2ShowNgayVaoDang := false,
    P2ShowLoaiDangVien := false, P2ShowNhom := true, P2ShowKhoa := true,
    P2ShowChucVu := true, P2ShowDiemHT := true, P2ShowDiemRL := true,
    P2ShowThanhTich := false, P2ShowChiBoDeXuat := true]

  const InitialConfig: SystemConfig := SystemConfig(5, true, true, DefaultP1Display, DefaultP2Display)

  /** `INITIAL_DATA`: every collection empty, the default configuration. */
  const InitialData: AppData := AppData([], [], [], [], [], InitialConfig)

  /** Every display toggle has a value. */
  ghost predicate P1Complete(d: P1Display) { forall f: P1Field :: f in d }
  ghost predicate P2Complete(d: P2Display) { forall f: P2Field :: f in d }

  /** The default display maps give every toggle a value. */
  lemma DefaultsComplete()
    ensures P1Complete(DefaultP1Display) && P2Complete(DefaultP2Display)
  {
    forall f: P1Field ensures f in DefaultP1Display {
      match f
        case P1ShowCCCD =>
        case P1ShowMSSV =>
        case P1ShowNgayVaoDang =>
        case P1ShowLoaiDangVien =>
        case P1ShowNhom =>
        case P1ShowKhoa =>
        case P1ShowChucVu =>
        case P1ShowDiemHT =>
        case P1ShowDiemRL =>
        case P1ShowThanhTich =>
        case P1ShowTuDanhGia =>
    }
    forall f: P2Field ensures f in DefaultP2Display {
      match f
        case P2ShowCCCD =>
        case P2ShowMSSV =>
        case P2ShowNgayVaoDang =>
        case P2ShowLoaiDangVien =>
        case P2ShowNhom =>
        case P2ShowKhoa =>
        case P2ShowChucVu =>
        case P2ShowDiemHT =>
        case P2ShowDiemRL =>
        case P2ShowThanhTich =>
        case P2ShowChiBoDeXuat =>
    }
  }

  // ---------------------------------------------------------------------------
  // Identifiers
  // ---------------------------------------------------------------------------

  /**
   * `normalize`: the string form of an id with surrounding white space removed.
   * Ids are strings in this model, so `String(val || '')` is the identity.
   */
  function Normalize(s: string): (r: string)
    ensures IsTrimmed(r)
    ensures IsTrimmed(s) ==> r == s
  {
    TrimIsTrimmed(s);
    if IsTrimmed(s) then TrimmedFixed(s); Trim(s) else Trim(s)
  }

  /**
   * What `normalize` removes is white space at the two ends and nothing else:
   * the id is its normalised form wrapped in white space.
   */
  lemma NormalizeStrips(s: string)
    ensures exists a, b :: AllSpace(a) && AllSpace(b) && s == a + Normalize(s) + b
  {
    TrimStrips(s);
  }

  // ---------------------------------------------------------------------------
  // The persisted shapes
  // ---------------------------------------------------------------------------

  /**
   * The remote document as the backend hands it over: any top-level field, any
   * configuration field may be missing (an empty array is not stored remotely,
   * and older versions of the application wrote fewer configuration fields).
   */
  datatype StoredConfig = StoredConfig(
    maxExcellentVotes: Option<int>,
    isPhase1Open: Option<bool>,
    isPhase2Open: Option<bool>,
    p1Display: Option<P1Display>,
    p2Display: Option<P2Display>)

  datatype StoredDoc = StoredDoc(
    voters: Option<seq<Voter>>,
    candidatesP1: Option<seq<CandidatePhase1>>,
    candidatesP2: Option<seq<CandidatePhase2>>,
    votesP1: Option<seq<VoteRecordPhase1>>,
    votesP2: Option<seq<VoteRecordPhase2>>,
    config: Option<StoredConfig>)

  /**
   * The locally persisted document: the JSON of a document this application
   * saved, in which a top-level field may be missing (written by an older
   * version); its configuration, when present, is taken whole.
   */
  datatype LocalDoc = LocalDoc(
    voters: Option<seq<Voter>>,
    candidatesP1: Option<seq<CandidatePhase1>>,
    candidatesP2: Option<seq<CandidatePhase2>>,
    votesP1: Option<seq<VoteRecordPhase1>>,
    votesP2: Option<seq<VoteRecordPhase2>>,
    config: Option<SystemConfig>)

  /** What `set` writes remotely for a document. */
  function ToStored(d: AppData): StoredDoc {
    var c := d.config;
    StoredDoc(Some(d.voters), Some(d.candidatesP1), Some(d.candidatesP2), Some(d.votesP1), Some(d.votesP2),
      Some(StoredConfig(Some(c.maxExcellentVotes), Some(c.isPhase1Open), Some(c.isPhase2Open),
        Some(c.p1Display), Some(c.p2Display))))
  }

  /** What `localStorage.setItem` keeps for a document. */
  function ToLocal(d: AppData): LocalDoc {
    LocalDoc(Some(d.voters), Some(d.candidatesP1), Some(d.candidatesP2), Some(d.votesP1), Some(d.votesP2), Some(d.config))
  }

  /**
   * The merge applied to every non-null remote emission: the defaults spread
   * under the stored document, the default configuration under the stored one,
   * and each default display map under the stored display map; `voters`,
   * `votesP1` and `votesP2` fall back to empty arrays.
   */
  function CloudMerge(val: StoredDoc): (r: AppData)
    ensures P1Complete(r.config.p1Display) && P2Complete(r.config.p2Display)
    ensures val.config.Some? && val.config.value.p1Display.Some? ==>
      var stored := val.config.value.p1Display.value;
      forall f :: f in stored ==> r.config.p1Display[f] == stored[f]
    ensures val.config.Some? && val.config.value.p2Display.Some? ==>
      var stored := val.config.value.p2Display.value;
      forall f :: f in stored ==> r.config.p2Display[f] == stored[f]
  {
    var c := val.config.GetOr(StoredConfig(None, None, None, None, None));
    var config := SystemConfig(
      c.maxExcellentVotes.GetOr(InitialConfig.maxExcellentVotes),
      c.isPhase1Open.GetOr(InitialConfig.isPhase1Open),
      c.isPhase2Open.GetOr(InitialConfig.isPhase2Open),
      DefaultP1Display + c.p1Display.GetOr(map[]),
      DefaultP2Display + c.p2Display.GetOr(map[]));
    DefaultsComplete();
    AppData(
      val.voters.GetOr(InitialData.voters),
      val.candidatesP1.GetOr(InitialData.candidatesP1),
      val.candidatesP2.GetOr(InitialData.candidatesP2),
      val.votesP1.GetOr(InitialData.votesP1),
      val.votesP2.GetOr(InitialData.votesP2),
      config)
  }

  /**
   * `loadFromLocal`: the defaults spread under the parsed document, top level
   * only; a stored configuration is kept as it is.
   */
  function LocalMerge(parsed: LocalDoc): AppData {
    AppData(
      parsed.voters.GetOr(InitialData.voters),
      parsed.candidatesP1.GetOr(InitialData.candidatesP1),
      parsed.candidatesP2.GetOr(InitialData.candidatesP2),
      parsed.votesP1.GetOr(InitialData.votesP1),
      parsed.votesP2.GetOr(InitialData.votesP2),
      parsed.config.GetOr(InitialData.config))
  }

  /** The document the local backend starts from: the merge of what is stored, or the defaults. */
  function LoadFromLocal(stored: Option<LocalDoc>): AppData {
    match stored
    case None => InitialData
    case Some(parsed) => LocalMerge(parsed)
  }

  // ---------------------------------------------------------------------------
  // Casting ballots
  // ---------------------------------------------------------------------------

  /** One entry of the Phase-1 array handed to `castVoteP1`. */
  datatype BallotInputP1 = BallotInputP1(candidateCCCD: string, level: VoteLevel1)

  /** `findIndex`: the first voter whose normalised cccd is `id`. */
  function FindVoter(voters: seq<Voter>, id: string): (r: Option<nat>)
    ensures r.Some? ==> r.value < |voters| && Normalize(voters[r.value].cccd) == id
    ensures r.Some? ==> forall j :: 0 <= j < r.value ==> Normalize(voters[j].cccd) != id
    ensures r.None? <==> forall j :: 0 <= j < |voters| ==> Normalize(voters[j].cccd) != id
  {
    FindVoterFrom(voters, id, 0)
  }

  /** The scan behind `findIndex`, from position `from` on. */
  function FindVoterFrom(voters: seq<Voter>, id: string, from: nat): (r: Option<nat>)
    requires from <= |voters|
    ensures r.Some? ==> from <= r.value < |voters| && Normalize(voters[r.value].cccd) == id
    ensures r.Some? ==> forall j :: from <= j < r.value ==> Normalize(voters[j].cccd) != id
    ensures r.None? <==> forall j :: from <= j < |voters| ==> Normalize(voters[j].cccd) != id
    decreases |voters| - from
  {
    if from == |voters| then None
    else if Normalize(voters[from].cccd) == id then Some(from)
    else FindVoterFrom(voters, id, from + 1)
  }

  /** The voters with the Phase-1 flag of the first voter whose normalised cccd is `id` set. */
  function MarkVotedP1(voters: seq<Voter>, id: string): seq<Voter> {
    match FindVoter(voters, id)
    case None => voters
    case Some(i) => voters[i := voters[i].(hasVotedPhase1 := Some(true))]
  }

  function MarkVotedP2(voters: seq<Voter>, id: string): seq<Voter> {
    match FindVoter(voters, id)
    case None => voters
    case Some(i) => voters[i := voters[i].(hasVotedPhase2 := Some(true))]
  }

  /** The `filter` that drops every ballot whose normalised voter id is `id`. */
  function WithoutVoterP1(votes: seq<VoteRecordPhase1>, id: string): seq<VoteRecordPhase1> {
    if votes == [] then []
    else (if Normalize(votes[0].voterCCCD) != id then [votes[0]] else []) + WithoutVoterP1(votes[1..], id)
  }

  function WithoutVoterP2(votes: seq<VoteRecordPhase2>, id: string): seq<VoteRecordPhase2> {
    if votes == [] then []
    else (if Normalize(votes[0].voterCCCD) != id then [votes[0]] else []) + WithoutVoterP2(votes[1..], id)
  }

  /** The ballots the `forEach` appends: voter id `id`, candidate ids normalised, in input order. */
  function BallotsP1(id: string, votes: seq<BallotInputP1>): (r: seq<VoteRecordPhase1>)
    ensures |r| == |votes|
    ensures forall k :: 0 <= k < |votes| ==>
      r[k] == VoteRecordPhase1(id, Normalize(votes[k].candidateCCCD), votes[k].level)
  {
    seq(|votes|, k requires 0 <= k < |votes| =>
      VoteRecordPhase1(id, Normalize(votes[k].candidateCCCD), votes[k].level))
  }

  /** Appending one input appends its ballot: the step of the `forEach`. */
  lemma BallotsP1Snoc(id: string, votes: seq<BallotInputP1>, k: nat)
    requires k < |votes|
    ensures BallotsP1(id, votes[..k + 1])
         == BallotsP1(id, votes[..k]) + [VoteRecordPhase1(id, Normalize(votes[k].candidateCCCD), votes[k].level)]
  {
    var a := BallotsP1(id, votes[..k + 1]);
    var b := BallotsP1(id, votes[..k]) + [VoteRecordPhase1(id, Normalize(votes[k].candidateCCCD), votes[k].level)];
    assert |a| == |b|;
    forall j | 0 <= j < |a| ensures a[j] == b[j] {
      assert votes[..k + 1][j] == votes[j];
    }
  }

  lemma BallotsP2Snoc(id: string, selected: seq<string>, k: nat)
    requires k < |selected|
    ensures BallotsP2(id, selected[..k + 1]) == BallotsP2(id, selected[..k]) + [VoteRecordPhase2(id, Normalize(selected[k]))]
  {
    var a := BallotsP2(id, selected[..k + 1]);
    var b := BallotsP2(id, selected[..k]) + [VoteRecordPhase2(id, Normalize(selected[k]))];
    assert |a| == |b|;
    forall j | 0 <= j < |a| ensures a[j] == b[j] {
      assert selected[..k + 1][j] == selected[j];
    }
  }

  function BallotsP2(id: string, selected: seq<string>): (r: seq<VoteRecordPhase2>)
    ensures |r| == |selected|
    ensures forall k :: 0 <= k < |selected| ==> r[k] == VoteRecordPhase2(id, Normalize(selected[k]))
  {
    seq(|selected|, k requires 0 <= k < |selected| => VoteRecordPhase2(id, Normalize(selected[k])))
  }

  /**
   * The local path of `castVoteP1` on document `d`: `None` (the call returns
   * false and saves nothing) when no voter's normalised cccd matches; otherwise
   * the document it saves.
   */
  function CastP1(d: AppData, voterCCCD: string, votes: seq<BallotInputP1>): Option<AppData> {
    var id := Normalize(voterCCCD);
    if FindVoter(d.voters, id).None? then None
    else Some(d.(voters := MarkVotedP1(d.voters, id),
                 votesP1 := WithoutVoterP1(d.votesP1, id) + BallotsP1(id, votes)))
  }

  function CastP2(d: AppData, voterCCCD: string, selected: seq<string>): Option<AppData> {
    var id := Normalize(voterCCCD);
    if FindVoter(d.voters, id).None? then None
    else Some(d.(voters := MarkVotedP2(d.voters, id),
                 votesP2 := WithoutVoterP2(d.votesP2, id) + BallotsP2(id, selected)))
  }

  /**
   * The update function the remote path hands to the transaction, as one
   * atomic step on the remote document: a null document is returned unchanged;
   * otherwise the flag is set when the voter exists (and `voters` is present),
   * and the ballots are rewritten whether or not the voter exists.
   */
  function CastP1Txn(current: Option<StoredDoc>, voterCCCD: string, votes: seq<BallotInputP1>): Option<StoredDoc> {
    match current
    case None => None
    case Some(doc) =>
      var id := Normalize(voterCCCD);
      var voters := match doc.voters case None => None case Some(vs) => Some(MarkVotedP1(vs, id));
      Some(doc.(voters := voters,
                votesP1 := Some(WithoutVoterP1(doc.votesP1.GetOr([]), id) + BallotsP1(id, votes))))
  }

  function CastP2Txn(current: Option<StoredDoc>, voterCCCD: string, selected: seq<string>): Option<StoredDoc> {
    match current
    case None => None
    case Some(doc) =>
      var id := Normalize(voterCCCD);
      var voters := match doc.voters case None => None case Some(vs) => Some(MarkVotedP2(vs, id));
      Some(doc.(voters := voters,
                votesP2 := Some(WithoutVoterP2(doc.votesP2.GetOr([]), id) + BallotsP2(id, selected))))
  }

  /** The `forEach` … `push` loop of `castVoteP1`: one ballot per input, appended in order. */
  method AppendBallotsP1(kept: seq<VoteRecordPhase1>, id: string, votes: seq<BallotInputP1>)
    returns (r: seq<VoteRecordPhase1>)
    ensures r == kept + BallotsP1(id, votes)
  {
    r := kept;
    for k := 0 to |votes|
      invariant r == kept + BallotsP1(id, votes[..k])
    {
      BallotsP1Snoc(id, votes, k);
      r := r + [VoteRecordPhase1(id, Normalize(votes[k].candidateCCCD), votes[k].level)];
    }
    assert votes[..|votes|] == votes;
  }

  /** The `forEach` … `push` loop of `castVoteP2`. */
  method AppendBallotsP2(kept: seq<VoteRecordPhase2>, id: string, selected: seq<string>)
    returns (r: seq<VoteRecordPhase2>)
    ensures r == kept + BallotsP2(id, selected)
  {
    r := kept;
    for k := 0 to |selected|
      invariant r == kept + BallotsP2(id, selected[..k])
    {
      BallotsP2Snoc(id, selected, k);
      r := r + [VoteRecordPhase2(id, Normalize(selected[k]))];
    }
    assert selected[..|selected|] == selected;
  }

  // ---------------------------------------------------------------------------
  // Resets
  // ---------------------------------------------------------------------------

  /** `resetPhase1`'s edit: no Phase-1 candidates or ballots, every Phase-1 flag false. */
  function ClearPhase1(d: AppData): (r: AppData)
    ensures r.candidatesP1 == [] && r.votesP1 == []
    ensures |r.voters| == |d.voters|
    ensures forall i :: 0 <= i < |d.voters| ==>
      r.voters[i].hasVotedPhase1 == Some(false) && r.voters[i] == d.voters[i].(hasVotedPhase1 := Some(false))
    ensures r.candidatesP2 == d.candidatesP2 && r.votesP2 == d.votesP2 && r.config == d.config
  {
    d.(candidatesP1 := [], votesP1 := [],
       voters := seq(|d.voters|, i requires 0 <= i < |d.voters| => d.voters[i].(hasVotedPhase1 := Some(false))))
  }

  function ClearPhase2(d: AppData): (r: AppData)
    ensures r.candidatesP2 == [] && r.votesP2 == []
    ensures |r.voters| == |d.voters|
    ensures forall i :: 0 <= i < |d.voters| ==>
      r.voters[i].hasVotedPhase2 == Some(false) && r.voters[i] == d.voters[i].(hasVotedPhase2 := Some(false))
    ensures r.candidatesP1 == d.candidatesP1 && r.votesP1 == d.votesP1 && r.config == d.config
  {
    d.(candidatesP2 := [], votesP2 := [],
       voters := seq(|d.voters|, i requires 0 <= i < |d.voters| => d.voters[i].(hasVotedPhase2 := Some(false))))
  }

  /** `resetVotersOnly`'s edit: no voters and no ballots; candidates and configuration kept. */
  function ClearVoters(d: AppData): (r: AppData)
    ensures r.voters == [] && r.votesP1 == [] && r.votesP2 == []
    ensures r.candidatesP1 == d.candidatesP1 && r.candidatesP2 == d.candidatesP2 && r.config == d.config
  {
    d.(voters := [], votesP1 := [], votesP2 := [])
  }

  // ---------------------------------------------------------------------------
  // The store
  // ---------------------------------------------------------------------------

  /**
   * The module state of services/storage.ts as one object. `cloud` is fixed at
   * start-up (the backend is configured and its handle was obtained); `remote`
   * is the remote document (`None` is null) and `local` the local entry.
   */
  class Store {
    const cloud: bool
    var mem: AppData
    var remote: Option<StoredDoc>
    var local: Option<LocalDoc>
    var connected: bool

    /** `initStorage`: without a cloud backend, load the local copy; with one, wait for the first emission. */
    constructor (cloud: bool, remote: Option<StoredDoc>, local: Option<LocalDoc>)
      ensures this.cloud == cloud && this.remote == remote && this.local == local
      ensures mem == if cloud then InitialData else LoadFromLocal(local)
      ensures !connected
    {
      this.cloud := cloud;
      this.remote := remote;
      this.local := local;
      this.connected := false;
      this.mem := if cloud then InitialData else LoadFromLocal(local);
    }

    /** `data` is now in memory and, when `remoteOk` or in local mode, in the backend. */
    twostate predicate Persisted(data: AppData, remoteOk: bool)
      reads this
    {
      && mem == data
      && connected == old(connected)
      && (cloud ==> local == old(local) && remote == if remoteOk then Some(ToStored(data)) else old(remote))
      && (!cloud ==> remote == old(remote) && local == Some(ToLocal(data)))
    }

    /** Nothing observable changed. */
    twostate predicate Untouched()
      reads this
    {
      mem == old(mem) && remote == old(remote) && local == old(local) && connected == old(connected)
    }

    /**
     * The effect of `castVoteP1` reporting `ok`. Remote path: the transaction
     * applies `CastP1Txn` to the remote document and the call reports only the
     * backend's outcome; the in-memory copy waits for the next emission.
     * Local path: false and nothing changed for an unknown voter, otherwise
     * the edited document is saved.
     */
    twostate predicate CastP1Applied(voterCCCD: string, votes: seq<BallotInputP1>, remoteOk: bool, ok: bool)
      reads this
    {
      if cloud then
        && ok == remoteOk && mem == old(mem) && local == old(local) && connected == old(connected)
        && remote == (if remoteOk then CastP1Txn(old(remote), voterCCCD, votes) else old(remote))
      else
        match CastP1(old(mem), voterCCCD, votes)
        case None => !ok && Untouched()
        case Some(d) => ok && Persisted(d, remoteOk)
    }

    /** The effect of `castVoteP2`, as `CastP1Applied`; an empty selection is a blank ballot. */
    twostate predicate CastP2Applied(voterCCCD: string, selected: seq<string>, remoteOk: bool, ok: bool)
      reads this
    {
      if cloud then
        && ok == remoteOk && mem == old(mem) && local == old(local) && connected == old(connected)
        && remote == (if remoteOk then CastP2Txn(old(remote), voterCCCD, selected) else old(remote))
      else
        match CastP2(old(mem), voterCCCD, selected)
        case None => !ok && Untouched()
        case Some(d) => ok && Persisted(d, remoteOk)
    }

    /** `hasData`: the roster is not empty. */
    function HasData(): (r: bool)
      reads this
      ensures r <==> exists v :: v in mem.voters
    {
      assert |mem.voters| > 0 ==> mem.voters[0] in mem.voters;
      |mem.voters| > 0
    }

    /** `getDB`: a copy of the in-memory document; the document is a value, so the copy is independent. */
    method GetDB() returns (d: AppData)
      ensures d == mem
    {
      d := mem;
    }

    /**
     * `saveDB`: the in-memory document becomes `data` at once and is never
     * rolled back; the remote write's outcome is `remoteOk` (the local write
     * always succeeds), and the result reports it.
     */
    method SaveDB(data: AppData, remoteOk: bool) returns (ok: bool)
      modifies this
      ensures Persisted(data, remoteOk)
      ensures ok == (!cloud || remoteOk)
    {
      mem := data;
      if cloud {
        if remoteOk {
          remote := Some(ToStored(data));
        }
        ok := remoteOk;
      } else {
        local := Some(ToLocal(data));
        ok := true;
      }
    }

    /** The `onValue` callback delivering the current remote document. */
    method OnRemoteValue()
      requires cloud
      modifies this
      ensures connected
      ensures remote == old(remote) && local == old(local)
      ensures mem == match remote case Some(val) => CloudMerge(val) case None => old(mem)
    {
      if remote.Some? {
        mem := CloudMerge(remote.value);
      }
      connected := true;
    }

    /** `resetDB` once confirmed: the defaults overwrite everything. */
    method ResetDB(remoteOk: bool)
      modifies this
      ensures Persisted(InitialData, remoteOk)
    {
      var _ := SaveDB(InitialData, remoteOk);
    }

    method ResetPhase1(remoteOk: bool) returns (ok: bool)
      modifies this
      ensures Persisted(ClearPhase1(old(mem)), remoteOk)
      ensures ok == (!cloud || remoteOk)
    {
      var db := GetDB();
      ok := SaveDB(ClearPhase1(db), remoteOk);
    }

    method ResetPhase2(remoteOk: bool) returns (ok: bool)
      modifies this
      ensures Persisted(ClearPhase2(old(mem)), remoteOk)
      ensures ok == (!cloud || remoteOk)
    {
      var db := GetDB();
      ok := SaveDB(ClearPhase2(db), remoteOk);
    }

    method ResetVotersOnly(remoteOk: bool) returns (ok: bool)
      modifies this
      ensures Persisted(ClearVoters(old(mem)), remoteOk)
      ensures ok == (!cloud || remoteOk)
    {
      var db := GetDB();
      ok := SaveDB(ClearVoters(db), remoteOk);
    }

    /** `castVoteP1`, on either backend. */
    method CastVoteP1(voterCCCD: string, votes: seq<BallotInputP1>, remoteOk: bool) returns (ok: bool)
      modifies this
      ensures CastP1Applied(voterCCCD, votes, remoteOk, ok)
    {
      var safeVoterID := Normalize(voterCCCD);
      if cloud {
        if remoteOk {
          remote := CastP1Txn(remote, voterCCCD, votes);
        }
        ok := remoteOk;
      } else {
        var db := GetDB();
        var voterIdx := FindVoter(db.voters, safeVoterID);
        if voterIdx.None? {
          return false;
        }
        var i := voterIdx.value;
        var voters := db.voters[i := db.voters[i].(hasVotedPhase1 := Some(true))];
        var votesP1 := AppendBallotsP1(WithoutVoterP1(db.votesP1, safeVoterID), safeVoterID, votes);
        var d := db.(voters := voters, votesP1 := votesP1);
        assert CastP1(old(mem), voterCCCD, votes) == Some(d);
        ok := SaveDB(d, remoteOk);
      }
    }

    /** `castVoteP2`, on either backend. */
    method CastVoteP2(voterCCCD: string, selected: seq<string>, remoteOk: bool) returns (ok: bool)
      modifies this
      ensures CastP2Applied(voterCCCD, selected, remoteOk, ok)
    {
      var safeVoterID := Normalize(voterCCCD);
      if cloud {
        if remoteOk {
          remote := CastP2Txn(remote, voterCCCD, selected);
        }
        ok := remoteOk;
      } else {
        var db := GetDB();
        var voterIdx := FindVoter(db.voters, safeVoterID);
        if voterIdx.None? {
          return false;
        }
        var i := voterIdx.value;
        var voters := db.voters[i := db.voters[i].(hasVotedPhase2 := Some(true))];
        var votesP2 := AppendBallotsP2(WithoutVoterP2(db.votesP2, safeVoterID), safeVoterID, selected);
        var d := db.(voters := voters, votesP2 := votesP2);
        assert CastP2(old(mem), voterCCCD, selected) == Some(d);
        ok := SaveDB(d, remoteOk);
      }
    }
  }
}
