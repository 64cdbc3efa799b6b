/**
 * The records of the election document (types.ts). Candidate records are built
 * by composition: a Phase-1 candidate embeds a `Voter`, a Phase-2 candidate
 * embeds a Phase-1 candidate, so each carries every field of the type it extends.
 */
module Types {
  import opened Wrappers

  /** The three-valued Phase-1 rating. */
  datatype VoteLevel1 = KhongHoanThanh | HoanThanh | HoanThanhTot {
    /** The enum's string value, as stored in the document. */
    function Label(): string {
      match this
      case KhongHoanThanh => "Không hoàn thành"
      case HoanThanh => "Hoàn thành"
      case HoanThanhTot => "Hoàn thành tốt"
    }
  }

  /** A spreadsheet cell value as read from an imported file; `Blank` is an undefined field. */
  datatype Cell = Blank | Text(s: string) | Num(n: int)

  /**
   * A member of the roster. The two voted flags are optional fields; an absent
   * flag reads as "not voted" (see `VotedP1`).
   */
  datatype Voter = Voter(
    cccd: string,
    mssv: string,
    hoTen: string,
    ngayVaoDang: string,
    loaiDangVien: string,
    nhom: string,
    hasVotedPhase1: Option<bool>,
    hasVotedPhase2: Option<bool>)

  /** The JavaScript truthiness of the optional flags. */
  predicate VotedP1(v: Voter) { v.hasVotedPhase1 == Some(true) }
  predicate VotedP2(v: Voter) { v.hasVotedPhase2 == Some(true) }

  datatype CandidatePhase1 = CandidatePhase1(
    person: Voter,
    khoa: string,
    chucVu: string,
    diemHT: Cell,
    diemRL: Cell,
    thanhTich: string,
    tuDanhGia: string)

  datatype CandidatePhase2 = CandidatePhase2(
    base: CandidatePhase1,
    chiBoDeXuat: string)

  /** One Phase-1 ballot record: who rated whom, and how. */
  datatype VoteRecordPhase1 = VoteRecordPhase1(voterCCCD: string, candidateCCCD: string, level: VoteLevel1)

  /** One Phase-2 ballot record: a selection, with no level. */
  datatype VoteRecordPhase2 = VoteRecordPhase2(voterCCCD: string, candidateCCCD: string)

  /** The eleven display toggles of a Phase-1 candidate card. */
  datatype P1Field =
    | P1ShowCCCD | P1ShowMSSV | P1ShowNgayVaoDang | P1ShowLoaiDangVien | P1ShowNhom
    | P1ShowKhoa | P1ShowChucVu | P1ShowDiemHT | P1ShowDiemRL | P1ShowThanhTich | P1ShowTuDanhGia

  /** The eleven display toggles of a Phase-2 candidate card. */
  datatype P2Field =
    | P2ShowCCCD | P2ShowMSSV | P2ShowNgayVaoDang | P2ShowLoaiDangVien | P2ShowNhom
    | P2ShowKhoa | P2ShowChucVu | P2ShowDiemHT | P2ShowDiemRL | P2ShowThanhTich | P2ShowChiBoDeXuat

  /**
   * A display configuration, as the JSON object it is stored as: a field may be
   * missing from a document written by an older version of the application.
   */
  type P1Display = map<P1Field, bool>
  type P2Display = map<P2Field, bool>

  datatype SystemConfig = SystemConfig(
    maxExcellentVotes: int,
    isPhase1Open: bool,
    isPhase2Open: bool,
    p1Display: P1Display,
    p2Display: P2Display)

  /** The one replicated document: five collections and the configuration. */
  datatype AppData = AppData(
    voters: seq<Voter>,
    candidatesP1: seq<CandidatePhase1>,
    candidatesP2: seq<CandidatePhase2>,
    votesP1: seq<VoteRecordPhase1>,
    votesP2: seq<VoteRecordPhase2>,
    config: SystemConfig)

  /** `VoteLevel1` has exactly three members, and their stored strings are distinct. */
  lemma LevelsAreThreeDistinct(l: VoteLevel1)
    ensures l == KhongHoanThanh || l == HoanThanh || l == HoanThanhTot
    ensures KhongHoanThanh.Label() != HoanThanh.Label()
    ensures KhongHoanThanh.Label() != HoanThanhTot.Label()
    ensures HoanThanh.Label() != HoanThanhTot.Label()
  {
  }
}
