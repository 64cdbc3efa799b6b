/**
 * The spreadsheet import's row mapping (services/excel.ts): header matching
 * (`mapKeys`) and the per-row rules of the three readers. Reading the file
 * and the workbook is outside the model; a sheet arrives as its rows, each
 * row as its (header, cell) pairs in column order.
 */
module Excel {
  import opened Wrappers
  import opened Text
  import opened Types
  import opened Seqs
  import opened Storage

  /** One data row: the header of each non-empty column and its cell. */
  type Row = seq<(string, Cell)>

  /** The record fields the readers fill. */
  datatype FieldName =
    | CccdField | MssvField | HoTenField | NgayVaoDangField | LoaiDangVienField | NhomField
    | KhoaField | ChucVuField | DiemHTField | DiemRLField | ThanhTichField | TuDanhGiaField | ChiBoDeXuatField

  /** A header map: (Vietnamese header fragment, field), in declaration order. */
  type KeyMap = seq<(string, FieldName)>

  /** The fields a row mapped to; an absent field is `undefined`. */
  type Mapped = map<FieldName, Cell>

  const VoterKeys: KeyMap := [
    ("cccd", CccdField), ("mssv", MssvField), ("họ tên", HoTenField),
    ("ngày vào", NgayVaoDangField), ("chính thức", LoaiDangVienField), ("nhóm", NhomField)]

  const CandidateP1Keys: KeyMap := VoterKeys + [
    ("khóa", KhoaField), ("chức vụ", ChucVuField), ("điểm ht", DiemHTField), ("điểm rl", DiemRLField),
    ("thành tích", ThanhTichField), ("tự đánh giá", TuDanhGiaField), ("mức độ htnv", TuDanhGiaField)]

  const CandidateP2Keys: KeyMap := VoterKeys + [
    ("khóa", KhoaField), ("chức vụ", ChucVuField), ("điểm ht", DiemHTField), ("điểm rl", DiemRLField),
    ("thành tích", ThanhTichField), ("đề xuất", ChiBoDeXuatField)]

  /** A header matches a fragment when, trimmed and lowercased, it contains the lowercased fragment. */
  predicate HeaderMatches(header: string, fragment: string) {
    Contains(Lower(Normalize(header)), Lower(fragment))
  }

  /** `rowKeys.find(...)`: the first column whose header matches. */
  function FindHeader(row: Row, fragment: string): (r: Option<nat>)
    ensures r.Some? ==> r.value < |row| && HeaderMatches(row[r.value].0, fragment)
    ensures r.Some? ==> forall j :: 0 <= j < r.value ==> !HeaderMatches(row[j].0, fragment)
    ensures r.None? <==> forall j :: 0 <= j < |row| ==> !HeaderMatches(row[j].0, fragment)
  {
    FirstIndex(row, (h: (string, Cell)) => HeaderMatches(h.0, fragment))
  }

  /**
   * What `mapKeys` builds, entry by entry: a field is set when its fragment
   * finds a header, and a later entry for the same field overwrites an
   * earlier one. The value comes from the first matching header.
   */
  function MapKeysSpec(row: Row, keyMap: KeyMap): Mapped {
    if keyMap == [] then map[]
    else
      var last := keyMap[|keyMap| - 1];
      var prev := MapKeysSpec(row, keyMap[..|keyMap| - 1]);
      match FindHeader(row, last.0)
      case Some(i) => prev[last.1 := row[i].1]
      case None => prev
  }

  /** Entry `e` targets `f` and its fragment finds a header. */
  predicate Hits(row: Row, e: (string, FieldName), f: FieldName) {
    e.1 == f && FindHeader(row, e.0).Some?
  }

  /** The mapped fields are exactly the targets of the entries whose fragment finds a header. */
  lemma {:induction false} MapKeysDomain(row: Row, keyMap: KeyMap, f: FieldName)
    ensures f in MapKeysSpec(row, keyMap) <==> exists j :: 0 <= j < |keyMap| && Hits(row, keyMap[j], f)
  {
    if keyMap != [] {
      var n := |keyMap| - 1;
      var init := keyMap[..n];
      MapKeysDomain(row, init, f);
      if Hits(row, keyMap[n], f) {
        assert f in MapKeysSpec(row, keyMap);
      } else {
        assert f in MapKeysSpec(row, keyMap) <==> f in MapKeysSpec(row, init);
        if j :| 0 <= j < |keyMap| && Hits(row, keyMap[j], f) {
          assert j != n;
          assert init[j] == keyMap[j];
        }
        if j :| 0 <= j < |init| && Hits(row, init[j], f) {
          assert keyMap[j] == init[j];
        }
      }
    }
  }

  /**
   * A field's value comes from the first header matching the fragment of
   * the last entry for that field whose fragment matches at all.
   */
  lemma {:induction false} MapKeysValue(row: Row, keyMap: KeyMap, j: nat)
    requires j < |keyMap| && FindHeader(row, keyMap[j].0).Some? && LastFor(row, keyMap, j)
    ensures keyMap[j].1 in MapKeysSpec(row, keyMap)
    ensures MapKeysSpec(row, keyMap)[keyMap[j].1] == row[FindHeader(row, keyMap[j].0).value].1
  {
    var init := keyMap[..|keyMap| - 1];
    var last := keyMap[|keyMap| - 1];
    if j < |keyMap| - 1 {
      assert init[j] == keyMap[j];
      assert LastFor(row, init, j) by {
        forall j' | j < j' < |init| && init[j'].1 == init[j].1
          ensures FindHeader(row, init[j'].0).None?
        {
          assert init[j'] == keyMap[j'];
        }
      }
      MapKeysValue(row, init, j);
      assert last.1 != keyMap[j].1 || FindHeader(row, last.0).None?;
    }
  }

  /** Entry `j` is the last entry for its field whose fragment finds a header. */
  predicate LastFor(row: Row, keyMap: KeyMap, j: nat)
    requires j < |keyMap|
  {
    forall j' :: j < j' < |keyMap| && keyMap[j'].1 == keyMap[j].1 ==> FindHeader(row, keyMap[j'].0).None?
  }

  /** `mapKeys`: the loop over the header map, filling a fresh object. */
  method MapKeys(row: Row, keyMap: KeyMap) returns (newRow: Mapped)
    ensures newRow == MapKeysSpec(row, keyMap)
  {
    newRow := map[];
    for i := 0 to |keyMap|
      invariant newRow == MapKeysSpec(row, keyMap[..i])
    {
      var found := FindHeader(row, keyMap[i].0);
      if found.Some? {
        newRow := newRow[keyMap[i].1 := row[found.value].1];
      }
      assert keyMap[..i + 1][..i] == keyMap[..i];
    }
    assert keyMap[..|keyMap|] == keyMap;
  }

  /**
   * With both self-assessment columns present, the later entry of the
   * Phase-1 map, 'mức độ htnv', supplies the self-assessment.
   */
  lemma SelfAssessmentLaterWins(row: Row)
    requires FindHeader(row, "mức độ htnv").Some?
    ensures TuDanhGiaField in MapKeysSpec(row, CandidateP1Keys)
    ensures MapKeysSpec(row, CandidateP1Keys)[TuDanhGiaField] == row[FindHeader(row, "mức độ htnv").value].1
  {
    assert CandidateP1Keys[12] == ("mức độ htnv", TuDanhGiaField);
    assert LastFor(row, CandidateP1Keys, 12);
    MapKeysValue(row, CandidateP1Keys, 12);
  }

  /** JavaScript truthiness of a cell: `undefined`, the empty string and 0 are false. */
  predicate Truthy(c: Cell) {
    match c
    case Blank => false
    case Text(s) => s != ""
    case Num(n) => n != 0
  }

  /** `String(value)` of a cell, with `undefined` read as the empty string. */
  function CellText(c: Cell): string {
    match c
    case Blank => ""
    case Text(s) => s
    case Num(n) => NumberText(n)
  }

  function Field(m: Mapped, f: FieldName): Cell {
    if f in m then m[f] else Blank
  }

  /** `value || ''`: the cell's text when it is truthy, the empty string otherwise. */
  function OrEmpty(c: Cell): (r: string)
    ensures !Truthy(c) ==> r == ""
    ensures Truthy(c) ==> r == CellText(c)
  {
    if Truthy(c) then CellText(c) else ""
  }

  /** `String(cccd).trim()`: the cell's text without its surrounding white space. */
  function IdText(c: Cell): (r: string)
    ensures IsTrimmed(r)
    ensures exists a, b :: AllSpace(a) && AllSpace(b) && CellText(c) == a + r + b
  {
    NormalizeStrips(CellText(c));
    Normalize(CellText(c))
  }

  /** `mssv ? String(mssv).trim() : ''`. */
  function StudentId(c: Cell): (r: string)
    ensures IsTrimmed(r)
    ensures !Truthy(c) ==> r == ""
    ensures Truthy(c) ==> r == IdText(c)
  {
    if Truthy(c) then IdText(c) else ""
  }

  /** The `readVoters` row mapping: `null` without an id or a name. */
  function VoterOfRow(row: Row): (r: Option<Voter>)
    ensures var m := MapKeysSpec(row, VoterKeys);
      r.Some? <==> Truthy(Field(m, CccdField)) && Truthy(Field(m, HoTenField))
    ensures r.Some? ==>
      && IsTrimmed(r.value.cccd) && IsTrimmed(r.value.mssv)
      && r.value.hasVotedPhase1 == Some(false) && r.value.hasVotedPhase2 == Some(false)
      && !VotedP1(r.value) && !VotedP2(r.value)
    ensures r.Some? ==> var m := MapKeysSpec(row, VoterKeys);
      && r.value.cccd == IdText(Field(m, CccdField))
      && r.value.mssv == StudentId(Field(m, MssvField))
      && r.value.hoTen == CellText(Field(m, HoTenField))
      && r.value.ngayVaoDang == OrEmpty(Field(m, NgayVaoDangField))
      && r.value.loaiDangVien == OrEmpty(Field(m, LoaiDangVienField))
      && r.value.nhom == OrEmpty(Field(m, NhomField))
  {
    var m := MapKeysSpec(row, VoterKeys);
    if !Truthy(Field(m, CccdField)) || !Truthy(Field(m, HoTenField)) then None
    else Some(Voter(
      IdText(Field(m, CccdField)),
      StudentId(Field(m, MssvField)),
      CellText(Field(m, HoTenField)),
      OrEmpty(Field(m, NgayVaoDangField)),
      OrEmpty(Field(m, LoaiDangVienField)),
      OrEmpty(Field(m, NhomField)),
      Some(false), Some(false)))
  }

  /**
   * The spread `{...mapped, cccd, mssv}` as a person: trimmed ids, the other
   * fields as mapped, and no voted flags at all. A missing name is read as
   * the empty string, the `|| ''` the voter page applies before searching.
   */
  function PersonOf(m: Mapped): (r: Voter)
    ensures r.cccd == IdText(Field(m, CccdField)) && r.mssv == StudentId(Field(m, MssvField))
    ensures IsTrimmed(r.cccd) && IsTrimmed(r.mssv)
    ensures r.hoTen == CellText(Field(m, HoTenField))
    ensures HoTenField !in m ==> r.hoTen == ""
    ensures r.hasVotedPhase1.None? && r.hasVotedPhase2.None?
  {
    Voter(
      IdText(Field(m, CccdField)),
      StudentId(Field(m, MssvField)),
      CellText(Field(m, HoTenField)),
      CellText(Field(m, NgayVaoDangField)),
      CellText(Field(m, LoaiDangVienField)),
      CellText(Field(m, NhomField)),
      None, None)
  }

  /** The `readCandidatesP1` rules on a mapped row: `null` without an id; self-assessment defaults to ''. */
  function CandidateP1OfMapped(m: Mapped): (r: Option<CandidatePhase1>)
    ensures r.Some? <==> Truthy(Field(m, CccdField))
    ensures r.Some? ==> r.value.person == PersonOf(m)
    ensures r.Some? ==> r.value.tuDanhGia == OrEmpty(Field(m, TuDanhGiaField))
    ensures r.Some? ==> r.value.diemHT == Field(m, DiemHTField) && r.value.diemRL == Field(m, DiemRLField)
    ensures r.Some? ==> IsTrimmed(r.value.person.cccd)
  {
    if !Truthy(Field(m, CccdField)) then None
    else Some(CandidatePhase1(
      PersonOf(m),
      CellText(Field(m, KhoaField)),
      CellText(Field(m, ChucVuField)),
      Field(m, DiemHTField),
      Field(m, DiemRLField),
      CellText(Field(m, ThanhTichField)),
      OrEmpty(Field(m, TuDanhGiaField))))
  }

  /** The `readCandidatesP1` row mapping: `mapKeys`, then the rules. */
  function CandidateP1OfRow(row: Row): Option<CandidatePhase1> {
    CandidateP1OfMapped(MapKeysSpec(row, CandidateP1Keys))
  }

  /** The `readCandidatesP2` rules: as Phase 1, with the proposing branch and an empty self-assessment. */
  function CandidateP2OfMapped(m: Mapped): (r: Option<CandidatePhase2>)
    ensures r.Some? <==> Truthy(Field(m, CccdField))
    ensures r.Some? ==> r.value.base.person == PersonOf(m)
    ensures r.Some? ==> r.value.base.tuDanhGia == "" && r.value.chiBoDeXuat == CellText(Field(m, ChiBoDeXuatField))
    ensures r.Some? ==> IsTrimmed(r.value.base.person.cccd)
  {
    if !Truthy(Field(m, CccdField)) then None
    else Some(CandidatePhase2(
      CandidatePhase1(
        PersonOf(m),
        CellText(Field(m, KhoaField)),
        CellText(Field(m, ChucVuField)),
        Field(m, DiemHTField),
        Field(m, DiemRLField),
        CellText(Field(m, ThanhTichField)),
        ""),
      CellText(Field(m, ChiBoDeXuatField))))
  }

  function CandidateP2OfRow(row: Row): Option<CandidatePhase2> {
    CandidateP2OfMapped(MapKeysSpec(row, CandidateP2Keys))
  }

  /** `readVoters` after the workbook is read: map every row, drop the nulls. */
  function ReadVoters(rows: seq<Row>): (r: seq<Voter>)
    ensures |r| <= |rows|
    ensures forall v :: v in r <==> exists i :: 0 <= i < |rows| && VoterOfRow(rows[i]) == Some(v)
    ensures forall v :: v in r ==> IsTrimmed(v.cccd) && !VotedP1(v) && !VotedP2(v)
  {
    MapSomes(rows, VoterOfRow)
  }

  function ReadCandidatesP1(rows: seq<Row>): (r: seq<CandidatePhase1>)
    ensures |r| <= |rows|
    ensures forall c :: c in r <==> exists i :: 0 <= i < |rows| && CandidateP1OfRow(rows[i]) == Some(c)
    ensures forall c :: c in r ==> IsTrimmed(c.person.cccd)
  {
    MapSomes(rows, CandidateP1OfRow)
  }

  function ReadCandidatesP2(rows: seq<Row>): (r: seq<CandidatePhase2>)
    ensures |r| <= |rows|
    ensures forall c :: c in r <==> exists i :: 0 <= i < |rows| && CandidateP2OfRow(rows[i]) == Some(c)
    ensures forall c :: c in r ==> IsTrimmed(c.base.person.cccd) && c.base.tuDanhGia == ""
  {
    MapSomes(rows, CandidateP2OfRow)
  }

  /**
   * Rows are mapped independently and kept in order: reading two blocks of
   * rows is reading each and concatenating, and a single row yields its
   * voter or nothing.
   */
  lemma ReadVotersInOrder(a: seq<Row>, b: seq<Row>, row: Row)
    ensures ReadVoters(a + b) == ReadVoters(a) + ReadVoters(b)
    ensures ReadVoters([row]) == match VoterOfRow(row) case Some(v) => [v] case None => []
  {
    MapSomesAppend(a, b, VoterOfRow);
    assert [row][1..] == [];
  }
}
