// The patient's medical records page: three tabs over one list of records,
// and the record opened for viewing.

module MedicalRecords {
  import opened Common

  datatype Record = Record(id: int, title: string, kind: string, date: int)

  /** getTabRecords: 'records' shows every record, 'visits' the visit
      records, 'tests' the test records, and any other tab nothing. */
  function TabRecords(records: seq<Record>, tab: string): seq<Record> {
    if tab == "records" then records
    else if tab == "visits" then Filter(records, (r: Record) => r.kind == "visit")
    else if tab == "tests" then Filter(records, (r: Record) => r.kind == "test")
    else []
  }

  /** Each tab's list keeps the records' order and holds exactly the
      records of its kind; the visits and tests tabs share no record. */
  lemma TabRecordsFacts(records: seq<Record>, tab: string)
    ensures Subseq(TabRecords(records, tab), records)
    ensures tab == "records" ==> TabRecords(records, tab) == records
    ensures tab == "visits" ==> forall r :: r in TabRecords(records, tab) <==> r in records && r.kind == "visit"
    ensures tab == "tests" ==> forall r :: r in TabRecords(records, tab) <==> r in records && r.kind == "test"
    ensures tab !in {"records", "visits", "tests"} ==> TabRecords(records, tab) == []
    ensures forall r :: !(r in TabRecords(records, "visits") && r in TabRecords(records, "tests"))
  {
    FilterIsSubseq(records, (r: Record) => r.kind == "visit");
    FilterIsSubseq(records, (r: Record) => r.kind == "test");
    if tab == "records" {
      SubseqRefl(records);
    }
  }

  /** The visits and tests tabs together hold at most all records. */
  lemma TabCounts(records: seq<Record>)
    ensures |TabRecords(records, "visits")| + |TabRecords(records, "tests")| <= |records|
  {
    FilterCountsDisjoint(records, (r: Record) => r.kind == "visit", (r: Record) => r.kind == "test",
                         (r: Record) => false);
  }

  class RecordsView {
    var records: seq<Record>
    var activeTab: string
    var selectedRecord: Option<Record>

    constructor(loaded: seq<Record>)
      ensures records == loaded && activeTab == "records" && selectedRecord.None?
    {
      records := loaded;
      activeTab := "records";
      selectedRecord := None;
    }

    /** handleViewRecord */
    method ViewRecord(r: Record)
      modifies this
      ensures selectedRecord == Some(r) && records == old(records) && activeTab == old(activeTab)
    {
      selectedRecord := Some(r);
    }

    /** closeViewRecord */
    method CloseViewRecord()
      modifies this
      ensures selectedRecord.None? && records == old(records) && activeTab == old(activeTab)
    {
      selectedRecord := None;
    }
  }
}
