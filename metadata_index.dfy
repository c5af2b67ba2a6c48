/**
 * The metadata index: a light list of saved reports for the dashboard, one entry per
 * report id, newest save first. Saving moves a report's entry to the front; deleting
 * drops it; a status change rewrites the status of the matching entry.
 */
module MetadataIndex {
  import Lists
  import opened Report

  /** One index entry: a projection of a saved report plus the time of the save. */
  datatype SavedReport = SavedReport(
    id: string,
    propertyAddress: string,
    clientName: string,
    inspectionDate: string,
    ricsNumber: string,
    lastModified: int,
    status: ReportStatus,
    reportType: ReportType)

  /** `s || fallback`: the empty string is replaced by the fallback. */
  function OrDefault(s: string, fallback: string): (r: string)
    ensures s == "" ==> r == fallback
    ensures s != "" ==> r == s
  {
    if s == "" then fallback else s
  }

  /**
   * The entry a save writes for report `st` at time `now`: an empty address reads
   * "No Address", an empty client "No Client"; the other fields are copied.
   */
  function Projection(st: ReportState, now: int): (r: SavedReport)
    ensures r.id == st.id && r.lastModified == now
    ensures r.propertyAddress == (if st.propertyAddress == "" then "No Address" else st.propertyAddress)
    ensures r.clientName == (if st.clientName == "" then "No Client" else st.clientName)
    ensures r.inspectionDate == st.inspectionDate && r.ricsNumber == st.ricsNumber
    ensures r.status == st.status && r.reportType == st.reportType
  {
    SavedReport(
      st.id,
      OrDefault(st.propertyAddress, "No Address"),
      OrDefault(st.clientName, "No Client"),
      OrDefault(st.inspectionDate, ""),
      OrDefault(st.ricsNumber, ""),
      now,
      st.status,
      st.reportType)
  }

  /** The ids of the entries, in order. */
  function IdsOf(rs: seq<SavedReport>): (r: seq<string>)
    ensures |r| == |rs|
    ensures forall i :: 0 <= i < |rs| ==> r[i] == rs[i].id
  {
    seq(|rs|, i requires 0 <= i < |rs| => rs[i].id)
  }

  /** No two entries share an id. */
  predicate UniqueIds(rs: seq<SavedReport>)
  {
    forall i, j :: 0 <= i < j < |rs| ==> rs[i].id != rs[j].id
  }

  /** `reports.filter(r => r.id !== id)` */
  function RemoveId(rs: seq<SavedReport>, id: string): (r: seq<SavedReport>)
    ensures forall e :: e in r <==> e in rs && e.id != id
  {
    Lists.Filter(rs, (e: SavedReport) => e.id != id)
  }

  /** `[entry, ...reports.filter(r => r.id !== entry.id)]` */
  function Upsert(rs: seq<SavedReport>, entry: SavedReport): (r: seq<SavedReport>)
    ensures |r| >= 1 && r[0] == entry
    ensures r[1..] == RemoveId(rs, entry.id)
  {
    [entry] + RemoveId(rs, entry.id)
  }

  /** `reports.map(r => r.id === id ? { ...r, status } : r)` */
  function SetStatus(rs: seq<SavedReport>, id: string, status: ReportStatus): (r: seq<SavedReport>)
    ensures |r| == |rs|
    ensures forall i :: 0 <= i < |rs| && rs[i].id == id ==> r[i] == rs[i].(status := status)
    ensures forall i :: 0 <= i < |rs| && rs[i].id != id ==> r[i] == rs[i]
  {
    seq(|rs|, i requires 0 <= i < |rs| => if rs[i].id == id then rs[i].(status := status) else rs[i])
  }

  /** Under unique ids, no later entry shares the first entry's id. */
  lemma HeadIdNotInTail(rs: seq<SavedReport>, e: SavedReport)
    requires UniqueIds(rs) && |rs| > 0 && e in rs[1..]
    ensures e.id != rs[0].id
  {
    var k :| 0 <= k < |rs[1..]| && rs[1..][k] == e;
    assert rs[k + 1] == e;
  }

  lemma TailUnique(rs: seq<SavedReport>)
    requires UniqueIds(rs) && rs != []
    ensures UniqueIds(rs[1..])
  {
    forall i, j | 0 <= i < j < |rs[1..]| ensures rs[1..][i].id != rs[1..][j].id {
      assert rs[1..][i] == rs[i + 1] && rs[1..][j] == rs[j + 1];
    }
  }

  lemma ConsUnique(h: SavedReport, t: seq<SavedReport>)
    requires UniqueIds(t)
    requires forall e :: e in t ==> e.id != h.id
    ensures UniqueIds([h] + t)
  {
    var r := [h] + t;
    forall i, j | 0 <= i < j < |r| ensures r[i].id != r[j].id {
      assert r[j] == t[j - 1] && t[j - 1] in t;
      if i > 0 {
        assert r[i] == t[i - 1];
      }
    }
  }

  /** Dropping entries keeps ids unique. */
  lemma {:induction false} RemoveIdKeepsUnique(rs: seq<SavedReport>, id: string)
    requires UniqueIds(rs)
    ensures UniqueIds(RemoveId(rs, id))
    decreases |rs|
  {
    if rs != [] {
      var keep := (e: SavedReport) => e.id != id;
      var tail := RemoveId(rs[1..], id);
      TailUnique(rs);
      RemoveIdKeepsUnique(rs[1..], id);
      assert RemoveId(rs, id) == (if keep(rs[0]) then [rs[0]] else []) + tail;
      if keep(rs[0]) {
        forall e | e in tail ensures e.id != rs[0].id {
          HeadIdNotInTail(rs, e);
        }
        ConsUnique(rs[0], tail);
      } else {
        assert RemoveId(rs, id) == tail;
      }
    }
  }

  /**
   * Saving puts the new entry first, drops every older entry with its id, and keeps the
   * other entries in their order; afterwards the id occurs exactly once.
   */
  lemma UpsertPlacesEntryOnce(rs: seq<SavedReport>, entry: SavedReport)
    requires UniqueIds(rs)
    ensures var r := Upsert(rs, entry);
      && UniqueIds(r)
      && r[0] == entry
      && (forall e :: e in r <==> e == entry || (e in rs && e.id != entry.id))
      && (forall i :: 1 <= i < |r| ==> r[i].id != entry.id)
  {
    var r := Upsert(rs, entry);
    var tail := RemoveId(rs, entry.id);
    RemoveIdKeepsUnique(rs, entry.id);
    ConsUnique(entry, tail);
    forall i | 1 <= i < |r| ensures r[i].id != entry.id {
      assert r[i] == tail[i - 1] && tail[i - 1] in tail;
    }
  }

  /** Saving the same entry again changes nothing. */
  lemma UpsertIdempotent(rs: seq<SavedReport>, entry: SavedReport)
    ensures Upsert(Upsert(rs, entry), entry) == Upsert(rs, entry)
  {
    var keep := (e: SavedReport) => e.id != entry.id;
    Lists.FilterConcat([entry], RemoveId(rs, entry.id), keep);
    assert Lists.Filter([entry], keep) == [];
    Lists.FilterIdempotent(rs, keep);
  }

  /** Deleting after saving leaves what deleting alone would leave. */
  lemma DeleteUndoesUpsert(rs: seq<SavedReport>, entry: SavedReport)
    ensures RemoveId(Upsert(rs, entry), entry.id) == RemoveId(rs, entry.id)
  {
    var keep := (e: SavedReport) => e.id != entry.id;
    Lists.FilterConcat([entry], RemoveId(rs, entry.id), keep);
    assert Lists.Filter([entry], keep) == [];
    Lists.FilterIdempotent(rs, keep);
  }

  /** Deleting removes every entry with the id and keeps every other entry. */
  lemma DeleteRemovesId(rs: seq<SavedReport>, id: string)
    ensures id !in IdsOf(RemoveId(rs, id))
    ensures forall e :: e in rs && e.id != id ==> e in RemoveId(rs, id)
  {
  }

  /** A status change alters only the status of the matching entries; ids and order stay. */
  lemma SetStatusOnlyStatus(rs: seq<SavedReport>, id: string, status: ReportStatus)
    requires UniqueIds(rs)
    ensures var r := SetStatus(rs, id, status);
      && IdsOf(r) == IdsOf(rs)
      && UniqueIds(r)
      && (forall i :: 0 <= i < |rs| ==> r[i].(status := rs[i].status) == rs[i])
      && (forall i :: 0 <= i < |rs| && rs[i].id == id ==> r[i].status == status)
  {
  }
}
