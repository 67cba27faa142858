/**
 * The therapist dashboard: the patient list with its derived activity
 * status, the search and status filter, the header statistics, and the
 * note editor of the selected patient.
 *
 * Timestamps are integers of milliseconds; the database queries are
 * outcomes handed to the operations.
 */
module TherapistDashboard {
  import opened Wrappers
  import opened Text
  import opened Seqs

  datatype ChatSessionRow = ChatSessionRow(id: string, createdAt: int, lastUpdated: int, title: Option<string>)

  /** A row of the `profiles` table with role `patient`. */
  datatype Profile = Profile(id: string, email: string, firstName: Option<string>, lastName: Option<string>, createdAt: int)

  datatype Status = Active | Inactive

  /** The status selector: `all`, or one status. */
  datatype StatusFilter = AllStatuses | OnlyStatus(status: Status)

  /** A patient as the dashboard holds it: the profile plus the derived fields. */
  datatype Patient = Patient(
    id: string,
    email: string,
    firstName: Option<string>,
    lastName: Option<string>,
    createdAt: int,
    sessions: seq<ChatSessionRow>,   // most recently updated first
    sessionsCount: nat,
    lastSession: Option<int>,
    status: Status,
    note: string)

  /** The outcome of one patient's `chat_sessions` query. */
  datatype SessionsOutcome = SessionsLoaded(rows: seq<ChatSessionRow>) | SessionsFailed

  /** What the per-patient queries returned: the profile, its sessions, its note's content if any. */
  datatype PatientFetch = PatientFetch(profile: Profile, sessions: SessionsOutcome, noteContent: Option<string>)

  /** The outcome of the `profiles` query, with each patient's follow-up queries. */
  datatype ProfilesOutcome = ProfilesLoaded(fetches: seq<PatientFetch>) | ProfilesFailed

  /** Thirty days, in milliseconds. */
  const ActivityWindowMs: int := 30 * 24 * 60 * 60 * 1000

  // ---------------------------------------------------------------------
  // Per-patient derivation.

  /** The most recent session's update time (the rows come newest first), or none without sessions. */
  function LastSession(sessions: seq<ChatSessionRow>): (last: Option<int>)
    ensures last.None? <==> sessions == []
    ensures last.Some? ==> last.value == sessions[0].lastUpdated
  {
    if sessions == [] then None else Some(sessions[0].lastUpdated)
  }

  /** Active exactly when the last session is less than thirty days before `now`. */
  function StatusAt(last: Option<int>, now: int): (st: Status)
    ensures st == Active <==> last.Some? && now - last.value < ActivityWindowMs
  {
    if last.Some? && now - last.value < ActivityWindowMs then Active else Inactive
  }

  /** The derived fields agree with the session list. */
  predicate WellFormed(p: Patient) {
    && p.sessionsCount == |p.sessions|
    && p.lastSession == LastSession(p.sessions)
    && (p.status == Active ==> p.sessions != [])
  }

  /**
   * One patient's record: the profile's fields, the sessions (none when their
   * query failed), their count, the most recent session's time, the status
   * at `now`, and the note (empty when there is none).
   */
  function DerivePatient(f: PatientFetch, now: int): (p: Patient)
    ensures p.id == f.profile.id && p.email == f.profile.email && p.createdAt == f.profile.createdAt
    ensures p.firstName == f.profile.firstName && p.lastName == f.profile.lastName
    ensures p.sessions == (if f.sessions.SessionsLoaded? then f.sessions.rows else [])
    ensures WellFormed(p)
    ensures p.status == Active <==> p.sessions != [] && now - p.sessions[0].lastUpdated < ActivityWindowMs
    ensures p.note == f.noteContent.GetOr("")
  {
    var sessions := if f.sessions.SessionsLoaded? then f.sessions.rows else [];
    var last := LastSession(sessions);
    Patient(f.profile.id, f.profile.email, f.profile.firstName, f.profile.lastName, f.profile.createdAt,
            sessions, |sessions|, last, StatusAt(last, now), f.noteContent.GetOr(""))
  }

  /** The whole list, one record per fetched profile, in the profiles' order. */
  function DerivePatients(fs: seq<PatientFetch>, now: int): (ps: seq<Patient>)
    ensures |ps| == |fs|
    ensures forall i :: 0 <= i < |fs| ==> ps[i] == DerivePatient(fs[i], now) && ps[i].id == fs[i].profile.id
  {
    seq(|fs|, i requires 0 <= i < |fs| => DerivePatient(fs[i], now))
  }

  /** A patient active at some time was active at every earlier time since the last session. */
  lemma ActivityIsMonotone(last: int, now: int, earlier: int)
    requires last <= earlier <= now
    requires StatusAt(Some(last), now) == Active
    ensures StatusAt(Some(last), earlier) == Active
  {
  }

  // ---------------------------------------------------------------------
  // Search and status filter.

  /** The search text, lower-cased, is in the lower-cased first name, last name or email. */
  predicate MatchesQuery(p: Patient, query: string) {
    var q := ToLower(query);
    || (p.firstName.Some? && Contains(ToLower(p.firstName.value), q))
    || (p.lastName.Some? && Contains(ToLower(p.lastName.value), q))
    || Contains(ToLower(p.email), q)
  }

  predicate MatchesStatus(p: Patient, f: StatusFilter) {
    f.AllStatuses? || p.status == f.status
  }

  /** Whether the dashboard lists `p` for this search text and status selector. */
  predicate Listed(p: Patient, query: string, f: StatusFilter) {
    (query == "" || MatchesQuery(p, query)) && MatchesStatus(p, f)
  }

  /** `filterPatients`: the text filter (only for a non-empty query), then the status filter. */
  function FilterPatients(ps: seq<Patient>, query: string, f: StatusFilter): (shown: seq<Patient>)
    ensures |shown| <= |ps|
    ensures forall i :: 0 <= i < |shown| ==> shown[i] in ps && Listed(shown[i], query, f)
  {
    var byQuery := if query != "" then Filter(ps, p => MatchesQuery(p, query)) else ps;
    if !f.AllStatuses? then Filter(byQuery, p => MatchesStatus(p, f)) else byQuery
  }

  /** One step of `filterPatients`: the head is shown exactly when it is listed. */
  lemma FilterPatientsStep(ps: seq<Patient>, query: string, f: StatusFilter)
    requires ps != []
    ensures FilterPatients(ps, query, f)
         == (if Listed(ps[0], query, f) then [ps[0]] else []) + FilterPatients(ps[1..], query, f)
  {
    var byQuery := if query != "" then Filter(ps, p => MatchesQuery(p, query)) else ps;
    var restByQuery := if query != "" then Filter(ps[1..], p => MatchesQuery(p, query)) else ps[1..];
    var head := if query == "" || MatchesQuery(ps[0], query) then [ps[0]] else [];
    assert byQuery == head + restByQuery;
    if !f.AllStatuses? {
      FilterAppend(head, restByQuery, p => MatchesStatus(p, f));
    }
  }

  /** The shown list is an order-preserving sub-sequence of the patients. */
  lemma {:induction false} FilterPatientsSubsequence(ps: seq<Patient>, query: string, f: StatusFilter)
    ensures IsSubsequence(FilterPatients(ps, query, f), ps)
  {
    if ps != [] {
      FilterPatientsStep(ps, query, f);
      FilterPatientsSubsequence(ps[1..], query, f);
      var r := FilterPatients(ps, query, f);
      if Listed(ps[0], query, f) {
        assert r[0] == ps[0] && r[1..] == FilterPatients(ps[1..], query, f);
      } else {
        assert r == FilterPatients(ps[1..], query, f);
      }
    }
  }

  /** The shown list holds exactly the patients that match the search text and the status. */
  lemma {:induction false} FilterPatientsMembership(ps: seq<Patient>, query: string, f: StatusFilter, p: Patient)
    ensures p in FilterPatients(ps, query, f) <==> p in ps && Listed(p, query, f)
  {
    if ps != [] {
      FilterPatientsStep(ps, query, f);
      FilterPatientsMembership(ps[1..], query, f, p);
      assert ps == [ps[0]] + ps[1..];
    }
  }

  /**
   * The `if (searchQuery)` guard changes nothing: the empty text occurs in
   * every name and email, so a patient is listed exactly when it matches the
   * query and the status, whatever the query.
   */
  lemma QueryGuardIsNeutral(p: Patient, query: string, f: StatusFilter)
    ensures Listed(p, query, f) <==> MatchesQuery(p, query) && MatchesStatus(p, f)
  {
    if query == "" {
      assert ToLower(query) == "";
      ContainsEmpty(ToLower(p.email));
    }
  }

  /** With an empty search text and `all`, every patient is shown, in order. */
  lemma NoFilterShowsAll(ps: seq<Patient>)
    ensures FilterPatients(ps, "", AllStatuses) == ps
  {
  }

  // ---------------------------------------------------------------------
  // Saving a note into the list.

  /** `patients.map(p => p.id === id ? { ...p, note } : p)`. */
  function WithNote(ps: seq<Patient>, id: string, note: string): (r: seq<Patient>)
    ensures |r| == |ps|
    ensures forall i :: 0 <= i < |ps| ==> r[i].(note := ps[i].note) == ps[i]
    ensures forall i :: 0 <= i < |ps| && ps[i].id == id ==> r[i].note == note
    ensures forall i :: 0 <= i < |ps| && ps[i].id != id ==> r[i] == ps[i]
  {
    if ps == [] then []
    else [if ps[0].id == id then ps[0].(note := note) else ps[0]] + WithNote(ps[1..], id, note)
  }

  /** The note update of a list with a known head. */
  lemma WithNoteCons(x: Patient, rest: seq<Patient>, id: string, note: string)
    ensures WithNote([x] + rest, id, note)
         == [if x.id == id then x.(note := note) else x] + WithNote(rest, id, note)
  {
    assert ([x] + rest)[1..] == rest;
  }

  /** The filter of a list with a known head. */
  lemma FilterPatientsCons(x: Patient, rest: seq<Patient>, query: string, f: StatusFilter)
    ensures FilterPatients([x] + rest, query, f)
         == (if Listed(x, query, f) then [x] else []) + FilterPatients(rest, query, f)
  {
    FilterPatientsStep([x] + rest, query, f);
    assert ([x] + rest)[1..] == rest;
  }

  /** Saving a note never changes which patients are shown, only their notes. */
  lemma {:induction false} FilterPatientsAfterNote(ps: seq<Patient>, id: string, note: string, query: string, f: StatusFilter)
    ensures FilterPatients(WithNote(ps, id, note), query, f) == WithNote(FilterPatients(ps, query, f), id, note)
  {
    if ps != [] {
      var x, rest := ps[0], ps[1..];
      assert ps == [x] + rest;
      var head := if x.id == id then x.(note := note) else x;
      var listed := Listed(x, query, f);
      assert Listed(head, query, f) == listed;
      calc {
        FilterPatients(WithNote(ps, id, note), query, f);
      == { WithNoteCons(x, rest, id, note); }
        FilterPatients([head] + WithNote(rest, id, note), query, f);
      == { FilterPatientsCons(head, WithNote(rest, id, note), query, f); }
        (if listed then [head] else []) + FilterPatients(WithNote(rest, id, note), query, f);
      == { FilterPatientsAfterNote(rest, id, note, query, f); }
        (if listed then [head] else []) + WithNote(FilterPatients(rest, query, f), id, note);
      == { if listed { WithNoteCons(x, FilterPatients(rest, query, f), id, note); } }
        WithNote((if listed then [x] else []) + FilterPatients(rest, query, f), id, note);
      == { FilterPatientsCons(x, rest, query, f); }
        WithNote(FilterPatients(ps, query, f), id, note);
      }
    }
  }

  // ---------------------------------------------------------------------
  // Header statistics.

  /** The integer part of the header cards; the average per patient is a float and is not kept. */
  datatype Stats = Stats(totalPatients: nat, activePatientsPercent: nat, totalSessions: nat)

  function CountActive(ps: seq<Patient>): (n: nat)
    ensures n <= |ps|
  {
    if ps == [] then 0 else (if ps[0].status == Active then 1 else 0) + CountActive(ps[1..])
  }

  /** `reduce((acc, p) => acc + p.sessions_count, 0)`. */
  function SumSessions(ps: seq<Patient>): (total: nat)
    ensures total == 0 <==> forall i :: 0 <= i < |ps| ==> ps[i].sessionsCount == 0
  {
    if ps == [] then 0 else ps[0].sessionsCount + SumSessions(ps[1..])
  }

  /** `Math.round(n / d)` for non-negative `n`: the nearest integer, halves rounded up. */
  function RoundHalfUp(n: nat, d: nat): (r: nat)
    requires d > 0
    ensures r * (2 * d) <= 2 * n + d < (r + 1) * (2 * d)
  {
    (2 * n + d) / (2 * d)
  }

  lemma MulMonotone(a: nat, b: nat, d: nat)
    requires a <= b
    ensures a * d <= b * d
  {
  }

  lemma PercentAtMostHundred(active: nat, total: nat)
    requires 0 < total && active <= total
    ensures RoundHalfUp(100 * active, total) <= 100
    ensures active == total ==> RoundHalfUp(100 * active, total) == 100
    ensures active == 0 ==> RoundHalfUp(100 * active, total) == 0
  {
    var d := 2 * total;
    var r := RoundHalfUp(100 * active, total);
    MulMonotone(active, total, 200);
    assert 2 * (100 * active) + total <= 101 * d;
    if r >= 101 {
      MulMonotone(101, r, d);
      assert false;
    }
    if active == total && r <= 99 {
      MulMonotone(r + 1, 100, d);
      assert false;
    }
    if active == 0 && r >= 1 {
      MulMonotone(1, r, d);
      assert false;
    }
  }

  /** The header cards: a count, a percentage that is zero without patients, and a total. */
  function ComputeStats(ps: seq<Patient>): (s: Stats)
    ensures s.totalPatients == |ps| && s.totalSessions == SumSessions(ps)
    ensures s.activePatientsPercent <= 100
    ensures |ps| == 0 || CountActive(ps) == 0 ==> s.activePatientsPercent == 0
    ensures |ps| > 0 && CountActive(ps) == |ps| ==> s.activePatientsPercent == 100
  {
    var total := |ps|;
    if total > 0 then
      PercentAtMostHundred(CountActive(ps), total);
      Stats(total, RoundHalfUp(100 * CountActive(ps), total), SumSessions(ps))
    else
      Stats(0, 0, SumSessions(ps))
  }

  /** Every active patient has at least one session, so there are never more active patients than sessions. */
  lemma {:induction false} ActiveAtMostSessions(ps: seq<Patient>)
    requires forall i :: 0 <= i < |ps| ==> WellFormed(ps[i])
    ensures CountActive(ps) <= SumSessions(ps)
  {
    if ps != [] {
      assert WellFormed(ps[0]);
      ActiveAtMostSessions(ps[1..]);
    }
  }

  /** Notes play no part in the statistics. */
  lemma {:induction false} StatsIgnoreNotes(ps: seq<Patient>, id: string, note: string)
    ensures ComputeStats(WithNote(ps, id, note)) == ComputeStats(ps)
  {
    CountAndSumIgnoreNotes(ps, id, note);
  }

  lemma {:induction false} CountAndSumIgnoreNotes(ps: seq<Patient>, id: string, note: string)
    ensures CountActive(WithNote(ps, id, note)) == CountActive(ps)
    ensures SumSessions(WithNote(ps, id, note)) == SumSessions(ps)
  {
    if ps != [] {
      CountAndSumIgnoreNotes(ps[1..], id, note);
      var w := WithNote(ps, id, note);
      assert w[1..] == WithNote(ps[1..], id, note);
      assert w[0].status == ps[0].status && w[0].sessionsCount == ps[0].sessionsCount;
    }
  }

  // ---------------------------------------------------------------------
  // The page's state and handlers.

  /** How many `patient_notes` rows the lookup before saving found, or that it failed. */
  datatype NoteLookup = LookupFailed | LookupDone(existingRows: nat)

  /** The write `savePatientNote` issues. */
  datatype NoteWrite = UpdateNote(patientId: string, content: string) | InsertNote(patientId: string, content: string)

  class Page {
    var patients: seq<Patient>
    var filteredPatients: seq<Patient>
    var searchQuery: string
    var statusFilter: StatusFilter
    var selectedPatient: Option<Patient>
    var selectedSession: Option<string>
    /** The note editor's draft. */
    var patientNote: string
    var editingNote: bool
    var stats: Stats
    var loadingPatients: bool

    /**
     * The shown list is always the filter of the patient list, the header
     * matches the patient list, and every record's derived fields agree.
     */
    ghost predicate Valid()
      reads this
    {
      && filteredPatients == FilterPatients(patients, searchQuery, statusFilter)
      && stats == ComputeStats(patients)
      && forall i :: 0 <= i < |patients| ==> WellFormed(patients[i])
    }

    constructor ()
      ensures Valid()
      ensures patients == [] && filteredPatients == [] && searchQuery == "" && statusFilter == AllStatuses
      ensures selectedPatient.None? && selectedSession.None? && patientNote == "" && !editingNote
      ensures stats == Stats(0, 0, 0) && !loadingPatients
    {
      patients, filteredPatients, searchQuery, statusFilter := [], [], "", AllStatuses;
      selectedPatient, selectedSession, patientNote, editingNote := None, None, "", false;
      stats, loadingPatients := Stats(0, 0, 0), false;
    }

    /** The filter effect: re-run `filterPatients` when there are patients. */
    method RefilterEffect()
      modifies this`filteredPatients
      ensures filteredPatients == if |patients| > 0 then FilterPatients(patients, searchQuery, statusFilter) else old(filteredPatients)
    {
      if |patients| > 0 {
        filteredPatients := FilterPatients(patients, searchQuery, statusFilter);
      }
    }

    method SetSearchQuery(q: string)
      requires Valid()
      modifies this
      ensures Valid()
      ensures searchQuery == q && filteredPatients == FilterPatients(patients, q, statusFilter)
      ensures patients == old(patients) && statusFilter == old(statusFilter) && stats == old(stats)
      ensures selectedPatient == old(selectedPatient) && selectedSession == old(selectedSession)
      ensures patientNote == old(patientNote) && editingNote == old(editingNote) && loadingPatients == old(loadingPatients)
    {
      searchQuery := q;
      RefilterEffect();
    }

    method SetStatusFilter(f: StatusFilter)
      requires Valid()
      modifies this
      ensures Valid()
      ensures statusFilter == f && filteredPatients == FilterPatients(patients, searchQuery, f)
      ensures patients == old(patients) && searchQuery == old(searchQuery) && stats == old(stats)
      ensures selectedPatient == old(selectedPatient) && selectedSession == old(selectedSession)
      ensures patientNote == old(patientNote) && editingNote == old(editingNote) && loadingPatients == old(loadingPatients)
    {
      statusFilter := f;
      RefilterEffect();
    }

    /** `fetchPatients`, up to the `profiles` query. */
    method BeginFetchPatients()
      requires Valid()
      modifies this
      ensures Valid() && loadingPatients
      ensures patients == old(patients) && filteredPatients == old(filteredPatients) && stats == old(stats)
      ensures searchQuery == old(searchQuery) && statusFilter == old(statusFilter)
      ensures selectedPatient == old(selectedPatient) && selectedSession == old(selectedSession)
      ensures patientNote == old(patientNote) && editingNote == old(editingNote)
    {
      loadingPatients := true;
    }

    /**
     * `fetchPatients`, once every query has answered: on success the list and
     * the header are replaced; on failure nothing but the loading flag changes.
     */
    method CompleteFetchPatients(outcome: ProfilesOutcome, now: int)
      requires Valid()
      modifies this
      ensures Valid() && !loadingPatients
      ensures outcome.ProfilesLoaded? ==> patients == DerivePatients(outcome.fetches, now)
      ensures outcome.ProfilesFailed? ==> patients == old(patients) && stats == old(stats)
      ensures searchQuery == old(searchQuery) && statusFilter == old(statusFilter)
      ensures selectedPatient == old(selectedPatient) && selectedSession == old(selectedSession)
      ensures patientNote == old(patientNote) && editingNote == old(editingNote)
    {
      if outcome.ProfilesLoaded? {
        var loaded := DerivePatients(outcome.fetches, now);
        stats := ComputeStats(loaded);
        patients := loaded;
        filteredPatients := loaded;
        RefilterEffect();
      }
      loadingPatients := false;
    }

    /** `handleSelectPatient`: show `p`, load its note into the draft, leave edit mode, drop the session. */
    method SelectPatient(p: Patient)
      requires Valid()
      modifies this
      ensures Valid()
      ensures selectedPatient == Some(p) && patientNote == p.note && !editingNote && selectedSession.None?
      ensures patients == old(patients) && filteredPatients == old(filteredPatients) && stats == old(stats)
      ensures searchQuery == old(searchQuery) && statusFilter == old(statusFilter) && loadingPatients == old(loadingPatients)
    {
      selectedPatient := Some(p);
      patientNote := p.note;
      editingNote := false;
      selectedSession := None;
    }

    /** The "edit" button. */
    method StartEditing()
      requires Valid()
      modifies this`editingNote
      ensures Valid() && editingNote
    {
      editingNote := true;
    }

    /** Typing in the note editor. */
    method EditDraft(text: string)
      requires Valid()
      modifies this`patientNote
      ensures Valid() && patientNote == text
    {
      patientNote := text;
    }

    /** The "cancel" button, shown only while a patient is selected: drop the draft. */
    method CancelEditing()
      requires Valid()
      requires selectedPatient.Some?
      modifies this`editingNote, this`patientNote
      ensures Valid()
      ensures !editingNote && patientNote == selectedPatient.value.note
    {
      editingNote := false;
      patientNote := selectedPatient.value.note;
    }

    /**
     * `savePatientNote`: without a selected patient nothing happens; if the
     * lookup fails nothing changes; otherwise the note is updated or inserted,
     * the draft replaces the note of every listed patient with the selected
     * id, and edit mode ends. The selected patient's own copy is left as it was.
     */
    method SaveNote(lookup: NoteLookup) returns (write: Option<NoteWrite>)
      requires Valid()
      modifies this
      ensures Valid()
      ensures old(selectedPatient).None? || lookup.LookupFailed? ==>
                write.None? && patients == old(patients) && editingNote == old(editingNote)
      ensures old(selectedPatient).Some? && lookup.LookupDone? ==>
                var id := old(selectedPatient).value.id;
                && write == Some(if lookup.existingRows > 0 then UpdateNote(id, old(patientNote)) else InsertNote(id, old(patientNote)))
                && patients == WithNote(old(patients), id, old(patientNote))
                && !editingNote
      ensures stats == old(stats) && searchQuery == old(searchQuery) && statusFilter == old(statusFilter)
      ensures selectedPatient == old(selectedPatient) && selectedSession == old(selectedSession)
      ensures patientNote == old(patientNote) && loadingPatients == old(loadingPatients)
    {
      write := None;
      if selectedPatient.Some? && lookup.LookupDone? {
        var id := selectedPatient.value.id;
        write := Some(if lookup.existingRows > 0 then UpdateNote(id, patientNote) else InsertNote(id, patientNote));
        StatsIgnoreNotes(patients, id, patientNote);
        FilterPatientsAfterNote(patients, id, patientNote, searchQuery, statusFilter);
        patients := WithNote(patients, id, patientNote);
        RefilterEffect();
        editingNote := false;
      }
    }
  }
}
