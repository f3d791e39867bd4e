/** storage/memory.py against storage/postgres.py: when do the two repositories hold the same row? */
module RepositoryAgreement {
  import opened Base
  import opened Models
  import opened Rows
  import opened CallSites
  import opened CallStatusGraph
  import opened Lifecycle
  import opened History

  /** What every reachable call keeps: CONNECTED has a connection time, and a terminal call has an
      end time and no phase. */
  ghost predicate Settled(call: CallRecord) {
    && (call.status.Connected? ==> call.connectedAt.Some?)
    && (call.status.Terminal() ==> call.phase.None? && call.endedAt.Some?)
  }

  /** One update leaves the same call in both repositories exactly when it neither touches a
      terminal call without a status (Postgres rewrites the end time) nor brings a phase along with
      a terminal status (memory keeps it). */
  lemma UpdatesAgreeIff(call: CallRecord, u: Update, now: int)
    requires Settled(call)
    ensures MemoryCall(call, u, now) == PostgresCall(call, u, now) <==>
            if u.status.Some? then u.status.value.Terminal() ==> u.phase.None?
            else call.status.Terminal() ==> u.phase.None? && call.endedAt == Some(now)
  {
    var m, p := MemoryCall(call, u, now), PostgresCall(call, u, now);
    if u.status.Some? {
      if u.status.value.Terminal() && u.phase.Some? {
        assert m.phase != p.phase;
      }
    } else if call.status.Terminal() {
      if u.phase.Some? {
        assert m.phase != p.phase;
      } else if call.endedAt != Some(now) {
        assert m.endedAt != p.endedAt;
      }
    }
  }

  /** Among the writes the system makes, only `transition` can pair a phase with a terminal status,
      and only `transition` and `persist_event` are accepted on a terminal call. */
  predicate PhasesOk(a: RowAction) {
    a.Write? && a.site.Move? && a.site.target.Terminal() ==> a.site.phase.None?
  }

  /** The write is a status-less one on a terminal call. */
  predicate LateNote(row: Row, a: RowAction) {
    a.Write? && UpdateOf(a.site).status.None? && row.call.status.Terminal()
  }

  lemma LateNotesAreEvents(backend: Backend, row: Row, site: Site, now: int)
    requires row.call.status.Terminal() && Guarded(site) && ApplySite(backend, row, site, now).Ok?
    ensures site.Note? || (site.Move? && site.target == row.call.status)
  {
    UpdateEffect(backend, row, UpdateOf(site), now);
  }

  lemma ActKeepsSettled(backend: Backend, row: Row, a: RowAction)
    requires Settled(row.call) && ActionOk(a) && PhasesOk(a)
    ensures Settled(Act(backend, row, a).call)
  {
    if a.Write? && ApplySite(backend, row, a.site, a.now).Ok? {
      UpdateEffect(backend, row, UpdateOf(a.site), a.now);
      if UpdateOf(a.site).status.None? && row.call.status.Terminal() {
        LateNotesAreEvents(backend, row, a.site, a.now);
      }
    }
  }

  /** The rows agree on everything but, perhaps, the end time. */
  ghost predicate SameButEnd(m: Row, p: Row) {
    p == m.(call := m.call.(endedAt := p.call.endedAt))
  }

  lemma SiteKeepsAgreement(m: Row, p: Row, site: Site, now: int)
    requires SameButEnd(m, p) && Consistent(m)
    requires Settled(m.call) && Settled(p.call)
    requires Guarded(site) && PhasesOk(Write(site, now))
    ensures ApplySite(Memory, m, site, now).Ok? <==> ApplySite(Postgres, p, site, now).Ok?
    ensures ApplySite(Memory, m, site, now).Ok? ==>
              var m' := ApplySite(Memory, m, site, now).value;
              var p' := ApplySite(Postgres, p, site, now).value;
              && SameButEnd(m', p')
              && (m == p && !LateNote(m, Write(site, now)) ==> m' == p')
  {
    MaxOfGapless(m.events);
    var u := UpdateOf(site);
    if Accepts(m.call, u) && u.status.None? && m.call.status.Terminal() {
      LateNotesAreEvents(Memory, m, site, now);
    }
    UpdatesAgreeIff(m.call, u, now);
  }

  lemma SpeechKeepsAgreement(m: Row, p: Row, a: RowAction)
    requires SameButEnd(m, p) && Consistent(m) && a.Speak?
    ensures SameButEnd(Act(Memory, m, a), Act(Postgres, p, a))
    ensures m == p ==> Act(Memory, m, a) == Act(Postgres, p, a)
  {
    MaxOfGapless(m.events);
    MaxOfTurns(m.transcript);
  }

  /** When Postgres last wrote an end time that memory did not: the time of the last event logged on
      the ended call, unless a write of a terminal status came after it. */
  function LateEnd(m: Row, run: seq<RowAction>, late: Option<int>): Option<int>
    decreases |run|
  {
    if run == [] then late else LateEnd(Act(Memory, m, run[0]), run[1..], LateEndAfter(m, run[0], late))
  }

  function LateEndAfter(m: Row, a: RowAction, late: Option<int>): Option<int> {
    if !a.Write? || ApplySite(Memory, m, a.site, a.now).Err? then late
    else if UpdateOf(a.site).status.None? then if m.call.status.Terminal() then Some(a.now) else late
    else if UpdateOf(a.site).status.value.Terminal() then None
    else late
  }

  /** The rows differ in the end time at most, and there as `late` says. */
  ghost predicate Apart(m: Row, p: Row, late: Option<int>) {
    SameButEnd(m, p) && p.call.endedAt == if late.Some? then late else m.call.endedAt
  }

  lemma SiteKeepsApart(m: Row, p: Row, site: Site, now: int, late: Option<int>)
    requires Apart(m, p, late) && Consistent(m)
    requires Settled(m.call) && Settled(p.call)
    requires Guarded(site) && PhasesOk(Write(site, now))
    ensures var a := Write(site, now);
            Apart(Act(Memory, m, a), Act(Postgres, p, a), LateEndAfter(m, a, late))
  {
    SiteKeepsAgreement(m, p, site, now);
    if ApplySite(Memory, m, site, now).Ok? {
      EndTimes(m, p, site, now);
    }
    hide UpdateRow, UpdateOf, Settled, Consistent;
  }

  /** What an accepted write does to the two end times. */
  lemma EndTimes(m: Row, p: Row, site: Site, now: int)
    requires SameButEnd(m, p) && ApplySite(Memory, m, site, now).Ok?
    ensures ApplySite(Postgres, p, site, now).Ok?
    ensures var status := UpdateOf(site).status;
            && ApplySite(Memory, m, site, now).value.call.endedAt ==
               (if status.Some? && status.value.Terminal() then Some(now) else m.call.endedAt)
            && ApplySite(Postgres, p, site, now).value.call.endedAt ==
               (if status.GetOr(m.call.status).Terminal() then Some(now) else p.call.endedAt)
  {
    hide UpdateOf;
  }

  lemma ActKeepsApart(m: Row, p: Row, a: RowAction, late: Option<int>)
    requires Apart(m, p, late) && Consistent(m)
    requires Settled(m.call) && Settled(p.call) && ActionOk(a) && PhasesOk(a)
    ensures Apart(Act(Memory, m, a), Act(Postgres, p, a), LateEndAfter(m, a, late))
  {
    if a.Write? {
      SiteKeepsApart(m, p, a.site, a.now, late);
    } else {
      SpeechKeepsAgreement(m, p, a);
      hide SameButEnd, Consistent, Settled, Strip;
    }
  }

  /** Over any run the rows stay equal but for the end time, and that differs exactly as `LateEnd` says. */
  lemma {:induction false} RunsAgree(m: Row, p: Row, run: seq<RowAction>, late: Option<int>)
    requires Apart(m, p, late) && Consistent(m)
    requires Settled(m.call) && Settled(p.call)
    requires forall a <- run :: ActionOk(a) && PhasesOk(a)
    ensures Apart(Trace(Memory, m, run)[|run|], Trace(Postgres, p, run)[|run|], LateEnd(m, run, late))
    decreases |run|
  {
    hide Act, Settled, Consistent, Apart, ActionOk, PhasesOk, LateEndAfter;
    if run != [] {
      var a := run[0];
      assert ActionOk(a) && PhasesOk(a);
      ActKeepsApart(m, p, a, late);
      ActKeepsConsistent(Memory, m, a);
      ActKeepsSettled(Memory, m, a);
      ActKeepsSettled(Postgres, p, a);
      RunsAgree(Act(Memory, m, a), Act(Postgres, p, a), run[1..], LateEndAfter(m, a, late));
    }
  }

  /** From a new call on, the two repositories hold the same row after every run but for the end time;
      and they hold the same row altogether exactly when no event was logged on the ended call after
      its end was last written, or the last one at that very time. */
  lemma RepositoriesAgree(row: Row, run: seq<RowAction>)
    requires Fresh(row) && row.call.status == Created
    requires forall a <- run :: ActionOk(a) && PhasesOk(a)
    ensures var m, p := Trace(Memory, row, run)[|run|], Trace(Postgres, row, run)[|run|];
            var late := LateEnd(row, run, None);
            && SameButEnd(m, p)
            && (m == p <==> late.None? || late == m.call.endedAt)
  {
    assert TurnsOf(row.events) == [] by {
      TurnsOfAppend([], row.events[0]);
    }
    RunsAgree(row, row, run, None);
    hide Trace, LateEnd, Consistent, Settled;
  }
}
