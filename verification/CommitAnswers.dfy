/** Which answers of authorize_commit are replays. */
module CommitAnswers {
  import opened Base
  import opened Models
  import opened Rows
  import opened CallSites
  import opened WriteBehind
  import P = Policy

  /** An answer is marked as a replay exactly when the same action and payload were answered before. */
  ghost predicate Marked(answers: seq<Answer>) {
    forall i :: 0 <= i < |answers| ==> (answers[i].replay <==> exists j :: 0 <= j < i && answers[j].id == answers[i].id)
  }

  function Verdicts(answers: seq<Answer>): set<(CommitId, bool)> {
    set a | a in answers :: (a.id, a.allowed)
  }

  function Decided(commitments: seq<Commitment>): set<(CommitId, bool)> {
    set c | c in commitments :: (c.id, c.allowed)
  }

  /** The answers given are the verdicts of the hot commitments, and no verdict is given twice. */
  ghost predicate Kept(s: System) {
    var cs, h := s.ctx.hot.commitments, s.ctx.holder;
    && Marked(s.log.answers)
    && Verdicts(s.log.answers) == Decided(cs)
    && (forall i, j :: 0 <= i < j < |cs| ==> cs[i].id != cs[j].id)
    && (h.Committing? ==> forall c <- cs :: c.id != h.commitment.id)
  }

  lemma AnswerMore(answers: seq<Answer>, a: Answer)
    requires Marked(answers)
    requires a.replay <==> exists x <- answers :: x.id == a.id
    ensures Marked(answers + [a])
    ensures Verdicts(answers + [a]) == Verdicts(answers) + {(a.id, a.allowed)}
  {
    var all := answers + [a];
    if a.replay {
      var x :| x in answers && x.id == a.id;
      var j :| 0 <= j < |answers| && answers[j] == x;
      assert all[j].id == all[|answers|].id;
    }
    forall i | 0 <= i < |all| ensures all[i].replay <==> exists j :: 0 <= j < i && all[j].id == all[i].id {
      if i < |answers| {
        assert all[i] == answers[i] && forall j :: 0 <= j < i ==> all[j] == answers[j];
      } else {
        assert forall j :: 0 <= j < i ==> all[j] == answers[j] && answers[j] in answers;
      }
    }
  }

  /** An answer that is given again. */
  lemma ReplayKept(s: System, c: Commitment)
    requires Kept(s) && c in s.ctx.hot.commitments
    ensures Kept(s.(log := s.log.(answers := s.log.answers + [Answer(c.id, c.allowed, true)])))
  {
    assert (c.id, c.allowed) in Decided(s.ctx.hot.commitments);
    var a :| a in s.log.answers && (a.id, a.allowed) == (c.id, c.allowed);
    hide Marked;
    AnswerMore(s.log.answers, Answer(c.id, c.allowed, true));
  }

  lemma AuthorizeKept(s: System, action: string, payload: Fields)
    requires Kept(s) && s.ctx.holder.Nobody?
    ensures Kept(Authorize(s, action, payload))
  {
    var existing := FindCommitment(s.ctx.hot.commitments, CommitId(action, payload));
    if existing.Some? {
      ReplayKept(s, existing.value);
    }
    hide Marked, P.Decide;
  }

  /** The commitment enters the hot state, and its answer is given for the first time. */
  lemma ResumeKept(s: System)
    requires Kept(s) && Resumable(s.ctx)
    ensures Kept(Resume(s))
  {
    var t := Resume(s);
    if t.log.answers != s.log.answers {
      var c, cs := s.ctx.holder.commitment, s.ctx.hot.commitments;
      forall x <- s.log.answers ensures x.id != c.id {
        assert (x.id, x.allowed) in Verdicts(s.log.answers);
      }
      AnswerMore(s.log.answers, Answer(c.id, c.allowed, false));
      assert Decided(cs + [c]) == Decided(cs) + {(c.id, c.allowed)};
    }
    hide Marked, Verdicts, Decided;
  }

  lemma ToolsKeepCommitments(backend: Backend, s: System, a: Action)
    requires Enabled(s, a)
    requires a.DoRecordFact? || a.DoPropose? || a.DoSave? || a.DoFinishCall? || a.DoFinishUnlocked? || a.DoHear?
    ensures var t := Next(backend, s, a);
            && t.ctx.hot.commitments == s.ctx.hot.commitments && t.log.answers == s.log.answers
            && (t.ctx.holder == s.ctx.holder || !t.ctx.holder.Committing?)
  {
    hide P.Decide, Strip, WriterStep, WorkerWrite, Ask, WriteCompleting, WriteCompleted;
  }

  lemma OthersKeepCommitments(backend: Backend, s: System, a: Action)
    requires Enabled(s, a) && !a.DoAuthorize? && !a.DoResume?
    ensures var t := Next(backend, s, a);
            && t.ctx.hot.commitments == s.ctx.hot.commitments && t.log.answers == s.log.answers
            && (t.ctx.holder == s.ctx.holder || !t.ctx.holder.Committing?)
  {
    if a.DoRecordFact? || a.DoPropose? || a.DoSave? || a.DoFinishCall? || a.DoFinishUnlocked? || a.DoHear? {
      ToolsKeepCommitments(backend, s, a);
      hide Next;
    } else {
      hide RecordFact, Propose, Save, FinishCall, FinishUnlocked, Hear, Authorize, Resume;
      hide ApplySite, UpdateOf, Perform, Settle;
    }
  }

  lemma {:induction false} RunKept(backend: Backend, s: System, run: seq<Action>)
    requires Kept(s) && Valid(backend, s, run)
    ensures Kept(After(backend, s, run))
    decreases |run|
  {
    if run != [] {
      var a := run[0];
      if a.DoAuthorize? {
        AuthorizeKept(s, a.action, a.payload);
      } else if a.DoResume? {
        ResumeKept(s);
      } else {
        OthersKeepCommitments(backend, s, a);
      }
      hide Marked, Verdicts, Decided, Resume, Authorize, WriterStep, RecordFact, Propose, Save, Hear;
      assert Kept(Next(backend, s, a));
      hide Next, Enabled, Kept;
      RunKept(backend, Next(backend, s, a), run[1..]);
    }
  }

  /** Over every run: an answer is marked as a replay exactly when the same action and payload were
      answered before, and then with the same verdict. */
  lemma ReplaysAreMarked(backend: Backend, s: System, run: seq<Action>, i: nat)
    requires Initial(s) && Valid(backend, s, run)
    requires i < |After(backend, s, run).log.answers|
    ensures var answers := After(backend, s, run).log.answers;
            && (answers[i].replay <==> exists j :: 0 <= j < i && answers[j].id == answers[i].id)
            && (forall j :: 0 <= j < i && answers[j].id == answers[i].id ==> answers[j].allowed == answers[i].allowed)
  {
    RunKept(backend, s, run);
    var t := After(backend, s, run);
    var answers := t.log.answers;
    hide Initial, Valid, After;
    forall j | 0 <= j < i && answers[j].id == answers[i].id ensures answers[j].allowed == answers[i].allowed {
      assert (answers[i].id, answers[i].allowed) in Verdicts(answers);
      assert (answers[j].id, answers[j].allowed) in Verdicts(answers);
    }
  }
}
