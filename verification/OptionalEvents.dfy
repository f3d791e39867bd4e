/** Optional events flow on: the other half of failing stop. */
module OptionalEvents {
  import opened Base
  import opened Models
  import opened Rows
  import opened CallSites
  import opened WriteBehind
  import opened QueueStates
  import opened CommitSafety
  import opened CommitRuns
  import A = Accounting
  import P = Policy

  function Optional(items: seq<Item>): seq<Item> {
    if items == [] then []
    else
      var last := items[|items| - 1];
      Optional(items[..|items| - 1]) + if last.required then [] else [last]
  }

  /** The optional item that a step of the writer takes off the queue. */
  function TakenOptional(s: System, a: Action): seq<Item>
    requires Enabled(s, a)
  {
    if a.DoWriter? && s.ctx.queue[0].Work? && !s.ctx.queue[0].item.required then [s.ctx.queue[0].item] else []
  }

  /** The optional items a run takes off the queue, in order. */
  function TakenAlong(backend: Backend, s: System, run: seq<Action>): seq<Item>
    requires Valid(backend, s, run)
    decreases |run|
  {
    if run == [] then [] else TakenOptional(s, run[0]) + TakenAlong(backend, Next(backend, s, run[0]), run[1..])
  }

  /** Those of them whose repository call was not lost. */
  function KeptAlong(backend: Backend, s: System, run: seq<Action>): seq<Item>
    requires Valid(backend, s, run)
    decreases |run|
  {
    if run == [] then []
    else
      (if run[0].DoWriter? && run[0].fate.Lost? then [] else TakenOptional(s, run[0]))
      + KeptAlong(backend, Next(backend, s, run[0]), run[1..])
  }

  lemma OptionalPush(items: seq<Item>, item: Item)
    ensures Optional(items + [item]) == Optional(items) + if item.required then [] else [item]
  {
    assert (items + [item])[..|items|] == items;
  }

  /** One step: nothing but a lost call keeps an optional item from landing, and its event from the log. */
  lemma StepKeepsOptional(backend: Backend, s: System, a: Action)
    requires Safe(ViewOf(s)) && Enabled(s, a)
    ensures var t := Next(backend, s, a);
            && Optional(t.log.handled) == Optional(s.log.handled) + TakenOptional(s, a)
            && Optional(t.log.landed) ==
               Optional(s.log.landed) + if a.DoWriter? && a.fate.Lost? then [] else TakenOptional(s, a)
  {
    if a.DoWriter? {
      WriterKeepsOptional(backend, s, a.fate, a.now);
    } else {
      hide P.Decide, FindCommitment, Strip, ApplySite, Safe, Optional, Push, PushWaiting;
      LogStays(backend, s, a);
    }
  }

  lemma LogStays(backend: Backend, s: System, a: Action)
    requires Enabled(s, a) && !a.DoWriter?
    ensures Next(backend, s, a).log.handled == s.log.handled && Next(backend, s, a).log.landed == s.log.landed
  {
    hide P.Decide, FindCommitment, Strip, ApplySite;
  }

  /** An optional item always lands unless its call is lost: it expects no status. */
  lemma OptionalLands(backend: Backend, s: System, fate: Fate, now: int)
    requires Safe(ViewOf(s)) && s.ctx.queue != [] && !s.ctx.stopped
    requires s.ctx.queue[0].Work? && !s.ctx.queue[0].item.required
    ensures var item := s.ctx.queue[0].item;
            WriterStep(backend, s, fate, now).log.landed == if fate.Lost? then s.log.landed else s.log.landed + [item]
  {
    var e := s.ctx.queue[0];
    assert e in s.ctx.queue && Queueable(e.item);
    UpdateEffect(backend, s.row, UpdateOf(e.item.op.site), now);
    hide UpdateRow, AppendTurn, Safe, Settle;
  }

  lemma WriterKeepsOptional(backend: Backend, s: System, fate: Fate, now: int)
    requires Safe(ViewOf(s)) && s.ctx.queue != [] && !s.ctx.stopped
    ensures var t := WriterStep(backend, s, fate, now);
            var taken := TakenOptional(s, DoWriter(fate, now));
            && Optional(t.log.handled) == Optional(s.log.handled) + taken
            && Optional(t.log.landed) == Optional(s.log.landed) + if fate.Lost? then [] else taken
  {
    hide Safe, Optional;
    if s.ctx.queue[0].Work? {
      var item := s.ctx.queue[0].item;
      A.WriterLog(backend, s, fate, now);
      if !item.required {
        OptionalLands(backend, s, fate, now);
      }
      hide WriterStep;
      OptionalPush(s.log.handled, item);
      OptionalPush(s.log.landed, item);
    }
  }

  /** Over every run, whatever required writes have failed before: the optional items that took effect
      are, in order, exactly those that were handled and whose own repository call was not lost. */
  lemma OptionalStillFlows(backend: Backend, s: System, run: seq<Action>)
    requires Initial(s) && Valid(backend, s, run)
    ensures var t := After(backend, s, run);
            && Optional(t.log.handled) == TakenAlong(backend, s, run)
            && Optional(t.log.landed) == KeptAlong(backend, s, run)
  {
    RunKeepsOptional(backend, s, run);
    hide After, TakenAlong, KeptAlong, Valid;
    assert Optional([]) == [];
    assert [] + TakenAlong(backend, s, run) == TakenAlong(backend, s, run);
    assert [] + KeptAlong(backend, s, run) == KeptAlong(backend, s, run);
  }

  lemma {:induction false} RunKeepsOptional(backend: Backend, s: System, run: seq<Action>)
    requires Safe(ViewOf(s)) && Valid(backend, s, run)
    ensures var t := After(backend, s, run);
            && Optional(t.log.handled) == Optional(s.log.handled) + TakenAlong(backend, s, run)
            && Optional(t.log.landed) == Optional(s.log.landed) + KeptAlong(backend, s, run)
    decreases |run|
  {
    hide Safe, Optional, TakenOptional;
    if run == [] {
      Regroup(Optional(s.log.handled), [], []);
      Regroup(Optional(s.log.landed), [], []);
    } else {
      var m := Next(backend, s, run[0]);
      StepKeepsOptional(backend, s, run[0]);
      NextKeepsSafe(backend, s, run[0]);
      hide Next, Enabled;
      RunKeepsOptional(backend, m, run[1..]);
      var taken := TakenOptional(s, run[0]);
      var kept := if run[0].DoWriter? && run[0].fate.Lost? then [] else taken;
      Regroup(Optional(s.log.handled), taken, TakenAlong(backend, m, run[1..]));
      Regroup(Optional(s.log.landed), kept, KeptAlong(backend, m, run[1..]));
    }
  }

  lemma Regroup(a: seq<Item>, b: seq<Item>, c: seq<Item>)
    ensures a + b + c == a + (b + c) && a + [] == a
  {
  }
}
