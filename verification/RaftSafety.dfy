/** Every step of every run of the cluster keeps the invariant. */
module RaftSafety {
  import opened RaftLog
  import opened RaftNodes
  import opened Workers
  import opened RaftCluster

  lemma LibraryKeeps(agreed: seq<Entry>, id: nat, n: Node, n': Node)
    requires NodeInv(agreed, id, n) && NodeNext(agreed, id, n, LibraryStep, n')
    ensures NodeInv(agreed, id, n')
  {
    assert n'.raw.log[..n'.raw.persisted] == n.view.stored[..n'.raw.persisted] by {
      assert n.raw.log[..n.raw.persisted][..n'.raw.persisted] == n.raw.log[..n'.raw.persisted];
      assert n.view.stored[..n.raw.persisted][..n'.raw.persisted] == n.view.stored[..n'.raw.persisted];
    }
  }

  lemma TakeKeeps(agreed: seq<Entry>, id: nat, n: Node, ready: Ready, n': Node)
    requires NodeInv(agreed, id, n) && NodeNext(agreed, id, n, Take(ready), n')
    ensures NodeInv(agreed, id, n')
  {
    assert agreed[n.applied..n.raw.handed] == [];
    assert n.applied == n.raw.handed;
    assert ready.committed == agreed[n.raw.handed..n'.raw.handed] by {
      CommittedSlice(agreed, n.raw, n.raw.handed, n'.raw.handed);
    }
  }

  lemma CommittedSlice(agreed: seq<Entry>, raw: Raw, a: nat, b: nat)
    requires CommittedIsAgreed(agreed, raw) && a <= b <= raw.committed
    ensures raw.log[a..b] == agreed[a..b]
  {
    assert raw.log[..raw.committed][a..b] == raw.log[a..b];
    assert agreed[..raw.committed][a..b] == agreed[a..b];
  }

  lemma StoreHardStateKeeps(agreed: seq<Entry>, id: nat, n: Node, n': Node)
    requires NodeInv(agreed, id, n) && NodeNext(agreed, id, n, StoreHardState, n')
    ensures NodeInv(agreed, id, n')
  {
  }

  lemma StoreEntriesKeeps(agreed: seq<Entry>, id: nat, n: Node, n': Node)
    requires NodeInv(agreed, id, n) && NodeNext(agreed, id, n, StoreEntries, n')
    ensures NodeInv(agreed, id, n')
    ensures n'.phase.EntriesStored?
  {
    WritingCompletesTheLog(n.raw.log, n.raw.persisted, n.view, n.phase.ready.entries);
    assert n'.view.hard == n.view.hard && n'.view.store == n.view.store;
    assert SeenOk(agreed, n') by {
      SeenSurvivesProgress(agreed, n, n');
    }
  }

  /** The entries of a Ready bring storage up to the library's whole log. */
  lemma WritingCompletesTheLog(log: seq<Entry>, persisted: nat, v: NodeView, es: seq<Entry>)
    requires WellIndexed(log) && persisted <= |v.stored| && persisted <= |log|
    requires v.stored[..persisted] == log[..persisted]
    requires |es| <= |log| <= persisted + |es| && es == log[|log| - |es|..]
    ensures Appendable(v.stored, es)
    ensures var stored := EntriesWritten(v, es).stored;
            && |log| <= |stored| && stored[..|log|] == log
            && stored[..persisted] == log[..persisted]
            && InStorage(stored, es)
  {
    if es != [] {
      var start := |log| - |es|;
      assert es[0] == log[start];
      TakeOfTake(v.stored, persisted, start);
      TakeOfTake(log, persisted, start);
      assert log[..start] + es == log;
    }
  }

  lemma TakeOfTake<T>(s: seq<T>, n: nat, k: nat)
    requires k <= n <= |s|
    ensures s[..n][..k] == s[..k]
  {
  }

  lemma StoreCommitKeeps(agreed: seq<Entry>, id: nat, n: Node, n': Node)
    requires NodeInv(agreed, id, n) && NodeNext(agreed, id, n, StoreCommit, n')
    ensures NodeInv(agreed, id, n')
  {
  }

  lemma AcknowledgeKeeps(agreed: seq<Entry>, id: nat, n: Node, light: LightReady, n': Node)
    requires NodeInv(agreed, id, n) && NodeNext(agreed, id, n, Acknowledge(light), n')
    ensures NodeInv(agreed, id, n')
  {
    assert n.applied == n.raw.handed by {
      assert agreed[n.applied..n.raw.handed] == [];
    }
    CommittedSlice(agreed, n'.raw, n.raw.handed, n'.raw.handed);
  }

  /** Applying a batch that is in hand extends the replayed prefix by that batch. */
  lemma ApplyExtends(agreed: seq<Entry>, id: nat, n: Node, es: seq<Entry>, next: Phase)
    requires WellIndexed(agreed) && AppliedOk(agreed, n) && es == agreed[n.applied..n.raw.handed]
    ensures var n' := Apply(n, es, next);
            && n.applied <= n'.applied <= n.raw.handed
            && n'.view.store == Replay(agreed[..n'.applied])
            && (n'.phase == next || n'.phase.Halted?)
            && (DecodablePrefix(es) == es ==> n'.applied == n.raw.handed)
            && Reports(id, agreed[..n.applied]) <= Reports(id, agreed[..n'.applied])
            && (DecodablePrefix(es) == es ==>
                  Reports(id, agreed[..n'.applied]) == Reports(id, agreed[..n.applied]) + Reports(id, es))
  {
    var good := DecodablePrefix(es);
    SlicePrefix(agreed, n.applied, n.raw.handed, good);
    ApplyInBatches(map[], agreed[..n.applied], good);
    ReportsInBatches(id, agreed[..n.applied], good);
  }

  lemma SlicePrefix<T>(s: seq<T>, a: nat, b: nat, part: seq<T>)
    requires a <= b <= |s| && part <= s[a..b]
    ensures s[..a + |part|] == s[..a] + part
  {
    assert part == s[a..b][..|part|];
  }

  lemma SeenSurvivesProgress(agreed: seq<Entry>, n: Node, n': Node)
    requires n.applied <= n'.applied <= |agreed|
    requires SeenOk(agreed, n) && n'.seen == n.seen && n'.notified == n.notified
    ensures SeenOk(agreed, n')
  {
    forall i | 0 <= i < |n'.seen|
      ensures FactOk(agreed, n', n'.seen[i])
    {
      assert FactOk(agreed, n, n.seen[i]);
    }
  }

  lemma ApplyReadyKeeps(agreed: seq<Entry>, id: nat, n: Node, n': Node)
    requires NodeInv(agreed, id, n) && NodeNext(agreed, id, n, ApplyReady, n')
    ensures NodeInv(agreed, id, n')
  {
    var es := n.phase.ready.committed;
    ApplyExtends(agreed, id, n, es, ReadyApplied(n.phase.ready, Reports(id, es)));
    SeenSurvivesProgress(agreed, n, n');
    assert Unhandled(n.phase) == [] && n.notified + [] == n.notified;
    assert n'.applied == n.raw.handed ==> agreed[n'.applied..n.raw.handed] == [];
  }

  lemma ApplyLightKeeps(agreed: seq<Entry>, id: nat, n: Node, n': Node)
    requires NodeInv(agreed, id, n) && NodeNext(agreed, id, n, ApplyLight, n')
    ensures NodeInv(agreed, id, n')
  {
    LightExtends(agreed, id, n, n');
    SeenSurvivesProgress(agreed, n, n');
    ReportsSurviveLight(agreed, id, n, n');
  }

  lemma LightExtends(agreed: seq<Entry>, id: nat, n: Node, n': Node)
    requires AppliedOk(agreed, n) && WellIndexed(agreed) && NodeNext(agreed, id, n, ApplyLight, n')
    ensures n.applied <= n'.applied && AppliedOk(agreed, n')
  {
    ApplyExtends(agreed, id, n, n.phase.light.committed, LightApplied(id, n.phase));
  }

  lemma ReportsSurviveLight(agreed: seq<Entry>, id: nat, n: Node, n': Node)
    requires AppliedOk(agreed, n) && WellIndexed(agreed) && ReportsOk(agreed, id, n)
    requires NodeNext(agreed, id, n, ApplyLight, n')
    ensures n'.applied <= |agreed| && ReportsOk(agreed, id, n')
  {
    ApplyExtends(agreed, id, n, n.phase.light.committed, LightApplied(id, n.phase));
    ReportsAfterApply(n.notified, n.phase.reports, Reports(id, n.phase.light.committed),
                      Reports(id, agreed[..n.applied]), Reports(id, agreed[..n'.applied]));
  }

  function LightApplied(id: nat, p: Phase): Phase
    requires p.CommitStored?
  {
    Delivering(p.ready, p.light, p.ready.messages + p.ready.persistedMessages + p.light.messages,
               p.reports + Reports(id, p.light.committed))
  }

  lemma ReportsAfterApply<T>(notified: seq<T>, unhandled: seq<T>, more: seq<T>, before: seq<T>, after: seq<T>)
    requires notified <= before <= after
    ensures notified <= after
    ensures notified + unhandled == before && after == before + more ==> notified + (unhandled + more) == after
  {
  }

  lemma QuietKeeps(agreed: seq<Entry>, id: nat, n: Node, step: Step, n': Node)
    requires NodeInv(agreed, id, n) && NodeNext(agreed, id, n, step, n')
    requires step.Dispatch? || step.FinishBundle?
    ensures NodeInv(agreed, id, n')
  {
    SeenSurvivesProgress(agreed, n, n');
    assert Unhandled(n'.phase) == Unhandled(n.phase);
  }

  lemma HaltKeeps(agreed: seq<Entry>, id: nat, n: Node, n': Node)
    requires NodeInv(agreed, id, n) && NodeNext(agreed, id, n, Halt, n')
    ensures NodeInv(agreed, id, n')
  {
    SeenSurvivesProgress(agreed, n, n');
  }

  lemma PutKeeps(agreed: seq<Entry>, id: nat, n: Node, req: Request, lib: Library, n': Node)
    requires NodeInv(agreed, id, n) && NodeNext(agreed, id, n, ReceivePut(req, lib), n')
    ensures NodeInv(agreed, id, n')
  {
    SeenSurvivesProgress(agreed, n, n');
  }

  lemma NotifyKeeps(agreed: seq<Entry>, id: nat, n: Node, n': Node)
    requires NodeInv(agreed, id, n) && NodeNext(agreed, id, n, NotifyPut, n')
    ensures NodeInv(agreed, id, n')
  {
    AnswersSurviveNotify(agreed, id, n, n');
  }

  lemma AnswersSurviveNotify(agreed: seq<Entry>, id: nat, n: Node, n': Node)
    requires WellIndexed(agreed) && n.applied == n'.applied <= |agreed|
    requires ReportsOk(agreed, id, n) && SeenOk(agreed, n)
    requires n.phase.Delivering? && n.phase.reports != []
    requires n'.notified == n.notified + [n.phase.reports[0]] && n'.seen == Record(n, n.phase.reports[0])
    requires n'.phase == n.phase.(reports := n.phase.reports[1..])
    ensures ReportsOk(agreed, id, n') && SeenOk(agreed, n')
  {
    var r := n.phase.reports[0];
    HandOver(n.notified, n.phase.reports, Reports(id, agreed[..n.applied]));
    NextReportIsAgreed(agreed, id, n.applied, n.notified, r);
    SeenAfterNotify(agreed, n, n', r);
  }

  lemma HandOver<T>(done: seq<T>, todo: seq<T>, all: seq<T>)
    requires todo != [] && done + todo == all
    ensures done + [todo[0]] + todo[1..] == all
    ensures done + [todo[0]] <= all
  {
  }

  lemma NextReportIsAgreed(agreed: seq<Entry>, id: nat, applied: nat, notified: seq<ApplyReport>, r: ApplyReport)
    requires WellIndexed(agreed) && applied <= |agreed| && notified + [r] <= Reports(id, agreed[..applied])
    ensures 1 <= r.index <= applied && IsPut(agreed[r.index - 1], r.key, r.value)
    ensures notified != [] ==> notified[|notified| - 1].index < r.index
  {
    NextReport(agreed[..applied], id, notified, r);
    assert agreed[..applied][r.index - 1] == agreed[r.index - 1];
  }

  /** The report that follows the notified ones names a later entry than any of them. */
  lemma NextReport(es: seq<Entry>, id: nat, notified: seq<ApplyReport>, r: ApplyReport)
    requires WellIndexed(es) && notified + [r] <= Reports(id, es)
    ensures 1 <= r.index <= |es| && IsPut(es[r.index - 1], r.key, r.value)
    ensures notified != [] ==> notified[|notified| - 1].index < r.index
  {
    var all, k := Reports(id, es), |notified|;
    ReportsFollowTheLog(id, es);
    assert all[k] == r;
    if k > 0 {
      assert all[k - 1] == notified[k - 1];
    }
  }

  lemma SeenAfterNotify(agreed: seq<Entry>, n: Node, n': Node, r: ApplyReport)
    requires n.applied == n'.applied <= |agreed| && SeenOk(agreed, n)
    requires n'.seen == Record(n, r) && n'.notified == n.notified + [r]
    requires 1 <= r.index <= n.applied && IsPut(agreed[r.index - 1], r.key, r.value)
    requires n.notified != [] ==> n.notified[|n.notified| - 1].index < r.index
    ensures SeenOk(agreed, n')
  {
    forall i | 0 <= i < |n.seen|
      ensures FactOk(agreed, n', n.seen[i])
      ensures n.seen[i].PutOk? ==> n.seen[i].index < r.index
    {
      assert FactOk(agreed, n, n.seen[i]);
    }
  }

  lemma GetKeeps(agreed: seq<Entry>, id: nat, n: Node, key: string, n': Node)
    requires NodeInv(agreed, id, n) && NodeNext(agreed, id, n, ReceiveGet(key), n')
    ensures NodeInv(agreed, id, n')
  {
    forall i | 0 <= i < |n'.seen|
      ensures FactOk(agreed, n', n'.seen[i])
    {
      if i < |n.seen| {
        assert FactOk(agreed, n, n.seen[i]);
      }
    }
    forall i, j | 0 <= i < j < |n'.seen|
      ensures Ordered(n'.seen[i], n'.seen[j])
    {
      assert FactOk(agreed, n, n.seen[i]);
    }
  }

  lemma NodeStepKeeps(agreed: seq<Entry>, id: nat, n: Node, step: Step, n': Node)
    requires NodeInv(agreed, id, n) && NodeNext(agreed, id, n, step, n')
    ensures NodeInv(agreed, id, n')
  {
    match step
    case LibraryStep => LibraryKeeps(agreed, id, n, n');
    case Take(ready) => TakeKeeps(agreed, id, n, ready, n');
    case StoreHardState => StoreHardStateKeeps(agreed, id, n, n');
    case StoreEntries => StoreEntriesKeeps(agreed, id, n, n');
    case ApplyReady => ApplyReadyKeeps(agreed, id, n, n');
    case Acknowledge(light) => AcknowledgeKeeps(agreed, id, n, light, n');
    case StoreCommit => StoreCommitKeeps(agreed, id, n, n');
    case ApplyLight => ApplyLightKeeps(agreed, id, n, n');
    case NotifyPut => NotifyKeeps(agreed, id, n, n');
    case ReceivePut(req, lib) => PutKeeps(agreed, id, n, req, lib, n');
    case Halt => HaltKeeps(agreed, id, n, n');
    case ReceiveGet(key) => GetKeeps(agreed, id, n, key, n');
    case _ => QuietKeeps(agreed, id, n, step, n');
  }

  /** Agreement on more entries changes nothing for a node. */
  lemma AgreementKeeps(agreed: seq<Entry>, more: seq<Entry>, id: nat, n: Node)
    requires NodeInv(agreed, id, n) && WellIndexed(agreed + more)
    ensures NodeInv(agreed + more, id, n)
  {
    var all := agreed + more;
    assert all[..n.raw.committed] == agreed[..n.raw.committed];
    assert all[..n.applied] == agreed[..n.applied];
    assert all[n.applied..n.raw.handed] == agreed[n.applied..n.raw.handed];
    forall i | 0 <= i < |n.seen|
      ensures FactOk(all, n, n.seen[i])
    {
      assert FactOk(agreed, n, n.seen[i]);
      if n.seen[i].GetAnswer? {
        assert all[..n.seen[i].at] == agreed[..n.seen[i].at];
      }
    }
  }

  lemma NextKeeps(c: Cluster, a: Action, c': Cluster)
    requires Inv(c) && Next(c, a, c')
    ensures Inv(c')
  {
    match a
    case Agree(es, _) =>
      forall i | 0 <= i < |c'.nodes|
        ensures NodeInv(c'.agreed, i, c'.nodes[i])
      {
        AgreementKeeps(c.agreed, es, i, c.nodes[i]);
      }
    case NodeStep(id, step) =>
      NodeStepKeeps(c.agreed, id, c.nodes[id], step, c'.nodes[id]);
  }

  lemma InitHolds(c: Cluster)
    requires Init(c)
    ensures Inv(c)
  {
  }

  lemma {:induction false} RunKeeps(run: seq<Cluster>, actions: seq<Action>, i: nat)
    requires IsRun(run, actions) && i < |run|
    ensures Inv(run[i])
  {
    if i == 0 {
      InitHolds(run[0]);
    } else {
      RunKeeps(run, actions, i - 1);
      assert StepAt(run, actions, i - 1);
      NextKeeps(run[i - 1], actions[i - 1], run[i]);
    }
  }
}
