/** Where the code departs from its evident intent: exact conditions, and inputs on which it does. */
module Departures {
  import opened Text
  import opened Types
  import opened Wire
  import opened HostConfigs
  import opened StateMachines
  import opened Schedulers
  import opened Protocol
  import opened Counters
  import opened Identity
  import opened Disks
  import opened Invariants
  import opened Runs
  import opened Safety

  // ---------------------------------------------------------------- the staging counters

  /** All staging counters equal the number of records on their way, unless a failure was reported of a task that was
      WAITING_OSDID or STARTING. */
  lemma StagingExactUnlessFailedLate(ws: seq<World>, es: seq<Event>, i: nat)
    requires IsRun(ws, es) && i < |ws|
    ensures var c := ws[i].sched.c;
            (forall t :: Of(c, t).staging == |StagingOf(c.tasks, t)|)
            <==> !exists j, k :: j < i && FailedUncounted(ws, es, j, k)
  {
    hide IsRun, FailedUncounted, Of, StagingOf, Logged, DisksSound, ExchangeSound;
    var c, stuck := ws[i].sched.c, ws[i].stuck;
    forall t ensures Of(c, t).staging == |StagingOf(c.tasks, t)| + |StuckOf(c.tasks, stuck, t)|
                     && (t != OSD ==> StuckOf(c.tasks, stuck, t) == {})
    {
      CountersAreACensus(ws, es, i, t);
    }
    RunsAreSound(ws, es, i);
    assert StuckOf(c.tasks, stuck, OSD) == stuck;
    assert (forall t :: Of(c, t).staging == |StagingOf(c.tasks, t)|) <==> |stuck| == 0 by {
      assert Of(c, OSD).staging == |StagingOf(c.tasks, OSD)| + |stuck|;
    }
    if j, k :| j < i && FailedUncounted(ws, es, j, k) {
      StuckMeaning(ws, es, i, k);
    } else {
      forall k ensures k !in stuck {
        StuckMeaning(ws, es, i, k);
      }
      assert stuck == {};
    }
  }

  // ---------------------------------------------------------------- disk reports

  /** Two failed journals arrive as one device that does not exist. */
  lemma GluedJournalsExample()
    ensures ReadDiskNews(Some(DiskReadyText("node1", [], ["sdb", "sdc"])))
            == Ready("node1", ["sdbsdc"])
  {
    hide ReadDiskNews, DiskReadyText;
    var jnl := ["sdb", "sdc"];
    DiskReadyDecodes("node1", [], jnl);
    GluedTwo("sdb", "sdc");
    assert "sdb" + "sdc" == "sdbsdc";
  }

  lemma GluedTwo(a: string, b: string)
    ensures GluedList([], [a, b]) == [a + b]
  {
    assert [a, b][..1] == [a] && [a][..0] == [];
    assert Concatenated([a]) == Concatenated([]) + a == a;
    assert Concatenated([a, b]) == Concatenated([a]) + b;
  }

  /** A report from a host with a full domain name is attributed to another host, or to none. */
  lemma DottedHostExample(osd: seq<string>, jnl: seq<string>)
    ensures var news := ReadDiskNews(Some(DiskReadyText("node1.example.org", osd, jnl)));
            news.Ready? ==> news.hostname != "node1.example.org"
  {
    assert "node1.example.org"[5] == '.';
    DottedHostIsCut("node1.example.org", osd, jnl);
  }

  /** A device whose formatting failed ends up in the pool. */
  lemma FailedDeviceIsPooled(s: Sched, hostname: string, dev: string)
    requires hostname in s.hosts && s.hosts[hostname] == NewHost(HostSpec([dev], [], 1)).(preparing := true)
    requires Free(hostname, ".:") && Free(dev, ".:,")
    ensures var s' := StatusUpdate(s, "", Finished(Some(DiskReadyText(hostname, [dev], []))));
            s'.hosts[hostname].osdParts == [dev + "1"] && s'.hosts[hostname].failedOsd == []
  {
    DiskReadyDecodes(hostname, [dev], []);
    SinglePartition(dev);
    assert [dev][..0] == [];
    assert Partitions([dev], [], 1) == Partitions([], [], 1) + DevicePartitions(dev, 1);
    assert Failing([dev], []) == Failing([], []);
  }
}
