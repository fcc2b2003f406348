/**
 Properties of whole runs: what a second run over the same working set does,
 how the first run (no baseline file) routes, which property a post goes to,
 and a three-user scenario worked through.
 */
module RunProperties {
  import opened Wrappers
  import opened Hits
  import opened Store
  import opened Transport
  import opened Runner

  /**
   Running again over the same working set does not skip anyone: the first
   run left every user id in the baseline, so each dedup check now says
   "known", both guarded branches fail, and every user is posted again
   through the web sender.
   */
  lemma SecondRunResendsAll(job: Job, file: FileState, matches: (seq<Row>, string) -> bool,
                            first: seq<string>, second: seq<string>)
    requires Enumerates(first, UidColumn(job.regs))
    requires Enumerates(second, UidColumn(job.regs))
    requires RunSpec(job, file, matches, first).status == Finished
    ensures var again := RunSpec(job, RunSpec(job, file, matches, first).file, matches, second);
      && again.status == Finished
      && |again.sends| == |UidColumn(job.regs)| > 0
      && forall i :: 0 <= i < |again.sends| ==> again.sends[i].sender == SenderFor(job, Web)
  {
    var r1 := RunSpec(job, file, matches, first);
    var baseline := LoadBaseline(r1.file, RegsColumns).0;
    assert baseline == Table(RegsColumns, job.regs);
    assert "uid" in RegsColumns;
    assert job.regs[0].uid in UidColumn(job.regs);
    var again := RunSpec(job, r1.file, matches, second);
    forall i | 0 <= i < |again.sends|
      ensures again.sends[i].sender == SenderFor(job, Web)
    {
      assert second[i] in UidColumn(baseline.rows);
      KnownUserGoesWeb(job, r1.file, matches, second, i);
    }
  }

  /**
   On the first run (no baseline file) every user counts as new, so each
   post goes through the channel its campaign tag selects.
   */
  lemma FirstRunRoutesByTag(job: Job, matches: (seq<Row>, string) -> bool, order: seq<string>)
    requires Enumerates(order, UidColumn(job.regs))
    requires job.regs != []
    ensures var r := RunSpec(job, Absent, matches, order);
      && r.status == Finished
      && forall i :: 0 <= i < |r.sends| ==>
           r.sends[i].sender == SenderFor(job, Route(true, Select(job.regs, order[i]), matches))
  {
    assert "uid" in RegsColumns;
  }

  /**
   When the three configured property ids differ, the property a post goes
   to tells its branch: android exactly for a new user whose tag matches the
   android marker, iOS exactly for a new user matching only the iOS marker,
   web for everyone else, known users included.
   */
  lemma PostedPropertyIdentifiesBranch(job: Job, file: FileState, matches: (seq<Row>, string) -> bool,
                                       order: seq<string>, i: int)
    requires Enumerates(order, UidColumn(job.regs))
    requires job.constants.uaAndroid != job.constants.uaIos
    requires job.constants.uaAndroid != job.constants.uaWeb
    requires job.constants.uaIos != job.constants.uaWeb
    requires RunSpec(job, file, matches, order).status == Finished
    requires 0 <= i < |order|
    ensures var r := RunSpec(job, file, matches, order);
      var isNew := order[i] !in UidColumn(LoadBaseline(file, RegsColumns).0.rows);
      var event := Select(job.regs, order[i]);
      && (r.sends[i].payload[Tid] == Text(job.constants.uaAndroid) <==> isNew && matches(event, AndroidMarker))
      && (r.sends[i].payload[Tid] == Text(job.constants.uaIos) <==> isNew && !matches(event, AndroidMarker) && matches(event, IosMarker))
      && (r.sends[i].payload[Tid] == Text(job.constants.uaWeb) <==> !isNew || (!matches(event, AndroidMarker) && !matches(event, IosMarker)))
  {
    var baseline := LoadBaseline(file, RegsColumns).0;
    var event := Select(job.regs, order[i]);
    var ch := Route(order[i] !in UidColumn(baseline.rows), event, matches);
    assert RunSpec(job, file, matches, order).sends[i] == HitFor(job, baseline, matches, order[i]);
    RegistrationHitFacts(job, event, ch);
  }

  /**
   Every post names, in its `tid` field, the very property its sender was
   built for: the hit and the sender of a branch always agree.
   */
  lemma PostedToOwnProperty(job: Job, file: FileState, matches: (seq<Row>, string) -> bool,
                            order: seq<string>, i: int)
    requires Enumerates(order, UidColumn(job.regs))
    requires job.regs != [] && "uid" in LoadBaseline(file, RegsColumns).0.columns
    requires 0 <= i < |order|
    ensures var post := RunSpec(job, file, matches, order).sends[i];
      post.payload[Tid] == Text(post.sender.property)
  {
    var baseline := LoadBaseline(file, RegsColumns).0;
    var event := Select(job.regs, order[i]);
    var ch := Route(order[i] !in UidColumn(baseline.rows), event, matches);
    assert RunSpec(job, file, matches, order).sends[i] == HitFor(job, baseline, matches, order[i]);
    RegistrationHitFacts(job, event, ch);
  }

  /**
   A user id the loaded baseline already lists is posted through the web
   sender, whatever its campaign tag says.
   */
  lemma KnownUserGoesWeb(job: Job, file: FileState, matches: (seq<Row>, string) -> bool,
                         order: seq<string>, i: int)
    requires Enumerates(order, UidColumn(job.regs))
    requires job.regs != [] && "uid" in LoadBaseline(file, RegsColumns).0.columns
    requires 0 <= i < |order|
    requires order[i] in UidColumn(LoadBaseline(file, RegsColumns).0.rows)
    ensures RunSpec(job, file, matches, order).sends[i].sender == SenderFor(job, Web)
  {
  }

  /** The user ids of a three-row table. */
  lemma UidsOfThreeRows(regs: seq<Row>)
    requires |regs| == 3
    ensures UidColumn(regs) == {regs[0].uid, regs[1].uid, regs[2].uid}
  {
    assert regs == [regs[0], regs[1], regs[2]];
  }

  /** Three pairwise different ids form a set of three. */
  lemma ThreeDistinct(a: string, b: string, c: string)
    requires a != b && a != c && b != c
    ensures |{a, b, c}| == 3
  {
    assert {a, b, c} == {a, b} + {c};
    assert |{a, b}| == 2;
  }

  /**
   Three rows with distinct user ids, the first of them already in the
   baseline: the run makes three posts, not two, the known user's post going
   through the web sender, and afterwards the baseline lists all three ids.
   */
  lemma ThreeUsersOneKnown(job: Job, matches: (seq<Row>, string) -> bool, order: seq<string>, k: int)
    requires |job.regs| == 3
    requires job.regs[0].uid != job.regs[1].uid && job.regs[0].uid != job.regs[2].uid && job.regs[1].uid != job.regs[2].uid
    requires Enumerates(order, UidColumn(job.regs))
    requires 0 <= k < |order| && order[k] == job.regs[0].uid
    ensures var r := RunSpec(job, Present(Table(RegsColumns, [job.regs[0]])), matches, order);
      && r.status == Finished
      && |r.sends| == 3
      && r.sends[k].sender == SenderFor(job, Web)
      && r.file.Present?
      && UidColumn(r.file.table.rows) == {job.regs[0].uid, job.regs[1].uid, job.regs[2].uid}
  {
    var regs := job.regs;
    var file := Present(Table(RegsColumns, [regs[0]]));
    assert "uid" in LoadBaseline(file, RegsColumns).0.columns;
    UidsOfThreeRows(regs);
    ThreeDistinct(regs[0].uid, regs[1].uid, regs[2].uid);
    assert order[k] in UidColumn([regs[0]]);
    KnownUserGoesWeb(job, file, matches, order, k);
  }
}
