/**
 The run as its dedup check and its clamp are evidently meant to work, set
 beside the run as written.

 The dedup check `check_user` is documented as telling whether a user "had
 this event before", and a user it reports as known is meant to be skipped.
 The code instead lets a known user fall through to the web branch. The
 clamp's factor 4*60*60 reads as four hours, but it is multiplied by 100
 rather than 1000 milliseconds, which gives 24 minutes.

 The definitions below skip known users and clamp at four hours. The lemmas
 show where they differ from `Runner`: a second run posts nothing, and three
 users with one known give two posts.
 */
module Intended {
  import opened Wrappers
  import opened Hits
  import opened Store
  import opened Transport
  import opened Runner

  /** Four hours in milliseconds. */
  const IntendedThreshold: int := 4 * 60 * 60 * 1000

  /** The clamp with a four-hour threshold. */
  function IntendedClampDelta(delta: int): (q: int)
    ensures q <= IntendedThreshold
    ensures q == delta || q == 0
    ensures q == delta <==> delta <= IntendedThreshold || delta == 0
  {
    if delta > IntendedThreshold then 0 else delta
  }

  /** Both clamps agree up to 24 minutes. Between 24 minutes and four hours
      the clamp as written zeroes a delta that the intended one keeps. */
  lemma ClampThresholdDiscrepancy(delta: int)
    ensures delta <= DeltaThreshold ==> ClampDelta(delta) == IntendedClampDelta(delta)
    ensures DeltaThreshold < delta <= IntendedThreshold ==> ClampDelta(delta) == 0 && IntendedClampDelta(delta) == delta
    ensures delta > IntendedThreshold ==> ClampDelta(delta) == IntendedClampDelta(delta) == 0
  {
  }

  /** A delta of 24 minutes and one millisecond is zeroed by the clamp as
      written and kept by the intended one. */
  lemma ClampCounterexample()
    ensures ClampDelta(1_440_001) == 0
    ensures IntendedClampDelta(1_440_001) == 1_440_001
  {
  }

  /** The channel a user is meant to get: none for a known user, otherwise the
      android test first, then the iOS test, then web. */
  function IntendedRoute(isNew: bool, event: seq<Row>, matches: (seq<Row>, string) -> bool): (ch: Option<Channel>)
    ensures ch == None <==> !isNew
    ensures ch.Some? ==> ch.value == Route(isNew, event, matches)
  {
    if !isNew then None
    else if matches(event, AndroidMarker) then Some(Android)
    else if matches(event, IosMarker) then Some(Ios)
    else Some(Web)
  }

  /** The builder arguments with the four-hour clamp; every other argument is
      the one the run as written passes. */
  function IntendedArgs(job: Job, event: seq<Row>, ch: Channel): EventArgs
    requires event != []
  {
    var c := job.constants;
    EventArgs(
      Text(PropertyOf(c, ch)),
      Column(CidColumn(event)),
      Text(c.regEventCategory),
      Text(c.regEventAction),
      Int(IntendedClampDelta(job.today - event[0].regDate)),
      Column(AffiliateColumn(event)),
      Column(CampaignColumn(event)),
      DefaultVersion,
      Text(c.regEventLabel))
  }

  /** The payload built with the four-hour clamp for the rows `event` sent
      through `ch`. */
  lemma IntendedPayloadFacts(job: Job, event: seq<Row>, ch: Channel)
    requires event != []
    ensures var p := Registration(IntendedArgs(job, event, ch));
      && IsEventHit(p)
      && p[Tid] == Text(PropertyOf(job.constants, ch))
      && p[Qt] == Int(IntendedClampDelta(job.today - event[0].regDate))
  {
    RegistrationRoundTrip(IntendedArgs(job, event, ch));
  }

  /** The post meant for a new user with rows `event` routed to `ch`: an
      event hit through that channel's sender, carrying its property and the
      first row's age clamped at four hours. */
  function IntendedPost(job: Job, event: seq<Row>, ch: Channel): (p: Post)
    requires event != []
    ensures p.sender == SenderFor(job, ch)
    ensures IsEventHit(p.payload) && p.payload[Tid] == Text(p.sender.property)
    ensures p.payload[Qt] == Int(IntendedClampDelta(job.today - event[0].regDate))
  {
    IntendedPayloadFacts(job, event, ch);
    Post(SenderFor(job, ch), Registration(IntendedArgs(job, event, ch)))
  }

  /** The post meant for `user` when the baseline does not list it. */
  function NewUserPost(job: Job, matches: (seq<Row>, string) -> bool, user: string): (p: Post)
    requires user in UidColumn(job.regs)
  {
    var event := Select(job.regs, user);
    IntendedPost(job, event, Route(true, event, matches))
  }

  /** The post meant for `user`: nothing for a user the baseline lists,
      otherwise the hit built with the four-hour clamp and sent through the
      channel the tag selects. */
  function IntendedHit(job: Job, baseline: Table, matches: (seq<Row>, string) -> bool, user: string): (p: Option<Post>)
    requires user in UidColumn(job.regs)
    ensures p == None <==> user in UidColumn(baseline.rows)
    ensures p.Some? ==> p.value.sender == SenderFor(job, Route(true, Select(job.regs, user), matches))
    ensures p.Some? ==> p.value == NewUserPost(job, matches, user)
  {
    var event := Select(job.regs, user);
    match IntendedRoute(user !in UidColumn(baseline.rows), event, matches)
    case None => None
    case Some(ch) => Some(IntendedPost(job, event, ch))
  }

  /** The posts meant for the users listed in `order`, in that order: one
      for each user the baseline does not list. */
  function IntendedSends(job: Job, baseline: Table, matches: (seq<Row>, string) -> bool, order: seq<string>): (sends: seq<Post>)
    requires forall u :: u in order ==> u in UidColumn(job.regs)
    ensures |sends| <= |order|
    decreases |order|
  {
    if order == [] then []
    else
      var rest := IntendedSends(job, baseline, matches, order[1..]);
      match IntendedHit(job, baseline, matches, order[0])
      case None => rest
      case Some(p) => [p] + rest
  }

  /** Every intended post is the post of some listed user the baseline does
      not know: no known user is posted. */
  lemma {:induction false} IntendedSendsSound(job: Job, baseline: Table, matches: (seq<Row>, string) -> bool, order: seq<string>)
    requires forall u :: u in order ==> u in UidColumn(job.regs)
    ensures forall p :: p in IntendedSends(job, baseline, matches, order) ==>
      exists u :: u in order && u !in UidColumn(baseline.rows) && p == NewUserPost(job, matches, u)
    decreases |order|
  {
    if order != [] {
      var rest := order[1..];
      assert forall u :: u in rest ==> u in order;
      IntendedSendsSound(job, baseline, matches, rest);
      assert order[0] in order;
    }
  }

  /** Every listed user the baseline does not know gets its post. */
  lemma {:induction false} IntendedSendsComplete(job: Job, baseline: Table, matches: (seq<Row>, string) -> bool, order: seq<string>)
    requires forall u :: u in order ==> u in UidColumn(job.regs)
    ensures forall u :: u in order && u !in UidColumn(baseline.rows) ==>
      NewUserPost(job, matches, u) in IntendedSends(job, baseline, matches, order)
    decreases |order|
  {
    if order != [] {
      var rest := order[1..];
      assert forall u :: u in rest ==> u in order;
      IntendedSendsComplete(job, baseline, matches, rest);
      forall u | u in order && u !in UidColumn(baseline.rows)
        ensures NewUserPost(job, matches, u) in IntendedSends(job, baseline, matches, order)
      {
        if u != order[0] {
          assert u in rest;
        }
      }
    }
  }

  /** The listed users the baseline does not know. */
  function NewUsers(order: seq<string>, known: set<string>): set<string> {
    set u | u in order && u !in known
  }

  /** Listing one more user, not listed before, adds one new user exactly
      when the baseline does not know it. */
  lemma NewUsersCons(x: string, rest: seq<string>, known: set<string>)
    requires x !in rest
    ensures |NewUsers([x] + rest, known)| == |NewUsers(rest, known)| + (if x in known then 0 else 1)
  {
    if x in known {
      assert NewUsers([x] + rest, known) == NewUsers(rest, known);
    } else {
      assert NewUsers([x] + rest, known) == NewUsers(rest, known) + {x};
    }
  }

  /** With no user listed twice, one post is meant for each new user. */
  lemma {:induction false} IntendedSendsCount(job: Job, baseline: Table, matches: (seq<Row>, string) -> bool, order: seq<string>)
    requires forall u :: u in order ==> u in UidColumn(job.regs)
    requires forall i, j :: 0 <= i < j < |order| ==> order[i] != order[j]
    ensures |IntendedSends(job, baseline, matches, order)| == |NewUsers(order, UidColumn(baseline.rows))|
    decreases |order|
  {
    var known := UidColumn(baseline.rows);
    if order == [] {
      assert NewUsers(order, known) == {};
    } else {
      var x := order[0];
      var rest := order[1..];
      assert forall i, j :: 0 <= i < j < |rest| ==> rest[i] != rest[j] by {
        forall i, j | 0 <= i < j < |rest|
          ensures rest[i] != rest[j]
        {
          assert rest[i] == order[i + 1] && rest[j] == order[j + 1];
        }
      }
      IntendedSendsCount(job, baseline, matches, rest);
      assert x !in rest by {
        forall k | 0 <= k < |rest|
          ensures rest[k] != x
        {
          assert rest[k] == order[k + 1];
        }
      }
      assert order == [x] + rest;
      NewUsersCons(x, rest, known);
    }
  }

  /** When the baseline already lists every listed user, nothing is meant to
      be posted. */
  lemma {:induction false} AllKnownPostsNothing(job: Job, baseline: Table, matches: (seq<Row>, string) -> bool, order: seq<string>)
    requires forall u :: u in order ==> u in UidColumn(job.regs)
    requires forall u :: u in order ==> u in UidColumn(baseline.rows)
    ensures IntendedSends(job, baseline, matches, order) == []
    decreases |order|
  {
    if order != [] {
      assert order[0] in order;
      assert forall u :: u in order[1..] ==> u in order;
      AllKnownPostsNothing(job, baseline, matches, order[1..]);
    }
  }

  /**
   The intended run: it ends and leaves the file exactly as the run as
   written does, but posts only for the users the loaded baseline does not
   list.
   */
  function IntendedRunSpec(job: Job, file: FileState, matches: (seq<Row>, string) -> bool, order: seq<string>): (r: RunOutcome)
    requires Enumerates(order, UidColumn(job.regs))
    ensures r.status == RunSpec(job, file, matches, order).status
    ensures r.file == RunSpec(job, file, matches, order).file
    ensures r.status != Finished ==> r.sends == []
    ensures r.status == Finished ==>
      |r.sends| == |NewUsers(order, UidColumn(LoadBaseline(file, RegsColumns).0.rows))|
    ensures r.status == Finished ==> forall p :: p in r.sends ==>
      exists u :: u in order && u !in UidColumn(LoadBaseline(file, RegsColumns).0.rows) && p == NewUserPost(job, matches, u)
    ensures r.status == Finished ==> forall u :: u in order && u !in UidColumn(LoadBaseline(file, RegsColumns).0.rows) ==>
      NewUserPost(job, matches, u) in r.sends
  {
    if !CheckQueryResult(job.regs) then
      RunOutcome([], file, EmptyResult)
    else
      var (baseline, loaded) := LoadBaseline(file, RegsColumns);
      if "uid" !in baseline.columns then
        RunOutcome([], loaded, MissingUidColumn)
      else
        IntendedSendsCount(job, baseline, matches, order);
        IntendedSendsSound(job, baseline, matches, order);
        IntendedSendsComplete(job, baseline, matches, order);
        RunOutcome(IntendedSends(job, baseline, matches, order), SaveQuery(job.regs, RegsColumns), Finished)
  }

  /**
   After a finished run, a second intended run over the same working set
   finishes and posts nothing, where the run as written posts every user
   again.
   */
  lemma IntendedSecondRunPostsNothing(job: Job, file: FileState, matches: (seq<Row>, string) -> bool,
                                      first: seq<string>, second: seq<string>)
    requires Enumerates(first, UidColumn(job.regs))
    requires Enumerates(second, UidColumn(job.regs))
    requires job.regs != [] && "uid" in LoadBaseline(file, RegsColumns).0.columns
    ensures var again := IntendedRunSpec(job, IntendedRunSpec(job, file, matches, first).file, matches, second);
      again.status == Finished && again.sends == []
  {
    var r1 := IntendedRunSpec(job, file, matches, first);
    var baseline := LoadBaseline(r1.file, RegsColumns).0;
    assert baseline == Table(RegsColumns, job.regs);
    assert "uid" in RegsColumns;
    AllKnownPostsNothing(job, baseline, matches, second);
  }

  /**
   Three rows with distinct user ids, the first of them already in the
   baseline: the intended run makes two posts, one per new user.
   */
  lemma IntendedThreeUsersOneKnown(job: Job, matches: (seq<Row>, string) -> bool, order: seq<string>)
    requires |job.regs| == 3
    requires job.regs[0].uid != job.regs[1].uid && job.regs[0].uid != job.regs[2].uid && job.regs[1].uid != job.regs[2].uid
    requires Enumerates(order, UidColumn(job.regs))
    ensures var r := IntendedRunSpec(job, Present(Table(RegsColumns, [job.regs[0]])), matches, order);
      r.status == Finished && |r.sends| == 2
  {
    var regs := job.regs;
    var file := Present(Table(RegsColumns, [regs[0]]));
    assert "uid" in LoadBaseline(file, RegsColumns).0.columns;
    assert regs == [regs[0], regs[1], regs[2]];
    assert UidColumn(regs) == {regs[0].uid, regs[1].uid, regs[2].uid};
    assert UidColumn([regs[0]]) == {regs[0].uid};
    assert NewUsers(order, {regs[0].uid}) == {regs[1].uid, regs[2].uid};
    assert |{regs[1].uid, regs[2].uid}| == 2;
  }
}
