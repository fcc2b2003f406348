/**
 One run of the registration sender.

 The run takes the warehouse result (the working set), stops if it is empty,
 loads the baseline of already-seen users (creating an empty one on the first
 run), and then visits every distinct user id once, in an order the data frame
 library does not fix. For each user it runs the dedup check, picks one of
 three channels in a fixed order (android, then iOS, then web as the
 fallback), clamps the time delta, builds an event hit and posts it through
 that channel's sender. Finally the whole working set overwrites the baseline.

 The campaign-tag test is a parameter `matches(event, marker)` about which
 nothing is assumed: every fact below holds whatever it decides.
 */
module Runner {
  import opened Wrappers
  import opened Hits
  import opened Store
  import opened Transport

  /** Deltas above this many milliseconds are replaced by 0. */
  const DeltaThreshold: int := 4 * 60 * 60 * 100
  const AndroidMarker: string := "adr_app"
  const IosMarker: string := "ios_app"

  /** The configuration values the run reads: three property ids and the
      event category, action and label. */
  datatype Constants = Constants(
    uaAndroid: string,
    uaIos: string,
    uaWeb: string,
    regEventCategory: string,
    regEventAction: string,
    regEventLabel: string)

  /** The inputs of one run besides the baseline file and the tag test:
      the working set, the configuration, the current instant in
      milliseconds and the debug flag of the senders. */
  datatype Job = Job(regs: seq<Row>, constants: Constants, today: int, debug: bool)

  datatype Channel = Android | Ios | Web

  datatype Status = Finished | EmptyResult | MissingUidColumn

  /** What a run leaves behind: the posts made, in order, the baseline file
      and how the run ended. */
  datatype RunOutcome = RunOutcome(sends: seq<Post>, file: FileState, status: Status)

  /** The time-delta sanity clamp: deltas above the threshold become 0, all
      others (negative ones included) pass through. */
  function ClampDelta(delta: int): (q: int)
    ensures q <= DeltaThreshold
    ensures q == delta || q == 0
    ensures q == delta <==> delta <= DeltaThreshold || delta == 0
  {
    if delta > DeltaThreshold then 0 else delta
  }

  /** The channel chosen for a user: the android test wins over the iOS test,
      both require a new user, and web takes everything else. */
  function Route(isNew: bool, event: seq<Row>, matches: (seq<Row>, string) -> bool): (ch: Channel)
    ensures ch == Android <==> isNew && matches(event, AndroidMarker)
    ensures ch == Ios <==> isNew && !matches(event, AndroidMarker) && matches(event, IosMarker)
    ensures !isNew ==> ch == Web
  {
    if isNew && matches(event, AndroidMarker) then Android
    else if isNew && matches(event, IosMarker) then Ios
    else Web
  }

  function PropertyOf(c: Constants, ch: Channel): string {
    match ch
    case Android => c.uaAndroid
    case Ios => c.uaIos
    case Web => c.uaWeb
  }

  /** The sender a channel owns for the whole run. */
  function SenderFor(job: Job, ch: Channel): Sender {
    NewSender(PropertyOf(job.constants, ch), job.debug)
  }

  /** The builder arguments for the rows `event` of one user sent through
      `ch`: the channel's property id, the rows' client ids, affiliate ids and
      campaign tags, the configured category, action and label, the clamped
      age of the first row and the default protocol version. */
  function RegistrationArgs(job: Job, event: seq<Row>, ch: Channel): EventArgs
    requires event != []
  {
    var c := job.constants;
    EventArgs(
      Text(PropertyOf(c, ch)),
      Column(CidColumn(event)),
      Text(c.regEventCategory),
      Text(c.regEventAction),
      Int(ClampDelta(job.today - event[0].regDate)),
      Column(AffiliateColumn(event)),
      Column(CampaignColumn(event)),
      DefaultVersion,
      Text(c.regEventLabel))
  }

  /** The event hit built for the rows `event` of one user sent through `ch`. */
  function RegistrationHit(job: Job, event: seq<Row>, ch: Channel): Payload
    requires event != []
  {
    Registration(RegistrationArgs(job, event, ch))
  }

  /** What the hit built for one user carries: the channel's property id as
      `tid`, the user's client ids as both `cid` and `cd1`, the affiliate ids
      and campaign tags, the configured category and action, a time delta
      that is the first row's age unless that exceeds the threshold (then 0),
      protocol version 1 and the configured label. */
  lemma RegistrationHitFacts(job: Job, event: seq<Row>, ch: Channel)
    requires event != []
    ensures var p := RegistrationHit(job, event, ch);
      && IsEventHit(p)
      && p[Tid] == Text(PropertyOf(job.constants, ch))
      && p[Cid] == Column(CidColumn(event))
      && p[Cs] == Column(AffiliateColumn(event))
      && p[Cn] == Column(CampaignColumn(event))
      && p[Ec] == Text(job.constants.regEventCategory)
      && p[Ea] == Text(job.constants.regEventAction)
      && p[Qt] == Int(ClampDelta(job.today - event[0].regDate))
      && p[Qt].n <= DeltaThreshold
      && p[V] == Int(1)
      && p[El] == Text(job.constants.regEventLabel)
  {
    var a := RegistrationArgs(job, event, ch);
    assert ParseEvent(Registration(a)) == Some(a);
  }

  /** The one post a run makes for `user`, given the baseline it loaded. */
  function HitFor(job: Job, baseline: Table, matches: (seq<Row>, string) -> bool, user: string): (p: Post)
    requires user in UidColumn(job.regs)
    ensures p.sender == SenderFor(job, Route(user !in UidColumn(baseline.rows), Select(job.regs, user), matches))
    ensures user in UidColumn(baseline.rows) ==> p.sender == SenderFor(job, Web)
    ensures IsEventHit(p.payload) && p.payload[Tid] == Text(p.sender.property)
    ensures p.payload[Qt].Int? && p.payload[Qt].n <= DeltaThreshold
    ensures ParseEvent(p.payload) ==
      Some(RegistrationArgs(job, Select(job.regs, user),
                            Route(user !in UidColumn(baseline.rows), Select(job.regs, user), matches)))
  {
    var event := Select(job.regs, user);
    var ch := Route(user !in UidColumn(baseline.rows), event, matches);
    RegistrationHitFacts(job, event, ch);
    RegistrationRoundTrip(RegistrationArgs(job, event, ch));
    Post(SenderFor(job, ch), RegistrationHit(job, event, ch))
  }

  /** `order` lists every element of `s` exactly once. */
  predicate Enumerates(order: seq<string>, s: set<string>) {
    && (forall i, j :: 0 <= i < j < |order| ==> order[i] != order[j])
    && (forall x :: x in order ==> x in s)
    && (forall x :: x in s ==> x in order)
  }

  /** A duplicate-free listing of a set is as long as the set is large. */
  lemma {:induction false} EnumerationSize(order: seq<string>, s: set<string>)
    requires Enumerates(order, s)
    ensures |order| == |s|
    decreases |order|
  {
    if order == [] {
      assert forall x :: x in s ==> x in order;
      assert s == {};
    } else {
      var x := order[0];
      var rest := order[1..];
      forall y
        ensures y in rest <==> y in s - {x}
      {
        if y in rest {
          var k :| 0 <= k < |rest| && rest[k] == y;
          assert order[k + 1] == y;
        }
      }
      EnumerationSize(rest, s - {x});
    }
  }

  /** The posts of a run that reaches its loop, one per listed user, in the
      order listed. */
  function PlannedSends(job: Job, baseline: Table, matches: (seq<Row>, string) -> bool, order: seq<string>): (sends: seq<Post>)
    requires forall u :: u in order ==> u in UidColumn(job.regs)
  {
    seq(|order|, i requires 0 <= i < |order| => HitFor(job, baseline, matches, order[i]))
  }

  /**
   The whole run, with the distinct user ids visited in the order `order`.
   An empty result ends the run with no post and the file untouched; a
   baseline without a `uid` column stops it at the first dedup check; every
   other run makes exactly one post per distinct user id and leaves the
   working set as the new baseline.
   */
  function RunSpec(job: Job, file: FileState, matches: (seq<Row>, string) -> bool, order: seq<string>): (r: RunOutcome)
    requires Enumerates(order, UidColumn(job.regs))
    ensures r.status == EmptyResult <==> job.regs == []
    ensures r.status == EmptyResult ==> r.sends == [] && r.file == file
    ensures r.status == MissingUidColumn <==> job.regs != [] && "uid" !in LoadBaseline(file, RegsColumns).0.columns
    ensures r.status == MissingUidColumn ==> r.sends == [] && r.file == LoadBaseline(file, RegsColumns).1
    ensures r.status == Finished ==> r.file == Present(Table(RegsColumns, job.regs))
    ensures r.status == Finished ==> |r.sends| == |order| == |UidColumn(job.regs)|
    ensures r.status == Finished ==>
      forall i :: 0 <= i < |r.sends| ==> r.sends[i] == HitFor(job, LoadBaseline(file, RegsColumns).0, matches, order[i])
  {
    if !CheckQueryResult(job.regs) then
      RunOutcome([], file, EmptyResult)
    else
      var (baseline, loaded) := LoadBaseline(file, RegsColumns);
      assert job.regs[0].uid in order;
      if "uid" !in baseline.columns then
        RunOutcome([], loaded, MissingUidColumn)
      else
        EnumerationSize(order, UidColumn(job.regs));
        RunOutcome(PlannedSends(job, baseline, matches, order), SaveQuery(job.regs, RegsColumns), Finished)
  }

  /**
   The body of the run loop after the dedup check, with its three
   near-identical branches: choose the sender, clamp the delta, build the hit.
   */
  method RouteAndBuild(job: Job, isNew: bool, event: seq<Row>, matches: (seq<Row>, string) -> bool,
                       sendAdr: Sender, sendIos: Sender, sendDesk: Sender)
    returns (sender: Sender, payload: Payload)
    requires event != []
    requires sendAdr == SenderFor(job, Android)
    requires sendIos == SenderFor(job, Ios)
    requires sendDesk == SenderFor(job, Web)
    ensures sender == SenderFor(job, Route(isNew, event, matches))
    ensures payload == Registration(RegistrationArgs(job, event, Route(isNew, event, matches)))
  {
    var c := job.constants;
    if isNew && matches(event, AndroidMarker) {
      var eventTsDelta := job.today - event[0].regDate;
      if eventTsDelta > 4 * 60 * 60 * 100 {
        eventTsDelta := 0;
      }
      var args := EventArgs(
        Text(c.uaAndroid), Column(CidColumn(event)), Text(c.regEventCategory), Text(c.regEventAction),
        Int(eventTsDelta), Column(AffiliateColumn(event)), Column(CampaignColumn(event)),
        DefaultVersion, Text(c.regEventLabel));
      assert args == RegistrationArgs(job, event, Android);
      payload := Registration(args);
      sender := sendAdr;
    } else if isNew && matches(event, IosMarker) {
      var eventTsDelta := job.today - event[0].regDate;
      if eventTsDelta > 4 * 60 * 60 * 100 {
        eventTsDelta := 0;
      }
      var args := EventArgs(
        Text(c.uaIos), Column(CidColumn(event)), Text(c.regEventCategory), Text(c.regEventAction),
        Int(eventTsDelta), Column(AffiliateColumn(event)), Column(CampaignColumn(event)),
        DefaultVersion, Text(c.regEventLabel));
      assert args == RegistrationArgs(job, event, Ios);
      payload := Registration(args);
      sender := sendIos;
    } else {
      var eventTsDelta := job.today - event[0].regDate;
      if eventTsDelta > 4 * 60 * 60 * 100 {
        eventTsDelta := 0;
      }
      var args := EventArgs(
        Text(c.uaWeb), Column(CidColumn(event)), Text(c.regEventCategory), Text(c.regEventAction),
        Int(eventTsDelta), Column(AffiliateColumn(event)), Column(CampaignColumn(event)),
        DefaultVersion, Text(c.regEventLabel));
      assert args == RegistrationArgs(job, event, Web);
      payload := Registration(args);
      sender := sendDesk;
    }
  }

  /**
   One pass of the loop for `user`: the dedup check (which may fail on a
   baseline without a `uid` column), then route and build the user's hit.
   */
  method Visit(job: Job, savedRegs: Table, file: FileState, matches: (seq<Row>, string) -> bool,
               user: string, sendAdr: Sender, sendIos: Sender, sendDesk: Sender)
    returns (sender: Sender, payload: Payload, file': FileState, keyError: bool)
    requires user in UidColumn(job.regs)
    requires sendAdr == SenderFor(job, Android)
    requires sendIos == SenderFor(job, Ios)
    requires sendDesk == SenderFor(job, Web)
    ensures keyError <==> "uid" !in savedRegs.columns
    ensures keyError ==> file' == file
    ensures file' == file || file' == Present(savedRegs)
    ensures !keyError ==> Post(sender, payload) == HitFor(job, savedRegs, matches, user)
  {
    var regsDf := Table(RegsColumns, job.regs);
    var check := CheckUser(user, savedRegs, regsDf, file);
    if check.KeyError? {
      return sendDesk, map[], file, true;
    }
    file' := check.file;
    var event := Select(job.regs, user);
    sender, payload := RouteAndBuild(job, check.isNew, event, matches, sendAdr, sendIos, sendDesk);
    keyError := false;
  }

  /**
   The loop over the distinct user ids. It stops at the first dedup check
   when the baseline has no `uid` column; otherwise it posts once per user
   id, in the order given.
   */
  method SendAll(job: Job, savedRegs: Table, file: FileState, matches: (seq<Row>, string) -> bool,
                 order: seq<string>, sendAdr: Sender, sendIos: Sender, sendDesk: Sender)
    returns (sends: seq<Post>, file': FileState, keyError: bool)
    requires forall u :: u in order ==> u in UidColumn(job.regs)
    requires sendAdr == SenderFor(job, Android)
    requires sendIos == SenderFor(job, Ios)
    requires sendDesk == SenderFor(job, Web)
    ensures keyError <==> order != [] && "uid" !in savedRegs.columns
    ensures keyError ==> sends == [] && file' == file
    ensures file' == file || file' == Present(savedRegs)
    ensures !keyError ==> sends == PlannedSends(job, savedRegs, matches, order)
  {
    ghost var planned := PlannedSends(job, savedRegs, matches, order);
    file' := file;
    sends := [];
    for i := 0 to |order|
      invariant |sends| == i
      invariant forall j :: 0 <= j < i ==> sends[j] == planned[j]
      invariant "uid" !in savedRegs.columns ==> i == 0
      invariant file' == file || (i > 0 && file' == Present(savedRegs))
    {
      var sender, payload, f, failed := Visit(job, savedRegs, file', matches, order[i], sendAdr, sendIos, sendDesk);
      if failed {
        return [], f, true;
      }
      file' := f;
      assert planned[i] == Post(sender, payload);
      sends := SendEvent(sends, sender, payload);
    }
    keyError := false;
  }

  /**
   The run as written: stop on an empty result, load the baseline, visit
   every user id, then overwrite the baseline with the working set. Its
   result is the run described by `RunSpec`.
   */
  method Run(job: Job, file: FileState, matches: (seq<Row>, string) -> bool, order: seq<string>)
    returns (sends: seq<Post>, file': FileState, status: Status)
    requires Enumerates(order, UidColumn(job.regs))
    ensures RunOutcome(sends, file', status) == RunSpec(job, file, matches, order)
    ensures status == Finished ==> |sends| == |UidColumn(job.regs)|
    ensures status == Finished ==> file' == Present(Table(RegsColumns, job.regs))
  {
    if !CheckQueryResult(job.regs) {
      return [], file, EmptyResult;
    }
    var c := job.constants;
    var sendAdr := NewSender(c.uaAndroid, job.debug);
    var sendIos := NewSender(c.uaIos, job.debug);
    var sendDesk := NewSender(c.uaWeb, job.debug);
    var loaded := LoadBaseline(file, RegsColumns);
    assert job.regs[0].uid in order;
    var keyError;
    sends, file', keyError := SendAll(job, loaded.0, loaded.1, matches, order, sendAdr, sendIos, sendDesk);
    if keyError {
      return [], file', MissingUidColumn;
    }
    file' := SaveQuery(job.regs, RegsColumns);
    status := Finished;
  }
}
